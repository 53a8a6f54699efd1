/** What holds of every accepted path: its form, where it lies, and when it is a fixed point; and that a
    file name joined to a directory is exactly one component below it. */
module PathTheorems {
  import opened Wrappers
  import opened PathModel
  import opened Texts
  import opened PathNames

  /** Inside one of the shared storage roots. */
  predicate Confined(names: seq<string>) { InternalRoot(names) || ExternalRoot(names) }

  /** The one case in which rewriting brings up "..": the last component of a path on a removable volume
      was ".." and a newline, and the newline is dropped. */
  predicate Dotted(path: string) {
    HidesParent(Names(path))
  }

  // ---------------------------------------------------------------- acceptance

  lemma ShownNames(value: string)
    requires Root(value) == 1
    ensures Show(Parse(value)) == if Names(value) == [] then "/" else Tail(Names(value))
    ensures Allowed(Parse(value)) <==> Confined(Names(value))
  {
    var names := Names(value);
    if names == [] {
      assert !IsExternal("/");
    } else {
      ExternalShows(names);
    }
  }

  /** A path with two leading slashes is another place and is never accepted. */
  lemma DoubleSlashIsRefused(path: string)
    requires Root(path) == 2
    ensures Normalize(path).Err?
  {
    if Canonical(path).Ok? {
      var s := Show(Parse(path));
      assert |s| >= 2 && s[1] == '/' by {
        if Names(path) != [] { assert Tail(Names(path))[0] == '/'; }
      }
      DoubleSlashStays(s, 0);
      NotMounted(s);
      ShownDouble(path, s);
    }
  }

  lemma NotMounted(s: string)
    requires |s| >= 2 && s[1] == '/'
    ensures !IsMediaPath(s)
  {
    assert |s| >= 23 ==> s[..14][1] == '/' && MEDIA_RW[1] == 'm';
  }

  lemma {:induction false} DoubleSlashStays(s: string, k: nat)
    requires k <= |INTERNAL| && |s| >= 2 && s[1] == '/'
    ensures CaseFixed(s, k) == s
    decreases |INTERNAL| - k
  {
    if k < |INTERNAL| {
      var alias := Lower(KnownRoot(k));
      assert alias[1] == 's' && Lower(s)[1] == '/';
      assert !Below(Lower(s), alias) by { assert |alias| < |s| ==> Lower(s)[..|alias|][1] == '/'; }
      DoubleSlashStays(s, k + 1);
    }
  }

  lemma ShownDouble(path: string, s: string)
    requires Root(path) == 2 && s == Show(Parse(path))
    ensures !Allowed(Parse(s))
  {
    RootStaysDouble(Names(path), s);
    NotExternal(Names(s));
  }

  lemma RootStaysDouble(names: seq<string>, s: string)
    requires AllPlain(names) && s == Show(Pure(2, names))
    ensures Root(s) == 2
  {
    if names != [] {
      var tail := names[0] + Tail(names[1..]);
      Associates("/", names[0], Tail(names[1..]));
      assert s == "/" + ("/" + tail);
      assert s[0] == '/' && s[1] == '/' && s[2] == tail[0] == names[0][0];
      assert names[0][0] in names[0];
    }
  }

  lemma NotExternal(names: seq<string>)
    ensures !IsExternal(Show(Pure(2, names)))
  {
    var shown := Show(Pure(2, names));
    assert |shown| >= 2 && shown[1] == '/' by {
      if names != [] { assert Tail(names)[0] == '/'; }
    }
    assert |shown| >= 18 ==> shown[..9][1] == '/' && STORAGE[1] == 's';
  }

  /** A path is accepted exactly when it is well formed, absolute and, rewritten, inside a storage root; the
      result prints the rewritten components. */
  lemma AcceptedExactly(path: string)
    ensures Normalize(path).Ok? <==> Canonical(path).Ok? && Root(path) == 1 && Confined(Rewritten(Names(path)))
    ensures Normalize(path).Ok? ==> Normalize(path).value == Tail(Rewritten(Names(path)))
  {
    if Canonical(path).Ok? {
      if Root(path) == 1 {
        CanonicalNames(path);
        ShownNames(Canonical(path).value);
      } else {
        DoubleSlashIsRefused(path);
      }
    }
  }

  // ---------------------------------------------------------------- ".." and fixed points

  lemma {:induction false} FixedNamesDots(names: seq<string>, k: nat)
    requires k <= |INTERNAL| && AllPlain(names)
    ensures ".." in FixedNames(names, k) ==> ".." in names
    ensures FixedNames(names, k) != names ==> |names| >= 2 && FixedNames(names, k)[0] == "sdcard" && !UnderMedia(names)
    decreases |INTERNAL| - k
  {
    if k < |INTERNAL| {
      var words := RootWords(k);
      if StartsWith(LowerNames(names), LowerNames(words)) {
        assert LowerNames(names)[..2][0] == Lower(names[0]) && LowerNames(words)[0] == Lower("sdcard");
        assert Lower("sdcard")[0] == 's' && Lower("mnt")[0] == 'm';
        assert ".." !in words;
        TakeAndDrop(names, 2);
      } else {
        FixedNamesDots(names, k + 1);
      }
    }
  }

  lemma UnaliasedDots(names: seq<string>)
    requires AllPlain(names)
    ensures ".." in UnaliasedNames(names) ==> ".." in names
    ensures UnaliasedNames(names) != names ==>
        UnaliasedNames(names)[0] == "sdcard" && !(|names| >= 2 && names[0] == "mnt" && names[1] == "media_rw")
  {
    if StartsWith(names, EMULATED) {
      TakeAndDrop(names, 3);
      assert names[..3][0] == "storage";
    } else if StartsWith(names, MNT_SDCARD) {
      TakeAndDrop(names, 2);
      assert names[..2][1] == "sdcard";
    }
  }

  lemma ChompedDots(names: seq<string>)
    requires AllPlain(names) && ".." !in names
    ensures ".." in ChompedNames(names) <==> names != [] && names[|names| - 1] == "..\n"
  {
    if names != [] {
      var last := names[|names| - 1];
      assert last == "..\n" ==> last[|last| - 1] == '\n' && last[..|last| - 1] == "..";
      assert last[|last| - 1] == '\n' && last[..|last| - 1] == ".." ==> last == "..\n";
    }
  }

  lemma MediaDots(names: seq<string>)
    requires AllPlain(names) && ".." !in names
    ensures ".." in MediaNames(names) ==> HidesParent(names)
    ensures HidesParent(names) && MediaNames(names) != names ==> ".." in MediaNames(names)
  {
    if UnderMedia(names) && IsVolume(names[2]) {
      ChompedDots(names[3..]);
      assert names[2] != "..";
    }
  }

  predicate HidesParent(names: seq<string>) {
    UnderMedia(names) && |names| >= 4 && IsVolume(names[2]) && names[|names| - 1] == "..\n"
  }

  lemma ConfinedMediaDots(names: seq<string>)
    requires AllPlain(names) && ".." !in names && Confined(MediaNames(names))
    ensures ".." in MediaNames(names) <==> HidesParent(names)
  {
    MediaDots(names);
    assert UnderMedia(names) ==> !Confined(names);
  }

  /** Before the last rewriting no "..", and no other path has become one under /mnt/media_rw. */
  lemma RewritingBefore(names: seq<string>)
    requires AllPlain(names) && ".." !in names
    ensures var n := FixedNames(UnaliasedNames(names), 0); ".." !in n && (HidesParent(n) <==> HidesParent(names))
  {
    UnaliasedDots(names);
    FixedNamesDots(UnaliasedNames(names), 0);
  }

  /** An accepted path is free of ".." exactly unless the path came in with the one form that hides it. */
  lemma FreeOfParentExactly(path: string)
    requires Normalize(path).Ok?
    ensures ".." in Names(Normalize(path).value) <==> Dotted(path)
  {
    AcceptedExactly(path);
    NamesPrinted(Rewritten(Names(path)));
    RewritingBefore(Names(path));
    ConfinedMediaDots(FixedNames(UnaliasedNames(Names(path)), 0));
  }

  lemma LowerTellsRootsApart(name: string, k: nat)
    requires k < |INTERNAL| && name in INTERNAL && Lower(name) == Lower(INTERNAL[k])
    ensures name == INTERNAL[k]
  {
    assert |name| == |INTERNAL[k]|;
    assert Lower(name)[0] == LowerChar(name[0]) && Lower(INTERNAL[k])[0] == LowerChar(INTERNAL[k][0]);
  }

  lemma {:induction false} ConfinedIsFixed(names: seq<string>, k: nat)
    requires k <= |INTERNAL| && AllPlain(names) && Confined(names)
    ensures FixedNames(names, k) == names
    decreases |INTERNAL| - k
  {
    if k < |INTERNAL| {
      var words := RootWords(k);
      if StartsWith(LowerNames(names), LowerNames(words)) {
        assert LowerNames(names)[..2][0] == Lower(names[0]) && LowerNames(names)[..2][1] == Lower(names[1]);
        assert LowerNames(words)[0] == Lower("sdcard") && LowerNames(words)[1] == Lower(INTERNAL[k]);
        assert |Lower(names[0])| == 6;
        LowerTellsRootsApart(names[1], k);
        assert names[..2] == words;
        TakeAndDrop(names, 2);
      } else {
        ConfinedIsFixed(names, k + 1);
      }
    }
  }

  lemma ConfinedIsRewritten(names: seq<string>)
    requires AllPlain(names) && Confined(names)
    ensures Rewritten(names) == names
  {
    NotStarting(names, EMULATED, if names[0] == "storage" then 1 else 0);
    NotStarting(names, MNT_SDCARD, 0);
    ConfinedIsFixed(names, 0);
  }

  lemma NotStarting(names: seq<string>, words: seq<string>, i: nat)
    requires i < |names| && i < |words| && names[i] != words[i]
    ensures !StartsWith(names, words)
  {
    assert |words| <= |names| ==> names[..|words|][i] == names[i];
  }

  predicate Usable(s: string) { '\0' !in s && '\\' !in s }

  /** A printed path inside a root, without "..", is its own normal form. */
  lemma FixedPoint(names: seq<string>)
    requires AllPlain(names) && Confined(names) && ".." !in names && Usable(Tail(names))
    ensures Normalize(Tail(names)) == Ok(Tail(names))
  {
    ParseOfTail(names);
    ConfinedIsRewritten(names);
    AcceptedExactly(Tail(names));
  }

  lemma {:induction false} NamesChars(s: string, c: char)
    requires c !in s
    ensures forall i :: 0 <= i < |Names(s)| ==> c !in Names(s)[i]
    decreases |s|
  {
    if s != "" {
      var i := FirstSlash(s);
      if i < |s| { NamesChars(s[i + 1..], c); }
    }
  }

  predicate Without(names: seq<string>, c: char) { forall i :: 0 <= i < |names| ==> c !in names[i] }

  lemma {:induction false} FixedWithout(names: seq<string>, k: nat, c: char)
    requires k <= |INTERNAL| && AllPlain(names) && Without(names, c) && (c == '\0' || c == '\\')
    ensures Without(FixedNames(names, k), c)
    decreases |INTERNAL| - k
  {
    if k < |INTERNAL| {
      FixedWithout(names, k + 1, c);
      assert Without(RootWords(k), c);
    }
  }

  lemma UnaliasedWithout(names: seq<string>, c: char)
    requires AllPlain(names) && Without(names, c) && (c == '\0' || c == '\\')
    ensures Without(UnaliasedNames(names), c)
  {
    assert Without(SDCARD, c);
  }

  lemma ChompedWithout(names: seq<string>, c: char)
    requires AllPlain(names) && Without(names, c)
    ensures Without(ChompedNames(names), c)
  {
    if names != [] { assert c !in names[|names| - 1]; }
  }

  lemma WithoutBoth(a: seq<string>, b: seq<string>, c: char)
    requires Without(a, c) && Without(b, c)
    ensures Without(a + b, c)
  {
  }

  lemma StorageWithout(name: string, c: char)
    requires c !in name && (c == '\0' || c == '\\')
    ensures Without(["storage", name], c)
  {
    assert c !in "storage";
  }

  lemma MediaWithout(names: seq<string>, c: char)
    requires AllPlain(names) && Without(names, c) && (c == '\0' || c == '\\')
    ensures Without(MediaNames(names), c)
  {
    if UnderMedia(names) {
      StorageWithout(names[2], c);
      if |names[2]| >= 9 { StorageWithout(names[2][..9], c); }
      ChompedWithout(names[3..], c);
      WithoutBoth(["storage", names[2]], ChompedNames(names[3..]), c);
    }
  }

  lemma RewrittenWithout(names: seq<string>, c: char)
    requires AllPlain(names) && Without(names, c) && (c == '\0' || c == '\\')
    ensures Without(Rewritten(names), c)
  {
    UnaliasedWithout(names, c);
    FixedWithout(UnaliasedNames(names), 0, c);
    MediaWithout(FixedNames(UnaliasedNames(names), 0), c);
  }

  lemma ResultIsUsable(path: string)
    requires Normalize(path).Ok?
    ensures Usable(Normalize(path).value)
  {
    AcceptedExactly(path);
    NamesChars(path, '\0');
    NamesChars(path, '\\');
    RewrittenWithout(Names(path), '\0');
    RewrittenWithout(Names(path), '\\');
    CharsOfTail(Rewritten(Names(path)), '\0');
    CharsOfTail(Rewritten(Names(path)), '\\');
  }

  /** Every accepted path is printed canonically: absolute, without empty or "." components, inside a root. */
  lemma NormalForm(path: string)
    requires Normalize(path).Ok?
    ensures var names := Names(Normalize(path).value);
            Normalize(path).value == Tail(names) && Confined(names) && Parse(Normalize(path).value) == Pure(1, names)
  {
    AcceptedExactly(path);
    ParseOfTail(Rewritten(Names(path)));
  }

  /** Normalising again changes nothing, exactly unless the path came in with the one form that hides "..". */
  lemma IdempotentExactly(path: string)
    requires Normalize(path).Ok?
    ensures Normalize(Normalize(path).value) == Ok(Normalize(path).value) <==> !Dotted(path)
  {
    NormalForm(path);
    FreeOfParentExactly(path);
    ResultIsUsable(path);
    if !Dotted(path) { FixedPoint(Names(Normalize(path).value)); }
  }

  // ---------------------------------------------------------------- file names and joining

  /** An ordinary component: no separators or control characters, and no dot at its end. */
  predicate Ordinary(name: string) {
    name != "" && name[|name| - 1] != '.' && forall i :: 0 <= i < |name| ==> !IsForbidden(name[i])
  }

  lemma TrimmedIsOrdinary(s: string)
    ensures Trimmed(s) == "" || Ordinary(Trimmed(s))
  {
    var stripped := StripDots(Strip(s));
    if Trimmed(s) != "" { assert stripped[|stripped| - 1] != '.'; }
  }

  lemma UnreservedIsOrdinary(name: string)
    requires Ordinary(name)
    ensures Ordinary(Unreserved(name))
  {
    var marked := "_" + name;
    assert marked[|marked| - 1] == name[|name| - 1];
    assert forall i :: 0 < i < |marked| ==> marked[i] == name[i - 1];
  }

  lemma ShortenedIsOneName(name: string)
    requires Ordinary(name)
    ensures var r := Shortened(name);
            Plain(r) && r != ".." && |r| <= MAX_NAME && forall i :: 0 <= i < |r| ==> !IsForbidden(r[i])
  {
    assert IsForbidden('/');
  }

  /** Whatever the name, what is left is one ordinary component without separators or control characters,
      and neither "." nor "..". */
  lemma SanitizedIsOneName(filename: string)
    ensures var name := Sanitized(filename);
            && Plain(name) && name != ".." && |name| <= MAX_NAME
            && forall i :: 0 <= i < |name| ==> !IsForbidden(name[i])
  {
    var trimmed := Trimmed(LastName(filename));
    TrimmedIsOrdinary(LastName(filename));
    assert Ordinary("file");
    var named := if trimmed == "" then "file" else trimmed;
    UnreservedIsOrdinary(named);
    ShortenedIsOneName(Unreserved(named));
  }

  /** Joining succeeds for every accepted directory but the form that hides "..", for every file name, and
      gives the directory, a slash and one component: never a storage root. */
  lemma JoinedIsOneBelow(directory: string, filename: string)
    ensures Join(directory, filename).Ok? <==> Normalize(directory).Ok? && !Dotted(directory)
    ensures Join(directory, filename).Ok? ==>
              var d, path := Normalize(directory).value, Join(directory, filename).value;
              && path == d + ("/" + Sanitized(filename))
              && Names(path) == Names(d) + [Sanitized(filename)]
              && IsStorageRoot(path) == Ok(false)
  {
    if Normalize(directory).Ok? {
      NormalForm(directory);
      FreeOfParentExactly(directory);
      var d, name := Normalize(directory).value, Sanitized(filename);
      var names := Names(d);
      SanitizedIsOneName(filename);
      JoinedNames(names, name);
      ParseOfTail(names + [name]);
      if Dotted(directory) {
        assert ".." in names + [name];
        assert Canonical(Tail(names + [name])).Err?;
      } else {
        ResultIsUsable(directory);
        JoinedConfined(names, name);
        JoinedUsable(d, name);
        FixedPoint(names + [name]);
      }
    }
  }

  lemma JoinedNames(names: seq<string>, name: string)
    ensures Tail(names + [name]) == Tail(names) + ("/" + name)
  {
    TailOfBoth(names, [name]);
    var one := [name];
    assert |one[1..]| == 0;
    assert Tail(one) == "/" + name + "";
  }

  lemma JoinedConfined(names: seq<string>, name: string)
    requires Confined(names) && '\n' !in name && ".." !in names && name != ".."
    ensures Confined(names + [name]) && ".." !in names + [name]
  {
  }

  lemma JoinedUsable(d: string, name: string)
    requires Usable(d) && forall i :: 0 <= i < |name| ==> !IsForbidden(name[i])
    ensures Usable(d + ("/" + name)) && '\n' !in name
  {
    assert IsForbidden('\0') && IsForbidden('\\') && IsForbidden('\n');
  }

  /** The protected roots are exactly the accepted paths with two components. */
  lemma RootsAreTheShallowest(path: string)
    ensures IsStorageRoot(path).Ok? <==> Normalize(path).Ok?
    ensures IsStorageRoot(path) == Ok(true) <==> Normalize(path).Ok? && |Names(Normalize(path).value)| == 2
    ensures Normalize(path).Ok? ==> |Names(Normalize(path).value)| >= 2
  {
    if Normalize(path).Ok? { NormalForm(path); }
  }

  lemma HiddenShape(volume: string)
    ensures MEDIA_RW + volume + "/..\n" == Tail(["mnt", "media_rw", volume, "..\n"])
    ensures STORAGE + volume + "/.." == Tail(["storage", volume, ".."])
  {
    MediaIsTail(volume);
    JoinedNames(["mnt", "media_rw", volume], "..\n");
    JoinedNames(["storage", volume], "..");
    assert ["mnt", "media_rw", volume] + ["..\n"] == ["mnt", "media_rw", volume, "..\n"];
    assert ["storage", volume] + [".."] == ["storage", volume, ".."];
    assert "/" + "..\n" == "/..\n" && "/" + ".." == "/..";
  }

  /** The form that hides "..", with a volume and its newline. */
  lemma ANewlineHidesTheParent(volume: string, path: string)
    requires IsVolume(volume) && path == MEDIA_RW + volume + "/..\n"
    ensures Normalize(path) == Ok(STORAGE + volume + "/..") && Dotted(path)
    ensures Normalize(STORAGE + volume + "/..") == Err(NotAbsolute)
  {
    var all, shown := ["mnt", "media_rw", volume, "..\n"], ["storage", volume, ".."];
    HiddenShape(volume);
    HiddenParent(volume, all, shown);
    HiddenUsable(volume);
    ParseOfTail(all);
    ParseOfTail(shown);
    HiddenIsAccepted(path, volume, all, shown);
    assert shown[2] == "..";
  }

  lemma HiddenIsAccepted(path: string, volume: string, all: seq<string>, shown: seq<string>)
    requires IsVolume(volume) && all == ["mnt", "media_rw", volume, "..\n"] && AllPlain(all) && ".." !in all
    requires Usable(path) && path != "" && Parse(path) == Pure(1, all) && Rewritten(all) == shown && Confined(shown)
    ensures Normalize(path) == Ok(Tail(shown)) && Dotted(path)
  {
    AcceptedExactly(path);
  }

  lemma HiddenParent(volume: string, all: seq<string>, shown: seq<string>)
    requires IsVolume(volume) && all == ["mnt", "media_rw", volume, "..\n"] && shown == ["storage", volume, ".."]
    ensures AllPlain(all) && ".." !in all && Rewritten(all) == shown && Confined(shown)
  {
    HiddenPlain(volume, all);
    HiddenUntouched(all);
    HiddenMedia(volume, all);
    HiddenConfined(volume, shown);
  }

  lemma HiddenPlain(volume: string, all: seq<string>)
    requires IsVolume(volume) && all == ["mnt", "media_rw", volume, "..\n"]
    ensures AllPlain(all) && ".." !in all && UnderMedia(all)
  {
    VolumesArePlain(volume);
    assert Plain("..\n") && Plain("mnt") && Plain("media_rw");
  }

  lemma HiddenConfined(volume: string, shown: seq<string>)
    requires IsVolume(volume) && shown == ["storage", volume, ".."]
    ensures Confined(shown)
  {
    assert '\n' !in volume by { assert forall i :: 0 <= i < |volume| ==> IsHex(volume[i]) || volume[i] == '-'; }
    assert '\n' !in "storage" && '\n' !in "..";
  }

  lemma HiddenUntouched(all: seq<string>)
    requires AllPlain(all) && UnderMedia(all)
    ensures UnaliasedNames(all) == all && FixedNames(all, 0) == all
  {
    NotStarting(all, EMULATED, 0);
    NotStarting(all, MNT_SDCARD, 1);
    FixedNamesDots(all, 0);
  }

  lemma HiddenMedia(volume: string, all: seq<string>)
    requires IsVolume(volume) && AllPlain(all) && all == ["mnt", "media_rw", volume, "..\n"]
    ensures MediaNames(all) == ["storage", volume, ".."]
  {
    HiddenLine(all[3..]);
  }

  lemma HiddenLine(rest: seq<string>)
    requires rest == ["..\n"]
    ensures AllPlain(rest) && OneLine(Tail(rest)) && ChompedNames(rest) == [".."]
  {
    assert |rest[1..]| == 0;
    assert Tail(rest) == "/" + "..\n" + "";
    assert Tail(rest) == "/..\n";
    assert "..\n"[..2] == "..";
    assert Plain("..") && |rest[..0]| == 0;
  }

  lemma HiddenUsable(volume: string)
    requires IsVolume(volume)
    ensures Usable(MEDIA_RW + volume + "/..\n") && Usable(STORAGE + volume + "/..")
  {
    assert forall i :: 0 <= i < |volume| ==> IsHex(volume[i]) || volume[i] == '-';
  }
}
