/** The path operations seen on components: what each rewriting of the string does to the names in it. */
module PathNames {
  import opened Wrappers
  import opened PathModel
  import opened Texts

  // ---------------------------------------------------------------- names and their printing

  /** `t` follows a component: it is empty or starts with a slash. */
  predicate Follows(t: string) { t == "" || t[0] == '/' }

  lemma TailFollows(names: seq<string>)
    ensures Follows(Tail(names))
  {
  }

  lemma {:induction false} FirstSlashAfter(name: string, t: string)
    requires '/' !in name && Follows(t)
    ensures FirstSlash(name + t) == |name|
    decreases |name|
  {
    if name == "" {
      assert name + t == t;
    } else {
      assert (name + t)[1..] == name[1..] + t;
      FirstSlashAfter(name[1..], t);
    }
  }

  function Kept(name: string): seq<string> { if name != "" && name != "." then [name] else [] }

  /** Without its leading slash a path has the same components. */
  lemma NamesBehindSlash(s: string)
    requires s != "" && s[0] == '/'
    ensures Names(s) == Names(s[1..])
  {
    assert FirstSlash(s) == 0 && s[..0] == "";
  }

  /** The first component, up to a slash or the end. */
  lemma FirstName(name: string, t: string)
    requires '/' !in name && Follows(t)
    ensures Names(name + t) == Kept(name) + Names(t)
  {
    FirstSlashAfter(name, t);
    var r := name + t;
    if r == "" {
      assert name == "" && t == "";
    } else {
      assert r[..|name|] == name;
      if t == "" {
        assert |r| == |name|;
      } else {
        NamesBehindSlash(t);
        assert r[|name| + 1..] == t[1..];
      }
    }
  }

  /** One component in front of others. */
  lemma NamesInFront(name: string, t: string)
    requires '/' !in name && Follows(t)
    ensures Names("/" + name + t) == (if Plain(name) then [name] else []) + Names(t)
  {
    Associates("/", name, t);
    BehindSlash(name + t);
    NamesBehindSlash("/" + (name + t));
    FirstName(name, t);
  }

  lemma BehindSlash(s: string)
    ensures ("/" + s)[1..] == s
  {
  }

  lemma NamesOfOne(name: string)
    requires '/' !in name
    ensures Names("/" + name) == if Plain(name) then [name] else []
  {
    NamesInFront(name, "");
    NothingBehind("/" + name);
  }

  lemma NothingBehind<T>(s: seq<T>)
    ensures s + [] == s
  {
  }

  /** Printing names and reading them back. */
  lemma {:induction false} NamesOfTail(names: seq<string>, t: string)
    requires AllPlain(names) && Follows(t)
    ensures Names(Tail(names) + t) == names + Names(t)
    decreases |names|
  {
    if names == [] {
      assert Tail(names) + t == t;
    } else {
      var rest := Tail(names[1..]) + t;
      NamesOfTail(names[1..], t);
      TailFollows(names[1..]);
      Associates("/" + names[0], Tail(names[1..]), t);
      NamesInFront(names[0], rest);
      ListsAssociate(names, Names(t));
    }
  }

  lemma ListsAssociate(names: seq<string>, more: seq<string>)
    requires names != []
    ensures [names[0]] + (names[1..] + more) == names + more
  {
  }

  lemma RootOfTail(name: string, t: string)
    requires Plain(name)
    ensures Root("/" + name + t) == 1
  {
    var s := "/" + name + t;
    assert s[0] == '/' && s[1] == name[0];
    assert name[0] in name;
  }

  lemma ParseOfTail(names: seq<string>)
    requires AllPlain(names) && names != []
    ensures Parse(Tail(names)) == Pure(1, names)
  {
    NamesOfTail(names, "");
    assert Tail(names) + "" == Tail(names);
    assert names + [] == names;
    RootOfTail(names[0], Tail(names[1..]));
  }

  lemma {:induction false} TailOfBoth(a: seq<string>, b: seq<string>)
    ensures Tail(a + b) == Tail(a) + Tail(b)
  {
    if a == [] {
      assert a + b == b;
    } else {
      TailOfBoth(a[1..], b);
      assert (a + b)[1..] == a[1..] + b;
      Associates("/" + a[0], Tail(a[1..]), Tail(b));
    }
  }

  /** A string starts with a component exactly when its first name is that component. */
  lemma FirstNameShows(name: string, t: string, word: string, u: string)
    requires '/' !in name && '/' !in word && Follows(t) && Follows(u)
    requires name + t == word + u
    ensures name == word && t == u
  {
    FirstSlashAfter(name, t);
    FirstSlashAfter(word, u);
    assert (name + t)[..|name|] == name && (name + t)[|name|..] == t;
    assert (word + u)[..|word|] == word && (word + u)[|word|..] == u;
  }

  /** The same for several components. */
  lemma {:induction false} FirstNamesShow(names: seq<string>, words: seq<string>, u: string)
    requires AllPlain(names) && AllPlain(words) && Follows(u)
    requires Tail(names) == Tail(words) + u
    ensures StartsWith(names, words) && u == Tail(names[|words|..])
    decreases |words|
  {
    if words == [] {
      assert Tail(words) + u == u && names[0..] == names;
    } else {
      OneNameShows(names, words, u);
      FirstNamesShow(names[1..], words[1..], u);
      StartsWithOneMore(names, words);
    }
  }

  lemma StartsWithOneMore(names: seq<string>, words: seq<string>)
    requires names != [] && words != [] && names[0] == words[0] && StartsWith(names[1..], words[1..])
    ensures StartsWith(names, words) && names[1..][|words| - 1..] == names[|words|..]
  {
    assert forall i :: 0 < i < |words| ==> names[i] == names[1..][i - 1] && words[i] == words[1..][i - 1];
  }

  lemma OneNameShows(names: seq<string>, words: seq<string>, u: string)
    requires AllPlain(names) && AllPlain(words) && Follows(u) && words != []
    requires Tail(names) == Tail(words) + u
    ensures names != [] && names[0] == words[0] && Tail(names[1..]) == Tail(words[1..]) + u
  {
    var t, v := Tail(names[1..]), Tail(words[1..]) + u;
    Associates("/", names[0], t);
    Associates("/" + words[0], Tail(words[1..]), u);
    Associates("/", words[0], v);
    BehindSlash(names[0] + t);
    BehindSlash(words[0] + v);
    TailFollows(names[1..]);
    TailFollows(words[1..]);
    FirstNameShows(names[0], t, words[0], v);
  }

  lemma StartingWords(names: seq<string>, words: seq<string>)
    requires StartsWith(names, words)
    ensures Tail(names) == Tail(words) + Tail(names[|words|..])
  {
    assert names == words + names[|words|..];
    TailOfBoth(words, names[|words|..]);
  }

  lemma BelowShows(names: seq<string>, words: seq<string>)
    requires AllPlain(names) && AllPlain(words)
    ensures Below(Tail(names), Tail(words)) <==> StartsWith(names, words)
  {
    var s, alias := Tail(names), Tail(words);
    if StartsWith(names, words) {
      StartingWords(names, words);
      TailFollows(names[|words|..]);
      assert Tail(names[|words|..]) == "" ==> s == alias;
    }
    if Below(s, alias) {
      var u := s[|alias|..];
      assert s == alias + u;
      FirstNamesShow(names, words, u);
    }
  }

  // ---------------------------------------------------------------- lower case

  function LowerNames(names: seq<string>): seq<string> { seq(|names|, i requires 0 <= i < |names| => Lower(names[i])) }

  lemma LowerKeepsPlain(name: string)
    requires Plain(name)
    ensures Plain(Lower(name))
  {
    assert forall i :: 0 <= i < |name| ==> Lower(name)[i] == LowerChar(name[i]) && name[i] in name;
    assert Lower(name)[0] == '.' ==> name[0] == '.';
    assert |name| == 1 && name[0] == '.' ==> name == ".";
  }

  lemma {:induction false} LowerOfTail(names: seq<string>)
    ensures Lower(Tail(names)) == Tail(LowerNames(names))
  {
    if names != [] {
      LowerOfTail(names[1..]);
      assert LowerNames(names)[1..] == LowerNames(names[1..]);
      LowerOfBoth("/" + names[0], Tail(names[1..]));
      LowerOfBoth("/", names[0]);
      assert Lower("/") == "/";
    }
  }

  lemma LowerOfBoth(a: string, b: string)
    ensures Lower(a + b) == Lower(a) + Lower(b)
  {
  }

  // ---------------------------------------------------------------- canonical names

  function RootWords(k: nat): (words: seq<string>)
    requires k < |INTERNAL|
    ensures AllPlain(words)
  {
    ["sdcard", INTERNAL[k]]
  }

  lemma KnownRootIsTail(k: nat)
    requires k < |INTERNAL|
    ensures KnownRoot(k) == Tail(RootWords(k))
  {
    var words := RootWords(k);
    assert words[1..] == [INTERNAL[k]] && |words[1..][1..]| == 0;
    assert Tail(words[1..]) == "/" + INTERNAL[k] + "";
    assert "/" + "sdcard" + Tail(words[1..]) == "/sdcard/" + INTERNAL[k];
  }

  /** The case fix on components. */
  function FixedNames(names: seq<string>, k: nat): (r: seq<string>)
    requires k <= |INTERNAL| && AllPlain(names)
    ensures AllPlain(r)
    decreases |INTERNAL| - k
  {
    if k == |INTERNAL| then names
    else if StartsWith(LowerNames(names), LowerNames(RootWords(k))) then RootWords(k) + names[2..]
    else FixedNames(names, k + 1)
  }

  lemma PlainLowerNames(names: seq<string>)
    requires AllPlain(names)
    ensures AllPlain(LowerNames(names))
  {
    forall i | 0 <= i < |names|
      ensures Plain(LowerNames(names)[i])
    {
      LowerKeepsPlain(names[i]);
    }
  }

  lemma LowerNamesTake(names: seq<string>, n: nat)
    requires n <= |names|
    ensures LowerNames(names)[..n] == LowerNames(names[..n])
  {
  }

  lemma DropFront(a: string, b: string)
    ensures (a + b)[|a|..] == b
  {
  }

  /** A known root in any case covers as many characters as in its own. */
  lemma SameLength(names: seq<string>, words: seq<string>)
    requires StartsWith(LowerNames(names), LowerNames(words))
    ensures |words| <= |names|
    ensures |Tail(words)| <= |Tail(names)| && Tail(names)[|Tail(words)|..] == Tail(names[|words|..])
  {
    var n := |words|;
    LowerNamesTake(names, n);
    LowerOfTail(names[..n]);
    LowerOfTail(words);
    TailOfBoth(names[..n], names[n..]);
    TakeAndDrop(names, n);
    DropFront(Tail(names[..n]), Tail(names[n..]));
  }

  lemma TakeAndDrop(names: seq<string>, n: nat)
    requires n <= |names|
    ensures names[..n] + names[n..] == names
  {
  }

  lemma CaseFixedNames(names: seq<string>, k: nat)
    requires k <= |INTERNAL| && AllPlain(names)
    ensures CaseFixed(Tail(names), k) == Tail(FixedNames(names, k))
    decreases |INTERNAL| - k
  {
    if k < |INTERNAL| {
      var words := RootWords(k);
      KnownRootIsTail(k);
      LowerOfTail(names);
      LowerOfTail(words);
      PlainLowerNames(names);
      PlainLowerNames(words);
      BelowShows(LowerNames(names), LowerNames(words));
      if StartsWith(LowerNames(names), LowerNames(words)) {
        SameLength(names, words);
        TailOfBoth(words, names[2..]);
      } else {
        CaseFixedNames(names, k + 1);
      }
    }
  }

  /** Removing the final newline of a path may empty its last component, or change it. */
  function ChompedNames(names: seq<string>): (r: seq<string>)
    requires AllPlain(names)
    ensures AllPlain(r)
  {
    if names == [] then []
    else
      var last := names[|names| - 1];
      if last[|last| - 1] != '\n' then names else names[..|names| - 1] + LineEnd(last)
  }

  /** What is left of a last component when its newline goes. */
  function LineEnd(last: string): (r: seq<string>)
    requires Plain(last)
    ensures AllPlain(r)
  {
    if Plain(last[..|last| - 1]) then [last[..|last| - 1]] else []
  }

  lemma LastInTail(names: seq<string>)
    requires AllPlain(names) && names != []
    ensures Tail(names) == Tail(names[..|names| - 1]) + ("/" + names[|names| - 1])
  {
    var init, last := names[..|names| - 1], names[|names| - 1];
    TakeAndDrop(names, |names| - 1);
    TailOfBoth(init, names[|names| - 1..]);
    var one := names[|names| - 1..];
    assert one[0] == last && |one[1..]| == 0;
    assert Tail(one) == "/" + last + "";
  }

  lemma LastChar(a: string, last: string)
    requires last != ""
    ensures var s := a + ("/" + last); s[|s| - 1] == last[|last| - 1]
  {
  }

  predicate EndsLine(name: string) { name != "" && name[|name| - 1] == '\n' }

  /** The string without its final newline, by components. */
  lemma ChompedShape(names: seq<string>)
    requires AllPlain(names) && names != []
    ensures var last := names[|names| - 1];
            Chomped(Tail(names)) == if EndsLine(last) then Tail(names[..|names| - 1]) + ("/" + last[..|last| - 1])
              else Tail(names)
  {
    var last := names[|names| - 1];
    LastInTail(names);
    LastChar(Tail(names[..|names| - 1]), last);
    WithoutLast(Tail(names[..|names| - 1]), "/", last);
  }

  lemma NamesWithEnd(init: seq<string>, name: string)
    requires AllPlain(init) && '/' !in name
    ensures Follows(Tail(init) + ("/" + name))
    ensures Names(Tail(init) + ("/" + name)) == init + (if Plain(name) then [name] else [])
  {
    NamesOfOne(name);
    NamesOfTail(init, "/" + name);
    TailFollows(init);
  }

  lemma ChompedTail(names: seq<string>)
    requires AllPlain(names)
    ensures Follows(Chomped(Tail(names))) && Names(Chomped(Tail(names))) == ChompedNames(names)
  {
    if names == [] {
      assert Chomped(Tail(names)) == "";
    } else {
      var last := names[|names| - 1];
      ChompedShape(names);
      if EndsLine(last) { NamesWithEnd(names[..|names| - 1], last[..|last| - 1]); } else { NamesPrinted(names); }
    }
  }

  lemma NamesPrinted(names: seq<string>)
    requires AllPlain(names)
    ensures Names(Tail(names)) == names && Follows(Tail(names))
  {
    NamesOfTail(names, "");
    assert Tail(names) + "" == Tail(names) && names + [] == names;
    TailFollows(names);
  }

  lemma WithoutLast(a: string, b: string, last: string)
    requires last != ""
    ensures var s := a + (b + last); s[..|s| - 1] == a + (b + last[..|last| - 1])
  {
  }

  predicate UnderMedia(names: seq<string>) { |names| >= 3 && names[0] == "mnt" && names[1] == "media_rw" }

  function MediaNames(names: seq<string>): (r: seq<string>)
    requires AllPlain(names)
    ensures AllPlain(r)
  {
    if UnderMedia(names) && |names| == 3 && |names[2]| == 10 && IsVolume(names[2][..9]) && names[2][9] == '\n'
       then ["storage", names[2][..9]]
    else if UnderMedia(names) && IsVolume(names[2]) && OneLine(Tail(names[3..]))
            then ["storage", names[2]] + ChompedNames(names[3..])
    else names
  }

  lemma VolumesArePlain(s: string)
    requires IsVolume(s)
    ensures Plain(s)
  {
  }

  lemma MediaIsTail(volume: string)
    ensures MEDIA_RW + volume == Tail(["mnt", "media_rw", volume]) && STORAGE + volume == Tail(["storage", volume])
  {
    var words, tail, one := ["mnt", "media_rw", volume], ["media_rw", volume], [volume];
    assert words[1..] == tail && tail[1..] == one && |one[1..]| == 0;
    assert Tail(one) == "/" + volume + "";
    assert Tail(tail) == "/" + "media_rw" + Tail(one);
    assert Tail(words) == "/" + "mnt" + Tail(tail);
    var other := ["storage", volume];
    assert other[1..] == one;
    assert Tail(other) == "/" + "storage" + Tail(one);
  }

  lemma RemountedWords(names: seq<string>, volume: string, t: string)
    requires AllPlain(names) && IsVolume(volume) && OneLine(t) && Follows(t) && Tail(names) == MEDIA_RW + volume + t
    ensures MediaNames(names) == Names(STORAGE + volume + Chomped(t))
  {
    var words := ["mnt", "media_rw", volume];
    MediaIsTail(volume);
    VolumesArePlain(volume);
    FirstNamesShow(names, words, t);
    assert names[..3][0] == names[0] && names[..3][1] == names[1] && names[..3][2] == names[2];
    ChompedTail(names[3..]);
    NamesOfTail(["storage", volume], Chomped(t));
  }

  lemma NoTail(names: seq<string>)
    requires Tail(names) == ""
    ensures |names| == 0
  {
  }

  lemma RemountedLine(names: seq<string>, volume: string)
    requires AllPlain(names) && IsVolume(volume) && Tail(names) == MEDIA_RW + volume + "\n"
    ensures MediaNames(names) == Names(STORAGE + volume) == ["storage", volume]
  {
    var line := volume + "\n";
    var words := ["mnt", "media_rw", line];
    MediaIsTail(line);
    Associates(MEDIA_RW, volume, "\n");
    VolumesArePlain(volume);
    assert Plain(line);
    FirstNamesShow(names, words, "");
    assert names[..3][0] == names[0] && names[..3][1] == names[1] && names[..3][2] == names[2];
    NoTail(names[3..]);
    assert line[..9] == volume;
    MediaIsTail(volume);
    NamesPrinted(["storage", volume]);
  }

  lemma MediaWordsShow(names: seq<string>)
    requires AllPlain(names) && MediaNames(names) != names
    ensures IsMediaPath(Tail(names))
  {
    var word, t := names[2], Tail(names[3..]);
    MediaPrefix(names);
    if |word| == 10 {
      assert |names[3..]| == 0 && t == "";
      assert word[9..] + t == "\n";
    } else {
      assert word[..9] == word && word[9..] + t == t;
    }
    MediaSlices(Tail(names), word, t);
  }

  lemma MediaPrefix(names: seq<string>)
    requires AllPlain(names) && UnderMedia(names)
    ensures Tail(names) == MEDIA_RW + names[2] + Tail(names[3..])
  {
    var words := ["mnt", "media_rw", names[2]];
    assert StartsWith(names, words);
    StartingWords(names, words);
    MediaIsTail(names[2]);
  }

  lemma MediaSlices(v: string, word: string, t: string)
    requires v == MEDIA_RW + word + t && |word| >= 9 && IsVolume(word[..9]) && OneLine(word[9..] + t)
    ensures IsMediaPath(v)
  {
    assert v[14..] == word + t;
    assert v[14..23] == word[..9] && v[23..] == word[9..] + t;
  }

  /** The rewriting of removable volumes on components. */
  lemma RemountedNames(names: seq<string>)
    requires AllPlain(names)
    ensures Names(Remounted(Tail(names))) == MediaNames(names)
    ensures names != [] ==> Root(Remounted(Tail(names))) == 1
  {
    var v := Tail(names);
    if names != [] { ParseOfTail(names); }
    if IsMediaPath(v) {
      var volume, t := v[14..23], v[23..];
      assert v == MEDIA_RW + volume + t;
      var rest := Chomped(t);
      RootOfStorage(volume, rest);
      if Follows(t) {
        RemountedWords(names, volume, t);
      } else {
        RemountedLine(names, volume);
        assert STORAGE + volume + "" == STORAGE + volume;
      }
    } else {
      if MediaNames(names) != names { MediaWordsShow(names); }
      NamesPrinted(names);
    }
  }

  lemma RootOfStorage(volume: string, rest: string)
    ensures Root(STORAGE + volume + rest) == 1
  {
    var s := STORAGE + volume + rest;
    assert s[0] == '/' && s[1] == 's';
  }

  lemma {:induction false} CharsOfTail(names: seq<string>, c: char)
    ensures c in Tail(names) <==> (names != [] && c == '/') || exists i :: 0 <= i < |names| && c in names[i]
  {
    if names != [] {
      CharsOfTail(names[1..], c);
      assert forall i :: 0 < i < |names| ==> names[i] == names[1..][i - 1];
    }
  }

  /** A volume under /storage, in a path of one line. */
  predicate ExternalRoot(names: seq<string>) {
    |names| >= 2 && names[0] == "storage" && IsVolume(names[1]) && forall i :: 0 <= i < |names| ==> '\n' !in names[i]
  }

  lemma ExternalShows(names: seq<string>)
    requires AllPlain(names)
    ensures IsExternal(Tail(names)) <==> ExternalRoot(names)
  {
    var v := Tail(names);
    CharsOfTail(names, '\n');
    if IsExternal(v) {
      var volume, t := v[9..18], v[18..];
      MediaIsTail(volume);
      VolumesArePlain(volume);
      assert v == STORAGE + volume + t;
      FirstNamesShow(names, ["storage", volume], t);
      assert names[..2][0] == names[0] && names[..2][1] == names[1];
    }
    if ExternalRoot(names) {
      var t := Tail(names[2..]);
      MediaIsTail(names[1]);
      assert StartsWith(names, ["storage", names[1]]);
      StartingWords(names, ["storage", names[1]]);
      TailFollows(names[2..]);
      assert v == STORAGE + names[1] + t;
      assert v[..9] == STORAGE && v[9..18] == names[1];
    }
  }

  function UnaliasedNames(names: seq<string>): (r: seq<string>)
    requires AllPlain(names)
    ensures AllPlain(r)
  {
    if StartsWith(names, EMULATED) then SDCARD + names[3..]
    else if StartsWith(names, MNT_SDCARD) then SDCARD + names[2..]
    else names
  }

  /** All the rewritings together. */
  function Rewritten(names: seq<string>): (r: seq<string>)
    requires AllPlain(names)
    ensures AllPlain(r)
  {
    MediaNames(FixedNames(UnaliasedNames(names), 0))
  }

  /** What canonicalising does to an absolute path, on components. */
  lemma CanonicalNames(path: string)
    requires Canonical(path).Ok? && Root(path) == 1
    ensures Names(Canonical(path).value) == Rewritten(Names(path))
    ensures Root(Canonical(path).value) == 1
  {
    var names := UnaliasedNames(Names(path));
    if names == [] {
      assert CaseFixed("/", 0) == "/" by { OnlyASlash(0); }
      assert Names("/") == [] && FixedNames([], 0) == [] by { NoNames(0); }
    } else {
      CaseFixedNames(names, 0);
      assert FixedNames(names, 0) != [] by { FixedSome(names, 0); }
      RemountedNames(FixedNames(names, 0));
    }
  }

  lemma {:induction false} OnlyASlash(k: nat)
    requires k <= |INTERNAL|
    ensures CaseFixed("/", k) == "/"
    decreases |INTERNAL| - k
  {
    if k < |INTERNAL| { OnlyASlash(k + 1); }
  }

  lemma {:induction false} NoNames(k: nat)
    requires k <= |INTERNAL|
    ensures FixedNames([], k) == []
    decreases |INTERNAL| - k
  {
    if k < |INTERNAL| {
      assert |LowerNames(RootWords(k))| == 2;
      NoNames(k + 1);
    }
  }

  lemma {:induction false} FixedSome(names: seq<string>, k: nat)
    requires k <= |INTERNAL| && AllPlain(names) && names != []
    ensures FixedNames(names, k) != []
    decreases |INTERNAL| - k
  {
    if k < |INTERNAL| { FixedSome(names, k + 1); }
  }
}
