/** Reading the picture rows that `content query` prints: the path from the left, the numbers from the
    right, so that a path may hold the separators themselves. */
module MediaStore {
  import opened Wrappers
  import opened Texts
  import Decimal

  datatype Picture = Picture(path: string, size: int, modified: int)

  const MODIFIED := ", date_modified="
  const SIZE := ", _size="
  const ROW := "Row:"
  const DATA := "_data="

  /** `int` of a stripped text: an optional sign and digits. */
  function ParseInt(s: string): Option<int> {
    var t := Strip(s);
    var negative := t != "" && t[0] == '-';
    var digits := if t != "" && (t[0] == '-' || t[0] == '+') then t[1..] else t;
    if digits == "" || !Decimal.AllDigits(digits) then None
    else
      var value: int := Decimal.Value(digits);
      Some(if negative then -value else value)
  }

  function FirstNonDigit(s: string): (i: nat)
    ensures i <= |s| && forall j :: 0 <= j < i ==> Decimal.IsDigit(s[j])
  {
    if s == "" || !Decimal.IsDigit(s[0]) then 0 else 1 + FirstNonDigit(s[1..])
  }

  /** After `Row:`, whitespace, digits, whitespace and `_data=`, the rest of the line. */
  function RowData(s: string): Option<string> {
    if !(|ROW| <= |s| && s[..|ROW|] == ROW) then None
    else
      var a := s[|ROW|..];
      var b := StripLeft(a);
      var digits := FirstNonDigit(b);
      var c := b[digits..];
      var d := StripLeft(c);
      if |b| < |a| && digits > 0 && |d| < |c| && |DATA| <= |d| && d[..|DATA|] == DATA then Some(d[|DATA|..]) else None
  }

  function PictureOf(dataPart: string, sizeText: string, modifiedText: string): Option<Picture> {
    var data := RowData(dataPart);
    var size, modified := ParseInt(sizeText), ParseInt(modifiedText);
    if data.None? || size.None? || modified.None? then None
    else
      var path := Strip(data.value);
      if path == "" || path[0] != '/' || '\0' in path || size.value < 0 || modified.value < 0 then None
      else Some(Picture(path, size.value, modified.value))
  }

  /** The picture on a line. */
  function PictureIn(line: string): Option<Picture> {
    match RPartition(line, MODIFIED)
    case None => None
    case Some((prefix, modifiedText)) =>
      match RPartition(prefix, SIZE)
      case None => None
      case Some((dataPart, sizeText)) => PictureOf(dataPart, sizeText, modifiedText)
  }

  /** `str.splitlines` breaks at each of these; "\r\n" counts as one. */
  predicate IsBreak(c: char) {
    '\n' <= c <= '\r' || '\U{1c}' <= c <= '\U{1e}' || c == '\U{85}' || c == '\U{2028}' || c == '\U{2029}'
  }

  function FirstBreak(s: string): (i: nat)
    ensures i <= |s| && (i < |s| ==> IsBreak(s[i]))
  {
    if s == "" || IsBreak(s[0]) then 0 else 1 + FirstBreak(s[1..])
  }

  function SplitLines(s: string): seq<string>
    decreases |s|
  {
    if s == "" then []
    else
      var i := FirstBreak(s);
      if i == |s| then [s]
      else [s[..i]] + SplitLines(if s[i] == '\r' && i + 1 < |s| && s[i + 1] == '\n' then s[i + 2..] else s[i + 1..])
  }

  function Paths(pictures: seq<Picture>): set<string> {
    if pictures == [] then {} else Paths(pictures[..|pictures| - 1]) + {pictures[|pictures| - 1].path}
  }

  lemma {:induction false} PathsHold(pictures: seq<Picture>, i: nat)
    requires i < |pictures|
    ensures pictures[i].path in Paths(pictures)
  {
    if i < |pictures| - 1 { PathsHold(pictures[..|pictures| - 1], i); }
  }

  lemma PathsWith(pictures: seq<Picture>, p: Picture)
    ensures Paths(pictures + [p]) == Paths(pictures) + {p.path}
  {
    assert (pictures + [p])[..|pictures|] == pictures;
  }

  predicate Distinct(pictures: seq<Picture>) {
    forall i, j :: 0 <= i < j < |pictures| ==> pictures[i].path != pictures[j].path
  }

  lemma DistinctWith(pictures: seq<Picture>, p: Picture)
    requires Distinct(pictures) && p.path !in Paths(pictures)
    ensures Distinct(pictures + [p])
  {
    forall i | 0 <= i < |pictures|
      ensures pictures[i].path != p.path
    {
      PathsHold(pictures, i);
    }
  }

  function With(found: seq<Picture>, p: Picture): seq<Picture> { if p.path in Paths(found) then found else found + [p] }

  function PicturesIn(lines: seq<string>): (rows: seq<Option<Picture>>)
    ensures |rows| == |lines|
  {
    seq(|lines|, i requires 0 <= i < |lines| => PictureIn(lines[i]))
  }

  /** The rows read after `found`, until the limit is met. */
  function Collect(rows: seq<Option<Picture>>, found: seq<Picture>, limit: int): seq<Picture>
    decreases |rows|
  {
    if rows == [] || |found| >= limit then found
    else
      match rows[0]
      case None => Collect(rows[1..], found, limit)
      case Some(p) => Collect(rows[1..], With(found, p), limit)
  }

  /** `parse_media_store_images`. */
  function Parse(text: string, limit: int): seq<Picture> {
    if limit < 1 then [] else Collect(PicturesIn(SplitLines(text)), [], limit)
  }

  lemma FirstPicture(lines: seq<string>)
    requires lines != []
    ensures PicturesIn(lines)[0] == PictureIn(lines[0]) && PicturesIn(lines)[1..] == PicturesIn(lines[1..])
  {
  }

  /** What the loop of the parser keeps; `all` is what the whole text comes to. */
  ghost predicate Collecting(all: seq<Picture>, limit: int, rows: seq<Option<Picture>>, images: seq<Picture>,
                             seen: set<string>) {
    |images| < limit && seen == Paths(images) && Distinct(images) && all == Collect(rows, images, limit)
  }

  lemma Collects(all: seq<Picture>, limit: int, rows: seq<Option<Picture>>, images: seq<Picture>, seen: set<string>)
    requires Collecting(all, limit, rows, images, seen) && rows != []
    ensures var picture := rows[0];
            if picture.None? || picture.value.path in seen then Collecting(all, limit, rows[1..], images, seen)
            else
              var more := images + [picture.value];
              if |more| < limit then Collecting(all, limit, rows[1..], more, seen + {picture.value.path})
              else all == more && |more| <= limit && Distinct(more)
  {
    var picture := rows[0];
    if picture.Some? && picture.value.path !in seen {
      PathsWith(images, picture.value);
      DistinctWith(images, picture.value);
      var more := images + [picture.value];
      assert all == Collect(rows[1..], more, limit);
      assert |more| >= limit ==> Collect(rows[1..], more, limit) == more;
    }
  }

  method ParseMediaStoreImages(text: string, limit: int) returns (images: seq<Picture>)
    ensures images == Parse(text, limit)
    ensures limit >= 0 ==> |images| <= limit
    ensures Distinct(images)
  {
    images := [];
    if limit < 1 { return; }
    var seen: set<string> := {};
    var lines := SplitLines(text);
    ghost var all := Parse(text, limit);
    while lines != []
      invariant Collecting(all, limit, PicturesIn(lines), images, seen)
      decreases |lines|
    {
      var picture := PictureIn(lines[0]);
      FirstPicture(lines);
      Collects(all, limit, PicturesIn(lines), images, seen);
      lines := lines[1..];
      if picture.None? || picture.value.path in seen { continue; }
      seen := seen + {picture.value.path};
      images := images + [picture.value];
      if |images| >= limit { return; }
    }
  }

  // ---------------------------------------------------------------- printing

  /** What `content query` prints for a picture. */
  function Line(p: Picture, k: nat): string
    requires p.size >= 0 && p.modified >= 0
  {
    RowPart(k, p.path) + SIZE + Decimal.Print(p.size) + MODIFIED + Decimal.Print(p.modified)
  }

  function RowPart(k: nat, path: string): string { ROW + " " + Decimal.Print(k) + " " + DATA + path }

  /** A path without line breaks or blanks at its end. */
  predicate CleanPath(path: string) {
    path != "" && path[0] == '/' && '\0' !in path && !IsSpace(path[|path| - 1])
      && forall i :: 0 <= i < |path| ==> !IsBreak(path[i])
  }

  predicate PictureOk(p: Picture) { CleanPath(p.path) && p.size >= 0 && p.modified >= 0 }

  function Print(pictures: seq<Picture>, k: nat): string
    requires forall i :: 0 <= i < |pictures| ==> PictureOk(pictures[i])
    decreases |pictures|
  {
    if pictures == [] then ""
    else
      assert PictureOk(pictures[0]);
      Line(pictures[0], k) + "\n" + Print(pictures[1..], k + 1)
  }

  /** The pictures whose path has not come before, as many as fit. */
  function Firsts(pictures: seq<Picture>, found: seq<Picture>, limit: int): seq<Picture>
    decreases |pictures|
  {
    if pictures == [] || |found| >= limit then found
    else Firsts(pictures[1..], With(found, pictures[0]), limit)
  }

  // ---------------------------------------------------------------- parsing what was printed

  lemma DigitsAreNotSpace(s: string)
    requires Decimal.AllDigits(s) && s != ""
    ensures Strip(s) == s && ParseInt(s) == Some(Decimal.Value(s))
  {
    assert Decimal.IsDigit(s[0]) && Decimal.IsDigit(s[|s| - 1]);
    StripsToItself(s);
  }

  lemma NumberIsRead(n: nat)
    ensures ParseInt(Decimal.Print(n)) == Some(n)
    ensures ',' !in Decimal.Print(n)
  {
    DigitsAreNotSpace(Decimal.Print(n));
    Decimal.ValueOfPrint(n);
    assert forall i :: 0 <= i < |Decimal.Print(n)| ==> Decimal.IsDigit(Decimal.Print(n)[i]);
  }

  lemma {:induction false} DigitsEnd(digits: string, rest: string)
    requires Decimal.AllDigits(digits) && (rest == "" || !Decimal.IsDigit(rest[0]))
    ensures FirstNonDigit(digits + rest) == |digits|
    decreases |digits|
  {
    if digits == "" {
      assert digits + rest == rest;
    } else {
      assert (digits + rest)[1..] == digits[1..] + rest;
      DigitsEnd(digits[1..], rest);
    }
  }

  lemma RowIsRead(k: nat, path: string)
    ensures RowData(RowPart(k, path)) == Some(path)
  {
    var digits, d := Decimal.Print(k), DATA + path;
    var b := digits + (" " + d);
    Associates(ROW + " " + digits + " ", DATA, path);
    Associates(ROW + " " + digits, " ", d);
    Associates(ROW + " ", digits, " " + d);
    Associates(ROW, " ", b);
    RowFront(" " + b);
    assert Decimal.IsDigit(digits[0]);
    Unblanked(b);
    DigitsEnd(digits, " " + d);
    assert b[|digits|..] == " " + d;
    assert d[0] == '_' && d[..|DATA|] == DATA && d[|DATA|..] == path;
    Unblanked(d);
  }

  lemma RowFront(a: string)
    ensures (ROW + a)[..|ROW|] == ROW && (ROW + a)[|ROW|..] == a
  {
  }

  lemma Unblanked(s: string)
    requires s != "" && !IsSpace(s[0])
    ensures StripLeft(" " + s) == s
  {
    StripLeftAfterSpace(" ", s);
  }

  /** A printed row is read back, even when its path contains the separators. */
  lemma PictureIsRead(p: Picture, k: nat)
    requires PictureOk(p)
    ensures PictureIn(Line(p, k)) == Some(p)
  {
    NumberIsRead(p.size);
    NumberIsRead(p.modified);
    SeparatorsCut(RowPart(k, p.path), Decimal.Print(p.size), Decimal.Print(p.modified));
    PartsAreRead(p, k);
  }

  lemma PartsAreRead(p: Picture, k: nat)
    requires PictureOk(p)
    ensures PictureOf(RowPart(k, p.path), Decimal.Print(p.size), Decimal.Print(p.modified)) == Some(p)
  {
    NumberIsRead(p.size);
    NumberIsRead(p.modified);
    RowIsRead(k, p.path);
    PathStays(p.path);
    PictureOfParts(RowPart(k, p.path), Decimal.Print(p.size), Decimal.Print(p.modified), p);
  }

  lemma PathStays(path: string)
    requires CleanPath(path)
    ensures Strip(path) == path
  {
    StripsToItself(path);
  }

  lemma PictureOfParts(dataPart: string, sizeText: string, modifiedText: string, p: Picture)
    requires RowData(dataPart) == Some(p.path) && ParseInt(sizeText) == Some(p.size)
             && ParseInt(modifiedText) == Some(p.modified)
    requires PictureOk(p) && Strip(p.path) == p.path
    ensures PictureOf(dataPart, sizeText, modifiedText) == Some(p)
  {
  }

  lemma SeparatorsCut(dataPart: string, sizeText: string, modifiedText: string)
    requires ',' !in sizeText && ',' !in modifiedText
    ensures RPartition(dataPart + SIZE + sizeText + MODIFIED + modifiedText, MODIFIED)
         == Some((dataPart + SIZE + sizeText, modifiedText))
    ensures RPartition(dataPart + SIZE + sizeText, SIZE) == Some((dataPart, sizeText))
  {
    assert ',' !in MODIFIED[1..] && ',' !in SIZE[1..];
    RPartitionAt(dataPart + SIZE + sizeText, MODIFIED, modifiedText);
    RPartitionAt(dataPart, SIZE, sizeText);
  }

  predicate Unbroken(s: string) { forall i :: 0 <= i < |s| ==> !IsBreak(s[i]) }

  lemma {:induction false} BreakAfter(line: string, rest: string)
    requires Unbroken(line)
    ensures FirstBreak(line + "\n" + rest) == |line|
    decreases |line|
  {
    var s := line + "\n" + rest;
    if line == "" {
      assert s[0] == '\n';
    } else {
      assert s[1..] == line[1..] + "\n" + rest;
      BreakAfter(line[1..], rest);
    }
  }

  lemma FirstLineIsCut(line: string, rest: string)
    requires Unbroken(line)
    ensures SplitLines(line + "\n" + rest) == [line] + SplitLines(rest)
  {
    var s := line + "\n" + rest;
    BreakAfter(line, rest);
    assert s[..|line|] == line && s[|line|] == '\n' && s[|line| + 1..] == rest;
  }

  lemma LineIsUnbroken(p: Picture, k: nat)
    requires PictureOk(p)
    ensures Unbroken(Line(p, k))
  {
    DigitsUnbroken(Decimal.Print(k));
    DigitsUnbroken(Decimal.Print(p.size));
    DigitsUnbroken(Decimal.Print(p.modified));
    UnbrokenBoth(ROW + " ", Decimal.Print(k));
    UnbrokenBoth(ROW + " " + Decimal.Print(k), " ");
    UnbrokenBoth(ROW + " " + Decimal.Print(k) + " ", DATA);
    UnbrokenBoth(ROW + " " + Decimal.Print(k) + " " + DATA, p.path);
    UnbrokenBoth(ROW + " " + Decimal.Print(k) + " " + DATA + p.path, SIZE);
    UnbrokenBoth(ROW + " " + Decimal.Print(k) + " " + DATA + p.path + SIZE, Decimal.Print(p.size));
    UnbrokenBoth(ROW + " " + Decimal.Print(k) + " " + DATA + p.path + SIZE + Decimal.Print(p.size), MODIFIED);
    UnbrokenBoth(ROW + " " + Decimal.Print(k) + " " + DATA + p.path + SIZE + Decimal.Print(p.size) + MODIFIED,
                 Decimal.Print(p.modified));
  }

  lemma DigitsUnbroken(s: string)
    requires Decimal.AllDigits(s)
    ensures Unbroken(s)
  {
    assert forall i :: 0 <= i < |s| ==> Decimal.IsDigit(s[i]);
  }

  lemma UnbrokenBoth(a: string, b: string)
    requires Unbroken(a) && Unbroken(b)
    ensures Unbroken(a + b)
  {
  }

  lemma {:induction false} CollectPrinted(pictures: seq<Picture>, k: nat, found: seq<Picture>, limit: int)
    requires forall i :: 0 <= i < |pictures| ==> PictureOk(pictures[i])
    ensures Collect(PicturesIn(SplitLines(Print(pictures, k))), found, limit) == Firsts(pictures, found, limit)
    decreases |pictures|
  {
    if pictures != [] && |found| < limit {
      var p, rest := pictures[0], Print(pictures[1..], k + 1);
      assert PictureOk(p);
      LineIsUnbroken(p, k);
      FirstLineIsCut(Line(p, k), rest);
      PictureIsRead(p, k);
      FirstIsCollected(Line(p, k), SplitLines(rest), p, found, limit);
      CollectPrinted(pictures[1..], k + 1, With(found, p), limit);
    }
  }

  lemma FirstIsCollected(line: string, rest: seq<string>, p: Picture, found: seq<Picture>, limit: int)
    requires PictureIn(line) == Some(p) && |found| < limit
    ensures Collect(PicturesIn([line] + rest), found, limit) == Collect(PicturesIn(rest), With(found, p), limit)
  {
    FirstAndRest(line, rest);
    FirstPicture([line] + rest);
    FirstRow(PicturesIn([line] + rest), p, found, limit);
  }

  lemma FirstRow(rows: seq<Option<Picture>>, p: Picture, found: seq<Picture>, limit: int)
    requires rows != [] && rows[0] == Some(p) && |found| < limit
    ensures Collect(rows, found, limit) == Collect(rows[1..], With(found, p), limit)
  {
  }

  /** Parsing what was printed gives back the rows, the first of each path, up to the limit. */
  lemma ParseInvertsPrint(pictures: seq<Picture>, limit: int)
    requires (forall i :: 0 <= i < |pictures| ==> PictureOk(pictures[i])) && limit >= 1
    ensures Parse(Print(pictures, 0), limit) == Firsts(pictures, [], limit)
  {
    CollectPrinted(pictures, 0, [], limit);
  }

  lemma {:induction false} NotAmong(found: seq<Picture>, p: Picture)
    requires forall i :: 0 <= i < |found| ==> found[i].path != p.path
    ensures p.path !in Paths(found)
  {
    if found != [] { NotAmong(found[..|found| - 1], p); }
  }

  /** With distinct paths nothing is dropped below the limit. */
  lemma {:induction false} DistinctRowsAreKept(pictures: seq<Picture>, found: seq<Picture>, limit: nat)
    requires Distinct(found + pictures) && |found| <= limit
    ensures Firsts(pictures, found, limit) == (found + pictures)[..Min(limit, |found + pictures|)]
    decreases |pictures|
  {
    var all := found + pictures;
    if pictures == [] || |found| >= limit {
      assert all[..|found|] == found;
    } else {
      var p := pictures[0];
      assert all[|found|] == p;
      assert forall i :: 0 <= i < |found| ==> all[i] == found[i];
      NotAmong(found, p);
      var more := found + [p];
      assert more + pictures[1..] == all;
      DistinctRowsAreKept(pictures[1..], more, limit);
    }
  }

  /** Every list of distinct pictures is recovered, up to the limit, whatever separators their paths hold. */
  lemma DistinctPicturesAreRecovered(pictures: seq<Picture>, limit: nat)
    requires forall i :: 0 <= i < |pictures| ==> PictureOk(pictures[i])
    requires Distinct(pictures) && limit >= 1
    ensures Parse(Print(pictures, 0), limit) == pictures[..Min(limit, |pictures|)]
  {
    ParseInvertsPrint(pictures, limit);
    var none: seq<Picture> := [];
    NothingInFront(none, pictures);
    DistinctRowsAreKept(pictures, none, limit);
  }
}
