/** Parsing inverts printing for every device list, whatever state names its serials contain. */
module DeviceTheorems {
  import opened Wrappers
  import opened Texts
  import opened DeviceList

  // ---------------------------------------------------------------- where the state is found

  lemma {:induction false} NothingBehind(before: seq<string>, after: seq<string>, n: nat)
    requires n <= |after| && LocateBefore(after, n).None?
    ensures LocateBefore(before + after, |before| + n) == LocateBefore(before + after, |before|)
  {
    if n > 0 {
      var width := Min(WIDEST, |after| - (n - 1));
      SameStateAt(before, after, n - 1, width);
      NothingBehind(before, after, n - 1);
    }
  }

  lemma {:induction false} SameStateAt(before: seq<string>, after: seq<string>, i: nat, width: nat)
    requires i + width <= |after| && StateAt(after, i, width).None?
    ensures StateAt(before + after, |before| + i, width).None?
    decreases width
  {
    if width > 0 {
      SliceBehind(before, after, i, width);
      SameStateAt(before, after, i, width - 1);
    }
  }

  lemma SliceBehind<T>(before: seq<T>, after: seq<T>, i: nat, n: nat)
    requires i + n <= |after|
    ensures (before + after)[|before| + i..|before| + i + n] == after[i..i + n]
  {
  }

  /** The state written after a serial is found there, exactly, if no state stands behind it. */
  lemma StateIsFound(serial: seq<string>, phrase: seq<string>, trailing: seq<string>)
    requires StateOf(Lowered(phrase)).Some? && Locate(trailing).None?
    ensures Locate(serial + phrase + trailing)
         == Some(Located(|serial|, StateOf(Lowered(phrase)).value, |serial| + |phrase|))
  {
    var s, p, t := Lowered(serial), Lowered(phrase), Lowered(trailing);
    LoweredBoth(serial + phrase, trailing);
    LoweredBoth(serial, phrase);
    NothingBehind(s + p, t, |t|);
    if |p| == 1 { SingleWord(s, p, t); } else { TwoWords(s, p, t); }
  }

  lemma LoweredBoth(a: seq<string>, b: seq<string>)
    ensures Lowered(a + b) == Lowered(a) + Lowered(b)
  {
  }

  lemma SingleWord(s: seq<string>, p: seq<string>, t: seq<string>)
    requires |p| == 1 && StateOf(p).Some?
    ensures LocateBefore(s + p + t, |s + p|) == Some(Located(|s|, StateOf(p).value, |s| + 1))
  {
    var all := s + p + t;
    var one := all[|s|..|s| + 1];
    assert one[0] == p[0];
    if |t| > 0 {
      var two := all[|s|..|s| + 2];
      assert two[0] == p[0] && StateOf(two).None?;
    }
    assert StateAt(all, |s|, 1) == Some(Located(|s|, StateOf(p).value, |s| + 1));
  }

  lemma TwoWords(s: seq<string>, p: seq<string>, t: seq<string>)
    requires |p| == 2 && StateOf(p).Some?
    ensures LocateBefore(s + p + t, |s + p|) == Some(Located(|s|, StateOf(p).value, |s| + 2))
  {
    var all := s + p + t;
    var last := |s| + 1;
    var one, both := all[last..last + 1], all[|s|..|s| + 2];
    assert one[0] == p[1] && both[0] == p[0] && both[1] == p[1];
    if |t| > 0 {
      var two := all[last..last + 2];
      assert two[0] == p[1] && StateOf(two).None?;
    }
    assert StateAt(all, last, 0).None? && StateAt(all, last, 1).None?;
    assert StateAt(all, last, Min(WIDEST, |all| - last)).None?;
    assert StateAt(all, |s|, 2) == Some(Located(|s|, StateOf(p).value, |s| + 2));
  }

  // ---------------------------------------------------------------- printing

  /** One line of the list: the words of the serial, at least one space, the state, and what follows it. */
  datatype Row = Row(serial: seq<string>, pad: nat, phrase: seq<string>, trailing: seq<string>)

  function Gap(n: nat): (s: string)
    ensures |s| == n + 1 && AllSpace(s) && forall i :: 0 <= i < |s| ==> s[i] == ' '
  {
    seq(n + 1, _ => ' ')
  }

  function Line(row: Row): string { Spaced(row.serial) + Gap(row.pad) + Spaced(row.phrase + row.trailing) }

  predicate RowOk(row: Row) {
    && row.serial != [] && AllWords(row.serial) && AllWords(row.phrase + row.trailing)
    && StateOf(Lowered(row.phrase)).Some? && Locate(row.trailing).None?
  }

  const STAR := "*"
  const SERVER := "adb server"

  /** A device with such a serial looks like a message of the server. */
  predicate LooksLikeAMessage(serial: seq<string>) {
    StartsWith(Spaced(serial), STAR) || StartsWith(Spaced(serial), SERVER)
  }

  function DeviceFor(row: Row, alnum: char -> bool): Device
    requires StateOf(Lowered(row.phrase)).Some?
  {
    DeviceOf(Spaced(row.serial), StateOf(Lowered(row.phrase)).value, row.trailing, alnum)
  }

  function Printed(lines: seq<string>): string {
    if lines == [] then "" else lines[0] + "\n" + Printed(lines[1..])
  }

  function LinesFor(rows: seq<Row>): (lines: seq<string>)
    ensures |lines| == |rows| && forall i :: 0 <= i < |rows| ==> lines[i] == Line(rows[i])
  {
    seq(|rows|, i requires 0 <= i < |rows| => Line(rows[i]))
  }

  /** What adb prints for these rows. */
  function Print(rows: seq<Row>): string { HEADER + "\n" + Printed(LinesFor(rows)) }

  function DevicesFor(rows: seq<Row>, alnum: char -> bool): seq<Device>
    requires forall i :: 0 <= i < |rows| ==> RowOk(rows[i])
  {
    if rows == [] then []
    else
      assert RowOk(rows[0]);
      if LooksLikeAMessage(rows[0].serial) then DevicesFor(rows[1..], alnum)
      else [DeviceFor(rows[0], alnum)] + DevicesFor(rows[1..], alnum)
  }

  // ---------------------------------------------------------------- parsing what was printed

  lemma WordsOfLine(row: Row)
    requires row.serial != [] && AllWords(row.serial) && AllWords(row.phrase + row.trailing)
    ensures Words(Line(row)) == row.serial + row.phrase + row.trailing
  {
    var rest := Spaced(row.phrase + row.trailing);
    Associates(Spaced(row.serial), Gap(row.pad), rest);
    WordsOfSpaced(row.serial, Gap(row.pad) + rest);
    WordsAfterSpace(Gap(row.pad), rest);
    WordsOfSpaced(row.phrase + row.trailing, "");
    NothingBehindIt(rest);
    NothingBehindIt(row.phrase + row.trailing);
    ThreeParts(row.serial, row.phrase, row.trailing);
  }

  lemma NothingBehindIt<T>(s: seq<T>)
    ensures s + [] == s
  {
  }

  lemma ThreeParts<T>(a: seq<T>, b: seq<T>, c: seq<T>)
    ensures a + (b + c) == a + b + c
    ensures (a + b + c)[..|a|] == a && (a + b + c)[|a| + |b|..] == c
  {
  }

  lemma LineIsStripped(row: Row)
    requires RowOk(row)
    ensures Strip(Line(row)) == Line(row) && Line(row) != ""
  {
    SpacedStartsAndEnds(row.serial);
    assert row.phrase + row.trailing != [];
    SpacedStartsAndEnds(row.phrase + row.trailing);
    StripsToItself(Line(row));
  }

  /** No state starts like the word that makes a line a message. */
  lemma StatesStartOtherwise(phrase: seq<string>)
    requires StateOf(Lowered(phrase)).Some? && phrase != []
    ensures |phrase[0]| >= 2 && !(phrase[0][0] == 's' && phrase[0][1] == 'e')
  {
    var word := Lowered(phrase)[0];
    assert word == Lower(phrase[0]) && |word| == |phrase[0]|;
    assert IsSingleState(word) || word == "no";
    if |phrase[0]| >= 2 && phrase[0][0] == 's' { assert word[0] == 's' && word[1] == LowerChar(phrase[0][1]); }
  }

  lemma SpacedStartsWithItsFirst(words: seq<string>)
    requires words != []
    ensures |Spaced(words)| >= |words[0]| && forall i :: 0 <= i < |words[0]| ==> Spaced(words)[i] == words[0][i]
    ensures |words| > 1 ==> |Spaced(words)| > |words[0]| && Spaced(words)[|words[0]|] == ' '
  {
  }

  /** What stands behind the serial does not make the line a message. */
  lemma ShortSerialIsNoMessage(row: Row)
    requires RowOk(row) && |Spaced(row.serial)| < |SERVER| && row.phrase != []
    ensures !StartsWith(Line(row), SERVER)
  {
    var gap, rest, line := Gap(row.pad), Spaced(row.phrase + row.trailing), Line(row);
    var n := |Spaced(row.serial)|;
    assert line[n] == gap[0] == ' ';
    assert forall k :: 0 <= k < |SERVER| && SERVER[k] == ' ' ==> k == 3;
    assert StartsWith(line, SERVER) ==> line[n] == SERVER[n] && line[4] == SERVER[4] && line[5] == SERVER[5];
    if n == 3 {
      if row.pad > 0 {
        assert line[4] == gap[1];
      } else {
        StatesStartOtherwise(row.phrase);
        SpacedStartsWithItsFirst(row.phrase + row.trailing);
        assert line[4] == rest[0] == row.phrase[0][0] && line[5] == rest[1] == row.phrase[0][1];
      }
    }
  }

  /** Whether a line is passed over as a message of the server depends on its serial alone. */
  lemma MessagesAreKnownByTheirSerial(row: Row)
    requires RowOk(row)
    ensures StartsWith(Line(row), STAR) || StartsWith(Line(row), SERVER) <==> LooksLikeAMessage(row.serial)
  {
    var text, line := Spaced(row.serial), Line(row);
    SpacedStartsAndEnds(row.serial);
    assert row.phrase != [];
    assert StartsWith(line, STAR) <==> StartsWith(text, STAR) by { assert line[..1] == text[..1]; }
    if |text| < |SERVER| {
      ShortSerialIsNoMessage(row);
    } else {
      assert line[..|SERVER|] == text[..|SERVER|];
    }
  }

  /** A row is lost exactly if its serial looks like a message. */
  lemma DeviceIsRead(row: Row, alnum: char -> bool)
    requires RowOk(row)
    ensures DeviceIn(Strip(Line(row)), alnum)
         == if LooksLikeAMessage(row.serial) then None else Some(DeviceFor(row, alnum))
  {
    LineIsStripped(row);
    MessagesAreKnownByTheirSerial(row);
    WordsOfLine(row);
    StateIsFound(row.serial, row.phrase, row.trailing);
    ThreeParts(row.serial, row.phrase, row.trailing);
  }

  predicate OneLine(s: string) { '\n' !in s && '\r' !in s }

  lemma {:induction false} FirstLine(line: string, rest: string)
    requires OneLine(line)
    ensures Lines(line + "\n" + rest) == [line] + Lines(rest)
    decreases |line|
  {
    var text := line + "\n" + rest;
    if line == "" {
      assert text[1..] == rest;
    } else {
      FirstLine(line[1..], rest);
      assert text[1..] == line[1..] + "\n" + rest;
      assert [line[0]] + line[1..] == line;
      FirstAndRest(line[1..], Lines(rest));
    }
  }

  lemma {:induction false} LinesOfPrinted(lines: seq<string>)
    requires forall i :: 0 <= i < |lines| ==> OneLine(lines[i])
    ensures Lines(Printed(lines)) == lines + [""]
  {
    if lines == [] {
      NothingInFront(lines, [""]);
    } else {
      LinesOfPrinted(lines[1..]);
      FirstLine(lines[0], Printed(lines[1..]));
      WordsInFront(lines, [""]);
    }
  }

  lemma {:induction false} SpacedIsOneLine(words: seq<string>)
    requires AllWords(words)
    ensures OneLine(Spaced(words))
    decreases |words|
  {
    if words != [] {
      assert IsSpace('\n') && IsSpace('\r') && IsWord(words[0]);
      if |words| > 1 {
        AllButTheFirst(words);
        SpacedIsOneLine(words[1..]);
      }
    }
  }

  lemma LineIsOneLine(row: Row)
    requires RowOk(row)
    ensures OneLine(Line(row))
  {
    SpacedIsOneLine(row.serial);
    SpacedIsOneLine(row.phrase + row.trailing);
  }

  lemma {:induction false} DevicesAreRead(rows: seq<Row>, alnum: char -> bool)
    requires forall i :: 0 <= i < |rows| ==> RowOk(rows[i])
    ensures DevicesIn(LinesFor(rows) + [""], true, alnum) == DevicesFor(rows, alnum)
    decreases |rows|
  {
    var lines := LinesFor(rows) + [""];
    if rows == [] {
      assert lines[0] == "" && |lines[1..]| == 0;
      assert Strip("") == "";
    } else {
      DevicesAreRead(rows[1..], alnum);
      DeviceIsRead(rows[0], alnum);
      LinesBehind(rows);
    }
  }

  lemma LinesBehind(rows: seq<Row>)
    requires rows != []
    ensures (LinesFor(rows) + [""])[0] == Line(rows[0]) && (LinesFor(rows) + [""])[1..] == LinesFor(rows[1..]) + [""]
  {
    assert LinesFor(rows)[1..] == LinesFor(rows[1..]);
  }

  lemma HeaderIsOneLine()
    ensures OneLine(HEADER)
  {
  }

  lemma HeaderIsStripped()
    ensures Strip(HEADER) == HEADER
  {
    assert HEADER[0] == 'L' && HEADER[|HEADER| - 1] == 'd';
    StripsToItself(HEADER);
  }

  lemma HeaderIsSeen(lines: seq<string>, alnum: char -> bool)
    requires lines != [] && lines[0] == HEADER
    ensures DevicesIn(lines, false, alnum) == DevicesIn(lines[1..], true, alnum)
  {
    HeaderIsStripped();
    assert StartsWith(HEADER, HEADER);
  }

  /** Parsing what was printed reads each line on its own, in order, but for those that look like messages. */
  lemma ParseInvertsPrint(rows: seq<Row>, alnum: char -> bool)
    requires forall i :: 0 <= i < |rows| ==> RowOk(rows[i])
    ensures Parse(Print(rows), alnum) == DevicesFor(rows, alnum)
  {
    var lines := LinesFor(rows);
    forall i | 0 <= i < |lines|
      ensures OneLine(lines[i])
    {
      LineIsOneLine(rows[i]);
    }
    LinesOfPrinted(lines);
    HeaderIsOneLine();
    FirstLine(HEADER, Printed(lines));
    FirstAndRest(HEADER, lines + [""]);
    HeaderIsSeen([HEADER] + (lines + [""]), alnum);
    DevicesAreRead(rows, alnum);
  }

  // ---------------------------------------------------------------- fields

  /** A field that can be printed. */
  predicate FieldOk(field: (string, string), alnum: char -> bool) {
    ':' !in field.0 && field.1 != "" && IsKey(field.0, alnum)
  }

  function FieldTokens(fields: seq<(string, string)>): (tokens: seq<string>)
    ensures |tokens| == |fields|
  {
    seq(|fields|, i requires 0 <= i < |fields| => fields[i].0 + ":" + fields[i].1)
  }

  lemma {:induction false} ColonAfterKey(key: string, value: string)
    requires ':' !in key
    ensures FirstColon(key + ":" + value) == |key|
  {
    if key != "" {
      assert (key + ":" + value)[1..] == key[1..] + ":" + value;
      ColonAfterKey(key[1..], value);
    }
  }

  lemma FieldIsRead(key: string, value: string, alnum: char -> bool)
    requires FieldOk((key, value), alnum)
    ensures Field(key + ":" + value, alnum) == Some((key, value))
  {
    ColonAfterKey(key, value);
    var token := key + ":" + value;
    assert token[..|key|] == key && token[|key| + 1..] == value;
  }

  /** The last value printed for a key. */
  function LastValue(fields: seq<(string, string)>, key: string): Option<string> {
    if fields == [] then None
    else
      var last := fields[|fields| - 1];
      if last.0 == key then Some(last.1) else LastValue(fields[..|fields| - 1], key)
  }

  /** The fields printed behind a state are read back, the last one of a key winning; there are no others. */
  lemma {:induction false} FieldsAreRead(fields: seq<(string, string)>, key: string, alnum: char -> bool)
    requires forall i :: 0 <= i < |fields| ==> FieldOk(fields[i], alnum)
    ensures var m := Fields(FieldTokens(fields), alnum);
            (if key in m then Some(m[key]) else None) == LastValue(fields, key)
  {
    if fields != [] {
      var init, last := fields[..|fields| - 1], fields[|fields| - 1];
      FieldsAreRead(init, key, alnum);
      assert FieldOk(last, alnum);
      FieldIsRead(last.0, last.1, alnum);
      assert FieldTokens(fields)[..|fields| - 1] == FieldTokens(init);
    }
  }

  /** Field tokens never look like a state. */
  lemma FieldsHoldNoState(fields: seq<(string, string)>)
    ensures Locate(FieldTokens(fields)).None?
  {
    var lowered := Lowered(FieldTokens(fields));
    forall i | 0 <= i < |lowered|
      ensures ':' in lowered[i]
    {
      assert FieldTokens(fields)[i][|fields[i].0|] == ':';
      assert lowered[i][|fields[i].0|] == ':';
    }
    NoStateWithColons(lowered, |lowered|);
  }

  lemma NoColonInStates(word: string)
    requires ':' in word
    ensures !IsSingleState(word) && word != "no"
  {
    assert ':' !in "device" && ':' !in "unauthorized" && ':' !in "offline" && ':' !in "bootloader" && ':' !in "host"
           && ':' !in "recovery";
    assert ':' !in "rescue" && ':' !in "sideload" && ':' !in "authorizing" && ':' !in "connecting" && ':' !in "detached"
           && ':' !in "no";
  }

  lemma NoStateAtColon(lowered: seq<string>, i: nat, width: nat)
    requires i + width <= |lowered| && width <= 2 && (width > 0 ==> ':' in lowered[i])
    ensures StateAt(lowered, i, width).None?
  {
    if width > 0 {
      NoColonInStates(lowered[i]);
      assert lowered[i..i + width][0] == lowered[i];
      NoStateAtColon(lowered, i, width - 1);
    }
  }

  lemma {:induction false} NoStateWithColons(lowered: seq<string>, n: nat)
    requires n <= |lowered| && forall i :: 0 <= i < |lowered| ==> ':' in lowered[i]
    ensures LocateBefore(lowered, n).None?
  {
    if n > 0 {
      NoStateWithColons(lowered, n - 1);
      NoStateAtColon(lowered, n - 1, Min(WIDEST, |lowered| - (n - 1)));
    }
  }

  // ---------------------------------------------------------------- what is recovered

  /** A device as adb knows it: its serial, its state and its fields. */
  datatype Listed = Listed(serial: seq<string>, pad: nat, phrase: seq<string>, fields: seq<(string, string)>)

  function RowOf(listed: Listed): Row { Row(listed.serial, listed.pad, listed.phrase, FieldTokens(listed.fields)) }

  function RowsOf(list: seq<Listed>): (rows: seq<Row>)
    ensures |rows| == |list| && forall i :: 0 <= i < |list| ==> rows[i] == RowOf(list[i])
  {
    seq(|list|, i requires 0 <= i < |list| => RowOf(list[i]))
  }

  predicate ListedOk(listed: Listed, alnum: char -> bool) {
    && listed.serial != [] && AllWords(listed.serial) && AllWords(listed.phrase + FieldTokens(listed.fields))
    && StateOf(Lowered(listed.phrase)).Some?
    && forall i :: 0 <= i < |listed.fields| ==> FieldOk(listed.fields[i], alnum)
  }

  /** The devices whose serial does not look like a message. */
  function Shown(list: seq<Listed>): seq<Listed> {
    if list == [] then []
    else if LooksLikeAMessage(list[0].serial) then Shown(list[1..])
    else [list[0]] + Shown(list[1..])
  }

  /** USB is told by its field, an emulator by its first word, a network device by a colon. */
  function ConnectionFor(listed: Listed): Connection
    requires listed.serial != []
  {
    if exists i :: 0 <= i < |listed.fields| && listed.fields[i].0 == "usb" then Usb
    else if StartsWith(listed.serial[0], "emulator-") then Emulator
    else if exists i :: 0 <= i < |listed.serial| && ':' in listed.serial[i] then TcpIp
    else Unknown
  }

  ghost predicate Recovers(listed: Listed, device: Device)
    requires listed.serial != []
  {
    && device.serial == Spaced(listed.serial)
    && device.state == Spaced(Lowered(listed.phrase))
    && (forall key ::
          (if key in device.fields then Some(device.fields[key]) else None) == LastValue(listed.fields, key))
    && device.connection == ConnectionFor(listed)
  }

  lemma {:induction false} LastValueFinds(fields: seq<(string, string)>, key: string)
    ensures LastValue(fields, key).Some? <==> exists i :: 0 <= i < |fields| && fields[i].0 == key
  {
    if fields != [] {
      var init := fields[..|fields| - 1];
      LastValueFinds(init, key);
      if i :| 0 <= i < |init| && init[i].0 == key { assert fields[i].0 == key; }
      if i :| 0 <= i < |fields| && fields[i].0 == key && i < |init| { assert init[i].0 == key; }
    }
  }

  lemma {:induction false} ColonInSpaced(words: seq<string>)
    ensures ':' in Spaced(words) <==> exists i :: 0 <= i < |words| && ':' in words[i]
    decreases |words|
  {
    if |words| > 1 {
      var rest := words[1..];
      ColonInSpaced(rest);
      ColonInBoth(words[0], Spaced(rest));
      if i :| 0 <= i < |rest| && ':' in rest[i] { assert ':' in words[i + 1]; }
      if i :| 0 <= i < |words| && ':' in words[i] && i > 0 { assert ':' in rest[i - 1]; }
    }
  }

  lemma ColonInBoth(word: string, rest: string)
    ensures ':' in word + " " + rest <==> ':' in word || ':' in rest
  {
    var all := word + " " + rest;
    if i :| 0 <= i < |all| && all[i] == ':' { assert i != |word|; }
    if i :| 0 <= i < |word| && word[i] == ':' { assert all[i] == ':'; }
    if i :| 0 <= i < |rest| && rest[i] == ':' { assert all[|word| + 1 + i] == ':'; }
  }

  /** A prefix without a space is one of the first word. */
  lemma PrefixOfFirstWord(words: seq<string>, prefix: string)
    requires words != [] && ' ' !in prefix
    ensures StartsWith(Spaced(words), prefix) <==> StartsWith(words[0], prefix)
  {
    var text, first := Spaced(words), words[0];
    SpacedStartsWithItsFirst(words);
    if |prefix| <= |first| {
      assert text[..|prefix|] == first[..|prefix|];
    } else {
      assert prefix[|first|] in prefix;
      if |prefix| <= |text| { assert text[..|prefix|][|first|] == ' '; }
    }
  }

  lemma ConnectionIsRecovered(listed: Listed, alnum: char -> bool)
    requires ListedOk(listed, alnum)
    ensures ConnectionOf(Spaced(listed.serial), Fields(FieldTokens(listed.fields), alnum)) == ConnectionFor(listed)
  {
    FieldsAreRead(listed.fields, "usb", alnum);
    LastValueFinds(listed.fields, "usb");
    PrefixOfFirstWord(listed.serial, "emulator-");
    ColonInSpaced(listed.serial);
  }

  /** The name of a state is its lower-case words. */
  lemma StateIsSpelled(phrase: seq<string>)
    requires StateOf(phrase).Some?
    ensures StateOf(phrase) == Some(Spaced(phrase))
  {
    if |phrase| == 2 {
      assert Spaced(phrase[1..]) == phrase[1];
      assert "no" + " " + "permissions" == "no permissions";
    }
  }

  lemma DeviceIsRecovered(listed: Listed, alnum: char -> bool)
    requires ListedOk(listed, alnum)
    ensures RowOk(RowOf(listed)) && Recovers(listed, DeviceFor(RowOf(listed), alnum))
  {
    FieldsHoldNoState(listed.fields);
    StateIsSpelled(Lowered(listed.phrase));
    ConnectionIsRecovered(listed, alnum);
    forall key
      ensures var m := Fields(FieldTokens(listed.fields), alnum);
              (if key in m then Some(m[key]) else None) == LastValue(listed.fields, key)
    {
      FieldsAreRead(listed.fields, key, alnum);
    }
  }

  lemma {:induction false} ShownAreRecovered(list: seq<Listed>, alnum: char -> bool)
    requires forall i :: 0 <= i < |list| ==> ListedOk(list[i], alnum) && RowOk(RowOf(list[i]))
    ensures var devices, shown := DevicesFor(RowsOf(list), alnum), Shown(list);
            |devices| == |shown| && forall i :: 0 <= i < |shown| ==>
              shown[i].serial != [] && Recovers(shown[i], devices[i])
  {
    if list != [] {
      ShownAreRecovered(list[1..], alnum);
      assert RowsOf(list)[1..] == RowsOf(list[1..]);
      DeviceIsRecovered(list[0], alnum);
    }
  }

  /** Reading adb's list gives back every device, in order, with its serial, whatever words it is made of, its
      state, the last value of each of its fields and no other field, and its connection. Exactly the devices
      whose serial looks like a message of the server are missing. */
  lemma DevicesAreRecovered(list: seq<Listed>, alnum: char -> bool)
    requires forall i :: 0 <= i < |list| ==> ListedOk(list[i], alnum)
    ensures var devices, shown := Parse(Print(RowsOf(list)), alnum), Shown(list);
            |devices| == |shown| && forall i :: 0 <= i < |shown| ==>
              shown[i].serial != [] && Recovers(shown[i], devices[i])
  {
    forall i | 0 <= i < |list|
      ensures RowOk(RowOf(list[i]))
    {
      DeviceIsRecovered(list[i], alnum);
    }
    ParseInvertsPrint(RowsOf(list), alnum);
    ShownAreRecovered(list, alnum);
  }

  /** One device is missing exactly if its serial looks like a message. */
  lemma ADeviceIsLostExactlyIfItLooksLikeAMessage(listed: Listed, alnum: char -> bool)
    requires ListedOk(listed, alnum)
    ensures Parse(Print([RowOf(listed)]), alnum) == [] <==> LooksLikeAMessage(listed.serial)
  {
    DeviceIsRecovered(listed, alnum);
    ParseInvertsPrint([RowOf(listed)], alnum);
  }
}
