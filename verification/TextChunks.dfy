/** Splitting typed text into injection messages of a bounded UTF-8 size: greedy, and no worse than any
    other way of cutting between symbols. */
module TextChunks {
  import opened Wrappers

  /** A UTF-16 code unit; a text is a sequence of them. */
  type Unit = u: int | 0 <= u < 0x10000

  type Text = seq<Unit>

  /** What iterating over a text yields: a surrogate pair, or a single unit. */
  datatype Symbol = Symbol(units: Text)

  predicate High(u: Unit) { 0xD800 <= u <= 0xDBFF }

  predicate Low(u: Unit) { 0xDC00 <= u <= 0xDFFF }

  /** How many units the next symbol takes. */
  function Next(text: Text): (n: nat)
    requires text != []
    ensures 1 <= n <= 2 && n <= |text|
  {
    if |text| >= 2 && High(text[0]) && Low(text[1]) then 2 else 1
  }

  function Symbols(text: Text): seq<Symbol> {
    if text == [] then [] else [Symbol(text[..Next(text)])] + Symbols(text[Next(text)..])
  }

  predicate IsSymbol(s: Symbol) { |s.units| == 1 || (|s.units| == 2 && High(s.units[0]) && Low(s.units[1])) }

  /** The scalar value sent for a symbol; U+FFFD for an unpaired surrogate. */
  function CodePoint(s: Symbol): (c: nat)
    requires IsSymbol(s)
    ensures c < 0x110000 && (|s.units| == 2 <==> c >= 0x10000)
  {
    if |s.units| == 2 then 0x10000 + 0x400 * (s.units[0] as int - 0xD800) + (s.units[1] as int - 0xDC00)
    else if High(s.units[0]) || Low(s.units[0]) then 0xFFFD
    else s.units[0]
  }

  /** Section 3 of RFC 3629. */
  function Encode(c: nat): Bytes
    requires c < 0x110000
  {
    if c < 0x80 then [c]
    else if c < 0x800 then [0xC0 + c / 0x40, 0x80 + c % 0x40]
    else if c < 0x10000 then [0xE0 + c / 0x1000, 0x80 + c / 0x40 % 0x40, 0x80 + c % 0x40]
    else [0xF0 + c / 0x40000, 0x80 + c / 0x1000 % 0x40, 0x80 + c / 0x40 % 0x40, 0x80 + c % 0x40]
  }

  /** The bytes a symbol takes. */
  function Size(s: Symbol): (n: nat)
    ensures IsSymbol(s) ==> n == if |s.units| == 2 then 4 else if s.units[0] < 0x80 then 1
            else if s.units[0] < 0x800 then 2 else 3
  {
    if IsSymbol(s) then |Encode(CodePoint(s))| else 0
  }

  function Weight(symbols: seq<Symbol>): nat {
    if symbols == [] then 0 else Weight(symbols[..|symbols| - 1]) + Size(symbols[|symbols| - 1])
  }

  /** The length of a text in UTF-8. */
  function Utf8(text: Text): nat { Weight(Symbols(text)) }

  function Spell(symbols: seq<Symbol>): Text {
    if symbols == [] then [] else Spell(symbols[..|symbols| - 1]) + symbols[|symbols| - 1].units
  }

  function Join(chunks: seq<Text>): Text {
    if chunks == [] then [] else Join(chunks[..|chunks| - 1]) + chunks[|chunks| - 1]
  }

  function Flat(groups: seq<seq<Symbol>>): seq<Symbol> {
    if groups == [] then [] else groups[0] + Flat(groups[1..])
  }

  function EachSpelled(groups: seq<seq<Symbol>>): (chunks: seq<Text>)
    ensures |chunks| == |groups| && forall i :: 0 <= i < |groups| ==> chunks[i] == Spell(groups[i])
  {
    seq(|groups|, i requires 0 <= i < |groups| => Spell(groups[i]))
  }

  function EachSplit(chunks: seq<Text>): (groups: seq<seq<Symbol>>)
    ensures |chunks| == |groups| && forall i :: 0 <= i < |groups| ==> groups[i] == Symbols(chunks[i])
  {
    seq(|chunks|, i requires 0 <= i < |chunks| => Symbols(chunks[i]))
  }

  // ---------------------------------------------------------------- greedy splits are shortest

  /** No group can take the first symbol of the next one. */
  predicate Full(groups: seq<seq<Symbol>>, limit: nat) {
    && (forall i :: 0 <= i < |groups| ==> groups[i] != [])
    && (forall i :: 0 < i < |groups| ==> Weight(groups[i - 1]) + Size(groups[i][0]) > limit)
  }

  predicate Within(groups: seq<seq<Symbol>>, limit: nat) {
    forall i :: 0 <= i < |groups| ==> Weight(groups[i]) <= limit
  }

  lemma {:induction false} WeightOfBoth(a: seq<Symbol>, b: seq<Symbol>)
    ensures Weight(a + b) == Weight(a) + Weight(b)
    decreases |b|
  {
    if b == [] {
      assert a + b == a;
    } else {
      WeightOfBoth(a, b[..|b| - 1]);
      assert (a + b)[..|a + b| - 1] == a + b[..|b| - 1];
    }
  }

  lemma WeightOfPart(before: seq<Symbol>, part: seq<Symbol>, after: seq<Symbol>)
    ensures Weight(part) <= Weight(before + part + after)
  {
    WeightOfBoth(before + part, after);
    WeightOfBoth(before, part);
  }

  lemma WeightOfOne(s: Symbol)
    ensures Weight([s]) == Size(s) && Spell([s]) == s.units
  {
    assert |[s][..0]| == 0;
  }

  predicate EndsWith(long: seq<Symbol>, short: seq<Symbol>) { |short| <= |long| && long[|long| - |short|..] == short }

  /** If what follows `first` is shorter than `rest`, then `first` covers `group` and one more symbol. */
  lemma Covers(first: seq<Symbol>, after: seq<Symbol>, group: seq<Symbol>, rest: seq<Symbol>)
    returns (before: seq<Symbol>, tail: seq<Symbol>)
    requires EndsWith(first + after, group + rest) && |after| < |rest|
    ensures first == before + (group + [rest[0]]) + tail
  {
    var theirs, mine, need := first + after, group + rest, group + [rest[0]];
    var skipped := |theirs| - |mine|;
    before, tail := first[..skipped], first[skipped + |need|..];
    forall k | 0 <= k < |need|
      ensures first[skipped + k] == need[k]
    {
      assert theirs[skipped..][k] == mine[k] == need[k];
    }
    assert first == first[..skipped] + first[skipped..skipped + |need|] + first[skipped + |need|..];
    assert first[skipped..skipped + |need|] == need;
  }

  lemma FirstGroupIsTooHeavy(groups: seq<seq<Symbol>>, other: seq<seq<Symbol>>, limit: nat)
    requires groups != [] && other != [] && Full(groups, limit) && EndsWith(Flat(other), Flat(groups))
    requires |Flat(other[1..])| < |Flat(groups[1..])|
    ensures Weight(other[0]) > limit
  {
    assert |groups| > 1;
    var next := groups[1][0];
    assert Flat(groups[1..])[0] == next;
    var before, tail := Covers(other[0], Flat(other[1..]), groups[0], Flat(groups[1..]));
    WeightOfPart(before, groups[0] + [next], tail);
    WeightOfBoth(groups[0], [next]);
    WeightOfOne(next);
  }

  /** A greedy split stays ahead: if its symbols are the end of another split's, it has no more groups. */
  lemma {:induction false} GreedyStaysAhead(groups: seq<seq<Symbol>>, other: seq<seq<Symbol>>, limit: nat)
    requires Full(groups, limit) && Within(other, limit) && EndsWith(Flat(other), Flat(groups))
    ensures |groups| <= |other|
    decreases |groups|
  {
    if groups != [] {
      assert Flat(groups)[0] == groups[0][0];
      var mine, theirs := Flat(groups), Flat(other);
      var rest, theirRest := Flat(groups[1..]), Flat(other[1..]);
      if |theirRest| < |rest| {
        FirstGroupIsTooHeavy(groups, other, limit);
      }
      assert theirs[|theirs| - |theirRest|..] == theirRest && mine[|mine| - |rest|..] == rest;
      assert theirRest[|theirRest| - |rest|..] == theirs[|theirs| - |rest|..] == rest;
      FullTail(groups, limit);
      GreedyStaysAhead(groups[1..], other[1..], limit);
    }
  }

  lemma FullTail(groups: seq<seq<Symbol>>, limit: nat)
    requires Full(groups, limit) && groups != []
    ensures Full(groups[1..], limit)
  {
    var rest := groups[1..];
    forall i | 0 < i < |rest|
      ensures Weight(rest[i - 1]) + Size(rest[i][0]) > limit
    {
      assert rest[i] == groups[i + 1] && rest[i - 1] == groups[i];
    }
  }

  // ---------------------------------------------------------------- texts and their symbols

  /** These are the symbols of one text: a high surrogate on its own is not followed by a low one. */
  predicate Proper(symbols: seq<Symbol>) {
    && (forall i :: 0 <= i < |symbols| ==> IsSymbol(symbols[i]))
    && (forall i :: 0 < i < |symbols| ==>
        !(|symbols[i - 1].units| == 1 && High(symbols[i - 1].units[0]) && Low(symbols[i].units[0])))
  }

  lemma {:induction false} SymbolsAreProper(text: Text)
    ensures Proper(Symbols(text)) && Spell(Symbols(text)) == text
  {
    if text != [] {
      var n := Next(text);
      SymbolsAreProper(text[n..]);
      SpellInFront(Symbol(text[..n]), Symbols(text[n..]));
      if text[n..] != [] { assert Symbols(text[n..])[0].units[0] == text[n]; }
    }
  }

  lemma {:induction false} SpellInFront(first: Symbol, rest: seq<Symbol>)
    ensures Spell([first] + rest) == first.units + Spell(rest)
    decreases |rest|
  {
    if rest == [] {
      assert [first] + rest == [first];
      WeightOfOne(first);
    } else {
      var init := rest[..|rest| - 1];
      SpellInFront(first, init);
      assert ([first] + rest)[..|rest|] == [first] + init;
      Associates(first.units, Spell(init), rest[|rest| - 1].units);
    }
  }

  lemma {:induction false} SpellBoth(a: seq<Symbol>, b: seq<Symbol>)
    ensures Spell(a + b) == Spell(a) + Spell(b)
    decreases |b|
  {
    if b == [] {
      assert a + b == a;
    } else {
      SpellBoth(a, b[..|b| - 1]);
      assert (a + b)[..|a + b| - 1] == a + b[..|b| - 1];
      Associates(Spell(a), Spell(b[..|b| - 1]), b[|b| - 1].units);
    }
  }

  lemma ProperPart(symbols: seq<Symbol>, from: nat, to: nat)
    requires Proper(symbols) && from <= to <= |symbols|
    ensures Proper(symbols[from..to])
  {
    var part := symbols[from..to];
    forall i | 0 < i < |part|
      ensures !(|part[i - 1].units| == 1 && High(part[i - 1].units[0]) && Low(part[i].units[0]))
    {
      assert part[i] == symbols[from + i] && part[i - 1] == symbols[from + i - 1];
    }
  }

  /** The first symbol of a text is read off it if the rest does not start with its other half. */
  lemma SymbolInFront(first: Symbol, behind: Text)
    requires IsSymbol(first)
    requires behind != [] ==> !(|first.units| == 1 && High(first.units[0]) && Low(behind[0]))
    ensures Symbols(first.units + behind) == [first] + Symbols(behind)
  {
    var text, n := first.units + behind, |first.units|;
    assert text[0] == first.units[0] && (behind != [] ==> text[n] == behind[0]);
    assert Next(text) == n;
    assert text[..n] == first.units && text[n..] == behind;
  }

  lemma SpellStarts(symbols: seq<Symbol>)
    requires symbols != [] && IsSymbol(symbols[0])
    ensures Spell(symbols) != [] && Spell(symbols)[0] == symbols[0].units[0]
  {
    SpellInFront(symbols[0], symbols[1..]);
    assert symbols == [symbols[0]] + symbols[1..];
  }

  lemma FirstAndRest(symbols: seq<Symbol>)
    requires Proper(symbols) && symbols != []
    ensures symbols == [symbols[0]] + symbols[1..] && IsSymbol(symbols[0]) && Proper(symbols[1..])
    ensures |symbols| > 1 ==> Spell(symbols[1..]) != []
                              && !(|symbols[0].units| == 1 && High(symbols[0].units[0]) && Low(Spell(symbols[1..])[0]))
  {
    ProperPart(symbols, 1, |symbols|);
    assert symbols[1..|symbols|] == symbols[1..];
    if |symbols| > 1 { SpellStarts(symbols[1..]); }
  }

  /** Spelling consecutive symbols of a text makes a text with just those symbols. */
  lemma {:induction false} SymbolsOfSpell(symbols: seq<Symbol>)
    requires Proper(symbols)
    ensures Symbols(Spell(symbols)) == symbols
    decreases |symbols|
  {
    if symbols != [] {
      FirstAndRest(symbols);
      SymbolsOfSpell(symbols[1..]);
      SpellInFront(symbols[0], symbols[1..]);
      SymbolInFront(symbols[0], Spell(symbols[1..]));
    }
  }

  // ---------------------------------------------------------------- splits

  datatype ChunkError = BadLimit | SymbolTooLarge

  predicate Fits(text: Text, limit: int) { limit > 0 && forall s :: s in Symbols(text) ==> Size(s) <= limit }

  /** A way of cutting a text between symbols into texts of bounded size. */
  predicate IsSplit(text: Text, chunks: seq<Text>, limit: nat) {
    && Flat(EachSplit(chunks)) == Symbols(text)
    && forall i :: 0 <= i < |chunks| ==> Utf8(chunks[i]) <= limit
  }

  lemma {:induction false} Place(groups: seq<seq<Symbol>>, i: nat) returns (k: nat)
    requires i < |groups|
    ensures k + |groups[i]| <= |Flat(groups)| && Flat(groups)[k..k + |groups[i]|] == groups[i]
    decreases |groups|
  {
    if i == 0 {
      k := 0;
    } else {
      var k' := Place(groups[1..], i - 1);
      k := |groups[0]| + k';
      assert Flat(groups)[|groups[0]|..] == Flat(groups[1..]);
      assert Flat(groups)[k..k + |groups[i]|] == Flat(groups[1..])[k'..k' + |groups[i]|];
    }
  }

  /** Groups of a text's symbols, spelled out, are texts with just those symbols. */
  lemma SpelledGroupsSplitBack(text: Text, groups: seq<seq<Symbol>>)
    requires Flat(groups) == Symbols(text)
    ensures EachSplit(EachSpelled(groups)) == groups
  {
    SymbolsAreProper(text);
    forall i | 0 <= i < |groups|
      ensures EachSplit(EachSpelled(groups))[i] == groups[i]
    {
      var k := Place(groups, i);
      ProperPart(Symbols(text), k, k + |groups[i]|);
      SymbolsOfSpell(groups[i]);
    }
  }

  /** The split into full groups is a split, and the shortest. */
  lemma FullGroupsAreShortest(text: Text, groups: seq<seq<Symbol>>, limit: nat)
    requires Flat(groups) == Symbols(text) && Within(groups, limit) && Full(groups, limit)
    ensures IsSplit(text, EachSpelled(groups), limit) && [] !in EachSpelled(groups)
    ensures forall other :: IsSplit(text, other, limit) ==> |groups| <= |other|
  {
    SpelledGroupsSplitBack(text, groups);
    forall other | IsSplit(text, other, limit)
      ensures |groups| <= |other|
    {
      GreedyStaysAhead(groups, EachSplit(other), limit);
    }
    forall i | 0 <= i < |groups|
      ensures EachSpelled(groups)[i] != [] && Utf8(EachSpelled(groups)[i]) <= limit
    {
      assert EachSplit(EachSpelled(groups))[i] == groups[i];
    }
  }

  lemma {:induction false} JoinInFront(first: Text, rest: seq<Text>)
    ensures Join([first] + rest) == first + Join(rest)
    decreases |rest|
  {
    var all := [first] + rest;
    if rest == [] {
      assert all[|all| - 1] == first && |all[..|all| - 1]| == 0;
    } else {
      var init, last := rest[..|rest| - 1], rest[|rest| - 1];
      JoinInFront(first, init);
      assert all[..|all| - 1] == [first] + init && all[|all| - 1] == last;
      Associates(first, Join(init), last);
    }
  }

  lemma {:induction false} SpellFlat(groups: seq<seq<Symbol>>)
    ensures Spell(Flat(groups)) == Join(EachSpelled(groups))
  {
    if groups != [] {
      SpellFlat(groups[1..]);
      SpellBoth(groups[0], Flat(groups[1..]));
      assert EachSpelled(groups) == [Spell(groups[0])] + EachSpelled(groups[1..]);
      JoinInFront(Spell(groups[0]), EachSpelled(groups[1..]));
    }
  }

  /** Cutting between symbols loses nothing. */
  lemma SplitsJoinToTheText(text: Text, chunks: seq<Text>)
    requires Flat(EachSplit(chunks)) == Symbols(text)
    ensures Join(chunks) == text
  {
    forall i | 0 <= i < |chunks|
      ensures EachSpelled(EachSplit(chunks))[i] == chunks[i]
    {
      SymbolsAreProper(chunks[i]);
    }
    assert EachSpelled(EachSplit(chunks)) == chunks;
    SpellFlat(EachSplit(chunks));
    SymbolsAreProper(text);
  }

  lemma {:induction false} SymbolsWithin(groups: seq<seq<Symbol>>, limit: nat)
    requires Within(groups, limit)
    ensures forall s :: s in Flat(groups) ==> Size(s) <= limit
  {
    if groups != [] {
      assert forall i :: 0 <= i < |groups[1..]| ==> groups[1..][i] == groups[i + 1];
      SymbolsWithin(groups[1..], limit);
      forall s | s in groups[0]
        ensures Size(s) <= limit
      {
        var i :| 0 <= i < |groups[0]| && groups[0][i] == s;
        WeightOfPart(groups[0][..i], [s], groups[0][i + 1..]);
        assert groups[0] == groups[0][..i] + [s] + groups[0][i + 1..];
        WeightOfOne(s);
      }
    }
  }

  // ---------------------------------------------------------------- the splitter

  lemma {:induction false} FlatAppend(groups: seq<seq<Symbol>>, group: seq<Symbol>)
    ensures Flat(groups + [group]) == Flat(groups) + group
  {
    if groups == [] {
      assert groups + [group] == [group];
    } else {
      FlatAppend(groups[1..], group);
      assert (groups + [group])[1..] == groups[1..] + [group];
    }
  }

  lemma FullOpens(groups: seq<seq<Symbol>>, group: seq<Symbol>, s: Symbol, limit: nat)
    requires Full(groups + [group], limit) && Weight(group) + Size(s) > limit
    ensures Full(groups + [group] + [[s]], limit)
  {
    var before, now := groups + [group], groups + [group] + [[s]];
    assert forall i :: 0 <= i < |before| ==> now[i] == before[i];
    assert now[|before|] == [s] && before[|groups|] == group;
  }

  lemma FullExtends(groups: seq<seq<Symbol>>, group: seq<Symbol>, s: Symbol, limit: nat)
    requires Full(groups + [group], limit)
    ensures Full(groups + [group + [s]], limit)
  {
    var before, now := groups + [group], groups + [group + [s]];
    assert group == before[|groups|] && group != [];
    assert forall i :: 0 <= i < |groups| ==> now[i] == before[i];
    assert now[|groups|][0] == group[0];
  }

  /** The loop of the splitter: the finished groups, the growing one, and the text still to read. */
  ghost predicate Cutting(text: Text, rest: Text, limit: nat, chunks: seq<Text>, current: Text, bytes: nat,
                          groups: seq<seq<Symbol>>, group: seq<Symbol>) {
    && Symbols(text) == Flat(groups) + group + Symbols(rest)
    && Within(groups, limit) && Weight(group) <= limit
    && (if group == [] then groups == [] else Full(groups + [group], limit))
    && chunks == EachSpelled(groups) && current == Spell(group) && bytes == Weight(group)
    && (group == [] <==> current == [])
  }

  lemma Regroup(f: seq<Symbol>, g: seq<Symbol>, s: Symbol, r: seq<Symbol>)
    ensures f + g + ([s] + r) == f + g + [s] + r
    ensures f + g + ([s] + r) == f + (g + [s]) + r
  {
  }

  lemma Opens(text: Text, rest: Text, limit: nat, chunks: seq<Text>, current: Text, bytes: nat,
              groups: seq<seq<Symbol>>, group: seq<Symbol>)
    requires Cutting(text, rest, limit, chunks, current, bytes, groups, group) && rest != [] && current != []
    requires var s := Symbol(rest[..Next(rest)]); Size(s) <= limit < bytes + Size(s)
    ensures var s := Symbol(rest[..Next(rest)]);
            Cutting(text, rest[Next(rest)..], limit, chunks + [current], [] + s.units, Size(s), groups + [group],
                    [] + [s])
  {
    assert [] + Symbol(rest[..Next(rest)]).units == Symbol(rest[..Next(rest)]).units;
    assert [] + [Symbol(rest[..Next(rest)])] == [Symbol(rest[..Next(rest)])];
    var s, after := Symbol(rest[..Next(rest)]), rest[Next(rest)..];
    Regroup(Flat(groups), group, s, Symbols(after));
    FlatAppend(groups, group);
    FullOpens(groups, group, s, limit);
    WeightOfOne(s);
    assert EachSpelled(groups + [group]) == chunks + [current];
  }

  lemma Extends(text: Text, rest: Text, limit: nat, chunks: seq<Text>, current: Text, bytes: nat,
                groups: seq<seq<Symbol>>, group: seq<Symbol>)
    requires Cutting(text, rest, limit, chunks, current, bytes, groups, group) && rest != []
    requires bytes + Size(Symbol(rest[..Next(rest)])) <= limit
    ensures var s := Symbol(rest[..Next(rest)]);
            Cutting(text, rest[Next(rest)..], limit, chunks, current + s.units, bytes + Size(s), groups, group + [s])
  {
    var s, after := Symbol(rest[..Next(rest)]), rest[Next(rest)..];
    Regroup(Flat(groups), group, s, Symbols(after));
    assert (group + [s])[..|group|] == group;
    if group == [] {
      assert groups + [group + [s]] == [group + [s]];
    } else {
      FullExtends(groups, group, s, limit);
    }
  }

  lemma DoesNotFit(text: Text, rest: Text, limit: nat, chunks: seq<Text>, current: Text, bytes: nat,
                   groups: seq<seq<Symbol>>, group: seq<Symbol>)
    requires Cutting(text, rest, limit, chunks, current, bytes, groups, group) && rest != []
    requires Size(Symbol(rest[..Next(rest)])) > limit
    ensures !Fits(text, limit)
  {
    assert Symbols(rest)[0] == Symbol(rest[..Next(rest)]);
    assert Symbol(rest[..Next(rest)]) in Symbols(text);
  }

  /** The next symbol starts a new chunk. */
  predicate NeedsRoom(current: Text, bytes: nat, size: nat, limit: nat) { current != [] && bytes + size > limit }

  /** One turn of the loop, in the values it assigns. */
  lemma Continues(text: Text, rest: Text, limit: nat, chunks: seq<Text>, current: Text, bytes: nat,
                  groups: seq<seq<Symbol>>, group: seq<Symbol>)
    returns (groups': seq<seq<Symbol>>, group': seq<Symbol>)
    requires Cutting(text, rest, limit, chunks, current, bytes, groups, group) && rest != []
    requires Size(Symbol(rest[..Next(rest)])) <= limit
    ensures var s := Symbol(rest[..Next(rest)]);
            var opens := NeedsRoom(current, bytes, Size(s), limit);
            Cutting(text, rest[Next(rest)..], limit, if opens then chunks + [current] else chunks,
                    (if opens then [] else current) + s.units, (if opens then 0 else bytes) + Size(s), groups', group')
  {
    var s := Symbol(rest[..Next(rest)]);
    if NeedsRoom(current, bytes, Size(s), limit) {
      Opens(text, rest, limit, chunks, current, bytes, groups, group);
      return groups + [group], [] + [s];
    } else {
      Extends(text, rest, limit, chunks, current, bytes, groups, group);
      return groups, group + [s];
    }
  }

  lemma Begins(text: Text, limit: nat)
    ensures Cutting(text, text, limit, [], [], 0, [], [])
  {
  }

  /** What the splitter promises: the chunks join to the text, none is empty or above the limit, no symbol
      is split, and no other way of cutting between symbols needs fewer. */
  ghost predicate ShortestSplit(text: Text, chunks: seq<Text>, limit: nat) {
    && Join(chunks) == text && [] !in chunks && IsSplit(text, chunks, limit)
    && forall other :: IsSplit(text, other, limit) ==> |chunks| <= |other|
  }

  function WithRest(chunks: seq<Text>, current: Text): seq<Text> {
    if current != [] then chunks + [current] else chunks
  }

  lemma Finishes(text: Text, limit: nat, chunks: seq<Text>, current: Text, bytes: nat, groups: seq<seq<Symbol>>,
                 group: seq<Symbol>)
    requires Cutting(text, [], limit, chunks, current, bytes, groups, group) && limit > 0
    ensures Fits(text, limit) && ShortestSplit(text, WithRest(chunks, current), limit)
  {
    var all := if group != [] then groups + [group] else groups;
    FlatAppend(groups, group);
    assert Flat(all) == Symbols(text);
    assert EachSpelled(all) == WithRest(chunks, current);
    FullGroupsAreShortest(text, all, limit);
    SymbolsWithin(all, limit);
    SplitsJoinToTheText(text, EachSpelled(all));
  }

  /** The loop of the splitter: the finished chunks and the growing one, or a symbol that does not fit. */
  method CutSymbols(text: Text, limit: nat) returns (fits: bool, chunks: seq<Text>, current: Text)
    requires limit > 0
    ensures fits <==> Fits(text, limit)
    ensures fits ==> ShortestSplit(text, WithRest(chunks, current), limit)
  {
    chunks, current := [], [];
    var bytes: nat := 0;
    ghost var groups: seq<seq<Symbol>>, group: seq<Symbol> := [], [];
    var rest := text;
    Begins(text, limit);
    while rest != []
      invariant Cutting(text, rest, limit, chunks, current, bytes, groups, group)
      decreases |rest|
    {
      var s := Symbol(rest[..Next(rest)]);
      var size := Size(s);
      if size > limit {
        DoesNotFit(text, rest, limit, chunks, current, bytes, groups, group);
        return false, chunks, current;
      }
      groups, group := Continues(text, rest, limit, chunks, current, bytes, groups, group);
      if NeedsRoom(current, bytes, size, limit) {
        chunks := chunks + [current];
        current, bytes := [], 0;
      }
      current := current + s.units;
      bytes := bytes + size;
      rest := rest[Next(rest)..];
    }
    Finishes(text, limit, chunks, current, bytes, groups, group);
    return true, chunks, current;
  }

  /** `textInjectionMessages`. */
  method Chunks(text: Text, limit: int) returns (r: Result<seq<Text>, ChunkError>)
    ensures r.Ok? <==> Fits(text, limit)
    ensures r == Err(BadLimit) <==> limit <= 0
    ensures r.Ok? ==> limit > 0 && ShortestSplit(text, r.value, limit)
  {
    if limit <= 0 { return Err(BadLimit); }
    var fits, chunks, current := CutSymbols(text, limit);
    if !fits { return Err(SymbolTooLarge); }
    if current != [] { chunks := chunks + [current]; }
    return Ok(chunks);
  }

  // ---------------------------------------------------------------- what greedy cannot do

  const HIGH: Symbol := Symbol([0xD83D])
  const LOW: Symbol := Symbol([0xDE00])
  const PAIR: Symbol := Symbol([0xD83D, 0xDE00])
  const A: Symbol := Symbol([97])
  const B: Symbol := Symbol([98])

  /** Cutting through a surrogate pair could do with fewer texts: greedy is shortest only among splits
      that keep symbols whole. */
  lemma CuttingAPairCanBeShorter(left: Text, right: Text)
    requires left == [97, 98, 0xD83D] && right == [0xDE00, 97, 98]
    ensures Utf8(left) == 5 && Utf8(right) == 5
    ensures forall other :: IsSplit(left + right, other, 5) ==> |other| >= 3
  {
    assert left == A.units + B.units + HIGH.units && right == LOW.units + A.units + B.units;
    SizeOfThree(left, A, B, HIGH);
    SizeOfThree(right, LOW, A, B);
    AtLeastThree(left + right);
  }

  lemma SizeOfThree(text: Text, x: Symbol, y: Symbol, z: Symbol)
    requires text == x.units + y.units + z.units && Proper([x, y, z])
    ensures Utf8(text) == Size(x) + Size(y) + Size(z)
  {
    OfThree(x, y, z);
  }

  lemma AtLeastThree(text: Text)
    requires text == [97, 98, 0xD83D, 0xDE00, 97, 98]
    ensures forall other :: IsSplit(text, other, 5) ==> |other| >= 3
  {
    var groups := GreedyGroups(text);
    FullGroupsAreShortest(text, groups, 5);
  }

  lemma GreedyGroups(text: Text) returns (groups: seq<seq<Symbol>>)
    requires text == [97, 98, 0xD83D, 0xDE00, 97, 98]
    ensures |groups| == 3 && Full(groups, 5) && Within(groups, 5)
    ensures Flat(groups) == Symbols(text)
  {
    groups := [[A, B], [PAIR, A], [B]];
    FlatOfThree([A, B], [PAIR, A], [B]);
    OfThree(A, B, PAIR);
    OfThree(PAIR, A, B);
    SymbolsOfTheText(text, [A, B] + [PAIR, A] + [B]);
  }

  lemma SymbolsOfTheText(text: Text, symbols: seq<Symbol>)
    requires text == [97, 98, 0xD83D, 0xDE00, 97, 98] && symbols == [A, B] + [PAIR, A] + [B]
    ensures Symbols(text) == symbols
  {
    OfThree(A, B, PAIR);
    OfThree(PAIR, A, B);
    WeightOfOne(B);
    SpellBoth([A, B], [PAIR, A]);
    SpellBoth([A, B] + [PAIR, A], [B]);
    assert Spell(symbols) == [97, 98] + [0xD83D, 0xDE00, 97] + [98];
    assert [97, 98] + [0xD83D, 0xDE00, 97] + [98] == text;
    SymbolsOfSpell(symbols);
  }

  lemma OfThree(x: Symbol, y: Symbol, z: Symbol)
    ensures Weight([x, y]) == Size(x) + Size(y) && Weight([z]) == Size(z)
    ensures Spell([x, y]) == x.units + y.units && Spell([x, y, z]) == x.units + y.units + z.units
    ensures Proper([x, y, z]) ==> Utf8(x.units + y.units + z.units) == Size(x) + Size(y) + Size(z)
  {
    WeightOfOne(x);
    WeightOfOne(z);
    assert [x, y][..1] == [x] && [x, y, z][..2] == [x, y];
    if Proper([x, y, z]) { SymbolsOfSpell([x, y, z]); }
  }

  lemma FlatOfThree(x: seq<Symbol>, y: seq<Symbol>, z: seq<Symbol>)
    ensures Flat([x, y, z]) == x + y + z
  {
    assert [x, y, z][1..] == [y, z] && [y, z][1..] == [z] && |[z][1..]| == 0;
    assert Flat([z]) == z;
    assert x + (y + z) == x + y + z;
  }
}
