/** Python's way with whitespace, words and the last occurrence of a separator. */
module Texts {
  import opened Wrappers

  /** `str.isspace`. */
  predicate IsSpace(c: char) {
    || '\U{9}' <= c <= '\U{d}' || '\U{1c}' <= c <= ' ' || c == '\U{85}' || c == '\U{a0}' || c == '\U{1680}'
    || '\U{2000}' <= c <= '\U{200a}' || c == '\U{2028}' || c == '\U{2029}' || c == '\U{202f}' || c == '\U{205f}'
       || c == '\U{3000}'
  }

  function StripLeft(s: string): (r: string)
    ensures |r| <= |s| && (r != "" ==> !IsSpace(r[0]))
  {
    if s != "" && IsSpace(s[0]) then StripLeft(s[1..]) else s
  }

  function StripRight(s: string): string {
    if s != "" && IsSpace(s[|s| - 1]) then StripRight(s[..|s| - 1]) else s
  }

  /** `str.strip`. */
  function Strip(s: string): string { StripRight(StripLeft(s)) }

  predicate AllSpace(s: string) { forall i :: 0 <= i < |s| ==> IsSpace(s[i]) }

  predicate AllWords(words: seq<string>) { forall i :: 0 <= i < |words| ==> IsWord(words[i]) }

  predicate IsWord(s: string) { s != "" && forall i :: 0 <= i < |s| ==> !IsSpace(s[i]) }

  function FirstSpace(s: string): (i: nat)
    ensures i <= |s| && (i < |s| ==> IsSpace(s[i])) && forall j :: 0 <= j < i ==> !IsSpace(s[j])
  {
    if s == "" || IsSpace(s[0]) then 0 else 1 + FirstSpace(s[1..])
  }

  /** `str.split()`. */
  function Words(s: string): seq<string>
    decreases |s|
  {
    var t := StripLeft(s);
    if t == "" then []
    else
      var i := FirstSpace(t);
      [t[..i]] + Words(t[i..])
  }

  /** Words with one space between them. */
  function Spaced(words: seq<string>): string {
    if words == [] then "" else if |words| == 1 then words[0] else words[0] + " " + Spaced(words[1..])
  }

  lemma {:induction false} StripLeftAfterSpace(gap: string, s: string)
    requires AllSpace(gap)
    ensures StripLeft(gap + s) == StripLeft(s)
    decreases |gap|
  {
    if gap == "" {
      assert gap + s == s;
    } else {
      assert (gap + s)[1..] == gap[1..] + s;
      StripLeftAfterSpace(gap[1..], s);
    }
  }

  lemma {:induction false} FirstSpaceAfter(word: string, s: string)
    requires (forall i :: 0 <= i < |word| ==> !IsSpace(word[i])) && (s == "" || IsSpace(s[0]))
    ensures FirstSpace(word + s) == |word|
    decreases |word|
  {
    if word == "" {
      assert word + s == s;
    } else {
      assert (word + s)[1..] == word[1..] + s;
      FirstSpaceAfter(word[1..], s);
    }
  }

  lemma WordsAfterSpace(gap: string, s: string)
    requires AllSpace(gap)
    ensures Words(gap + s) == Words(s)
  {
    StripLeftAfterSpace(gap, s);
  }

  /** One word in front. */
  lemma WordInFront(word: string, s: string)
    requires IsWord(word) && (s == "" || IsSpace(s[0]))
    ensures Words(word + s) == [word] + Words(s)
  {
    var t := word + s;
    assert t[0] == word[0];
    assert StripLeft(t) == t;
    FirstSpaceAfter(word, s);
    assert t[..|word|] == word && t[|word|..] == s;
  }

  lemma {:induction false} WordsOfSpaced(words: seq<string>, s: string)
    requires AllWords(words) && (s == "" || IsSpace(s[0]))
    ensures Words(Spaced(words) + s) == words + Words(s)
    decreases |words|
  {
    if |words| <= 1 {
      AtMostOneWord(words, s);
    } else {
      AllButTheFirst(words);
      WordsOfSpaced(words[1..], s);
      MoreWords(words, words[1..], s);
    }
  }

  lemma AllButTheFirst(words: seq<string>)
    requires AllWords(words) && words != []
    ensures AllWords(words[1..])
  {
  }

  lemma MoreWords(words: seq<string>, rest: seq<string>, s: string)
    requires |words| > 1 && IsWord(words[0]) && rest == words[1..] && Words(Spaced(rest) + s) == rest + Words(s)
    ensures Words(Spaced(words) + s) == words + Words(s)
  {
    SpacedWordInFront(words[0], Spaced(rest), s);
    WordsInFront(words, Words(s));
  }

  lemma AtMostOneWord(words: seq<string>, s: string)
    requires |words| <= 1 && AllWords(words) && (s == "" || IsSpace(s[0]))
    ensures Words(Spaced(words) + s) == words + Words(s)
  {
    if |words| == 0 {
      NothingInFront(Spaced(words), s);
      NothingInFront(words, Words(s));
    } else {
      WordInFront(words[0], s);
      OneInFront(words, Words(s));
    }
  }

  lemma NothingInFront<T>(none: seq<T>, s: seq<T>)
    requires |none| == 0
    ensures none + s == s
  {
  }

  lemma FirstAndRest<T>(first: T, rest: seq<T>)
    ensures ([first] + rest)[0] == first && ([first] + rest)[1..] == rest
  {
  }

  lemma OneInFront<T>(one: seq<T>, more: seq<T>)
    requires |one| == 1
    ensures [one[0]] + more == one + more
  {
  }

  lemma SpacedWordInFront(word: string, rest: string, s: string)
    requires IsWord(word)
    ensures Words(word + " " + rest + s) == [word] + Words(rest + s)
  {
    Reassociates(word, " ", rest, s);
    WordAndSpaceInFront(word, rest + s);
  }

  lemma Reassociates<T>(a: seq<T>, b: seq<T>, c: seq<T>, d: seq<T>)
    ensures a + b + c + d == a + (b + (c + d))
  {
  }

  lemma WordAndSpaceInFront(word: string, s: string)
    requires IsWord(word)
    ensures Words(word + (" " + s)) == [word] + Words(s)
  {
    WordInFront(word, " " + s);
    WordsAfterSpace(" ", s);
  }

  lemma WordsInFront<T>(words: seq<T>, more: seq<T>)
    requires words != []
    ensures [words[0]] + (words[1..] + more) == words + more
  {
  }

  lemma {:induction false} SpacedStartsAndEnds(words: seq<string>)
    requires words != [] && AllWords(words)
    ensures Spaced(words) != "" && !IsSpace(Spaced(words)[0]) && !IsSpace(Spaced(words)[|Spaced(words)| - 1])
    decreases |words|
  {
    if |words| > 1 { SpacedStartsAndEnds(words[1..]); }
  }

  lemma StripsToItself(s: string)
    requires s != "" ==> !IsSpace(s[0]) && !IsSpace(s[|s| - 1])
    ensures Strip(s) == s
  {
  }

  // ---------------------------------------------------------------- case

  function LowerChar(c: char): char { if 'A' <= c <= 'Z' then (c as int + 32) as char else c }

  /** `str.lower`, as far as it concerns ASCII letters. */
  function Lower(s: string): (r: string)
    ensures |r| == |s|
  {
    seq(|s|, i requires 0 <= i < |s| => LowerChar(s[i]))
  }

  // ---------------------------------------------------------------- file names

  /** Where the suffix of a file name starts: its last dot, unless that dot opens or closes the name. */
  function SuffixStart(name: string, from: nat): (i: nat)
    requires from <= |name|
    ensures i <= |name|
    ensures i < |name| ==> 0 < i < |name| - 1 && name[i] == '.'
  {
    if from == 0 then |name|
    else if name[from - 1] == '.' then
      if 0 < from - 1 < |name| - 1 then from - 1 else |name|
    else SuffixStart(name, from - 1)
  }

  function Stem(name: string): string { name[..SuffixStart(name, |name|)] }

  function Suffix(name: string): string { name[SuffixStart(name, |name|)..] }

  // ---------------------------------------------------------------- the last separator

  predicate OccursAt(s: string, sep: string, i: nat) { i + |sep| <= |s| && s[i..i + |sep|] == sep }

  /** Where `rpartition` cuts: the last occurrence. */
  function LastOccurrence(s: string, sep: string, upTo: nat): (i: Option<nat>)
    ensures i.Some? ==>
      OccursAt(s, sep, i.value) && i.value < upTo && forall j :: i.value < j < upTo ==> !OccursAt(s, sep, j)
    ensures i.None? ==> forall j :: 0 <= j < upTo ==> !OccursAt(s, sep, j)
  {
    if upTo == 0 then None
    else if OccursAt(s, sep, upTo - 1) then Some(upTo - 1)
    else LastOccurrence(s, sep, upTo - 1)
  }

  /** `rpartition`: what stands before and after the last separator. */
  function RPartition(s: string, sep: string): Option<(string, string)> {
    match LastOccurrence(s, sep, |s| + 1)
    case None => None
    case Some(i) => Some((s[..i], s[i + |sep|..]))
  }

  /** A separator whose first character stands nowhere else in it or behind it is the last one. */
  lemma RPartitionAt(before: string, sep: string, after: string)
    requires sep != "" && sep[0] !in sep[1..] && sep[0] !in after
    ensures RPartition(before + sep + after, sep) == Some((before, after))
  {
    var s := before + sep + after;
    assert s[|before|..|before| + |sep|] == sep;
    assert OccursAt(s, sep, |before|);
    forall j | |before| < j <= |s|
      ensures !OccursAt(s, sep, j)
    {
      if j < |s| {
        assert s[j] == (sep[1..] + after)[j - |before| - 1];
        assert s[j] != sep[0];
        if j + |sep| <= |s| { assert s[j..j + |sep|][0] == s[j]; }
      }
    }
    assert s[..|before|] == before && s[|before| + |sep|..] == after;
  }
}
