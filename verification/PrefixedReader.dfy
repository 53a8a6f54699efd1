/** A reader that gives out bytes it was handed first, then those of the stream behind it.

    It refines one stream holding the prefix and then the source: each call answers as that stream could
    have answered. A stream is the bytes it will still deliver before its end; how many of them a `read`
    returns is the environment's choice, and any call that waits may be cancelled. */
module PrefixedReader {
  import opened Wrappers

  datatype Call = Read(n: int) | ReadExactly(n: int) | AtEof

  datatype Reply =
    | Data(bytes: Bytes)
    | Incomplete(partial: Bytes, expected: int)
    | Negative
    | AtEnd(yes: bool)
    | Cancelled

  /** What one `asyncio.StreamReader` may answer, and what it still delivers afterwards. */
  ghost predicate Allowed(stream: Bytes, call: Call, reply: Reply, left: Bytes) {
    match call
    case Read(n) =>
      if n == 0 then reply == Data([]) && left == stream
      else if n < 0 then
        || (reply == Data(stream) && left == [])
        || (reply == Cancelled && |left| <= |stream| && left == stream[|stream| - |left|..])
      else
        || (reply.Data? && stream == reply.bytes + left && |reply.bytes| <= n && (reply.bytes == [] ==> stream == []))
        || (reply == Cancelled && left == stream)
    case ReadExactly(n) =>
      if n < 0 then reply == Negative && left == stream
      else
        || (reply.Data? && stream == reply.bytes + left && |reply.bytes| == n)
        || (reply == Incomplete(stream, n) && |stream| < n && left == [])
        || (reply == Cancelled && left == stream && n > 0)
    case AtEof => reply.AtEnd? && left == stream && (reply.yes ==> stream == [])
  }

  class StreamReader {
    var remaining: Bytes
    var ended: bool

    ghost predicate Valid()
      reads this
    {
      ended ==> remaining == []
    }

    constructor (bytes: Bytes)
      ensures remaining == bytes && Valid()
    {
      remaining, ended := bytes, false;
    }

    method Read(n: int, cancelled: bool) returns (r: Reply)
      requires Valid()
      modifies this
      ensures Valid() && Allowed(old(remaining), Call.Read(n), r, remaining)
    {
      if n == 0 { return Data([]); }
      if cancelled { return Cancelled; }
      if n < 0 {
        r := Data(remaining);
        remaining, ended := [], true;
        return;
      }
      if remaining == [] {
        ended := true;
        return Data([]);
      }
      var k: nat :| 1 <= k <= n && k <= |remaining|;
      r := Data(remaining[..k]);
      remaining := remaining[k..];
    }

    method ReadExactly(n: int, cancelled: bool) returns (r: Reply)
      requires Valid()
      modifies this
      ensures Valid() && Allowed(old(remaining), Call.ReadExactly(n), r, remaining)
    {
      if n < 0 { return Negative; }
      if n == 0 { return Data([]); }
      if cancelled { return Cancelled; }
      if n <= |remaining| {
        r := Data(remaining[..n]);
        remaining := remaining[n..];
      } else {
        r := Incomplete(remaining, n);
        remaining, ended := [], true;
      }
    }
  }

  /** The reply of a call whose first bytes came from the prefix. */
  function Behind(taken: Bytes, reply: Reply, n: int): Reply {
    match reply
    case Data(bytes) => Data(taken + bytes)
    case Incomplete(partial, _) => Incomplete(taken + partial, n)
    case other => other
  }

  /** What the source answers to the part of a call that the prefix does not serve. */
  ghost predicate Served(taken: Bytes, source: Bytes, rest: Call, n: int, reply: Reply, source': Bytes) {
    exists inner :: Allowed(source, rest, inner, source') && reply == Behind(taken, inner, n)
  }

  /** A call for `n >= 0` bytes: what the prefix has of them is gone before the source is asked. */
  ghost predicate Taking(prefix: Bytes, source: Bytes, n: nat, exactly: bool, reply: Reply, prefix': Bytes,
                         source': Bytes) {
    if n <= |prefix| then reply == Data(prefix[..n]) && prefix' == prefix[n..] && source' == source
    else prefix' == [] && Served(prefix, source, if exactly then ReadExactly(n - |prefix|)
                                 else Read(n - |prefix|), n, reply, source')
  }

  /** One call on the prefixed reader. */
  ghost predicate Step(prefix: Bytes, source: Bytes, call: Call, reply: Reply, prefix': Bytes, source': Bytes) {
    match call
    case Read(n) =>
      if n >= 0 then Taking(prefix, source, n, false, reply, prefix', source')
      else prefix' == [] && Served(prefix, source, call, n, reply, source')
    case ReadExactly(n) =>
      if n >= 0 then Taking(prefix, source, n, true, reply, prefix', source')
      else reply == Negative && prefix' == prefix && source' == source
    case AtEof => prefix' == prefix && source' == source && reply.AtEnd? && (reply.yes ==> prefix == [] && source == [])
  }

  class PrefixedStreamReader {
    const reader: StreamReader
    var prefix: Bytes

    constructor (source: StreamReader, first: Bytes)
      ensures reader == source && prefix == first
    {
      reader, prefix := source, first;
    }

    method Read(n: int, cancelled: bool) returns (r: Reply)
      requires reader.Valid()
      modifies this, reader
      ensures reader.Valid()
      ensures Step(old(prefix), old(reader.remaining), Call.Read(n), r, prefix, reader.remaining)
    {
      if n == 0 {
        assert prefix[..0] == [] && prefix[0..] == prefix;
        return Data([]);
      }
      if n < 0 {
        var taken := prefix;
        prefix := [];
        var inner := reader.Read(n, cancelled);
        return Behind(taken, inner, n);
      }
      var taken: Bytes := [];
      if prefix != [] {
        var take := Min(n, |prefix|);
        taken, prefix := prefix[..take], prefix[take..];
        if take == n { return Data(taken); }
        assert taken == old(prefix);
      }
      var inner := reader.Read(n - |taken|, cancelled);
      return Behind(taken, inner, n);
    }

    method ReadExactly(n: int, cancelled: bool) returns (r: Reply)
      requires reader.Valid()
      modifies this, reader
      ensures reader.Valid()
      ensures Step(old(prefix), old(reader.remaining), Call.ReadExactly(n), r, prefix, reader.remaining)
    {
      if n < 0 { return Negative; }
      if n == 0 {
        assert prefix[..0] == [] && prefix[0..] == prefix;
        return Data([]);
      }
      var taken: Bytes := [];
      if prefix != [] {
        var take := Min(n, |prefix|);
        taken, prefix := prefix[..take], prefix[take..];
        if take == n { return Data(taken); }
        assert taken == old(prefix);
      }
      var inner := reader.ReadExactly(n - |taken|, cancelled);
      return Behind(taken, inner, n);
    }

    method AtEof() returns (r: bool)
      requires reader.Valid()
      ensures r <==> prefix == [] && reader.ended
      ensures Step(prefix, reader.remaining, Call.AtEof, AtEnd(r), prefix, reader.remaining)
    {
      return prefix == [] && reader.ended;
    }
  }

  /** The one call that no plain stream explains: it is cancelled while it waits for more than the prefix. */
  predicate LosesPrefix(prefix: Bytes, call: Call, reply: Reply) {
    match call
    case AtEof => false
    case Read(n) => reply.Cancelled? && n > |prefix| > 0
    case ReadExactly(n) => reply.Cancelled? && n > |prefix| > 0
  }

  lemma ServedInFront(taken: Bytes, source: Bytes, n: nat, exactly: bool, reply: Reply, source': Bytes)
    requires n > |taken| && Served(taken, source, if exactly then ReadExactly(n - |taken|)
                                   else Read(n - |taken|), n, reply, source')
    ensures Allowed(taken + source, if exactly then ReadExactly(n) else Read(n), reply, source')
            <==> !(reply.Cancelled? && |taken| > 0)
  {
    var rest := if exactly then ReadExactly(n - |taken|) else Read(n - |taken|);
    var inner :| Allowed(source, rest, inner, source') && reply == Behind(taken, inner, n);
    match inner {
      case Data(bytes) => assert taken + (bytes + source') == taken + bytes + source';
      case Cancelled => assert |taken + source| == |taken| + |source'|; assert taken == [] ==> taken + source == source;
      case _ =>
    }
  }

  lemma ServedToTheEnd(taken: Bytes, source: Bytes, n: int, reply: Reply, source': Bytes)
    requires n < 0 && Served(taken, source, Read(n), n, reply, source')
    ensures Allowed(taken + source, Read(n), reply, source')
  {
    var inner :| Allowed(source, Read(n), inner, source') && reply == Behind(taken, inner, n);
    var stream := taken + source;
    if inner.Cancelled? { assert stream[|stream| - |source'|..] == source[|source| - |source'|..]; }
  }

  /** Each call answers as the one stream could have, exactly unless it is cancelled after it has taken
      prefix bytes. */
  lemma StepRefinesExactly(prefix: Bytes, source: Bytes, call: Call, reply: Reply, prefix': Bytes, source': Bytes)
    requires Step(prefix, source, call, reply, prefix', source')
    ensures Allowed(prefix + source, call, reply, prefix' + source') <==> !LosesPrefix(prefix, call, reply)
  {
    assert [] + source' == source';
    match call {
      case AtEof =>
      case Read(n) => if n < 0 { ServedToTheEnd(prefix, source, n, reply, source'); }
           else { TakingRefines(prefix, source, n, false, reply, prefix', source'); }
      case ReadExactly(n) => if n >= 0 { TakingRefines(prefix, source, n, true, reply, prefix', source'); }
    }
  }

  lemma TakingRefines(prefix: Bytes, source: Bytes, n: nat, exactly: bool, reply: Reply, prefix': Bytes, source': Bytes)
    requires Taking(prefix, source, n, exactly, reply, prefix', source')
    ensures var call := if exactly then ReadExactly(n) else Read(n);
            Allowed(prefix + source, call, reply, prefix' + source') <==> !LosesPrefix(prefix, call, reply)
  {
    if n <= |prefix| {
      assert prefix + source == prefix[..n] + (prefix[n..] + source);
      if n == 0 { assert prefix[0..] + source == prefix + source; }
    } else {
      assert [] + source' == source';
      ServedInFront(prefix, source, n, exactly, reply, source');
    }
  }

  // ---------------------------------------------------------------- runs

  datatype Moment = Moment(prefix: Bytes, source: Bytes)

  datatype Exchange = Exchange(call: Call, reply: Reply)

  /** A run of the prefixed reader through the given moments. */
  ghost predicate Run(moments: seq<Moment>, exchanges: seq<Exchange>) {
    |moments| == |exchanges| + 1 &&
    forall i :: 0 <= i < |exchanges| ==>
      Step(moments[i].prefix, moments[i].source, exchanges[i].call, exchanges[i].reply, moments[i + 1].prefix,
           moments[i + 1].source)
  }

  /** No cancelled call had taken bytes of the prefix. */
  ghost predicate Undisturbed(moments: seq<Moment>, exchanges: seq<Exchange>)
    requires |moments| == |exchanges| + 1
  {
    forall i :: 0 <= i < |exchanges| ==> !LosesPrefix(moments[i].prefix, exchanges[i].call, exchanges[i].reply)
  }

  /** The same exchanges on one plain stream. */
  ghost predicate PlainRun(stream: Bytes, exchanges: seq<Exchange>, left: Bytes)
    decreases |exchanges|
  {
    if exchanges == [] then left == stream
    else exists between ::
      Allowed(stream, exchanges[0].call, exchanges[0].reply, between) && PlainRun(between, exchanges[1..], left)
  }

  /** Every sequence of calls is one the plain stream could have answered with the same replies. */
  lemma {:induction false} RunRefinesOneStream(moments: seq<Moment>, exchanges: seq<Exchange>)
    requires Run(moments, exchanges) && Undisturbed(moments, exchanges)
    ensures var last := moments[|exchanges|];
            PlainRun(moments[0].prefix + moments[0].source, exchanges, last.prefix + last.source)
    decreases |exchanges|
  {
    if exchanges != [] {
      var m, m', e := moments[0], moments[1], exchanges[0];
      StepRefinesExactly(m.prefix, m.source, e.call, e.reply, m'.prefix, m'.source);
      RunRefinesOneStream(moments[1..], exchanges[1..]);
      assert PlainRun(m'.prefix + m'.source, exchanges[1..], moments[|exchanges|].prefix + moments[|exchanges|].source);
    }
  }

  /** The bytes a reply hands out, a failed `readexactly` included. */
  function Handed(reply: Reply): Bytes {
    match reply
    case Data(bytes) => bytes
    case Incomplete(partial, _) => partial
    case _ => []
  }

  function Delivered(exchanges: seq<Exchange>): Bytes {
    if exchanges == [] then [] else Handed(exchanges[0].reply) + Delivered(exchanges[1..])
  }

  lemma AllowedHandsOutTheFront(stream: Bytes, call: Call, reply: Reply, left: Bytes)
    requires Allowed(stream, call, reply, left) && !reply.Cancelled?
    ensures stream == Handed(reply) + left
  {
  }

  /** Without cancelled calls, the bytes handed out and those still to come are, in order and each once,
      the prefix and then the source. */
  lemma {:induction false} NothingIsLostOrRepeated(moments: seq<Moment>, exchanges: seq<Exchange>)
    requires Run(moments, exchanges)
    requires forall i :: 0 <= i < |exchanges| ==> !exchanges[i].reply.Cancelled?
    ensures var last := moments[|exchanges|];
            moments[0].prefix + moments[0].source == Delivered(exchanges) + (last.prefix + last.source)
    decreases |exchanges|
  {
    if exchanges != [] {
      var m, m', e := moments[0], moments[1], exchanges[0];
      StepRefinesExactly(m.prefix, m.source, e.call, e.reply, m'.prefix, m'.source);
      AllowedHandsOutTheFront(m.prefix + m.source, e.call, e.reply, m'.prefix + m'.source);
      NothingIsLostOrRepeated(moments[1..], exchanges[1..]);
      var last := moments[|exchanges|];
      Associates(Handed(e.reply), Delivered(exchanges[1..]), last.prefix + last.source);
    }
  }

  /** What a cancelled call does lose: with one prefix byte and nothing yet behind it, the byte is gone. */
  lemma ACancelledCallLosesThePrefix()
    ensures Step([0], [], Call.ReadExactly(2), Cancelled, [], [])
    ensures !Allowed([0], Call.ReadExactly(2), Cancelled, [])
  {
    assert Allowed([], Call.ReadExactly(1), Cancelled, []);
    assert Behind([0], Cancelled, 2) == Cancelled;
    assert Served([0], [], Call.ReadExactly(1), 2, Cancelled, []);
  }
}
