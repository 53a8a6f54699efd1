/** RECV and LIST replies: the client succeeds on exactly the replies the protocol allows, takes exactly
    their bytes, and on success holds exactly what was sent. */
module AdbReplies {
  import opened Wrappers
  import opened AdbWire
  import opened AdbSync
  import opened AdbSyncTheorems

  // ---------------------------------------------------------------- RECV

  /** A whole RECV reply: data frames of at most 64k, then DONE and four bytes. */
  ghost predicate IsFile(input: Bytes, chunks: seq<Bytes>, padding: Bytes, rest: Bytes) {
    Fit(chunks, MAX_CHUNK) && |padding| == 4 && input == Frames(chunks) + (DONE + padding + rest)
  }

  lemma FrameReads(chunk: Bytes, tail: Bytes)
    requires |chunk| <= MAX_CHUNK
    ensures Recv(DataFrame(chunk) + tail) == ThenChunks([chunk], Recv(tail))
  {
    var input := DataFrame(chunk) + tail;
    DataFrameReads(chunk, tail);
    Le32RoundTrip(|chunk|);
    assert input[4..][..4] == input[4..8] && input[4..][4..] == input[8..];
    assert ChunkIn(input[4..]) == Read(Ok(chunk), tail);
  }

  lemma ThenChunksTwice(a: seq<Bytes>, b: seq<Bytes>, d: Download)
    ensures ThenChunks(a, ThenChunks(b, d)) == ThenChunks(a + b, d)
  {
    assert a + (b + d.chunks) == a + b + d.chunks;
  }

  lemma {:induction false} RecvReads(chunks: seq<Bytes>, end: Bytes)
    requires Fit(chunks, MAX_CHUNK)
    ensures Recv(Frames(chunks) + end) == ThenChunks(chunks, Recv(end))
    decreases |chunks|
  {
    if chunks == [] {
      assert [] + end == end;
    } else {
      RecvReads(chunks[1..], end);
      FrameReads(chunks[0], Frames(chunks[1..]) + end);
      Associates(DataFrame(chunks[0]), Frames(chunks[1..]), end);
      ThenChunksTwice([chunks[0]], chunks[1..], Recv(end));
      assert [chunks[0]] + chunks[1..] == chunks;
    }
  }

  lemma DoneReads(padding: Bytes, rest: Bytes)
    requires |padding| == 4
    ensures Recv(DONE + padding + rest) == Download([], None, rest)
  {
    var input := DONE + padding + rest;
    assert input[..4] == DONE && input[4..][4..] == rest;
  }

  /** A reply that ends well was a legal one, frame by frame. */
  lemma {:induction false} RecvOnlyLegal(input: Bytes) returns (padding: Bytes)
    requires Recv(input).error.None?
    ensures IsFile(input, Recv(input).chunks, padding, Recv(input).rest)
    decreases |input|
  {
    if input[..4] == DATA {
      var chunk := ChunkIn(input[4..]);
      padding := RecvOnlyLegal(chunk.rest);
      FrameInFront(input);
      var d := Recv(chunk.rest);
      Associates(DataFrame(chunk.result.value), Frames(d.chunks), DONE + padding + d.rest);
      assert ([chunk.result.value] + d.chunks)[1..] == d.chunks;
    } else {
      padding := input[4..][..4];
      assert input == input[..4] + padding + input[4..][4..];
      assert Frames([]) + input == input;
    }
  }

  lemma FrameInFront(input: Bytes)
    requires |input| >= 4 && input[..4] == DATA && ChunkIn(input[4..]).result.Ok?
    ensures var chunk := ChunkIn(input[4..]);
            |chunk.result.value| <= MAX_CHUNK && input == DataFrame(chunk.result.value) + chunk.rest
  {
    var chunk := ChunkIn(input[4..]);
    FromLe32RoundTrip(input[4..][..4]);
    assert input == input[..4] + (input[4..][..4] + input[4..][4..]);
    assert input[4..][4..] == chunk.result.value + chunk.rest;
    Associates(DATA, input[4..][..4], chunk.result.value + chunk.rest);
    Associates(DATA + input[4..][..4], chunk.result.value, chunk.rest);
  }

  /** `pull` reads to the end exactly the legal replies; it takes their bytes and no more, and the file it
      writes is the one sent, whatever frames it was cut into. */
  lemma RecvIsExact(input: Bytes)
    ensures Recv(input).error.None? <==> exists chunks, padding, rest :: IsFile(input, chunks, padding, rest)
    ensures forall chunks, padding, rest :: IsFile(input, chunks, padding, rest) ==>
        Recv(input) == Download(chunks, None, rest)
  {
    forall chunks, padding, rest | IsFile(input, chunks, padding, rest)
      ensures Recv(input) == Download(chunks, None, rest)
    {
      DoneReads(padding, rest);
      RecvReads(chunks, DONE + padding + rest);
      assert chunks + [] == chunks;
    }
    if Recv(input).error.None? {
      var padding := RecvOnlyLegal(input);
    }
  }

  lemma Rejoined(input: Bytes, cut: nat, frames: Bytes, end: Bytes, rest: Bytes)
    requires cut <= |input| && input[..cut] == frames + (end + rest)
    ensures input == frames + (end + (rest + input[cut..]))
  {
    assert input == input[..cut] + input[cut..];
    Associates(frames, end + rest, input[cut..]);
    Associates(end, rest, input[cut..]);
  }

  /** Any reply cut short is refused. */
  lemma CutFileIsRefused(input: Bytes, cut: nat, chunks: seq<Bytes>, padding: Bytes)
    requires IsFile(input, chunks, padding, []) && cut < |input|
    ensures Recv(input[..cut]).error.Some?
  {
    if Recv(input[..cut]).error.None? {
      var short := Recv(input[..cut]);
      var end := RecvOnlyLegal(input[..cut]);
      var rest := short.rest + input[cut..];
      Rejoined(input, cut, Frames(short.chunks), DONE + end, short.rest);
      assert IsFile(input, short.chunks, end, rest);
      RecvIsExact(input);
    }
  }

  ghost predicate LegalPull(first: Bytes, second: Bytes, path: Bytes, stat: FileStat, chunks: seq<Bytes>,
                            padding: Bytes, rest: Bytes) {
    && StatResult(first, path) == Ok(stat) && stat.mode != 0 && !IsDirectory(stat.mode)
    && Opened(second, path).None? && |second| >= 8 && IsFile(second[8..], chunks, padding, rest)
    && |Concat(chunks)| == stat.size
  }

  lemma OpenedReads(input: Bytes, payload: Bytes)
    ensures Opened(input, payload).None? <==> OKAY + OKAY <= input && |payload| < U32
  {
    if |input| >= 8 { assert input[4..][..4] == input[4..8]; }
  }

  /** `pull` succeeds exactly when the source is a regular file and a whole legal reply carries as many
      bytes as STAT promised; then the local file is what was sent. */
  lemma PullSucceedsExactly(first: Bytes, second: Bytes, path: Bytes)
    ensures PullResult(first, second, path).0.Ok? <==>
              exists stat, chunks, padding, rest :: LegalPull(first, second, path, stat, chunks, padding, rest)
    ensures forall stat, chunks, padding, rest :: LegalPull(first, second, path, stat, chunks, padding, rest) ==>
              PullResult(first, second, path) == (Ok(stat.size), Some(Concat(chunks)), Totals(chunks))
  {
    OpenedReads(second, path);
    if |second| >= 8 { RecvIsExact(second[8..]); }
    if PullResult(first, second, path).0.Ok? {
      var stat := StatResult(first, path).value;
      var chunks, padding, rest :| IsFile(second[8..], chunks, padding, rest);
      assert LegalPull(first, second, path, stat, chunks, padding, rest);
    }
  }

  // ---------------------------------------------------------------- LIST

  predicate OnWire(e: Entry) { e.mode < U32 && e.size < U32 && e.modified < U32 && |e.name| < U32 }

  function Header(e: Entry): (h: Bytes)
    requires OnWire(e)
    ensures |h| == 16
  {
    Le32(e.mode) + Le32(e.size) + Le32(e.modified) + Le32(|e.name|)
  }

  function EntryFrame(e: Entry): Bytes
    requires OnWire(e)
  {
    DENT + (Header(e) + e.name)
  }

  function EntryFrames(entries: seq<Entry>): Bytes
    requires forall e :: e in entries ==> OnWire(e)
  {
    if entries == [] then [] else EntryFrame(entries[0]) + EntryFrames(entries[1..])
  }

  function Shown(entries: seq<Entry>): seq<Entry> {
    if entries == [] then []
    else if Listed(entries[0]) then [entries[0]] + Shown(entries[1..])
    else Shown(entries[1..])
  }

  ghost predicate IsDirectoryListing(input: Bytes, entries: seq<Entry>, padding: Bytes, rest: Bytes) {
    (forall e :: e in entries ==> OnWire(e)) && |padding| == 16
      && input == EntryFrames(entries) + (DONE + padding + rest)
  }

  lemma EntryReads(e: Entry, rest: Bytes)
    requires OnWire(e)
    ensures EntryIn(Header(e) + e.name + rest) == Read(Ok(e), rest)
  {
    var h := Header(e);
    var input := h + e.name + rest;
    assert input[..16] == h && input[16..] == e.name + rest && input[16..][..|e.name|] == e.name
           && input[16..][|e.name|..] == rest;
    assert h[..4] == Le32(e.mode) && h[4..8] == Le32(e.size) && h[8..12] == Le32(e.modified)
           && h[12..] == Le32(|e.name|);
    Le32RoundTrip(e.mode);
    Le32RoundTrip(e.size);
    Le32RoundTrip(e.modified);
    Le32RoundTrip(|e.name|);
  }

  lemma {:induction false} ListReads(entries: seq<Entry>, end: Bytes)
    requires forall e :: e in entries ==> OnWire(e)
    ensures List(EntryFrames(entries) + end) == Then(Shown(entries), List(end))
    decreases |entries|
  {
    if entries == [] {
      assert [] + end == end;
    } else {
      var e := entries[0];
      var tail := EntryFrames(entries[1..]) + end;
      ListReads(entries[1..], end);
      EntryReads(e, tail);
      var input := DENT + (Header(e) + e.name + tail);
      assert input[..4] == DENT && input[4..] == Header(e) + e.name + tail;
      assert List(input) == Then(if Listed(e) then [e] else [], List(tail));
      assert EntryFrames(entries) + end == input by {
        Associates(EntryFrame(e), EntryFrames(entries[1..]), end);
        Associates(DENT, Header(e) + e.name, tail);
      }
      ThenEntry([], e, List(tail));
      ThenTwice(if Listed(e) then [e] else [], Shown(entries[1..]), List(end));
    }
  }

  lemma ThenTwice(a: seq<Entry>, b: seq<Entry>, l: Listing)
    ensures Then(a, Then(b, l)) == Then(a + b, l)
  {
    assert a + (b + l.entries) == a + b + l.entries;
  }

  lemma {:induction false} ListOnlyLegal(input: Bytes) returns (entries: seq<Entry>, padding: Bytes)
    requires List(input).error.None?
    ensures IsDirectoryListing(input, entries, padding, List(input).rest)
    decreases |input|
  {
    var after := input[4..];
    assert input == input[..4] + after;
    if input[..4] == DENT {
      var read := EntryIn(after);
      var e := read.result.value;
      var tail;
      tail, padding := ListOnlyLegal(read.rest);
      EntryInFront(after);
      entries := [e] + tail;
      assert entries[1..] == tail;
      var end := DONE + padding + List(read.rest).rest;
      assert input == EntryFrame(e) + read.rest by { Associates(DENT, Header(e) + e.name, read.rest); }
      Associates(EntryFrame(e), EntryFrames(tail), end);
    } else {
      entries, padding := [], after[..16];
      assert after == padding + after[16..];
      Associates(DONE, padding, after[16..]);
      assert EntryFrames([]) + (DONE + padding + after[16..]) == DONE + padding + after[16..];
    }
  }

  lemma EntryInFront(input: Bytes)
    requires EntryIn(input).result.Ok?
    ensures var e := EntryIn(input).result.value; OnWire(e) && input == Header(e) + e.name + EntryIn(input).rest
  {
    var h, body := input[..16], input[16..];
    var e := EntryIn(input).result.value;
    FromLe32RoundTrip(h[..4]);
    FromLe32RoundTrip(h[4..8]);
    FromLe32RoundTrip(h[8..12]);
    FromLe32RoundTrip(h[12..]);
    assert h == h[..4] + h[4..8] + h[8..12] + h[12..];
    assert body == e.name + EntryIn(input).rest && input == h + body;
    Associates(h, e.name, EntryIn(input).rest);
  }

  /** `list` succeeds on exactly the legal replies and returns their entries in order, without "." and
      "..", leaving what follows the reply. */
  lemma ListIsExact(input: Bytes)
    ensures List(input).error.None?
            <==> exists entries, padding, rest :: IsDirectoryListing(input, entries, padding, rest)
    ensures forall entries, padding, rest :: IsDirectoryListing(input, entries, padding, rest) ==>
        List(input) == Listing(Shown(entries), None, rest)
  {
    forall entries, padding, rest | IsDirectoryListing(input, entries, padding, rest)
      ensures List(input) == Listing(Shown(entries), None, rest)
    {
      ListReads(entries, DONE + padding + rest);
      var end := DONE + padding + rest;
      assert end[..4] == DONE && end[4..] == padding + rest && end[4..][16..] == rest;
      assert List(end) == Listing([], None, rest);
      assert Shown(entries) + [] == Shown(entries);
    }
    if List(input).error.None? {
      var entries, padding := ListOnlyLegal(input);
    }
  }

  /** Any listing cut short is refused. */
  lemma CutListingIsRefused(input: Bytes, cut: nat, entries: seq<Entry>, padding: Bytes)
    requires IsDirectoryListing(input, entries, padding, []) && cut < |input|
    ensures List(input[..cut]).error.Some?
  {
    if List(input[..cut]).error.None? {
      var short := List(input[..cut]);
      var some, end := ListOnlyLegal(input[..cut]);
      var rest := short.rest + input[cut..];
      Rejoined(input, cut, EntryFrames(some), DONE + end, short.rest);
      assert IsDirectoryListing(input, some, end, rest);
      ListIsExact(input);
    }
  }

  // ---------------------------------------------------------------- SEND

  /** `push` succeeds exactly when both host requests and the upload are answered with OKAY and the last
      answer is whole; the four bytes after it are not looked at. */
  lemma PushSucceedsExactly(input: Bytes, size: nat, spec: Bytes, modified: int)
    ensures PushResult(input, size, spec, modified) == Ok(size) <==>
              |spec| < U32 && 0 <= modified < U32 && OKAY + OKAY + OKAY <= input && |input| >= 16
  {
    OpenedReads(input, spec);
    if |input| >= 12 {
      assert input[8..][..4] == input[8..12];
      assert (OKAY + OKAY + OKAY <= input) <==> (OKAY + OKAY <= input && input[8..12] == OKAY);
    }
  }
}
