/** The sync client: each operation opens a connection, writes its request and reads the reply.

    A connection holds the bytes the server will still send and those the client has written; a server
    that falls silent until a timeout is one whose stream ends there. */
module AdbSync {
  import opened Wrappers
  import opened AdbWire

  /** A listing whose first entries have been read. */
  ghost function Then(read: seq<Entry>, rest: Listing): (l: Listing)
    ensures rest.entries == [] ==> l.entries == read
    ensures read == [] ==> l == rest
  {
    Listing(read + rest.entries, rest.error, rest.rest)
  }

  lemma ThenEntry(read: seq<Entry>, e: Entry, rest: Listing)
    ensures Then(read, Listing((if Listed(e) then [e] else []) + rest.entries, rest.error, rest.rest))
            == Then(if Listed(e) then read + [e] else read, rest)
  {
    assert read + ([e] + rest.entries) == read + [e] + rest.entries;
    assert [] + rest.entries == rest.entries;
  }

  ghost function ThenChunks(read: seq<Bytes>, rest: Download): (d: Download)
    ensures rest.chunks == [] ==> d.chunks == read
    ensures read == [] ==> d == rest
  {
    Download(read + rest.chunks, rest.error, rest.rest)
  }

  lemma ThenChunk(read: seq<Bytes>, chunk: Bytes, rest: Download)
    ensures ThenChunks(read, Download([chunk] + rest.chunks, rest.error, rest.rest)) == ThenChunks(read + [chunk], rest)
  {
    assert read + ([chunk] + rest.chunks) == read + [chunk] + rest.chunks;
  }

  lemma {:induction false} ConcatAppend(chunks: seq<Bytes>, chunk: Bytes)
    ensures Concat(chunks + [chunk]) == Concat(chunks) + chunk
  {
    if chunks == [] {
      assert [] + [chunk] == [chunk];
    } else {
      assert (chunks + [chunk])[1..] == chunks[1..] + [chunk];
      ConcatAppend(chunks[1..], chunk);
    }
  }

  /** One more chunk adds its bytes to the file and the new length to the totals. */
  lemma ChunkReceived(chunks: seq<Bytes>, chunk: Bytes)
    ensures Concat(chunks + [chunk]) == Concat(chunks) + chunk
    ensures Totals(chunks + [chunk]) == Totals(chunks) + [|Concat(chunks)| + |chunk|]
  {
    ConcatAppend(chunks, chunk);
    assert (chunks + [chunk])[..|chunks|] == chunks;
  }

  lemma {:induction false} FramesAppend(chunks: seq<Bytes>, chunk: Bytes)
    requires Fit(chunks, MAX_CHUNK) && |chunk| <= MAX_CHUNK
    ensures Fit(chunks + [chunk], MAX_CHUNK)
    ensures Frames(chunks + [chunk]) == Frames(chunks) + DataFrame(chunk)
  {
    if chunks == [] {
      assert [] + [chunk] == [chunk];
    } else {
      FramesAppend(chunks[1..], chunk);
      assert (chunks + [chunk])[1..] == chunks[1..] + [chunk];
      Associates(DataFrame(chunks[0]), Frames(chunks[1..]), DataFrame(chunk));
    }
  }

  /** `min(max(chunk_size, 4096), 64 * 1024)` lies here. */
  type ChunkSize = n: nat | 4096 <= n <= MAX_CHUNK witness 4096

  /** What `push` has done when it has read the file up to `position`. */
  ghost predicate Sending(content: Bytes, size: ChunkSize, base: Bytes, sent: seq<Bytes>, position: nat,
                          progress: seq<nat>, output: Bytes) {
    && position <= |content| && Fit(sent, MAX_CHUNK)
    && Pieces(content, size) == sent + Pieces(content[position..], size)
    && |Concat(sent)| == position
    && progress == Totals(sent)
    && output == base + Frames(sent)
  }

  lemma SendingBegins(content: Bytes, size: ChunkSize, base: Bytes)
    ensures Sending(content, size, base, [], 0, [], base)
  {
    assert content[0..] == content && base + [] == base;
  }

  lemma PiecesContinue(content: Bytes, size: ChunkSize, position: nat, sent: seq<Bytes>)
    requires position < |content| && Pieces(content, size) == sent + Pieces(content[position..], size)
    ensures var n := if |content| - position < size then |content| - position else size;
            Pieces(content, size) == sent + [content[position..][..n]] + Pieces(content[position + n..], size)
  {
    var n := if |content| - position < size then |content| - position else size;
    assert content[position..][n..] == content[position + n..];
  }

  lemma SendingContinues(content: Bytes, size: ChunkSize, base: Bytes, sent: seq<Bytes>, position: nat,
                         progress: seq<nat>, output: Bytes)
    requires Sending(content, size, base, sent, position, progress, output) && position < |content|
    ensures var n := if |content| - position < size then |content| - position else size;
            var chunk := content[position..][..n];
            Sending(content, size, base, sent + [chunk], position + n, progress + [position + n],
                    output + DataFrame(chunk))
  {
    var n := if |content| - position < size then |content| - position else size;
    var chunk := content[position..][..n];
    FramesAppend(sent, chunk);
    Associates(base, Frames(sent), DataFrame(chunk));
    ChunkReceived(sent, chunk);
    PiecesContinue(content, size, position, sent);
  }

  lemma SendingEnds(content: Bytes, size: ChunkSize, base: Bytes, sent: seq<Bytes>, position: nat, progress: seq<nat>,
                    output: Bytes)
    requires Sending(content, size, base, sent, position, progress, output) && position == |content|
    ensures output == base + Frames(Pieces(content, size)) && progress == Totals(Pieces(content, size))
  {
    assert content[position..] == [] && sent + [] == sent;
  }

  lemma StreamAssociates(begun: Bytes, request: Bytes, frames: Bytes, end: Bytes)
    ensures begun + request + frames + end == begun + (request + frames + end)
  {
  }

  class Connection {
    var input: Bytes
    var output: Bytes

    constructor (incoming: Bytes)
      ensures input == incoming && output == []
    {
      input, output := incoming, [];
    }

    method Write(bytes: Bytes)
      modifies this`output
      ensures output == old(output) + bytes
    {
      output := output + bytes;
    }

    /** `_read_exactly`. */
    method ReadExactly(n: nat) returns (r: Result<Bytes, SyncError>)
      modifies this`input
      ensures Read(r, input) == Exactly(old(input), n)
    {
      if n <= |input| {
        r := Ok(input[..n]);
        input := input[n..];
      } else {
        r := Err(Truncated(n, |input|));
        input := [];
      }
    }

    /** `_host_request`. */
    method HostRequest(payload: Bytes) returns (error: Option<SyncError>)
      modifies this
      ensures output == old(output) + AdbWire.HostRequest(payload)
      ensures error == HostReply(old(input))
      ensures error.None? ==> input == old(input)[4..]
    {
      Write(AdbWire.HostRequest(payload));
      var status := ReadExactly(4);
      if status.Err? { return Some(status.error); }
      if status.value == OKAY { return None; }
      if status.value != FAIL { return Some(Unexpected(status.value)); }
      var text := ReadExactly(4);
      if text.Err? { return Some(text.error); }
      var length := FromHex(text.value);
      if length.None? { return Some(BadHostLength(text.value)); }
      var message := ReadExactly(length.value);
      return if message.Err? then Some(message.error) else Some(HostFailure(message.value));
    }

    /** `connection`: the transport of the device, then its sync service. */
    method Connect(serial: Bytes) returns (error: Option<SyncError>)
      modifies this
      ensures error == ConnectReply(old(input))
      ensures output == old(output) + (if HostReply(old(input)).Some? then AdbWire.HostRequest(TRANSPORT + serial)
                                       else ConnectRequest(serial))
      ensures error.None? ==> input == old(input)[8..]
    {
      error := HostRequest(TRANSPORT + serial);
      if error.Some? { return; }
      error := HostRequest(SYNC);
    }

    /** `_send_sync_request`. */
    method SendSyncRequest(command: Bytes, payload: Bytes) returns (error: Option<SyncError>)
      modifies this`output
      ensures error == if |payload| >= U32 then Some(Unpackable) else None
      ensures output == if |payload| >= U32 then old(output) else old(output) + SyncRequest(command, payload)
    {
      if |payload| >= U32 { return Some(Unpackable); }
      Write(SyncRequest(command, payload));
      return None;
    }

    /** `_read_sync_failure`. */
    method ReadSyncFailure() returns (error: SyncError)
      modifies this`input
      ensures error == SyncFailure(old(input))
    {
      var length := ReadExactly(4);
      if length.Err? { return length.error; }
      var message := ReadExactly(FromLe32(length.value));
      return if message.Err? then message.error else Failure(message.value);
    }

    method ReadEntry() returns (r: Result<Entry, SyncError>)
      modifies this`input
      ensures r == EntryIn(old(input)).result
      ensures r.Ok? ==> input == EntryIn(old(input)).rest
    {
      var header := ReadExactly(16);
      if header.Err? { return Err(header.error); }
      var name := ReadExactly(FromLe32(header.value[12..]));
      return if name.Err? then Err(name.error) else Ok(EntryOf(header.value, name.value));
    }

    /** The loop of `list` over the entries of the reply. */
    method ReadListing() returns (r: Result<seq<Entry>, SyncError>)
      modifies this`input
      ensures var reply := AdbWire.List(old(input));
              && r == (if reply.error.Some? then Err(reply.error.value) else Ok(reply.entries))
              && (r.Ok? ==> input == reply.rest)
    {
      var entries: seq<Entry> := [];
      ghost var reply := AdbWire.List(input);
      while true
        invariant reply == Then(entries, AdbWire.List(input))
        decreases |input|
      {
        var command := ReadExactly(4);
        if command.Err? { return Err(command.error); }
        if command.value == DENT {
          var entry := ReadEntry();
          if entry.Err? { return Err(entry.error); }
          ThenEntry(entries, entry.value, AdbWire.List(input));
          if Listed(entry.value) { entries := entries + [entry.value]; }
        } else if command.value == DONE {
          var padding := ReadExactly(16);
          return if padding.Err? then Err(padding.error) else Ok(entries);
        } else if command.value == FAIL {
          var failure := ReadSyncFailure();
          return Err(failure);
        } else {
          return Err(Unexpected(command.value));
        }
      }
    }

    method ReadChunk() returns (r: Result<Bytes, SyncError>)
      modifies this`input
      ensures r == ChunkIn(old(input)).result
      ensures r.Ok? ==> input == ChunkIn(old(input)).rest
    {
      var length := ReadExactly(4);
      if length.Err? { return Err(length.error); }
      var n := FromLe32(length.value);
      if n > MAX_CHUNK { return Err(Oversized(n)); }
      r := ReadExactly(n);
    }

    /** The loop of `pull` that writes the file, with the totals it reports. */
    method ReceiveFile() returns (error: Option<SyncError>, file: Bytes, progress: seq<nat>)
      modifies this`input
      ensures var reply := Recv(old(input));
              && error == reply.error && file == Concat(reply.chunks) && progress == Totals(reply.chunks)
              && (error.None? ==> input == reply.rest)
    {
      file, progress := [], [];
      ghost var chunks: seq<Bytes> := [];
      ghost var reply := Recv(input);
      while true
        invariant reply == ThenChunks(chunks, Recv(input))
        invariant file == Concat(chunks) && progress == Totals(chunks)
        decreases |input|
      {
        var command := ReadExactly(4);
        if command.Err? { return Some(command.error), file, progress; }
        if command.value == DATA {
          var data := ReadChunk();
          if data.Err? { return Some(data.error), file, progress; }
          ThenChunk(chunks, data.value, Recv(input));
          ChunkReceived(chunks, data.value);
          chunks := chunks + [data.value];
          file := file + data.value;
          progress := progress + [|file|];
        } else if command.value == DONE {
          var padding := ReadExactly(4);
          return if padding.Err? then Some(padding.error) else None, file, progress;
        } else if command.value == FAIL {
          var failure := ReadSyncFailure();
          return Some(failure), file, progress;
        } else {
          return Some(Unexpected(command.value)), file, progress;
        }
      }
    }

    /** The loop of `push`, with the totals it reports. */
    method SendFile(content: Bytes, size: ChunkSize) returns (progress: seq<nat>)
      modifies this`output
      ensures output == old(output) + Frames(Pieces(content, size))
      ensures progress == Totals(Pieces(content, size))
    {
      progress := [];
      ghost var base := output;
      ghost var sent: seq<Bytes> := [];
      var position := 0;
      SendingBegins(content, size, base);
      while position < |content|
        invariant Sending(content, size, base, sent, position, progress, output)
      {
        var n := if |content| - position < size then |content| - position else size;
        var chunk := content[position..][..n];
        SendingContinues(content, size, base, sent, position, progress, output);
        Write(DataFrame(chunk));
        sent := sent + [chunk];
        position := position + n;
        progress := progress + [position];
      }
      SendingEnds(content, size, base, sent, position, progress, output);
    }

    /** The reply to SEND. */
    method ReadSendReply() returns (error: Option<SyncError>)
      modifies this`input
      ensures error == SendReply(old(input))
      ensures error.None? ==> |old(input)| >= 8 && input == old(input)[8..]
    {
      var command := ReadExactly(4);
      if command.Err? { return Some(command.error); }
      var word := ReadExactly(4);
      if word.Err? { return Some(word.error); }
      if command.value == FAIL {
        var message := ReadExactly(FromLe32(word.value));
        return Some(if message.Err? then message.error else Failure(message.value));
      }
      return if command.value == OKAY then None else Some(Unexpected(command.value));
    }
  }

  /** The bytes that open a sync connection. */
  function ConnectRequest(serial: Bytes): Bytes { AdbWire.HostRequest(TRANSPORT + serial) + AdbWire.HostRequest(SYNC) }

  /** What a request on a fresh connection comes to before its reply is read. */
  function Opened(input: Bytes, payload: Bytes): Option<SyncError> {
    var refused := ConnectReply(input);
    if refused.Some? then refused else if |payload| >= U32 then Some(Unpackable) else None
  }

  /** All that SEND puts on the wire: path and mode, the file in frames, and its time. */
  function SendStream(path: Bytes, mode: nat, pieces: seq<Bytes>, modified: nat): Bytes
    requires |SendSpec(path, mode)| < U32 && modified < U32 && Fit(pieces, MAX_CHUNK)
  {
    SyncRequest(SEND, SendSpec(path, mode)) + Frames(pieces) + (DONE + Le32(modified))
  }

  function StatResult(input: Bytes, path: Bytes): Result<FileStat, SyncError> {
    if Opened(input, path).Some? then Err(Opened(input, path).value) else AdbWire.Stat(input[8..])
  }

  function PullResult(first: Bytes, second: Bytes, path: Bytes): (Result<nat, SyncError>, Option<Bytes>, seq<nat>) {
    match StatResult(first, path)
    case Err(error) => (Err(error), None, [])
    case Ok(stat) =>
      if stat.mode == 0 || IsDirectory(stat.mode) then (Err(NotARegularFile(stat.mode)), None, [])
      else if Opened(second, path).Some? then (Err(Opened(second, path).value), None, [])
      else
        var reply := Recv(second[8..]);
        var file := Concat(reply.chunks);
        (if reply.error.Some? then Err(reply.error.value)
         else if |file| != stat.size then Err(SizeMismatch(stat.size, |file|))
         else Ok(|file|),
         Some(file), Totals(reply.chunks))
  }

  function PushResult(input: Bytes, size: nat, spec: Bytes, modified: int): Result<nat, SyncError> {
    if Opened(input, spec).Some? then Err(Opened(input, spec).value)
    else if !(0 <= modified < U32) then Err(Unpackable)
    else if SendReply(input[8..]).Some? then Err(SendReply(input[8..]).value)
    else Ok(size)
  }

  class Client {
    const chunkSize: ChunkSize

    constructor (requested: int)
      ensures chunkSize == if requested < 4096 then 4096 else if requested > MAX_CHUNK then MAX_CHUNK else requested
    {
      chunkSize := if requested < 4096 then 4096 else if requested > MAX_CHUNK then MAX_CHUNK else requested;
    }

    method Open(c: Connection, serial: Bytes, command: Bytes, payload: Bytes) returns (error: Option<SyncError>)
      modifies c
      ensures error == Opened(old(c.input), payload)
      ensures error.None? ==> |old(c.input)| >= 8 && c.input == old(c.input)[8..]
      ensures error.None? ==>
        |payload| < U32 && c.output == old(c.output) + ConnectRequest(serial) + SyncRequest(command, payload)
    {
      error := c.Connect(serial);
      if error.Some? { return; }
      error := c.SendSyncRequest(command, payload);
    }

    /** `list`. */
    method List(c: Connection, serial: Bytes, path: Bytes) returns (r: Result<seq<Entry>, SyncError>)
      modifies c
      ensures Opened(old(c.input), path).Some? ==> r == Err(Opened(old(c.input), path).value)
      ensures Opened(old(c.input), path).None? ==>
                var reply := AdbWire.List(old(c.input)[8..]);
                && r == (if reply.error.Some? then Err(reply.error.value) else Ok(reply.entries))
                && (r.Ok? ==> c.input == reply.rest)
    {
      var refused := Open(c, serial, LIST, path);
      if refused.Some? { return Err(refused.value); }
      r := c.ReadListing();
    }

    /** `stat`. */
    method Stat(c: Connection, serial: Bytes, path: Bytes) returns (r: Result<FileStat, SyncError>)
      modifies c
      ensures r == StatResult(old(c.input), path)
    {
      var refused := Open(c, serial, STAT, path);
      if refused.Some? { return Err(refused.value); }
      var command := c.ReadExactly(4);
      if command.Err? { return Err(command.error); }
      if command.value == FAIL {
        var failure := c.ReadSyncFailure();
        return Err(failure);
      }
      if command.value != STAT { return Err(Unexpected(command.value)); }
      var fields := c.ReadExactly(12);
      if fields.Err? { return Err(fields.error); }
      return Ok(FileStat(FromLe32(fields.value[..4]), FromLe32(fields.value[4..8]), FromLe32(fields.value[8..])));
    }

    /** `pull`, over a connection for STAT and one for RECV. `file` is what the local file holds in the
        end, `None` when it was not opened. */
    method Pull(first: Connection, second: Connection, serial: Bytes, path: Bytes)
      returns (r: Result<nat, SyncError>, file: Option<Bytes>, progress: seq<nat>)
      requires first != second
      modifies first, second
      ensures (r, file, progress) == PullResult(old(first.input), old(second.input), path)
      ensures r.Ok? ==> |old(second.input)| >= 8 && second.input == Recv(old(second.input)[8..]).rest
    {
      file, progress := None, [];
      var stat := Stat(first, serial, path);
      if stat.Err? { return Err(stat.error), file, progress; }
      if stat.value.mode == 0 || IsDirectory(stat.value.mode) {
        return Err(NotARegularFile(stat.value.mode)), file, progress;
      }
      var refused := Open(second, serial, RECV, path);
      if refused.Some? { return Err(refused.value), file, progress; }
      var error, written, totals := second.ReceiveFile();
      file, progress := Some(written), totals;
      if error.Some? { return Err(error.value), file, progress; }
      if |written| != stat.value.size { return Err(SizeMismatch(stat.value.size, |written|)), file, progress; }
      return Ok(|written|), file, progress;
    }

    /** `push` of a file with this content. */
    method Push(c: Connection, serial: Bytes, content: Bytes, path: Bytes, mode: nat, modified: int)
      returns (r: Result<nat, SyncError>, progress: seq<nat>)
      modifies c
      ensures r == PushResult(old(c.input), |content|, SendSpec(path, mode), modified)
      ensures Opened(old(c.input), SendSpec(path, mode)).None? ==> progress == Totals(Pieces(content, chunkSize))
      ensures Opened(old(c.input), SendSpec(path, mode)).None? && 0 <= modified < U32 ==>
                c.output == old(c.output) + ConnectRequest(serial) + SendStream(path, mode, Pieces(content, chunkSize),
                                                                                modified)
    {
      progress := [];
      var refused := Open(c, serial, SEND, SendSpec(path, mode));
      if refused.Some? { return Err(refused.value), progress; }
      progress := c.SendFile(content, chunkSize);
      if !(0 <= modified < U32) { return Err(Unpackable), progress; }
      c.Write(DONE + Le32(modified));
      StreamAssociates(old(c.output) + ConnectRequest(serial), SyncRequest(SEND, SendSpec(path, mode)),
                       Frames(Pieces(content, chunkSize)), DONE + Le32(modified));
      var error := c.ReadSendReply();
      return if error.Some? then Err(error.value) else Ok(|content|), progress;
    }
  }
}
