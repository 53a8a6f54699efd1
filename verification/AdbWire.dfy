/** The ADB wire formats: what each side writes, and how the client reads each reply. */
module AdbWire {
  import opened Wrappers
  import Decimal

  // ---------------------------------------------------------------- integers and texts

  const U32 := 0x1_0000_0000

  /** An unsigned 32-bit integer, least significant byte first. */
  function Le32(n: nat): (b: Bytes)
    requires n < U32
    ensures |b| == 4
  {
    [n % 256, n / 256 % 256, n / 65536 % 256, n / 16777216]
  }

  function FromLe32(b: Bytes): (n: nat)
    requires |b| == 4
    ensures n < U32
  {
    b[0] as int + 256 * (b[1] as int) + 65536 * (b[2] as int) + 16777216 * (b[3] as int)
  }

  lemma Le32RoundTrip(n: nat)
    requires n < U32
    ensures FromLe32(Le32(n)) == n
  {
    var q := n / 256;
    var r := q / 256;
    assert n / 65536 == r && n / 16777216 == r / 256;
    assert n == 256 * q + n % 256 && q == 256 * r + q % 256 && r == 256 * (r / 256) + r % 256;
  }

  /** Every four bytes are the encoding of the integer read from them. */
  lemma FromLe32RoundTrip(b: Bytes)
    requires |b| == 4
    ensures Le32(FromLe32(b)) == b
  {
    var n := FromLe32(b);
    var q := b[1] as int + 256 * (b[2] as int) + 65536 * (b[3] as int);
    var r := b[2] as int + 256 * (b[3] as int);
    assert n == 256 * q + b[0] && q == 256 * r + b[1];
    assert n / 256 == q && n % 256 == b[0] && q / 256 == r && q % 256 == b[1];
    assert n / 65536 == r && n / 16777216 == r / 256;
  }

  /** The bytes of an ASCII text. */
  function Ascii(s: string): (b: Bytes)
    requires forall i :: 0 <= i < |s| ==> (s[i] as int) < 128
    ensures |b| == |s|
  {
    seq(|s|, i requires 0 <= i < |s| => s[i] as int)
  }

  const DATA: Bytes := [68, 65, 84, 65]
  const DONE: Bytes := [68, 79, 78, 69]
  const FAIL: Bytes := [70, 65, 73, 76]
  const OKAY: Bytes := [79, 75, 65, 89]
  const DENT: Bytes := [68, 69, 78, 84]
  const LIST: Bytes := [76, 73, 83, 84]
  const STAT: Bytes := [83, 84, 65, 84]
  const RECV: Bytes := [82, 69, 67, 86]
  const SEND: Bytes := [83, 69, 78, 68]

  const MAX_CHUNK := 64 * 1024

  const COMMA: Byte := 44

  // ---------------------------------------------------------------- what the client writes

  function HexDigit(n: nat): Byte
    requires n < 16
  {
    if n < 10 then 48 + n else 55 + n
  }

  /** At least four upper-case hexadecimal digits: `{n:04X}`. */
  function Hex(n: nat, width: nat): (b: Bytes)
    ensures |b| >= width && |b| >= 1
  {
    if n < 16 && width <= 1 then [HexDigit(n)]
    else Hex(n / 16, if width == 0 then 0 else width - 1) + [HexDigit(n % 16)]
  }

  function HostRequest(payload: Bytes): Bytes { Hex(|payload|, 4) + payload }

  const TRANSPORT: Bytes := Ascii("host:transport:")
  const SYNC: Bytes := Ascii("sync:")

  function SyncRequest(command: Bytes, payload: Bytes): Bytes
    requires |payload| < U32
  {
    command + Le32(|payload|) + payload
  }

  /** The path and mode of a SEND request, `f"{path},{mode}"`. */
  function SendSpec(path: Bytes, mode: nat): Bytes { path + [COMMA] + Ascii(Decimal.Print(mode)) }

  function DataFrame(chunk: Bytes): Bytes
    requires |chunk| < U32
  {
    DATA + Le32(|chunk|) + chunk
  }

  /** Every piece fits in a frame of at most `limit` bytes. */
  predicate Fit(chunks: seq<Bytes>, limit: nat) { forall i :: 0 <= i < |chunks| ==> |chunks[i]| <= limit }

  function Frames(chunks: seq<Bytes>): Bytes
    requires Fit(chunks, MAX_CHUNK)
  {
    if chunks == [] then [] else DataFrame(chunks[0]) + Frames(chunks[1..])
  }

  function Concat(chunks: seq<Bytes>): Bytes {
    if chunks == [] then [] else chunks[0] + Concat(chunks[1..])
  }

  /** The pieces in which a file is read, `size` bytes at a time. */
  function Pieces(content: Bytes, size: nat): (pieces: seq<Bytes>)
    requires size > 0
    ensures Fit(pieces, size)
    ensures forall i :: 0 <= i < |pieces| ==> |pieces[i]| > 0
    ensures |content| <= size ==> |pieces| <= 1
    decreases |content|
  {
    if content == [] then []
    else
      var n := if |content| < size then |content| else size;
      [content[..n]] + Pieces(content[n..], size)
  }

  /** The running totals a transfer reports: after each chunk, the bytes so far. */
  function Totals(chunks: seq<Bytes>): (totals: seq<nat>)
    ensures |totals| == |chunks|
  {
    if chunks == [] then [] else Totals(chunks[..|chunks| - 1]) + [|Concat(chunks)|]
  }

  // ---------------------------------------------------------------- how the client reads

  datatype SyncError =
    | Truncated(expected: nat, received: nat)
    | Failure(message: Bytes)
    | Unexpected(command: Bytes)
    | Oversized(length: nat)
    | NotARegularFile(mode: nat)
    | SizeMismatch(expected: nat, actual: nat)
    | HostFailure(message: Bytes)
    | BadHostLength(text: Bytes)
    | Unpackable

  datatype Read<+T> = Read(result: Result<T, SyncError>, rest: Bytes)

  /** `_read_exactly`: a stream that ends early is used up. */
  function Exactly(input: Bytes, n: nat): Read<Bytes> {
    if n <= |input| then Read(Ok(input[..n]), input[n..]) else Read(Err(Truncated(n, |input|)), [])
  }

  /** A length, then as many bytes of message. */
  function SyncFailure(input: Bytes): SyncError {
    if |input| < 4 then Truncated(4, |input|)
    else
      var n := FromLe32(input[..4]);
      if |input| - 4 < n then Truncated(n, |input| - 4) else Failure(input[4..][..n])
  }

  predicate IsHexDigit(b: Byte) { 48 <= b <= 57 || 65 <= b <= 70 || 97 <= b <= 102 }

  function HexValue(b: Byte): nat
    requires IsHexDigit(b)
  {
    if b <= 57 then b - 48 else if b <= 70 then b - 55 else b - 87
  }

  function FromHex(text: Bytes): Option<nat>
    requires |text| == 4
  {
    if IsHexDigit(text[0]) && IsHexDigit(text[1]) && IsHexDigit(text[2]) && IsHexDigit(text[3]) then
      Some(4096 * HexValue(text[0]) + 256 * HexValue(text[1]) + 16 * HexValue(text[2]) + HexValue(text[3]))
    else None
  }

  function HostFailureOf(input: Bytes): SyncError {
    if |input| < 4 then Truncated(4, |input|)
    else
      match FromHex(input[..4])
      case None => BadHostLength(input[..4])
      case Some(n) => if |input| - 4 < n then Truncated(n, |input| - 4) else HostFailure(input[4..][..n])
  }

  /** The reply to one host request. */
  function HostReply(input: Bytes): Option<SyncError> {
    if |input| < 4 then Some(Truncated(4, |input|))
    else if input[..4] == OKAY then None
    else if input[..4] == FAIL then Some(HostFailureOf(input[4..]))
    else Some(Unexpected(input[..4]))
  }

  /** The replies to the two host requests that open a sync connection. */
  function ConnectReply(input: Bytes): (error: Option<SyncError>)
  {
    var first := HostReply(input);
    if first.Some? then first else HostReply(input[4..])
  }

  /** Where a RECV reply leads: the chunks written so far, and how it ended. */
  datatype Download = Download(chunks: seq<Bytes>, error: Option<SyncError>, rest: Bytes)

  /** What follows DATA. */
  function ChunkIn(input: Bytes): (r: Read<Bytes>)
    ensures |r.rest| <= |input|
  {
    if |input| < 4 then Read(Err(Truncated(4, |input|)), [])
    else
      var n := FromLe32(input[..4]);
      if n > MAX_CHUNK then Read(Err(Oversized(n)), input[4..]) else Exactly(input[4..], n)
  }

  function Recv(input: Bytes): Download
    decreases |input|
  {
    if |input| < 4 then Download([], Some(Truncated(4, |input|)), [])
    else
      var command, after := input[..4], input[4..];
      if command == DATA then
        var chunk := ChunkIn(after);
        if chunk.result.Err? then Download([], Some(chunk.result.error), chunk.rest)
        else
          var tail := Recv(chunk.rest);
          Download([chunk.result.value] + tail.chunks, tail.error, tail.rest)
      else if command == DONE then
        if |after| < 4 then Download([], Some(Truncated(4, |after|)), []) else Download([], None, after[4..])
      else if command == FAIL then Download([], Some(SyncFailure(after)), [])
      else Download([], Some(Unexpected(command)), after)
  }

  /** A directory entry; the name is the bytes the device sent. */
  datatype Entry = Entry(name: Bytes, mode: nat, size: nat, modified: nat)

  const HERE: Bytes := [46]
  const PARENT: Bytes := [46, 46]

  predicate Listed(e: Entry) { e.name != HERE && e.name != PARENT }

  datatype Listing = Listing(entries: seq<Entry>, error: Option<SyncError>, rest: Bytes)

  /** The four integers of a DENT header are mode, size, time and name length. */
  function EntryOf(header: Bytes, name: Bytes): Entry
    requires |header| == 16
  {
    Entry(name, FromLe32(header[..4]), FromLe32(header[4..8]), FromLe32(header[8..12]))
  }

  /** What follows DENT. */
  function EntryIn(input: Bytes): (r: Read<Entry>)
    ensures |r.rest| <= |input|
  {
    if |input| < 16 then Read(Err(Truncated(16, |input|)), [])
    else
      var n := FromLe32(input[..16][12..]);
      var name := Exactly(input[16..], n);
      if name.result.Err? then Read(Err(name.result.error), [])
      else Read(Ok(EntryOf(input[..16], name.result.value)), name.rest)
  }

  function List(input: Bytes): Listing
    decreases |input|
  {
    if |input| < 4 then Listing([], Some(Truncated(4, |input|)), [])
    else
      var command, after := input[..4], input[4..];
      if command == DENT then
        var entry := EntryIn(after);
        if entry.result.Err? then Listing([], Some(entry.result.error), [])
        else
          var tail := List(entry.rest);
          Listing((if Listed(entry.result.value) then [entry.result.value] else []) + tail.entries, tail.error,
                  tail.rest)
      else if command == DONE then
        if |after| < 16 then Listing([], Some(Truncated(16, |after|)), []) else Listing([], None, after[16..])
      else if command == FAIL then Listing([], Some(SyncFailure(after)), [])
      else Listing([], Some(Unexpected(command)), after)
  }

  datatype FileStat = FileStat(mode: nat, size: nat, modified: nat)

  function Stat(input: Bytes): Result<FileStat, SyncError> {
    if |input| < 4 then Err(Truncated(4, |input|))
    else
      var command, after := input[..4], input[4..];
      if command == FAIL then Err(SyncFailure(after))
      else if command != STAT then Err(Unexpected(command))
      else if |after| < 12 then Err(Truncated(12, |after|))
      else Ok(FileStat(FromLe32(after[..4]), FromLe32(after[4..8]), FromLe32(after[8..12])))
  }

  /** The reply to a finished SEND: eight bytes, whose integer is the length of a failure's message. */
  function SendReply(input: Bytes): Option<SyncError> {
    if |input| < 4 then Some(Truncated(4, |input|))
    else if |input| < 8 then Some(Truncated(4, |input| - 4))
    else if input[..4] == FAIL then
      var n := FromLe32(input[4..][..4]);
      if |input| - 8 < n then Some(Truncated(n, |input| - 8)) else Some(Failure(input[4..][4..][..n]))
    else if input[..4] == OKAY then None
    else Some(Unexpected(input[..4]))
  }

  /** `AdbSyncStat.is_directory` and `exists`: the type bits of the mode are those of a directory. */
  predicate IsDirectory(mode: nat) { mode / 0x1000 % 16 == 4 }
}
