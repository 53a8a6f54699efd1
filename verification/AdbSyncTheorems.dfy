/** What the sync client and a server that keeps to the protocol make of each other's bytes.

    The server here is written from AOSP's SYNC.TXT alone: a request is an identifier, a length and a
    payload; SEND splits its payload at the last comma; data frames carry at most 64k bytes. */
module AdbSyncTheorems {
  import opened Wrappers
  import opened AdbWire
  import opened AdbSync
  import Decimal

  // ---------------------------------------------------------------- pieces and totals

  lemma {:induction false} PiecesRebuild(content: Bytes, size: nat)
    requires size > 0
    ensures Concat(Pieces(content, size)) == content
    decreases |content|
  {
    if content != [] {
      var n := if |content| < size then |content| else size;
      PiecesRebuild(content[n..], size);
    }
  }

  /** What `push` reports strictly increases and ends at the length of the file. */
  lemma {:induction false} TotalsIncrease(chunks: seq<Bytes>)
    ensures forall i :: 0 <= i < |chunks| ==> 0 <= Totals(chunks)[i] <= |Concat(chunks)|
    ensures (forall i :: 0 <= i < |chunks| ==> |chunks[i]| > 0) ==>
              forall i, j :: 0 <= i < j < |chunks| ==> Totals(chunks)[i] < Totals(chunks)[j]
    ensures chunks != [] ==> Totals(chunks)[|chunks| - 1] == |Concat(chunks)|
  {
    if chunks != [] {
      var init, last := chunks[..|chunks| - 1], chunks[|chunks| - 1];
      assert chunks == init + [last];
      ChunkReceived(init, last);
      TotalsIncrease(init);
    }
  }

  /** The progress of every push: strictly increasing, within the file, and ending at its length. */
  lemma PushProgress(content: Bytes, size: nat)
    requires size > 0
    ensures var totals := Totals(Pieces(content, size));
            && (forall i, j :: 0 <= i < j < |totals| ==> totals[i] < totals[j])
            && (forall i :: 0 <= i < |totals| ==> totals[i] <= |content|)
            && (content != [] ==> totals != [] && totals[|totals| - 1] == |content|)
  {
    PiecesRebuild(content, size);
    TotalsIncrease(Pieces(content, size));
  }

  // ---------------------------------------------------------------- the server's side of SEND

  function ServeFrames(input: Bytes): Option<(Bytes, nat, Bytes)>
    decreases |input|
  {
    if |input| < 8 then None
    else
      var command, n, after := input[..4], FromLe32(input[4..8]), input[8..];
      if command == DATA then
        if n > MAX_CHUNK || n > |after| then None
        else
          match ServeFrames(after[n..])
          case None => None
          case Some((content, modified, rest)) => Some((after[..n] + content, modified, rest))
      else if command == DONE then Some(([], n, after))
      else None
  }

  function LastComma(b: Bytes): (i: Option<nat>)
    ensures i.Some? ==> i.value < |b| && b[i.value] == COMMA && COMMA !in b[i.value + 1..]
    ensures i.None? ==> COMMA !in b
  {
    if b == [] then None
    else if b[|b| - 1] == COMMA then Some(|b| - 1)
    else LastComma(b[..|b| - 1])
  }

  function ServeMode(text: Bytes): Option<nat> {
    if text != [] && forall i :: 0 <= i < |text| ==> 48 <= text[i] <= 57 then
      Some(Decimal.Value(seq(|text|, i requires 0 <= i < |text| => text[i] as char)))
    else None
  }

  datatype Upload = Upload(path: Bytes, mode: nat, content: Bytes, modified: nat)

  function ServeSend(input: Bytes): Option<(Upload, Bytes)> {
    if |input| < 8 || input[..4] != SEND || FromLe32(input[4..8]) > |input| - 8 then None
    else
      var n := FromLe32(input[4..8]);
      var spec := input[8..8 + n];
      var comma := LastComma(spec);
      if comma.None? then None
      else
        var mode := ServeMode(spec[comma.value + 1..]);
        var file := ServeFrames(input[8 + n..]);
        if mode.None? || file.None? then None
        else Some((Upload(spec[..comma.value], mode.value, file.value.0, file.value.1), file.value.2))
  }

  lemma DataFrameReads(chunk: Bytes, rest: Bytes)
    requires |chunk| < U32
    ensures var input := DataFrame(chunk) + rest;
            && |input| >= 8 + |chunk| && input[..4] == DATA && input[4..8] == Le32(|chunk|)
            && input[8..][..|chunk|] == chunk && input[8..][|chunk|..] == rest
            && input[4..] == Le32(|chunk|) + chunk + rest
  {
  }

  lemma EndReads(modified: nat, rest: Bytes)
    requires modified < U32
    ensures ServeFrames(DONE + Le32(modified) + rest) == Some(([], modified, rest))
  {
    var input := DONE + Le32(modified) + rest;
    assert input[..4] == DONE && input[4..8] == Le32(modified) && input[8..] == rest;
    Le32RoundTrip(modified);
  }

  lemma {:induction false} ServerReadsFrames(chunks: seq<Bytes>, end: Bytes, modified: nat, rest: Bytes)
    requires Fit(chunks, MAX_CHUNK) && ServeFrames(end) == Some(([], modified, rest))
    ensures ServeFrames(Frames(chunks) + end) == Some((Concat(chunks), modified, rest))
    decreases |chunks|
  {
    if chunks == [] {
      assert [] + end == end;
    } else {
      var tail := Frames(chunks[1..]) + end;
      ServerReadsFrames(chunks[1..], end, modified, rest);
      DataFrameReads(chunks[0], tail);
      Le32RoundTrip(|chunks[0]|);
      Associates(DataFrame(chunks[0]), Frames(chunks[1..]), end);
    }
  }

  lemma {:induction false} LastCommaBefore(path: Bytes, text: Bytes)
    requires COMMA !in text
    ensures LastComma(path + [COMMA] + text) == Some(|path|)
    decreases |text|
  {
    var b := path + [COMMA] + text;
    if text != [] {
      LastCommaBefore(path, text[..|text| - 1]);
      assert b[..|b| - 1] == path + [COMMA] + text[..|text| - 1];
      assert b[|b| - 1] == text[|text| - 1];
    }
  }

  lemma ModeReads(mode: nat)
    ensures COMMA !in Ascii(Decimal.Print(mode)) && ServeMode(Ascii(Decimal.Print(mode))) == Some(mode)
  {
    var digits := Decimal.Print(mode);
    var text := Ascii(digits);
    assert forall i :: 0 <= i < |text| ==> Decimal.IsDigit(digits[i]) && text[i] == digits[i] as int;
    assert seq(|text|, i requires 0 <= i < |text| => text[i] as char) == digits;
    Decimal.ValueOfPrint(mode);
  }

  lemma SpecSplitsAtItsLastComma(path: Bytes, mode: nat)
    ensures var spec := SendSpec(path, mode);
            && LastComma(spec) == Some(|path|)
            && spec[..|path|] == path
            && ServeMode(spec[|path| + 1..]) == Some(mode)
  {
    ModeReads(mode);
    LastCommaBefore(path, Ascii(Decimal.Print(mode)));
    assert SendSpec(path, mode)[|path| + 1..] == Ascii(Decimal.Print(mode));
  }

  lemma RequestReads(command: Bytes, payload: Bytes, rest: Bytes)
    requires |command| == 4 && |payload| < U32
    ensures var input := SyncRequest(command, payload) + rest;
            && |input| == 8 + |payload| + |rest| && input[..4] == command && input[4..8] == Le32(|payload|)
            && input[8..8 + |payload|] == payload && input[8 + |payload|..] == rest
  {
  }

  /** Whatever the path (commas included), the mode, the file and the chunk size, a server recovers all of
      them from what `push` writes, and nothing of what follows is taken. */
  lemma SendRoundTrip(path: Bytes, mode: nat, content: Bytes, size: ChunkSize, modified: nat, rest: Bytes)
    requires |SendSpec(path, mode)| < U32 && modified < U32
    ensures ServeSend(SendStream(path, mode, Pieces(content, size), modified) + rest)
         == Some((Upload(path, mode, content, modified), rest))
    ensures forall piece :: piece in Pieces(content, size) ==> 1 <= |piece| <= MAX_CHUNK
  {
    var spec, pieces := SendSpec(path, mode), Pieces(content, size);
    var request, end := SyncRequest(SEND, spec), DONE + Le32(modified);
    var after := Frames(pieces) + (end + rest);
    assert SendStream(path, mode, pieces, modified) + rest == request + after by {
      Associates(request + Frames(pieces), end, rest);
      Associates(request, Frames(pieces), end + rest);
    }
    RequestReads(SEND, spec, after);
    Le32RoundTrip(|spec|);
    SpecSplitsAtItsLastComma(path, mode);
    EndReads(modified, rest);
    ServerReadsFrames(pieces, end + rest, modified, rest);
    PiecesRebuild(content, size);
  }

  // ---------------------------------------------------------------- the server's side of a host request

  /** Four hexadecimal digits of length, then the service. */
  function ServeHost(input: Bytes): Option<(Bytes, Bytes)> {
    if |input| < 4 then None
    else
      match FromHex(input[..4])
      case None => None
      case Some(n) => if n > |input| - 4 then None else Some((input[4..4 + n], input[4 + n..]))
  }

  lemma FourHexDigits(n: nat)
    requires n <= 0xFFFF
    ensures |Hex(n, 4)| == 4 && FromHex(Hex(n, 4)) == Some(n)
  {
    assert Hex(n, 4) == Hex(n / 16, 3) + [HexDigit(n % 16)];
    assert Hex(n / 16, 3) == Hex(n / 16 / 16, 2) + [HexDigit(n / 16 % 16)];
    assert Hex(n / 16 / 16, 2) == Hex(n / 16 / 16 / 16, 1) + [HexDigit(n / 16 / 16 % 16)];
    assert Hex(n / 16 / 16 / 16, 1) == [HexDigit(n / 16 / 16 / 16)];
    assert forall d: nat | d < 16 :: IsHexDigit(HexDigit(d)) && HexValue(HexDigit(d)) == d;
  }

  lemma MoreHexDigits(n: nat)
    requires n > 0xFFFF
    ensures |Hex(n, 4)| > 4
  {
    assert Hex(n, 4) == Hex(n / 16, 3) + [HexDigit(n % 16)];
    assert Hex(n / 16, 3) == Hex(n / 16 / 16, 2) + [HexDigit(n / 16 % 16)];
    assert Hex(n / 16 / 16, 2) == Hex(n / 16 / 16 / 16, 1) + [HexDigit(n / 16 / 16 % 16)];
  }

  /** A host request is read back exactly when its length fits the four digits: the client does not check. */
  lemma HostRoundTripExactlyUpTo64k(payload: Bytes, rest: Bytes)
    ensures ServeHost(AdbWire.HostRequest(payload) + rest) == Some((payload, rest)) <==> |payload| <= 0xFFFF
  {
    var input := AdbWire.HostRequest(payload) + rest;
    var digits := Hex(|payload|, 4);
    if |payload| <= 0xFFFF {
      FourHexDigits(|payload|);
      assert input[..4] == digits && input[4..4 + |payload|] == payload && input[4 + |payload|..] == rest;
    } else {
      MoreHexDigits(|payload|);
      assert |input| > 4 + |payload| + |rest|;
    }
  }

  /** The whole upload connection: the device, then the sync service, then the file. */
  function ServeUpload(input: Bytes): Option<(Bytes, Upload, Bytes)> {
    var transport := ServeHost(input);
    if transport.None? || !(TRANSPORT <= transport.value.0) then None
    else
      var sync := ServeHost(transport.value.1);
      if sync.None? || sync.value.0 != SYNC then None
      else
        match ServeSend(sync.value.1)
        case None => None
        case Some((upload, rest)) => Some((transport.value.0[|TRANSPORT|..], upload, rest))
  }

  /** From everything one `push` writes the server recovers the device, the path, the mode, the file and
      its time. */
  lemma UploadRoundTrip(serial: Bytes, path: Bytes, mode: nat, content: Bytes, size: ChunkSize, modified: nat)
    requires |TRANSPORT + serial| <= 0xFFFF && |SendSpec(path, mode)| < U32 && modified < U32
    ensures ServeUpload(ConnectRequest(serial) + SendStream(path, mode, Pieces(content, size), modified))
            == Some((serial, Upload(path, mode, content, modified), []))
  {
    var stream := SendStream(path, mode, Pieces(content, size), modified);
    var first, second := AdbWire.HostRequest(TRANSPORT + serial), AdbWire.HostRequest(SYNC);
    Associates(first, second, stream);
    HostRoundTripExactlyUpTo64k(TRANSPORT + serial, second + stream);
    HostRoundTripExactlyUpTo64k(SYNC, stream);
    SendRoundTrip(path, mode, content, size, modified, []);
    assert stream + [] == stream;
  }
}
