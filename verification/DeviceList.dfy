/** Reading `adb devices -l`: each line from the right, so that a serial may hold spaces and even the names
    of states. */
module DeviceList {
  import opened Wrappers
  import opened Texts

  datatype Connection = Usb | Emulator | TcpIp | Unknown

  datatype Device = Device(serial: string, state: string, fields: map<string, string>, connection: Connection)

  // ---------------------------------------------------------------- the state in a line

  predicate IsSingleState(word: string) {
    || word == "device" || word == "unauthorized" || word == "offline" || word == "bootloader" || word == "host"
       || word == "recovery"
    || word == "rescue" || word == "sideload" || word == "authorizing" || word == "connecting" || word == "detached"
  }

  /** The state that a run of lower-case words names. */
  function StateOf(phrase: seq<string>): Option<string> {
    if |phrase| == 1 && IsSingleState(phrase[0]) then Some(phrase[0])
    else if |phrase| == 2 && phrase[0] == "no" && phrase[1] == "permissions" then Some("no permissions")
    else None
  }

  const WIDEST := 2

  function Lowered(tokens: seq<string>): (r: seq<string>)
    ensures |r| == |tokens|
  {
    seq(|tokens|, i requires 0 <= i < |tokens| => Lower(tokens[i]))
  }

  datatype Located = Located(start: nat, state: string, end: nat)

  /** The state at one position, the widest phrase first. */
  function StateAt(lowered: seq<string>, start: nat, width: nat): (r: Option<Located>)
    requires start + width <= |lowered|
    ensures r.Some? ==> r.value.start == start && start < r.value.end <= start + width
  {
    if width == 0 then None
    else
      match StateOf(lowered[start..start + width])
      case Some(state) => Some(Located(start, state, start + width))
      case None => StateAt(lowered, start, width - 1)
  }

  /** The rightmost state that starts before `n`. */
  function LocateBefore(lowered: seq<string>, n: nat): (r: Option<Located>)
    requires n <= |lowered|
    ensures r.Some? ==> r.value.start < n && r.value.start < r.value.end <= |lowered|
  {
    if n == 0 then None
    else
      var here := StateAt(lowered, n - 1, Min(WIDEST, |lowered| - (n - 1)));
      if here.Some? then here else LocateBefore(lowered, n - 1)
  }

  /** `_locate_state`. */
  function Locate(tokens: seq<string>): (r: Option<Located>)
    ensures r.Some? ==> r.value.start < r.value.end <= |tokens|
  {
    LocateBefore(Lowered(tokens), |tokens|)
  }

  // ---------------------------------------------------------------- fields and lines

  function FirstColon(s: string): (i: nat)
    ensures i <= |s| && ':' !in s[..i] && (i < |s| ==> s[i] == ':')
  {
    if s == "" || s[0] == ':' then 0 else 1 + FirstColon(s[1..])
  }

  function Bare(key: string): string {
    if key == "" then "" else if key[0] == '_' then Bare(key[1..]) else [key[0]] + Bare(key[1..])
  }

  /** `alnum` is `str.isalnum` of one character. */
  predicate IsKey(key: string, alnum: char -> bool) {
    Bare(key) != "" && forall i :: 0 <= i < |Bare(key)| ==> alnum(Bare(key)[i])
  }

  function Field(token: string, alnum: char -> bool): Option<(string, string)> {
    var i := FirstColon(token);
    if i < |token| && i + 1 < |token| && IsKey(token[..i], alnum) then Some((token[..i], token[i + 1..])) else None
  }

  function Fields(tokens: seq<string>, alnum: char -> bool): map<string, string> {
    if tokens == [] then map[]
    else
      var before := Fields(tokens[..|tokens| - 1], alnum);
      match Field(tokens[|tokens| - 1], alnum)
      case None => before
      case Some((key, value)) => before[key := value]
  }

  predicate StartsWith(s: string, prefix: string) { |prefix| <= |s| && s[..|prefix|] == prefix }

  function ConnectionOf(serial: string, fields: map<string, string>): Connection {
    if "usb" in fields then Usb
    else if StartsWith(serial, "emulator-") then Emulator
    else if ':' in serial then TcpIp
    else Unknown
  }

  function DeviceOf(serial: string, state: string, trailing: seq<string>, alnum: char -> bool): Device {
    var fields := Fields(trailing, alnum);
    Device(serial, state, fields, ConnectionOf(serial, fields))
  }

  /** A line after the header, stripped. */
  function DeviceIn(line: string, alnum: char -> bool): Option<Device> {
    if line == "" || StartsWith(line, "*") || StartsWith(line, "adb server") then None
    else
      var tokens := Words(line);
      match Locate(tokens)
      case None => None
      case Some(found) =>
        if found.start == 0 then None
        else Some(DeviceOf(Spaced(tokens[..found.start]), found.state, tokens[found.end..], alnum))
  }

  /** The text cut at "\r\n", "\r" and "\n". */
  function Lines(text: string): (lines: seq<string>)
    ensures lines != []
  {
    if text == "" then [""]
    else if text[0] == '\r' then [""] + Lines(if |text| > 1 && text[1] == '\n' then text[2..] else text[1..])
    else if text[0] == '\n' then [""] + Lines(text[1..])
    else
      var rest := Lines(text[1..]);
      [[text[0]] + rest[0]] + rest[1..]
  }

  const HEADER := "List of devices attached"

  function DevicesIn(lines: seq<string>, seen: bool, alnum: char -> bool): seq<Device> {
    if lines == [] then []
    else
      var line := Strip(lines[0]);
      if !seen then DevicesIn(lines[1..], StartsWith(line, HEADER), alnum)
      else
        match DeviceIn(line, alnum)
        case None => DevicesIn(lines[1..], true, alnum)
        case Some(device) => [device] + DevicesIn(lines[1..], true, alnum)
  }

  /** `parse_adb_devices`. */
  function Parse(text: string, alnum: char -> bool): seq<Device> { DevicesIn(Lines(text), false, alnum) }

  // ---------------------------------------------------------------- methods

  /** `_locate_state`: positions from the right, at each the widest phrase first. */
  method LocateState(tokens: seq<string>) returns (r: Option<Located>)
    ensures r == Locate(tokens)
  {
    var lowered := Lowered(tokens);
    var index: nat := |tokens|;
    while index > 0
      invariant index <= |tokens|
      invariant Locate(tokens) == LocateBefore(lowered, index)
    {
      index := index - 1;
      var width: nat := Min(WIDEST, |tokens| - index);
      ghost var here := StateAt(lowered, index, width);
      while width > 0
        invariant index + width <= |tokens|
        invariant here == StateAt(lowered, index, width)
      {
        var state := StateOf(lowered[index..index + width]);
        if state.Some? { return Some(Located(index, state.value, index + width)); }
        width := width - 1;
      }
    }
    return None;
  }

  method ReadFields(tokens: seq<string>, alnum: char -> bool) returns (fields: map<string, string>)
    ensures fields == Fields(tokens, alnum)
  {
    fields := map[];
    for i := 0 to |tokens|
      invariant fields == Fields(tokens[..i], alnum)
    {
      assert tokens[..i + 1][..i] == tokens[..i];
      var field := Field(tokens[i], alnum);
      if field.Some? { fields := fields[field.value.0 := field.value.1]; }
    }
    assert tokens[..|tokens|] == tokens;
  }

  /** `parse_adb_devices`. */
  method ParseAdbDevices(output: string, alnum: char -> bool) returns (devices: seq<Device>)
    ensures devices == Parse(output, alnum)
  {
    var lines := Lines(output);
    var headerSeen := false;
    devices := [];
    var i := 0;
    assert lines[0..] == lines;
    while i < |lines|
      invariant i <= |lines|
      invariant Parse(output, alnum) == devices + DevicesIn(lines[i..], headerSeen, alnum)
    {
      var line := Strip(lines[i]);
      var rest := lines[i + 1..];
      assert lines[i..][0] == lines[i] && lines[i..][1..] == rest;
      i := i + 1;
      if !headerSeen {
        headerSeen := StartsWith(line, HEADER);
        continue;
      }
      if line == "" || StartsWith(line, "*") || StartsWith(line, "adb server") { continue; }
      var tokens := Words(line);
      var located := LocateState(tokens);
      if located.None? || located.value.start == 0 { continue; }
      var serial := Spaced(tokens[..located.value.start]);
      var fields := ReadFields(tokens[located.value.end..], alnum);
      var device := Device(serial, located.value.state, fields, ConnectionOf(serial, fields));
      OneMore(devices, device, DevicesIn(rest, true, alnum));
      devices := devices + [device];
    }
    assert devices + [] == devices;
  }

  lemma OneMore(before: seq<Device>, device: Device, after: seq<Device>)
    ensures before + ([device] + after) == before + [device] + after
  {
  }
}
