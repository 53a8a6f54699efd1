/** Paths as Python's PurePosixPath reads and prints them, and what the transfer engine makes of a path on
    the phone and of a file name. */
module PathModel {
  import opened Wrappers
  import opened Texts

  // ---------------------------------------------------------------- PurePosixPath

  /** `root` is the number of leading slashes that count: exactly two are kept as two. */
  datatype Pure = Pure(root: nat, names: seq<string>)

  predicate Plain(name: string) { name != "" && name != "." && '/' !in name }

  predicate AllPlain(names: seq<string>) { forall i :: 0 <= i < |names| ==> Plain(names[i]) }

  function FirstSlash(s: string): (i: nat)
    ensures i <= |s| && '/' !in s[..i] && (i < |s| ==> s[i] == '/')
  {
    if s == "" || s[0] == '/' then 0 else 1 + FirstSlash(s[1..])
  }

  /** The components, without empty ones and ".". */
  function Names(s: string): (names: seq<string>)
    ensures AllPlain(names)
    decreases |s|
  {
    if s == "" then []
    else
      var i := FirstSlash(s);
      var rest := if i < |s| then Names(s[i + 1..]) else [];
      if s[..i] == "" || s[..i] == "." then rest else [s[..i]] + rest
  }

  function Root(s: string): nat {
    if s == "" || s[0] != '/' then 0
    else if |s| >= 2 && s[1] == '/' && (|s| == 2 || s[2] != '/') then 2
    else 1
  }

  function Parse(s: string): Pure { Pure(Root(s), Names(s)) }

  /** Every name with a slash in front. */
  function Tail(names: seq<string>): string {
    if names == [] then "" else "/" + names[0] + Tail(names[1..])
  }

  function Show(p: Pure): string {
    if p.root == 0 then (if p.names == [] then "." else Tail(p.names)[1..])
    else if p.root == 1 then (if p.names == [] then "/" else Tail(p.names))
    else if p.names == [] then "//"
    else "/" + Tail(p.names)
  }

  predicate StartsWith(names: seq<string>, words: seq<string>) { |words| <= |names| && names[..|words|] == words }

  // ---------------------------------------------------------------- phone paths

  datatype PathError = Invalid | NotAbsolute | OutsideAllowedRoots

  const EMULATED := ["storage", "emulated", "0"]
  const MNT_SDCARD := ["mnt", "sdcard"]
  const SDCARD := ["sdcard"]

  const INTERNAL := ["Download", "Documents", "Pictures", "DCIM", "Movies"]

  /** The two mount points of the internal storage are the same place. */
  function Unaliased(p: Pure): Pure {
    if p.root == 1 && StartsWith(p.names, EMULATED) then Pure(1, SDCARD + p.names[3..])
    else if p.root == 1 && StartsWith(p.names, MNT_SDCARD) then Pure(1, SDCARD + p.names[2..])
    else p
  }

  /** `lowered == alias or lowered.startswith(alias + "/")`. */
  predicate Below(s: string, alias: string) {
    s == alias || (|alias| < |s| && s[..|alias|] == alias && s[|alias|] == '/')
  }

  function KnownRoot(k: nat): string
    requires k < |INTERNAL|
  {
    "/sdcard/" + INTERNAL[k]
  }

  /** The known roots in the case Android shows them. */
  function CaseFixed(value: string, k: nat): string
    requires k <= |INTERNAL|
    decreases |INTERNAL| - k
  {
    if k == |INTERNAL| then value
    else if Below(Lower(value), Lower(KnownRoot(k))) then KnownRoot(k) + value[|KnownRoot(k)|..]
    else CaseFixed(value, k + 1)
  }

  predicate IsHex(c: char) { '0' <= c <= '9' || 'A' <= c <= 'F' || 'a' <= c <= 'f' }

  /** Four hexadecimal digits, a dash, four more. */
  predicate IsVolume(s: string) {
    |s| == 9 && s[4] == '-' && IsHex(s[0]) && IsHex(s[1]) && IsHex(s[2]) && IsHex(s[3]) && IsHex(s[5]) && IsHex(s[6])
      && IsHex(s[7]) && IsHex(s[8])
  }

  const MEDIA_RW := "/mnt/media_rw/"
  const STORAGE := "/storage/"

  /** What may follow the volume: nothing, or a slash and one line; the pattern's end also matches before
      a final newline. */
  predicate OneLine(tail: string) { tail == "" || tail == "\n" || (tail[0] == '/' && '\n' !in tail[..|tail| - 1]) }

  function Chomped(tail: string): string { if tail != "" && tail[|tail| - 1] == '\n' then tail[..|tail| - 1] else tail }

  predicate IsMediaPath(value: string) {
    |value| >= 23 && value[..14] == MEDIA_RW && IsVolume(value[14..23]) && OneLine(value[23..])
  }

  /** A volume mounted under /mnt/media_rw is the one under /storage. */
  function Remounted(value: string): string {
    if IsMediaPath(value) then STORAGE + value[14..23] + Chomped(value[23..]) else value
  }

  function Canonical(path: string): Result<string, PathError> {
    if path == "" || '\0' in path || '\\' in path then Err(Invalid)
    else
      var p := Parse(path);
      if p.root == 0 || ".." in p.names then Err(NotAbsolute)
      else Ok(Remounted(CaseFixed(Show(Unaliased(p)), 0)))
  }

  predicate InternalRoot(names: seq<string>) { |names| >= 2 && names[0] == "sdcard" && names[1] in INTERNAL }

  predicate IsExternal(value: string) {
    && |value| >= 18 && value[..9] == STORAGE && IsVolume(value[9..18])
    && (|value| == 18 || value[18] == '/') && '\n' !in value
  }

  predicate Allowed(p: Pure) { (p.root == 1 && InternalRoot(p.names)) || IsExternal(Show(p)) }

  function Normalize(path: string): Result<string, PathError> {
    match Canonical(path)
    case Err(e) => Err(e)
    case Ok(value) => if Allowed(Parse(value)) then Ok(Show(Parse(value))) else Err(OutsideAllowedRoots)
  }

  /** `is_android_storage_root`, of a path that is accepted. */
  function IsStorageRoot(path: string): Result<bool, PathError> {
    match Normalize(path)
    case Err(e) => Err(e)
    case Ok(value) =>
      var p := Parse(value);
      Ok(p.root == 1 && |p.names| == 2 && (InternalRoot(p.names) || (p.names[0] == "storage" && IsVolume(p.names[1]))))
  }

  // ---------------------------------------------------------------- file names

  /** `rstrip(". ")`. */
  function StripDots(s: string): (r: string)
    ensures r != "" ==> r[|r| - 1] != '.' && r[|r| - 1] != ' '
  {
    if s != "" && (s[|s| - 1] == '.' || s[|s| - 1] == ' ') then StripDots(s[..|s| - 1]) else s
  }

  predicate IsForbidden(c: char) {
    c == '<' || c == '>' || c == ':' || c == '"' || c == '/' || c == '\\' || c == '|' || c == '?' || c == '*'
      || c <= '\U{1f}'
  }

  function Replaced(s: string): (r: string)
    ensures |r| == |s|
    ensures forall i :: 0 <= i < |s| ==> !IsForbidden(r[i]) && (!IsForbidden(s[i]) ==> r[i] == s[i])
  {
    seq(|s|, i requires 0 <= i < |s| => if IsForbidden(s[i]) then '_' else s[i])
  }

  function UpperChar(c: char): char { if 'a' <= c <= 'z' then (c as int - 32) as char else c }

  function Upper(s: string): string { seq(|s|, i requires 0 <= i < |s| => UpperChar(s[i])) }

  predicate IsReserved(stem: string) {
    || stem == "CON" || stem == "PRN" || stem == "AUX" || stem == "NUL"
    || (|stem| == 4 && (stem[..3] == "COM" || stem[..3] == "LPT") && '1' <= stem[3] <= '9')
  }

  /** `Path(filename).name`. */
  function LastName(filename: string): string {
    var names := Names(filename);
    if names == [] then "" else names[|names| - 1]
  }

  const MAX_NAME := 240

  function Trimmed(s: string): string { Replaced(StripDots(Strip(s))) }

  function Unreserved(name: string): string { if IsReserved(Upper(Stem(name))) then "_" + name else name }

  function Shortened(name: string): string { if |name| > MAX_NAME then name[..MAX_NAME] else name }

  function Sanitized(filename: string): string {
    var trimmed := Trimmed(LastName(filename));
    Shortened(Unreserved(if trimmed == "" then "file" else trimmed))
  }

  function Join(directory: string, filename: string): Result<string, PathError> {
    match Normalize(directory)
    case Err(e) => Err(e)
    case Ok(d) =>
      var p := Parse(d);
      Normalize(Show(Pure(p.root, p.names + [Sanitized(filename)])))
  }
}
