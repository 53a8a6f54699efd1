/** The path functions that rebind their variables and loop over the alias tables. */
module AndroidPaths {
  import opened Wrappers
  import opened PathModel
  import opened Texts
  import opened PathTheorems

  const ALIASES := [(EMULATED, SDCARD), (MNT_SDCARD, SDCARD)]

  /** `canonicalize_android_path`. */
  method CanonicalizeAndroidPath(path: string) returns (r: Result<string, PathError>)
    ensures r == Canonical(path)
  {
    if path == "" || '\0' in path || '\\' in path { return Err(Invalid); }
    var normalized := Parse(path);
    if normalized.root == 0 || ".." in normalized.names { return Err(NotAbsolute); }
    normalized := ResolveAlias(normalized);
    var value := FixCase(Show(normalized));
    if IsMediaPath(value) { value := STORAGE + value[14..23] + Chomped(value[23..]); }
    return Ok(value);
  }

  method ResolveAlias(pure: Pure) returns (normalized: Pure)
    ensures normalized == Unaliased(pure)
  {
    normalized := pure;
    var i := 0;
    while i < |ALIASES|
      invariant i <= |ALIASES| && normalized == pure
      invariant i > 0 ==> !(pure.root == 1 && StartsWith(pure.names, EMULATED))
      invariant i > 1 ==> !(pure.root == 1 && StartsWith(pure.names, MNT_SDCARD))
    {
      if normalized.root == 1 && StartsWith(normalized.names, ALIASES[i].0) {
        normalized := Pure(1, ALIASES[i].1 + normalized.names[|ALIASES[i].0|..]);
        return;
      }
      i := i + 1;
    }
  }

  method FixCase(text: string) returns (value: string)
    ensures value == CaseFixed(text, 0)
  {
    value := text;
    var lowered := Lower(value);
    var k := 0;
    while k < |INTERNAL|
      invariant k <= |INTERNAL| && value == text
      invariant CaseFixed(text, 0) == CaseFixed(text, k)
    {
      if Below(lowered, Lower(KnownRoot(k))) {
        value := KnownRoot(k) + value[|KnownRoot(k)|..];
        return;
      }
      k := k + 1;
    }
  }

  /** `sanitize_filename`. */
  method SanitizeFilename(filename: string) returns (value: string)
    ensures value == Sanitized(filename)
    ensures Plain(value) && value != ".." && |value| <= MAX_NAME
  {
    SanitizedIsOneName(filename);
    value := StripDots(Strip(LastName(filename)));
    value := Replaced(value);
    if value == "" { value := "file"; }
    var stem := Upper(Stem(value));
    if IsReserved(stem) { value := "_" + value; }
    if |value| > MAX_NAME { value := value[..MAX_NAME]; }
  }
}
