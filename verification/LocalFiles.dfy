/** The PC file system that transfers read and write, and duplicate resolution on it. */
module LocalFiles {
  import opened Wrappers
  import opened Texts
  import Decimal

  /** Transfer ids are fresh random tokens, so the `.part` sibling of a file that carries a
      transfer id, and a spool file, never coincide with a file the user names. */
  datatype LocalPath =
    | Named(directory: string, name: string)
    | Part(directory: string, name: string, transfer: nat)
    | Spool(name: string)

  type Disk = map<LocalPath, Bytes>

  datatype DuplicatePolicy = Rename | Overwrite | Fail

  const LAST_INDEX := 9_999

  /** `stem (index)suffix` beside the given path. */
  function Candidate(path: LocalPath, index: nat): (c: LocalPath)
    requires path.Named?
    ensures c.Named? && c.directory == path.directory
  {
    Named(path.directory, Stem(path.name) + " (" + Decimal.Print(index) + ")" + Suffix(path.name))
  }

  predicate Taken(disk: Disk, path: LocalPath, index: nat)
    requires path.Named?
  {
    Candidate(path, index) in disk
  }

  /** The first free candidate from `index` on, if one up to the last index is free. */
  function FirstFree(disk: Disk, path: LocalPath, index: nat): Option<LocalPath>
    requires path.Named?
    decreases LAST_INDEX + 1 - index
  {
    if index > LAST_INDEX then None
    else if Candidate(path, index) !in disk then Some(Candidate(path, index))
    else FirstFree(disk, path, index + 1)
  }

  /** What `resolve_duplicate` answers; `None` is its FileExistsError. */
  function Resolved(disk: Disk, path: LocalPath, policy: DuplicatePolicy): Option<LocalPath>
    requires path.Named?
  {
    if path !in disk || policy == Overwrite then Some(path)
    else if policy == Fail then None
    else FirstFree(disk, path, 1)
  }

  method ResolveDuplicate(disk: Disk, path: LocalPath, policy: DuplicatePolicy) returns (r: Option<LocalPath>)
    requires path.Named?
    ensures r == Resolved(disk, path, policy)
  {
    if path !in disk || policy == Overwrite { return Some(path); }
    if policy == Fail { return None; }
    var index := 1;
    while index <= LAST_INDEX
      invariant 1 <= index <= LAST_INDEX + 1
      invariant FirstFree(disk, path, 1) == FirstFree(disk, path, index)
    {
      var candidate := Candidate(path, index);
      if candidate !in disk { return Some(candidate); }
      index := index + 1;
    }
    return None;
  }

  /** Everything below the answer is taken. */
  lemma {:induction false} FirstFreeIsLeast(disk: Disk, path: LocalPath, index: nat)
    requires path.Named?
    ensures var r := FirstFree(disk, path, index);
            if r.None? then forall k: nat :: index <= k <= LAST_INDEX ==> Taken(disk, path, k)
            else exists k: nat :: index <= k <= LAST_INDEX && r.value == Candidate(path, k) && !Taken(disk, path, k)
                                  && forall j: nat :: index <= j < k ==> Taken(disk, path, j)
    decreases LAST_INDEX + 1 - index
  {
    if index <= LAST_INDEX {
      if Taken(disk, path, index) {
        FirstFreeIsLeast(disk, path, index + 1);
      } else {
        assert !Taken(disk, path, index);
      }
    }
  }

  lemma MiddleIsDetermined(a: string, x: string, y: string, b: string)
    requires a + x + b == a + y + b
    ensures x == y
  {
    assert |a + x + b| == |a| + |x| + |b|;
    assert x == (a + x + b)[|a|..|a| + |x|];
    assert y == (a + y + b)[|a|..|a| + |y|];
  }

  /** Two indices give two names. */
  lemma CandidatesDistinct(path: LocalPath, i: nat, j: nat)
    requires path.Named?
    requires Candidate(path, i) == Candidate(path, j)
    ensures i == j
  {
    var a, b := Stem(path.name) + " (", ")" + Suffix(path.name);
    var x, y := Decimal.Print(i), Decimal.Print(j);
    assert Candidate(path, i).name == a + x + b;
    assert Candidate(path, j).name == a + y + b;
    MiddleIsDetermined(a, x, y, b);
    Decimal.PrintInjective(i, j);
  }

  /** Under Rename the answer is a free path in the same directory, and it is refused only when the
      path and all 9999 numbered siblings exist. */
  lemma RenameNeverReplaces(disk: Disk, path: LocalPath)
    requires path.Named?
    ensures var r := Resolved(disk, path, Rename);
            && (r.Some? ==> r.value !in disk && r.value.Named? && r.value.directory == path.directory)
            && (r.None? <==> path in disk && forall k: nat :: 1 <= k <= LAST_INDEX ==> Taken(disk, path, k))
  {
    FirstFreeIsLeast(disk, path, 1);
  }
}
