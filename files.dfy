/** The part of the filesystem the plugin touches: directories and files
    addressed by path, `is_dir`, `is_file`, `os.makedirs` and writing a file.
    The working directory `[]` always exists and is a directory. */
module Files {
  import opened Runtime
  import opened Paths
  import opened JsonValues

  /** What a file holds: a document written by the host platform (opaque
      here) or JSON text, represented by the value it parses to. */
  datatype Content = HostDocument | JsonText(doc: Json)

  datatype Node = Dir | File(content: Content)

  type Entries = map<Path, Node>

  predicate DirIn(e: Entries, p: Path) {
    p == [] || (p in e && e[p].Dir?)
  }

  predicate FileIn(e: Entries, p: Path) {
    p in e && e[p].File?
  }

  predicate ExistsIn(e: Entries, p: Path) {
    p == [] || p in e
  }

  /** A well-formed tree: every entry sits in a directory. */
  ghost predicate ValidEntries(e: Entries) {
    [] !in e && forall q :: q in e ==> DirIn(e, Parent(q))
  }

  /** When `os.makedirs(p)` succeeds: `p` does not exist yet and no component
      on the way to it is a file. */
  predicate CanMakeDirs(e: Entries, p: Path) {
    !ExistsIn(e, p) && forall i :: 0 < i < |p| ==> !FileIn(e, p[..i])
  }

  /** Some component above `p` is a file. */
  predicate FileOnTheWay(e: Entries, p: Path) {
    exists i :: 0 < i < |p| && FileIn(e, p[..i])
  }

  /** In a well-formed tree every component above an entry is a directory. */
  lemma {:induction false} AboveEntryIsDir(e: Entries, q: Path, i: nat)
    requires ValidEntries(e) && 0 < i < |q|
    ensures q in e ==> DirIn(e, q[..i])
    decreases |q|
  {
    var up := q[..|q| - 1];
    assert Parent(q) == up;
    if i < |q| - 1 {
      AboveEntryIsDir(e, up, i);
      assert up[..i] == q[..i];
    }
  }

  /** A file on the way to `p` means that the parent of `p` is not a directory. */
  lemma FileAboveBlocksParent(e: Entries, p: Path, k: nat)
    requires ValidEntries(e) && 0 < k < |p| && FileIn(e, p[..k])
    ensures !DirIn(e, Parent(p))
  {
    assert Parent(p) == p[..|p| - 1];
    if k < |p| - 1 {
      AboveEntryIsDir(e, Parent(p), k);
      assert Parent(p)[..k] == p[..k];
    }
  }

  /** Adding a directory inside an existing directory keeps the tree well formed. */
  lemma AddDirKeepsValid(e: Entries, q: Path)
    requires ValidEntries(e) && q != [] && q !in e && DirIn(e, Parent(q))
    ensures ValidEntries(e[q := Dir])
  {
    var e' := e[q := Dir];
    forall k | k in e' ensures DirIn(e', Parent(k)) {
      if k != q { assert DirIn(e, Parent(k)); }
    }
  }

  /** What the creating loop of `os.makedirs(p)` has achieved after the
      components shorter than `i`: they are directories, nothing that existed
      before has changed, and every new entry is a directory above or at `p`. */
  ghost predicate Grown(before: Entries, e: Entries, p: Path, i: nat) {
    && ValidEntries(e)
    && (forall j :: 0 < j < i && j <= |p| ==> DirIn(e, p[..j]))
    && (forall q :: q in before ==> q in e && e[q] == before[q])
    && (forall q :: q in e && q !in before ==> q <= p && |q| < i && e[q] == Dir)
  }

  /** One step of the creating loop when the component is missing: it becomes a directory. */
  lemma GrowByNewDir(before: Entries, e: Entries, p: Path, i: nat)
    requires 1 <= i <= |p| && Grown(before, e, p, i) && p[..i] !in e
    ensures Grown(before, e[p[..i] := Dir], p, i + 1)
  {
    assert i > 1 ==> DirIn(e, p[..i - 1]) by {
      if i > 1 { assert 0 < i - 1 < i; }
    }
    NewDirKeepsValid(e, p, i);
    NewDirExtendsRun(e, p, i);
    NewDirKeepsFrame(before, e, p, i);
  }

  lemma NewDirKeepsValid(e: Entries, p: Path, i: nat)
    requires 1 <= i <= |p| && ValidEntries(e) && p[..i] !in e
    requires i > 1 ==> DirIn(e, p[..i - 1])
    ensures ValidEntries(e[p[..i] := Dir])
  {
    assert Parent(p[..i]) == p[..i - 1];
    AddDirKeepsValid(e, p[..i]);
  }

  lemma NewDirExtendsRun(e: Entries, p: Path, i: nat)
    requires 1 <= i <= |p|
    requires forall j :: 0 < j < i && j <= |p| ==> DirIn(e, p[..j])
    ensures forall j :: 0 < j < i + 1 && j <= |p| ==> DirIn(e[p[..i] := Dir], p[..j])
  {
    forall j | 0 < j < i + 1 && j <= |p| ensures DirIn(e[p[..i] := Dir], p[..j]) {
      if j < i { assert DirIn(e, p[..j]) && |p[..j]| != |p[..i]|; }
    }
  }

  lemma NewDirKeepsFrame(before: Entries, e: Entries, p: Path, i: nat)
    requires 1 <= i <= |p| && p[..i] !in e
    requires forall q :: q in before ==> q in e && e[q] == before[q]
    requires forall q :: q in e && q !in before ==> q <= p && |q| < i && e[q] == Dir
    ensures forall q :: q in before ==> q in e[p[..i] := Dir] && e[p[..i] := Dir][q] == before[q]
    ensures forall q :: q in e[p[..i] := Dir] && q !in before ==> q <= p && |q| < i + 1 && e[p[..i] := Dir][q] == Dir
  {
    var e' := e[p[..i] := Dir];
    forall k | k in e' && k !in before ensures k <= p && |k| < i + 1 && e'[k] == Dir {
      if k != p[..i] { assert k in e; }
    }
  }

  /** One step of the creating loop when the component exists: it is already a directory. */
  lemma GrowByExistingDir(before: Entries, e: Entries, p: Path, i: nat)
    requires CanMakeDirs(before, p)
    requires 1 <= i <= |p| && Grown(before, e, p, i) && p[..i] in e
    ensures Grown(before, e, p, i + 1)
  {
    var q := p[..i];
    assert q == p ==> q in before;
    assert i < |p| && !FileIn(before, q);
    assert DirIn(e, q);
  }

  class FileSystem {
    var entries: Entries

    ghost predicate Valid()
      reads this
    {
      ValidEntries(entries)
    }

    constructor(e: Entries)
      requires ValidEntries(e)
      ensures Valid() && entries == e
    {
      entries := e;
    }

    /** pathlib's `Path.is_dir`. */
    predicate IsDir(p: Path)
      reads this
    {
      DirIn(entries, p)
    }

    /** pathlib's `Path.is_file`. */
    predicate IsFile(p: Path)
      reads this
    {
      FileIn(entries, p)
    }

    /** `os.makedirs(p)`: creates `p` and every missing directory above it.
        It raises FileExistsError when `p` exists and NotADirectoryError when
        a component above it is a file; a failed call creates nothing. */
    method MakeDirs(p: Path) returns (r: Result<()>)
      requires Valid()
      modifies this
      ensures Valid()
      ensures r.Ok? <==> CanMakeDirs(old(entries), p)
      ensures ExistsIn(old(entries), p) ==> r == Raise(FileExistsError(p))
      ensures !ExistsIn(old(entries), p) && FileOnTheWay(old(entries), p) ==>
        r.Raise? && r.error.NotADirectoryError? && r.error.path <= p && FileIn(old(entries), Parent(r.error.path))
      ensures r.Raise? ==> entries == old(entries)
      ensures r.Ok? ==> DirIn(entries, p)
      ensures forall q :: q in old(entries) ==> q in entries && entries[q] == old(entries)[q]
      ensures forall q :: q in entries && q !in old(entries) ==> q <= p && entries[q] == Dir
    {
      if ExistsIn(entries, p) {
        return Raise(FileExistsError(p));
      }
      // In a well-formed tree the existing components form a leading run, so a
      // file on the way is found before anything would be created.
      var k := FirstFileAbove(p);
      if k < |p| {
        assert Parent(p[..k + 1]) == p[..k];
        return Raise(NotADirectoryError(p[..k + 1]));
      }
      CreateMissingDirs(p);
      return Ok(());
    }

    /** The length of the shortest proper prefix of `p` that is a file, or
        `|p|` when there is none. */
    method FirstFileAbove(p: Path) returns (k: nat)
      requires p != []
      ensures 0 < k <= |p|
      ensures k < |p| ==> FileIn(entries, p[..k])
      ensures forall j :: 0 < j < k ==> !FileIn(entries, p[..j])
    {
      k := 1;
      while k < |p| && !FileIn(entries, p[..k])
        invariant 1 <= k <= |p|
        invariant forall j :: 0 < j < k ==> !FileIn(entries, p[..j])
      {
        k := k + 1;
      }
    }

    /** The creating half of `os.makedirs`, once the checks have passed. */
    method CreateMissingDirs(p: Path)
      requires Valid() && CanMakeDirs(entries, p)
      modifies this
      ensures Valid()
      ensures DirIn(entries, p)
      ensures forall q :: q in old(entries) ==> q in entries && entries[q] == old(entries)[q]
      ensures forall q :: q in entries && q !in old(entries) ==> q <= p && entries[q] == Dir
    {
      var i := 1;
      while i <= |p|
        invariant 1 <= i <= |p| + 1
        invariant Grown(old(entries), entries, p, i)
      {
        var q := p[..i];
        if q !in entries {
          GrowByNewDir(old(entries), entries, p, i);
          entries := entries[q := Dir];
        } else {
          GrowByExistingDir(old(entries), entries, p, i);
        }
        i := i + 1;
      }
      assert p[..|p|] == p;
    }

    /** `open(p, "w")` followed by a write: replaces or creates the file `p`.
        Writing onto a directory raises IsADirectoryError. Where the parent is
        not a directory, the first component on the way that is not a
        directory decides: a file raises NotADirectoryError, a missing one
        FileNotFoundError. */
    method WriteFile(p: Path, c: Content) returns (r: Result<()>)
      requires Valid()
      modifies this
      ensures Valid()
      ensures r.Ok? <==> !DirIn(old(entries), p) && DirIn(old(entries), Parent(p))
      ensures r.Raise? ==> entries == old(entries)
      ensures DirIn(old(entries), p) ==> r == Raise(IsADirectoryError(p))
      ensures !DirIn(old(entries), p) && FileOnTheWay(old(entries), p) ==> r == Raise(NotADirectoryError(p))
      ensures !DirIn(old(entries), p) && !DirIn(old(entries), Parent(p)) && !FileOnTheWay(old(entries), p) ==>
        r == Raise(FileNotFoundError(p))
      ensures r.Ok? ==> entries == old(entries)[p := File(c)]
    {
      if DirIn(entries, p) {
        return Raise(IsADirectoryError(p));
      }
      var k := FirstFileAbove(p);
      if k < |p| {
        FileAboveBlocksParent(entries, p, k);
        return Raise(NotADirectoryError(p));
      }
      if !DirIn(entries, Parent(p)) {
        return Raise(FileNotFoundError(p));
      }
      entries := entries[p := File(c)];
      return Ok(());
    }
  }
}
