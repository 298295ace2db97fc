/** The helpers around the host platform's study (`salome.myStudy`): counting
    the objects published in it, saving it to and opening it from a single
    `.hdf` file, and resetting it. The study's own persistence is the host's
    business: its calls are given as a `Host` value that says, per path, what
    the call reports and what it does. */
module SalomeStudy {
  import opened Runtime
  import opened Paths
  import opened Files

  const StudySuffix := ".hdf"

  /** An object of the study, with the objects published below it. The
      study's top-level objects are its components (GEOM, SMESH, ...). */
  datatype SObject = SObject(children: seq<SObject>)

  /** Number of objects below `o`: each child counts itself and everything
      below it. */
  function Descendants(o: SObject): nat
    decreases o, 1
  {
    ForestCount(o.children)
  }

  function ForestCount(cs: seq<SObject>): nat
    decreases cs, 0
  {
    if cs == [] then 0 else 1 + Descendants(cs[0]) + ForestCount(cs[1..])
  }

  /** Number of objects in a study with these components; the components
      themselves are not counted. */
  function ObjectsInStudy(components: seq<SObject>): nat {
    if components == [] then 0
    else Descendants(components[0]) + ObjectsInStudy(components[1..])
  }

  /** The objects below `o` in the order a depth-first walk with the study's
      child iterator visits them. */
  function Below(o: SObject): seq<SObject>
    decreases o, 1
  {
    BelowForest(o.children)
  }

  function BelowForest(cs: seq<SObject>): seq<SObject>
    decreases cs, 0
  {
    if cs == [] then [] else [cs[0]] + Below(cs[0]) + BelowForest(cs[1..])
  }

  /** The count is the number of objects the walk visits. */
  lemma {:induction false} DescendantsCountsWalk(o: SObject)
    ensures Descendants(o) == |Below(o)|
    decreases o, 1
  {
    ForestCountCountsWalk(o.children);
  }

  lemma {:induction false} ForestCountCountsWalk(cs: seq<SObject>)
    ensures ForestCount(cs) == |BelowForest(cs)|
    decreases cs, 0
  {
    if cs != [] {
      DescendantsCountsWalk(cs[0]);
      ForestCountCountsWalk(cs[1..]);
    }
  }

  /** A component counts nothing exactly when nothing is published below it. */
  lemma {:induction false} NoDescendantsIffLeaf(o: SObject)
    ensures Descendants(o) == 0 <==> o.children == []
  {
  }

  /** Counting is additive over the components. */
  lemma {:induction false} ObjectsInStudyAppend(a: seq<SObject>, b: seq<SObject>)
    ensures ObjectsInStudy(a + b) == ObjectsInStudy(a) + ObjectsInStudy(b)
  {
    if a == [] {
      assert a + b == b;
    } else {
      assert (a + b)[0] == a[0];
      assert (a + b)[1..] == a[1..] + b;
      ObjectsInStudyAppend(a[1..], b);
    }
  }

  /** A study counts no objects exactly when none of its components has
      anything below it: the components are not counted. */
  lemma {:induction false} EmptyStudyIffBareComponents(components: seq<SObject>)
    ensures ObjectsInStudy(components) == 0 <==> forall i :: 0 <= i < |components| ==> components[i].children == []
  {
    if components != [] {
      EmptyStudyIffBareComponents(components[1..]);
      NoDescendantsIffLeaf(components[0]);
      forall i | 0 < i < |components| ensures components[i] == components[1..][i - 1] { }
    }
  }

  /** `GetNumberOfObjectsInComponent`: a loop over the component's children
      that adds one for each child and, recursively, the child's own count. */
  method GetNumberOfObjectsInComponent(component: SObject) returns (n: nat)
    ensures n == Descendants(component)
    decreases component
  {
    var cs := component.children;
    n := 0;
    var i := 0;
    while i < |cs|
      invariant 0 <= i <= |cs|
      invariant n + ForestCount(cs[i..]) == ForestCount(cs)
    {
      assert cs[i..][1..] == cs[i + 1..];
      var child := cs[i];
      var childCount := GetNumberOfObjectsInComponent(child);
      n := n + 1 + childCount;
      i := i + 1;
    }
  }

  /** The study as the host holds it in memory. */
  class Study {
    var components: seq<SObject>

    constructor(components: seq<SObject>)
      ensures this.components == components
    {
      this.components := components;
    }
  }

  /** `GetNumberOfObjectsInStudy`: a loop over the components that adds each
      component's count. */
  method GetNumberOfObjectsInStudy(study: Study) returns (n: nat)
    ensures n == ObjectsInStudy(study.components)
  {
    var cs := study.components;
    n := 0;
    var i := 0;
    while i < |cs|
      invariant 0 <= i <= |cs|
      invariant n + ObjectsInStudy(cs[i..]) == ObjectsInStudy(cs)
    {
      assert cs[i..][1..] == cs[i + 1..];
      var count := GetNumberOfObjectsInComponent(cs[i]);
      n := n + count;
      i := i + 1;
    }
  }

  /** What a host call did: returned a boolean, or raised. */
  datatype HostResult = Returned(ok: bool) | Raised

  /** The plugin catches every exception of a host call and reads it as failure. */
  function Reported(r: HostResult): bool {
    r == Returned(true)
  }

  /** `myStudy.SaveAs(path, ...)`: what it reports and whether it writes the file. */
  datatype SaveAsEffect = SaveAsEffect(result: HostResult, writesFile: bool)

  /** `myStudy.Open(path)`: what it reports and the study it leaves in memory. */
  datatype OpenEffect = OpenEffect(result: HostResult, loaded: seq<SObject>)

  /** The host's answers for this call: per path for saving and opening, and
      the study's modified flag at the time of the call. */
  datatype Host = Host(SaveAs: Path -> SaveAsEffect, Open: Path -> OpenEffect, IsModified: bool)

  /** `SaveStudy`: saves the study as the file `filePath` with its suffix
      replaced by ".hdf", creating the directory it goes in when missing; an
      existing file is overwritten. It reports success only when the host did
      and the file exists afterwards. */
  method SaveStudy(fs: FileSystem, filePath: Path, host: Host) returns (r: Result<bool>)
    requires fs.Valid()
    modifies fs
    ensures fs.Valid()
    ensures WithSuffix(filePath, StudySuffix).None? ==> r == Raise(ValueError) && fs.entries == old(fs.entries)
    ensures WithSuffix(filePath, StudySuffix).Some? ==>
      var target := WithSuffix(filePath, StudySuffix).value;
      && (r.Raise? <==> !DirIn(old(fs.entries), Parent(target)) && !CanMakeDirs(old(fs.entries), Parent(target)))
      && (r.Raise? ==> fs.entries == old(fs.entries))
      && (r.Ok? ==> fs.IsDir(Parent(target)))
      && (r.Ok? ==> (r.value <==> Reported(host.SaveAs(target).result) && fs.IsFile(target)))
      && (r.Ok? && host.SaveAs(target).writesFile && !DirIn(old(fs.entries), target) ==> fs.IsFile(target))
      && (forall q :: q in old(fs.entries) && q != target ==> q in fs.entries && fs.entries[q] == old(fs.entries)[q])
      && (forall q :: q in fs.entries && q !in old(fs.entries) ==> q <= target)
      && (DirIn(old(fs.entries), Parent(target)) ==>
            fs.entries == if host.SaveAs(target).writesFile && !DirIn(old(fs.entries), target)
                          then old(fs.entries)[target := File(HostDocument)] else old(fs.entries))
  {
    var normalised := WithSuffix(filePath, StudySuffix);
    if normalised.None? {
      return Raise(ValueError);
    }
    var target := normalised.value;
    // an existing file at target is overwritten
    if !fs.IsDir(Parent(target)) {
      var made := fs.MakeDirs(Parent(target));
      if made.Raise? {
        return Raise(made.error);
      }
    }
    var effect := host.SaveAs(target);
    if effect.writesFile {
      // the host writes the file itself; where it cannot, there is simply no file
      var _ := fs.WriteFile(target, HostDocument);
    }
    var saved := Reported(effect.result);
    if saved && !fs.IsFile(target) {
      // the host reported success but the file was not created
      saved := false;
    }
    return Ok(saved);
  }

  /** `OpenStudy`: opens the study from `filePath` as given (a suffix other
      than ".hdf" only draws a warning). A missing file raises before the
      study is touched; otherwise the result is what the host reports. */
  method OpenStudy(fs: FileSystem, study: Study, filePath: Path, host: Host) returns (r: Result<bool>)
    modifies study
    ensures !fs.IsFile(filePath) ==> r == Raise(FileNotFoundError(filePath)) && study.components == old(study.components)
    ensures fs.IsFile(filePath) ==> r == Ok(Reported(host.Open(filePath).result))
    ensures fs.IsFile(filePath) ==> study.components == host.Open(filePath).loaded
  {
    if !fs.IsFile(filePath) {
      return Raise(FileNotFoundError(filePath));
    }
    // SuffixOf(Name(filePath)) != StudySuffix only draws a warning
    if host.IsModified {
      // a modified, non-empty study only draws a warning
      var count := GetNumberOfObjectsInStudy(study);
    }
    var effect := host.Open(filePath);
    study.components := effect.loaded;
    return Ok(Reported(effect.result));
  }

  /** `ResetStudy`: clears the study; no objects are left afterwards. */
  method ResetStudy(study: Study)
    modifies study
    ensures study.components == []
    ensures ObjectsInStudy(study.components) == 0
  {
    study.components := [];
  }

  /** The scenario of the plugin's tests: components with 13 and 67 objects
      below them make a study of 80 objects. */
  lemma {:induction false} TwoComponentStudy(a: SObject, b: SObject)
    requires Descendants(a) == 13 && Descendants(b) == 67
    ensures ObjectsInStudy([a, b]) == 80
  {
    ObjectsInStudyAppend([a], [b]);
    assert [a] + [b] == [a, b];
    assert ObjectsInStudy([a]) == 13 by { assert [a][1..] == []; }
    assert ObjectsInStudy([b]) == 67 by { assert [b][1..] == []; }
  }
}
