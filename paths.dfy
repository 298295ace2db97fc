/** Filesystem paths as the plugin uses them through pathlib: a path is the
    sequence of its components, read from the working directory, and `[]` is
    the working directory itself (pathlib's `Path(".")`, whose name is empty). */
module Paths {
  import opened Runtime

  type Path = seq<string>

  /** pathlib's `PurePath.name`: the last component, empty for `[]`. */
  function Name(p: Path): string {
    if p == [] then "" else p[|p| - 1]
  }

  /** pathlib's `PurePath.parent`. */
  function Parent(p: Path): Path {
    if p == [] then [] else p[..|p| - 1]
  }

  /** Index of the last '.' in `name`, or -1 when there is none (`str.rfind`). */
  function LastDot(name: string): (i: int)
    ensures -1 <= i < |name|
    ensures i >= 0 ==> name[i] == '.'
    ensures forall k :: i < k < |name| ==> name[k] != '.'
  {
    if name == [] then -1
    else if name[|name| - 1] == '.' then |name| - 1
    else LastDot(name[..|name| - 1])
  }

  /** The last dot starts a suffix only when it lies strictly inside the name:
      not first (a hidden file such as ".bashrc") and not last ("foo."). */
  predicate HasSuffix(name: string) {
    0 < LastDot(name) < |name| - 1
  }

  /** pathlib's `PurePath.suffix`. */
  function SuffixOf(name: string): string {
    if HasSuffix(name) then name[LastDot(name)..] else ""
  }

  /** pathlib's `PurePath.stem`: the name without its suffix. */
  function StemOf(name: string): string {
    if HasSuffix(name) then name[..LastDot(name)] else name
  }

  /** The suffixes `with_suffix` accepts: no separator, and either empty or a
      dot followed by at least one character. */
  predicate SuffixAccepted(s: string) {
    '/' !in s && (s == "" || (s[0] == '.' && s != "."))
  }

  /** A suffix with exactly one dot, in front, such as ".ksp" and ".hdf". */
  predicate SimpleSuffix(s: string) {
    |s| >= 2 && s[0] == '.' && forall k :: 0 < k < |s| ==> s[k] != '.' && s[k] != '/'
  }

  /** pathlib's `PurePath.with_suffix`: the name's suffix is replaced by `s`,
      or `s` is appended when the name has none; an empty name or a refused
      suffix raises ValueError (here: None). */
  function WithSuffix(p: Path, s: string): (r: Option<Path>)
    ensures r.None? <==> !SuffixAccepted(s) || Name(p) == ""
    ensures r.Some? ==> |r.value| == |p| && Parent(r.value) == Parent(p)
  {
    if !SuffixAccepted(s) || Name(p) == "" then None
    else Some(Parent(p) + [StemOf(Name(p)) + s])
  }

  lemma SimpleSuffixAccepted(s: string)
    requires SimpleSuffix(s)
    ensures SuffixAccepted(s)
  {
    forall k | 0 <= k < |s| ensures s[k] != '/' {
      if k == 0 { assert s[0] == '.'; }
    }
  }

  /** A stem followed by a simple suffix has exactly that suffix and stem. */
  lemma StemPlusSimpleSuffix(stem: string, s: string)
    requires stem != "" && SimpleSuffix(s)
    ensures HasSuffix(stem + s)
    ensures SuffixOf(stem + s) == s && StemOf(stem + s) == stem
  {
    var name := stem + s;
    assert name[|stem|] == '.';
    forall k | |stem| < k < |name| ensures name[k] != '.' {
      assert name[k] == s[k - |stem|];
    }
    var i := LastDot(name);
    assert i == |stem|;
    assert name[i..] == s;
    assert name[..i] == stem;
  }

  /** Replacing the suffix by a simple one yields a path whose suffix is that
      one and whose stem and parent are the original's. */
  lemma {:induction false} WithSuffixSetsSuffix(p: Path, s: string)
    requires SimpleSuffix(s) && Name(p) != ""
    ensures WithSuffix(p, s).Some?
    ensures Parent(WithSuffix(p, s).value) == Parent(p)
    ensures SuffixOf(Name(WithSuffix(p, s).value)) == s
    ensures StemOf(Name(WithSuffix(p, s).value)) == StemOf(Name(p))
  {
    SimpleSuffixAccepted(s);
    var name := Name(p);
    assert StemOf(name) != "" by {
      if HasSuffix(name) { assert |name[..LastDot(name)]| > 0; }
    }
    StemPlusSimpleSuffix(StemOf(name), s);
  }

  /** A path that already carries the suffix is left as it is. */
  lemma {:induction false} WithSuffixKeepsMatching(p: Path, s: string)
    requires SimpleSuffix(s) && SuffixOf(Name(p)) == s
    ensures WithSuffix(p, s) == Some(p)
  {
    SimpleSuffixAccepted(s);
    var name := Name(p);
    assert HasSuffix(name);
    assert StemOf(name) + s == name[..LastDot(name)] + name[LastDot(name)..] == name;
    assert Parent(p) + [name] == p;
  }

  /** Normalising twice is normalising once: `p` and `p.with_suffix(s)` name
      the same target. */
  lemma {:induction false} WithSuffixIdempotent(p: Path, s: string)
    requires SimpleSuffix(s)
    ensures WithSuffix(p, s).Some? ==> WithSuffix(WithSuffix(p, s).value, s) == WithSuffix(p, s)
  {
    if WithSuffix(p, s).Some? {
      WithSuffixSetsSuffix(p, s);
      WithSuffixKeepsMatching(WithSuffix(p, s).value, s);
    }
  }

  /** A name without a dot gets the suffix appended: "proj" is saved as "proj.ksp". */
  lemma WithSuffixAppends()
    ensures WithSuffix(["proj"], ".ksp") == Some(["proj.ksp"])
  {
    var i := LastDot("proj");
    assert i == -1 || i == 0 || i == 1 || i == 2 || i == 3;
    assert StemOf("proj") == "proj";
    assert "proj" + ".ksp" == "proj.ksp";
    assert Parent(["proj"]) == [];
  }

  /** An inner suffix is replaced. */
  lemma WithSuffixReplaces()
    ensures WithSuffix(["dir", "study.txt"], ".hdf") == Some(["dir", "study.hdf"])
  {
    var j := LastDot("study.txt");
    assert "study.txt"[5] == '.';
    assert j == 5 || j == 6 || j == 7 || j == 8;
    assert StemOf("study.txt") == "study.txt"[..5] == "study";
    assert "study" + ".hdf" == "study.hdf";
    assert Name(["dir", "study.txt"]) == "study.txt";
    assert Parent(["dir", "study.txt"]) == ["dir"];
    assert ["dir"] + ["study.hdf"] == ["dir", "study.hdf"];
  }

  /** A leading dot (a hidden file) and a trailing dot do not start a suffix. */
  lemma WithSuffixOuterDots()
    ensures WithSuffix([".bashrc"], ".ksp") == Some([".bashrc.ksp"])
    ensures WithSuffix(["foo."], ".ksp") == Some(["foo..ksp"])
  {
    var k := LastDot(".bashrc");
    assert ".bashrc"[0] == '.';
    assert k == 0 || k == 1 || k == 2 || k == 3 || k == 4 || k == 5 || k == 6;
    assert StemOf(".bashrc") == ".bashrc";
    assert ".bashrc" + ".ksp" == ".bashrc.ksp";
    assert Parent([".bashrc"]) == [];
    assert LastDot("foo.") == 3;
    assert StemOf("foo.") == "foo.";
    assert "foo." + ".ksp" == "foo..ksp";
    assert Parent(["foo."]) == [];
  }
}
