/** The `os.path` functions (POSIX flavour) that build file names and URLs. */
module Paths {
  import opened PyStrings

  /** `os.path.basename(p)`: what follows the last `/`. */
  function Basename(p: string): string {
    p[RFind(p, '/') + 1..]
  }

  /** `p.split("/")[-1]` and `os.path.basename(p)` pick the same suffix. */
  lemma {:induction false} BasenameIsLastSegment(p: string)
    ensures Basename(p) == LastSegment(p, '/')
  {
    LastSegmentIsMaximalSuffix(p, '/');
    var r := LastSegment(p, '/');
    var i := RFind(p, '/');
    var j := |p| - |r|;
    assert forall k :: j <= k < |p| ==> p[k] == r[k - j];
  }

  /** A basename holds no `/`. */
  lemma BasenameNoSlash(p: string)
    ensures '/' !in Basename(p)
  {
    var i := RFind(p, '/');
    assert forall k :: 0 <= k < |Basename(p)| ==> Basename(p)[k] == p[i + 1 + k];
  }

  /** A string `x + b` whose `b` holds no `/` and whose `x` is empty or ends in `/` has basename `b`. */
  lemma BasenameAfterSlash(x: string, b: string)
    requires '/' !in b
    requires x == [] || x[|x| - 1] == '/'
    ensures Basename(x + b) == b
  {
    var s := x + b;
    assert forall k :: |x| <= k < |s| ==> s[k] == b[k - |x|];
    assert x != [] ==> s[|x| - 1] == '/';
    assert s[|x|..] == b;
  }

  /** `os.path.join(a, b)`: an absolute `b` wins; otherwise a `/` is inserted when `a` lacks one. */
  function PathJoin(a: string, b: string): string {
    if |b| > 0 && b[0] == '/' then b
    else if a == [] || a[|a| - 1] == '/' then a + b
    else a + "/" + b
  }

  /** Joining a plain file name onto any directory or URL keeps that name as the basename. */
  lemma BasenameOfJoin(a: string, b: string)
    requires '/' !in b
    ensures Basename(PathJoin(a, b)) == b
    ensures PathJoin(a, b)[..|PathJoin(a, b)| - |b|] == (if a == [] || a[|a| - 1] == '/' then a else a + "/")
  {
    if b != [] {
      assert b[0] in b;
    }
    if a == [] || a[|a| - 1] == '/' {
      BasenameAfterSlash(a, b);
    } else {
      assert a + "/" + b == (a + "/") + b;
      BasenameAfterSlash(a + "/", b);
    }
  }

  /**
   * `os.path.splitext(p)[0]`: `p` without its extension, where the extension starts at the
   * last `.` of the file name unless every character before that dot is also a dot.
   */
  function SplitExtRoot(p: string): string {
    var sepIndex := RFind(p, '/');
    var dotIndex := RFind(p, '.');
    if dotIndex > sepIndex && exists k :: sepIndex + 1 <= k < dotIndex && p[k] != '.'
    then p[..dotIndex]
    else p
  }

  /** A name without a dot has no extension. */
  lemma SplitExtRootNoDot(p: string)
    requires '.' !in p
    ensures SplitExtRoot(p) == p
  {
  }

  /** `name.ext` loses exactly `.ext` when `ext` has no dot and `name` is not all dots. */
  lemma SplitExtRootDropsExtension(name: string, ext: string)
    requires '/' !in name && '/' !in ext && '.' !in ext
    requires exists k :: 0 <= k < |name| && name[k] != '.'
    ensures SplitExtRoot(name + "." + ext) == name
  {
    var p := name + "." + ext;
    var d := RFind(p, '.');
    var s := RFind(p, '/');
    assert p[|name|] == '.';
    assert forall i :: |name| < i < |p| ==> p[i] == ext[i - |name| - 1];
    assert '/' !in p;
    var k :| 0 <= k < |name| && name[k] != '.';
    assert p[k] == name[k];
    assert p[..d] == name;
  }

  /** The root is a prefix of the name. */
  lemma SplitExtRootIsPrefix(p: string)
    ensures |SplitExtRoot(p)| <= |p| && p[..|SplitExtRoot(p)|] == SplitExtRoot(p)
  {
  }
}
