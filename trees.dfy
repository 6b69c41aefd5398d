/**
  The directory-tree helpers of `Main` (lib/numdiff/__init__.py):
  `shorttree`, which turns one `os.walk` triple into names relative to the
  root of the walk, and the decision `deepcheck` takes for two entries
  present on both sides.

  Paths are `string`s with `/` as separator (`posixpath`). The `exclude`
  matcher is a parameter: `Main.__init__` sets it to `lambda x: None`, and
  the doctests replace it by `re.compile(r'\.svn').match`.
 */
module Trees {
  import opened Strings

  // ---------------------------------------------------------------------------
  // posixpath
  // ---------------------------------------------------------------------------

  /** No `/` in `s`: a single path component. */
  predicate NoSlash(s: string) {
    forall i :: 0 <= i < |s| ==> s[i] != '/'
  }

  /** Where the last component of `p` starts: just after its last `/`, or 0. */
  function NameStart(p: string): (i: nat)
    ensures i <= |p| && NoSlash(p[i..])
    ensures i == 0 || p[i - 1] == '/'
  {
    if p == [] then 0
    else if p[|p| - 1] == '/' then |p|
    else
      var i := NameStart(p[..|p| - 1]);
      assert p[i..] == p[..|p| - 1][i..] + [p[|p| - 1]];
      i
  }

  /** `os.path.split(p)[-1]`: the longest suffix of `p` without a `/`. */
  function Basename(p: string): (r: string)
    ensures NoSlash(r) && EndsWith(p, r)
    ensures |r| == |p| || p[|p| - |r| - 1] == '/'
  {
    p[NameStart(p)..]
  }

  /** `p.startswith('/')`. */
  predicate Absolute(p: string) {
    p != [] && p[0] == '/'
  }

  /** `p.endswith('/')`. */
  predicate EndsInSlash(p: string) {
    p != [] && p[|p| - 1] == '/'
  }

  /** `os.path.join(a, b)` for two components. */
  function PathJoin(a: string, b: string): string {
    if Absolute(b) then b
    else if a == "" || EndsInSlash(a) then a + b
    else a + "/" + b
  }

  /** Joining onto the empty path gives the name back. */
  lemma JoinEmpty(b: string)
    ensures PathJoin("", b) == b
  {
    assert "" + b == b;
  }

  lemma {:induction false} NameStartAfterSlash(x: string, b: string)
    requires NoSlash(b) && (x == [] || x[|x| - 1] == '/')
    ensures NameStart(x + b) == |x|
  {
    if b == [] {
      assert x + b == x;
    } else {
      assert (x + b)[|x + b| - 1] == b[|b| - 1];
      assert (x + b)[..|x + b| - 1] == x + b[..|b| - 1];
      NameStartAfterSlash(x, b[..|b| - 1]);
    }
  }

  lemma BasenameAfterSlash(x: string, b: string)
    requires NoSlash(b) && (x == [] || x[|x| - 1] == '/')
    ensures Basename(x + b) == b
  {
    NameStartAfterSlash(x, b);
    assert (x + b)[|x|..] == b;
  }

  /** `os.path.split(os.path.join(a, b))[-1] == b` for a plain name `b`. */
  lemma SplitUndoesJoin(a: string, b: string)
    requires NoSlash(b)
    ensures Basename(PathJoin(a, b)) == b
  {
    if a == "" || EndsInSlash(a) {
      BasenameAfterSlash(a, b);
    } else {
      assert a + "/" + b == (a + "/") + b;
      BasenameAfterSlash(a + "/", b);
    }
  }

  /**
    `base[i:]` with `i = len(iDir)` when `iDir` ends with the separator and
    `len(iDir) + 1` otherwise; Python's slice is empty past the end.
   */
  function Relative(base: string, iDir: string): string {
    var i := if EndsInSlash(iDir) then |iDir| else |iDir| + 1;
    if i <= |base| then base[i..] else ""
  }

  /** Stripping the root undoes joining a relative path onto it. */
  lemma RelativeUndoesJoin(iDir: string, rest: string)
    requires iDir != "" && !Absolute(rest)
    ensures Relative(PathJoin(iDir, rest), iDir) == rest
  {
    if EndsInSlash(iDir) {
      assert (iDir + rest)[|iDir|..] == rest;
    } else {
      assert (iDir + "/" + rest)[|iDir| + 1..] == rest;
    }
  }

  /** The walk's root itself has the empty relative path. */
  lemma RelativeOfRoot(iDir: string)
    ensures Relative(iDir, iDir) == ""
  {
  }

  // ---------------------------------------------------------------------------
  // shorttree
  // ---------------------------------------------------------------------------

  /** Each name joined onto one directory. */
  function JoinEach(dir: string, names: seq<string>): (r: seq<string>)
    ensures |r| == |names|
    ensures forall k :: 0 <= k < |names| ==> r[k] == PathJoin(dir, names[k])
  {
    if names == [] then [] else [PathJoin(dir, names[0])] + JoinEach(dir, names[1..])
  }

  /**
    `Main.shorttree(base, dirs, fnames, iDir)`: nothing when the directory
    `base` itself is excluded; otherwise the entries of `dirs + fnames` that
    are not excluded, in order, each joined onto the path of `base` relative
    to `iDir`.
   */
  function ShortTree(exclude: string -> bool, base: string, dirs: seq<string>, fnames: seq<string>, iDir: string)
    : (r: seq<string>)
    ensures exclude(Basename(base)) ==> r == []
    ensures !exclude(Basename(base)) ==>
      var names := Kept(dirs + fnames, exclude);
      |r| == |names| && forall k :: 0 <= k < |r| ==> r[k] == PathJoin(Relative(base, iDir), names[k])
  {
    if exclude(Basename(base)) then [] else JoinEach(Relative(base, iDir), Kept(dirs + fnames, exclude))
  }

  /**
    At the root of the walk the entries come back as they are: every name of
    `dirs + fnames` not excluded, and nothing else.
   */
  lemma ShortTreeAtRoot(exclude: string -> bool, iDir: string, dirs: seq<string>, fnames: seq<string>)
    requires !exclude(Basename(iDir))
    ensures ShortTree(exclude, iDir, dirs, fnames, iDir) == Kept(dirs + fnames, exclude)
  {
    RelativeOfRoot(iDir);
    var names := Kept(dirs + fnames, exclude);
    forall k | 0 <= k < |names|
      ensures ShortTree(exclude, iDir, dirs, fnames, iDir)[k] == names[k]
    {
      JoinEmpty(names[k]);
    }
  }

  /**
    Below the root, the last component of each returned path is the entry's
    own name, and what precedes it is the sub-directory `rest` the walk is in.
   */
  lemma ShortTreeNames(exclude: string -> bool, iDir: string, rest: string, dirs: seq<string>, fnames: seq<string>)
    requires iDir != "" && !Absolute(rest)
    requires !exclude(Basename(PathJoin(iDir, rest)))
    requires forall n :: n in dirs + fnames ==> NoSlash(n)
    ensures var r := ShortTree(exclude, PathJoin(iDir, rest), dirs, fnames, iDir);
      var names := Kept(dirs + fnames, exclude);
      |r| == |names| &&
      forall k :: 0 <= k < |r| ==> r[k] == PathJoin(rest, names[k]) && Basename(r[k]) == names[k]
  {
    RelativeUndoesJoin(iDir, rest);
    var names := Kept(dirs + fnames, exclude);
    forall k | 0 <= k < |names|
      ensures Basename(PathJoin(rest, names[k])) == names[k]
    {
      assert names[k] in names;
      KeptExactly(dirs + fnames, exclude, names[k]);
      SplitUndoesJoin(rest, names[k]);
    }
  }

  /** Below the root, the entries are joined onto the sub-directory the walk is in. */
  lemma ShortTreeBelow(exclude: string -> bool, iDir: string, rest: string, dirs: seq<string>, fnames: seq<string>)
    requires iDir != "" && !Absolute(rest)
    requires !exclude(Basename(PathJoin(iDir, rest)))
    ensures ShortTree(exclude, PathJoin(iDir, rest), dirs, fnames, iDir) == JoinEach(rest, Kept(dirs + fnames, exclude))
  {
    RelativeUndoesJoin(iDir, rest);
  }

  /** `os.path.join(dir, name)` inserts the separator between a plain directory and a relative name. */
  lemma JoinEachPlain(dir: string, names: seq<string>)
    requires dir != "" && !EndsInSlash(dir)
    requires forall k :: 0 <= k < |names| ==> !Absolute(names[k])
    ensures forall k :: 0 <= k < |names| ==> JoinEach(dir, names)[k] == dir + "/" + names[k]
  {
  }

  // ---------------------------------------------------------------------------
  // The entry kinds compared by `deepcheck`
  // ---------------------------------------------------------------------------

  /** The class `fileFactory` picks (lib/numdiff/files.py); `EmptyFile` derives from `RegularFile`. */
  datatype FileKind = RegularFile | EmptyFile | Directory

  /** `isinstance(obj, RegularFile)`. */
  predicate IsRegular(k: FileKind) {
    k == RegularFile || k == EmptyFile
  }

  /** What `deepcheck` does with an entry present on both sides. */
  datatype Action =
    | Mismatch      // "File %s while file %s", and the comparison fails
    | CompareLines  // docheck on the two files
    | Descend       // two directories: their entries come separately from the walk

  /** The `if`/`elif` at lib/numdiff/__init__.py:268-274. */
  function Decide(k1: FileKind, k2: FileKind): Action {
    if k1 != k2 && !(IsRegular(k1) && IsRegular(k2)) then Mismatch
    else if k1 != Directory then CompareLines
    else Descend
  }

  /** Two files of the regular kinds, empty or not, are compared line by line. */
  lemma RegularFilesCompared(k1: FileKind, k2: FileKind)
    ensures Decide(k1, k2) == CompareLines <==> IsRegular(k1) && IsRegular(k2)
  {
  }

  /** A mismatch occurs exactly when one side is a directory and the other is not. */
  lemma MismatchExactly(k1: FileKind, k2: FileKind)
    ensures Decide(k1, k2) == Mismatch <==> (k1 == Directory) != (k2 == Directory)
  {
  }

  /** Two directories are never compared line by line. */
  lemma DirectoriesDescend(k1: FileKind, k2: FileKind)
    ensures Decide(k1, k2) == Descend <==> k1 == Directory && k2 == Directory
  {
  }

  /** The decision does not depend on which side an entry comes from. */
  lemma DecideSymmetric(k1: FileKind, k2: FileKind)
    ensures Decide(k1, k2) == Decide(k2, k1)
  {
  }
}
