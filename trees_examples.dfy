/**
  The doctests of `Main.shorttree` (lib/numdiff/__init__.py), first with the
  default matcher that excludes nothing, then with `re.compile(r'\.svn').match`.
  The arguments are parameters fixed by the preconditions, so that the
  verifier reasons about their names rather than unfolding the literal
  strings at every use, and the expected paths are checked one at a time.
 */
module TreesExamples {
  import opened Strings
  import opened Trees

  function NoExclude(name: string): bool {
    false
  }

  /** `re.compile(r'\.svn').match`: a match anchored at the start of the name. */
  function SvnMatch(name: string): bool {
    StartsWith(name, ".svn")
  }

  lemma DocRootKept(iDir: string, dirs: seq<string>, fnames: seq<string>)
    requires iDir == "ref/1" && dirs == ["1", ".svn"] && fnames == ["2", "3", "4"]
    ensures ShortTree(NoExclude, iDir, dirs, fnames, iDir) == ["1", ".svn", "2", "3", "4"]
  {
    KeptAll(dirs + fnames, NoExclude);
    ShortTreeAtRoot(NoExclude, iDir, dirs, fnames);
  }

  lemma DocSubdirKept(base: string, dirs: seq<string>, fnames: seq<string>, iDir: string)
    requires base == "ref/1/1" && dirs == [".svn"] && fnames == [] && iDir == "ref/1"
    ensures ShortTree(NoExclude, base, dirs, fnames, iDir) == ["1/.svn"]
  {
    var rest := "1";
    assert base == iDir + "/" + rest;
    ShortTreeBelow(NoExclude, iDir, rest, dirs, fnames);
    KeptAll(dirs + fnames, NoExclude);
    assert dirs + fnames == [".svn"];
    JoinEachPlain(rest, dirs + fnames);
    assert rest + "/" + ".svn" == "1/.svn";
  }

  /** The six paths of the `.svn` listing below `1`. */
  lemma SvnPaths(rest: string, names: seq<string>, r: seq<string>)
    requires rest == "1/.svn"
    requires names == ["text-base", "prop-base", "props", "tmp", "entries", "all-wcprops"]
    requires |r| == |names| && forall k :: 0 <= k < |r| ==> r[k] == rest + "/" + names[k]
    ensures r == ["1/.svn/text-base", "1/.svn/prop-base", "1/.svn/props", "1/.svn/tmp", "1/.svn/entries", "1/.svn/all-wcprops"]
  {
    assert r[0] == rest + "/" + names[0] == "1/.svn/text-base";
    assert r[1] == rest + "/" + names[1] == "1/.svn/prop-base";
    assert r[2] == rest + "/" + names[2] == "1/.svn/props";
    assert r[3] == rest + "/" + names[3] == "1/.svn/tmp";
    assert r[4] == rest + "/" + names[4] == "1/.svn/entries";
    assert r[5] == rest + "/" + names[5] == "1/.svn/all-wcprops";
  }

  /** The `.svn` directory below the root of the walk: `ref/1` joined with `1/.svn`. */
  lemma SvnDir(base: string, iDir: string) returns (rest: string)
    requires base == "ref/1/1/.svn" && iDir == "ref/1"
    ensures rest == "1/.svn" && base == PathJoin(iDir, rest)
  {
    rest := "1/.svn";
    assert base == iDir + "/" + rest;
  }

  lemma SvnKeptNames(rest: string, dirs: seq<string>, fnames: seq<string>)
    requires rest == "1/.svn"
    requires dirs == ["text-base", "prop-base", "props", "tmp"] && fnames == ["entries", "all-wcprops"]
    ensures JoinEach(rest, Kept(dirs + fnames, NoExclude))
         == ["1/.svn/text-base", "1/.svn/prop-base", "1/.svn/props", "1/.svn/tmp", "1/.svn/entries", "1/.svn/all-wcprops"]
  {
    var names := dirs + fnames;
    KeptAll(names, NoExclude);
    assert names == ["text-base", "prop-base", "props", "tmp", "entries", "all-wcprops"];
    JoinEachPlain(rest, names);
    SvnPaths(rest, names, JoinEach(rest, names));
  }

  lemma DocSvnKept(base: string, dirs: seq<string>, fnames: seq<string>, iDir: string)
    requires base == "ref/1/1/.svn" && iDir == "ref/1"
    requires dirs == ["text-base", "prop-base", "props", "tmp"] && fnames == ["entries", "all-wcprops"]
    ensures ShortTree(NoExclude, base, dirs, fnames, iDir)
         == ["1/.svn/text-base", "1/.svn/prop-base", "1/.svn/props", "1/.svn/tmp", "1/.svn/entries", "1/.svn/all-wcprops"]
  {
    var rest := SvnDir(base, iDir);
    var names := dirs + fnames;
    ShortTreeBelow(NoExclude, iDir, rest, dirs, fnames);
    SvnKeptNames(rest, dirs, fnames);
  }

  /** `ref/1` is not excluded: its last component is `1`. */
  lemma RootName(iDir: string)
    requires iDir == "ref/1"
    ensures Basename(iDir) == "1" && !SvnMatch(Basename(iDir))
  {
    BasenameAfterSlash("ref/", "1");
    assert iDir == "ref/" + "1";
  }

  /** The matcher drops `.svn` and keeps the one-character names. */
  lemma RootNamesFiltered(dirs: seq<string>, fnames: seq<string>)
    requires dirs == ["1", ".svn"] && fnames == ["2", "3", "4"]
    ensures Kept(dirs + fnames, SvnMatch) == ["1", "2", "3", "4"]
  {
    var names := dirs + fnames;
    assert names == ["1", ".svn", "2", "3", "4"];
    var tail := names[2..];
    assert tail == ["2", "3", "4"];
    KeptAll(tail, SvnMatch);
    assert names[1..][1..] == tail;
  }

  lemma DocRootFiltered(iDir: string, dirs: seq<string>, fnames: seq<string>)
    requires iDir == "ref/1" && dirs == ["1", ".svn"] && fnames == ["2", "3", "4"]
    ensures ShortTree(SvnMatch, iDir, dirs, fnames, iDir) == ["1", "2", "3", "4"]
  {
    RootName(iDir);
    ShortTreeAtRoot(SvnMatch, iDir, dirs, fnames);
    RootNamesFiltered(dirs, fnames);
  }

  /** The sub-directory's only entry is `.svn`, which the matcher drops. */
  lemma SvnOnlyFiltered(names: seq<string>)
    requires names == [".svn"]
    ensures Kept(names, SvnMatch) == []
  {
    assert SvnMatch(names[0]);
    assert names[1..] == [];
  }

  /** The sub-directory `1` is not excluded. */
  lemma SubdirName(base: string, iDir: string, rest: string)
    requires base == "ref/1/1" && iDir == "ref/1" && rest == "1"
    ensures base == PathJoin(iDir, rest) && !SvnMatch(Basename(base))
  {
    assert base == iDir + "/" + rest;
    BasenameAfterSlash("ref/1/", "1");
    assert base == "ref/1/" + "1";
  }

  lemma DocSubdirFiltered(base: string, dirs: seq<string>, fnames: seq<string>, iDir: string)
    requires base == "ref/1/1" && dirs == [".svn"] && fnames == [] && iDir == "ref/1"
    ensures ShortTree(SvnMatch, base, dirs, fnames, iDir) == []
  {
    SubdirName(base, iDir, "1");
    ShortTreeBelow(SvnMatch, iDir, "1", dirs, fnames);
    assert dirs + fnames == [".svn"];
    SvnOnlyFiltered(dirs + fnames);
  }

  lemma DocSvnFiltered(base: string, dirs: seq<string>, fnames: seq<string>, iDir: string)
    requires base == "ref/1/1/.svn" && iDir == "ref/1"
    requires dirs == ["text-base", "prop-base", "props", "tmp"] && fnames == ["entries", "all-wcprops"]
    ensures ShortTree(SvnMatch, base, dirs, fnames, iDir) == []
  {
    BasenameAfterSlash("ref/1/1/", ".svn");
    assert base == "ref/1/1/" + ".svn";
  }
}
