/**
  Comment handling of lib/numdiff/__init__.py: `Main.iscomment`, which
  decides whether a line is skipped, and `CFile`, which reads a file
  line by line, counts every line, drops comments and, with `ignore_space`,
  collapses the white space of what it yields.

  The file object is the sequence of its lines. The `ignore_matching_lines`
  matcher (`re.compile(...).search` built from `-I` patterns, or
  `lambda x: None`) is a parameter.
 */
module CommentFilter {
  import opened Wrappers
  import opened Strings

  // ---------------------------------------------------------------------------
  // Main.iscomment
  // ---------------------------------------------------------------------------

  /**
    The `cchars` entry of `Main.optdict`: absent, or set from
    `--comment-char`, whose own default is `None`.
   */
  datatype CommentChars = Unset | Given(chars: Option<string>)

  /** `self.optdict.get('cchars', '#')`. */
  function CommentPrefix(c: CommentChars): Option<string> {
    match c
    case Unset => Some("#")
    case Given(chars) => chars
  }

  /**
    `Main.iscomment(line)`: the comment prefix is set, not empty, and starts
    the line; or the ignore-matching matcher hits.
   */
  predicate IsComment(c: CommentChars, ignoreMatching: string -> bool, line: string) {
    (CommentPrefix(c).Some? && CommentPrefix(c).value != "" && StartsWith(line, CommentPrefix(c).value))
    || ignoreMatching(line)
  }

  /** `Main.__init__` sets `ignore_matching_lines` to `lambda x: None`, which never hits. */
  function NoMatch(line: string): bool {
    false
  }

  /** Without a `cchars` entry, a line is a comment exactly when it starts with `#`. */
  lemma CommentDefault(line: string)
    ensures IsComment(Unset, NoMatch, line) <==> line != [] && line[0] == '#'
  {
    if line != [] && line[0] == '#' {
      assert line[..1] == "#";
    }
  }

  /** `--comment-char` left at `None`, or set to the empty string, tests no prefix. */
  lemma NoPrefixOnlyMatcher(c: CommentChars, ignoreMatching: string -> bool, line: string)
    requires c == Given(None) || c == Given(Some(""))
    ensures IsComment(c, ignoreMatching, line) <==> ignoreMatching(line)
  {
  }

  /** A line the matcher hits is a comment whatever the prefix. */
  lemma MatcherDecides(c: CommentChars, ignoreMatching: string -> bool, line: string)
    requires ignoreMatching(line)
    ensures IsComment(c, ignoreMatching, line)
  {
  }

  /**
    With a prefix `p` given, every line that starts with `p` is a comment, and
    without a matcher no other line is.
   */
  lemma GivenPrefix(p: string, line: string, rest: string)
    requires p != ""
    ensures IsComment(Given(Some(p)), NoMatch, p + rest)
    ensures IsComment(Given(Some(p)), NoMatch, line) <==> StartsWith(line, p)
  {
    assert (p + rest)[..|p|] == p;
  }

  // ---------------------------------------------------------------------------
  // CFile
  // ---------------------------------------------------------------------------

  /** `" ".join(CFile.ws.split(i.strip()))`. */
  function Normalized(s: string): string {
    Join(" ", SplitRuns(Strip(s)))
  }

  /** The normalised line is `" ".join(s.split())`: its fields, joined by single blanks. */
  lemma NormalizedIsSplitJoin(s: string)
    ensures Normalized(s) == Join(" ", WsSplit(s))
  {
    var r := Strip(s);
    WsSplitOfStrip(s);
    if r == [] {
      SplitOfEmpty(r);
      assert WsSplit(r) == [];
    } else {
      SplitRunsFields(r);
    }
  }

  /** Normalising keeps the fields of the line... */
  lemma NormalizedFields(s: string)
    ensures WsSplit(Normalized(s)) == WsSplit(s)
  {
    NormalizedIsSplitJoin(s);
    WsSplitFields(s);
    WsSplitJoin(WsSplit(s));
  }

  /** ... so it changes no visible character... */
  lemma NormalizedKeepsText(s: string)
    ensures Visible(Normalized(s)) == Visible(s)
  {
    NormalizedIsSplitJoin(s);
    WsSplitFields(s);
    VisibleJoin(WsSplit(s));
    WsSplitKeepsText(s);
  }

  /** ... and normalising twice is normalising once. */
  lemma NormalizedIdempotent(s: string)
    ensures Normalized(Normalized(s)) == Normalized(s)
  {
    NormalizedIsSplitJoin(Normalized(s));
    NormalizedFields(s);
    NormalizedIsSplitJoin(s);
  }

  /** What `CFile.__iter__` yields for one line that is not a comment. */
  function Shown(i: string, ignoreSpace: bool): string {
    if ignoreSpace then Normalized(i) else i
  }

  /** Everything `CFile.__iter__` yields for the lines `lines`, in order. */
  function Yielded(lines: seq<string>, isComment: string -> bool, ignoreSpace: bool): (r: seq<string>)
    ensures |r| <= |lines|
  {
    if lines == [] then []
    else (if isComment(lines[0]) then [] else [Shown(lines[0], ignoreSpace)]) + Yielded(lines[1..], isComment, ignoreSpace)
  }

  /**
    The output is the comprehension `[Shown(i) for i in lines if not
    iscomment(i)]`: the k-th line yielded shows the k-th line that is not a comment.
   */
  lemma {:induction false} YieldedShowsKept(lines: seq<string>, isComment: string -> bool, ignoreSpace: bool)
    ensures |Yielded(lines, isComment, ignoreSpace)| == |Kept(lines, isComment)|
    ensures forall k :: 0 <= k < |Kept(lines, isComment)| ==>
      Yielded(lines, isComment, ignoreSpace)[k] == Shown(Kept(lines, isComment)[k], ignoreSpace)
  {
    if lines != [] {
      YieldedShowsKept(lines[1..], isComment, ignoreSpace);
    }
  }

  /** Without `ignore_space`, the lines come through verbatim: exactly the lines that are not comments. */
  lemma YieldedVerbatim(lines: seq<string>, isComment: string -> bool, x: string)
    ensures x in Yielded(lines, isComment, false) <==> x in lines && !isComment(x)
  {
    YieldedShowsKept(lines, isComment, false);
    assert Yielded(lines, isComment, false) == Kept(lines, isComment);
    KeptExactly(lines, isComment, x);
  }

  /** Reading a file in two parts yields what reading it whole does. */
  lemma {:induction false} YieldedAppend(a: seq<string>, b: seq<string>, isComment: string -> bool, ignoreSpace: bool)
    ensures Yielded(a + b, isComment, ignoreSpace) == Yielded(a, isComment, ignoreSpace) + Yielded(b, isComment, ignoreSpace)
  {
    if a == [] {
      assert a + b == b;
    } else {
      assert (a + b)[0] == a[0];
      assert (a + b)[1..] == a[1..] + b;
      YieldedAppend(a[1..], b, isComment, ignoreSpace);
    }
  }

  /** A file of comments only yields nothing. */
  lemma {:induction false} OnlyComments(lines: seq<string>, isComment: string -> bool, ignoreSpace: bool)
    requires forall k :: 0 <= k < |lines| ==> isComment(lines[k])
    ensures Yielded(lines, isComment, ignoreSpace) == []
  {
    if lines != [] {
      OnlyComments(lines[1..], isComment, ignoreSpace);
    }
  }

  /** Reading one more line: what it shows moves from the rest to the output. */
  lemma YieldedStep(lines: seq<string>, isComment: string -> bool, ignoreSpace: bool, out: seq<string>)
    requires lines != []
    ensures !isComment(lines[0]) ==>
      out + Yielded(lines, isComment, ignoreSpace) == (out + [Shown(lines[0], ignoreSpace)]) + Yielded(lines[1..], isComment, ignoreSpace)
    ensures isComment(lines[0]) ==>
      out + Yielded(lines, isComment, ignoreSpace) == out + Yielded(lines[1..], isComment, ignoreSpace)
  {
    var y := Yielded(lines[1..], isComment, ignoreSpace);
    if isComment(lines[0]) {
      assert [] + y == y;
    } else {
      assert out + ([Shown(lines[0], ignoreSpace)] + y) == (out + [Shown(lines[0], ignoreSpace)]) + y;
    }
  }

  /**
    `CFile(fileObj, iscomment, ignore_space)`: `rest` holds the lines of the
    file object not read yet, `line` counts the lines read.
   */
  class CFile {
    var rest: seq<string>
    const isComment: string -> bool
    const ignoreSpace: bool
    var line: nat

    constructor(fileObj: seq<string>, isComment: string -> bool, ignoreSpace: bool := false)
      ensures rest == fileObj && line == 0
      ensures this.isComment == isComment && this.ignoreSpace == ignoreSpace
    {
      rest := fileObj;
      this.isComment := isComment;
      this.ignoreSpace := ignoreSpace;
      line := 0;
    }

    /**
      Runs `__iter__` to the end: every line read is counted, comments are
      dropped, the others yielded as `Shown` says.
     */
    method Iterate() returns (out: seq<string>)
      modifies this
      ensures out == Yielded(old(rest), isComment, ignoreSpace)
      ensures line == old(line) + |old(rest)|
      ensures rest == []
    {
      out := [];
      while rest != []
        invariant Yielded(old(rest), isComment, ignoreSpace) == out + Yielded(rest, isComment, ignoreSpace)
        invariant line + |rest| == old(line) + |old(rest)|
        decreases |rest|
      {
        var i := rest[0];
        YieldedStep(rest, isComment, ignoreSpace, out);
        rest := rest[1..];
        line := line + 1;
        if isComment(i) {
          continue;
        }
        out := out + [Shown(i, ignoreSpace)];
      }
    }
  }
}
