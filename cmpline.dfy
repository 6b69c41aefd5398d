/**
  The tolerant line comparison of lib/numdiff/cmpline.py: a `CmpLine`
  keeps one text line together with the options it was built with, and
  `__cmp__` decides whether two lines are equal up to numeric tolerance
  (0) or different (1).

  The option regexes become their `search`/`split` functions, passed in
  `Options`. Python's `float()` becomes the parameter `parse`, which yields
  `None` where `float()` raises `ValueError`; numbers are exact `real`s.
 */
module LineComparison {
  import opened Wrappers
  import opened Strings
  import opened Lexical

  // ---------------------------------------------------------------------------
  // The default splitter `re.compile(r' *, *| +').split`
  // ---------------------------------------------------------------------------

  /** A separator match can start only at a blank or a comma. */
  predicate IsSeparator(c: char) {
    c == ' ' || c == ','
  }

  predicate NoSeparator(s: string) {
    forall i :: 0 <= i < |s| ==> !IsSeparator(s[i])
  }

  /** Length of the leading run of blanks (`' *'`; only the blank character). */
  function BlankRun(s: string): (k: nat)
    ensures k <= |s|
    ensures s != [] && s[0] == ' ' ==> k >= 1
  {
    if s != [] && s[0] == ' ' then 1 + BlankRun(s[1..]) else 0
  }

  /** Where the leftmost separator match starts: the first blank or comma, or `|s|`. */
  function SeparatorStart(s: string): (i: nat)
    ensures i <= |s|
    ensures i < |s| ==> IsSeparator(s[i])
  {
    if s == [] || IsSeparator(s[0]) then 0 else 1 + SeparatorStart(s[1..])
  }

  /**
    Length of the separator matched at the start of `u`. The first
    alternative `' *, *'` wins when the blanks are followed by a comma; the
    second, `' +'`, takes the blanks alone. Neither matches the empty string.
   */
  function SeparatorLength(u: string): (k: nat)
    requires u != [] && IsSeparator(u[0])
    ensures 1 <= k <= |u|
  {
    var n := BlankRun(u);
    if n < |u| && u[n] == ',' then n + 1 + BlankRun(u[n + 1..]) else n
  }

  /** `re.compile(r' *, *| +').split(s)`: the text between successive separator matches. */
  function DefaultSplit(s: string): seq<string>
    decreases |s|
  {
    var i := SeparatorStart(s);
    if i == |s| then [s]
    else [s[..i]] + DefaultSplit(s[i + SeparatorLength(s[i..])..])
  }

  lemma {:induction false} SeparatorStartClear(s: string)
    ensures NoSeparator(s[..SeparatorStart(s)])
  {
    if s != [] && !IsSeparator(s[0]) {
      SeparatorStartClear(s[1..]);
      var i := SeparatorStart(s);
      assert forall j :: 1 <= j < i ==> s[..i][j] == s[1..][..i - 1][j - 1];
    }
  }

  /** The pieces hold neither blanks nor commas, and there is always at least one. */
  lemma {:induction false} DefaultSplitPieces(s: string)
    ensures |DefaultSplit(s)| >= 1
    ensures forall k :: 0 <= k < |DefaultSplit(s)| ==> NoSeparator(DefaultSplit(s)[k])
    decreases |s|
  {
    var i := SeparatorStart(s);
    SeparatorStartClear(s);
    if i == |s| {
      assert s[..i] == s;
    } else {
      var t := s[i + SeparatorLength(s[i..])..];
      DefaultSplitPieces(t);
      var r := DefaultSplit(s);
      assert r == [s[..i]] + DefaultSplit(t);
      forall k | 0 <= k < |r|
        ensures NoSeparator(r[k])
      {
        if k > 0 {
          assert r[k] == DefaultSplit(t)[k - 1];
        }
      }
    }
  }

  lemma {:induction false} SeparatorStartAfter(x: string, w: string)
    requires NoSeparator(x) && w != [] && IsSeparator(w[0])
    ensures SeparatorStart(x + w) == |x|
  {
    if x == [] {
      assert x + w == w;
    } else {
      assert (x + w)[0] == x[0];
      assert (x + w)[1..] == x[1..] + w;
      SeparatorStartAfter(x[1..], w);
    }
  }

  /** A blank, or a comma and a blank, before a piece that does not start with a separator is one separator. */
  lemma SeparatorOfJoin(sep: string, rest: string)
    requires sep == " " || sep == ", "
    requires rest != [] && !IsSeparator(rest[0])
    ensures SeparatorLength(sep + rest) == |sep|
  {
    var u := sep + rest;
    if sep == " " {
      assert u[1..] == rest;
      assert BlankRun(u) == 1;
    } else {
      assert u[0] == ',';
      assert u[1..] == " " + rest;
      assert (" " + rest)[1..] == rest;
      assert BlankRun(u[1..]) == 1;
    }
  }

  lemma DefaultSplitStep(x: string, sep: string, rest: string)
    requires NoSeparator(x)
    requires sep == " " || sep == ", "
    requires rest != [] && !IsSeparator(rest[0])
    ensures DefaultSplit(x + sep + rest) == [x] + DefaultSplit(rest)
  {
    var s := x + sep + rest;
    assert s == x + (sep + rest);
    SeparatorStartAfter(x, sep + rest);
    assert s[..|x|] == x;
    assert s[|x|..] == sep + rest;
    SeparatorOfJoin(sep, rest);
    assert s[|x| + |sep|..] == rest;
  }

  lemma {:induction false} SeparatorStartNone(x: string)
    requires NoSeparator(x)
    ensures SeparatorStart(x) == |x|
  {
    if x != [] {
      SeparatorStartNone(x[1..]);
    }
  }

  /** A piece without separators splits into itself. */
  lemma DefaultSplitSingle(x: string)
    requires NoSeparator(x)
    ensures DefaultSplit(x) == [x]
  {
    SeparatorStartNone(x);
  }

  /**
    Splitting undoes joining with `' '` or `', '`, when every piece is
    non-empty and holds neither blanks nor commas.
   */
  lemma {:induction false} DefaultSplitJoin(sep: string, xs: seq<string>)
    requires sep == " " || sep == ", "
    requires |xs| >= 1
    requires forall k :: 0 <= k < |xs| ==> xs[k] != [] && NoSeparator(xs[k])
    ensures DefaultSplit(Join(sep, xs)) == xs
  {
    if |xs| == 1 {
      DefaultSplitSingle(xs[0]);
      assert xs == [xs[0]];
    } else {
      var rest := Join(sep, xs[1..]);
      DefaultSplitJoin(sep, xs[1..]);
      JoinHead(sep, xs[1..]);
      DefaultSplitStep(xs[0], sep, rest);
      assert xs == [xs[0]] + xs[1..];
    }
  }

  /** A join begins with its first piece. */
  lemma JoinHead(sep: string, xs: seq<string>)
    requires |xs| >= 1 && xs[0] != []
    ensures Join(sep, xs) != [] && Join(sep, xs)[0] == xs[0][0]
  {
    if |xs| > 1 {
      assert Join(sep, xs) == xs[0] + (sep + Join(sep, xs[1..]));
    }
  }

  // ---------------------------------------------------------------------------
  // CmpLine
  // ---------------------------------------------------------------------------

  /** `aeps` when the options do not give one. */
  const DefaultAeps: real := 0.00000001

  /** `reps` when the options do not give one. */
  const DefaultReps: real := 0.00001

  /**
    The entries of the options dictionary `CmpLine` reads: the two flags,
    the `ignore` pattern as its `search` (found or not), the `splitre`
    pattern as its `split`, and the two tolerances. `None` is a key left out.
   */
  datatype Options = Options(
    ignoreSpaceChange: bool,
    ignore: Option<string -> bool>,
    splitre: Option<string -> seq<string>>,
    aeps: Option<real>,
    reps: Option<real>,
    ignoreSpace: bool)

  /** `options=None`: every key left out. */
  const NoOptions := Options(false, None, None, None, None, false)

  function Abs(x: real): real {
    if x < 0.0 then -x else x
  }

  /**
    `Compare`'s first step skips the token loop. The line values are
    `value`s: stripped at construction when `ignore_space_change` is set.
   */
  class CmpLine {
    const line: string
    const value: string
    const ignore: Option<string -> bool>
    const linesplit: string -> seq<string>
    const aeps: real
    const reps: real
    const ignoreSpace: bool

    /** `CmpLine(line, options)`. */
    constructor(line: string, options: Options := NoOptions)
      ensures this.line == line
      ensures value == (if options.ignoreSpaceChange then Strip(line) else line)
      ensures ignore == options.ignore
      ensures linesplit == (if options.splitre.Some? then options.splitre.value else DefaultSplit)
      ensures aeps == (if options.aeps.Some? then options.aeps.value else DefaultAeps)
      ensures reps == (if options.reps.Some? then options.reps.value else DefaultReps)
      ensures ignoreSpace == options.ignoreSpace
    {
      this.line := line;
      value := if options.ignoreSpaceChange then Strip(line) else line;
      ignore := options.ignore;
      if options.splitre.Some? {
        linesplit := options.splitre.value;
      } else {
        linesplit := DefaultSplit;
      }
      aeps := if options.aeps.Some? then options.aeps.value else DefaultAeps;
      reps := if options.reps.Some? then options.reps.value else DefaultReps;
      ignoreSpace := options.ignoreSpace;
    }

    /** `fequals`: `numpy.allclose(a, b, reps, aeps)`, the tolerance scaled by the second value. */
    predicate FEquals(a: real, b: real) {
      Abs(a - b) <= aeps + reps * Abs(b)
    }

    /** `splitline`. */
    function SplitLine(l: string): seq<string> {
      linesplit(l)
    }

    /** The ignore pattern is set and found in both values. */
    predicate Ignored(other: CmpLine) {
      ignore.Some? && ignore.value(value) && ignore.value(other.value)
    }

    /** A token as compared: stripped when `ignore_space` is set. */
    function Prepared(t: string): string {
      if ignoreSpace then Strip(t) else t
    }

    /**
      One pass of the token loop that `continue`s: equal tokens; or, when
      either looks like a float, both parse and are close. The `_INT` branch
      is never taken, since `_FLOAT` matches whatever `_INT` matches.
     */
    predicate TokenAgrees(t1: string, t2: string, parse: string -> Option<real>) {
      var a := Prepared(t1);
      var b := Prepared(t2);
      if a == b then true
      else if FloatMatch(a) || FloatMatch(b) then
        parse(a).Some? && parse(b).Some? && FEquals(parse(a).value, parse(b).value)
      else IntBranch(a, b)
    }

    /** The token loop runs to its end: every pair agrees, the first failing pair returns 1. */
    predicate AllAgree(ts1: seq<string>, ts2: seq<string>, parse: string -> Option<real>)
      requires |ts1| == |ts2|
      decreases |ts1|
    {
      ts1 == [] || (TokenAgrees(ts1[0], ts2[0], parse) && AllAgree(ts1[1..], ts2[1..], parse))
    }

    /** What `__cmp__` returns. */
    function Verdict(other: CmpLine, parse: string -> Option<real>): (r: int)
      ensures r == 0 || r == 1
    {
      if Ignored(other) then 0
      else if value == other.value then 0
      else
        var s1 := SplitLine(value);
        var s2 := SplitLine(other.value);
        if |s1| != |s2| then 1
        else if AllAgree(s1, s2, parse) then 0
        else 1
    }

    /** `__cmp__(other)`: 0 for lines equal up to the tolerances, 1 otherwise. */
    method Compare(other: CmpLine, parse: string -> Option<real>) returns (r: int)
      ensures r == Verdict(other, parse)
    {
      if Ignored(other) {
        return 0;
      } else if value == other.value {
        return 0;
      }
      var s1 := SplitLine(value);
      var s2 := SplitLine(other.value);
      if |s1| != |s2| {
        return 1;
      }
      var k := 0;
      while k < |s1|
        invariant k <= |s1|
        invariant AllAgree(s1, s2, parse) == AllAgree(s1[k..], s2[k..], parse)
      {
        if !TokenAgrees(s1[k], s2[k], parse) {
          return 1;
        }
        assert s1[k..][1..] == s1[k + 1..] && s2[k..][1..] == s2[k + 1..];
        k := k + 1;
      }
      return 0;
    }
  }

  /** The `_INT` branch of the token loop, reached only when neither token looks like a float: it never `continue`s. */
  function IntBranch(a: string, b: string): (r: bool)
    requires !FloatMatch(a) && !FloatMatch(b)
    ensures !r
  {
    IntAlone(a, b);
    if IntMatch(a) || IntMatch(b) then (assert false; false) else false
  }

  /** `_INT` never matches a token alone: the `elif` after the `_FLOAT` test is dead. */
  lemma IntAlone(a: string, b: string)
    requires !FloatMatch(a) && !FloatMatch(b)
    ensures !IntMatch(a) && !IntMatch(b)
  {
    if IntMatch(a) {
      IntMatchIsFloatMatch(a);
    }
    if IntMatch(b) {
      IntMatchIsFloatMatch(b);
    }
  }

  /** The recursive loop agrees with "every pair agrees". */
  lemma {:induction false} AllAgreeIff(c: CmpLine, ts1: seq<string>, ts2: seq<string>, parse: string -> Option<real>)
    requires |ts1| == |ts2|
    ensures c.AllAgree(ts1, ts2, parse) <==> forall k :: 0 <= k < |ts1| ==> c.TokenAgrees(ts1[k], ts2[k], parse)
  {
    if ts1 != [] {
      AllAgreeIff(c, ts1[1..], ts2[1..], parse);
      assert forall k :: 1 <= k < |ts1| ==> ts1[1..][k - 1] == ts1[k] && ts2[1..][k - 1] == ts2[k];
    }
  }

  // ---------------------------------------------------------------------------
  // Properties of `__cmp__`
  // ---------------------------------------------------------------------------

  /** Lines the ignore pattern finds in are equal, whatever else they hold. */
  lemma IgnoredEqual(c: CmpLine, other: CmpLine, parse: string -> Option<real>)
    requires c.ignore.Some? && c.ignore.value(c.value) && c.ignore.value(other.value)
    ensures c.Verdict(other, parse) == 0
  {
  }

  /** A line is equal to every line of the same value, itself included. */
  lemma EqualValuesEqual(c: CmpLine, other: CmpLine, parse: string -> Option<real>)
    requires other.value == c.value
    ensures c.Verdict(other, parse) == 0
  {
  }

  /** Lines of different values that split into different numbers of tokens are different. */
  lemma TokenCountDiffers(c: CmpLine, other: CmpLine, parse: string -> Option<real>)
    requires !c.Ignored(other) && c.value != other.value
    requires |c.SplitLine(c.value)| != |c.SplitLine(other.value)|
    ensures c.Verdict(other, parse) == 1
  {
  }

  /**
    Two lines are equal exactly when they are ignored, have the same value,
    or split into as many tokens and every pair of tokens agrees.
   */
  lemma EqualIff(c: CmpLine, other: CmpLine, parse: string -> Option<real>)
    ensures c.Verdict(other, parse) == 0 <==>
      c.Ignored(other) || c.value == other.value ||
      (|c.SplitLine(c.value)| == |c.SplitLine(other.value)| &&
       forall k :: 0 <= k < |c.SplitLine(c.value)| ==>
         c.TokenAgrees(c.SplitLine(c.value)[k], c.SplitLine(other.value)[k], parse))
  {
    var s1 := c.SplitLine(c.value);
    var s2 := c.SplitLine(other.value);
    if |s1| == |s2| {
      AllAgreeIff(c, s1, s2, parse);
    }
  }

  /** Different tokens of which neither looks like a number never agree. */
  lemma TextTokensDiffer(c: CmpLine, t1: string, t2: string, parse: string -> Option<real>)
    requires c.Prepared(t1) != c.Prepared(t2)
    requires !FloatMatch(c.Prepared(t1)) && !FloatMatch(c.Prepared(t2))
    ensures !c.TokenAgrees(t1, t2, parse)
  {
  }

  /** A token that looks like a float but does not parse (`ValueError`) makes the pair differ. */
  lemma UnparsableDiffers(c: CmpLine, t1: string, t2: string, parse: string -> Option<real>)
    requires c.Prepared(t1) != c.Prepared(t2)
    requires parse(c.Prepared(t1)).None? || parse(c.Prepared(t2)).None?
    ensures !c.TokenAgrees(t1, t2, parse)
  {
  }

  /** Different tokens that look like floats and parse agree exactly when the numbers are close. */
  lemma NumericTokens(c: CmpLine, t1: string, t2: string, parse: string -> Option<real>)
    requires c.Prepared(t1) != c.Prepared(t2)
    requires FloatMatch(c.Prepared(t1)) || FloatMatch(c.Prepared(t2))
    requires parse(c.Prepared(t1)).Some? && parse(c.Prepared(t2)).Some?
    ensures c.TokenAgrees(t1, t2, parse) <==>
      c.FEquals(parse(c.Prepared(t1)).value, parse(c.Prepared(t2)).value)
  {
  }

  /** With `ignore_space`, tokens that differ only in surrounding white space agree. */
  lemma IgnoreSpaceTokens(c: CmpLine, t1: string, t2: string, parse: string -> Option<real>)
    requires c.ignoreSpace && Strip(t1) == Strip(t2)
    ensures c.TokenAgrees(t1, t2, parse)
  {
  }

  /**
    The tolerance is scaled by the second value only, so closeness is not
    symmetric: with the default tolerances 1 is close to 1.0000100101 but
    1.0000100101 is not close to 1.
   */
  lemma FEqualsAsymmetric(c: CmpLine)
    requires c.aeps == DefaultAeps && c.reps == DefaultReps
    ensures c.FEquals(1.0, 1.0000100101)
    ensures !c.FEquals(1.0000100101, 1.0)
  {
  }

  // ---------------------------------------------------------------------------
  // lib/numdiff/testing/test_cmpline.py
  // ---------------------------------------------------------------------------

  lemma DefaultSplitTwo(x: string, y: string)
    requires NoSeparator(x) && NoSeparator(y) && y != []
    ensures DefaultSplit(x + " " + y) == [x, y]
  {
    DefaultSplitStep(x, " ", y);
    DefaultSplitSingle(y);
  }

  lemma AllAgreeTwo(c: CmpLine, x1: string, y1: string, x2: string, y2: string, parse: string -> Option<real>)
    ensures c.AllAgree([x1, y1], [x2, y2], parse) <==> c.TokenAgrees(x1, x2, parse) && c.TokenAgrees(y1, y2, parse)
  {
    assert [x1, y1][1..] == [y1];
    assert [x2, y2][1..] == [y2];
    assert [y1][1..] == [] && [y2][1..] == [];
    assert c.AllAgree([y1], [y2], parse) == (c.TokenAgrees(y1, y2, parse) && c.AllAgree([], [], parse));
  }

  /** A token starting with a digit looks like a float. */
  lemma DigitFloat(x: string)
    requires x != [] && IsDigit(x[0])
    ensures FloatMatch(x)
  {
    assert LStrip(x) == x;
  }

  /** Different number tokens that parse to close values agree. */
  lemma CloseTokens(c: CmpLine, x: string, y: string, u: real, v: real, parse: string -> Option<real>)
    requires x != y && x != [] && IsDigit(x[0]) && !c.ignoreSpace
    requires parse(x) == Some(u) && parse(y) == Some(v) && c.FEquals(u, v)
    ensures c.TokenAgrees(x, y, parse)
  {
    DigitFloat(x);
  }

  /** 1.00000000001 is close to 1 under the default tolerances. */
  lemma DefaultClose(c: CmpLine)
    requires c.aeps == DefaultAeps && c.reps == DefaultReps
    ensures c.FEquals(1.00000000001, 1.0)
  {
  }

  /** The default splitter cuts the test's lines at the blank. */
  lemma ExampleSplits(a: CmpLine, b: CmpLine)
    requires a.value == "AA 1.00000000001" && b.value == "AA 1" && a.linesplit == DefaultSplit
    ensures a.SplitLine(a.value) == ["AA", "1.00000000001"]
    ensures a.SplitLine(b.value) == ["AA", "1"]
  {
    assert a.value == "AA" + " " + "1.00000000001";
    assert b.value == "AA" + " " + "1";
    DefaultSplitTwo("AA", "1.00000000001");
    DefaultSplitTwo("AA", "1");
  }

  /** The tokens of the test's lines agree pair by pair. */
  lemma ExampleTokens(a: CmpLine, parse: string -> Option<real>)
    requires !a.ignoreSpace && a.aeps == DefaultAeps && a.reps == DefaultReps
    requires parse("1.00000000001") == Some(1.00000000001) && parse("1") == Some(1.0)
    ensures a.AllAgree(["AA", "1.00000000001"], ["AA", "1"], parse)
  {
    AllAgreeTwo(a, "AA", "1.00000000001", "AA", "1", parse);
    DefaultClose(a);
    CloseTokens(a, "1.00000000001", "1", 1.00000000001, 1.0, parse);
  }

  /** The first assertion of the test, on the built lines. */
  lemma EqualExample(a: CmpLine, b: CmpLine, parse: string -> Option<real>)
    requires a.value == "AA 1.00000000001" && b.value == "AA 1"
    requires a.ignore == None && a.linesplit == DefaultSplit && !a.ignoreSpace
    requires a.aeps == DefaultAeps && a.reps == DefaultReps
    requires parse("1.00000000001") == Some(1.00000000001) && parse("1") == Some(1.0)
    ensures a.Verdict(b, parse) == 0
  {
    ExampleSplits(a, b);
    ExampleTokens(a, parse);
  }

  /** The second assertion of the test. */
  lemma DifferExample(a: CmpLine, c: CmpLine, parse: string -> Option<real>)
    requires a.value == "AA 1.00000000001" && c.value == "BB"
    requires a.ignore == None && a.linesplit == DefaultSplit
    ensures a.Verdict(c, parse) == 1
  {
    ExampleSplitCounts(a, c);
  }

  lemma ExampleSplitCounts(a: CmpLine, c: CmpLine)
    requires a.value == "AA 1.00000000001" && c.value == "BB" && a.linesplit == DefaultSplit
    ensures |a.SplitLine(a.value)| == 2 && |a.SplitLine(c.value)| == 1
  {
    assert a.value == "AA" + " " + "1.00000000001";
    DefaultSplitTwo("AA", "1.00000000001");
    DefaultSplitSingle("BB");
  }

  /**
    `test_compare_001`: "AA 1.00000000001" equals "AA 1" and differs from
    "BB", with `float` parsing the two numbers as expected.
   */
  method TestCompare001(parse: string -> Option<real>) returns (same: int, differ: int)
    requires parse("1.00000000001") == Some(1.00000000001) && parse("1") == Some(1.0)
    ensures same == 0 && differ == 1
  {
    var a := new CmpLine("AA 1.00000000001");
    var b := new CmpLine("AA 1");
    var c := new CmpLine("BB");
    EqualExample(a, b, parse);
    DifferExample(a, c, parse);
    same := a.Compare(b, parse);
    differ := a.Compare(c, parse);
  }
}
