/**
  The older stand-alone tool numdiff.py: a bounded history buffer
  (`RrList`), the context reporter (`DiffContext`), which writes to an
  error stream, and the line-by-line comparison `NumDiff.compare`.

  The stream `reportTo` is the sequence `log` of the strings written to it.
  The file objects are sequences of lines. `float()` is the parameter
  `parse` (`None` where it raises `ValueError`), numbers are exact `real`s.
 */
module LegacyNumDiff {
  import opened Wrappers
  import opened Strings
  import opened Lexical
  import CommentFilter

  function Min(a: int, b: int): int {
    if a <= b then a else b
  }

  // ---------------------------------------------------------------------------
  // RrList
  // ---------------------------------------------------------------------------

  /** Python's `s[start:]`: a negative start counts from the end; both are clamped to the sequence. */
  function SliceFrom<T>(s: seq<T>, start: int): (r: seq<T>)
    ensures start < 0 ==> |r| == Min(-start, |s|) && r == s[|s| - |r|..]
    ensures start >= 0 ==> r == s[Min(start, |s|)..]
  {
    if start < 0 then
      (if |s| + start < 0 then s else s[|s| + start..])
    else s[Min(start, |s|)..]
  }

  /** The buffer after `append(item)`: `data[-maxlen+1:]`, then `item`. */
  function BufferAppend<T>(maxlen: int, data: seq<T>, item: T): (r: seq<T>)
    ensures |r| >= 1 && r[|r| - 1] == item
  {
    SliceFrom(data, -maxlen + 1) + [item]
  }

  /**
    With room for two items or more, appending keeps the last `maxlen - 1`
    items and adds the new one last, so the buffer never exceeds `maxlen`.
   */
  lemma AppendKeepsLast<T>(maxlen: int, data: seq<T>, item: T)
    requires maxlen >= 2
    ensures BufferAppend(maxlen, data, item) == data[|data| - Min(maxlen - 1, |data|)..] + [item]
    ensures |BufferAppend(maxlen, data, item)| <= maxlen
  {
  }

  /** The slice `[-0:]` keeps everything: with `maxlen == 1` the buffer only grows. */
  lemma AppendWithOneSlot<T>(data: seq<T>, item: T)
    ensures BufferAppend(1, data, item) == data + [item]
  {
  }

  /** At construction the buffer keeps the last `maxlen` items of `data`, for any positive `maxlen`. */
  lemma InitialKeepsLast<T>(maxlen: int, data: seq<T>)
    requires maxlen >= 1
    ensures |SliceFrom(data, -maxlen)| == Min(maxlen, |data|)
    ensures SliceFrom(data, -maxlen) == data[|data| - Min(maxlen, |data|)..]
  {
  }

  /** `RrList(maxlen, data)`: a list of at most `maxlen` entries (when `maxlen >= 2`). */
  class RrList<T> {
    const maxlen: int
    var data: seq<T>

    /** The promise "holds at most maxlen entries"; the code keeps it once `maxlen >= 2`. */
    predicate Valid()
      reads this
    {
      maxlen >= 2 ==> |data| <= maxlen
    }

    constructor(maxlen: int, data: Option<seq<T>>)
      ensures this.maxlen == maxlen
      ensures this.data == (if data.None? then [] else SliceFrom(data.value, -maxlen))
      ensures Valid()
    {
      this.maxlen := maxlen;
      if data.None? {
        this.data := [];
      } else {
        this.data := SliceFrom(data.value, -maxlen);
        if maxlen >= 2 {
          InitialKeepsLast(maxlen, data.value);
        }
      }
    }

    /** `append(item)`. */
    method Append(item: T)
      requires Valid()
      modifies this
      ensures data == BufferAppend(maxlen, old(data), item)
      ensures Valid()
    {
      if maxlen >= 2 {
        AppendKeepsLast(maxlen, data, item);
      }
      data := SliceFrom(data, -maxlen + 1);
      data := data + [item];
    }

    /** `list()`: a copy of the contents, never longer than `maxlen` once `maxlen >= 2`. */
    function List(): (r: seq<T>)
      requires Valid()
      reads this
      ensures r == data
      ensures maxlen >= 2 ==> |r| <= maxlen
    {
      data
    }

    /** `clear()`. */
    method Clear()
      modifies this
      ensures data == []
      ensures Valid()
    {
      data := [];
    }
  }

  method TestRrList1() returns (r: seq<int>)
    ensures r == [1, 2]
  {
    var tester := new RrList<int>(2, None);
    tester.Append(1);
    tester.Append(2);
    r := tester.List();
  }

  /** `testRrList.test2`: the initial data is cut to its last two items. */
  method TestRrList2() returns (r: seq<int>)
    ensures r == [4, 5]
  {
    var tester := new RrList<int>(2, Some([1, 2, 3, 4, 5]));
    r := tester.List();
  }

  /** `testRrList.test3`: appending to a full list drops the oldest item. */
  method TestRrList3() returns (r: seq<int>)
    ensures r == [2, 3, 4, 5, 6]
  {
    var tester := new RrList<int>(5, Some([1, 2, 3, 4, 5]));
    tester.Append(6);
    r := tester.List();
  }

  // ---------------------------------------------------------------------------
  // DiffContext
  // ---------------------------------------------------------------------------

  /** The header `report` writes before a difference. */
  function Header(n: int): string {
    "--- line " + IntToString(n) + " ---\n"
  }

  /**
    What `report(line, item1, item2)` writes, with `list` the buffered
    context: a header naming the line the context starts at and the context
    itself when there is context or `line == 1`, then both sides.
   */
  function Written(line: int, list: seq<string>, item1: string, item2: string): (r: seq<string>)
    ensures |r| == 4 || |r| == 2
    ensures |r| == 4 <==> list != [] || line == 1
    ensures |r| == 4 ==> r[0] == Header(line - |list|) && r[1] == Join("  ", list)
    ensures r[|r| - 2] == "< " + item1 && r[|r| - 1] == "> " + item2
  {
    (if list != [] || line == 1 then [Header(line - |list|), Join("  ", list)] else [])
    + ["< " + item1, "> " + item2]
  }

  /** The state of a `DiffContext`: what was written, the buffered context, the trailing counter. */
  datatype Context = Context(log: seq<string>, buffer: seq<string>, trailing: Option<int>)

  /** A line as `CFile` yields it: its text and its number in the file. */
  type Item = (string, int)

  /** One call `append(item1, item2)` on a context of `lines` lines. */
  function Step(c: Context, lines: int, item1: Item, item2: Option<string>): Context {
    if item2.Some? then Context(c.log + Written(item1.1, c.buffer, item1.0, item2.value), [], Some(1))
    else if c.trailing.Some? then
      Context(c.log + ["  " + item1.0], c.buffer, if c.trailing.value < lines then Some(c.trailing.value + 1) else None)
    else Context(c.log, BufferAppend(lines, c.buffer, item1.0), None)
  }

  /** After a difference the counter restarts at 1 and the context has been used up. */
  lemma DifferenceRestarts(c: Context, lines: int, item1: Item, item2: string)
    ensures Step(c, lines, item1, Some(item2)).trailing == Some(1)
    ensures Step(c, lines, item1, Some(item2)).buffer == []
    ensures Step(c, lines, item1, Some(item2)).log == c.log + Written(item1.1, c.buffer, item1.0, item2)
  {
  }

  /** Equal lines are buffered, never written, while no difference is being followed. */
  lemma EqualLineBuffered(c: Context, lines: int, item1: Item)
    requires c.trailing.None?
    ensures Step(c, lines, item1, None) == Context(c.log, BufferAppend(lines, c.buffer, item1.0), None)
  {
  }

  /** The buffer stays within `lines` entries when `lines >= 2`. */
  lemma StepBounded(c: Context, lines: int, item1: Item, item2: Option<string>)
    requires lines >= 2 && |c.buffer| <= lines
    ensures |Step(c, lines, item1, item2).buffer| <= lines
  {
    if item2.None? && c.trailing.None? {
      AppendKeepsLast(lines, c.buffer, item1.0);
    }
  }

  /** A sequence of calls to `append`: the pair of arguments of each. */
  type Event = (Item, Option<string>)

  /** The context after the calls `evs`, in order. */
  function Steps(c: Context, lines: int, evs: seq<Event>): Context
    decreases |evs|
  {
    if evs == [] then c
    else Step(Steps(c, lines, evs[..|evs| - 1]), lines, evs[|evs| - 1].0, evs[|evs| - 1].1)
  }

  /** The lines echoed for equal lines after a difference. */
  function Echo(evs: seq<Event>): (r: seq<string>)
    ensures |r| == |evs|
    decreases |evs|
  {
    if evs == [] then [] else Echo(evs[..|evs| - 1]) + ["  " + evs[|evs| - 1].0.0]
  }

  /** No call to `append` ever takes back what was written. */
  lemma {:induction false} StepsOnlyWrite(c: Context, lines: int, evs: seq<Event>)
    ensures |Steps(c, lines, evs).log| >= |c.log|
    ensures Steps(c, lines, evs).log[..|c.log|] == c.log
    decreases |evs|
  {
    if evs != [] {
      var d := Steps(c, lines, evs[..|evs| - 1]);
      StepsOnlyWrite(c, lines, evs[..|evs| - 1]);
      var e := Step(d, lines, evs[|evs| - 1].0, evs[|evs| - 1].1);
      assert e.log[..|d.log|] == d.log;
      assert e.log[..|c.log|] == d.log[..|d.log|][..|c.log|];
    }
  }

  /** With `lines >= 2`, the buffer stays bounded along any sequence of calls. */
  lemma {:induction false} StepsBounded(c: Context, lines: int, evs: seq<Event>)
    requires lines >= 2 && |c.buffer| <= lines
    ensures |Steps(c, lines, evs).buffer| <= lines
    decreases |evs|
  {
    if evs != [] {
      StepsBounded(c, lines, evs[..|evs| - 1]);
      StepBounded(Steps(c, lines, evs[..|evs| - 1]), lines, evs[|evs| - 1].0, evs[|evs| - 1].1);
    }
  }

  /**
    While a difference is followed, each equal line is echoed and the
    counter goes up by one, until it has reached `lines`.
   */
  lemma {:induction false} TrailingCountsUp(c: Context, lines: int, t: int, evs: seq<Event>)
    requires c.trailing == Some(t) && t + |evs| <= lines
    requires forall k :: 0 <= k < |evs| ==> evs[k].1.None?
    ensures Steps(c, lines, evs) == Context(c.log + Echo(evs), c.buffer, Some(t + |evs|))
    decreases |evs|
  {
    if evs == [] {
      assert c.log + [] == c.log;
    } else {
      var init := evs[..|evs| - 1];
      TrailingCountsUp(c, lines, t, init);
      assert c.log + Echo(init) + ["  " + evs[|evs| - 1].0.0] == c.log + Echo(evs);
    }
  }

  /** The line after the last trailing one is echoed too, and then equal lines go back to the buffer. */
  lemma TrailingEnds(c: Context, lines: int, item1: Item)
    requires c.trailing == Some(lines)
    ensures Step(c, lines, item1, None) == Context(c.log + ["  " + item1.0], c.buffer, None)
  {
  }

  /** `DiffContext(lines, cline)` writing to the stream `log`. */
  class DiffContext {
    const lines: int
    const cline: string
    var log: seq<string>
    const current: RrList<string>
    var trailing: Option<int>

    /**
      The context buffer has as many slots as context lines are wanted, and
      it holds no more than that (once there are two slots or more).
     */
    predicate Valid()
      reads this, current
    {
      current.maxlen == lines && current.Valid()
    }

    constructor(lines: int := 5, cline: string := "")
      ensures this.lines == lines && this.cline == cline
      ensures Valid() && fresh(current)
      ensures log == [] && current.data == [] && trailing == None
    {
      this.lines := lines;
      this.cline := cline;
      log := [];
      current := new RrList<string>(lines, None);
      trailing := None;
    }

    function State(): Context
      reads this, current
    {
      Context(log, current.data, trailing)
    }

    /** `append(item1, item2)`: `item2` is the other side's line when the two differ. */
    method Append(item1: Item, item2: Option<string>)
      requires Valid()
      modifies this, current
      ensures State() == Step(old(State()), lines, item1, item2)
      ensures Valid()
    {
      if item2.Some? {
        trailing := Some(1);
        Report(item1.1, item1.0, item2.value);
      } else if trailing.Some? {
        log := log + ["  " + item1.0];
        if trailing.value < lines {
          trailing := Some(trailing.value + 1);
        } else {
          trailing := None;
        }
      } else {
        current.Append(item1.0);
      }
    }

    /** `report(line, item1, item2)`. */
    method Report(line: int, item1: string, item2: string)
      requires Valid()
      modifies this, current
      ensures Valid()
      ensures log == old(log) + Written(line, old(current.data), item1, item2)
      ensures current.data == [] && trailing == old(trailing)
    {
      var list := current.List();
      if list != [] || line == 1 {
        log := log + [Header(line - |list|)];
        log := log + [Join("  ", list)];
      }
      log := log + ["< " + item1];
      log := log + ["> " + item2];
      current.Clear();
    }
  }

  // ---------------------------------------------------------------------------
  // CFile and NumDiff
  // ---------------------------------------------------------------------------

  /**
    What the older `CFile(fileObj, iscomment)` yields: each line that is not a
    comment with its number, counted over all lines read so far (`n` before `lines`).
   */
  function Numbered(lines: seq<string>, isComment: string -> bool, n: int): (r: seq<Item>)
    ensures |r| <= |lines|
  {
    if lines == [] then []
    else (if isComment(lines[0]) then [] else [(lines[0], n + 1)]) + Numbered(lines[1..], isComment, n + 1)
  }

  /** Each yielded line is the line of the file at its number, not a comment, and the numbers increase. */
  lemma {:induction false} NumberedPositions(lines: seq<string>, isComment: string -> bool, n: int)
    ensures forall k :: 0 <= k < |Numbered(lines, isComment, n)| ==>
      var it := Numbered(lines, isComment, n)[k];
      n + 1 <= it.1 <= n + |lines| && lines[it.1 - n - 1] == it.0 && !isComment(it.0)
    ensures forall i, j :: 0 <= i < j < |Numbered(lines, isComment, n)| ==>
      Numbered(lines, isComment, n)[i].1 < Numbered(lines, isComment, n)[j].1
  {
    if lines != [] {
      NumberedPositions(lines[1..], isComment, n + 1);
    }
  }

  /** The options `NumDiff` reads; `None` is a key left out. */
  datatype NumDiffOptions = NumDiffOptions(
    cchars: CommentFilter.CommentChars,
    aeps: Option<real>,
    reps: Option<real>,
    context: Option<int>)

  /** `options=None`. */
  const NoNumDiffOptions := NumDiffOptions(CommentFilter.Unset, None, None, None)

  function Abs(x: real): real {
    if x < 0.0 then -x else x
  }

  /** `NumDiff(cline, options)`. */
  class NumDiff {
    const cchars: CommentFilter.CommentChars
    const aeps: real
    const reps: real
    const context: DiffContext

    constructor(cline: string := "", options: NumDiffOptions := NoNumDiffOptions)
      ensures cchars == options.cchars
      ensures aeps == (if options.aeps.Some? then options.aeps.value else 0.00000001)
      ensures reps == (if options.reps.Some? then options.reps.value else 0.00001)
      ensures fresh(context) && fresh(context.current) && context.Valid()
      ensures context.lines == (if options.context.Some? then options.context.value else 5)
      ensures context.State() == Context([], [], None)
    {
      cchars := options.cchars;
      aeps := if options.aeps.Some? then options.aeps.value else 0.00000001;
      reps := if options.reps.Some? then options.reps.value else 0.00001;
      context := new DiffContext(if options.context.Some? then options.context.value else 5, cline);
    }

    /** `iscomment(line)`: `cchars` (default `#`) is set, not empty, and starts the line. */
    predicate IsComment(line: string) {
      CommentFilter.IsComment(cchars, CommentFilter.NoMatch, line)
    }

    /** `splitline(line)`: `line.split()`. */
    static function SplitLine(line: string): seq<string> {
      WsSplit(line)
    }

    /** `fequals`: `Numeric.allclose(a, b, reps, aeps)`. */
    predicate FEquals(a: real, b: real) {
      Abs(a - b) <= aeps + reps * Abs(b)
    }

    /**
      One pass of the token loop that `continue`s: equal tokens, or tokens of
      which one looks like a float that both parse and are close. The
      `_int` branch is never taken: `_float` matches whatever `_int` matches.
     */
    predicate TokenAgrees(t1: string, t2: string, parse: string -> Option<real>) {
      if t1 == t2 then true
      else if FloatPrefix(t1) || FloatPrefix(t2) then
        parse(t1).Some? && parse(t2).Some? && FEquals(parse(t1).value, parse(t2).value)
      else IntBranch(t1, t2)
    }

    /** The token loop ends without `break`. */
    predicate AllAgree(ts1: seq<string>, ts2: seq<string>, parse: string -> Option<real>)
      requires |ts1| == |ts2|
      decreases |ts1|
    {
      ts1 == [] || (TokenAgrees(ts1[0], ts2[0], parse) && AllAgree(ts1[1..], ts2[1..], parse))
    }

    /** `compare` reports the pair of lines `l1`, `l2` as a difference. */
    predicate Differs(l1: string, l2: string, parse: string -> Option<real>) {
      l1 != l2 &&
      (|SplitLine(l1)| != |SplitLine(l2)| || !AllAgree(SplitLine(l1), SplitLine(l2), parse))
    }

    /** The call `compare` makes on the context for the pair of lines `a`, `b`. */
    function Event(a: Item, b: Item, parse: string -> Option<real>): Event {
      (a, if Differs(a.0, b.0, parse) then Some(b.0) else None)
    }

    /** The calls for the first `k` pairs of `izip(content1, content2)`. */
    function Events(c1: seq<Item>, c2: seq<Item>, parse: string -> Option<real>, k: nat): (r: seq<Event>)
      requires k <= |c1| && k <= |c2|
      ensures |r| == k
    {
      if k == 0 then [] else Events(c1, c2, parse, k - 1) + [Event(c1[k - 1], c2[k - 1], parse)]
    }

    /** Some pair of lines up to the end of the shorter input is a difference. */
    predicate FoundError(c1: seq<Item>, c2: seq<Item>, parse: string -> Option<real>) {
      exists j :: 0 <= j < |c1| && j < |c2| && Differs(c1[j].0, c2[j].0, parse)
    }

    /** The token loop of `compare`: `true` when it runs to its end. */
    method TokensAgree(s1: seq<string>, s2: seq<string>, parse: string -> Option<real>) returns (same: bool)
      requires |s1| == |s2|
      ensures same == AllAgree(s1, s2, parse)
    {
      var k := 0;
      while k < |s1|
        invariant k <= |s1|
        invariant AllAgree(s1, s2, parse) == AllAgree(s1[k..], s2[k..], parse)
      {
        if !TokenAgrees(s1[k], s2[k], parse) {
          return false;
        }
        assert s1[k..][1..] == s1[k + 1..] && s2[k..][1..] == s2[k + 1..];
        k := k + 1;
      }
      return true;
    }

    /** One pass of the loop of `compare`: the pair is handed to the context; `true` when it differs. */
    method ComparePair(line1: Item, line2: Item, parse: string -> Option<real>) returns (differs: bool)
      requires context.Valid()
      modifies context, context.current
      ensures context.Valid()
      ensures differs == Differs(line1.0, line2.0, parse)
      ensures context.State() == Step(old(context.State()), context.lines, line1, Event(line1, line2, parse).1)
    {
      if line1.0 == line2.0 {
        context.Append(line1, None);
        return false;
      }
      var sLine1 := SplitLine(line1.0);
      var sLine2 := SplitLine(line2.0);
      if |sLine1| != |sLine2| {
        context.Append(line1, Some(line2.0));
        return true;
      }
      var same := TokensAgree(sLine1, sLine2, parse);
      if same {
        context.Append(line1, None);
      } else {
        context.Append(line1, Some(line2.0));
      }
      return !same;
    }

    /** Among the first `k` pairs, some pair is a difference: `foundError` after `k` passes. */
    predicate FoundBefore(c1: seq<Item>, c2: seq<Item>, parse: string -> Option<real>, k: nat)
      requires k <= |c1| && k <= |c2|
    {
      k > 0 && (FoundBefore(c1, c2, parse, k - 1) || Differs(c1[k - 1].0, c2[k - 1].0, parse))
    }

    /** The loop of `compare` over `izip(content1, content2)`. */
    method CompareItems(c1: seq<Item>, c2: seq<Item>, parse: string -> Option<real>) returns (foundError: bool)
      requires context.Valid()
      modifies context, context.current
      ensures context.Valid()
      ensures foundError == FoundBefore(c1, c2, parse, Min(|c1|, |c2|))
      ensures context.State() == Steps(old(context.State()), context.lines, Events(c1, c2, parse, Min(|c1|, |c2|)))
    {
      var n := Min(|c1|, |c2|);
      foundError := false;
      var k := 0;
      while k < n
        invariant k <= n
        invariant context.Valid()
        invariant foundError == FoundBefore(c1, c2, parse, k)
        invariant context.State() == Steps(old(context.State()), context.lines, Events(c1, c2, parse, k))
      {
        ghost var evs := Events(c1, c2, parse, k + 1);
        assert evs[..k] == Events(c1, c2, parse, k);
        var differs := ComparePair(c1[k], c2[k], parse);
        foundError := foundError || differs;
        k := k + 1;
      }
    }

    /**
      `compare(fileA, fileB)`: every pair of lines up to the end of the shorter
      input is handed to the context, and `NumDiffError(1)` is raised
      exactly when one of them was a difference.
     */
    method Compare(fileA: seq<string>, fileB: seq<string>, parse: string -> Option<real>) returns (r: Outcome<int>)
      requires context.Valid()
      modifies context, context.current
      ensures context.Valid()
      ensures r == Pass || r == Fail(1)
      ensures r.Fail? <==> FoundError(Numbered(fileA, IsComment, 0), Numbered(fileB, IsComment, 0), parse)
      ensures context.State() == Steps(old(context.State()), context.lines,
        Events(Numbered(fileA, IsComment, 0), Numbered(fileB, IsComment, 0), parse,
               Min(|Numbered(fileA, IsComment, 0)|, |Numbered(fileB, IsComment, 0)|)))
    {
      var content1 := Numbered(fileA, IsComment, 0);
      var content2 := Numbered(fileB, IsComment, 0);
      var foundError := CompareItems(content1, content2, parse);
      FoundBeforeIff(this, content1, content2, parse, Min(|content1|, |content2|));
      if foundError {
        r := Fail(1);
      } else {
        r := Pass;
      }
    }
  }

  /** `foundError` is set exactly when some earlier pair differs. */
  lemma {:induction false} FoundBeforeIff(d: NumDiff, c1: seq<Item>, c2: seq<Item>, parse: string -> Option<real>, k: nat)
    requires k <= |c1| && k <= |c2|
    ensures d.FoundBefore(c1, c2, parse, k) <==> exists j :: 0 <= j < k && d.Differs(c1[j].0, c2[j].0, parse)
  {
    if k > 0 {
      FoundBeforeIff(d, c1, c2, parse, k - 1);
    }
  }

  /** Lines beyond the end of the shorter input are never looked at. */
  lemma ExtraLinesIgnored(d: NumDiff, c1: seq<Item>, extra: seq<Item>, c2: seq<Item>, parse: string -> Option<real>)
    requires |c1| >= |c2|
    ensures d.FoundError(c1 + extra, c2, parse) == d.FoundError(c1, c2, parse)
    ensures d.FoundError(c2, c1 + extra, parse) == d.FoundError(c2, c1, parse)
  {
    assert forall j :: 0 <= j < |c2| ==> (c1 + extra)[j] == c1[j];
  }

  /** Two different lines with different numbers of fields are always a difference. */
  lemma TokenCountDiffers(d: NumDiff, l1: string, l2: string, parse: string -> Option<real>)
    requires l1 != l2 && |WsSplit(l1)| != |WsSplit(l2)|
    ensures d.Differs(l1, l2, parse)
  {
  }

  lemma {:induction false} AllAgreeReflexive(d: NumDiff, ts: seq<string>, parse: string -> Option<real>)
    ensures d.AllAgree(ts, ts, parse)
    decreases |ts|
  {
    if ts != [] {
      AllAgreeReflexive(d, ts[1..], parse);
    }
  }

  /** Lines with the same fields, however they are spaced, are never a difference. */
  lemma SpacingIgnored(d: NumDiff, l1: string, l2: string, parse: string -> Option<real>)
    requires WsSplit(l1) == WsSplit(l2)
    ensures !d.Differs(l1, l2, parse)
  {
    AllAgreeReflexive(d, WsSplit(l1), parse);
  }

  /** Comparing a file with itself finds no difference. */
  lemma SelfComparison(d: NumDiff, c: seq<Item>, parse: string -> Option<real>)
    ensures !d.FoundError(c, c, parse)
  {
  }

  /** How `Numbered` unfolds over three lines of which only the middle one is a comment. */
  lemma TestCfileLines(isComment: string -> bool, a: string, b: string, c: string)
    requires !isComment(a) && isComment(b) && !isComment(c)
    ensures Numbered([a, b, c], isComment, 0) == [(a, 1), (c, 3)]
  {
    assert [a, b, c][1..] == [b, c];
    assert [b, c][1..] == [c];
    assert [c][1..] == [];
    assert Numbered([c], isComment, 2) == [(c, 3)] + Numbered([], isComment, 3);
    assert Numbered([b, c], isComment, 1) == [] + Numbered([c], isComment, 2);
  }

  /** The `iscomment` of test/test.py `testCfile`: `line.startswith('!')`. */
  function Bang(line: string): bool {
    StartsWith(line, "!")
  }

  /**
    test/test.py `testCfile.test1`: with `!` starting comments, the older
    `CFile` yields the first and third lines, numbered 1 and 3. The lines are
    parameters fixed by the precondition, which keeps the literals folded.
   */
  lemma TestCfile1(a: string, b: string, c: string)
    requires a == "test\n" && b == "! hallo\n" && c == "got it?\n"
    ensures Numbered([a, b, c], Bang, 0) == [(a, 1), (c, 3)]
  {
    assert a[..1] == "t" && b[..1] == "!" && c[..1] == "g";
    TestCfileLines(Bang, a, b, c);
  }

  /** Lines whose texts agree pair by pair are never a difference, however they are numbered. */
  lemma SameTextsNoError(d: NumDiff, c1: seq<Item>, c2: seq<Item>, parse: string -> Option<real>)
    requires forall j :: 0 <= j < |c1| && j < |c2| ==> c1[j].0 == c2[j].0
    ensures !d.FoundError(c1, c2, parse)
  {
  }

  /**
    The files of test/test.py `testNumDiff.test1` under the default options:
    the `#` line is a comment, so both files yield "test" and "got it?",
    numbered 1 and 3 in the first file and 1 and 2 in the second.
   */
  lemma TestNumDiff1Lines(d: NumDiff, a: string, b: string, c: string)
    requires d.cchars == CommentFilter.Unset
    requires a == "test\n" && b == "# hallo\n" && c == "got it?\n"
    ensures Numbered([a, b, c], d.IsComment, 0) == [(a, 1), (c, 3)]
    ensures Numbered([a, c], d.IsComment, 0) == [(a, 1), (c, 2)]
  {
    CommentFilter.CommentDefault(a);
    CommentFilter.CommentDefault(b);
    CommentFilter.CommentDefault(c);
    TestCfileLines(d.IsComment, a, b, c);
    assert [a, c][1..] == [c];
    assert [c][1..] == [];
    assert Numbered([c], d.IsComment, 1) == [(c, 2)] + Numbered([], d.IsComment, 2);
  }

  /**
    test/test.py `testNumDiff.test1`: a `NumDiff` with no options compares
    "test / # hallo / got it?" with "test / got it?" and finds no difference,
    whatever `float()` makes of the fields.
   */
  method TestNumDiff1(parse: string -> Option<real>) returns (r: Outcome<int>)
    ensures r == Pass
  {
    var a, b, c := "test\n", "# hallo\n", "got it?\n";
    var tester := new NumDiff();
    TestNumDiff1Lines(tester, a, b, c);
    SameTextsNoError(tester, [(a, 1), (c, 3)], [(a, 1), (c, 2)], parse);
    r := tester.Compare([a, b, c], [a, c], parse);
  }

  /** The `_int` branch of the token loop, reached only when neither token looks like a float: it never `continue`s. */
  function IntBranch(a: string, b: string): (r: bool)
    requires !FloatPrefix(a) && !FloatPrefix(b)
    ensures !r
  {
    IntAlone(a, b);
    if IntPrefix(a) || IntPrefix(b) then (assert false; false) else false
  }

  lemma IntAlone(a: string, b: string)
    requires !FloatPrefix(a) && !FloatPrefix(b)
    ensures !IntPrefix(a) && !IntPrefix(b)
  {
    if IntPrefix(a) {
      IntPrefixIsFloatPrefix(a);
    }
    if IntPrefix(b) {
      IntPrefixIsFloatPrefix(b);
    }
  }
}
