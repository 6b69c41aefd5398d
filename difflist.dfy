/**
  lib/numdiff/difflist.py: `DiffList`, the edit-list builder that merges the
  opcodes of a sequence matcher and cuts `replace` spans into bounded chunks.
 */
module DiffLists {
  import opened Wrappers

  /** The kind whose spans `prepres` cuts into chunks. */
  const Replace: string := "replace"

  /** A matcher opcode `(kind, ai, aj, bi, bj)`: the spans [ai, aj) of a and [bi, bj) of b. */
  datatype Opcode = Opcode(kind: string, ai: int, aj: int, bi: int, bj: int)

  /** The `ValueError("Elements do not match: ...")` raised by `append`, with the two opcodes. */
  datatype Mismatch = ElementsDoNotMatch(last: Opcode, val: Opcode)

  /** The `IndexError` raised by `__getitem__`/`__setitem__` for an index out of range. */
  datatype IndexError = IndexOutOfRange(index: int)

  // ---------------------------------------------------------------------------
  // prepres

  /**
    The `while` loop of `prepres` ends: no `maxchunk` or another kind returns
    at once; otherwise a chunk width below 1 never shrinks the span, so the
    loop ends only if it is not entered.
   */
  predicate Halts(op: Opcode, maxchunk: Option<int>) {
    maxchunk.None? || op.kind != Replace || maxchunk.value >= 1 || op.aj - op.ai <= maxchunk.value
  }

  /**
    The chunks the loop produces from the span (ai, aj, bi, bj): width `m` on
    both axes while more than `m` of a is left, then the rest, ending at `bj`.
   */
  function Chunks(kind: string, ai: int, aj: int, bi: int, bj: int, m: int): seq<Opcode>
    requires m >= 1 || aj - ai <= m
    decreases aj - ai
  {
    if aj - ai > m then [Opcode(kind, ai, ai + m, bi, bi + m)] + Chunks(kind, ai + m, aj, bi + m, bj, m)
    else [Opcode(kind, ai, aj, bi, bj)]
  }

  /** What `prepres(*op, maxchunk=maxchunk)` returns. */
  function Chunked(op: Opcode, maxchunk: Option<int>): seq<Opcode>
    requires Halts(op, maxchunk)
  {
    if maxchunk.None? || op.kind != Replace then [op]
    else Chunks(op.kind, op.ai, op.aj, op.bi, op.bj, maxchunk.value)
  }

  /** `DiffList.prepres`, with its loop advancing the chunk starts `_ai` and `_bi`. */
  method Prepres(op: Opcode, maxchunk: Option<int>) returns (res: seq<Opcode>)
    requires Halts(op, maxchunk)
    ensures res == Chunked(op, maxchunk)
  {
    if maxchunk.None? || op.kind != Replace {
      return [op];
    }
    var m := maxchunk.value;
    var ai, bi := op.ai, op.bi;
    res := [];
    while op.aj - ai > m
      invariant m >= 1 || op.aj - ai <= m
      invariant res + Chunks(op.kind, ai, op.aj, bi, op.bj, m) == Chunks(op.kind, op.ai, op.aj, op.bi, op.bj, m)
      decreases op.aj - ai
    {
      assert Chunks(op.kind, ai, op.aj, bi, op.bj, m)
        == [Opcode(op.kind, ai, ai + m, bi, bi + m)] + Chunks(op.kind, ai + m, op.aj, bi + m, op.bj, m);
      res := res + [Opcode(op.kind, ai, ai + m, bi, bi + m)];
      ai, bi := ai + m, bi + m;
    }
    res := res + [Opcode(op.kind, ai, op.aj, bi, op.bj)];
  }

  /** Entries `k` and `k + 1` meet on both axes. */
  predicate Meets(x: Opcode, y: Opcode) {
    x.aj == y.ai && x.bj == y.bi
  }

  /** Consecutive entries meet on both axes: no gap and no overlap. */
  predicate Chained(vals: seq<Opcode>) {
    forall k :: 0 <= k < |vals| - 1 ==> Meets(vals[k], vals[k + 1])
  }

  /**
    The chunks of a span with `m >= 1`: all of its kind, chained on both
    axes, starting at (ai, bi), ending at aj on a and at the original bj on b;
    the b-start of each chunk is as far from bi as its a-start is from ai;
    every chunk is at most `m` wide on a and all but the last exactly `m` (on
    both axes). The last chunk's b-end is always `bj`, so when b is narrower
    than a it may lie before that chunk's b-start.
   */
  lemma {:induction false} ChunksShape(kind: string, ai: int, aj: int, bi: int, bj: int, m: int)
    requires m >= 1
    ensures var r := Chunks(kind, ai, aj, bi, bj, m);
      && |r| >= 1
      && r[0].ai == ai && r[0].bi == bi
      && r[|r| - 1].aj == aj && r[|r| - 1].bj == bj
      && Chained(r)
      && (forall k :: 0 <= k < |r| ==>
            r[k].kind == kind && r[k].aj - r[k].ai <= m && r[k].bi - bi == r[k].ai - ai)
      && (forall k :: 0 <= k < |r| - 1 ==> r[k].aj - r[k].ai == m && r[k].bj - r[k].bi == m)
    decreases aj - ai
  {
    if aj - ai > m {
      ChunksShape(kind, ai + m, aj, bi + m, bj, m);
      var r' := Chunks(kind, ai + m, aj, bi + m, bj, m);
      var r := Chunks(kind, ai, aj, bi, bj, m);
      assert r == [Opcode(kind, ai, ai + m, bi, bi + m)] + r';
      assert forall k :: 1 <= k < |r| ==> r[k] == r'[k - 1];
    }
  }

  /**
    The number of chunks: for a non-empty span, the least `n` with
    `n * m >= aj - ai`, that is ceil((aj - ai) / m); otherwise one.
   */
  lemma {:induction false} ChunksCount(kind: string, ai: int, aj: int, bi: int, bj: int, m: int)
    requires m >= 1
    ensures var n := |Chunks(kind, ai, aj, bi, bj, m)|;
      (aj > ai ==> (n - 1) * m < aj - ai <= n * m && n == (aj - ai + m - 1) / m)
      && (aj <= ai ==> n == 1)
    decreases aj - ai
  {
    var n := |Chunks(kind, ai, aj, bi, bj, m)|;
    if aj - ai > m {
      ChunksCount(kind, ai + m, aj, bi + m, bj, m);
      var n' := |Chunks(kind, ai + m, aj, bi + m, bj, m)|;
      assert n == n' + 1;
      assert n * m == n' * m + m;
      assert (n - 1) * m == n' * m;
      assert (n' - 1) * m == n' * m - m;
    }
    if aj > ai {
      CeilingDivision(aj - ai, m, n);
    }
  }

  /** `n` is the ceiling of `d / m` when `(n - 1) * m < d <= n * m`. */
  lemma CeilingDivision(d: int, m: int, n: int)
    requires m >= 1 && (n - 1) * m < d <= n * m
    ensures n == (d + m - 1) / m
  {
    var q, rem := (d + m - 1) / m, (d + m - 1) % m;
    assert d + m - 1 == q * m + rem && 0 <= rem < m;
    assert (n + 1) * m == n * m + m;
    MultiplicationOrder(q, n + 1, m);
    MultiplicationOrder(n - 1, q, m);
  }

  lemma MultiplicationOrder(a: int, b: int, m: int)
    requires m >= 1
    ensures a * m < b * m <==> a < b
  {
    assert b * m - a * m == (b - a) * m;
  }

  /** `prepres` with another kind or without `maxchunk` returns the opcode itself. */
  lemma ChunkedUncut(op: Opcode, maxchunk: Option<int>)
    requires maxchunk.None? || op.kind != Replace
    ensures Chunked(op, maxchunk) == [op]
  {
  }

  /** The doctests of `prepres` and `__len__`. */
  lemma ChunkedExamples()
    ensures Chunked(Opcode(Replace, 0, 5, 2, 7), Some(2))
         == [Opcode(Replace, 0, 2, 2, 4), Opcode(Replace, 2, 4, 4, 6), Opcode(Replace, 4, 5, 6, 7)]
    ensures Chunked(Opcode("A", 0, 5, 2, 7), Some(2)) == [Opcode("A", 0, 5, 2, 7)]
  {
  }

  // ---------------------------------------------------------------------------
  // append

  /** The span an opcode gives when it continues `last`: `last`'s starts, `val`'s ends. */
  function Joined(last: Opcode, val: Opcode): Opcode {
    Opcode(last.kind, last.ai, val.aj, last.bi, val.bj)
  }

  /** The opcode `append` hands to `prepres` completes its loop (or `append` raises first). */
  predicate AppendHalts(vals: seq<Opcode>, val: Opcode, maxchunk: Option<int>) {
    if |vals| > 0 && vals[|vals| - 1].kind == val.kind then
      Meets(vals[|vals| - 1], val) ==> Halts(Joined(vals[|vals| - 1], val), maxchunk)
    else Halts(val, maxchunk)
  }

  /** The list `append(val)` leaves behind, or the `ValueError` it raises. */
  function Appended(vals: seq<Opcode>, val: Opcode, maxchunk: Option<int>): Result<seq<Opcode>, Mismatch>
    requires AppendHalts(vals, val, maxchunk)
  {
    if |vals| > 0 && vals[|vals| - 1].kind == val.kind then
      var last := vals[|vals| - 1];
      if Meets(last, val) then Success(vals[..|vals| - 1] + Chunked(Joined(last, val), maxchunk))
      else Failure(ElementsDoNotMatch(last, val))
    else Success(vals + Chunked(val, maxchunk))
  }

  /** `append` raises exactly for an opcode of the last entry's kind that does not continue it. */
  lemma AppendFails(vals: seq<Opcode>, val: Opcode, maxchunk: Option<int>)
    requires AppendHalts(vals, val, maxchunk)
    ensures Appended(vals, val, maxchunk).Failure?
        <==> |vals| > 0 && vals[|vals| - 1].kind == val.kind && !Meets(vals[|vals| - 1], val)
    ensures Appended(vals, val, maxchunk).Failure? ==>
        Appended(vals, val, maxchunk).error == ElementsDoNotMatch(vals[|vals| - 1], val)
  {
  }

  /**
    Every entry but the last is left alone; an opcode of another kind also
    keeps the last entry, and then the new entries are `prepres(val)`.
   */
  lemma AppendKeepsPrefix(vals: seq<Opcode>, val: Opcode, maxchunk: Option<int>)
    requires AppendHalts(vals, val, maxchunk) && Appended(vals, val, maxchunk).Success?
    ensures var v := Appended(vals, val, maxchunk).value;
      |vals| > 0 ==> |v| >= |vals| && v[..|vals| - 1] == vals[..|vals| - 1]
    ensures var v := Appended(vals, val, maxchunk).value;
      (|vals| == 0 || vals[|vals| - 1].kind != val.kind) ==> v == vals + Chunked(val, maxchunk)
  {
    var v := Appended(vals, val, maxchunk).value;
    if |vals| > 0 && vals[|vals| - 1].kind == val.kind {
      var j := Joined(vals[|vals| - 1], val);
      ChunkedKindAndWidth(j, maxchunk);
      assert v[..|vals| - 1] == vals[..|vals| - 1];
    }
  }

  /**
    Continuing the last entry: the entries that replace it are all of its kind
    and run from its starts to the new opcode's ends, chained on both axes.
   */
  lemma AppendMerges(vals: seq<Opcode>, val: Opcode, maxchunk: Option<int>)
    requires AppendHalts(vals, val, maxchunk)
    requires |vals| > 0 && vals[|vals| - 1].kind == val.kind && Meets(vals[|vals| - 1], val)
    ensures Appended(vals, val, maxchunk).Success?
    ensures var v := Appended(vals, val, maxchunk).value;
      var last := vals[|vals| - 1];
      var tail := v[|vals| - 1..];
      && |tail| >= 1
      && v == vals[..|vals| - 1] + tail
      && tail[0].ai == last.ai && tail[0].bi == last.bi
      && tail[|tail| - 1].aj == val.aj && tail[|tail| - 1].bj == val.bj
      && Chained(tail)
      && (forall k :: 0 <= k < |tail| ==> tail[k].kind == val.kind)
  {
    var last := vals[|vals| - 1];
    var j := Joined(last, val);
    var v := Appended(vals, val, maxchunk).value;
    assert v[|vals| - 1..] == Chunked(j, maxchunk);
    if maxchunk.Some? && j.kind == Replace && maxchunk.value >= 1 {
      ChunksShape(j.kind, j.ai, j.aj, j.bi, j.bj, maxchunk.value);
    }
  }

  /** No two adjacent entries share a kind, except within a run of `replace` chunks. */
  predicate KindsAlternate(vals: seq<Opcode>) {
    forall k :: 0 <= k < |vals| - 1 && vals[k].kind != Replace ==> vals[k].kind != vals[k + 1].kind
  }

  /** With `maxchunk` set, no `replace` entry is wider than `maxchunk` on a. */
  predicate ReplaceBounded(vals: seq<Opcode>, maxchunk: Option<int>) {
    maxchunk.Some? ==> forall k :: 0 <= k < |vals| && vals[k].kind == Replace ==> vals[k].aj - vals[k].ai <= maxchunk.value
  }

  /** The chunks of one opcode: all of its kind, and within the bound when they are `replace`. */
  lemma ChunkedKindAndWidth(op: Opcode, maxchunk: Option<int>)
    requires Halts(op, maxchunk)
    ensures var r := Chunked(op, maxchunk);
      |r| >= 1 && (forall k :: 0 <= k < |r| ==> r[k].kind == op.kind) && ReplaceBounded(r, maxchunk)
  {
    if maxchunk.Some? && op.kind == Replace {
      var m := maxchunk.value;
      if m >= 1 {
        ChunksShape(op.kind, op.ai, op.aj, op.bi, op.bj, m);
      }
    }
  }

  /**
    `append` keeps both builder invariants: merging is exhaustive outside
    `replace` runs, and `replace` entries stay within `maxchunk`.
   */
  lemma AppendPreservesInvariants(vals: seq<Opcode>, val: Opcode, maxchunk: Option<int>)
    requires AppendHalts(vals, val, maxchunk) && Appended(vals, val, maxchunk).Success?
    requires KindsAlternate(vals) && ReplaceBounded(vals, maxchunk)
    ensures KindsAlternate(Appended(vals, val, maxchunk).value)
    ensures ReplaceBounded(Appended(vals, val, maxchunk).value, maxchunk)
  {
    var v := Appended(vals, val, maxchunk).value;
    var n := |vals|;
    if n > 0 && vals[n - 1].kind == val.kind {
      var j := Joined(vals[n - 1], val);
      var c := Chunked(j, maxchunk);
      ChunkedKindAndWidth(j, maxchunk);
      assert v == vals[..n - 1] + c;
      forall k | 0 <= k < |v| - 1 && v[k].kind != Replace
        ensures v[k].kind != v[k + 1].kind
      {
        if k < n - 2 {
          assert v[k] == vals[k] && v[k + 1] == vals[k + 1];
        } else {
          assert k == n - 2;
          assert v[k] == vals[k] && v[k + 1] == c[0] && vals[k + 1].kind == c[0].kind;
        }
      }
      forall k | 0 <= k < |v| && v[k].kind == Replace && maxchunk.Some?
        ensures v[k].aj - v[k].ai <= maxchunk.value
      {
        if k < n - 1 {
          assert v[k] == vals[k];
        } else {
          assert v[k] == c[k - (n - 1)];
        }
      }
    } else {
      var c := Chunked(val, maxchunk);
      ChunkedKindAndWidth(val, maxchunk);
      assert v == vals + c;
      forall k | 0 <= k < |v| - 1 && v[k].kind != Replace
        ensures v[k].kind != v[k + 1].kind
      {
        if k < n - 1 {
          assert v[k] == vals[k] && v[k + 1] == vals[k + 1];
        } else {
          assert k == n - 1;
          assert v[k] == vals[k] && v[k + 1] == c[0];
        }
      }
      forall k | 0 <= k < |v| && v[k].kind == Replace && maxchunk.Some?
        ensures v[k].aj - v[k].ai <= maxchunk.value
      {
        if k < n {
          assert v[k] == vals[k];
        } else {
          assert v[k] == c[k - n];
        }
      }
    }
  }

  /** The chunks of one opcode are chained and span it, when `prepres` does cut it. */
  lemma ChunkedSpans(op: Opcode, maxchunk: Option<int>)
    requires Halts(op, maxchunk) && (maxchunk.Some? && op.kind == Replace ==> maxchunk.value >= 1)
    ensures var r := Chunked(op, maxchunk);
      |r| >= 1 && Chained(r) && r[0].ai == op.ai && r[0].bi == op.bi
      && r[|r| - 1].aj == op.aj && r[|r| - 1].bj == op.bj
  {
    if maxchunk.Some? && op.kind == Replace {
      ChunksShape(op.kind, op.ai, op.aj, op.bi, op.bj, maxchunk.value);
    }
  }

  /**
    Fed with opcodes that continue one another (as a sequence matcher yields
    them), the list stays chained and ends where the last opcode ends.
   */
  lemma AppendKeepsChained(vals: seq<Opcode>, val: Opcode, maxchunk: Option<int>)
    requires maxchunk.Some? ==> maxchunk.value >= 1
    requires Chained(vals) && (|vals| > 0 ==> Meets(vals[|vals| - 1], val))
    ensures AppendHalts(vals, val, maxchunk) && Appended(vals, val, maxchunk).Success?
    ensures var v := Appended(vals, val, maxchunk).value;
      Chained(v) && |v| > 0 && v[|v| - 1].aj == val.aj && v[|v| - 1].bj == val.bj
  {
    var n := |vals|;
    if n > 0 && vals[n - 1].kind == val.kind {
      var j := Joined(vals[n - 1], val);
      var c := Chunked(j, maxchunk);
      ChunkedSpans(j, maxchunk);
      var v := vals[..n - 1] + c;
      forall k | 0 <= k < |v| - 1 ensures Meets(v[k], v[k + 1]) {
        if k < n - 2 {
          assert v[k] == vals[k] && v[k + 1] == vals[k + 1];
        } else if k == n - 2 {
          assert v[k] == vals[k] && v[k + 1] == c[0] && Meets(vals[k], vals[k + 1]);
        } else {
          assert v[k] == c[k - (n - 1)] && v[k + 1] == c[k + 1 - (n - 1)];
        }
      }
    } else {
      var c := Chunked(val, maxchunk);
      ChunkedSpans(val, maxchunk);
      var v := vals + c;
      forall k | 0 <= k < |v| - 1 ensures Meets(v[k], v[k + 1]) {
        if k < n - 1 {
          assert v[k] == vals[k] && v[k + 1] == vals[k + 1];
        } else if k == n - 1 {
          assert v[k] == vals[k] && v[k + 1] == c[0];
        } else {
          assert v[k] == c[k - n] && v[k + 1] == c[k + 1 - n];
        }
      }
    }
  }

  // ---------------------------------------------------------------------------
  // extend

  /** Every `append` that `extend(xs)` performs before one raises completes. */
  predicate ExtendHalts(vals: seq<Opcode>, xs: seq<Opcode>, maxchunk: Option<int>)
    decreases |xs|
  {
    xs == [] ||
    (AppendHalts(vals, xs[0], maxchunk) &&
     match Appended(vals, xs[0], maxchunk)
     case Success(v) => ExtendHalts(v, xs[1..], maxchunk)
     case Failure(_) => true)
  }

  /** The list after a call, and whether the call returned or raised. */
  datatype Run = Run(vals: seq<Opcode>, outcome: Outcome<Mismatch>)

  /**
    `extend(xs)`: `append` of each opcode in order; the first `ValueError`
    propagates and the appends before it stay done.
   */
  function Extended(vals: seq<Opcode>, xs: seq<Opcode>, maxchunk: Option<int>): Run
    requires ExtendHalts(vals, xs, maxchunk)
    decreases |xs|
  {
    if xs == [] then Run(vals, Pass)
    else
      match Appended(vals, xs[0], maxchunk)
      case Success(v) => Extended(v, xs[1..], maxchunk)
      case Failure(e) => Run(vals, Fail(e))
  }

  lemma {:induction false} ExtendHaltsSplit(vals: seq<Opcode>, xs: seq<Opcode>, ys: seq<Opcode>, maxchunk: Option<int>)
    requires ExtendHalts(vals, xs + ys, maxchunk)
    ensures ExtendHalts(vals, xs, maxchunk)
    ensures Extended(vals, xs, maxchunk).outcome.Pass? ==> ExtendHalts(Extended(vals, xs, maxchunk).vals, ys, maxchunk)
    decreases |xs|
  {
    if xs != [] {
      assert (xs + ys)[0] == xs[0] && (xs + ys)[1..] == xs[1..] + ys;
      if Appended(vals, xs[0], maxchunk).Success? {
        ExtendHaltsSplit(Appended(vals, xs[0], maxchunk).value, xs[1..], ys, maxchunk);
      }
    } else {
      assert xs + ys == ys;
    }
  }

  /**
    Extending by `xs + ys` is extending by `xs` and then, unless that raised,
    by `ys`: `extend` is exactly repeated `append`, however the input is cut.
   */
  lemma {:induction false} ExtendedConcat(vals: seq<Opcode>, xs: seq<Opcode>, ys: seq<Opcode>, maxchunk: Option<int>)
    requires ExtendHalts(vals, xs + ys, maxchunk)
    ensures ExtendHalts(vals, xs, maxchunk)
    ensures var first := Extended(vals, xs, maxchunk);
      if first.outcome.Pass? then
        ExtendHalts(first.vals, ys, maxchunk) && Extended(vals, xs + ys, maxchunk) == Extended(first.vals, ys, maxchunk)
      else Extended(vals, xs + ys, maxchunk) == first
    decreases |xs|
  {
    ExtendHaltsSplit(vals, xs, ys, maxchunk);
    if xs == [] {
      assert xs + ys == ys;
    } else {
      assert (xs + ys)[0] == xs[0] && (xs + ys)[1..] == xs[1..] + ys;
      match Appended(vals, xs[0], maxchunk)
      case Success(v) =>
        ExtendedConcat(v, xs[1..], ys, maxchunk);
      case Failure(e) =>
    }
  }

  /**
    `extend(xs)` raises at `xs[i]`: the appends of `xs[..i]` all pass and
    leave the final list, and appending `xs[i]` to it raises the error reported.
   */
  predicate FailsAt(vals: seq<Opcode>, xs: seq<Opcode>, maxchunk: Option<int>, i: int)
    requires ExtendHalts(vals, xs, maxchunk)
  {
    && 0 <= i < |xs|
    && ExtendHalts(vals, xs[..i], maxchunk)
    && Extended(vals, xs[..i], maxchunk).outcome.Pass?
    && Extended(vals, xs[..i], maxchunk).vals == Extended(vals, xs, maxchunk).vals
    && AppendHalts(Extended(vals, xs, maxchunk).vals, xs[i], maxchunk)
    && Extended(vals, xs, maxchunk).outcome.Fail?
    && Appended(Extended(vals, xs, maxchunk).vals, xs[i], maxchunk) == Failure(Extended(vals, xs, maxchunk).outcome.error)
  }

  /** A raising `extend` leaves the list as the appends before the failing one made it. */
  lemma {:induction false} ExtendedFailure(vals: seq<Opcode>, xs: seq<Opcode>, maxchunk: Option<int>)
    requires ExtendHalts(vals, xs, maxchunk) && Extended(vals, xs, maxchunk).outcome.Fail?
    ensures exists i :: FailsAt(vals, xs, maxchunk, i)
    decreases |xs|
  {
    match Appended(vals, xs[0], maxchunk)
    case Success(v) =>
      ExtendedFailure(v, xs[1..], maxchunk);
      var i :| FailsAt(v, xs[1..], maxchunk, i);
      assert xs[..i + 1][0] == xs[0] && xs[..i + 1][1..] == xs[1..][..i];
      assert xs[1..][i] == xs[i + 1];
      assert FailsAt(vals, xs, maxchunk, i + 1);
    case Failure(e) =>
      assert xs[..0] == [];
      assert Extended(vals, xs, maxchunk) == Run(vals, Fail(e));
      assert FailsAt(vals, xs, maxchunk, 0);
  }

  // ---------------------------------------------------------------------------
  // indexing

  /** Python's reading of index `i` into a list of length `n`: negative counts from the end. */
  function Position(n: nat, i: int): Option<nat> {
    if 0 <= i < n then Some(i) else if i < 0 && 0 <= n + i then Some(n + i) else None
  }

  /** `vals[i]`, or the `IndexError`. */
  function Item(vals: seq<Opcode>, i: int): (r: Result<Opcode, IndexError>)
    ensures r.Success? <==> -|vals| <= i < |vals|
    ensures r.Success? ==> r.value == vals[if i >= 0 then i else |vals| + i]
    ensures r.Failure? ==> r.error == IndexOutOfRange(i)
  {
    match Position(|vals|, i)
    case Some(p) => Success(vals[p])
    case None => Failure(IndexOutOfRange(i))
  }

  /** `vals[i] = x`: the list with the one entry at `i` replaced, or the `IndexError`. */
  function Replaced(vals: seq<Opcode>, i: int, x: Opcode): Result<seq<Opcode>, IndexError> {
    match Position(|vals|, i)
    case Some(p) => Success(vals[p := x])
    case None => Failure(IndexOutOfRange(i))
  }

  /**
    After `vals[i] = x`, reading index `i` gives `x`, the length is the same,
    and any index naming another position reads as before.
   */
  lemma ReplacedThenItem(vals: seq<Opcode>, i: int, x: Opcode, j: int)
    requires Replaced(vals, i, x).Success?
    ensures var v := Replaced(vals, i, x).value;
      |v| == |vals| && Item(v, i) == Success(x)
      && (Position(|vals|, j) != Position(|vals|, i) ==> Item(v, j) == Item(vals, j))
  {
  }

  // ---------------------------------------------------------------------------
  // the builder object

  /** `DiffList`: the opcode list `vals` it updates in place, and its chunk width. */
  class DiffList {
    var vals: seq<Opcode>
    const maxchunk: Option<int>

    /** `DiffList(maxchunk=20)`; `None` switches chunking off. */
    constructor (maxchunk: Option<int> := Some(20))
      ensures vals == [] && this.maxchunk == maxchunk
    {
      vals := [];
      this.maxchunk := maxchunk;
    }

    /** `append(val)`: merge into the last entry or add, through `prepres`; or raise. */
    method Append(val: Opcode) returns (outcome: Outcome<Mismatch>)
      requires AppendHalts(vals, val, maxchunk)
      modifies this
      ensures match Appended(old(vals), val, maxchunk)
        case Success(v) => outcome == Pass && vals == v
        case Failure(e) => outcome == Fail(e) && vals == old(vals)
    {
      var res: Opcode;
      if |vals| > 0 && vals[|vals| - 1].kind == val.kind {
        var last := vals[|vals| - 1];
        if last.aj == val.ai && last.bj == val.bi {
          res := Opcode(last.kind, last.ai, val.aj, last.bi, val.bj);
          vals := vals[..|vals| - 1];
        } else {
          return Fail(ElementsDoNotMatch(last, val));
        }
      } else {
        res := val;
      }
      var chunks := Prepres(res, maxchunk);
      vals := vals + chunks;
      outcome := Pass;
    }

    /** `extend(xs)`: `append` each opcode in turn; the first `ValueError` escapes. */
    method Extend(xs: seq<Opcode>) returns (outcome: Outcome<Mismatch>)
      requires ExtendHalts(vals, xs, maxchunk)
      modifies this
      ensures Run(vals, outcome) == Extended(old(vals), xs, maxchunk)
    {
      var i := 0;
      while i < |xs|
        invariant 0 <= i <= |xs|
        invariant ExtendHalts(vals, xs[i..], maxchunk)
        invariant Extended(old(vals), xs, maxchunk) == Extended(vals, xs[i..], maxchunk)
      {
        assert xs[i..][0] == xs[i] && xs[i..][1..] == xs[i + 1..];
        var o := Append(xs[i]);
        if o.Fail? {
          return o;
        }
        i := i + 1;
      }
      outcome := Pass;
    }

    /** `self[i]`. */
    function Get(i: int): (r: Result<Opcode, IndexError>)
      reads this
      ensures r.Success? <==> -|vals| <= i < |vals|
      ensures r.Success? ==> r.value == vals[if i >= 0 then i else |vals| + i]
      ensures r.Failure? ==> r.error == IndexOutOfRange(i)
    {
      Item(vals, i)
    }

    /** `self[i] = x`. */
    method Set(i: int, x: Opcode) returns (outcome: Outcome<IndexError>)
      modifies this
      ensures match Replaced(old(vals), i, x)
        case Success(v) => outcome == Pass && vals == v
        case Failure(e) => outcome == Fail(e) && vals == old(vals)
    {
      var p := Position(|vals|, i);
      if p.None? {
        return Fail(IndexOutOfRange(i));
      }
      vals := vals[p.value := x];
      outcome := Pass;
    }

    /** `len(self)`. */
    function Length(): (n: nat)
      reads this
      ensures n == |vals|
    {
      |vals|
    }
  }

  /** The first doctest of `append` (maxchunk=5): two merges, the second one cut in two. */
  lemma AppendDocExample()
    ensures ExtendHalts([], [Opcode(Replace, 0, 3, 0, 3), Opcode(Replace, 3, 5, 3, 5), Opcode(Replace, 5, 9, 5, 9)], Some(5))
    ensures Extended([], [Opcode(Replace, 0, 3, 0, 3), Opcode(Replace, 3, 5, 3, 5), Opcode(Replace, 5, 9, 5, 9)], Some(5))
         == Run([Opcode(Replace, 0, 5, 0, 5), Opcode(Replace, 5, 9, 5, 9)], Pass)
  {
    var a, b, c := Opcode(Replace, 0, 3, 0, 3), Opcode(Replace, 3, 5, 3, 5), Opcode(Replace, 5, 9, 5, 9);
    var v1, v2, v3 := [a], [Opcode(Replace, 0, 5, 0, 5)], [Opcode(Replace, 0, 5, 0, 5), Opcode(Replace, 5, 9, 5, 9)];
    assert Chunks(Replace, 0, 9, 0, 9, 5) == v3;
    assert Chunked(a, Some(5)) == [a];
    assert Chunked(Joined(a, b), Some(5)) == v2;
    assert Appended([], a, Some(5)).Success? && Appended([], a, Some(5)).value == v1;
    assert Appended(v1, b, Some(5)).Success? && Appended(v1, b, Some(5)).value == v2;
    assert Appended(v2, c, Some(5)).Success? && Appended(v2, c, Some(5)).value == v3;
    assert [a, b, c][1..] == [b, c] && [b, c][1..] == [c] && [c][1..] == [];
    assert ExtendHalts(v3, [], Some(5));
    assert ExtendHalts(v2, [c], Some(5));
    assert ExtendHalts(v1, [b, c], Some(5));
    assert Extended(v2, [c], Some(5)) == Run(v3, Pass);
    assert Extended(v1, [b, c], Some(5)) == Run(v3, Pass);
  }

  /** The second doctest of `append`: kinds alternate, so nothing merges. */
  lemma AppendDocExampleAlternating()
    ensures ExtendHalts([], [Opcode("equal", 0, 5, 0, 5), Opcode(Replace, 5, 6, 5, 6), Opcode("equal", 6, 8, 6, 8)], Some(20))
    ensures Extended([], [Opcode("equal", 0, 5, 0, 5), Opcode(Replace, 5, 6, 5, 6), Opcode("equal", 6, 8, 6, 8)], Some(20))
         == Run([Opcode("equal", 0, 5, 0, 5), Opcode(Replace, 5, 6, 5, 6), Opcode("equal", 6, 8, 6, 8)], Pass)
  {
    var a, b, c := Opcode("equal", 0, 5, 0, 5), Opcode(Replace, 5, 6, 5, 6), Opcode("equal", 6, 8, 6, 8);
    assert Chunked(a, Some(20)) == [a] && Chunked(b, Some(20)) == [b] && Chunked(c, Some(20)) == [c];
    assert Appended([], a, Some(20)).Success? && Appended([], a, Some(20)).value == [a];
    assert Appended([a], b, Some(20)).Success? && Appended([a], b, Some(20)).value == [a, b];
    assert Appended([a, b], c, Some(20)).Success? && Appended([a, b], c, Some(20)).value == [a, b, c];
    assert [a, b, c][1..] == [b, c] && [b, c][1..] == [c] && [c][1..] == [];
    assert ExtendHalts([a, b, c], [], Some(20));
    assert ExtendHalts([a, b], [c], Some(20));
    assert ExtendHalts([a], [b, c], Some(20));
    assert Extended([a, b], [c], Some(20)) == Run([a, b, c], Pass);
    assert Extended([a], [b, c], Some(20)) == Run([a, b, c], Pass);
  }

  /** The doctest of `extend`: two contiguous `equal` spans become one. */
  lemma ExtendDocExample()
    ensures ExtendHalts([], [Opcode("equal", 0, 3, 0, 3), Opcode("equal", 3, 5, 3, 5)], Some(20))
    ensures Extended([], [Opcode("equal", 0, 3, 0, 3), Opcode("equal", 3, 5, 3, 5)], Some(20))
         == Run([Opcode("equal", 0, 5, 0, 5)], Pass)
  {
    var a, b := Opcode("equal", 0, 3, 0, 3), Opcode("equal", 3, 5, 3, 5);
    assert Chunked(a, Some(20)) == [a] && Chunked(Joined(a, b), Some(20)) == [Opcode("equal", 0, 5, 0, 5)];
    assert Appended([], a, Some(20)).Success? && Appended([], a, Some(20)).value == [a];
    assert Appended([a], b, Some(20)).Success? && Appended([a], b, Some(20)).value == [Opcode("equal", 0, 5, 0, 5)];
    assert [a, b][1..] == [b] && [b][1..] == [];
    assert Extended([a], [b], Some(20)) == Run([Opcode("equal", 0, 5, 0, 5)], Pass);
  }

  /** The doctests of `__getitem__` and `__setitem__` on `extend([('replace', 0, 5, 0, 5)])` with maxchunk=2. */
  lemma IndexDocExample()
    ensures var v := Chunked(Opcode(Replace, 0, 5, 0, 5), Some(2));
      Item(v, 0) == Success(Opcode(Replace, 0, 2, 0, 2))
      && Replaced(v, 2, Opcode("A", 4, 5, 4, 5))
         == Success([Opcode(Replace, 0, 2, 0, 2), Opcode(Replace, 2, 4, 2, 4), Opcode("A", 4, 5, 4, 5)])
  {
    assert Chunks(Replace, 4, 5, 4, 5, 2) == [Opcode(Replace, 4, 5, 4, 5)];
    assert Chunks(Replace, 2, 5, 2, 5, 2) == [Opcode(Replace, 2, 4, 2, 4), Opcode(Replace, 4, 5, 4, 5)];
    var v := [Opcode(Replace, 0, 2, 0, 2), Opcode(Replace, 2, 4, 2, 4), Opcode(Replace, 4, 5, 4, 5)];
    assert Chunks(Replace, 0, 5, 0, 5, 2) == v;
    assert Position(|v|, 2) == Some(2);
    assert v[2 := Opcode("A", 4, 5, 4, 5)] == [Opcode(Replace, 0, 2, 0, 2), Opcode(Replace, 2, 4, 2, 4), Opcode("A", 4, 5, 4, 5)];
  }

  /** A same-kind opcode that does not continue the last entry is refused. */
  lemma AppendMismatchExample()
    ensures Appended([Opcode("equal", 0, 5, 0, 5)], Opcode("equal", 6, 8, 6, 8), Some(20))
         == Failure(ElementsDoNotMatch(Opcode("equal", 0, 5, 0, 5), Opcode("equal", 6, 8, 6, 8)))
  {
  }
}
