/**
  `Main.lstcomp` (lib/numdiff/__init__.py): align two lists of directory
  entries into `(left, right)` pairs, `None` marking an entry missing on one
  side. The code walks sorted copies of both lists with two iterators but asks
  membership questions of the ORIGINAL lists; an inner `while` that reads past
  the end of an iterator lets `StopIteration` escape.

  Entries are modelled as `int` keys, the type its doctests use.
 */
module ListComparison {
  import opened Wrappers

  /** One element of the result: `(el1, el2)` with `None` for a missing side. */
  datatype Pair = Pair(left: Option<int>, right: Option<int>)

  /** The exception an exhausted `ilst.next()` raises inside an inner `while`. */
  datatype StopIteration = StopIteration

  // ---------------------------------------------------------------------------
  // sorted(...)
  // ---------------------------------------------------------------------------

  predicate Sorted(s: seq<int>) {
    forall i, j :: 0 <= i < j < |s| ==> s[i] <= s[j]
  }

  predicate StrictlySorted(s: seq<int>) {
    forall i, j :: 0 <= i < j < |s| ==> s[i] < s[j]
  }

  predicate Distinct(s: seq<int>) {
    forall i, j :: 0 <= i < j < |s| ==> s[i] != s[j]
  }

  function Insert(x: int, s: seq<int>): (r: seq<int>)
    requires Sorted(s)
    ensures Sorted(r)
    ensures multiset(r) == multiset(s) + multiset{x}
    ensures r != [] && (r[0] == x || (s != [] && r[0] == s[0]))
  {
    if s == [] || x <= s[0] then [x] + s
    else
      var t := Insert(x, s[1..]);
      assert s == [s[0]] + s[1..];
      assert multiset(s) == multiset{s[0]} + multiset(s[1..]);
      assert forall j :: 0 <= j < |t| ==> s[0] <= t[j];
      [s[0]] + t
  }

  /** Python's `sorted(lst)`: an ascending permutation of `lst`. */
  function Sort(s: seq<int>): (r: seq<int>)
    ensures Sorted(r)
    ensures multiset(r) == multiset(s)
  {
    if s == [] then []
    else
      assert s == [s[0]] + s[1..];
      Insert(s[0], Sort(s[1..]))
  }

  lemma {:induction false} InsertDistinct(x: int, s: seq<int>)
    requires Sorted(s) && Distinct(s) && x !in s
    ensures Distinct(Insert(x, s))
  {
    if s != [] && x > s[0] {
      InsertDistinct(x, s[1..]);
      var t := Insert(x, s[1..]);
      assert s == [s[0]] + s[1..];
      assert s[0] !in multiset(s[1..]) + multiset{x};
      assert s[0] !in t;
    }
  }

  lemma {:induction false} SortDistinct(s: seq<int>)
    requires Distinct(s)
    ensures Distinct(Sort(s))
  {
    if s != [] {
      assert s == [s[0]] + s[1..];
      SortDistinct(s[1..]);
      assert s[0] !in multiset(Sort(s[1..]));
      InsertDistinct(s[0], Sort(s[1..]));
    }
  }

  /** `sorted` leaves an ascending list as it is. */
  lemma {:induction false} SortOfSorted(s: seq<int>)
    requires Sorted(s)
    ensures Sort(s) == s
  {
    if s != [] {
      SortOfSorted(s[1..]);
      assert s == [s[0]] + s[1..];
    }
  }

  /** On lists without repeated entries `sorted` is strictly ascending. */
  lemma SortStrict(s: seq<int>)
    requires Distinct(s)
    ensures StrictlySorted(Sort(s))
    ensures forall x :: x in Sort(s) <==> x in s
  {
    SortDistinct(s);
    var r := Sort(s);
    forall x ensures x in r <==> x in s {
      assert x in r <==> x in multiset(r);
      assert x in s <==> x in multiset(s);
    }
  }

  // ---------------------------------------------------------------------------
  // The specification of the two-cursor walk
  // ---------------------------------------------------------------------------

  /** `(None, y)` for every `y` of `ys`, in order. */
  function RightOnly(ys: seq<int>): (r: seq<Pair>)
    ensures |r| == |ys|
    ensures forall k :: 0 <= k < |ys| ==> r[k] == Pair(None, Some(ys[k]))
  {
    if ys == [] then [] else RightOnly(ys[..|ys| - 1]) + [Pair(None, Some(ys[|ys| - 1]))]
  }

  /** `(x, None)` for every `x` of `xs`, in order. */
  function LeftOnly(xs: seq<int>): (r: seq<Pair>)
    ensures |r| == |xs|
    ensures forall k :: 0 <= k < |xs| ==> r[k] == Pair(Some(xs[k]), None)
  {
    if xs == [] then [] else LeftOnly(xs[..|xs| - 1]) + [Pair(Some(xs[|xs| - 1]), None)]
  }

  lemma RightOnlyCons(ys: seq<int>)
    requires ys != []
    ensures RightOnly(ys) == [Pair(None, Some(ys[0]))] + RightOnly(ys[1..])
  {
  }

  lemma RightOnlySnoc(s: seq<int>, i: nat, j: nat)
    requires i <= j < |s|
    ensures RightOnly(s[i..j]) + [Pair(None, Some(s[j]))] == RightOnly(s[i..j + 1])
  {
  }

  lemma LeftOnlySnoc(s: seq<int>, i: nat, j: nat)
    requires i <= j < |s|
    ensures LeftOnly(s[i..j]) + [Pair(Some(s[j]), None)] == LeftOnly(s[i..j + 1])
  {
  }

  /** `prefix` followed by whatever `rest` produced, unless `rest` raised. */
  function Then(prefix: seq<Pair>, rest: Result<seq<Pair>, StopIteration>): Result<seq<Pair>, StopIteration> {
    match rest
    case Success(ps) => Success(prefix + ps)
    case Failure(e) => Failure(e)
  }

  lemma ThenEmpty(rest: Result<seq<Pair>, StopIteration>)
    ensures Then([], rest) == rest
  {
    if rest.Success? {
      assert [] + rest.value == rest.value;
    }
  }

  lemma ThenThen(a: seq<Pair>, b: seq<Pair>, rest: Result<seq<Pair>, StopIteration>)
    ensures Then(a, Then(b, rest)) == Then(a + b, rest)
  {
    if rest.Success? {
      assert a + (b + rest.value) == (a + b) + rest.value;
    }
  }

  /**
    The first index `k >= j` with `s[k] in keys`: where `while not el in keys`
    stops, or `None` when it would read past the end.
   */
  function FirstIn(keys: seq<int>, s: seq<int>, j: nat): (r: Option<nat>)
    ensures r.Some? ==> j <= r.value < |s| && s[r.value] in keys
    ensures r.Some? ==> forall k :: j <= k < r.value ==> s[k] !in keys
    ensures r.None? ==> forall k :: j <= k < |s| ==> s[k] !in keys
    decreases |s| - j
  {
    if j >= |s| then None else if s[j] in keys then Some(j) else FirstIn(keys, s, j + 1)
  }

  /** What one pass of the `for` body does: append `piece` and leave `j1`, `j2` elements drawn. */
  datatype Step = Raise | Next(piece: seq<Pair>, j1: nat, j2: nat)

  /**
    One pass of the body of `for el1 in ilst1` (lib/numdiff/__init__.py:179-200)
    once `i1` elements of `s1 = sorted(lst1)` and `i2` of `s2 = sorted(lst2)`
    have been drawn; `el1` is the element drawn by the `for` itself.
   */
  function Round(lst1: seq<int>, lst2: seq<int>, s1: seq<int>, s2: seq<int>, i1: nat, i2: nat): (r: Step)
    requires i1 < |s1| && i2 <= |s2|
    ensures r.Next? ==> i1 < r.j1 <= |s1| && i2 <= r.j2 <= |s2|
  {
    var el1 := s1[i1];
    if i2 == |s2| then
      // `ilst2.next()` raised and was caught: el2 is None
      Next([Pair(Some(el1), None)], i1 + 1, i2)
    else
      var el2 := s2[i2];
      if el1 == el2 then
        Next([Pair(Some(el1), Some(el2))], i1 + 1, i2 + 1)
      else if el1 in lst2 then
        match FirstIn(lst1, s2, i2)
        case None => Raise
        case Some(m) => Next(RightOnly(s2[i2..m]) + [Pair(Some(el1), Some(s2[m]))], i1 + 1, m + 1)
      else if el2 in lst1 then
        match FirstIn(lst2, s1, i1)
        case None => Raise
        case Some(m) => Next(LeftOnly(s1[i1..m]) + [Pair(Some(s1[m]), Some(el2))], m + 1, i2 + 1)
      else if el1 < el2 then
        Next([Pair(Some(el1), None), Pair(None, Some(el2))], i1 + 1, i2 + 1)
      else
        Next([Pair(None, Some(el2)), Pair(Some(el1), None)], i1 + 1, i2 + 1)
  }

  /**
    What the rest of `lstcomp` appends from the state (`i1`, `i2`) at the top
    of the `for` loop, the final `for el2 in ilst2` included (lines 178-202).
   */
  function MergeFrom(lst1: seq<int>, lst2: seq<int>, s1: seq<int>, s2: seq<int>, i1: nat, i2: nat)
    : Result<seq<Pair>, StopIteration>
    requires i1 <= |s1| && i2 <= |s2|
    decreases |s1| - i1
  {
    if i1 == |s1| then Success(RightOnly(s2[i2..]))
    else
      match Round(lst1, lst2, s1, s2, i1, i2)
      case Raise => Failure(StopIteration)
      case Next(piece, j1, j2) => Then(piece, MergeFrom(lst1, lst2, s1, s2, j1, j2))
  }

  // The branches of `Round`, one lemma each.

  lemma RoundExhausted(lst1: seq<int>, lst2: seq<int>, s1: seq<int>, s2: seq<int>, i1: nat)
    requires i1 < |s1|
    ensures Round(lst1, lst2, s1, s2, i1, |s2|) == Next([Pair(Some(s1[i1]), None)], i1 + 1, |s2|)
  {
  }

  lemma RoundEqual(lst1: seq<int>, lst2: seq<int>, s1: seq<int>, s2: seq<int>, i1: nat, i2: nat)
    requires i1 < |s1| && i2 < |s2| && s1[i1] == s2[i2]
    ensures Round(lst1, lst2, s1, s2, i1, i2) == Next([Pair(Some(s1[i1]), Some(s2[i2]))], i1 + 1, i2 + 1)
  {
  }

  lemma RoundDrainRight(lst1: seq<int>, lst2: seq<int>, s1: seq<int>, s2: seq<int>, i1: nat, i2: nat)
    requires i1 < |s1| && i2 < |s2| && s1[i1] != s2[i2] && s1[i1] in lst2
    ensures FirstIn(lst1, s2, i2).None? ==> Round(lst1, lst2, s1, s2, i1, i2) == Raise
    ensures FirstIn(lst1, s2, i2).Some? ==>
      var m := FirstIn(lst1, s2, i2).value;
      Round(lst1, lst2, s1, s2, i1, i2) == Next(RightOnly(s2[i2..m]) + [Pair(Some(s1[i1]), Some(s2[m]))], i1 + 1, m + 1)
  {
  }

  lemma RoundDrainLeft(lst1: seq<int>, lst2: seq<int>, s1: seq<int>, s2: seq<int>, i1: nat, i2: nat)
    requires i1 < |s1| && i2 < |s2| && s1[i1] != s2[i2] && s1[i1] !in lst2 && s2[i2] in lst1
    ensures FirstIn(lst2, s1, i1).None? ==> Round(lst1, lst2, s1, s2, i1, i2) == Raise
    ensures FirstIn(lst2, s1, i1).Some? ==>
      var m := FirstIn(lst2, s1, i1).value;
      Round(lst1, lst2, s1, s2, i1, i2) == Next(LeftOnly(s1[i1..m]) + [Pair(Some(s1[m]), Some(s2[i2]))], m + 1, i2 + 1)
  {
  }

  lemma RoundNeither(lst1: seq<int>, lst2: seq<int>, s1: seq<int>, s2: seq<int>, i1: nat, i2: nat)
    requires i1 < |s1| && i2 < |s2| && s1[i1] != s2[i2] && s1[i1] !in lst2 && s2[i2] !in lst1
    ensures Round(lst1, lst2, s1, s2, i1, i2) ==
      if s1[i1] < s2[i2] then Next([Pair(Some(s1[i1]), None), Pair(None, Some(s2[i2]))], i1 + 1, i2 + 1)
      else Next([Pair(None, Some(s2[i2])), Pair(Some(s1[i1]), None)], i1 + 1, i2 + 1)
  {
  }

  /** One unfolding of `MergeFrom`. */
  lemma MergeUnfold(lst1: seq<int>, lst2: seq<int>, s1: seq<int>, s2: seq<int>, i1: nat, i2: nat)
    requires i1 < |s1| && i2 <= |s2|
    ensures Round(lst1, lst2, s1, s2, i1, i2).Raise? ==> MergeFrom(lst1, lst2, s1, s2, i1, i2) == Failure(StopIteration)
    ensures Round(lst1, lst2, s1, s2, i1, i2).Next? ==>
      var r := Round(lst1, lst2, s1, s2, i1, i2);
      MergeFrom(lst1, lst2, s1, s2, i1, i2) == Then(r.piece, MergeFrom(lst1, lst2, s1, s2, r.j1, r.j2))
  {
  }

  /** The loop invariant of `Walk` carried across one round. */
  lemma Advance(lst1: seq<int>, lst2: seq<int>, s1: seq<int>, s2: seq<int>, i1: nat, i2: nat,
                done: seq<Pair>, piece: seq<Pair>, j1: nat, j2: nat)
    requires i1 < |s1| && i2 <= |s2| && j1 <= |s1| && j2 <= |s2|
    requires Round(lst1, lst2, s1, s2, i1, i2) == Next(piece, j1, j2)
    ensures Then(done, MergeFrom(lst1, lst2, s1, s2, i1, i2)) == Then(done + piece, MergeFrom(lst1, lst2, s1, s2, j1, j2))
  {
    MergeUnfold(lst1, lst2, s1, s2, i1, i2);
    ThenThen(done, piece, MergeFrom(lst1, lst2, s1, s2, j1, j2));
  }

  /** A round followed by a walk that returns normally. */
  lemma MergeStep(lst1: seq<int>, lst2: seq<int>, s1: seq<int>, s2: seq<int>, i1: nat, i2: nat,
                  piece: seq<Pair>, j1: nat, j2: nat, rest: seq<Pair>)
    requires i1 < |s1| && i2 <= |s2| && j1 <= |s1| && j2 <= |s2|
    requires Round(lst1, lst2, s1, s2, i1, i2) == Next(piece, j1, j2)
    requires MergeFrom(lst1, lst2, s1, s2, j1, j2) == Success(rest)
    ensures MergeFrom(lst1, lst2, s1, s2, i1, i2) == Success(piece + rest)
  {
    MergeUnfold(lst1, lst2, s1, s2, i1, i2);
  }

  /** The value `lstcomp(lst1, lst2)` returns, or the `StopIteration` it raises. */
  function Aligned(lst1: seq<int>, lst2: seq<int>): Result<seq<Pair>, StopIteration> {
    MergeFrom(lst1, lst2, Sort(lst1), Sort(lst2), 0, 0)
  }

  /** On ascending inputs the walk runs over the inputs themselves. */
  lemma AlignedOfSorted(lst1: seq<int>, lst2: seq<int>)
    requires Sorted(lst1) && Sorted(lst2)
    ensures Aligned(lst1, lst2) == MergeFrom(lst1, lst2, lst1, lst2, 0, 0)
  {
    SortOfSorted(lst1);
    SortOfSorted(lst2);
  }

  /**
    The `while not el2 in lst1` loop of `Main.lstcomp`, entered with
    `el2 = s2[start]`: every element drawn before one of `lst1` is emitted as
    `(None, el2)`. `None` when `ilst2.next()` raises first.
   */
  method SkipRight(lst1: seq<int>, s2: seq<int>, start: nat) returns (found: Option<nat>, skipped: seq<Pair>)
    requires start < |s2|
    ensures found == FirstIn(lst1, s2, start)
    ensures found.Some? ==> skipped == RightOnly(s2[start..found.value])
  {
    var j := start;
    var el2 := s2[j];
    skipped := [];
    while el2 !in lst1
      invariant start <= j < |s2| && el2 == s2[j]
      invariant FirstIn(lst1, s2, start) == FirstIn(lst1, s2, j)
      invariant skipped == RightOnly(s2[start..j])
      decreases |s2| - j
    {
      skipped := skipped + [Pair(None, Some(el2))];
      RightOnlySnoc(s2, start, j);
      if j + 1 == |s2| {
        return None, skipped;
      }
      j := j + 1;
      el2 := s2[j];
    }
    return Some(j), skipped;
  }

  /** The `while not el1 in lst2` loop, emitting `(el1, None)` for each element skipped. */
  method SkipLeft(lst2: seq<int>, s1: seq<int>, start: nat) returns (found: Option<nat>, skipped: seq<Pair>)
    requires start < |s1|
    ensures found == FirstIn(lst2, s1, start)
    ensures found.Some? ==> skipped == LeftOnly(s1[start..found.value])
  {
    var j := start;
    var el1 := s1[j];
    skipped := [];
    while el1 !in lst2
      invariant start <= j < |s1| && el1 == s1[j]
      invariant FirstIn(lst2, s1, start) == FirstIn(lst2, s1, j)
      invariant skipped == LeftOnly(s1[start..j])
      decreases |s1| - j
    {
      skipped := skipped + [Pair(Some(el1), None)];
      LeftOnlySnoc(s1, start, j);
      if j + 1 == |s1| {
        return None, skipped;
      }
      j := j + 1;
      el1 := s1[j];
    }
    return Some(j), skipped;
  }

  /** `Main.lstcomp`. */
  method LstComp(lst1: seq<int>, lst2: seq<int>) returns (r: Result<seq<Pair>, StopIteration>)
    ensures r == Aligned(lst1, lst2)
  {
    r := Walk(lst1, lst2, Sort(lst1), Sort(lst2));
  }

  /**
    One pass of the body of `for el1 in ilst1` (lib/numdiff/__init__.py:179-200),
    with `el1 = s1[i1]` just drawn and `i2` elements of `s2` drawn so far:
    what it appends, and how many elements each iterator has handed out after it.
   */
  method OneRound(lst1: seq<int>, lst2: seq<int>, s1: seq<int>, s2: seq<int>, i1: nat, i2: nat) returns (r: Step)
    requires i1 < |s1| && i2 <= |s2|
    ensures r == Round(lst1, lst2, s1, s2, i1, i2)
  {
    var el1 := s1[i1];
    if i2 == |s2| {
      // `ilst2.next()` raised and was caught: el2 is None
      RoundExhausted(lst1, lst2, s1, s2, i1);
      return Next([Pair(Some(el1), None)], i1 + 1, i2);
    }
    var el2 := s2[i2];
    if el1 == el2 {
      RoundEqual(lst1, lst2, s1, s2, i1, i2);
      return Next([Pair(Some(el1), Some(el2))], i1 + 1, i2 + 1);
    } else if el1 in lst2 {
      RoundDrainRight(lst1, lst2, s1, s2, i1, i2);
      var found, skipped := SkipRight(lst1, s2, i2);
      if found.None? {
        return Raise;
      }
      el2 := s2[found.value];
      return Next(skipped + [Pair(Some(el1), Some(el2))], i1 + 1, found.value + 1);
    } else if el2 in lst1 {
      RoundDrainLeft(lst1, lst2, s1, s2, i1, i2);
      var found, skipped := SkipLeft(lst2, s1, i1);
      if found.None? {
        return Raise;
      }
      el1 := s1[found.value];
      return Next(skipped + [Pair(Some(el1), Some(el2))], found.value + 1, i2 + 1);
    } else if el1 < el2 {
      RoundNeither(lst1, lst2, s1, s2, i1, i2);
      return Next([Pair(Some(el1), None), Pair(None, Some(el2))], i1 + 1, i2 + 1);
    } else {
      RoundNeither(lst1, lst2, s1, s2, i1, i2);
      return Next([Pair(None, Some(el2)), Pair(Some(el1), None)], i1 + 1, i2 + 1);
    }
  }

  /**
    The loops of `Main.lstcomp` over the iterators `ilst1 = iter(s1)` and
    `ilst2 = iter(s2)`, represented by the counts `i1`, `i2` of elements each
    has handed out.
   */
  method Walk(lst1: seq<int>, lst2: seq<int>, s1: seq<int>, s2: seq<int>) returns (r: Result<seq<Pair>, StopIteration>)
    ensures r == MergeFrom(lst1, lst2, s1, s2, 0, 0)
  {
    var i1: nat, i2: nat := 0, 0;
    var result: seq<Pair> := [];
    ThenEmpty(MergeFrom(lst1, lst2, s1, s2, 0, 0));
    while i1 < |s1|
      invariant i1 <= |s1| && i2 <= |s2|
      invariant MergeFrom(lst1, lst2, s1, s2, 0, 0) == Then(result, MergeFrom(lst1, lst2, s1, s2, i1, i2))
      decreases |s1| - i1
    {
      var step := OneRound(lst1, lst2, s1, s2, i1, i2);
      MergeUnfold(lst1, lst2, s1, s2, i1, i2);
      match step
      case Raise =>
        return Failure(StopIteration);
      case Next(piece, j1, j2) =>
        ThenThen(result, piece, MergeFrom(lst1, lst2, s1, s2, j1, j2));
        result := result + piece;
        i1, i2 := j1, j2;
    }
    ghost var from, done := i2, result;
    while i2 < |s2|
      invariant from <= i2 <= |s2|
      invariant result == done + RightOnly(s2[from..i2])
      decreases |s2| - i2
    {
      RightOnlySnoc(s2, from, i2);
      result := result + [Pair(None, Some(s2[i2]))];
      i2 := i2 + 1;
    }
    assert s2[from..i2] == s2[from..];
    return Success(result);
  }

  // ---------------------------------------------------------------------------
  // Properties of the result
  // ---------------------------------------------------------------------------

  /** The present left components, in output order. */
  function Lefts(ps: seq<Pair>): seq<int> {
    if ps == [] then [] else (if ps[0].left.Some? then [ps[0].left.value] else []) + Lefts(ps[1..])
  }

  /** The present right components, in output order. */
  function Rights(ps: seq<Pair>): seq<int> {
    if ps == [] then [] else (if ps[0].right.Some? then [ps[0].right.value] else []) + Rights(ps[1..])
  }

  predicate Sided(ps: seq<Pair>) {
    forall p :: p in ps ==> p.left.Some? || p.right.Some?
  }

  lemma {:induction false} LeftsAppend(a: seq<Pair>, b: seq<Pair>)
    ensures Lefts(a + b) == Lefts(a) + Lefts(b)
  {
    if a == [] {
      assert a + b == b;
    } else {
      assert (a + b)[0] == a[0];
      assert (a + b)[1..] == a[1..] + b;
      LeftsAppend(a[1..], b);
    }
  }

  lemma {:induction false} RightsAppend(a: seq<Pair>, b: seq<Pair>)
    ensures Rights(a + b) == Rights(a) + Rights(b)
  {
    if a == [] {
      assert a + b == b;
    } else {
      assert (a + b)[0] == a[0];
      assert (a + b)[1..] == a[1..] + b;
      RightsAppend(a[1..], b);
    }
  }

  lemma ProjectAppend(a: seq<Pair>, b: seq<Pair>)
    ensures Lefts(a + b) == Lefts(a) + Lefts(b)
    ensures Rights(a + b) == Rights(a) + Rights(b)
  {
    LeftsAppend(a, b);
    RightsAppend(a, b);
  }

  lemma {:induction false} ProjectRightOnly(ys: seq<int>)
    ensures Lefts(RightOnly(ys)) == [] && Rights(RightOnly(ys)) == ys
  {
    if ys != [] {
      RightOnlyCons(ys);
      ProjectRightOnly(ys[1..]);
    }
  }

  lemma {:induction false} ProjectLeftOnly(xs: seq<int>)
    ensures Lefts(LeftOnly(xs)) == xs && Rights(LeftOnly(xs)) == []
  {
    if xs != [] {
      assert LeftOnly(xs) == [Pair(Some(xs[0]), None)] + LeftOnly(xs[1..]);
      ProjectLeftOnly(xs[1..]);
    }
  }

  lemma ProjectOne(p: Pair)
    ensures Lefts([p]) == (if p.left.Some? then [p.left.value] else [])
    ensures Rights([p]) == (if p.right.Some? then [p.right.value] else [])
  {
    assert [p][1..] == [];
  }

  /** The projections of the piece emitted by the `while not el2 in lst1` branch. */
  lemma DrainRightShape(el1: int, s2: seq<int>, i2: nat, m: nat)
    requires i2 <= m < |s2|
    ensures var piece := RightOnly(s2[i2..m]) + [Pair(Some(el1), Some(s2[m]))];
      Lefts(piece) == [el1] && Rights(piece) == s2[i2..m + 1] && Sided(piece)
  {
    ProjectAppend(RightOnly(s2[i2..m]), [Pair(Some(el1), Some(s2[m]))]);
    ProjectRightOnly(s2[i2..m]);
    assert s2[i2..m + 1] == s2[i2..m] + [s2[m]];
  }

  /** The projections of the piece emitted by the `while not el1 in lst2` branch. */
  lemma DrainLeftShape(s1: seq<int>, el2: int, i1: nat, m: nat)
    requires i1 <= m < |s1|
    ensures var piece := LeftOnly(s1[i1..m]) + [Pair(Some(s1[m]), Some(el2))];
      Lefts(piece) == s1[i1..m + 1] && Rights(piece) == [el2] && Sided(piece)
  {
    ProjectAppend(LeftOnly(s1[i1..m]), [Pair(Some(s1[m]), Some(el2))]);
    ProjectLeftOnly(s1[i1..m]);
    assert s1[i1..m + 1] == s1[i1..m] + [s1[m]];
  }

  /** What one round hands out, and how far it advances: the property proved case by case below. */
  predicate RoundKeeps(s1: seq<int>, s2: seq<int>, i1: nat, i2: nat, r: Step)
    requires i1 <= |s1| && i2 <= |s2|
  {
    r.Next? ==> (i1 <= r.j1 <= |s1| && i2 <= r.j2 <= |s2| &&
      Lefts(r.piece) == s1[i1..r.j1] && Rights(r.piece) == s2[i2..r.j2] && Sided(r.piece))
  }

  lemma KeepsExhausted(lst1: seq<int>, lst2: seq<int>, s1: seq<int>, s2: seq<int>, i1: nat)
    requires i1 < |s1|
    ensures RoundKeeps(s1, s2, i1, |s2|, Round(lst1, lst2, s1, s2, i1, |s2|))
  {
    RoundExhausted(lst1, lst2, s1, s2, i1);
    ProjectOne(Pair(Some(s1[i1]), None));
    assert s1[i1..i1 + 1] == [s1[i1]];
  }

  lemma KeepsEqual(lst1: seq<int>, lst2: seq<int>, s1: seq<int>, s2: seq<int>, i1: nat, i2: nat)
    requires i1 < |s1| && i2 < |s2| && s1[i1] == s2[i2]
    ensures RoundKeeps(s1, s2, i1, i2, Round(lst1, lst2, s1, s2, i1, i2))
  {
    RoundEqual(lst1, lst2, s1, s2, i1, i2);
    ProjectOne(Pair(Some(s1[i1]), Some(s2[i2])));
    assert s1[i1..i1 + 1] == [s1[i1]];
    assert s2[i2..i2 + 1] == [s2[i2]];
  }

  lemma KeepsDrainRight(lst1: seq<int>, lst2: seq<int>, s1: seq<int>, s2: seq<int>, i1: nat, i2: nat)
    requires i1 < |s1| && i2 < |s2| && s1[i1] != s2[i2] && s1[i1] in lst2
    ensures RoundKeeps(s1, s2, i1, i2, Round(lst1, lst2, s1, s2, i1, i2))
  {
    RoundDrainRight(lst1, lst2, s1, s2, i1, i2);
    if FirstIn(lst1, s2, i2).Some? {
      DrainRightShape(s1[i1], s2, i2, FirstIn(lst1, s2, i2).value);
      assert s1[i1..i1 + 1] == [s1[i1]];
    }
  }

  lemma KeepsDrainLeft(lst1: seq<int>, lst2: seq<int>, s1: seq<int>, s2: seq<int>, i1: nat, i2: nat)
    requires i1 < |s1| && i2 < |s2| && s1[i1] != s2[i2] && s1[i1] !in lst2 && s2[i2] in lst1
    ensures RoundKeeps(s1, s2, i1, i2, Round(lst1, lst2, s1, s2, i1, i2))
  {
    RoundDrainLeft(lst1, lst2, s1, s2, i1, i2);
    if FirstIn(lst2, s1, i1).Some? {
      DrainLeftShape(s1, s2[i2], i1, FirstIn(lst2, s1, i1).value);
      assert s2[i2..i2 + 1] == [s2[i2]];
    }
  }

  lemma KeepsNeither(lst1: seq<int>, lst2: seq<int>, s1: seq<int>, s2: seq<int>, i1: nat, i2: nat)
    requires i1 < |s1| && i2 < |s2| && s1[i1] != s2[i2] && s1[i1] !in lst2 && s2[i2] !in lst1
    ensures RoundKeeps(s1, s2, i1, i2, Round(lst1, lst2, s1, s2, i1, i2))
  {
    RoundNeither(lst1, lst2, s1, s2, i1, i2);
    var a, b := Pair(Some(s1[i1]), None), Pair(None, Some(s2[i2]));
    ProjectOne(a);
    ProjectOne(b);
    ProjectAppend([a], [b]);
    ProjectAppend([b], [a]);
    assert s1[i1..i1 + 1] == [s1[i1]];
    assert s2[i2..i2 + 1] == [s2[i2]];
  }

  /**
    One round hands out exactly the elements it draws from each iterator, in
    order, and never emits `(None, None)`.
   */
  lemma RoundShape(lst1: seq<int>, lst2: seq<int>, s1: seq<int>, s2: seq<int>, i1: nat, i2: nat)
    requires i1 < |s1| && i2 <= |s2|
    ensures RoundKeeps(s1, s2, i1, i2, Round(lst1, lst2, s1, s2, i1, i2))
  {
    if i2 == |s2| {
      KeepsExhausted(lst1, lst2, s1, s2, i1);
    } else if s1[i1] == s2[i2] {
      KeepsEqual(lst1, lst2, s1, s2, i1, i2);
    } else if s1[i1] in lst2 {
      KeepsDrainRight(lst1, lst2, s1, s2, i1, i2);
    } else if s2[i2] in lst1 {
      KeepsDrainLeft(lst1, lst2, s1, s2, i1, i2);
    } else {
      KeepsNeither(lst1, lst2, s1, s2, i1, i2);
    }
  }

  lemma SliceSplit(s: seq<int>, i: nat, j: nat)
    requires i <= j <= |s|
    ensures s[i..] == s[i..j] + s[j..]
  {
  }

  /**
    Whenever the walk completes, it has handed out every remaining element of
    both sorted lists exactly once, in order.
   */
  lemma {:induction false} MergeProjects(lst1: seq<int>, lst2: seq<int>, s1: seq<int>, s2: seq<int>, i1: nat, i2: nat)
    requires i1 <= |s1| && i2 <= |s2|
    requires MergeFrom(lst1, lst2, s1, s2, i1, i2).Success?
    ensures Lefts(MergeFrom(lst1, lst2, s1, s2, i1, i2).value) == s1[i1..]
    ensures Rights(MergeFrom(lst1, lst2, s1, s2, i1, i2).value) == s2[i2..]
    decreases |s1| - i1
  {
    if i1 == |s1| {
      ProjectRightOnly(s2[i2..]);
    } else {
      var r := Round(lst1, lst2, s1, s2, i1, i2);
      MergeUnfold(lst1, lst2, s1, s2, i1, i2);
      RoundShape(lst1, lst2, s1, s2, i1, i2);
      var rest := MergeFrom(lst1, lst2, s1, s2, r.j1, r.j2).value;
      MergeProjects(lst1, lst2, s1, s2, r.j1, r.j2);
      ProjectAppend(r.piece, rest);
      SliceSplit(s1, i1, r.j1);
      SliceSplit(s2, i2, r.j2);
    }
  }

  /** The walk never emits `(None, None)`. */
  lemma {:induction false} MergeSided(lst1: seq<int>, lst2: seq<int>, s1: seq<int>, s2: seq<int>, i1: nat, i2: nat)
    requires i1 <= |s1| && i2 <= |s2|
    requires MergeFrom(lst1, lst2, s1, s2, i1, i2).Success?
    ensures Sided(MergeFrom(lst1, lst2, s1, s2, i1, i2).value)
    decreases |s1| - i1
  {
    if i1 < |s1| {
      var r := Round(lst1, lst2, s1, s2, i1, i2);
      MergeUnfold(lst1, lst2, s1, s2, i1, i2);
      RoundShape(lst1, lst2, s1, s2, i1, i2);
      MergeSided(lst1, lst2, s1, s2, r.j1, r.j2);
    }
  }

  /**
    When `lstcomp` returns, the left components are exactly `sorted(lst1)`, the
    right ones exactly `sorted(lst2)`, and every pair has a present side.
   */
  lemma LstCompShape(lst1: seq<int>, lst2: seq<int>)
    requires Aligned(lst1, lst2).Success?
    ensures Lefts(Aligned(lst1, lst2).value) == Sort(lst1)
    ensures Rights(Aligned(lst1, lst2).value) == Sort(lst2)
    ensures Sided(Aligned(lst1, lst2).value)
  {
    MergeProjects(lst1, lst2, Sort(lst1), Sort(lst2), 0, 0);
    MergeSided(lst1, lst2, Sort(lst1), Sort(lst2), 0, 0);
    assert Sort(lst1)[0..] == Sort(lst1) && Sort(lst2)[0..] == Sort(lst2);
  }

  // ---------------------------------------------------------------------------
  // Lists without repeated entries (directory listings)
  // ---------------------------------------------------------------------------

  /** What each kind of pair says about its entry. */
  predicate Classified(lst1: seq<int>, lst2: seq<int>, p: Pair) {
    match p
    case Pair(Some(x), Some(y)) => x == y && x in lst1 && x in lst2
    case Pair(Some(x), None) => x in lst1 && x !in lst2
    case Pair(None, Some(y)) => y !in lst1 && y in lst2
    case Pair(None, None) => false
  }

  predicate AllClassified(lst1: seq<int>, lst2: seq<int>, ps: seq<Pair>) {
    forall p :: p in ps ==> Classified(lst1, lst2, p)
  }

  /** `s1`, `s2` are strictly ascending and hold exactly the entries of `lst1`, `lst2`. */
  ghost predicate Setup(lst1: seq<int>, lst2: seq<int>, s1: seq<int>, s2: seq<int>) {
    StrictlySorted(s1) && StrictlySorted(s2) &&
    (forall x :: x in s1 <==> x in lst1) && (forall x :: x in s2 <==> x in lst2)
  }

  /** The entries common to both lists drawn so far are the same on both sides. */
  predicate Balanced(lst1: seq<int>, lst2: seq<int>, s1: seq<int>, s2: seq<int>, i1: nat, i2: nat)
    requires i1 <= |s1| && i2 <= |s2|
  {
    forall x :: x in lst1 && x in lst2 ==> (x in s1[..i1] <==> x in s2[..i2])
  }

  /** The loop state after a round that keeps the balance and classifies what it emits. */
  predicate RoundClassifies(lst1: seq<int>, lst2: seq<int>, s1: seq<int>, s2: seq<int>, r: Step) {
    r.Next? && r.j1 <= |s1| && r.j2 <= |s2| &&
    AllClassified(lst1, lst2, r.piece) && Balanced(lst1, lst2, s1, s2, r.j1, r.j2)
  }

  lemma ClassifiedAppend(lst1: seq<int>, lst2: seq<int>, a: seq<Pair>, b: seq<Pair>)
    requires AllClassified(lst1, lst2, a) && AllClassified(lst1, lst2, b)
    ensures AllClassified(lst1, lst2, a + b)
  {
    forall p | p in a + b
      ensures Classified(lst1, lst2, p)
    {
      assert p in a || p in b;
    }
  }

  lemma RightOnlyClassified(lst1: seq<int>, lst2: seq<int>, ys: seq<int>)
    requires forall k :: 0 <= k < |ys| ==> ys[k] !in lst1 && ys[k] in lst2
    ensures AllClassified(lst1, lst2, RightOnly(ys))
  {
    forall p | p in RightOnly(ys)
      ensures Classified(lst1, lst2, p)
    {
      var k :| 0 <= k < |ys| && RightOnly(ys)[k] == p;
    }
  }

  lemma LeftOnlyClassified(lst1: seq<int>, lst2: seq<int>, xs: seq<int>)
    requires forall k :: 0 <= k < |xs| ==> xs[k] in lst1 && xs[k] !in lst2
    ensures AllClassified(lst1, lst2, LeftOnly(xs))
  {
    forall p | p in LeftOnly(xs)
      ensures Classified(lst1, lst2, p)
    {
      var k :| 0 <= k < |xs| && LeftOnly(xs)[k] == p;
    }
  }

  /** The balance survives a round that draws the same common entries on both sides. */
  lemma BalanceStep(lst1: seq<int>, lst2: seq<int>, s1: seq<int>, s2: seq<int>, i1: nat, i2: nat, j1: nat, j2: nat)
    requires i1 <= j1 <= |s1| && i2 <= j2 <= |s2|
    requires Balanced(lst1, lst2, s1, s2, i1, i2)
    requires forall x :: x in lst1 && x in lst2 ==> (x in s1[i1..j1] <==> x in s2[i2..j2])
    ensures Balanced(lst1, lst2, s1, s2, j1, j2)
  {
    assert s1[..j1] == s1[..i1] + s1[i1..j1];
    assert s2[..j2] == s2[..i2] + s2[i2..j2];
  }

  /** In a strictly ascending list an entry at or after `n` is not among the first `n`. */
  lemma NotBefore(s: seq<int>, n: nat, m: nat)
    requires StrictlySorted(s) && n <= m < |s|
    ensures s[m] !in s[..n]
  {
    forall k | 0 <= k < n
      ensures s[..n][k] != s[m]
    {
      assert s[..n][k] == s[k] < s[m];
    }
  }

  /** An entry that is not among the first `n` of a list sits at index `n` or later. */
  lemma AtOrAfter(s: seq<int>, n: nat, q: nat)
    requires n <= |s| && q < |s| && s[q] !in s[..n]
    ensures n <= q
  {
    forall k | 0 <= k < n
      ensures s[k] != s[q]
    {
      assert s[..n][k] == s[k];
    }
  }

  /**
    With the balance kept, a common entry `el1` drawn from `s1` is the first
    entry of `lst1` still ahead in `s2`: the entry found is common and not yet
    drawn from `s2`, so it is not drawn from `s1` either, hence at least `el1`;
    and it comes no later than `el1` does.
   */
  lemma MatchRight(lst1: seq<int>, lst2: seq<int>, s1: seq<int>, s2: seq<int>, i1: nat, i2: nat)
    requires Setup(lst1, lst2, s1, s2) && i1 < |s1| && i2 <= |s2|
    requires Balanced(lst1, lst2, s1, s2, i1, i2) && s1[i1] in lst2
    ensures FirstIn(lst1, s2, i2).Some? && s2[FirstIn(lst1, s2, i2).value] == s1[i1]
  {
    var el1 := s1[i1];
    assert el1 in lst1;
    NotBefore(s1, i1, i1);
    var p :| 0 <= p < |s2| && s2[p] == el1;
    AtOrAfter(s2, i2, p);
    var m := FirstIn(lst1, s2, i2).value;
    assert m <= p;
    var y := s2[m];
    assert y in lst2;
    NotBefore(s2, i2, m);
    var q :| 0 <= q < |s1| && s1[q] == y;
    AtOrAfter(s1, i1, q);
    assert el1 <= y <= el1;
  }

  /** The mirror image of `MatchRight`, for a common entry drawn from `s2`. */
  lemma MatchLeft(lst1: seq<int>, lst2: seq<int>, s1: seq<int>, s2: seq<int>, i1: nat, i2: nat)
    requires Setup(lst1, lst2, s1, s2) && i1 <= |s1| && i2 < |s2|
    requires Balanced(lst1, lst2, s1, s2, i1, i2) && s2[i2] in lst1
    ensures FirstIn(lst2, s1, i1).Some? && s1[FirstIn(lst2, s1, i1).value] == s2[i2]
  {
    var el2 := s2[i2];
    assert el2 in lst2;
    NotBefore(s2, i2, i2);
    var p :| 0 <= p < |s1| && s1[p] == el2;
    AtOrAfter(s1, i1, p);
    var m := FirstIn(lst2, s1, i1).value;
    assert m <= p;
    var y := s1[m];
    assert y in lst1;
    NotBefore(s1, i1, m);
    var q :| 0 <= q < |s2| && s2[q] == y;
    AtOrAfter(s2, i2, q);
    assert el2 <= y <= el2;
  }

  lemma ClassExhausted(lst1: seq<int>, lst2: seq<int>, s1: seq<int>, s2: seq<int>, i1: nat)
    requires Setup(lst1, lst2, s1, s2) && i1 < |s1|
    requires Balanced(lst1, lst2, s1, s2, i1, |s2|)
    ensures RoundClassifies(lst1, lst2, s1, s2, Round(lst1, lst2, s1, s2, i1, |s2|))
  {
    RoundExhausted(lst1, lst2, s1, s2, i1);
    var el1 := s1[i1];
    NotBefore(s1, i1, i1);
    assert s2[..|s2|] == s2;
    assert el1 !in lst2;
    assert s1[i1..i1 + 1] == [el1];
    BalanceStep(lst1, lst2, s1, s2, i1, |s2|, i1 + 1, |s2|);
  }

  lemma ClassEqual(lst1: seq<int>, lst2: seq<int>, s1: seq<int>, s2: seq<int>, i1: nat, i2: nat)
    requires Setup(lst1, lst2, s1, s2) && i1 < |s1| && i2 < |s2| && s1[i1] == s2[i2]
    requires Balanced(lst1, lst2, s1, s2, i1, i2)
    ensures RoundClassifies(lst1, lst2, s1, s2, Round(lst1, lst2, s1, s2, i1, i2))
  {
    RoundEqual(lst1, lst2, s1, s2, i1, i2);
    assert s1[i1] in lst1 && s2[i2] in lst2;
    assert s1[i1..i1 + 1] == [s1[i1]];
    assert s2[i2..i2 + 1] == [s2[i2]];
    BalanceStep(lst1, lst2, s1, s2, i1, i2, i1 + 1, i2 + 1);
  }

  lemma ClassDrainRight(lst1: seq<int>, lst2: seq<int>, s1: seq<int>, s2: seq<int>, i1: nat, i2: nat)
    requires Setup(lst1, lst2, s1, s2) && i1 < |s1| && i2 < |s2| && s1[i1] != s2[i2] && s1[i1] in lst2
    requires Balanced(lst1, lst2, s1, s2, i1, i2)
    ensures RoundClassifies(lst1, lst2, s1, s2, Round(lst1, lst2, s1, s2, i1, i2))
  {
    RoundDrainRight(lst1, lst2, s1, s2, i1, i2);
    MatchRight(lst1, lst2, s1, s2, i1, i2);
    var el1 := s1[i1];
    var m := FirstIn(lst1, s2, i2).value;
    assert el1 in lst1;
    var skipped := s2[i2..m];
    assert forall k :: 0 <= k < |skipped| ==> skipped[k] == s2[i2 + k];
    RightOnlyClassified(lst1, lst2, skipped);
    ClassifiedAppend(lst1, lst2, RightOnly(skipped), [Pair(Some(el1), Some(s2[m]))]);
    assert s1[i1..i1 + 1] == [el1];
    assert s2[i2..m + 1] == skipped + [el1];
    BalanceStep(lst1, lst2, s1, s2, i1, i2, i1 + 1, m + 1);
  }

  lemma ClassDrainLeft(lst1: seq<int>, lst2: seq<int>, s1: seq<int>, s2: seq<int>, i1: nat, i2: nat)
    requires Setup(lst1, lst2, s1, s2) && i1 < |s1| && i2 < |s2| && s1[i1] != s2[i2]
    requires s1[i1] !in lst2 && s2[i2] in lst1
    requires Balanced(lst1, lst2, s1, s2, i1, i2)
    ensures RoundClassifies(lst1, lst2, s1, s2, Round(lst1, lst2, s1, s2, i1, i2))
  {
    RoundDrainLeft(lst1, lst2, s1, s2, i1, i2);
    MatchLeft(lst1, lst2, s1, s2, i1, i2);
    var el2 := s2[i2];
    var m := FirstIn(lst2, s1, i1).value;
    assert el2 in lst2;
    var skipped := s1[i1..m];
    assert forall k :: 0 <= k < |skipped| ==> skipped[k] == s1[i1 + k];
    LeftOnlyClassified(lst1, lst2, skipped);
    ClassifiedAppend(lst1, lst2, LeftOnly(skipped), [Pair(Some(s1[m]), Some(el2))]);
    assert s2[i2..i2 + 1] == [el2];
    assert s1[i1..m + 1] == skipped + [el2];
    BalanceStep(lst1, lst2, s1, s2, i1, i2, m + 1, i2 + 1);
  }

  lemma ClassNeither(lst1: seq<int>, lst2: seq<int>, s1: seq<int>, s2: seq<int>, i1: nat, i2: nat)
    requires Setup(lst1, lst2, s1, s2) && i1 < |s1| && i2 < |s2| && s1[i1] != s2[i2]
    requires s1[i1] !in lst2 && s2[i2] !in lst1
    requires Balanced(lst1, lst2, s1, s2, i1, i2)
    ensures RoundClassifies(lst1, lst2, s1, s2, Round(lst1, lst2, s1, s2, i1, i2))
  {
    RoundNeither(lst1, lst2, s1, s2, i1, i2);
    assert s1[i1] in lst1 && s2[i2] in lst2;
    assert s1[i1..i1 + 1] == [s1[i1]];
    assert s2[i2..i2 + 1] == [s2[i2]];
    BalanceStep(lst1, lst2, s1, s2, i1, i2, i1 + 1, i2 + 1);
  }

  /** On strictly ascending inputs a balanced round never raises and classifies what it emits. */
  lemma RoundClassified(lst1: seq<int>, lst2: seq<int>, s1: seq<int>, s2: seq<int>, i1: nat, i2: nat)
    requires Setup(lst1, lst2, s1, s2) && i1 < |s1| && i2 <= |s2|
    requires Balanced(lst1, lst2, s1, s2, i1, i2)
    ensures RoundClassifies(lst1, lst2, s1, s2, Round(lst1, lst2, s1, s2, i1, i2))
  {
    if i2 == |s2| {
      ClassExhausted(lst1, lst2, s1, s2, i1);
    } else if s1[i1] == s2[i2] {
      ClassEqual(lst1, lst2, s1, s2, i1, i2);
    } else if s1[i1] in lst2 {
      ClassDrainRight(lst1, lst2, s1, s2, i1, i2);
    } else if s2[i2] in lst1 {
      ClassDrainLeft(lst1, lst2, s1, s2, i1, i2);
    } else {
      ClassNeither(lst1, lst2, s1, s2, i1, i2);
    }
  }

  /** What is left of `s2` after `s1` is used up holds no common entry. */
  lemma TailClassified(lst1: seq<int>, lst2: seq<int>, s1: seq<int>, s2: seq<int>, i2: nat)
    requires Setup(lst1, lst2, s1, s2) && i2 <= |s2|
    requires Balanced(lst1, lst2, s1, s2, |s1|, i2)
    ensures AllClassified(lst1, lst2, RightOnly(s2[i2..]))
  {
    assert s1[..|s1|] == s1;
    forall k | 0 <= k < |s2[i2..]|
      ensures s2[i2..][k] !in lst1 && s2[i2..][k] in lst2
    {
      var y := s2[i2 + k];
      assert y in lst2;
      NotBefore(s2, i2, i2 + k);
    }
    RightOnlyClassified(lst1, lst2, s2[i2..]);
  }

  lemma {:induction false} MergeClassified(lst1: seq<int>, lst2: seq<int>, s1: seq<int>, s2: seq<int>, i1: nat, i2: nat)
    requires Setup(lst1, lst2, s1, s2) && i1 <= |s1| && i2 <= |s2|
    requires Balanced(lst1, lst2, s1, s2, i1, i2)
    ensures MergeFrom(lst1, lst2, s1, s2, i1, i2).Success?
    ensures AllClassified(lst1, lst2, MergeFrom(lst1, lst2, s1, s2, i1, i2).value)
    decreases |s1| - i1
  {
    if i1 == |s1| {
      TailClassified(lst1, lst2, s1, s2, i2);
    } else {
      var r := Round(lst1, lst2, s1, s2, i1, i2);
      RoundClassified(lst1, lst2, s1, s2, i1, i2);
      MergeUnfold(lst1, lst2, s1, s2, i1, i2);
      MergeClassified(lst1, lst2, s1, s2, r.j1, r.j2);
      ClassifiedAppend(lst1, lst2, r.piece, MergeFrom(lst1, lst2, s1, s2, r.j1, r.j2).value);
    }
  }

  /**
    For lists without repeated entries (the names in one directory) `lstcomp`
    returns normally, and every pair it returns is `(x, x)` for an entry of
    both lists, `(x, None)` for an entry of `lst1` only, or `(None, y)` for an
    entry of `lst2` only.
   */
  lemma LstCompClassifies(lst1: seq<int>, lst2: seq<int>)
    requires Distinct(lst1) && Distinct(lst2)
    ensures Aligned(lst1, lst2).Success?
    ensures AllClassified(lst1, lst2, Aligned(lst1, lst2).value)
  {
    SortStrict(lst1);
    SortStrict(lst2);
    MergeClassified(lst1, lst2, Sort(lst1), Sort(lst2), 0, 0);
  }

  lemma {:induction false} InLefts(ps: seq<Pair>, x: int)
    requires x in Lefts(ps)
    ensures exists p :: p in ps && p.left == Some(x)
  {
    if ps[0].left == Some(x) {
      assert ps[0] in ps;
    } else {
      InLefts(ps[1..], x);
      var p :| p in ps[1..] && p.left == Some(x);
      assert p in ps;
    }
  }

  lemma {:induction false} InRights(ps: seq<Pair>, y: int)
    requires y in Rights(ps)
    ensures exists p :: p in ps && p.right == Some(y)
  {
    if ps[0].right == Some(y) {
      assert ps[0] in ps;
    } else {
      InRights(ps[1..], y);
      var p :| p in ps[1..] && p.right == Some(y);
      assert p in ps;
    }
  }

  /**
    For lists without repeated entries the result tells, entry by entry,
    where the entry is found: in both lists, in the first only, or in the
    second only.
   */
  lemma LstCompComplete(lst1: seq<int>, lst2: seq<int>, x: int)
    requires Distinct(lst1) && Distinct(lst2)
    ensures Aligned(lst1, lst2).Success?
    ensures x in lst1 && x in lst2 <==> Pair(Some(x), Some(x)) in Aligned(lst1, lst2).value
    ensures x in lst1 && x !in lst2 <==> Pair(Some(x), None) in Aligned(lst1, lst2).value
    ensures x !in lst1 && x in lst2 <==> Pair(None, Some(x)) in Aligned(lst1, lst2).value
  {
    LstCompClassifies(lst1, lst2);
    LstCompShape(lst1, lst2);
    SortStrict(lst1);
    SortStrict(lst2);
    var r := Aligned(lst1, lst2).value;
    if x in lst1 {
      InLefts(r, x);
      var p :| p in r && p.left == Some(x);
      assert Classified(lst1, lst2, p);
    }
    if x in lst2 {
      InRights(r, x);
      var p :| p in r && p.right == Some(x);
      assert Classified(lst1, lst2, p);
    }
    assert Pair(Some(x), Some(x)) in r ==> Classified(lst1, lst2, Pair(Some(x), Some(x)));
    assert Pair(Some(x), None) in r ==> Classified(lst1, lst2, Pair(Some(x), None));
    assert Pair(None, Some(x)) in r ==> Classified(lst1, lst2, Pair(None, Some(x)));
  }
}
