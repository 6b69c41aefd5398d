/**
  The documented results of `Main.lstcomp` (the doctests of
  lib/numdiff/__init__.py and lib/numdiff/testing/test_numdiff.py), and two
  inputs on which its pairs are not in ascending order.

  Each example names its two input lists as parameters fixed by its
  `requires`, so that the verifier reasons about the names rather than
  unfolding the literal lists at every use; a companion lemma replays the rounds of the walk over them from
  the last round back to the first.
 */
module ListComparisonExamples {
  import opened Wrappers
  import opened ListComparison

  /** Rounds of the walk for DocMatchesAndGaps. */
  lemma DocMatchesAndGapsRounds(a: seq<int>, b: seq<int>)
    requires a == [1, 2, 3, 5, 6] && b == [1, 3, 4, 5]
    ensures MergeFrom(a, b, a, b, 0, 0) == Success([Pair(Some(1), Some(1)), Pair(Some(2), None), Pair(Some(3), Some(3)), Pair(None, Some(4)), Pair(Some(5), Some(5)), Pair(Some(6), None)])
  {
    var p0, p1 := [Pair(Some(1), Some(1))], [Pair(Some(2), None), Pair(Some(3), Some(3))];
    var p2, p3 := [Pair(None, Some(4)), Pair(Some(5), Some(5))], [Pair(Some(6), None)];
    assert b[4..] == [];
    RoundExhausted(a, b, a, b, 4);
    MergeStep(a, b, a, b, 4, 4, p3, 5, 4, []);
    RoundDrainRight(a, b, a, b, 3, 2);
    assert FirstIn(a, b, 2) == Some(3);
    assert b[2..3] == [4];
    MergeStep(a, b, a, b, 3, 2, p2, 4, 4, p3 + []);
    RoundDrainLeft(a, b, a, b, 1, 1);
    assert FirstIn(b, a, 1) == Some(2);
    assert a[1..2] == [2];
    MergeStep(a, b, a, b, 1, 1, p1, 3, 2, p2 + (p3 + []));
    RoundEqual(a, b, a, b, 0, 0);
    MergeStep(a, b, a, b, 0, 0, p0, 1, 1, p1 + (p2 + (p3 + [])));
    assert p0 + (p1 + (p2 + (p3 + []))) == [Pair(Some(1), Some(1)), Pair(Some(2), None), Pair(Some(3), Some(3)), Pair(None, Some(4)), Pair(Some(5), Some(5)), Pair(Some(6), None)];
  }

  /** `lstcomp([1,2,3,5,6], [1,3,4,5])`. */
  lemma DocMatchesAndGaps(a: seq<int>, b: seq<int>)
    requires a == [1, 2, 3, 5, 6] && b == [1, 3, 4, 5]
    ensures Aligned(a, b) == Success([Pair(Some(1), Some(1)), Pair(Some(2), None), Pair(Some(3), Some(3)), Pair(None, Some(4)), Pair(Some(5), Some(5)), Pair(Some(6), None)])
  {
    AlignedOfSorted(a, b);
    DocMatchesAndGapsRounds(a, b);
  }

  /** Rounds of the walk for DocMatchesAndGapsSwapped. */
  lemma DocMatchesAndGapsSwappedRounds(a: seq<int>, b: seq<int>)
    requires a == [1, 3, 4, 5] && b == [1, 2, 3, 5, 6]
    ensures MergeFrom(a, b, a, b, 0, 0) == Success([Pair(Some(1), Some(1)), Pair(None, Some(2)), Pair(Some(3), Some(3)), Pair(Some(4), None), Pair(Some(5), Some(5)), Pair(None, Some(6))])
  {
    var p0, p1 := [Pair(Some(1), Some(1))], [Pair(None, Some(2)), Pair(Some(3), Some(3))];
    var p2, p3 := [Pair(Some(4), None), Pair(Some(5), Some(5))], [Pair(None, Some(6))];
    assert RightOnly(b[4..]) == p3;
    RoundDrainLeft(a, b, a, b, 2, 3);
    assert FirstIn(b, a, 2) == Some(3);
    assert a[2..3] == [4];
    MergeStep(a, b, a, b, 2, 3, p2, 4, 4, p3);
    RoundDrainRight(a, b, a, b, 1, 1);
    assert FirstIn(a, b, 1) == Some(2);
    assert b[1..2] == [2];
    MergeStep(a, b, a, b, 1, 1, p1, 2, 3, p2 + p3);
    RoundEqual(a, b, a, b, 0, 0);
    MergeStep(a, b, a, b, 0, 0, p0, 1, 1, p1 + (p2 + p3));
    assert p0 + (p1 + (p2 + p3)) == [Pair(Some(1), Some(1)), Pair(None, Some(2)), Pair(Some(3), Some(3)), Pair(Some(4), None), Pair(Some(5), Some(5)), Pair(None, Some(6))];
  }

  /** `lstcomp([1,3,4,5], [1,2,3,5,6])`. */
  lemma DocMatchesAndGapsSwapped(a: seq<int>, b: seq<int>)
    requires a == [1, 3, 4, 5] && b == [1, 2, 3, 5, 6]
    ensures Aligned(a, b) == Success([Pair(Some(1), Some(1)), Pair(None, Some(2)), Pair(Some(3), Some(3)), Pair(Some(4), None), Pair(Some(5), Some(5)), Pair(None, Some(6))])
  {
    AlignedOfSorted(a, b);
    DocMatchesAndGapsSwappedRounds(a, b);
  }

  /** Rounds of the walk for DocOneLeft. */
  lemma DocOneLeftRounds(a: seq<int>, b: seq<int>)
    requires a == [1] && b == [2, 3, 4, 5, 6]
    ensures MergeFrom(a, b, a, b, 0, 0) == Success([Pair(Some(1), None), Pair(None, Some(2)), Pair(None, Some(3)), Pair(None, Some(4)), Pair(None, Some(5)), Pair(None, Some(6))])
  {
    var p0, p1 := [Pair(Some(1), None), Pair(None, Some(2))], [Pair(None, Some(3)), Pair(None, Some(4)), Pair(None, Some(5)), Pair(None, Some(6))];
    assert RightOnly(b[1..]) == p1;
    RoundNeither(a, b, a, b, 0, 0);
    MergeStep(a, b, a, b, 0, 0, p0, 1, 1, p1);
    assert p0 + p1 == [Pair(Some(1), None), Pair(None, Some(2)), Pair(None, Some(3)), Pair(None, Some(4)), Pair(None, Some(5)), Pair(None, Some(6))];
  }

  /** `lstcomp([1], [2,3,4,5,6])`. */
  lemma DocOneLeft(a: seq<int>, b: seq<int>)
    requires a == [1] && b == [2, 3, 4, 5, 6]
    ensures Aligned(a, b) == Success([Pair(Some(1), None), Pair(None, Some(2)), Pair(None, Some(3)), Pair(None, Some(4)), Pair(None, Some(5)), Pair(None, Some(6))])
  {
    AlignedOfSorted(a, b);
    DocOneLeftRounds(a, b);
  }

  /** Rounds of the walk for DocOneRight. */
  lemma DocOneRightRounds(a: seq<int>, b: seq<int>)
    requires a == [2, 3, 4, 5, 6] && b == [1]
    ensures MergeFrom(a, b, a, b, 0, 0) == Success([Pair(None, Some(1)), Pair(Some(2), None), Pair(Some(3), None), Pair(Some(4), None), Pair(Some(5), None), Pair(Some(6), None)])
  {
    var p0 := [Pair(None, Some(1)), Pair(Some(2), None)];
    var p1, p2, p3, p4 := [Pair(Some(3), None)], [Pair(Some(4), None)], [Pair(Some(5), None)], [Pair(Some(6), None)];
    assert b[1..] == [];
    RoundExhausted(a, b, a, b, 4);
    MergeStep(a, b, a, b, 4, 1, p4, 5, 1, []);
    RoundExhausted(a, b, a, b, 3);
    MergeStep(a, b, a, b, 3, 1, p3, 4, 1, p4 + []);
    RoundExhausted(a, b, a, b, 2);
    MergeStep(a, b, a, b, 2, 1, p2, 3, 1, p3 + (p4 + []));
    RoundExhausted(a, b, a, b, 1);
    MergeStep(a, b, a, b, 1, 1, p1, 2, 1, p2 + (p3 + (p4 + [])));
    RoundNeither(a, b, a, b, 0, 0);
    MergeStep(a, b, a, b, 0, 0, p0, 1, 1, p1 + (p2 + (p3 + (p4 + []))));
    assert p0 + (p1 + (p2 + (p3 + (p4 + [])))) == [Pair(None, Some(1)), Pair(Some(2), None), Pair(Some(3), None), Pair(Some(4), None), Pair(Some(5), None), Pair(Some(6), None)];
  }

  /** `lstcomp([2,3,4,5,6], [1])`. */
  lemma DocOneRight(a: seq<int>, b: seq<int>)
    requires a == [2, 3, 4, 5, 6] && b == [1]
    ensures Aligned(a, b) == Success([Pair(None, Some(1)), Pair(Some(2), None), Pair(Some(3), None), Pair(Some(4), None), Pair(Some(5), None), Pair(Some(6), None)])
  {
    AlignedOfSorted(a, b);
    DocOneRightRounds(a, b);
  }

  /** Rounds of the walk for DocInterleavedRightFirst. */
  lemma DocInterleavedRightFirstRounds(a: seq<int>, b: seq<int>)
    requires a == [2, 4, 6] && b == [1, 3, 5]
    ensures MergeFrom(a, b, a, b, 0, 0) == Success([Pair(None, Some(1)), Pair(Some(2), None), Pair(None, Some(3)), Pair(Some(4), None), Pair(None, Some(5)), Pair(Some(6), None)])
  {
    var p0, p1, p2 := [Pair(None, Some(1)), Pair(Some(2), None)], [Pair(None, Some(3)), Pair(Some(4), None)], [Pair(None, Some(5)), Pair(Some(6), None)];
    assert b[3..] == [];
    RoundNeither(a, b, a, b, 2, 2);
    MergeStep(a, b, a, b, 2, 2, p2, 3, 3, []);
    RoundNeither(a, b, a, b, 1, 1);
    MergeStep(a, b, a, b, 1, 1, p1, 2, 2, p2 + []);
    RoundNeither(a, b, a, b, 0, 0);
    MergeStep(a, b, a, b, 0, 0, p0, 1, 1, p1 + (p2 + []));
    assert p0 + (p1 + (p2 + [])) == [Pair(None, Some(1)), Pair(Some(2), None), Pair(None, Some(3)), Pair(Some(4), None), Pair(None, Some(5)), Pair(Some(6), None)];
  }

  /** `lstcomp([2,4,6], [1,3,5])`. */
  lemma DocInterleavedRightFirst(a: seq<int>, b: seq<int>)
    requires a == [2, 4, 6] && b == [1, 3, 5]
    ensures Aligned(a, b) == Success([Pair(None, Some(1)), Pair(Some(2), None), Pair(None, Some(3)), Pair(Some(4), None), Pair(None, Some(5)), Pair(Some(6), None)])
  {
    AlignedOfSorted(a, b);
    DocInterleavedRightFirstRounds(a, b);
  }

  /** Rounds of the walk for DocInterleavedLeftFirst. */
  lemma DocInterleavedLeftFirstRounds(a: seq<int>, b: seq<int>)
    requires a == [1, 3, 5] && b == [2, 4, 6]
    ensures MergeFrom(a, b, a, b, 0, 0) == Success([Pair(Some(1), None), Pair(None, Some(2)), Pair(Some(3), None), Pair(None, Some(4)), Pair(Some(5), None), Pair(None, Some(6))])
  {
    var p0, p1, p2 := [Pair(Some(1), None), Pair(None, Some(2))], [Pair(Some(3), None), Pair(None, Some(4))], [Pair(Some(5), None), Pair(None, Some(6))];
    assert b[3..] == [];
    RoundNeither(a, b, a, b, 2, 2);
    MergeStep(a, b, a, b, 2, 2, p2, 3, 3, []);
    RoundNeither(a, b, a, b, 1, 1);
    MergeStep(a, b, a, b, 1, 1, p1, 2, 2, p2 + []);
    RoundNeither(a, b, a, b, 0, 0);
    MergeStep(a, b, a, b, 0, 0, p0, 1, 1, p1 + (p2 + []));
    assert p0 + (p1 + (p2 + [])) == [Pair(Some(1), None), Pair(None, Some(2)), Pair(Some(3), None), Pair(None, Some(4)), Pair(Some(5), None), Pair(None, Some(6))];
  }

  /** `lstcomp([1,3,5], [2,4,6])`. */
  lemma DocInterleavedLeftFirst(a: seq<int>, b: seq<int>)
    requires a == [1, 3, 5] && b == [2, 4, 6]
    ensures Aligned(a, b) == Success([Pair(Some(1), None), Pair(None, Some(2)), Pair(Some(3), None), Pair(None, Some(4)), Pair(Some(5), None), Pair(None, Some(6))])
  {
    AlignedOfSorted(a, b);
    DocInterleavedLeftFirstRounds(a, b);
  }

  /** Rounds of the walk for DocRightEmpty. */
  lemma DocRightEmptyRounds(a: seq<int>, b: seq<int>)
    requires a == [1, 3, 5] && b == []
    ensures MergeFrom(a, b, a, b, 0, 0) == Success([Pair(Some(1), None), Pair(Some(3), None), Pair(Some(5), None)])
  {
    var p0, p1, p2 := [Pair(Some(1), None)], [Pair(Some(3), None)], [Pair(Some(5), None)];
    RoundExhausted(a, b, a, b, 2);
    MergeStep(a, b, a, b, 2, 0, p2, 3, 0, []);
    RoundExhausted(a, b, a, b, 1);
    MergeStep(a, b, a, b, 1, 0, p1, 2, 0, p2 + []);
    RoundExhausted(a, b, a, b, 0);
    MergeStep(a, b, a, b, 0, 0, p0, 1, 0, p1 + (p2 + []));
    assert p0 + (p1 + (p2 + [])) == [Pair(Some(1), None), Pair(Some(3), None), Pair(Some(5), None)];
  }

  /** `lstcomp([1,3,5], [])`. */
  lemma DocRightEmpty(a: seq<int>, b: seq<int>)
    requires a == [1, 3, 5] && b == []
    ensures Aligned(a, b) == Success([Pair(Some(1), None), Pair(Some(3), None), Pair(Some(5), None)])
  {
    AlignedOfSorted(a, b);
    DocRightEmptyRounds(a, b);
  }

  /** Rounds of the walk for DocLeftEmpty. */
  lemma DocLeftEmptyRounds(a: seq<int>, b: seq<int>)
    requires a == [] && b == [1, 2, 3]
    ensures MergeFrom(a, b, a, b, 0, 0) == Success([Pair(None, Some(1)), Pair(None, Some(2)), Pair(None, Some(3))])
  {
    assert RightOnly(b[0..]) == [Pair(None, Some(1)), Pair(None, Some(2)), Pair(None, Some(3))];
  }

  /** `lstcomp([], [1,2,3])`. */
  lemma DocLeftEmpty(a: seq<int>, b: seq<int>)
    requires a == [] && b == [1, 2, 3]
    ensures Aligned(a, b) == Success([Pair(None, Some(1)), Pair(None, Some(2)), Pair(None, Some(3))])
  {
    AlignedOfSorted(a, b);
    DocLeftEmptyRounds(a, b);
  }

  /** Rounds of the walk for NotSortedMerge. */
  lemma NotSortedMergeRounds(a: seq<int>, b: seq<int>)
    requires a == [3] && b == [1, 2]
    ensures MergeFrom(a, b, a, b, 0, 0) == Success([Pair(None, Some(1)), Pair(Some(3), None), Pair(None, Some(2))])
  {
    var p0, p1 := [Pair(None, Some(1)), Pair(Some(3), None)], [Pair(None, Some(2))];
    assert RightOnly(b[1..]) == p1;
    RoundNeither(a, b, a, b, 0, 0);
    MergeStep(a, b, a, b, 0, 0, p0, 1, 1, p1);
    assert p0 + p1 == [Pair(None, Some(1)), Pair(Some(3), None), Pair(None, Some(2))];
  }

  /** The output is not a sorted merge: the branch for an entry of neither list
    consumes both iterators, so `(None, 2)` comes after `(3, None)`. */
  lemma NotSortedMerge(a: seq<int>, b: seq<int>)
    requires a == [3] && b == [1, 2]
    ensures Aligned(a, b) == Success([Pair(None, Some(1)), Pair(Some(3), None), Pair(None, Some(2))])
  {
    AlignedOfSorted(a, b);
    NotSortedMergeRounds(a, b);
  }
  /**
    With a repeated entry the inner `while not el2 in lst1` loop reads past the
    end of the second iterator, and `StopIteration` escapes from `lstcomp`.
   */
  lemma RepeatedEntryRaises(a: seq<int>, b: seq<int>)
    requires a == [2, 2] && b == [2, 3]
    ensures Aligned(a, b) == Failure(StopIteration)
  {
    AlignedOfSorted(a, b);
    RoundDrainRight(a, b, a, b, 1, 1);
    assert FirstIn(a, b, 1) == None by {
      assert FirstIn(a, b, 2) == None;
    }
    MergeUnfold(a, b, a, b, 1, 1);
    RoundEqual(a, b, a, b, 0, 0);
    MergeUnfold(a, b, a, b, 0, 0);
  }
}
