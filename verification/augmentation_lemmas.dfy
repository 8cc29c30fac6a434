/** Properties of the augmentation records: how many there are, their
    order, which rows they target, and the shape of each history window. */
module AugmentationLemmas {
  import opened Augmentation

  lemma {:induction false} CasesIncreasing(u: seq<int>, maxLen: int, n: nat)
    requires n <= |u|
    ensures forall j, k :: 0 <= j < k < |Cases(u, maxLen, n)| ==>
              Cases(u, maxLen, n)[j].target < Cases(u, maxLen, n)[k].target
  {
    if n > 0 {
      CasesIncreasing(u, maxLen, n - 1);
      CasesAreCaseAt(u, maxLen, n - 1);
      var prev := Cases(u, maxLen, n - 1);
      var cur := Cases(u, maxLen, n);
      assert forall j :: 0 <= j < |prev| ==> cur[j] == prev[j];
      forall j, k | 0 <= j < k < |cur|
        ensures cur[j].target < cur[k].target
      {
        if k == |prev| {
          assert cur[k].target == n - 1;
        }
      }
    }
  }

  /** The record that a row which does not open its run emits, found by position. */
  lemma {:induction false} CasesFind(u: seq<int>, maxLen: int, n: nat, i: nat) returns (j: nat)
    requires i < n <= |u| && !IsRunStart(u, i)
    ensures j < |Cases(u, maxLen, n)| && Cases(u, maxLen, n)[j].target == i
  {
    var prev := Cases(u, maxLen, n - 1);
    if i < n - 1 {
      j := CasesFind(u, maxLen, n - 1, i);
      assert Cases(u, maxLen, n)[j] == prev[j];
    } else {
      j := |prev|;
    }
  }

  lemma {:induction false} CasesCount(u: seq<int>, maxLen: int, n: nat)
    requires n <= |u|
    ensures |Cases(u, maxLen, n)| == n - RunCount(u, n)
  {
    if n > 0 {
      CasesCount(u, maxLen, n - 1);
    }
  }

  /** Record count: every row except the first of each run emits one
      record, so a column of N rows in R runs yields N - R records; a
      user with a single interaction contributes nothing. */
  lemma AugmentRecordCount(u: seq<int>, maxLen: int)
    ensures |Augment(u, maxLen)| == |u| - RunCount(u, |u|)
    ensures 0 < |u| ==> |Augment(u, maxLen)| < |u|
  {
    CasesCount(u, maxLen, |u|);
    if 0 < |u| {
      RunCountPositive(u, |u|);
    }
  }

  lemma {:induction false} RunCountPositive(u: seq<int>, n: nat)
    requires 0 < n <= |u|
    ensures 0 < RunCount(u, n)
  {
    if n > 1 {
      RunCountPositive(u, n - 1);
    }
  }

  /** Target order: targets strictly increase, and a row is the target of
      some record exactly when it is a valid row that does not open its run. */
  lemma AugmentTargets(u: seq<int>, maxLen: int)
    ensures var cs := Augment(u, maxLen);
            forall j, k :: 0 <= j < k < |cs| ==> cs[j].target < cs[k].target
    ensures var cs := Augment(u, maxLen);
            forall j :: 0 <= j < |cs| ==> 0 < cs[j].target < |u| && !IsRunStart(u, cs[j].target)
    ensures var cs := Augment(u, maxLen);
            forall i :: 0 <= i < |u| ==>
              (!IsRunStart(u, i) <==> exists j :: 0 <= j < |cs| && cs[j].target == i)
  {
    var cs := Augment(u, maxLen);
    CasesIncreasing(u, maxLen, |u|);
    CasesAreCaseAt(u, maxLen, |u|);
    forall i | 0 <= i < |u| && !IsRunStart(u, i)
      ensures exists j :: 0 <= j < |cs| && cs[j].target == i
    {
      var j := CasesFind(u, maxLen, |u|, i);
    }
    forall i | 0 <= i < |u| && exists j :: 0 <= j < |cs| && cs[j].target == i
      ensures !IsRunStart(u, i)
    {
      var j :| 0 <= j < |cs| && cs[j].target == i;
    }
  }

  /** Sliding window: the record targeting row t of a run that starts at s
      has history [max(s, t - L), t) and length min(t - s, L), with t - s
      at least one; every history row and the record's uid carry the
      target's user id. */
  lemma AugmentWindow(u: seq<int>, maxLen: int)
    ensures var cs := Augment(u, maxLen);
            forall j :: 0 <= j < |cs| ==>
              var c := cs[j];
              0 <= c.target < |u| &&
              var s := RunStart(u, c.target);
              && 1 <= c.target - s
              && c.history == Slice(Max(s, c.target - Cap(maxLen)), c.target)
              && c.length == Min(c.target - s, Cap(maxLen))
              && c.length == c.history.stop - c.history.start
              && c.uid == u[c.target]
              && forall p :: c.history.start <= p < c.history.stop ==> u[p] == c.uid
  {
    CasesAreCaseAt(u, maxLen, |u|);
  }

  /** The same window property stated per run: for the run opened at row
      s, the row s + k inside it (k >= 1) has a record with history
      [max(s, s + k - L), s + k) and length min(k, L). */
  lemma AugmentRunWindow(u: seq<int>, maxLen: int, s: nat, k: nat)
    requires 1 <= k && s + k < |u| && RunStart(u, s + k) == s
    ensures var cs := Augment(u, maxLen);
            exists j :: 0 <= j < |cs| && cs[j] == Case(u[s], Slice(Max(s, s + k - Cap(maxLen)), s + k), s + k, Min(k, Cap(maxLen)))
  {
    var cs := Augment(u, maxLen);
    var j := CasesFind(u, maxLen, |u|, s + k);
    CasesAreCaseAt(u, maxLen, |u|);
    assert cs[j] == CaseAt(u, maxLen, s + k);
  }

  /** Length cap: with a positive maximum L every history holds between
      one and L rows. */
  lemma AugmentLengthCap(u: seq<int>, maxLen: int)
    requires 1 <= maxLen
    ensures var cs := Augment(u, maxLen);
            forall j :: 0 <= j < |cs| ==> 1 <= cs[j].length <= maxLen
  {
    AugmentWindow(u, maxLen);
  }

  /** Window advance: when the row after record j's target belongs to the
      same user, the next record targets that row, and its window start
      is record j's start, moved up by one exactly when the new window
      would be longer than the maximum. */
  lemma AugmentSlidingStep(u: seq<int>, maxLen: int)
    ensures var cs := Augment(u, maxLen);
            forall j :: 0 <= j < |cs| && 0 <= cs[j].target && cs[j].target + 1 < |u| && !IsRunStart(u, cs[j].target + 1) ==>
              && j + 1 < |cs|
              && cs[j + 1].target == cs[j].target + 1
              && cs[j + 1].history.start ==
                   if cs[j + 1].target - cs[j].history.start > maxLen
                   then cs[j].history.start + 1 else cs[j].history.start
  {
    var cs := Augment(u, maxLen);
    forall j | 0 <= j < |cs| && 0 <= cs[j].target && cs[j].target + 1 < |u| && !IsRunStart(u, cs[j].target + 1)
      ensures j + 1 < |cs| && cs[j + 1].target == cs[j].target + 1
      ensures cs[j + 1].history.start ==
                if cs[j + 1].target - cs[j].history.start > maxLen
                then cs[j].history.start + 1 else cs[j].history.start
    {
      SlidingStepAt(u, maxLen, j);
    }
  }

  lemma SlidingStepAt(u: seq<int>, maxLen: int, j: nat)
    requires j < |Augment(u, maxLen)|
    requires var t := Augment(u, maxLen)[j].target; 0 <= t && t + 1 < |u| && !IsRunStart(u, t + 1)
    ensures var cs := Augment(u, maxLen);
            && j + 1 < |cs|
            && cs[j + 1].target == cs[j].target + 1
            && cs[j + 1].history.start ==
                 if cs[j + 1].target - cs[j].history.start > maxLen
                 then cs[j].history.start + 1 else cs[j].history.start
  {
    var cs := Augment(u, maxLen);
    var t := cs[j].target;
    var k := CasesFind(u, maxLen, |u|, t + 1);
    CasesIncreasing(u, maxLen, |u|);
    assert j < k;
    assert cs[j].target < cs[j + 1].target <= cs[k].target;
    assert k == j + 1;
    CasesAreCaseAt(u, maxLen, |u|);
    assert cs[j] == CaseAt(u, maxLen, t);
    assert cs[k] == CaseAt(u, maxLen, t + 1);
    WindowStartStep(u, maxLen, t + 1);
  }

  /** The example of the indexer's documentation: one user with four
      interactions yields three cases of growing history. */
  lemma DocumentedExample(u: seq<int>, maxLen: int)
    requires u == [1, 1, 1, 1] && maxLen == 50
    ensures Augment(u, maxLen) ==
              [Case(1, Slice(0, 1), 1, 1), Case(1, Slice(0, 2), 2, 2), Case(1, Slice(0, 3), 3, 3)]
  {
    assert RunStart(u, 3) == 0 by {
      assert RunStart(u, 2) == 0 by {
        assert RunStart(u, 1) == 0;
      }
    }
    assert Cases(u, maxLen, 1) == [];
    assert Cases(u, maxLen, 2) == [Case(1, Slice(0, 1), 1, 1)];
    assert Cases(u, maxLen, 3) == [Case(1, Slice(0, 1), 1, 1), Case(1, Slice(0, 2), 2, 2)];
  }

  /** Two users and a cap of one: the window slides after the first
      record, and the second user's single interaction yields nothing. */
  lemma SlidingExample(u: seq<int>, maxLen: int)
    requires u == [1, 1, 1, 2] && maxLen == 1
    ensures Augment(u, maxLen) == [Case(1, Slice(0, 1), 1, 1), Case(1, Slice(1, 2), 2, 1)]
  {
    assert RunStart(u, 2) == 0 by {
      assert RunStart(u, 1) == 0;
    }
    assert Cases(u, maxLen, 1) == [];
    assert Cases(u, maxLen, 2) == [Case(1, Slice(0, 1), 1, 1)];
    assert Cases(u, maxLen, 3) == [Case(1, Slice(0, 1), 1, 1), Case(1, Slice(1, 2), 2, 1)];
  }
}
