/** Augmentation indexer of a sequential recommendation dataset.

    The interaction table is sorted by (user, time); one pass over its
    user-id column emits, for every row that is not the first row of its
    user's run, one index record: the user id, the half-open history slice
    [start, row), the target row and the history length. The records are
    kept as four parallel arrays. */
module Augmentation {

  datatype Option<+T> = None | Some(value: T)

  /** A half-open span [start, stop) of row positions. */
  datatype Slice = Slice(start: int, stop: int)

  /** One augmented training case, i.e. one position across the four arrays. */
  datatype Case = Case(uid: int, history: Slice, target: int, length: int)

  /** The four parallel arrays `uid_list`, `item_list_index`,
      `target_index` and `item_list_length`. */
  datatype IndexArrays = IndexArrays(
    uidList: seq<int>,
    itemListIndex: seq<Slice>,
    targetIndex: seq<int>,
    itemListLength: seq<int>)

  predicate Parallel(a: IndexArrays) {
    && |a.itemListIndex| == |a.uidList|
    && |a.targetIndex| == |a.uidList|
    && |a.itemListLength| == |a.uidList|
  }

  function Size(a: IndexArrays): nat {
    |a.uidList|
  }

  /** Record j read across the four arrays. */
  function RowOf(a: IndexArrays, j: nat): Case
    requires Parallel(a) && j < Size(a)
  {
    Case(a.uidList[j], a.itemListIndex[j], a.targetIndex[j], a.itemListLength[j])
  }

  function Min(x: int, y: int): int { if x <= y then x else y }

  function Max(x: int, y: int): int { if x >= y then x else y }

  /** The window cap actually enforced for a configured maximum length:
      a non-positive maximum lets no history row through. */
  function Cap(maxLen: int): nat {
    if maxLen < 0 then 0 else maxLen
  }

  /** Row i opens a new run of equal user ids. */
  predicate IsRunStart(u: seq<int>, i: nat)
    requires i < |u|
  {
    i == 0 || u[i - 1] != u[i]
  }

  /** First row of the maximal run of equal user ids containing row i. */
  function RunStart(u: seq<int>, i: nat): (s: nat)
    requires i < |u|
    ensures s <= i && IsRunStart(u, s)
    ensures forall p :: s <= p <= i ==> u[p] == u[i]
  {
    if IsRunStart(u, i) then i else RunStart(u, i - 1)
  }

  /** Number of runs among rows 0 .. n-1. */
  function RunCount(u: seq<int>, n: nat): nat
    requires n <= |u|
  {
    if n == 0 then 0
    else RunCount(u, n - 1) + (if IsRunStart(u, n - 1) then 1 else 0)
  }

  /** Start of the history window of row i: the start of its run, moved
      up so that the window holds at most Cap(maxLen) rows. */
  function WindowStart(u: seq<int>, maxLen: int, i: nat): nat
    requires i < |u|
  {
    Max(RunStart(u, i), i - Cap(maxLen))
  }

  /** The record that row i emits when it is not the first of its run. */
  function CaseAt(u: seq<int>, maxLen: int, i: nat): Case
    requires i < |u|
  {
    var s := WindowStart(u, maxLen, i);
    Case(u[i], Slice(s, i), i, i - s)
  }

  /** Reference definition: the records emitted by rows 0 .. n-1, in row order. */
  function Cases(u: seq<int>, maxLen: int, n: nat): seq<Case>
    requires n <= |u|
  {
    if n == 0 then []
    else Cases(u, maxLen, n - 1) + (if IsRunStart(u, n - 1) then [] else [CaseAt(u, maxLen, n - 1)])
  }

  /** All records emitted for a whole user-id column. */
  function Augment(u: seq<int>, maxLen: int): seq<Case> {
    Cases(u, maxLen, |u|)
  }

  /** Lays a sequence of records out as four parallel arrays. */
  function ToArrays(cs: seq<Case>): (a: IndexArrays)
    ensures Parallel(a) && Size(a) == |cs|
    ensures forall j :: 0 <= j < |cs| ==> RowOf(a, j) == cs[j]
  {
    IndexArrays(
      seq(|cs|, j requires 0 <= j < |cs| => cs[j].uid),
      seq(|cs|, j requires 0 <= j < |cs| => cs[j].history),
      seq(|cs|, j requires 0 <= j < |cs| => cs[j].target),
      seq(|cs|, j requires 0 <= j < |cs| => cs[j].length))
  }

  /** The single scan over the sorted user-id column. The four arrays come
      out parallel, each target is the end of its history slice and each
      length is that slice's width, and they hold exactly the reference
      records of Augment. */
  method PrepareDataAugmentation(uids: seq<int>, maxLen: int) returns (a: IndexArrays)
    ensures Parallel(a)
    ensures forall j :: 0 <= j < Size(a) ==>
              && a.targetIndex[j] == a.itemListIndex[j].stop
              && a.itemListLength[j] == a.itemListIndex[j].stop - a.itemListIndex[j].start
    ensures a == ToArrays(Augment(uids, maxLen))
  {
    var lastUid: Option<int> := None;
    var uidList: seq<int> := [];
    var itemListIndex: seq<Slice> := [];
    var targetIndex: seq<int> := [];
    var itemListLength: seq<int> := [];
    var seqStart := 0;
    var i := 0;
    while i < |uids|
      invariant 0 <= i <= |uids|
      invariant lastUid == if i == 0 then None else Some(uids[i - 1])
      invariant 0 < i ==> seqStart == WindowStart(uids, maxLen, i - 1)
      invariant ToArrays(Cases(uids, maxLen, i)) == IndexArrays(uidList, itemListIndex, targetIndex, itemListLength)
    {
      var uid := uids[i];
      if lastUid != Some(uid) {
        lastUid := Some(uid);
        seqStart := i;
      } else {
        WindowStartStep(uids, maxLen, i);
        if i - seqStart > maxLen {
          seqStart := seqStart + 1;
        }
        uidList := uidList + [uid];
        itemListIndex := itemListIndex + [Slice(seqStart, i)];
        targetIndex := targetIndex + [i];
        itemListLength := itemListLength + [i - seqStart];
        ToArraysSnoc(Cases(uids, maxLen, i), CaseAt(uids, maxLen, i));
      }
      i := i + 1;
    }
    a := IndexArrays(uidList, itemListIndex, targetIndex, itemListLength);
    CasesAreCaseAt(uids, maxLen, |uids|);
    assert forall j :: 0 <= j < Size(a) ==> RowOf(a, j) == Augment(uids, maxLen)[j];
  }

  /** Every record emitted by rows 0 .. n-1 is the record CaseAt of its
      target row, and that row lies below n and is not the first of its run. */
  lemma {:induction false} CasesAreCaseAt(u: seq<int>, maxLen: int, n: nat)
    requires n <= |u|
    ensures forall j :: 0 <= j < |Cases(u, maxLen, n)| ==>
              var c := Cases(u, maxLen, n)[j];
              0 < c.target < n && !IsRunStart(u, c.target) && c == CaseAt(u, maxLen, c.target)
  {
    if n > 0 {
      CasesAreCaseAt(u, maxLen, n - 1);
    }
  }

  /** Inside a run, the window start of row i is the previous row's start,
      advanced by one exactly when the window would otherwise exceed the
      configured maximum. */
  lemma WindowStartStep(u: seq<int>, maxLen: int, i: nat)
    requires 0 < i < |u| && !IsRunStart(u, i)
    ensures var prev := WindowStart(u, maxLen, i - 1);
            WindowStart(u, maxLen, i) == if i - prev > maxLen then prev + 1 else prev
  {
  }

  lemma ToArraysSnoc(cs: seq<Case>, c: Case)
    ensures ToArrays(cs + [c]) == IndexArrays(
              ToArrays(cs).uidList + [c.uid],
              ToArrays(cs).itemListIndex + [c.history],
              ToArrays(cs).targetIndex + [c.target],
              ToArrays(cs).itemListLength + [c.length])
  {
  }
}
