/** Leave-one-out splitting of a sequential dataset and the `build`
    driver that validates the evaluation setting before splitting.

    A dataset view is the owning dataset with only its four index arrays
    replaced by the rows an index list selects; everything else is shared
    unchanged. The grouping and partitioning of record positions by user
    is done by helpers of the base dataset, which appear here as the
    function parameter `split`. */
module SequentialSplit {
  import opened Augmentation

  /** The part of a sequential dataset this core reads and writes.
      `uidColumn` is the user-id column of the interaction table, already
      sorted by (user, time). */
  datatype Dataset = Dataset(
    uidField: string,
    timeField: string,
    uidColumn: seq<int>,
    maxItemListLength: int,
    index: IndexArrays)

  /** Why a `ValueError` was raised. */
  datatype Reason =
    | NoGroupField
    | NotGroupedByUser
    | ShuffleOrdering
    | NotTimeOrdering
    | NotAscending
    | NotLeaveOneOut

  /** What a call produces: a list of views, Python's `None` (no views and
      no exception), a `ValueError`, or the `IndexError` numpy raises on an
      out-of-range index. */
  datatype Outcome =
    | Views(views: seq<Dataset>)
    | NoResult
    | ValueError(reason: Reason)
    | IndexError

  /** The base-dataset helpers: from the augmented uid list and the
      leave-one-out count, a list of index lists, one per partition. */
  type Splitter = (seq<int>, int) -> seq<seq<nat>>

  datatype OrderingArgs = OrderingArgs(strategy: string, field: Option<string>, ascending: Option<bool>)

  datatype SplitArgs = SplitArgs(strategy: string, leaveOneNum: int)

  datatype EvalSetting = EvalSetting(orderingArgs: OrderingArgs, groupField: Option<string>, splitArgs: SplitArgs)

  /** Fancy indexing of one array: element t of the result is element
      index[t] of the input. */
  function Pick<T>(s: seq<T>, index: seq<nat>): (r: seq<T>)
    requires forall t :: 0 <= t < |index| ==> index[t] < |s|
    ensures |r| == |index|
    ensures forall t :: 0 <= t < |index| ==> r[t] == s[index[t]]
  {
    if |index| == 0 then [] else [s[index[0]]] + Pick(s, index[1..])
  }

  predicate InRange(a: IndexArrays, index: seq<nat>) {
    forall t :: 0 <= t < |index| ==> index[t] < Size(a)
  }

  /** The same index list applied to all four arrays. */
  function SelectRows(a: IndexArrays, index: seq<nat>): (r: IndexArrays)
    requires Parallel(a) && InRange(a, index)
    ensures Parallel(r) && Size(r) == |index|
    ensures forall t :: 0 <= t < |index| ==> RowOf(r, t) == RowOf(a, index[t])
  {
    IndexArrays(
      Pick(a.uidList, index),
      Pick(a.itemListIndex, index),
      Pick(a.targetIndex, index),
      Pick(a.itemListLength, index))
  }

  /** v is the view of ds that keeps the records of a at positions
      `index`: its arrays are parallel, record t is record index[t] of a
      unchanged, and nothing but the index arrays differs from ds. */
  predicate IsViewOf(v: Dataset, ds: Dataset, a: IndexArrays, index: seq<nat>)
    requires Parallel(a)
  {
    && v.(index := ds.index) == ds
    && Parallel(v.index)
    && Size(v.index) == |index|
    && forall t :: 0 <= t < |index| ==> index[t] < Size(a) && RowOf(v.index, t) == RowOf(a, index[t])
  }

  /** One view per index list, in order. */
  function MakeViews(ds: Dataset, a: IndexArrays, parts: seq<seq<nat>>): (vs: seq<Dataset>)
    requires Parallel(a)
    requires forall k :: 0 <= k < |parts| ==> InRange(a, parts[k])
    ensures |vs| == |parts|
    ensures forall k :: 0 <= k < |parts| ==> IsViewOf(vs[k], ds, a, parts[k])
  {
    if |parts| == 0 then []
    else MakeViews(ds, a, parts[..|parts| - 1]) + [ds.(index := SelectRows(a, parts[|parts| - 1]))]
  }

  /** The index arrays that augmentation derives for a dataset. */
  function Augmented(ds: Dataset): (a: IndexArrays)
    ensures Parallel(a)
  {
    ToArrays(Augment(ds.uidColumn, ds.maxItemListLength))
  }

  /** Leave-one-out for sequential models. The group field must be present
      and must be the user field; both are checked before any augmentation.
      Otherwise the records are re-derived from the table, partitioned by
      `split`, and one view per partition is returned in order; an index
      outside the records raises numpy's IndexError. */
  function LeaveOneOut(ds: Dataset, groupBy: Option<string>, leaveOneNum: int, split: Splitter): (r: Outcome)
    ensures groupBy == None ==> r == ValueError(NoGroupField)
    ensures groupBy.Some? && groupBy.value != ds.uidField ==> r == ValueError(NotGroupedByUser)
    ensures groupBy == Some(ds.uidField) ==>
              var a := Augmented(ds);
              var parts := split(a.uidList, leaveOneNum);
              && (r.Views? <==> forall k :: 0 <= k < |parts| ==> InRange(a, parts[k]))
              && (!r.Views? ==> r == IndexError)
              && (r.Views? ==> |r.views| == |parts| &&
                                forall k :: 0 <= k < |parts| ==> IsViewOf(r.views[k], ds, a, parts[k]))
  {
    if groupBy.None? then ValueError(NoGroupField)
    else if groupBy.value != ds.uidField then ValueError(NotGroupedByUser)
    else
      var a := Augmented(ds);
      var parts := split(a.uidList, leaveOneNum);
      if forall k :: 0 <= k < |parts| ==> InRange(a, parts[k]) then Views(MakeViews(ds, a, parts))
      else IndexError
  }

  /** The orderings under which sequential augmentation is meaningful:
      anything but a shuffle, and an explicit ordering only by the time
      field, ascending. */
  predicate KeepsTimeOrder(o: OrderingArgs, timeField: string) {
    && o.strategy != "shuffle"
    && (o.strategy == "by" ==> o.field == Some(timeField) && o.ascending == Some(true))
  }

  /** `build` as written: ordering checks, then leave-one-out for the
      "loo" strategy; any other split strategy builds an error value that
      is never raised, so the call returns nothing. */
  function Build(ds: Dataset, setting: EvalSetting, split: Splitter): (r: Outcome)
    ensures setting.orderingArgs.strategy == "shuffle" ==> r == ValueError(ShuffleOrdering)
    ensures setting.orderingArgs.strategy == "by" && setting.orderingArgs.field != Some(ds.timeField) ==>
              r == ValueError(NotTimeOrdering)
    ensures (r.ValueError? && r.reason in {ShuffleOrdering, NotTimeOrdering, NotAscending}) <==>
              !KeepsTimeOrder(setting.orderingArgs, ds.timeField)
    ensures KeepsTimeOrder(setting.orderingArgs, ds.timeField) && setting.splitArgs.strategy == "loo" ==>
              r == LeaveOneOut(ds, setting.groupField, setting.splitArgs.leaveOneNum, split)
    ensures KeepsTimeOrder(setting.orderingArgs, ds.timeField) && setting.splitArgs.strategy != "loo" ==>
              r == NoResult
  {
    match CheckOrdering(setting.orderingArgs, ds.timeField)
    case Some(reason) => ValueError(reason)
    case None =>
      if setting.splitArgs.strategy == "loo" then
        LeaveOneOut(ds, setting.groupField, setting.splitArgs.leaveOneNum, split)
      else
        NoResult
  }

  /** `build` with the unsupported-split error raised as evidently intended. */
  function BuildRaising(ds: Dataset, setting: EvalSetting, split: Splitter): (r: Outcome)
    ensures r != NoResult
    ensures setting.splitArgs.strategy != "loo" && KeepsTimeOrder(setting.orderingArgs, ds.timeField) ==>
              r == ValueError(NotLeaveOneOut)
    ensures setting.splitArgs.strategy == "loo" || !KeepsTimeOrder(setting.orderingArgs, ds.timeField) ==>
              r == Build(ds, setting, split)
  {
    match CheckOrdering(setting.orderingArgs, ds.timeField)
    case Some(reason) => ValueError(reason)
    case None =>
      if setting.splitArgs.strategy == "loo" then
        LeaveOneOut(ds, setting.groupField, setting.splitArgs.leaveOneNum, split)
      else
        ValueError(NotLeaveOneOut)
  }

  /** The ordering checks of `build`, in source order: a shuffle first,
      then for an explicit ordering the field before the direction. */
  function CheckOrdering(o: OrderingArgs, timeField: string): (e: Option<Reason>)
    ensures e == None <==> KeepsTimeOrder(o, timeField)
    ensures e.Some? ==> e.value in {ShuffleOrdering, NotTimeOrdering, NotAscending}
  {
    if o.strategy == "shuffle" then Some(ShuffleOrdering)
    else if o.strategy == "by" then
      if o.field != Some(timeField) then Some(NotTimeOrdering)
      else if o.ascending != Some(true) then Some(NotAscending)
      else None
    else None
  }

  /** Position j occurs in some index list. */
  predicate Named(parts: seq<seq<nat>>, j: nat) {
    exists k, t :: 0 <= k < |parts| && 0 <= t < |parts[k]| && parts[k][t] == j
  }

  /** The index lists together name every position below n. */
  predicate Covers(parts: seq<seq<nat>>, n: nat) {
    forall j: nat :: j < n ==> Named(parts, j)
  }

  lemma ViewRecord(v: Dataset, ds: Dataset, a: IndexArrays, index: seq<nat>, t: nat)
    requires Parallel(a) && IsViewOf(v, ds, a, index) && t < |index|
    ensures Parallel(v.index) && t < Size(v.index) && index[t] < Size(a)
    ensures RowOf(v.index, t) == RowOf(a, index[t])
  {
  }

  /** Views hold nothing new: every record of every view is a record of
      the augmented arrays. */
  lemma LeaveOneOutNoNewRecords(ds: Dataset, leaveOneNum: int, split: Splitter, vs: seq<Dataset>)
    requires LeaveOneOut(ds, Some(ds.uidField), leaveOneNum, split) == Views(vs)
    ensures var a := Augmented(ds);
            forall k, t :: 0 <= k < |vs| && 0 <= t < Size(vs[k].index) ==>
              Parallel(vs[k].index) && exists j :: 0 <= j < Size(a) && RowOf(vs[k].index, t) == RowOf(a, j)
  {
  }

  /** Record c is record t of some view in vs. */
  predicate InSomeView(vs: seq<Dataset>, c: Case) {
    exists k, t :: 0 <= k < |vs| && 0 <= t < Size(vs[k].index) && Parallel(vs[k].index) && RowOf(vs[k].index, t) == c
  }

  /** When the partitions together name every record position, every
      augmented record shows up unchanged in some view. */
  lemma LeaveOneOutCoversRecords(ds: Dataset, leaveOneNum: int, split: Splitter, vs: seq<Dataset>)
    requires LeaveOneOut(ds, Some(ds.uidField), leaveOneNum, split) == Views(vs)
    requires Covers(split(Augmented(ds).uidList, leaveOneNum), Size(Augmented(ds)))
    ensures var a := Augmented(ds);
            forall j :: 0 <= j < Size(a) ==> InSomeView(vs, RowOf(a, j))
  {
    var a := Augmented(ds);
    var parts := split(a.uidList, leaveOneNum);
    forall j | 0 <= j < Size(a)
      ensures InSomeView(vs, RowOf(a, j))
    {
      assert Named(parts, j);
      var k, t :| 0 <= k < |parts| && 0 <= t < |parts[k]| && parts[k][t] == j;
      ViewRecord(vs[k], ds, a, parts[k], t);
      assert 0 <= k < |vs| && 0 <= t < Size(vs[k].index) && Parallel(vs[k].index) && RowOf(vs[k].index, t) == RowOf(a, j);
    }
  }

  /** Any earlier augmentation state of the dataset is overwritten:
      leave-one-out gives the same outcome whatever index arrays the
      dataset held before. */
  lemma LeaveOneOutIgnoresPriorIndex(ds: Dataset, prior: IndexArrays, groupBy: Option<string>, leaveOneNum: int, split: Splitter)
    ensures LeaveOneOut(ds.(index := prior), groupBy, leaveOneNum, split) == LeaveOneOut(ds, groupBy, leaveOneNum, split)
  {
    var ds' := ds.(index := prior);
    if groupBy == Some(ds.uidField) {
      var a := Augmented(ds);
      assert Augmented(ds') == a;
      var parts := split(a.uidList, leaveOneNum);
      if forall k :: 0 <= k < |parts| ==> InRange(a, parts[k]) {
        MakeViewsIgnoresPriorIndex(ds, prior, a, parts);
      }
    }
  }

  lemma {:induction false} MakeViewsIgnoresPriorIndex(ds: Dataset, prior: IndexArrays, a: IndexArrays, parts: seq<seq<nat>>)
    requires Parallel(a)
    requires forall k :: 0 <= k < |parts| ==> InRange(a, parts[k])
    ensures MakeViews(ds.(index := prior), a, parts) == MakeViews(ds, a, parts)
  {
    if |parts| > 0 {
      MakeViewsIgnoresPriorIndex(ds, prior, a, parts[..|parts| - 1]);
    }
  }

  /** `build` returns views only for a time-preserving ordering, the "loo"
      split strategy and grouping by the user field. */
  lemma BuildViewsOnlyWhenValid(ds: Dataset, setting: EvalSetting, split: Splitter)
    requires Build(ds, setting, split).Views?
    ensures KeepsTimeOrder(setting.orderingArgs, ds.timeField)
    ensures setting.splitArgs.strategy == "loo"
    ensures setting.groupField == Some(ds.uidField)
  {
  }

  /** As written, a valid ordering with a split strategy other than "loo"
      returns no views and raises nothing, for instance a random split. */
  lemma BuildSwallowsSplitError(ds: Dataset, split: Splitter)
    ensures Build(ds, EvalSetting(OrderingArgs("none", None, None), Some(ds.uidField), SplitArgs("rs", 1)), split) == NoResult
  {
  }
}
