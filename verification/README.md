# Sequential dataset augmentation and leave-one-out split

This project models the sequential dataset of RecBole in Dafny. Sequential recommenders learn to predict a user's next item, so the dataset turns each user's time-ordered interactions into "next item" training cases. It stores only indices, never copied item sequences.

- **Augmentation indexer** (`prepare_data_augmentation`). It makes one pass over the user-id column of the interaction table, which is sorted by (user, time). The first row of each run of equal user ids emits nothing. Every later row emits one record: the user id, the history slice `[start, row)`, the target row and the history length. When the history would grow past `MAX_ITEM_LIST_LENGTH`, the window start moves up by one. The records are stored as four parallel arrays: `uid_list`, `item_list_index`, `target_index` and `item_list_length`.
- **Leave-one-out split** (`leave_one_out`). It checks that the group field is present and is the user field, then re-runs augmentation. It partitions the record positions with helpers of the base dataset and returns one dataset view per partition. A view applies the same index list to all four arrays and leaves everything else unchanged.
- **Driver** (`build`). It rejects shuffled ordering. It accepts an explicit ordering only when it is by the time field, ascending. It hands the "loo" split strategy to `leave_one_out`.

Files:

- `augmentation.dfy`, module `Augmentation`:
  - the record datatypes;
  - the reference definition `Augment` (records built row by row from run starts and window starts);
  - the scan `PrepareDataAugmentation`, written like the source loop and proved equal to `Augment`.
- `augmentation_lemmas.dfy`, module `AugmentationLemmas`: record count, target order and completeness, window shape, length cap, the one-step window advance, and two worked examples.
- `sequential_split.dfy`, module `SequentialSplit`:
  - dataset views, `LeaveOneOut`, `Build`, and the corrected `BuildRaising`;
  - lemmas relating the views to the augmented records.

Modelling choices:

- User ids are `int`, and the user-id column is a `seq<int>`. `last_uid` starts as Python `None`, modelled as `Option<int>`.
- `MAX_ITEM_LIST_LENGTH` may be any integer. The source does not check it. The window cap the scan really enforces is `max(L, 0)`: a cap of zero or below gives empty histories.
- The base-dataset helpers `_grouped_index` and `_split_index_by_leave_one_out` become one function parameter, `split`. It maps the augmented uid list and `leave_one_num` to a list of index lists.
- numpy fancy indexing raises `IndexError` when an index is out of range. The model gives that as its own outcome, so no precondition on `split` is needed.
- Every `ValueError` is one outcome that carries a reason tag. Python's `None` return is `NoResult`.
- `ordering_args['ascending']` is an `Option<bool>`. Only `Some(true)` passes the `is not True` test.

## Model

| member | source | states |
|---|---|---|
| `Augmentation.PrepareDataAugmentation` | recbole/data/dataset/sequential_dataset.py:69-87 | the scan's four output arrays have equal length; each target equals its slice's end; each length equals the slice's end minus its start; and the arrays hold exactly the records of the row-by-row reference definition |
| `Augmentation.CasesAreCaseAt` | recbole/data/dataset/sequential_dataset.py:73-82 | every emitted record belongs to a row that is not the first of its run, and is determined by that row: uid, window start and length come from the row's position in its run |
| `Augmentation.WindowStartStep` | recbole/data/dataset/sequential_dataset.py:77-78 | inside a run, a row's window start is the previous row's start, advanced by one exactly when `i - seq_start` exceeds the maximum length |
| `AugmentationLemmas.AugmentRecordCount` | recbole/data/dataset/sequential_dataset.py:72-82 | the number of records is the number of rows minus the number of runs of equal user ids; any non-empty column yields fewer records than rows |
| `AugmentationLemmas.AugmentTargets` | recbole/data/dataset/sequential_dataset.py:72-81 | targets strictly increase; each is a valid row that is not the first of its run; and every row that is not the first of its run is some record's target |
| `AugmentationLemmas.AugmentWindow` | recbole/data/dataset/sequential_dataset.py:75-82 | the record for row t of a run starting at s has history `[max(s, t - L), t)` and length `min(t - s, L)`, with `t - s >= 1`; its uid, and the uid of every history row, is the target's uid |
| `AugmentationLemmas.AugmentRunWindow` | recbole/data/dataset/sequential_dataset.py:73-82 | for a run starting at row s, row `s + k` (k >= 1) has a record with history `[max(s, s + k - L), s + k)` and length `min(k, L)` |
| `AugmentationLemmas.AugmentLengthCap` | recbole/data/dataset/sequential_dataset.py:77-82 | with a maximum `L >= 1`, every history length lies between 1 and L |
| `AugmentationLemmas.AugmentSlidingStep` | recbole/data/dataset/sequential_dataset.py:76-80 | when the row after a record's target belongs to the same user, the next record targets that row; its window start moves up by one exactly when the grown window would exceed L |
| `AugmentationLemmas.DocumentedExample` | recbole/data/dataset/sequential_dataset.py:44-56 | one user with four interactions yields three cases, whose histories grow from one to three rows and whose targets are rows 1, 2 and 3 |
| `AugmentationLemmas.SlidingExample` | recbole/data/dataset/sequential_dataset.py:73-82 | with a cap of one, the window slides after the first record, and a user with a single interaction yields nothing |
| `SequentialSplit.Pick` | recbole/data/dataset/sequential_dataset.py:105 | indexing one array by an index list gives element `index[t]` at position t |
| `SequentialSplit.SelectRows` | recbole/data/dataset/sequential_dataset.py:104-105 | one index list applied to all four arrays keeps them parallel; view record t is original record `index[t]` unchanged |
| `SequentialSplit.MakeViews` | recbole/data/dataset/sequential_dataset.py:101-107 | one view per index list, in order; each view differs from the dataset only in its index arrays |
| `SequentialSplit.LeaveOneOut` | recbole/data/dataset/sequential_dataset.py:89-107 | a missing group field and a group field other than the user field each raise `ValueError`, before any augmentation; otherwise the result is one view per partition, in order, built from freshly augmented records, or `IndexError` exactly when some index is out of range |
| `SequentialSplit.LeaveOneOutNoNewRecords` | recbole/data/dataset/sequential_dataset.py:102-106 | every record of every view is one of the augmented records: the split never creates records |
| `SequentialSplit.LeaveOneOutCoversRecords` | recbole/data/dataset/sequential_dataset.py:96-106 | when the partitions together name every record position, every augmented record appears unchanged in some view |
| `SequentialSplit.LeaveOneOutIgnoresPriorIndex` | recbole/data/dataset/sequential_dataset.py:96 | leave-one-out re-runs augmentation, so its outcome does not depend on the index arrays the dataset held before |
| `SequentialSplit.CheckOrdering` | recbole/data/dataset/sequential_dataset.py:110-117 | the ordering checks pass exactly for orderings that keep time order: not a shuffle, and an explicit ordering only by the time field with `ascending` exactly True; any failure is one of the three ordering reasons |
| `SequentialSplit.Build` | recbole/data/dataset/sequential_dataset.py:109-125 | a shuffle is rejected; an explicit ordering by another field is rejected; an ordering error occurs exactly when the ordering does not keep time order; a valid ordering with "loo" is exactly `LeaveOneOut` with the group field and `leave_one_num`; any other split strategy returns nothing |
| `SequentialSplit.BuildViewsOnlyWhenValid` | recbole/data/dataset/sequential_dataset.py:110-123 | `build` returns views only for an ordering that keeps time order, the "loo" strategy and grouping by the user field |
| `SequentialSplit.BuildSwallowsSplitError` | recbole/data/dataset/sequential_dataset.py:121-125 | as written, an unordered setting with a random split returns no views and raises nothing |
| `SequentialSplit.BuildRaising` | recbole/data/dataset/sequential_dataset.py:121-125 | the corrected driver never returns nothing: a valid ordering with a strategy other than "loo" raises `ValueError`, and every other input behaves exactly as `build` |

## Left out

- The in-place sort of the interaction table by (user, time) (line 68) is an external table operation. The model takes the user-id column as already sorted. The augmentation properties hold for any column.
- `_check_field` (line 66) and the config lookup (line 67) are field and configuration plumbing. The maximum length is a parameter.
- `_grouped_index` and `_split_index_by_leave_one_out` (lines 97-98) belong to the base dataset class, which is not part of this model. Their result is the `split` parameter, so the per-user partition sizes they produce are not stated here.
- `_drop_unused_col` (line 100) is not modelled. Neither are the shallow copy and shared storage of `copy.copy` (line 103), nor the numpy array conversions (lines 84-87, 105). These are storage and aliasing details. A view is a value equal to the dataset except for its index arrays.
- The source's side effects on the dataset itself are not modelled: sorting its table and storing the new arrays on it. `LeaveOneOut` returns only the views.
- Logging and `__init__` are left out.
- `SequentialSplit.Pick`: indices are natural numbers, so numpy's wrap-around of negative indices is not modelled.
- `SequentialSplit.Build`: `ascending` takes only the values None, True and False. Other Python values are not modelled. `1`, for one, would also fail the `is not True` test.

## Findings

| source | as written | input that shows it | evidently intended | confidence | as-written member | corrected member |
|---|---|---|---|---|---|---|
| recbole/data/dataset/sequential_dataset.py:125 | `ValueError(...)` is built but not raised, so `build` returns `None` | ordering strategy "none", split strategy "rs" | `raise ValueError(...)`: a non-leave-one-out split is rejected | high; not executed | `SequentialSplit.BuildSwallowsSplitError` | `SequentialSplit.BuildRaising` |
