# Column specification of django-excel-view, modelled in Dafny

django-excel-view turns query rows (dictionaries of field values) into
spreadsheet rows. The logic lives in `excel_view/col_spec.py`:

- a `Col` describes one output column: a header, the input keys it reads,
  a reducer that turns the looked-up cells into one cell, a transform applied
  afterwards, and a default cell for a key that is absent from the row;
- a `ColSpec` is an ordered tuple of columns. It derives the flat list of input
  keys to fetch, the set of related-model prefixes to join (the part of a key
  before its first `__`), the header row, and one value row per input row.

The model is pure, like the source. `Col` and `ColSpec` are immutable in the
source, so here they are datatypes and every operation is a function:

- `builtins.dfy` (module `Builtins`) models the Python built-ins the core uses,
  on the cell values a row holds. These are `dict.get`, `list.pop`, `sum` over
  cells, `str.join`, `sum` over lists, `str.find` and `str.partition`. A cell
  is `Null` (None), an `Int` or a `Str`, so "present with None" and "absent"
  are different things. Exceptions become `Result.Err`: `IndexError` for a pop
  from an empty list, `TypeError` for adding or joining a value of the wrong
  type.
- `col_spec.dfy` (module `ColumnSpec`) models `Col` and `ColSpec`.
  `NewCol` is `Col.__init__`. Its keyword arguments are Dafny default
  parameters: `reduce := Last` is `list.pop`, `transform := Identity` is the
  identity `function`, and `default := Null` is None. The reducers the
  repository uses are `Last`, `Sum` and `Join(sep)`; the transforms are
  `Identity` and `Inc`, the test file's `x + 1`. The invariant that a column
  always has at least one key is `Col.WellFormed()`. `NewCol` establishes it.
  Under it the default `pop` reducer never raises.
- `col_spec_examples.dfy` (module `ColumnSpecExamples`) restates each case of
  `tests/column_specification_tests.py`, with the result the test expects, as
  a lemma about the model.

`ColSpec.Values` evaluates the columns left to right, like Python's list
comprehension. If no column raises, the row has one cell per column. Otherwise
it gives the exception of the first column that raises. Repeated calls of
`Inputs`, `Headers`, `Related` and `Values` give the same result because they
are functions of immutable values.

## Model

| member | source | states |
|---|---|---|
| `Builtins.Pop` | excel_view/col_spec.py:18 | `list.pop()` on the freshly built cell list: the last cell, or IndexError on an empty list; it is characterised by `ColumnSpec.Reduce` and `ColumnSpec.LastKeyWins` |
| `Builtins.SumFrom` | tests/column_specification_tests.py:12 | the built-in `sum` over cells as a left fold from 0; it is characterised by `Builtins.SumFromTotal` |
| `Builtins.JoinStrs` | tests/column_specification_tests.py:13 | `sep.join` on strings; it is characterised by `Builtins.JoinStrsAppend` and `Builtins.JoinStrsLength` |
| `Builtins.StrJoin` | tests/column_specification_tests.py:13 | `sep.join` on cells, raising TypeError on a cell that is not a str; it is characterised by `ColumnSpec.Reduce` and `ColumnSpec.JoinColumn` |
| `Builtins.SumLists` | excel_view/col_spec.py:52 | `sum(lists, [])` as a left fold of list concatenation; it is characterised by `Builtins.SumListsFlatten` |
| `Builtins.SumFromTotal` | tests/column_specification_tests.py:12 | `sum` over cells (a left fold from 0) succeeds exactly when every cell is an int, and then gives their total; any other cell gives TypeError |
| `Builtins.JoinStrsAppend` | tests/column_specification_tests.py:13 | `sep.join(a + b)` is `sep.join(a) + sep + sep.join(b)` for non-empty `a` and `b` |
| `Builtins.JoinStrsLength` | tests/column_specification_tests.py:13 | a join is as long as all the pieces plus one separator between each pair of neighbours |
| `Builtins.SumListsFlatten` | excel_view/col_spec.py:52 | `sum(lists, start)`, which adds from the left, is `start` followed by the in-order flattening `ls[0] + (ls[1] + ...)` |
| `Builtins.FlattenAppend` | excel_view/col_spec.py:52 | flattening two lists of lists placed side by side concatenates the two flattenings |
| `Builtins.Find` | excel_view/col_spec.py:75 | `key.find(sep)` is -1 exactly when `sep` does not occur in `key`; otherwise it is the first index where it occurs |
| `Builtins.Partition` | excel_view/col_spec.py:73 | `key.partition(sep)` splits `key` into three parts that concatenate back to `key`. The head ends before the first `sep` (it is the whole key when there is no `sep`) and never contains `sep`. The middle part is `sep`, or empty when `sep` does not occur |
| `ColumnSpec.Reduce` | excel_view/col_spec.py:28-29 | applying the reducer (`self.rx(...)`) raises only in these cases: `pop` on an empty list (IndexError, and the only IndexError); `sum` on a non-int; `join` on a non-str |
| `ColumnSpec.Lookups` | excel_view/col_spec.py:29 | the looked-up cells are in key order, one per key. Each is `context[key]` when the key is present, even when that value is None, and the default only when the key is absent |
| `ColumnSpec.Apply` | excel_view/col_spec.py:27 | applying the transform (`self.fn(...)`) raises only for `inc` on a cell that is not an int, and then a TypeError; the identity never raises |
| `ColumnSpec.Col.Inputs` | excel_view/col_spec.py:23-24 | the column's keys, unchanged; it is characterised by `ColumnSpec.InputsSingle` and `ColumnSpec.InputsMembers` |
| `ColumnSpec.Col.Value` | excel_view/col_spec.py:26-29 | look up, reduce, then transform; the value is an IndexError exactly when the column has no keys and uses the default `pop`, so never for a well-formed column. Its results are characterised by `LastKeyWins`, `SingleKeyCell`, `SumColumn`, `JoinColumn` and `ValueReadsOnlyKeys` |
| `ColumnSpec.NewCol` | excel_view/col_spec.py:17-21 | the constructor keeps header, reducer, transform and default. It takes the given keys, or `[header]` when none are given, so the column is well formed (its key list is never empty) |
| `ColumnSpec.NeverIndexError` | excel_view/col_spec.py:18-21 | a well-formed column never raises IndexError, so the default `list.pop` never runs on an empty list |
| `ColumnSpec.LastKeyWins` | excel_view/col_spec.py:26-29 | with the default reducer the value is the transform of the last key's cell. That cell is the key's entry when present (even None), or the default when absent |
| `ColumnSpec.SingleKeyCell` | excel_view/col_spec.py:26-29 | a one-key column with the default reducer and transform returns that cell unchanged, or the default when the key is absent |
| `ColumnSpec.SumColumn` | tests/column_specification_tests.py:12 | a `sum` column whose keys all hold ints gives the total of those ints |
| `ColumnSpec.JoinColumn` | tests/column_specification_tests.py:13 | a `sep.join` column whose keys all hold strings gives the strings joined in key order |
| `ColumnSpec.ValueReadsOnlyKeys` | excel_view/col_spec.py:26-29 | a column's value depends only on whether each of its own keys is present and on what it holds |
| `ColumnSpec.ColSpec.Inputs` | excel_view/col_spec.py:47-52 | the inputs are the columns' key lists flattened in column order |
| `ColumnSpec.InputsLength` | excel_view/col_spec.py:47-52 | the inputs are as long as the total number of keys over all columns, so nothing is deduplicated |
| `ColumnSpec.InputsAppend` | excel_view/col_spec.py:47-52 | the inputs of two column lists placed side by side are their inputs concatenated, left before right |
| `ColumnSpec.InputsSingle` | excel_view/col_spec.py:23-24 | a one-column specification's inputs are that column's `inputs()`, i.e. its keys |
| `ColumnSpec.InputsMembers` | excel_view/col_spec.py:47-52 | a key is among the inputs exactly when some column reads it |
| `ColumnSpec.ColSpec.Headers` | excel_view/col_spec.py:60-64 | the header row has one entry per column, and entry i is column i's header |
| `ColumnSpec.ColSpec.Values` | excel_view/col_spec.py:54-58 | the row succeeds exactly when every column's value does. It then has one cell per column, and cell i is column i's value. Otherwise it raises the error of the first column that raises |
| `ColumnSpec.ValuesTotal` | excel_view/col_spec.py:54-58 | when every column is well formed and uses the default reducer and transform, the row never raises and has one cell per column, whatever the context holds |
| `ColumnSpec.ValuesAgree` | excel_view/col_spec.py:54-58 | two contexts on which every column has the same value give the same row, or the same error |
| `ColumnSpec.ValuesReadOnlyInputs` | excel_view/col_spec.py:47-58 | the value row is the same on the full input row and on the row cut down to `inputs()`, so fetching only the inputs loses nothing |
| `ColumnSpec.RelatedExactly` | excel_view/col_spec.py:66-75 | a name is related exactly when it is the part before the first `__` of some input key that contains `__`; keys without `__` contribute nothing |
| `ColumnSpec.ColSpec.Related` | excel_view/col_spec.py:66-75 | no related name contains `__`, and every related name followed by `__` is a prefix of some input key; `RelatedExactly` gives the full characterisation |
| `ColumnSpec.RelatedAppend` | excel_view/col_spec.py:66-75 | the related names of two column lists placed side by side are the union of their related names |
| `ColumnSpecExamples.HeadersExample` | tests/column_specification_tests.py:15-18 | the test specification's headers are `One, Two, Three, Four` |
| `ColumnSpecExamples.InputsExample` | tests/column_specification_tests.py:20-23 | the test specification's inputs are `One, a, b, c, d, e` |
| `ColumnSpecExamples.ValuesExample` | tests/column_specification_tests.py:25-35 | on the test row the values are `6, 1, 5, "foo bar"` |
| `ColumnSpecExamples.IncExample` | tests/column_specification_tests.py:37-41 | a column with transform `inc` maps `{key: 1}` to `[2]` |
| `ColumnSpecExamples.DefaultExample` | tests/column_specification_tests.py:43-45 | a column with default 7 maps `{}` to `[7]` |
| `ColumnSpecExamples.DefaultAndIncExample` | tests/column_specification_tests.py:47-52 | the default is substituted before the transform: default 4 with `inc` maps `{}` to `[5]` |
| `ColumnSpecExamples.PresentNullExample` | excel_view/col_spec.py:12-15 | a key present with None yields None, not the default |
| `ColumnSpecExamples.RelatedExample` | tests/column_specification_tests.py:54-63 | keys `q, a__x, b__x, c__x, c__y, a__y` give exactly the related set `{a, b, c}` |

## Left out

- The view adapter in `excel_view/__init__.py` is Django glue and is not part
  of this model: the `colspec` configuration check, the queryset's
  `select_related`/`values` calls, prepending the header row, and
  `ExcelResponse`.
- `ColumnSpec.Restrict` is an abstraction of Django's `.values(*inputs)` at
  excel_view/__init__.py:29-31: it keeps only the row's entries for the listed
  keys. Django returns every listed field in every row, while `Restrict` also
  allows a listed key to be missing, so it is the more general model. It has
  no contract of its own; what is proved about it is `ValuesReadOnlyInputs`.
- `setup.py` is packaging metadata.
- Arbitrary user-supplied `reduce` and `function` callables, and the exceptions
  they might raise, are not modelled. Only the reducers and transforms the
  repository uses are: `list.pop`, `sum`, `" ".join` (any separator) and `inc`.
- Cell types other than None, int and str (floats, dates, booleans, nested
  values) are not modelled. Python's duck typing across them is not modelled
  either, for example `sum` over floats or adding a bool to an int.
- Dictionary keys other than strings are not modelled.
- `Builtins.Partition`: Python raises ValueError for an empty separator. The
  model requires a non-empty separator instead, because the core only ever
  partitions on `__`.
- Aliasing is not modelled: `Col.inputs()` returns the column's own key list
  object, so a caller could mutate it. The model treats key lists as values.
- `values(context)` has one cell per column only when no column raises:
  `[col.value(context) for col in self.cols]` (excel_view/col_spec.py:58) lets
  an exception from a reducer or transform propagate. The model follows the
  code: a row has one cell per column whenever it is produced
  (`ColSpec.Values`), and it is always produced when the columns use the
  default reducer and transform and are well formed, as every `NewCol` is
  (`ValuesTotal`).
