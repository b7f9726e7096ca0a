# Time-series forecasting pipeline: bookkeeping model

This project models, in Dafny, the column and key bookkeeping of
`TimeSeriesForecastingPipeline` from IBM's `tsfm_public` toolkit. It covers
the four steps of the pipeline:

- `_sanitize_parameters` routes the caller's keyword arguments to the
  preprocess and postprocess steps. Both lengths fall back to the model
  configuration.
- `preprocess` loads the series and checks the future series against the
  base series. It then appends the future series, or extends the base series
  over the horizon, and stacks the dataset's windows into one batch.
- `_forward` calls the model with only the batch fields its `forward`
  accepts, then copies every batch field onto the outputs.
- `postprocess` names the `<target>_prediction` and `<target>` columns,
  splits the id tuples into id columns and builds a frame. When
  `explode_forecasts` is set, it turns every window into one row per
  forecast step. Finally it moves the timestamp and id columns to the front.

The values inside tables and tensors are opaque atoms (`Values.Value`). A
tensor is a nested list, so a window × horizon × target tensor is a list of
lists of lists. A Python dict keeps its insertion order (`Frames.Dict`); a
pandas frame is an ordered list of column names with one cell sequence per
column (`Frames.Frame`). The raising paths of the source (`KeyError`,
`IndexError`, `ValueError`) are `Err` results, and each step stops at the
first one, as the source does.

Each loop of the source is a method with loop invariants. Each method is
proved equal to a specification function, and the properties are stated
about those functions. The modules follow the source's steps:

| module | file | step |
|---|---|---|
| `Values`, `Frames`, `Arguments` | `values.dfy`, `frames.dfy`, `arguments.dfy` | values, results, insertion-ordered dicts, frames, keyword arguments |
| `Routing` | `routing.dfy` | `_sanitize_parameters` |
| `Preprocessing` | `preprocess.dfy` | `preprocess` |
| `Forwarding` | `forward.dfy` | `_forward` |
| `Assembling` | `assembly.dfy` | `postprocess`: the `out` dict |
| `Exploding` | `explode.dfy` | `postprocess`: the explode loop |
| `Reordering` | `reorder.dfy` | `postprocess`: `cols_ordered` |
| `Postprocessing` | `postprocess.dfy` | `postprocess` as a whole |

## Model

| member | source | states |
|---|---|---|
| Frames.Put | tsfm_public/toolkit/time_series_forecasting_pipeline.py:286-295 | `d[k] = v` keeps the dict valid (distinct keys, keys and entries agree) and maps `k` to `v` with every other entry unchanged; a new key goes to the end of the key order, a present key keeps its place |
| Frames.AppendNew | tsfm_public/toolkit/time_series_forecasting_pipeline.py:283-295 | the key order of a dict after assignments: free of repeats, and it holds exactly the earlier keys and the assigned names |
| Frames.PutAll | tsfm_public/toolkit/time_series_forecasting_pipeline.py:283-295 | a run of assignments leaves a valid dict whose keys are the earlier keys, then each newly assigned name in first-assignment order |
| Frames.PutAllLastWrite | tsfm_public/toolkit/time_series_forecasting_pipeline.py:283-295 | a key holds the value of the last assignment to it |
| Frames.PutAllAppend | tsfm_public/toolkit/time_series_forecasting_pipeline.py:283-295 | performing two runs of assignments one after the other is performing their concatenation |
| Frames.AppendNewFresh | tsfm_public/toolkit/time_series_forecasting_pipeline.py:283-295 | when no name repeats, the key order is simply the names in assignment order |
| Frames.FrameOf | tsfm_public/toolkit/time_series_forecasting_pipeline.py:296 | `pd.DataFrame(out)`: an empty dict gives an empty frame; a dict of scalars only is refused; a failure is an all-scalar dict or two list entries of different lengths; a frame has the dict's keys as columns, each list entry as its column and each scalar broadcast |
| Frames.ConcatRows | tsfm_public/toolkit/time_series_forecasting_pipeline.py:208 | `pd.concat` of the base and the future series: the base columns; the base rows, then the future rows; NaN where the future has no such column |
| Frames.ConcatFrames | tsfm_public/toolkit/time_series_forecasting_pipeline.py:317 | `pd.concat` of pieces with one column list fails exactly on no pieces; otherwise it keeps the columns, the height is the sum of the pieces' heights, and each column is the pieces' cells laid end to end |
| Frames.ConcatColumn | tsfm_public/toolkit/time_series_forecasting_pipeline.py:317 | a column whose cells in the pieces are known is their concatenation |
| Frames.Select | tsfm_public/toolkit/time_series_forecasting_pipeline.py:328 | `out[cols]`: exactly the given columns in the given order, with the same rows and cells |
| Routing.Supplied | tsfm_public/toolkit/time_series_forecasting_pipeline.py:96-102 | the keys of a parameter list that the caller supplied, with the caller's values, and no other key |
| Routing.CopyPresent | tsfm_public/toolkit/time_series_forecasting_pipeline.py:96-102 | the copying loop adds to the dictionary exactly the supplied keys of the list, with the caller's values |
| Routing.Routed | tsfm_public/toolkit/time_series_forecasting_pipeline.py:64-102 | a step's dictionary has both lengths plus the supplied keys of its list and nothing else; each length is the caller's value if given, else the model config's; each copied key has the caller's value |
| Routing.SanitizeParameters | tsfm_public/toolkit/time_series_forecasting_pipeline.py:58-120 | the preprocess and postprocess dictionaries are routed from their two lists, and the forward dictionary is empty |
| Routing.FutureSeriesRoutedToPreprocessOnly | tsfm_public/toolkit/time_series_forecasting_pipeline.py:76-102 | `future_time_series` reaches preprocess exactly when the caller gave it, with the caller's value, and never reaches postprocess; every other column role reaches both steps unchanged |
| Preprocessing.FirstUnknownColumn | tsfm_public/toolkit/time_series_forecasting_pipeline.py:204-206 | none exactly when every future column is a base column; otherwise it is a future column missing from the base, and every column before it is known |
| Preprocessing.CheckFutureColumns | tsfm_public/toolkit/time_series_forecasting_pipeline.py:204-206 | the validation loop reports the first unknown future column, or none |
| Preprocessing.Appended | tsfm_public/toolkit/time_series_forecasting_pipeline.py:204-208 | it fails exactly when a future column is unknown, with the first such column; otherwise the result is the base rows followed by the future rows |
| Preprocessing.Stacked | tsfm_public/toolkit/time_series_forecasting_pipeline.py:226-232 | no windows is an error, and so is a window lacking a key of the first; otherwise stacking succeeds, the keys are the first window's keys, each maps to a list with one entry per window, and entry `j` is window `j`'s value |
| Preprocessing.StackRecords | tsfm_public/toolkit/time_series_forecasting_pipeline.py:226-234 | the stacking loops compute the stacked batch or the error |
| Preprocessing.Preprocess | tsfm_public/toolkit/time_series_forecasting_pipeline.py:173-234 | the step computes the loaded, validated, combined, windowed and stacked batch, or the error it raises |
| Preprocessing.FutureSeriesValidated | tsfm_public/toolkit/time_series_forecasting_pipeline.py:191-208 | a future frame with a column the base lacks is refused with the first such column, whatever the dataset would produce: no windows are built |
| Preprocessing.UnsupportedFutureRefused | tsfm_public/toolkit/time_series_forecasting_pipeline.py:191-201 | a future series that is neither a path nor a frame is refused |
| Preprocessing.FutureSeriesAppended | tsfm_public/toolkit/time_series_forecasting_pipeline.py:203-222 | an accepted future frame: the dataset is built from the base rows followed by the future rows, with `future_time_series` removed from its arguments |
| Forwarding.ModelInputs | tsfm_public/toolkit/time_series_forecasting_pipeline.py:255-261 | the model receives exactly the batch fields that are parameter names of its `forward`, with the batch's values |
| Forwarding.Forwarded | tsfm_public/toolkit/time_series_forecasting_pipeline.py:263-270 | the outputs' keys are the model's keys plus the batch's; every batch field overwrites the model's value; a model key that is no batch field keeps the model's value |
| Forwarding.Forward | tsfm_public/toolkit/time_series_forecasting_pipeline.py:255-270 | the filtering loop and the copying loop compute the forwarded outputs |
| Assembling.PredictionKey | tsfm_public/toolkit/time_series_forecasting_pipeline.py:279 | predictions are read from `prediction_outputs` when present, else from `prediction_logits` |
| Assembling.SliceAllIndex | tsfm_public/toolkit/time_series_forecasting_pipeline.py:284-290 | slice `i` of the first `n` targets exists and is `x[:, :, i]` |
| Assembling.Slices | tsfm_public/toolkit/time_series_forecasting_pipeline.py:284-290 | a slicing loop that succeeds read the field when there is a target, the field has the last target, and the columns are the target slices |
| Assembling.SlicesIndex | tsfm_public/toolkit/time_series_forecasting_pipeline.py:284-290 | column `i` of a successful slicing loop is target slice `i` of the field |
| Assembling.IdColumnsIndex | tsfm_public/toolkit/time_series_forecasting_pipeline.py:294-295 | id column `i` exists and is element `i` of every id tuple |
| Assembling.Pair | tsfm_public/toolkit/time_series_forecasting_pipeline.py:283-295 | each loop's assignments pair name `i` with column `i`, and write exactly its names |
| Assembling.PredictionNames | tsfm_public/toolkit/time_series_forecasting_pipeline.py:284-285 | prediction column `i` is target `i` followed by `_prediction` |
| Assembling.TimestampAssignment | tsfm_public/toolkit/time_series_forecasting_pipeline.py:292-293 | the timestamp column is written exactly when `timestamp_column` is given, under that name |
| Assembling.IdAssignments | tsfm_public/toolkit/time_series_forecasting_pipeline.py:294-295 | the id loop needs `id_columns` and writes exactly the id column names |
| Assembling.IdParts | tsfm_public/toolkit/time_series_forecasting_pipeline.py:294-295 | the id loop reads `input["id"]` only when there are id columns, and then needs every tuple to reach the last one |
| Assembling.Assembly | tsfm_public/toolkit/time_series_forecasting_pipeline.py:277-295 | a filled dict needs the target columns and a list of id columns, and a string timestamp column when one is given; its prediction column names are the targets' `_prediction` names |
| Assembling.AssemblyReads | tsfm_public/toolkit/time_series_forecasting_pipeline.py:277-295 | a filled dict had every read succeed |
| Assembling.AssignmentsNamed | tsfm_public/toolkit/time_series_forecasting_pipeline.py:283-295 | the assignments write the prediction columns, the targets, the timestamp column and the id columns, in that order |
| Assembling.AssemblyColumns | tsfm_public/toolkit/time_series_forecasting_pipeline.py:277-296 | the dict's key order: prediction columns, targets, timestamp, ids, each name at its first assignment |
| Assembling.AssemblyRuns | tsfm_public/toolkit/time_series_forecasting_pipeline.py:292-295 | the last two runs of assignments write exactly the configured timestamp column (when there is one) and then the id columns, in that order |
| Assembling.PredictionEntry | tsfm_public/toolkit/time_series_forecasting_pipeline.py:284-287 | prediction column `i`, unless a later assignment reuses its name, is `<target i>_prediction` and holds target slice `i` of the predictions |
| Assembling.TruthEntry | tsfm_public/toolkit/time_series_forecasting_pipeline.py:288-290 | target column `i`, unless a later assignment reuses its name, holds target slice `i` of `future_values` |
| Assembling.TimestampEntry | tsfm_public/toolkit/time_series_forecasting_pipeline.py:292-293 | the timestamp column, unless an id column has its name, holds `input["timestamp"]` |
| Assembling.IdEntry | tsfm_public/toolkit/time_series_forecasting_pipeline.py:294-295 | id column `i`, unless a later id column has its name, holds element `i` of every id tuple |
| Assembling.PutSlices | tsfm_public/toolkit/time_series_forecasting_pipeline.py:284-290 | a slicing loop performs the name-slice assignments, or fails as the slices do |
| Assembling.SlicesStop | tsfm_public/toolkit/time_series_forecasting_pipeline.py:286 | the slicing loop raises at the first target the field lacks: a missing field or an index out of range |
| Assembling.SlicesDone | tsfm_public/toolkit/time_series_forecasting_pipeline.py:284-290 | a slicing loop that ran to the end performed all its assignments |
| Assembling.PutTimestamp | tsfm_public/toolkit/time_series_forecasting_pipeline.py:292-293 | performs the timestamp assignment, or fails as it does |
| Assembling.PutIds | tsfm_public/toolkit/time_series_forecasting_pipeline.py:294-295 | performs the id assignments, or fails as they do |
| Assembling.PutIdColumns | tsfm_public/toolkit/time_series_forecasting_pipeline.py:294-295 | the id loop performs the name-column assignments, or fails as the id reads do |
| Assembling.IdPartsStop | tsfm_public/toolkit/time_series_forecasting_pipeline.py:295 | the id loop raises at the first position an id tuple lacks |
| Assembling.IdPartsDone | tsfm_public/toolkit/time_series_forecasting_pipeline.py:294-295 | an id loop that ran to the end performed all its assignments |
| Assembling.AssembleColumns | tsfm_public/toolkit/time_series_forecasting_pipeline.py:277-295 | the four loops and the timestamp assignment compute the assembled dict, or the first error |
| Exploding.RowLength | tsfm_public/toolkit/time_series_forecasting_pipeline.py:303 | `l` is the length of the row's first prediction list; no prediction column is an index error, and a cell that is no list is refused |
| Exploding.RowFill | tsfm_public/toolkit/time_series_forecasting_pipeline.py:311-315 | copying row cells keeps the dict valid, and its keys gain the copied names in first-seen order |
| Exploding.RowFillEntries | tsfm_public/toolkit/time_series_forecasting_pipeline.py:311-315 | every copied name holds its row cell, and other keys are untouched |
| Exploding.StampDict | tsfm_public/toolkit/time_series_forecasting_pipeline.py:305-308 | the timestamp column, when configured, holds the timestamps made for the horizon from the row's timestamp |
| Exploding.RowColumns | tsfm_public/toolkit/time_series_forecasting_pipeline.py:304-315 | a piece's columns are free of repeats and are exactly the timestamp, id and prediction columns |
| Exploding.RowDict | tsfm_public/toolkit/time_series_forecasting_pipeline.py:302-315 | `tmp` is a valid dict with the piece's columns |
| Exploding.RowDictEntries | tsfm_public/toolkit/time_series_forecasting_pipeline.py:302-315 | `tmp` holds each id and prediction cell of the row, and the timestamps unless another column has that name |
| Exploding.ExplodedRow | tsfm_public/toolkit/time_series_forecasting_pipeline.py:301-316 | an exploded row is a well-formed frame with the piece's columns |
| Exploding.RowResults | tsfm_public/toolkit/time_series_forecasting_pipeline.py:301-316 | one exploded row per window, in row order |
| Exploding.Exploded | tsfm_public/toolkit/time_series_forecasting_pipeline.py:298-317 | an exploded frame is well formed and has only the timestamp, id and prediction columns |
| Exploding.PiecesAligned | tsfm_public/toolkit/time_series_forecasting_pipeline.py:301-317 | the pieces of a successful row loop share the piece columns |
| Exploding.PutCells | tsfm_public/toolkit/time_series_forecasting_pipeline.py:311-315 | the copying loops compute the filled `tmp` |
| Exploding.ExplodeRow | tsfm_public/toolkit/time_series_forecasting_pipeline.py:302-316 | one iteration of the row loop computes the exploded row |
| Exploding.ExplodeForecasts | tsfm_public/toolkit/time_series_forecasting_pipeline.py:298-317 | the row loop and the concatenation compute the exploded frame, or the first error |
| Exploding.ExplodedPieces | tsfm_public/toolkit/time_series_forecasting_pipeline.py:317 | when every row explodes, the result is `pd.concat` of the pieces in row order |
| Exploding.ExplodedRefused | tsfm_public/toolkit/time_series_forecasting_pipeline.py:298-317 | a frame without rows leaves nothing to concatenate; rows without prediction columns raise an index error |
| Exploding.ExplodedFails | tsfm_public/toolkit/time_series_forecasting_pipeline.py:301-317 | the step fails exactly when some row fails, and then with the error of the first failing row |
| Exploding.ExplodedError | tsfm_public/toolkit/time_series_forecasting_pipeline.py:301-317 | with rows, the step fails exactly when the row loop does, with its error |
| Exploding.ExplodedRowShape | tsfm_public/toolkit/time_series_forecasting_pipeline.py:302-316 | one row becomes `l` rows; each id and prediction cell is spread over them (a list as a column, anything else repeated); the timestamps are those made for the horizon |
| Exploding.Spread | tsfm_public/toolkit/time_series_forecasting_pipeline.py:302-316 | a column spread row by row over each row's horizon |
| Exploding.ExplodedConcat | tsfm_public/toolkit/time_series_forecasting_pipeline.py:298-317 | a successful explosion had rows and prediction columns, and is the concatenation of the exploded rows |
| Exploding.ExplodedHeight | tsfm_public/toolkit/time_series_forecasting_pipeline.py:298-317 | the exploded frame has as many rows as the sum of the windows' horizons |
| Exploding.ExplodedColumn | tsfm_public/toolkit/time_series_forecasting_pipeline.py:298-317 | an id or prediction column of the exploded frame is each row's cell spread over its horizon, rows laid end to end |
| Exploding.ExplodedStamps | tsfm_public/toolkit/time_series_forecasting_pipeline.py:302-317 | the exploded frame's timestamp column, unless an id or prediction column has its name, is `create_timestamps` of each row's timestamp for that row's horizon, rows laid end to end |
| Reordering.Without | tsfm_public/toolkit/time_series_forecasting_pipeline.py:326 | the comprehension keeps exactly the columns not yet in the list, and is no longer than its input |
| Reordering.WithoutConcat | tsfm_public/toolkit/time_series_forecasting_pipeline.py:326 | filtering a concatenation filters each part |
| Reordering.WithoutKeepsOrder | tsfm_public/toolkit/time_series_forecasting_pipeline.py:326 | two kept columns come out in their previous relative order |
| Reordering.WithoutDistinct | tsfm_public/toolkit/time_series_forecasting_pipeline.py:326 | filtering a list without repeats gives a list without repeats |
| Reordering.OrderedColumns | tsfm_public/toolkit/time_series_forecasting_pipeline.py:320-328 | the final column list starts with the timestamp and id columns in order; the rest are the other columns without those names, in their previous order (the `Without` filter, whose `WithoutKeepsOrder` keeps any two of them in relative order); no column is added or removed when the leading names are columns; it is free of repeats when the columns and the leading names are |
| Reordering.ReorderColumns | tsfm_public/toolkit/time_series_forecasting_pipeline.py:320-326 | `cols_ordered` built by append and extend is the ordered column list |
| Reordering.OrderedSelectable | tsfm_public/toolkit/time_series_forecasting_pipeline.py:328 | every name of the ordered list is a column of the frame when the leading names are |
| Postprocessing.AssembledFrame | tsfm_public/toolkit/time_series_forecasting_pipeline.py:277-296 | a frame was built only from a filled dict |
| Postprocessing.AssembledExplodable | tsfm_public/toolkit/time_series_forecasting_pipeline.py:277-296 | the frame's columns are the prediction, target, timestamp and id columns in first-assignment order, so it can be exploded |
| Postprocessing.Reshaped | tsfm_public/toolkit/time_series_forecasting_pipeline.py:296-317 | the frame before reordering is well formed and has the timestamp and id columns |
| Postprocessing.Postprocess | tsfm_public/toolkit/time_series_forecasting_pipeline.py:272-329 | the whole step computes the reordered frame, or the first error |
| Postprocessing.PostprocessedColumns | tsfm_public/toolkit/time_series_forecasting_pipeline.py:298-328 | the output starts with the timestamp and id columns, then the other columns of the frame before reordering, filtered by `Without` and so in their previous relative order. Exploded, only timestamp, id and prediction columns remain, so the truth columns are dropped; unexploded, all four kinds are there. No repeats unless the leading names repeat |
| Postprocessing.ExplodedStage | tsfm_public/toolkit/time_series_forecasting_pipeline.py:298-317 | with explosion, the frame before reordering is the exploded assembled frame |
| Postprocessing.ExplodedRows | tsfm_public/toolkit/time_series_forecasting_pipeline.py:298-317 | exploded, the output has one row per forecast step of every window: the sum of the first prediction column's list lengths |
| Postprocessing.ExplodedCells | tsfm_public/toolkit/time_series_forecasting_pipeline.py:298-328 | exploded, an id column repeats each window's id over that window's horizon, and a prediction column lays the forecasts end to end |
| Postprocessing.ExplodedTimestamps | tsfm_public/toolkit/time_series_forecasting_pipeline.py:298-328 | exploded, the returned timestamp column, unless an id or prediction column has its name, holds each window's future timestamps for its horizon, windows laid end to end |
| Postprocessing.UnexplodedCells | tsfm_public/toolkit/time_series_forecasting_pipeline.py:296-328 | unexploded, the rows are the windows and every column keeps the assembled frame's cells |
| Postprocessing.UnexplodedTruth | tsfm_public/toolkit/time_series_forecasting_pipeline.py:288-290 | unexploded, target column `i`, unless a later assignment reuses its name, holds target slice `i` of `future_values` for every window |
| Postprocessing.UnexplodedPrediction | tsfm_public/toolkit/time_series_forecasting_pipeline.py:284-287 | unexploded, prediction column `i`, unless a later assignment reuses its name, holds target slice `i` of the predictions for every window |

## Left out

- Reading CSV files (`pd.read_csv` with date parsing) is a parameter of `Preprocessing.Collaborators`. Its result is only assumed to be a frame with distinct column names.
- Caller-supplied frames (a `time_series` or `future_time_series` given as a data frame) are likewise assumed to have distinct column names (`Frames.Table`); pandas allows a frame with repeated column names, and the model does not cover one.
- `extend_time_series`, `ForecastDFDataset` and `create_timestamps` are not part of this model. They are opaque function parameters, so nothing is claimed about the windows they make or about the exploded timestamps (order, spacing).
- The model call and `inspect.signature` are parameters: a function from batch to batch, and the list of parameter names.
- `torch.stack` versus a plain list: both stacking branches are modelled as one list per key, because tensor values are opaque.
- `.numpy().tolist()` and all floating-point values: tensors are nested lists of opaque atoms.
- The Hugging Face `Pipeline` plumbing is left out: `__init__`, the `framework == "tf"` guard, `__call__` and the base-class dispatch that chains the steps. The steps are modelled one by one. `explode_forecasts` and `freq` are parameters of `Postprocessing.Postprocess`.
- Preprocessing.Stacked: the batch is a map, so the order of its keys (the first window's insertion order) is not modelled. A window lacking a key is `IncompleteRecord`, without the key's name.
- Keyword arguments of a type other than documented (a non-string `timestamp_column`, non-list `target_columns` or `id_columns`) raise `WrongType` in the model. Python would instead fail somewhere else or carry on with duck typing.
- Postprocessing: `id_columns` must be present, because line 294 reads it unconditionally. The tests at lines 309 and 324 are therefore always true and are not modelled separately.
- Assembling.PredictionEntry, Assembling.TruthEntry, Assembling.IdEntry and Assembling.TimestampEntry hold only when no later assignment reuses the column's name. When one does, Python's dict keeps the later value; Frames.PutAllLastWrite states that general rule.
- Postprocessing.UnexplodedTruth and Postprocessing.UnexplodedPrediction carry the same condition: no later assignment may reuse the column's name.
- Frames.ConcatFrames: `pd.concat` of pieces with different column lists is not modelled. The exploded pieces always share one column list.
- Frames.ConcatRows: only future series whose columns are all base columns are concatenated, which is the only case the source reaches. Column dtypes and index values are not modelled.
