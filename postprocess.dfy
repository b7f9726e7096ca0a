/** `postprocess`: the model's outputs become a frame of named prediction and
    ground-truth columns, optionally exploded to one row per forecast step, with
    the timestamp and id columns moved to the front. */
module Postprocessing {
  import opened Values
  import opened Frames
  import opened Arguments
  import opened Assembling
  import opened Exploding
  import opened Reordering

  /** `out = pd.DataFrame(out)` over the assembled columns. */
  function AssembledFrame(input: Batch, kwargs: Kwargs): (r: Result<Frame>)
    ensures r.Ok? ==> Assembly(input, kwargs).Ok?
  {
    match Assembly(input, kwargs)
    case Err(e) => Err(e)
    case Ok(a) => FrameOf(a.out)
  }

  /** The assembled frame has the prediction, target, timestamp and id columns,
      in that order of first assignment, so it can be exploded. */
  lemma AssembledExplodable(input: Batch, kwargs: Kwargs)
    requires AssembledFrame(input, kwargs).Ok?
    ensures var f := AssembledFrame(input, kwargs).value;
      var targets := TargetColumns(kwargs).value; var preds := PredictionNames(targets);
      && f.columns == AppendNew([], preds + targets + Prefix(TimestampName(kwargs), IdNames(kwargs)))
      && Explodable(f, TimestampName(kwargs), IdNames(kwargs), preds)
  {
    AssemblyColumns(input, kwargs);
  }

  /** The frame before its columns are reordered: exploded when the pipeline
      explodes forecasts, the assembled frame otherwise. The timestamp and id
      columns are among its columns either way. */
  function Reshaped(input: Batch, kwargs: Kwargs, explode: bool, freq: Value, stamps: TimestampMaker): (r: Result<Frame>)
    ensures r.Ok? ==> AssembledFrame(input, kwargs).Ok? && WellFormed(r.value)
    ensures r.Ok? ==> forall c :: c in Prefix(TimestampName(kwargs), IdNames(kwargs)) ==> c in r.value.cells
  {
    match AssembledFrame(input, kwargs)
    case Err(e) => Err(e)
    case Ok(f) =>
      AssembledExplodable(input, kwargs);
      if explode then Exploded(f, TimestampName(kwargs), IdNames(kwargs), PredictionNames(TargetColumns(kwargs).value), freq, stamps)
      else Ok(f)
  }

  /** The frame `postprocess` returns, or the error it stops at. */
  function Postprocessed(input: Batch, kwargs: Kwargs, explode: bool, freq: Value, stamps: TimestampMaker): Result<Frame>
  {
    match Reshaped(input, kwargs, explode, freq, stamps)
    case Err(e) => Err(e)
    case Ok(g) =>
      OrderedSelectable(g, TimestampName(kwargs), IdNames(kwargs));
      Ok(Select(g, Ordered(g.columns, TimestampName(kwargs), IdNames(kwargs))))
  }

  /** `postprocess` as the source runs it: the assembling loops, the frame, the
      explode loop when enabled, then the reordering of the columns. */
  method Postprocess(input: Batch, kwargs: Kwargs, explode: bool, freq: Value, stamps: TimestampMaker) returns (r: Result<Frame>)
    ensures r == Postprocessed(input, kwargs, explode, freq, stamps)
  {
    var assembled := AssembleColumns(input, kwargs);
    if assembled.Err? {
      return Err(assembled.error);
    }
    var frame := FrameOf(assembled.value.out);
    if frame.Err? {
      return Err(frame.error);
    }
    var out := frame.value;
    if explode {
      AssembledExplodable(input, kwargs);
      var exploded := ExplodeForecasts(out, TimestampName(kwargs), IdNames(kwargs), assembled.value.predictionColumns, freq, stamps);
      if exploded.Err? {
        return Err(exploded.error);
      }
      out := exploded.value;
    }
    assert Reshaped(input, kwargs, explode, freq, stamps) == Ok(out);
    var ordered := ReorderColumns(out.columns, TimestampName(kwargs), IdNames(kwargs));
    OrderedSelectable(out, TimestampName(kwargs), IdNames(kwargs));
    return Ok(Select(out, ordered));
  }

  /** The returned columns: the timestamp and the id columns lead; the rest are
      the other columns of the frame before reordering, in their order. With
      explosion only the timestamp, id and prediction columns remain, so the
      ground-truth columns are dropped; without it the prediction, target,
      timestamp and id columns are all there. No column is repeated unless the
      timestamp and id names repeat one another. */
  lemma PostprocessedColumns(input: Batch, kwargs: Kwargs, explode: bool, freq: Value, stamps: TimestampMaker)
    requires Postprocessed(input, kwargs, explode, freq, stamps).Ok?
    ensures var r := Postprocessed(input, kwargs, explode, freq, stamps).value;
      var g := Reshaped(input, kwargs, explode, freq, stamps).value;
      var p := Prefix(TimestampName(kwargs), IdNames(kwargs));
      var targets := TargetColumns(kwargs).value; var preds := PredictionNames(targets);
      && |p| <= |r.columns| && r.columns[..|p|] == p
      && r.columns[|p|..] == Without(g.columns, p)
      && (forall c :: c in r.columns[|p|..] <==> c in g.columns && c !in p)
      && (explode ==> forall c :: c in r.columns <==> c in p || c in preds)
      && (!explode ==> forall c :: c in r.columns <==> c in preds || c in targets || c in p)
      && (Distinct(p) ==> Distinct(r.columns))
  {
    var g := Reshaped(input, kwargs, explode, freq, stamps).value;
    var ts := TimestampName(kwargs);
    var ids := IdNames(kwargs);
    AssembledExplodable(input, kwargs);
    OrderedColumns(g.columns, ts, ids);
  }

  /** With explosion the frame before reordering is the exploded assembled frame. */
  lemma ExplodedStage(input: Batch, kwargs: Kwargs, freq: Value, stamps: TimestampMaker)
    requires Postprocessed(input, kwargs, true, freq, stamps).Ok?
    ensures var f := AssembledFrame(input, kwargs).value;
      var ts := TimestampName(kwargs); var ids := IdNames(kwargs); var preds := PredictionNames(TargetColumns(kwargs).value);
      && Explodable(f, ts, ids, preds)
      && Exploded(f, ts, ids, preds, freq, stamps).Ok?
      && Reshaped(input, kwargs, true, freq, stamps) == Exploded(f, ts, ids, preds, freq, stamps)
  {
    AssembledExplodable(input, kwargs);
  }

  /** Explosion: the output has one row per forecast step of every window, the
      horizon being the length of the first prediction column's list. */
  lemma ExplodedRows(input: Batch, kwargs: Kwargs, freq: Value, stamps: TimestampMaker)
    requires Postprocessed(input, kwargs, true, freq, stamps).Ok?
    ensures var f := AssembledFrame(input, kwargs).value; var preds := PredictionNames(TargetColumns(kwargs).value);
      && preds != [] && f.height > 0 && WellFormed(f) && preds[0] in f.cells
      && Postprocessed(input, kwargs, true, freq, stamps).value.height == Sum(Horizons(f, preds[0]))
  {
    var f := AssembledFrame(input, kwargs).value;
    var ts := TimestampName(kwargs);
    var ids := IdNames(kwargs);
    var preds := PredictionNames(TargetColumns(kwargs).value);
    ExplodedStage(input, kwargs, freq, stamps);
    ExplodedConcat(f, ts, ids, preds, freq, stamps);
    assert preds[0] in RowNames(ts, ids, preds);
    ExplodedHeight(f, ts, ids, preds, freq, stamps);
  }

  /** Explosion: an id column holds each window's id repeated over that window's
      horizon, and a prediction column the windows' forecasts laid end to end. */
  lemma ExplodedCells(input: Batch, kwargs: Kwargs, freq: Value, stamps: TimestampMaker, c: string)
    requires Postprocessed(input, kwargs, true, freq, stamps).Ok?
    requires c in IdNames(kwargs) + PredictionNames(TargetColumns(kwargs).value)
    ensures var f := AssembledFrame(input, kwargs).value; var preds := PredictionNames(TargetColumns(kwargs).value);
      var r := Postprocessed(input, kwargs, true, freq, stamps).value;
      && preds != [] && WellFormed(f) && c in f.cells && preds[0] in f.cells
      && c in r.cells && r.cells[c] == Flatten(Spread(f, c, preds[0]))
  {
    var f := AssembledFrame(input, kwargs).value;
    var ts := TimestampName(kwargs);
    var ids := IdNames(kwargs);
    var preds := PredictionNames(TargetColumns(kwargs).value);
    ExplodedStage(input, kwargs, freq, stamps);
    ExplodedConcat(f, ts, ids, preds, freq, stamps);
    assert preds[0] in RowNames(ts, ids, preds) && c in RowNames(ts, ids, preds);
    ExplodedColumn(f, ts, ids, preds, freq, stamps, c);
    var g := Exploded(f, ts, ids, preds, freq, stamps).value;
    assert c in RowColumns(ts, ids, preds);
    assert c in Ordered(g.columns, ts, ids);
  }

  /** Explosion: the timestamp column, unless an id or prediction column has its
      name, holds each window's timestamps for its horizon, laid end to end. */
  lemma ExplodedTimestamps(input: Batch, kwargs: Kwargs, freq: Value, stamps: TimestampMaker)
    requires Postprocessed(input, kwargs, true, freq, stamps).Ok?
    requires TimestampName(kwargs).Some?
    requires TimestampName(kwargs).value !in IdNames(kwargs) + PredictionNames(TargetColumns(kwargs).value)
    ensures var f := AssembledFrame(input, kwargs).value; var preds := PredictionNames(TargetColumns(kwargs).value);
      var t := TimestampName(kwargs).value; var r := Postprocessed(input, kwargs, true, freq, stamps).value;
      && preds != [] && WellFormed(f) && t in f.cells && preds[0] in f.cells
      && t in r.cells && r.cells[t] == Flatten(Stamped(f, t, preds[0], freq, stamps))
  {
    var f := AssembledFrame(input, kwargs).value;
    var ts := TimestampName(kwargs);
    var ids := IdNames(kwargs);
    var preds := PredictionNames(TargetColumns(kwargs).value);
    ExplodedStage(input, kwargs, freq, stamps);
    ExplodedStamps(f, ts, ids, preds, freq, stamps);
    assert preds[0] in RowNames(ts, ids, preds);
    var g := Exploded(f, ts, ids, preds, freq, stamps).value;
    assert ts.value in RowColumns(ts, ids, preds);
    assert ts.value in Ordered(g.columns, ts, ids);
  }

  /** Without explosion the rows are the windows, and every returned column keeps
      the cells the assembled frame gave it. */
  lemma UnexplodedCells(input: Batch, kwargs: Kwargs, freq: Value, stamps: TimestampMaker)
    requires Postprocessed(input, kwargs, false, freq, stamps).Ok?
    ensures var f := AssembledFrame(input, kwargs).value; var r := Postprocessed(input, kwargs, false, freq, stamps).value;
      && r.height == f.height
      && forall c :: c in r.cells ==> c in f.cells && r.cells[c] == f.cells[c]
  {
  }

  /** Without explosion a target column, unless a later assignment reuses its
      name, holds the ground truth of that target for every window. */
  lemma UnexplodedTruth(input: Batch, kwargs: Kwargs, freq: Value, stamps: TimestampMaker, i: nat)
    requires Postprocessed(input, kwargs, false, freq, stamps).Ok?
    requires var targets := TargetColumns(kwargs).value;
      i < |targets| && targets[i] !in targets[i + 1..] + Prefix(TimestampName(kwargs), IdNames(kwargs))
    ensures var r := Postprocessed(input, kwargs, false, freq, stamps).value; var c := TargetColumns(kwargs).value[i];
      && HasTarget(Field(input, "future_values"), i) && c in r.cells
      && r.cells[c] == TargetSlice(Field(input, "future_values"), i)
  {
    var f := AssembledFrame(input, kwargs).value;
    var targets := TargetColumns(kwargs).value;
    TruthEntry(input, kwargs, i);
    AssembledExplodable(input, kwargs);
    assert targets[i] in Ordered(f.columns, TimestampName(kwargs), IdNames(kwargs));
  }

  /** Without explosion a prediction column, unless a later assignment reuses its
      name, holds the model's forecast of its target for every window. */
  lemma UnexplodedPrediction(input: Batch, kwargs: Kwargs, freq: Value, stamps: TimestampMaker, i: nat)
    requires Postprocessed(input, kwargs, false, freq, stamps).Ok?
    requires var targets := TargetColumns(kwargs).value; var names := PredictionNames(targets);
      i < |targets| && names[i] !in names[i + 1..] + targets + Prefix(TimestampName(kwargs), IdNames(kwargs))
    ensures var r := Postprocessed(input, kwargs, false, freq, stamps).value;
      var c := TargetColumns(kwargs).value[i] + "_prediction";
      && HasTarget(Field(input, PredictionKey(input)), i) && c in r.cells
      && r.cells[c] == TargetSlice(Field(input, PredictionKey(input)), i)
  {
    var f := AssembledFrame(input, kwargs).value;
    var targets := TargetColumns(kwargs).value;
    PredictionEntry(input, kwargs, i);
    AssembledExplodable(input, kwargs);
    assert PredictionNames(targets)[i] in Ordered(f.columns, TimestampName(kwargs), IdNames(kwargs));
  }
}
