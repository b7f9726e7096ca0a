/** The optional explode step of `postprocess`: every row of the output frame,
    whose prediction cells hold one list over the horizon, becomes one row per
    horizon step. Only the timestamp, id and prediction columns are kept. */
module Exploding {
  import opened Values
  import opened Frames
  import opened Assembling

  /** `create_timestamps(last, freq=..., periods=...)`: the timestamps of the
      horizon after `last`; opaque here. */
  type TimestampMaker = (Value, Value, nat) -> seq<Value>

  /** The columns an exploded row is built from: timestamp, ids, predictions. */
  function RowNames(ts: Option<string>, ids: seq<string>, preds: seq<string>): seq<string>
  {
    Prefix(ts, ids) + preds
  }

  /** A frame whose rows the explode step can read: every column it names exists. */
  predicate Explodable(f: Frame, ts: Option<string>, ids: seq<string>, preds: seq<string>)
  {
    WellFormed(f) && forall c :: c in RowNames(ts, ids, preds) ==> c in f.cells
  }

  /** The number of horizon steps of row `b` when column `p` leads: the length of
      its cell, and 0 for a cell that is no list. */
  function Horizon(f: Frame, p: string, b: nat): nat
    requires WellFormed(f) && p in f.cells && b < f.height
  {
    var cell := f.cells[p][b];
    if cell.List? then |cell.items| else 0
  }

  function Horizons(f: Frame, p: string): (r: seq<nat>)
    requires WellFormed(f) && p in f.cells
    ensures |r| == f.height
    ensures forall b :: 0 <= b < f.height ==> r[b] == Horizon(f, p, b)
  {
    seq(f.height, b requires 0 <= b < f.height => Horizon(f, p, b))
  }

  /** `l = len(row[prediction_columns[0]])`. */
  function RowLength(f: Frame, b: nat, preds: seq<string>): (r: Result<nat>)
    requires WellFormed(f) && b < f.height
    requires forall p :: p in preds ==> p in f.cells
    ensures preds == [] ==> r == Err(IndexOutOfRange)
    ensures preds != [] && !f.cells[preds[0]][b].List? ==> r == Err(NotAList)
    ensures r.Ok? ==> preds != [] && r.value == Horizon(f, preds[0], b) && f.cells[preds[0]][b].List?
  {
    if preds == [] then Err(IndexOutOfRange)
    else
      var cell := f.cells[preds[0]][b];
      if cell.List? then Ok(|cell.items|) else Err(NotAList)
  }

  /** `tmp[c] = row[c]` for each of `names`, in order: a list cell becomes a
      column of the new frame, any other cell a scalar. */
  function RowFill(d: Dict<Entry>, f: Frame, b: nat, names: seq<string>): (r: Dict<Entry>)
    requires ValidDict(d) && WellFormed(f) && b < f.height
    requires forall c :: c in names ==> c in f.cells
    ensures ValidDict(r) && r.keys == AppendNew(d.keys, names)
  {
    if names == [] then d
    else
      var last := names[|names| - 1];
      Put(RowFill(d, f, b, names[..|names| - 1]), last, EntryOf(f.cells[last][b]))
  }

  /** After `tmp[c] = row[c]` for each of `names`, each of them holds its cell
      and every other key keeps what it held. */
  lemma {:induction false} RowFillEntries(d: Dict<Entry>, f: Frame, b: nat, names: seq<string>)
    requires ValidDict(d) && WellFormed(f) && b < f.height
    requires forall c :: c in names ==> c in f.cells
    ensures var r := RowFill(d, f, b, names);
      && (forall c :: c in names ==> c in r.entries && r.entries[c] == EntryOf(f.cells[c][b]))
      && (forall c :: c !in names ==> (c in r.entries <==> c in d.entries))
      && (forall c :: c !in names && c in d.entries ==> r.entries[c] == d.entries[c])
  {
    if names != [] {
      var init := names[..|names| - 1];
      assert names == init + [names[|names| - 1]];
      RowFillEntries(d, f, b, init);
    }
  }

  /** `tmp = {}`, then `tmp[timestamp_column] = create_timestamps(row[timestamp_column],
      freq, l)` when a timestamp column is configured. */
  function StampDict(f: Frame, b: nat, ts: Option<string>, freq: Value, stamps: TimestampMaker, l: nat): (r: Dict<Entry>)
    requires WellFormed(f) && b < f.height
    requires ts.Some? ==> ts.value in f.cells
    ensures ValidDict(r) && r.keys == StampKeys(ts)
    ensures ts.Some? ==> ts.value in r.entries && r.entries[ts.value] == Column(stamps(f.cells[ts.value][b], freq, l))
    ensures forall c :: c in r.entries ==> ts == Some(c)
  {
    if ts.Some? then Put(EmptyDict(), ts.value, Column(stamps(f.cells[ts.value][b], freq, l))) else EmptyDict()
  }

  function StampKeys(ts: Option<string>): (r: seq<string>)
    ensures Distinct(r)
  {
    if ts.Some? then
      DistinctAppend([], ts.value);
      [ts.value]
    else []
  }

  /** The columns of every exploded row: timestamp, ids, predictions, each once. */
  function RowColumns(ts: Option<string>, ids: seq<string>, preds: seq<string>): (r: seq<string>)
    ensures Distinct(r)
    ensures forall c :: c in r <==> c in RowNames(ts, ids, preds)
  {
    AppendNew(AppendNew(StampKeys(ts), ids), preds)
  }

  /** Row `b` exploded: `pd.DataFrame(tmp)` after the timestamp, id and prediction
      assignments. */
  function ExplodedRow(f: Frame, b: nat, ts: Option<string>, ids: seq<string>, preds: seq<string>,
                       freq: Value, stamps: TimestampMaker): (r: Result<Frame>)
    requires Explodable(f, ts, ids, preds) && b < f.height
    ensures r.Ok? ==> WellFormed(r.value) && r.value.columns == RowColumns(ts, ids, preds)
  {
    match RowLength(f, b, preds)
    case Err(e) => Err(e)
    case Ok(l) => FrameOf(RowDict(f, b, ts, ids, preds, freq, stamps, l))
  }

  /** `tmp` of row `b` once filled: timestamps, then ids, then predictions. */
  function RowDict(f: Frame, b: nat, ts: Option<string>, ids: seq<string>, preds: seq<string>,
                   freq: Value, stamps: TimestampMaker, l: nat): (r: Dict<Entry>)
    requires Explodable(f, ts, ids, preds) && b < f.height
    ensures ValidDict(r) && r.keys == RowColumns(ts, ids, preds)
  {
    RowFill(RowFill(StampDict(f, b, ts, freq, stamps, l), f, b, ids), f, b, preds)
  }

  /** What `tmp` holds: each id and prediction cell of the row, and the timestamps
      unless an id or prediction column has the timestamp column's name. */
  lemma RowDictEntries(f: Frame, b: nat, ts: Option<string>, ids: seq<string>, preds: seq<string>,
                       freq: Value, stamps: TimestampMaker, l: nat)
    requires Explodable(f, ts, ids, preds) && b < f.height
    ensures var d := RowDict(f, b, ts, ids, preds, freq, stamps, l);
      && (forall c :: c in ids + preds ==> c in d.entries && d.entries[c] == EntryOf(f.cells[c][b]))
      && (ts.Some? && ts.value !in ids + preds ==>
            ts.value in d.entries && d.entries[ts.value] == Column(stamps(f.cells[ts.value][b], freq, l)))
  {
    var stamp := StampDict(f, b, ts, freq, stamps, l);
    RowFillEntries(stamp, f, b, ids);
    RowFillEntries(RowFill(stamp, f, b, ids), f, b, preds);
  }

  /** Every row exploded on its own, in row order. */
  function RowResults(f: Frame, ts: Option<string>, ids: seq<string>, preds: seq<string>,
                      freq: Value, stamps: TimestampMaker): (r: seq<Result<Frame>>)
    requires Explodable(f, ts, ids, preds)
    ensures |r| == f.height
    ensures forall b :: 0 <= b < f.height ==> r[b] == ExplodedRow(f, b, ts, ids, preds, freq, stamps)
  {
    seq(f.height, b requires 0 <= b < f.height => ExplodedRow(f, b, ts, ids, preds, freq, stamps))
  }

  /** The explode step: the rows exploded in order, stopping at the first that
      raises, then `pd.concat` of the pieces. A frame without rows leaves nothing
      to concatenate; rows without prediction columns have no horizon to read. */
  function Exploded(f: Frame, ts: Option<string>, ids: seq<string>, preds: seq<string>,
                    freq: Value, stamps: TimestampMaker): (r: Result<Frame>)
    requires Explodable(f, ts, ids, preds)
    ensures r.Ok? ==> WellFormed(r.value) && r.value.columns == RowColumns(ts, ids, preds)
  {
    var rows := RowResults(f, ts, ids, preds, freq, stamps);
    match AllOk(rows)
    case Err(e) => Err(e)
    case Ok(pieces) =>
      PiecesAligned(f, ts, ids, preds, freq, stamps);
      ConcatFrames(pieces)
  }

  /** The pieces of a row loop that went through are frames with the same columns. */
  lemma PiecesAligned(f: Frame, ts: Option<string>, ids: seq<string>, preds: seq<string>,
                      freq: Value, stamps: TimestampMaker)
    requires Explodable(f, ts, ids, preds)
    requires AllOk(RowResults(f, ts, ids, preds, freq, stamps)).Ok?
    ensures var pieces := AllOk(RowResults(f, ts, ids, preds, freq, stamps)).value;
      Aligned(pieces) && (pieces != [] ==> pieces[0].columns == RowColumns(ts, ids, preds))
  {
    var rows := RowResults(f, ts, ids, preds, freq, stamps);
    var pieces := AllOk(rows).value;
    AllOkValues(rows);
    forall j | 0 <= j < |pieces|
      ensures WellFormed(pieces[j]) && pieces[j].columns == RowColumns(ts, ids, preds)
    {
      assert rows[j] == ExplodedRow(f, j, ts, ids, preds, freq, stamps) == Ok(pieces[j]);
    }
  }

  /** `tmp[c] = row[c]` for each of `names`, in order. */
  method PutCells(d0: Dict<Entry>, f: Frame, b: nat, names: seq<string>) returns (d: Dict<Entry>)
    requires ValidDict(d0) && WellFormed(f) && b < f.height
    requires forall c :: c in names ==> c in f.cells
    ensures d == RowFill(d0, f, b, names)
  {
    d := d0;
    var i := 0;
    while i < |names|
      invariant 0 <= i <= |names|
      invariant d == RowFill(d0, f, b, names[..i])
    {
      RowFillStep(d0, f, b, names, i);
      d := Put(d, names[i], EntryOf(f.cells[names[i]][b]));
      i := i + 1;
    }
    assert names[..i] == names;
  }

  /** One more copy of the loop in `PutCells`. */
  lemma RowFillStep(d0: Dict<Entry>, f: Frame, b: nat, names: seq<string>, i: nat)
    requires ValidDict(d0) && WellFormed(f) && b < f.height && i < |names|
    requires forall c :: c in names ==> c in f.cells
    ensures RowFill(d0, f, b, names[..i + 1]) == Put(RowFill(d0, f, b, names[..i]), names[i], EntryOf(f.cells[names[i]][b]))
  {
    assert names[..i + 1][..i] == names[..i];
  }

  /** The body of the row loop: the horizon length, then `tmp` filled and made a frame. */
  method ExplodeRow(f: Frame, b: nat, ts: Option<string>, ids: seq<string>, preds: seq<string>,
                    freq: Value, stamps: TimestampMaker) returns (r: Result<Frame>)
    requires Explodable(f, ts, ids, preds) && b < f.height
    ensures r == ExplodedRow(f, b, ts, ids, preds, freq, stamps)
  {
    if preds == [] {
      return Err(IndexOutOfRange);
    }
    var lead := f.cells[preds[0]][b];
    if !lead.List? {
      return Err(NotAList);
    }
    var l := |lead.items|;
    var tmp: Dict<Entry> := EmptyDict();
    if ts.Some? {
      tmp := Put(tmp, ts.value, Column(stamps(f.cells[ts.value][b], freq, l)));
    }
    tmp := PutCells(tmp, f, b, ids);
    tmp := PutCells(tmp, f, b, preds);
    r := FrameOf(tmp);
  }

  /** The row loop and the final `pd.concat`. */
  method ExplodeForecasts(f: Frame, ts: Option<string>, ids: seq<string>, preds: seq<string>,
                          freq: Value, stamps: TimestampMaker) returns (r: Result<Frame>)
    requires Explodable(f, ts, ids, preds)
    ensures r == Exploded(f, ts, ids, preds, freq, stamps)
  {
    ghost var rows := RowResults(f, ts, ids, preds, freq, stamps);
    var pieces: seq<Frame> := [];
    var b := 0;
    while b < f.height
      invariant 0 <= b <= f.height
      invariant AllOk(rows[..b]) == Ok(pieces)
    {
      var piece := ExplodeRow(f, b, ts, ids, preds, freq, stamps);
      if piece.Err? {
        AllOkStop(rows, b, f.height);
        assert rows[..f.height] == rows;
        return Err(piece.error);
      }
      AllOkStep(rows, b, pieces, piece.value);
      pieces := pieces + [piece.value];
      b := b + 1;
    }
    assert rows[..b] == rows;
    ExplodedPieces(f, ts, ids, preds, freq, stamps);
    r := ConcatFrames(pieces);
  }

  /** When every row explodes, the step is `pd.concat` of the pieces in row order. */
  lemma ExplodedPieces(f: Frame, ts: Option<string>, ids: seq<string>, preds: seq<string>,
                       freq: Value, stamps: TimestampMaker)
    requires Explodable(f, ts, ids, preds)
    requires AllOk(RowResults(f, ts, ids, preds, freq, stamps)).Ok?
    ensures var pieces := AllOk(RowResults(f, ts, ids, preds, freq, stamps)).value;
      Aligned(pieces) && Exploded(f, ts, ids, preds, freq, stamps) == ConcatFrames(pieces)
  {
    PiecesAligned(f, ts, ids, preds, freq, stamps);
  }

  /** A frame without rows leaves nothing to concatenate; rows without prediction
      columns have no horizon to read. */
  lemma ExplodedRefused(f: Frame, ts: Option<string>, ids: seq<string>, preds: seq<string>,
                        freq: Value, stamps: TimestampMaker)
    requires Explodable(f, ts, ids, preds)
    ensures f.height == 0 ==> Exploded(f, ts, ids, preds, freq, stamps) == Err(NothingToConcatenate)
    ensures f.height > 0 && preds == [] ==> Exploded(f, ts, ids, preds, freq, stamps) == Err(IndexOutOfRange)
  {
    var rows := RowResults(f, ts, ids, preds, freq, stamps);
    if f.height > 0 && preds == [] {
      assert rows[..0] == [];
      AllOkStop(rows, 0, f.height);
      assert rows[..f.height] == rows;
    }
  }

  /** The explode step fails exactly when some row fails, and then with the error
      of the first row that fails. */
  lemma ExplodedFails(f: Frame, ts: Option<string>, ids: seq<string>, preds: seq<string>,
                      freq: Value, stamps: TimestampMaker)
    requires Explodable(f, ts, ids, preds) && f.height > 0
    ensures Exploded(f, ts, ids, preds, freq, stamps).Err? <==>
      exists b :: 0 <= b < f.height && ExplodedRow(f, b, ts, ids, preds, freq, stamps).Err?
    ensures Exploded(f, ts, ids, preds, freq, stamps).Err? ==>
      exists b :: 0 <= b < f.height && ExplodedRow(f, b, ts, ids, preds, freq, stamps) == Err(Exploded(f, ts, ids, preds, freq, stamps).error) &&
        forall a :: 0 <= a < b ==> ExplodedRow(f, a, ts, ids, preds, freq, stamps).Ok?
  {
    var rows := RowResults(f, ts, ids, preds, freq, stamps);
    ExplodedError(f, ts, ids, preds, freq, stamps);
    AllOkValues(rows);
    if AllOk(rows).Err? {
      AllOkFirstError(rows);
    }
  }

  /** With rows to concatenate, the step fails exactly when the row loop does. */
  lemma ExplodedError(f: Frame, ts: Option<string>, ids: seq<string>, preds: seq<string>,
                      freq: Value, stamps: TimestampMaker)
    requires Explodable(f, ts, ids, preds) && f.height > 0
    ensures Exploded(f, ts, ids, preds, freq, stamps).Err? <==> AllOk(RowResults(f, ts, ids, preds, freq, stamps)).Err?
    ensures Exploded(f, ts, ids, preds, freq, stamps).Err? ==>
      Exploded(f, ts, ids, preds, freq, stamps).error == AllOk(RowResults(f, ts, ids, preds, freq, stamps)).error
  {
  }

  /** One exploded row: as many rows as its horizon, each id and prediction cell
      spread over them (a list cell as a column, any other cell repeated), and the
      timestamps made for the horizon. */
  lemma ExplodedRowShape(f: Frame, b: nat, ts: Option<string>, ids: seq<string>, preds: seq<string>,
                         freq: Value, stamps: TimestampMaker)
    requires Explodable(f, ts, ids, preds) && b < f.height
    requires ExplodedRow(f, b, ts, ids, preds, freq, stamps).Ok?
    ensures var piece := ExplodedRow(f, b, ts, ids, preds, freq, stamps).value;
      && preds != []
      && piece.height == Horizon(f, preds[0], b)
      && (forall c :: c in ids + preds ==> c in piece.cells && piece.cells[c] == Broadcast(EntryOf(f.cells[c][b]), piece.height))
      && (ts.Some? && ts.value !in ids + preds ==>
            ts.value in piece.cells && piece.cells[ts.value] == stamps(f.cells[ts.value][b], freq, piece.height))
  {
    var l := RowLength(f, b, preds).value;
    var d := RowDict(f, b, ts, ids, preds, freq, stamps, l);
    RowDictEntries(f, b, ts, ids, preds, freq, stamps, l);
    assert FrameOf(d) == ExplodedRow(f, b, ts, ids, preds, freq, stamps);
    assert d.entries[preds[0]] == Column(f.cells[preds[0]][b].items);
  }

  /** Column `c` of each row spread over that row's horizon (when column `p`
      leads): a list cell as it is, any other cell repeated. */
  function Spread(f: Frame, c: string, p: string): (r: seq<seq<Value>>)
    requires WellFormed(f) && c in f.cells && p in f.cells
    ensures |r| == f.height
    ensures forall b :: 0 <= b < f.height ==> r[b] == Broadcast(EntryOf(f.cells[c][b]), Horizon(f, p, b))
  {
    seq(f.height, b requires 0 <= b < f.height => Broadcast(EntryOf(f.cells[c][b]), Horizon(f, p, b)))
  }

  /** Each piece of the row loop has its row's horizon as height. */
  lemma PiecesHorizons(f: Frame, ts: Option<string>, ids: seq<string>, preds: seq<string>,
                       freq: Value, stamps: TimestampMaker)
    requires Explodable(f, ts, ids, preds) && preds != []
    requires AllOk(RowResults(f, ts, ids, preds, freq, stamps)).Ok?
    ensures Heights(AllOk(RowResults(f, ts, ids, preds, freq, stamps)).value) == Horizons(f, preds[0])
  {
    var rows := RowResults(f, ts, ids, preds, freq, stamps);
    AllOkValues(rows);
    var pieces := AllOk(rows).value;
    forall b | 0 <= b < f.height
      ensures Heights(pieces)[b] == Horizons(f, preds[0])[b]
    {
      ExplodedRowShape(f, b, ts, ids, preds, freq, stamps);
    }
  }

  /** Each piece of the row loop holds its row's id and prediction cells spread
      over the row's horizon. */
  lemma PiecesCells(f: Frame, ts: Option<string>, ids: seq<string>, preds: seq<string>,
                    freq: Value, stamps: TimestampMaker, c: string)
    requires Explodable(f, ts, ids, preds) && preds != [] && c in ids + preds
    requires AllOk(RowResults(f, ts, ids, preds, freq, stamps)).Ok?
    ensures var pieces := AllOk(RowResults(f, ts, ids, preds, freq, stamps)).value;
      |pieces| == f.height &&
      forall b :: 0 <= b < f.height ==> c in pieces[b].cells && pieces[b].cells[c] == Spread(f, c, preds[0])[b]
  {
    var rows := RowResults(f, ts, ids, preds, freq, stamps);
    AllOkValues(rows);
    forall b | 0 <= b < f.height
      ensures c in AllOk(rows).value[b].cells && AllOk(rows).value[b].cells[c] == Spread(f, c, preds[0])[b]
    {
      ExplodedRowShape(f, b, ts, ids, preds, freq, stamps);
    }
  }

  /** A successful explode step had rows, prediction columns, and every row
      exploded: it is `pd.concat` of the row pieces. */
  lemma ExplodedConcat(f: Frame, ts: Option<string>, ids: seq<string>, preds: seq<string>,
                       freq: Value, stamps: TimestampMaker)
    requires Explodable(f, ts, ids, preds)
    requires Exploded(f, ts, ids, preds, freq, stamps).Ok?
    ensures f.height > 0 && preds != []
    ensures AllOk(RowResults(f, ts, ids, preds, freq, stamps)).Ok?
    ensures var pieces := AllOk(RowResults(f, ts, ids, preds, freq, stamps)).value;
      Aligned(pieces) && pieces != [] && Exploded(f, ts, ids, preds, freq, stamps) == ConcatFrames(pieces)
  {
    ExplodedRefused(f, ts, ids, preds, freq, stamps);
    ExplodedError(f, ts, ids, preds, freq, stamps);
    ExplodedPieces(f, ts, ids, preds, freq, stamps);
  }

  /** The exploded frame has as many rows as the horizons add up to. */
  lemma ExplodedHeight(f: Frame, ts: Option<string>, ids: seq<string>, preds: seq<string>,
                       freq: Value, stamps: TimestampMaker)
    requires Explodable(f, ts, ids, preds)
    requires Exploded(f, ts, ids, preds, freq, stamps).Ok?
    ensures preds != [] && Exploded(f, ts, ids, preds, freq, stamps).value.height == Sum(Horizons(f, preds[0]))
  {
    ExplodedConcat(f, ts, ids, preds, freq, stamps);
    PiecesHeight(f, ts, ids, preds, freq, stamps);
  }

  /** The pieces of a row loop that went through add up to the horizons. */
  lemma PiecesHeight(f: Frame, ts: Option<string>, ids: seq<string>, preds: seq<string>,
                     freq: Value, stamps: TimestampMaker)
    requires Explodable(f, ts, ids, preds) && preds != [] && f.height > 0
    requires AllOk(RowResults(f, ts, ids, preds, freq, stamps)).Ok?
    ensures var pieces := AllOk(RowResults(f, ts, ids, preds, freq, stamps)).value;
      Aligned(pieces) && ConcatFrames(pieces).Ok? && ConcatFrames(pieces).value.height == Sum(Horizons(f, preds[0]))
  {
    PiecesAligned(f, ts, ids, preds, freq, stamps);
    PiecesHorizons(f, ts, ids, preds, freq, stamps);
  }

  /** Each id and prediction column of the exploded frame is the concatenation
      of that column's cells, each spread over its row's horizon. */
  lemma ExplodedColumn(f: Frame, ts: Option<string>, ids: seq<string>, preds: seq<string>,
                       freq: Value, stamps: TimestampMaker, c: string)
    requires Explodable(f, ts, ids, preds) && c in ids + preds
    requires Exploded(f, ts, ids, preds, freq, stamps).Ok?
    ensures preds != [] && c in Exploded(f, ts, ids, preds, freq, stamps).value.cells
    ensures Exploded(f, ts, ids, preds, freq, stamps).value.cells[c] == Flatten(Spread(f, c, preds[0]))
  {
    ExplodedConcat(f, ts, ids, preds, freq, stamps);
    PiecesCells(f, ts, ids, preds, freq, stamps, c);
    assert c in RowColumns(ts, ids, preds);
    ConcatColumn(AllOk(RowResults(f, ts, ids, preds, freq, stamps)).value, c, Spread(f, c, preds[0]));
  }

  /** The timestamps made for each row's horizon (when column `p` leads), from
      that row's timestamp cell `t`. */
  function Stamped(f: Frame, t: string, p: string, freq: Value, stamps: TimestampMaker): (r: seq<seq<Value>>)
    requires WellFormed(f) && t in f.cells && p in f.cells
    ensures |r| == f.height
    ensures forall b :: 0 <= b < f.height ==> r[b] == stamps(f.cells[t][b], freq, Horizon(f, p, b))
  {
    seq(f.height, b requires 0 <= b < f.height => stamps(f.cells[t][b], freq, Horizon(f, p, b)))
  }

  /** Each piece of the row loop holds its row's timestamps, unless an id or
      prediction column has the timestamp name. */
  lemma PiecesStamps(f: Frame, ts: Option<string>, ids: seq<string>, preds: seq<string>,
                     freq: Value, stamps: TimestampMaker)
    requires Explodable(f, ts, ids, preds) && preds != [] && ts.Some? && ts.value !in ids + preds
    requires AllOk(RowResults(f, ts, ids, preds, freq, stamps)).Ok?
    ensures ts.value in f.cells
    ensures var pieces := AllOk(RowResults(f, ts, ids, preds, freq, stamps)).value;
      |pieces| == f.height &&
      forall b :: 0 <= b < f.height ==>
        ts.value in pieces[b].cells && pieces[b].cells[ts.value] == Stamped(f, ts.value, preds[0], freq, stamps)[b]
  {
    assert ts.value in RowNames(ts, ids, preds);
    var rows := RowResults(f, ts, ids, preds, freq, stamps);
    AllOkValues(rows);
    forall b | 0 <= b < f.height
      ensures ts.value in AllOk(rows).value[b].cells
      ensures AllOk(rows).value[b].cells[ts.value] == Stamped(f, ts.value, preds[0], freq, stamps)[b]
    {
      ExplodedRowShape(f, b, ts, ids, preds, freq, stamps);
    }
  }

  /** The timestamp column of the exploded frame, unless an id or prediction
      column has its name: each row's timestamps for its horizon, laid end to end. */
  lemma ExplodedStamps(f: Frame, ts: Option<string>, ids: seq<string>, preds: seq<string>,
                       freq: Value, stamps: TimestampMaker)
    requires Explodable(f, ts, ids, preds) && ts.Some? && ts.value !in ids + preds
    requires Exploded(f, ts, ids, preds, freq, stamps).Ok?
    ensures preds != [] && ts.value in f.cells && ts.value in Exploded(f, ts, ids, preds, freq, stamps).value.cells
    ensures Exploded(f, ts, ids, preds, freq, stamps).value.cells[ts.value]
      == Flatten(Stamped(f, ts.value, preds[0], freq, stamps))
  {
    ExplodedConcat(f, ts, ids, preds, freq, stamps);
    PiecesStamps(f, ts, ids, preds, freq, stamps);
    assert ts.value in RowColumns(ts, ids, preds);
    ConcatColumn(AllOk(RowResults(f, ts, ids, preds, freq, stamps)).value, ts.value,
                 Stamped(f, ts.value, preds[0], freq, stamps));
  }
}
