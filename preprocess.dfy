/** `preprocess`: load the series, validate and append the future series (or
    extend the series over the horizon), window it, and stack the windows into
    one batch. */
module Preprocessing {
  import opened Values
  import opened Frames
  import opened Arguments

  /** One window of the dataset: field name to value (tensor or list). */
  type Record = map<string, Value>

  /** The `time_series` argument: a frame, or a location to read one from. */
  datatype Series = InMemory(frame: Table) | Location(path: string)

  /** What preprocess calls but this model does not describe: reading a CSV file
      with the timestamp column parsed as dates, `extend_time_series`, and the
      windows of `ForecastDFDataset`. */
  datatype Collaborators = Collaborators(
    readCsv: (string, Arg) -> Table,
    extendTimeSeries: (Table, Arg, Arg, Arg) -> Table,
    windows: (Table, Kwargs) -> seq<Record>)

  function Load(series: Series, timestampColumn: Arg, io: Collaborators): Table
  {
    match series
    case InMemory(f) => f
    case Location(path) => io.readCsv(path, timestampColumn)
  }

  /** The first of `columns`, in order, that `known` lacks. */
  function FirstUnknownColumn(columns: seq<string>, known: seq<string>): (r: Option<string>)
    ensures r.None? <==> forall c :: c in columns ==> c in known
    ensures r.Some? ==>
      exists i :: 0 <= i < |columns| && columns[i] == r.value && r.value !in known &&
        forall j :: 0 <= j < i ==> columns[j] in known
  {
    if columns == [] then None
    else if columns[0] !in known then Some(columns[0])
    else
      var r := FirstUnknownColumn(columns[1..], known);
      assert forall c :: c in columns ==> c == columns[0] || c in columns[1..];
      r
  }

  /** The loop over the future columns: reports the first one the base lacks. */
  method CheckFutureColumns(future: Table, base: Table) returns (unknown: Option<string>)
    ensures unknown == FirstUnknownColumn(future.columns, base.columns)
  {
    var i := 0;
    while i < |future.columns|
      invariant 0 <= i <= |future.columns|
      invariant FirstUnknownColumn(future.columns[i..], base.columns) == FirstUnknownColumn(future.columns, base.columns)
    {
      var c := future.columns[i];
      if c !in base.columns {
        return Some(c);
      }
      assert future.columns[i..][1..] == future.columns[i + 1..];
      i := i + 1;
    }
    return None;
  }

  /** The future series appended to the base series, if all its columns are known. */
  function Appended(base: Table, future: Table): (r: Result<Table>)
    ensures r.Err? <==> exists c :: c in future.columns && c !in base.columns
    ensures r.Err? ==> r.error == UnknownFutureColumn(FirstUnknownColumn(future.columns, base.columns).value)
    ensures r.Ok? ==> r.value == ConcatRows(base, future)
  {
    match FirstUnknownColumn(future.columns, base.columns)
    case Some(c) => Err(UnknownFutureColumn(c))
    case None => Ok(ConcatRows(base, future))
  }

  /** The series the dataset is built from: the base series with the future
      series appended, or the base series extended over the horizon. */
  function Combined(base: Table, kwargs: Kwargs, io: Collaborators): (r: Result<Table>)
  {
    var timestampColumn := Get(kwargs, "timestamp_column", NoneArg);
    match Get(kwargs, "future_time_series", NoneArg)
    case NoneArg =>
      Ok(io.extendTimeSeries(base, timestampColumn, Get(kwargs, "id_columns", NoneArg), Get(kwargs, "prediction_length", NoneArg)))
    case StrArg(path) => Appended(base, io.readCsv(path, timestampColumn))
    case FrameArg(future) => Appended(base, future)
    case _ => Err(UnsupportedFutureType)
  }

  predicate SharesKeys(records: seq<Record>)
    requires |records| > 0
  {
    forall j :: 0 <= j < |records| ==> records[0].Keys <= records[j].Keys
  }

  /** Field `k` of each window, in dataset order. */
  function Gathered(records: seq<Record>, k: string): (r: seq<Value>)
    requires forall j :: 0 <= j < |records| ==> k in records[j]
    ensures |r| == |records|
    ensures forall j :: 0 <= j < |records| ==> r[j] == records[j][k]
  {
    seq(|records|, j requires 0 <= j < |records| && k in records[j] => records[j][k])
  }

  /** The windows stacked field by field: every field of the first window maps to
      the list of that field over all windows. */
  function Stacked(records: seq<Record>): (r: Result<Batch>)
    ensures |records| == 0 ==> r == Err(EmptyDataset)
    ensures |records| > 0 && !SharesKeys(records) ==> r == Err(IncompleteRecord)
    ensures |records| > 0 && SharesKeys(records) ==> r.Ok?
    ensures r.Ok? ==> |records| > 0 && SharesKeys(records) && r.value.Keys == records[0].Keys
    ensures r.Ok? ==> forall k :: k in r.value ==> r.value[k].List? && |r.value[k].items| == |records|
    ensures r.Ok? ==> forall k, j :: k in r.value && 0 <= j < |records| ==> k in records[j] && r.value[k].items[j] == records[j][k]
  {
    if |records| == 0 then Err(EmptyDataset)
    else if !SharesKeys(records) then Err(IncompleteRecord)
    else Ok(map k | k in records[0] :: List(Gathered(records, k)))
  }

  /** The stacking loop: for each field of the first window, the field of every window. */
  method StackRecords(records: seq<Record>) returns (r: Result<Batch>)
    ensures r == Stacked(records)
  {
    if |records| == 0 {
      return Err(EmptyDataset);
    }
    var first := records[0];
    var full: Batch := map[];
    var pending := first.Keys;
    while pending != {}
      invariant pending <= first.Keys
      invariant full.Keys == first.Keys - pending
      invariant forall k :: k in full ==> forall j :: 0 <= j < |records| ==> k in records[j]
      invariant forall k :: k in full ==> full[k] == List(Gathered(records, k))
      decreases pending
    {
      var k :| k in pending;
      var column: seq<Value> := [];
      var j := 0;
      while j < |records|
        invariant 0 <= j <= |records|
        invariant |column| == j
        invariant forall i :: 0 <= i < j ==> k in records[i] && column[i] == records[i][k]
      {
        if k !in records[j] {
          return Err(IncompleteRecord);
        }
        column := column + [records[j][k]];
        j := j + 1;
      }
      assert column == Gathered(records, k);
      full := full[k := List(column)];
      pending := pending - {k};
    }
    forall j | 0 <= j < |records|
      ensures records[0].Keys <= records[j].Keys
    {
      assert forall k :: k in records[0] ==> k in full;
    }
    assert full.Keys == records[0].Keys;
    assert full == map k | k in records[0] :: List(Gathered(records, k));
    return Ok(full);
  }

  /** The whole step: the batch, or the error it raises. */
  function Preprocessed(series: Series, kwargs: Kwargs, io: Collaborators): Result<Batch>
  {
    var base := Load(series, Get(kwargs, "timestamp_column", NoneArg), io);
    match Combined(base, kwargs, io)
    case Err(e) => Err(e)
    case Ok(combined) => Stacked(io.windows(combined, kwargs - {"future_time_series"}))
  }

  method Preprocess(series: Series, kwargs: Kwargs, io: Collaborators) returns (r: Result<Batch>)
    ensures r == Preprocessed(series, kwargs, io)
  {
    var predictionLength := Get(kwargs, "prediction_length", NoneArg);
    var timestampColumn := Get(kwargs, "timestamp_column", NoneArg);
    var idColumns := Get(kwargs, "id_columns", NoneArg);

    var timeSeries: Table;
    if series.Location? {
      timeSeries := io.readCsv(series.path, timestampColumn);
    } else {
      timeSeries := series.frame;
    }

    var future := Get(kwargs, "future_time_series", NoneArg);
    var rest := kwargs - {"future_time_series"};

    if !future.NoneArg? {
      var futureSeries: Table;
      if future.StrArg? {
        futureSeries := io.readCsv(future.s, timestampColumn);
      } else if future.FrameArg? {
        futureSeries := future.frame;
      } else {
        return Err(UnsupportedFutureType);
      }
      var unknown := CheckFutureColumns(futureSeries, timeSeries);
      if unknown.Some? {
        return Err(UnknownFutureColumn(unknown.value));
      }
      timeSeries := ConcatRows(timeSeries, futureSeries);
    } else {
      timeSeries := io.extendTimeSeries(timeSeries, timestampColumn, idColumns, predictionLength);
    }

    var dataset := io.windows(timeSeries, rest);
    r := StackRecords(dataset);
  }

  /** A future series with a column the base series lacks is refused with the
      first such column, whatever the dataset would have made of the series: no
      windows are built. A future series of any other type than a path or a frame
      is refused too. */
  lemma FutureSeriesValidated(series: Series, kwargs: Kwargs, io: Collaborators, future: Table)
    requires Get(kwargs, "future_time_series", NoneArg) == FrameArg(future)
    requires exists c :: c in future.columns && c !in Load(series, Get(kwargs, "timestamp_column", NoneArg), io).columns
    ensures forall windows: (Table, Kwargs) -> seq<Record> ::
      Preprocessed(series, kwargs, io.(windows := windows)) ==
      Err(UnknownFutureColumn(FirstUnknownColumn(future.columns, Load(series, Get(kwargs, "timestamp_column", NoneArg), io).columns).value))
  {
  }

  lemma UnsupportedFutureRefused(series: Series, kwargs: Kwargs, io: Collaborators)
    requires "future_time_series" in kwargs
    requires kwargs["future_time_series"].IntArg? || kwargs["future_time_series"].NamesArg? || kwargs["future_time_series"].OtherArg?
    ensures Preprocessed(series, kwargs, io) == Err(UnsupportedFutureType)
  {
  }

  /** An accepted future series: the dataset is built from the base rows followed
      by the future rows, and is not told about the future series. */
  lemma FutureSeriesAppended(series: Series, kwargs: Kwargs, io: Collaborators, future: Table)
    requires Get(kwargs, "future_time_series", NoneArg) == FrameArg(future)
    requires forall c :: c in future.columns ==> c in Load(series, Get(kwargs, "timestamp_column", NoneArg), io).columns
    ensures var base := Load(series, Get(kwargs, "timestamp_column", NoneArg), io);
      Preprocessed(series, kwargs, io) == Stacked(io.windows(ConcatRows(base, future), kwargs - {"future_time_series"}))
  {
  }
}
