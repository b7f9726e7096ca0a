/** The first half of `postprocess`: the dict of output columns. It holds one
    `<target>_prediction` column and one `<target>` column per target, then the
    timestamp column, then one column per id. */
module Assembling {
  import opened Values
  import opened Frames
  import opened Arguments

  type Assignment = (string, Entry)

  /** The field the predictions are read from: `prediction_outputs` when the
      model produced one, else `prediction_logits`. */
  function PredictionKey(input: Batch): (key: string)
    ensures "prediction_outputs" in input ==> key == "prediction_outputs"
    ensures "prediction_outputs" !in input ==> key == "prediction_logits"
  {
    if "prediction_outputs" in input then "prediction_outputs" else "prediction_logits"
  }

  /** `x` is a window × horizon × target tensor that has a target at position `i`. */
  predicate HasTarget(x: Value, i: nat)
  {
    && x.List?
    && forall b :: 0 <= b < |x.items| ==>
         && x.items[b].List?
         && forall s :: 0 <= s < |x.items[b].items| ==>
              x.items[b].items[s].List? && i < |x.items[b].items[s].items|
  }

  /** `x[:, :, i].numpy().tolist()`: for each window, target `i` over the horizon. */
  function TargetSlice(x: Value, i: nat): (r: seq<Value>)
    requires HasTarget(x, i)
  {
    seq(|x.items|, b requires 0 <= b < |x.items| =>
      List(seq(|x.items[b].items|, s requires 0 <= s < |x.items[b].items| => x.items[b].items[s].items[i])))
  }

  /** The slices of the first `n` targets. */
  function SliceAll(x: Value, n: nat): (r: seq<seq<Value>>)
    requires n == 0 || HasTarget(x, n - 1)
    ensures |r| == n
  {
    if n == 0 then []
    else
      assert n > 1 ==> HasTarget(x, n - 2) by {
        if n > 1 { HasTargetBelow(x, n - 1, n - 2); }
      }
      SliceAll(x, n - 1) + [TargetSlice(x, n - 1)]
  }

  /** A tensor with target `i` has every target before it. */
  lemma HasTargetBelow(x: Value, i: nat, j: nat)
    requires HasTarget(x, i) && j <= i
    ensures HasTarget(x, j)
  {
  }

  /** Slice `i` of the first `n` is `x[:, :, i]`. */
  lemma {:induction false} SliceAllIndex(x: Value, n: nat, i: nat)
    requires (n == 0 || HasTarget(x, n - 1)) && i < n
    ensures HasTarget(x, i) && SliceAll(x, n)[i] == TargetSlice(x, i)
  {
    HasTargetBelow(x, n - 1, i);
    if i < n - 1 {
      HasTargetBelow(x, n - 1, n - 2);
      SliceAllIndex(x, n - 1, i);
    }
  }

  /** A field of the batch; `Missing` stands for one that is absent. */
  function Field(input: Batch, key: string): Value
  {
    if key in input then input[key] else Missing
  }

  /** One slicing loop's columns: field `key` is read only when there is a target. */
  function Slices(input: Batch, key: string, n: nat): (r: Result<seq<seq<Value>>>)
    ensures r.Ok? ==> (n > 0 ==> key in input && HasTarget(Field(input, key), n - 1))
    ensures r.Ok? ==> r.value == SliceAll(Field(input, key), n)
  {
    if n == 0 then Ok([])
    else if key !in input then Err(MissingKey(key))
    else if HasTarget(input[key], n - 1) then Ok(SliceAll(input[key], n))
    else Err(IndexOutOfRange)
  }

  /** Column `i` of a slicing loop that succeeded is `x[:, :, i]`. */
  lemma SlicesIndex(input: Batch, key: string, n: nat, i: nat)
    requires Slices(input, key, n).Ok? && i < n
    ensures HasTarget(Field(input, key), i) && Slices(input, key, n).value[i] == TargetSlice(Field(input, key), i)
  {
    SliceAllIndex(Field(input, key), n, i);
  }

  /** Every id tuple of `ids` has an element at position `i`. */
  predicate HasPart(ids: Value, i: nat)
  {
    ids.List? && forall b :: 0 <= b < |ids.items| ==> ids.items[b].List? && i < |ids.items[b].items|
  }

  /** Id tuples with an element at `i` have one at every position before. */
  lemma HasPartBelow(ids: Value, i: nat, j: nat)
    requires HasPart(ids, i) && j <= i
    ensures HasPart(ids, j)
  {
  }

  /** `[elem[i] for elem in ids]`: element `i` of each window's id tuple. */
  function IdColumn(ids: Value, i: nat): (r: seq<Value>)
    requires HasPart(ids, i)
  {
    seq(|ids.items|, b requires 0 <= b < |ids.items| && ids.items[b].List? && i < |ids.items[b].items| => ids.items[b].items[i])
  }

  function IdColumns(ids: Value, n: nat): (r: seq<seq<Value>>)
    requires n == 0 || HasPart(ids, n - 1)
    ensures |r| == n
  {
    if n == 0 then [] else IdColumns(ids, n - 1) + [IdColumn(ids, n - 1)]
  }

  /** Column `i` of the first `n` id columns is element `i` of each id tuple. */
  lemma {:induction false} IdColumnsIndex(ids: Value, n: nat, i: nat)
    requires (n == 0 || HasPart(ids, n - 1)) && i < n
    ensures HasPart(ids, i) && IdColumns(ids, n)[i] == IdColumn(ids, i)
  {
    if i < n - 1 {
      IdColumnsIndex(ids, n - 1, i);
    }
  }

  /** Each name with its column, as the loops assign them. */
  function Pair(names: seq<string>, columns: seq<seq<Value>>): (r: seq<Assignment>)
    requires |names| == |columns|
    ensures |r| == |names|
    ensures forall i :: 0 <= i < |names| ==> r[i] == (names[i], Column(columns[i]))
    ensures Names(r) == names
  {
    seq(|names|, i requires 0 <= i < |names| => (names[i], Column(columns[i])))
  }

  function PredictionNames(targets: seq<string>): (r: seq<string>)
    ensures |r| == |targets|
    ensures forall i :: 0 <= i < |targets| ==> r[i] == targets[i] + "_prediction"
  {
    seq(|targets|, i requires 0 <= i < |targets| => targets[i] + "_prediction")
  }

  /** `kwargs["target_columns"]`. */
  function TargetColumns(kwargs: Kwargs): Result<seq<string>>
  {
    if "target_columns" !in kwargs then Err(MissingKey("target_columns"))
    else if !kwargs["target_columns"].NamesArg? then Err(WrongType("target_columns"))
    else Ok(kwargs["target_columns"].names)
  }

  /** The timestamp column's name, when one is configured. */
  function TimestampName(kwargs: Kwargs): Option<string>
  {
    if "timestamp_column" in kwargs && kwargs["timestamp_column"].StrArg? then Some(kwargs["timestamp_column"].s) else None
  }

  /** The id columns' names. */
  function IdNames(kwargs: Kwargs): seq<string>
  {
    if "id_columns" in kwargs && kwargs["id_columns"].NamesArg? then kwargs["id_columns"].names else []
  }

  /** The timestamp column, then the id columns: the leading output columns. */
  function Prefix(ts: Option<string>, ids: seq<string>): seq<string>
  {
    (if ts.Some? then [ts.value] else []) + ids
  }

  /** The assignment of the timestamp column, if one is configured. */
  function TimestampAssignment(input: Batch, kwargs: Kwargs): (r: Result<seq<Assignment>>)
    ensures r.Ok? ==> ("timestamp_column" in kwargs ==> kwargs["timestamp_column"].StrArg?)
    ensures r.Ok? ==> Names(r.value) == if "timestamp_column" in kwargs then [kwargs["timestamp_column"].s] else []
  {
    if "timestamp_column" !in kwargs then Ok([])
    else if "timestamp" !in input then Err(MissingKey("timestamp"))
    else if !kwargs["timestamp_column"].StrArg? then Err(WrongType("timestamp_column"))
    else Ok([(kwargs["timestamp_column"].s, EntryOf(input["timestamp"]))])
  }

  /** The assignments of the id columns; `id_columns` must be given. */
  function IdAssignments(input: Batch, kwargs: Kwargs): (r: Result<seq<Assignment>>)
    ensures r.Ok? ==> "id_columns" in kwargs && kwargs["id_columns"].NamesArg?
    ensures r.Ok? ==> Names(r.value) == kwargs["id_columns"].names
  {
    if "id_columns" !in kwargs then Err(MissingKey("id_columns"))
    else if !kwargs["id_columns"].NamesArg? then Err(WrongType("id_columns"))
    else
      var ids := kwargs["id_columns"].names;
      match IdParts(input, |ids|)
      case Err(e) => Err(e)
      case Ok(columns) => Ok(Pair(ids, columns))
  }

  /** The id loop's columns: `input["id"]` is read only when there are id columns. */
  function IdParts(input: Batch, n: nat): (r: Result<seq<seq<Value>>>)
    ensures r.Ok? ==> (n > 0 ==> "id" in input && HasPart(Field(input, "id"), n - 1))
    ensures r.Ok? ==> r.value == IdColumns(Field(input, "id"), n)
  {
    if n == 0 then Ok([])
    else if "id" !in input then Err(MissingKey("id"))
    else if HasPart(input["id"], n - 1) then Ok(IdColumns(input["id"], n))
    else Err(IndexOutOfRange)
  }

  /** The dict of output columns and the names of the prediction columns. */
  datatype Assembled = Assembled(out: Dict<Entry>, predictionColumns: seq<string>)

  /** The dict the assignments fill, in the order the source makes them: the
      predictions, the ground truth, the timestamp, the ids. The first failing
      read is the error. */
  function Assembly(input: Batch, kwargs: Kwargs): (r: Result<Assembled>)
    ensures r.Ok? ==> TargetColumns(kwargs).Ok? && "id_columns" in kwargs && kwargs["id_columns"].NamesArg?
    ensures r.Ok? && "timestamp_column" in kwargs ==> kwargs["timestamp_column"].StrArg?
    ensures r.Ok? ==> r.value.predictionColumns == PredictionNames(TargetColumns(kwargs).value)
  {
    match TargetColumns(kwargs)
    case Err(e) => Err(e)
    case Ok(targets) =>
      match Slices(input, PredictionKey(input), |targets|)
      case Err(e) => Err(e)
      case Ok(predictions) =>
        match Slices(input, "future_values", |targets|)
        case Err(e) => Err(e)
        case Ok(truths) =>
          match TimestampAssignment(input, kwargs)
          case Err(e) => Err(e)
          case Ok(stamp) =>
            match IdAssignments(input, kwargs)
            case Err(e) => Err(e)
            case Ok(idents) =>
              var names := PredictionNames(targets);
              Ok(Assembled(PutAll(EmptyDict(), Pair(names, predictions) + Pair(targets, truths) + stamp + idents), names))
  }

  /** A dict that was filled had every read succeed. */
  lemma AssemblyReads(input: Batch, kwargs: Kwargs)
    requires Assembly(input, kwargs).Ok?
    ensures TargetColumns(kwargs).Ok?
    ensures Slices(input, PredictionKey(input), |TargetColumns(kwargs).value|).Ok?
    ensures Slices(input, "future_values", |TargetColumns(kwargs).value|).Ok?
    ensures TimestampAssignment(input, kwargs).Ok? && IdAssignments(input, kwargs).Ok?
  {
  }

  /** The assignments that fill the dict, in the order they are made. */
  function Assignments(input: Batch, kwargs: Kwargs): seq<Assignment>
    requires Assembly(input, kwargs).Ok?
  {
    var targets := TargetColumns(kwargs).value;
    Pair(PredictionNames(targets), Slices(input, PredictionKey(input), |targets|).value)
      + Pair(targets, Slices(input, "future_values", |targets|).value)
      + TimestampAssignment(input, kwargs).value
      + IdAssignments(input, kwargs).value
  }

  /** The dict is the assignments performed in order; they write the prediction
      columns, the target columns, the timestamp column and the id columns. */
  lemma AssemblyAssignments(input: Batch, kwargs: Kwargs)
    requires Assembly(input, kwargs).Ok?
    ensures Assembly(input, kwargs).value.out == PutAll(EmptyDict(), Assignments(input, kwargs))
  {
    var targets := TargetColumns(kwargs).value;
    var names := PredictionNames(targets);
    var predictions := Slices(input, PredictionKey(input), |targets|).value;
    var truths := Slices(input, "future_values", |targets|).value;
    var stamp := TimestampAssignment(input, kwargs).value;
    var idents := IdAssignments(input, kwargs).value;
    assert Assembly(input, kwargs).value.out == PutAll(EmptyDict(), Pair(names, predictions) + Pair(targets, truths) + stamp + idents);
  }

  /** The names the assignments write: the prediction columns, the target
      columns, the timestamp column, the id columns. */
  lemma AssignmentsNamed(input: Batch, kwargs: Kwargs)
    requires Assembly(input, kwargs).Ok?
    ensures Names(Assignments(input, kwargs)) ==
      PredictionNames(TargetColumns(kwargs).value) + TargetColumns(kwargs).value + Prefix(TimestampName(kwargs), IdNames(kwargs))
  {
    AssemblyReads(input, kwargs);
    var targets := TargetColumns(kwargs).value;
    var names := PredictionNames(targets);
    var predictions := Slices(input, PredictionKey(input), |targets|).value;
    var truths := Slices(input, "future_values", |targets|).value;
    var stamp := TimestampAssignment(input, kwargs).value;
    var idents := IdAssignments(input, kwargs).value;
    AssignmentNames(Pair(names, predictions), Pair(targets, truths), stamp, idents);
  }

  /** The columns of the dict, in order: the prediction columns, the target
      columns, the timestamp column, the id columns (a name met twice keeps its
      first place). */
  lemma AssemblyColumns(input: Batch, kwargs: Kwargs)
    requires Assembly(input, kwargs).Ok?
    ensures var r := Assembly(input, kwargs).value;
      r.out.keys == AppendNew([], r.predictionColumns + TargetColumns(kwargs).value + Prefix(TimestampName(kwargs), IdNames(kwargs)))
  {
    AssemblyAssignments(input, kwargs);
    AssignmentsNamed(input, kwargs);
  }

  /** The dict as the four runs of assignments fill it. */
  lemma AssemblyRuns(input: Batch, kwargs: Kwargs)
    requires Assembly(input, kwargs).Ok?
    ensures TargetColumns(kwargs).Ok?
    ensures var n := |TargetColumns(kwargs).value|;
      && Slices(input, PredictionKey(input), n).Ok? && Slices(input, "future_values", n).Ok?
      && TimestampAssignment(input, kwargs).Ok? && IdAssignments(input, kwargs).Ok?
      && Assembly(input, kwargs).value.out == PutAll(EmptyDict(),
        Pair(PredictionNames(TargetColumns(kwargs).value), Slices(input, PredictionKey(input), n).value)
        + Pair(TargetColumns(kwargs).value, Slices(input, "future_values", n).value)
        + TimestampAssignment(input, kwargs).value + IdAssignments(input, kwargs).value)
    ensures Names(TimestampAssignment(input, kwargs).value) + Names(IdAssignments(input, kwargs).value)
      == Prefix(TimestampName(kwargs), IdNames(kwargs))
  {
  }

  /** The i-th prediction column, unless a later assignment reuses its name, holds
      target slice i of the predictions. */
  lemma PredictionEntry(input: Batch, kwargs: Kwargs, i: nat)
    requires Assembly(input, kwargs).Ok? && i < |TargetColumns(kwargs).value|
    requires var names := Assembly(input, kwargs).value.predictionColumns;
      names[i] !in names[i + 1..] + TargetColumns(kwargs).value + Prefix(TimestampName(kwargs), IdNames(kwargs))
    ensures var out := Assembly(input, kwargs).value.out; var c := Assembly(input, kwargs).value.predictionColumns[i];
      && c == TargetColumns(kwargs).value[i] + "_prediction"
      && HasTarget(Field(input, PredictionKey(input)), i) && c in out.entries
      && out.entries[c] == Column(TargetSlice(Field(input, PredictionKey(input)), i))
  {
    AssemblyRuns(input, kwargs);
    var targets := TargetColumns(kwargs).value;
    var n := |targets|;
    var a := Pair(PredictionNames(targets), Slices(input, PredictionKey(input), n).value);
    var b := Pair(targets, Slices(input, "future_values", n).value);
    var c := TimestampAssignment(input, kwargs).value;
    var d := IdAssignments(input, kwargs).value;
    Regroup(a, b, c, d);
    NamesConcat(b, c + d);
    NamesConcat(c, d);
    SlicesIndex(input, PredictionKey(input), n, i);
    PutAllMiddle(EmptyDict(), [], a, b + (c + d), i);
  }

  /** The i-th target column, unless a later assignment reuses its name, holds
      target slice i of `future_values`. */
  lemma TruthEntry(input: Batch, kwargs: Kwargs, i: nat)
    requires Assembly(input, kwargs).Ok? && i < |TargetColumns(kwargs).value|
    requires var targets := TargetColumns(kwargs).value;
      targets[i] !in targets[i + 1..] + Prefix(TimestampName(kwargs), IdNames(kwargs))
    ensures var out := Assembly(input, kwargs).value.out; var c := TargetColumns(kwargs).value[i];
      && HasTarget(Field(input, "future_values"), i) && c in out.entries
      && out.entries[c] == Column(TargetSlice(Field(input, "future_values"), i))
  {
    AssemblyRuns(input, kwargs);
    var targets := TargetColumns(kwargs).value;
    var n := |targets|;
    var a := Pair(PredictionNames(targets), Slices(input, PredictionKey(input), n).value);
    var b := Pair(targets, Slices(input, "future_values", n).value);
    var c := TimestampAssignment(input, kwargs).value;
    var d := IdAssignments(input, kwargs).value;
    Regroup(a, b, c, d);
    NamesConcat(c, d);
    SlicesIndex(input, "future_values", n, i);
    PutAllMiddle(EmptyDict(), a, b, c + d, i);
  }

  /** The i-th id column, unless a later id column has its name, holds element i
      of every id tuple. */
  lemma IdEntry(input: Batch, kwargs: Kwargs, i: nat)
    requires Assembly(input, kwargs).Ok? && i < |IdNames(kwargs)|
    requires IdNames(kwargs)[i] !in IdNames(kwargs)[i + 1..]
    ensures var out := Assembly(input, kwargs).value.out; var c := IdNames(kwargs)[i];
      && HasPart(Field(input, "id"), i) && c in out.entries
      && out.entries[c] == Column(IdColumn(Field(input, "id"), i))
  {
    AssemblyRuns(input, kwargs);
    var targets := TargetColumns(kwargs).value;
    var n := |targets|;
    var ids := IdNames(kwargs);
    var a := Pair(PredictionNames(targets), Slices(input, PredictionKey(input), n).value);
    var b := Pair(targets, Slices(input, "future_values", n).value);
    var c := TimestampAssignment(input, kwargs).value;
    var d := IdAssignments(input, kwargs).value;
    assert d == Pair(ids, IdColumns(Field(input, "id"), |ids|));
    Regroup(a, b, c, d);
    IdColumnsIndex(Field(input, "id"), |ids|, i);
    PutAllMiddle(EmptyDict(), a + b + c, d, [], i);
  }

  /** The timestamp column, when one is configured and no id column has its name,
      holds the batch's timestamps. */
  lemma TimestampEntry(input: Batch, kwargs: Kwargs)
    requires Assembly(input, kwargs).Ok? && TimestampName(kwargs).Some?
    requires TimestampName(kwargs).value !in IdNames(kwargs)
    ensures var out := Assembly(input, kwargs).value.out; var c := TimestampName(kwargs).value;
      "timestamp" in input && c in out.entries && out.entries[c] == EntryOf(input["timestamp"])
  {
    AssemblyRuns(input, kwargs);
    var targets := TargetColumns(kwargs).value;
    var n := |targets|;
    var a := Pair(PredictionNames(targets), Slices(input, PredictionKey(input), n).value);
    var b := Pair(targets, Slices(input, "future_values", n).value);
    var c := TimestampAssignment(input, kwargs).value;
    var d := IdAssignments(input, kwargs).value;
    PutAllMiddle(EmptyDict(), a + b, c, d, 0);
  }

  lemma AssignmentNames(a: seq<Assignment>, b: seq<Assignment>, c: seq<Assignment>, d: seq<Assignment>)
    ensures Names(a + b + c + d) == Names(a) + Names(b) + (Names(c) + Names(d))
  {
    NamesConcat(a + b + c, d);
    NamesConcat(a + b, c);
    NamesConcat(a, b);
  }

  /** One more assignment of a loop that pairs names with columns. */
  lemma PairStep(d: Dict<Entry>, names: seq<string>, columns: seq<seq<Value>>, column: seq<Value>, i: nat)
    requires ValidDict(d) && i < |names| && |columns| == i
    ensures PutAll(d, Pair(names[..i + 1], columns + [column])) == Put(PutAll(d, Pair(names[..i], columns)), names[i], Column(column))
  {
    var s := Pair(names[..i + 1], columns + [column]);
    assert s[..i] == Pair(names[..i], columns);
    assert s[i] == (names[i], Column(column));
  }

  /** `out` after the first `n` steps of a slicing loop. */
  function SlicedInto(d: Dict<Entry>, x: Value, names: seq<string>, n: nat): (r: Dict<Entry>)
    requires ValidDict(d) && n <= |names| && (n == 0 || HasTarget(x, n - 1))
    ensures ValidDict(r)
  {
    if n == 0 then d
    else
      assert n > 1 ==> HasTarget(x, n - 2) by {
        if n > 1 { HasTargetBelow(x, n - 1, n - 2); }
      }
      Put(SlicedInto(d, x, names, n - 1), names[n - 1], Column(TargetSlice(x, n - 1)))
  }

  /** One more step of a slicing loop. */
  lemma SlicedStep(d: Dict<Entry>, x: Value, names: seq<string>, i: nat)
    requires ValidDict(d) && i < |names| && HasTarget(x, i)
    ensures i > 0 ==> HasTarget(x, i - 1)
    ensures SlicedInto(d, x, names, i + 1) == Put(SlicedInto(d, x, names, i), names[i], Column(TargetSlice(x, i)))
  {
    if i > 0 {
      HasTargetBelow(x, i, i - 1);
    }
  }

  /** The slicing loop performs the assignments of its names paired with the slices. */
  lemma {:induction false} SlicedIntoPairs(d: Dict<Entry>, x: Value, names: seq<string>, n: nat)
    requires ValidDict(d) && n <= |names| && (n == 0 || HasTarget(x, n - 1))
    ensures SlicedInto(d, x, names, n) == PutAll(d, Pair(names[..n], SliceAll(x, n)))
  {
    if n == 0 {
      assert Pair(names[..0], SliceAll(x, 0)) == [];
    } else {
      assert n > 1 ==> HasTarget(x, n - 2) by {
        if n > 1 { HasTargetBelow(x, n - 1, n - 2); }
      }
      SlicedIntoPairs(d, x, names, n - 1);
      PairStep(d, names, SliceAll(x, n - 1), TargetSlice(x, n - 1), n - 1);
    }
  }

  /** `out` after the first `n` steps of the id loop. */
  function IdsInto(d: Dict<Entry>, ids: Value, names: seq<string>, n: nat): (r: Dict<Entry>)
    requires ValidDict(d) && n <= |names| && (n == 0 || HasPart(ids, n - 1))
    ensures ValidDict(r)
  {
    if n == 0 then d
    else Put(IdsInto(d, ids, names, n - 1), names[n - 1], Column(IdColumn(ids, n - 1)))
  }

  /** One more step of the id loop. */
  lemma IdsStep(d: Dict<Entry>, ids: Value, names: seq<string>, i: nat)
    requires ValidDict(d) && i < |names| && HasPart(ids, i)
    ensures i > 0 ==> HasPart(ids, i - 1)
    ensures IdsInto(d, ids, names, i + 1) == Put(IdsInto(d, ids, names, i), names[i], Column(IdColumn(ids, i)))
  {
    if i > 0 {
      HasPartBelow(ids, i, i - 1);
    }
  }

  /** The id loop performs the assignments of the id names paired with the id columns. */
  lemma {:induction false} IdsIntoPairs(d: Dict<Entry>, ids: Value, names: seq<string>, n: nat)
    requires ValidDict(d) && n <= |names| && (n == 0 || HasPart(ids, n - 1))
    ensures IdsInto(d, ids, names, n) == PutAll(d, Pair(names[..n], IdColumns(ids, n)))
  {
    if n == 0 {
      assert Pair(names[..0], IdColumns(ids, 0)) == [];
    } else {
      if n > 1 {
        HasPartBelow(ids, n - 1, n - 2);
      }
      IdsIntoPairs(d, ids, names, n - 1);
      PairStep(d, names, IdColumns(ids, n - 1), IdColumn(ids, n - 1), n - 1);
    }
  }

  /** One slicing loop: `out[names[i]] = input[key][:, :, i].numpy().tolist()`
      for each `i`. */
  method PutSlices(out0: Dict<Entry>, input: Batch, key: string, names: seq<string>) returns (r: Result<Dict<Entry>>)
    requires ValidDict(out0)
    ensures Slices(input, key, |names|).Err? ==> r == Err(Slices(input, key, |names|).error)
    ensures Slices(input, key, |names|).Ok? ==> r == Ok(PutAll(out0, Pair(names, Slices(input, key, |names|).value)))
  {
    var out := out0;
    var i := 0;
    while i < |names|
      invariant 0 <= i <= |names|
      invariant i > 0 ==> key in input && HasTarget(Field(input, key), i - 1)
      invariant out == SlicedInto(out0, Field(input, key), names, i)
    {
      if key !in input {
        SlicesStop(input, key, |names|, i);
        return Err(MissingKey(key));
      }
      if !HasTarget(input[key], i) {
        SlicesStop(input, key, |names|, i);
        return Err(IndexOutOfRange);
      }
      SlicedStep(out0, input[key], names, i);
      out := Put(out, names[i], Column(TargetSlice(input[key], i)));
      i := i + 1;
    }
    SlicesDone(out0, input, key, names);
    return Ok(out);
  }

  /** The slicing loop stops at the first target the field lacks. */
  lemma SlicesStop(input: Batch, key: string, n: nat, i: nat)
    requires i < n && (key !in input || !HasTarget(input[key], i))
    ensures Slices(input, key, n) == (if key !in input then Err(MissingKey(key)) else Err(IndexOutOfRange))
  {
    if key in input && HasTarget(input[key], n - 1) {
      HasTargetBelow(input[key], n - 1, i);
    }
  }

  /** A slicing loop that ran to the end performed all its assignments. */
  lemma SlicesDone(out0: Dict<Entry>, input: Batch, key: string, names: seq<string>)
    requires ValidDict(out0) && (|names| > 0 ==> key in input && HasTarget(Field(input, key), |names| - 1))
    ensures Slices(input, key, |names|) == Ok(SliceAll(Field(input, key), |names|))
    ensures SlicedInto(out0, Field(input, key), names, |names|) == PutAll(out0, Pair(names, SliceAll(Field(input, key), |names|)))
  {
    SlicedIntoPairs(out0, Field(input, key), names, |names|);
    assert names[..|names|] == names;
  }

  /** `out[timestamp_column] = input["timestamp"]`, when a timestamp column is configured. */
  method PutTimestamp(out0: Dict<Entry>, input: Batch, kwargs: Kwargs) returns (r: Result<Dict<Entry>>)
    requires ValidDict(out0)
    ensures TimestampAssignment(input, kwargs).Err? ==> r == Err(TimestampAssignment(input, kwargs).error)
    ensures TimestampAssignment(input, kwargs).Ok? ==> r == Ok(PutAll(out0, TimestampAssignment(input, kwargs).value))
  {
    if "timestamp_column" !in kwargs {
      return Ok(out0);
    }
    if "timestamp" !in input {
      return Err(MissingKey("timestamp"));
    }
    if !kwargs["timestamp_column"].StrArg? {
      return Err(WrongType("timestamp_column"));
    }
    ghost var stamp := [(kwargs["timestamp_column"].s, EntryOf(input["timestamp"]))];
    assert stamp[..0] == [];
    return Ok(Put(out0, kwargs["timestamp_column"].s, EntryOf(input["timestamp"])));
  }

  /** The id loop: `out[id_columns[i]] = [elem[i] for elem in input["id"]]` for each `i`. */
  method PutIds(out0: Dict<Entry>, input: Batch, kwargs: Kwargs) returns (r: Result<Dict<Entry>>)
    requires ValidDict(out0)
    ensures IdAssignments(input, kwargs).Err? ==> r == Err(IdAssignments(input, kwargs).error)
    ensures IdAssignments(input, kwargs).Ok? ==> r == Ok(PutAll(out0, IdAssignments(input, kwargs).value))
  {
    if "id_columns" !in kwargs {
      return Err(MissingKey("id_columns"));
    }
    if !kwargs["id_columns"].NamesArg? {
      return Err(WrongType("id_columns"));
    }
    r := PutIdColumns(out0, input, kwargs["id_columns"].names);
  }

  method PutIdColumns(out0: Dict<Entry>, input: Batch, ids: seq<string>) returns (r: Result<Dict<Entry>>)
    requires ValidDict(out0)
    ensures IdParts(input, |ids|).Err? ==> r == Err(IdParts(input, |ids|).error)
    ensures IdParts(input, |ids|).Ok? ==> r == Ok(PutAll(out0, Pair(ids, IdParts(input, |ids|).value)))
  {
    var out := out0;
    var i := 0;
    while i < |ids|
      invariant 0 <= i <= |ids|
      invariant i > 0 ==> "id" in input && HasPart(Field(input, "id"), i - 1)
      invariant out == IdsInto(out0, Field(input, "id"), ids, i)
    {
      if "id" !in input {
        IdPartsStop(input, |ids|, i);
        return Err(MissingKey("id"));
      }
      if !HasPart(input["id"], i) {
        IdPartsStop(input, |ids|, i);
        return Err(IndexOutOfRange);
      }
      IdsStep(out0, input["id"], ids, i);
      out := Put(out, ids[i], Column(IdColumn(input["id"], i)));
      i := i + 1;
    }
    IdPartsDone(out0, input, ids);
    return Ok(out);
  }

  /** The id loop stops at the first position an id tuple lacks. */
  lemma IdPartsStop(input: Batch, n: nat, i: nat)
    requires i < n && ("id" !in input || !HasPart(input["id"], i))
    ensures IdParts(input, n) == (if "id" !in input then Err(MissingKey("id")) else Err(IndexOutOfRange))
  {
    if "id" in input && HasPart(input["id"], n - 1) {
      HasPartBelow(input["id"], n - 1, i);
    }
  }

  /** An id loop that ran to the end performed all its assignments. */
  lemma IdPartsDone(out0: Dict<Entry>, input: Batch, ids: seq<string>)
    requires ValidDict(out0) && (|ids| > 0 ==> "id" in input && HasPart(Field(input, "id"), |ids| - 1))
    ensures IdParts(input, |ids|) == Ok(IdColumns(Field(input, "id"), |ids|))
    ensures IdsInto(out0, Field(input, "id"), ids, |ids|) == PutAll(out0, Pair(ids, IdColumns(Field(input, "id"), |ids|)))
  {
    IdsIntoPairs(out0, Field(input, "id"), ids, |ids|);
    assert ids[..|ids|] == ids;
  }

  /** The lines that fill `out`: the two slicing loops, the timestamp, the id loop. */
  method AssembleColumns(input: Batch, kwargs: Kwargs) returns (r: Result<Assembled>)
    ensures r == Assembly(input, kwargs)
  {
    var targets := TargetColumns(kwargs);
    if targets.Err? {
      return Err(targets.error);
    }
    var predictionColumns := PredictionNames(targets.value);
    var afterPredictions := PutSlices(EmptyDict(), input, PredictionKey(input), predictionColumns);
    if afterPredictions.Err? {
      return Err(afterPredictions.error);
    }
    var afterTruths := PutSlices(afterPredictions.value, input, "future_values", targets.value);
    if afterTruths.Err? {
      return Err(afterTruths.error);
    }
    var afterStamp := PutTimestamp(afterTruths.value, input, kwargs);
    if afterStamp.Err? {
      return Err(afterStamp.error);
    }
    var afterIds := PutIds(afterStamp.value, input, kwargs);
    if afterIds.Err? {
      return Err(afterIds.error);
    }
    ghost var a := Pair(predictionColumns, Slices(input, PredictionKey(input), |targets.value|).value);
    ghost var b := Pair(targets.value, Slices(input, "future_values", |targets.value|).value);
    ghost var c := TimestampAssignment(input, kwargs).value;
    ghost var d := IdAssignments(input, kwargs).value;
    PutAllAppend(EmptyDict(), a, b);
    PutAllAppend(EmptyDict(), a + b, c);
    PutAllAppend(EmptyDict(), a + b + c, d);
    return Ok(Assembled(afterIds.value, predictionColumns));
  }
}
