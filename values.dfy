/** Values that flow through the forecasting pipeline. The numbers, timestamps
    and identifiers inside a table or a tensor are opaque to the pipeline's
    bookkeeping: they are atoms. A tensor is a nested list of values. */
module Values {

  datatype Option<+T> = None | Some(value: T)

  /** Why a pipeline step raises. */
  datatype Error =
    | UnsupportedFutureType              // `future_time_series` is neither a path nor a frame
    | UnknownFutureColumn(column: string) // a future column absent from the base series
    | EmptyDataset                       // `dataset[0]` on a dataset without windows
    | IncompleteRecord                   // a window lacks a key that the first window has
    | MissingKey(key: string)            // KeyError on a keyword argument or a model output
    | WrongType(key: string)             // a keyword argument of another type than documented
    | IndexOutOfRange                    // a tensor slice, an id tuple or `prediction_columns[0]`
    | NotAList                           // `len` of a cell that holds no list
    | LengthMismatch                     // a frame built from columns of different lengths
    | ScalarsWithoutIndex                // a frame built from scalars only
    | NothingToConcatenate               // `pd.concat` of no frames

  datatype Result<+T> = Ok(value: T) | Err(error: Error)

  /** A cell, a tensor or a batch: `Missing` is NaN/None, an atom is any opaque
      scalar, and a list is a Python list, a tuple or one axis of a tensor. */
  datatype Value = Missing | Atom(token: int) | List(items: seq<Value>)

  /** A batch of the pipeline's steps: field name to value (the stacked inputs,
      then the model's outputs with the inputs copied onto them). */
  type Batch = map<string, Value>

  /** `n` copies of `v`: a scalar broadcast over `n` rows. */
  function Repeat(v: Value, n: nat): (r: seq<Value>)
    ensures |r| == n
    ensures forall i :: 0 <= i < n ==> r[i] == v
  {
    seq(n, _ => v)
  }

  /** The concatenation of `parts`, in order. */
  function Flatten(parts: seq<seq<Value>>): seq<Value>
  {
    if parts == [] then [] else Flatten(parts[..|parts| - 1]) + parts[|parts| - 1]
  }

  function Sum(ns: seq<nat>): nat
  {
    if ns == [] then 0 else Sum(ns[..|ns| - 1]) + ns[|ns| - 1]
  }

  function Lengths(parts: seq<seq<Value>>): (r: seq<nat>)
    ensures |r| == |parts|
    ensures forall j :: 0 <= j < |parts| ==> r[j] == |parts[j]|
  {
    seq(|parts|, j requires 0 <= j < |parts| => |parts[j]|)
  }

  lemma {:induction false} FlattenLength(parts: seq<seq<Value>>)
    ensures |Flatten(parts)| == Sum(Lengths(parts))
  {
    if parts != [] {
      var init := parts[..|parts| - 1];
      FlattenLength(init);
      assert Lengths(parts)[..|parts| - 1] == Lengths(init);
    }
  }

  /** The values of `rs` when every one is `Ok`; otherwise the error of the first
      that is not: a loop that raises at the first failing step. */
  function AllOk<T>(rs: seq<Result<T>>): (r: Result<seq<T>>)
    ensures r.Ok? ==> |r.value| == |rs|
  {
    if rs == [] then Ok([])
    else
      match AllOk(rs[..|rs| - 1])
      case Err(e) => Err(e)
      case Ok(init) =>
        match rs[|rs| - 1]
        case Err(e) => Err(e)
        case Ok(last) => Ok(init + [last])
  }

  /** One more successful step extends the values. */
  lemma AllOkStep<T>(rs: seq<Result<T>>, b: nat, vs: seq<T>, v: T)
    requires b < |rs| && AllOk(rs[..b]) == Ok(vs) && rs[b] == Ok(v)
    ensures AllOk(rs[..b + 1]) == Ok(vs + [v])
  {
    assert rs[..b + 1][..b] == rs[..b];
  }

  /** Every step succeeds exactly when the whole does, and then each step's value
      is in place. */
  lemma {:induction false} AllOkValues<T>(rs: seq<Result<T>>)
    ensures AllOk(rs).Ok? <==> forall j :: 0 <= j < |rs| ==> rs[j].Ok?
    ensures AllOk(rs).Ok? ==> forall j :: 0 <= j < |rs| ==> rs[j] == Ok(AllOk(rs).value[j])
  {
    if rs != [] {
      var init := rs[..|rs| - 1];
      AllOkValues(init);
      assert forall j :: 0 <= j < |init| ==> init[j] == rs[j];
    }
  }

  /** A failure is the error of the first failing step. */
  lemma {:induction false} AllOkFirstError<T>(rs: seq<Result<T>>)
    requires AllOk(rs).Err?
    ensures exists b :: 0 <= b < |rs| && rs[b] == Err(AllOk(rs).error) && forall a :: 0 <= a < b ==> rs[a].Ok?
  {
    var init := rs[..|rs| - 1];
    if AllOk(init).Err? {
      AllOkFirstError(init);
      var b :| 0 <= b < |init| && init[b] == Err(AllOk(init).error) && forall a :: 0 <= a < b ==> init[a].Ok?;
      assert forall a :: 0 <= a <= b ==> init[a] == rs[a];
    } else {
      AllOkValues(init);
      assert forall a :: 0 <= a < |init| ==> init[a] == rs[a];
    }
  }

  /** Once step `b` fails after successful steps, every longer run fails with its error. */
  lemma {:induction false} AllOkStop<T>(rs: seq<Result<T>>, b: nat, n: nat)
    requires b < n <= |rs|
    requires AllOk(rs[..b]).Ok? && rs[b].Err?
    ensures AllOk(rs[..n]) == Err(rs[b].error)
  {
    assert rs[..n][..n - 1] == rs[..n - 1];
    if n > b + 1 {
      AllOkStop(rs, b, n - 1);
    } else {
      assert rs[..n - 1] == rs[..b];
    }
  }
}
