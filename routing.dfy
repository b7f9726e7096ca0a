/** `_sanitize_parameters`: how the caller's keyword arguments are split between
    the preprocess, forward and postprocess steps. */
module Routing {
  import opened Arguments

  /** The two lengths of the model's configuration that serve as defaults. */
  datatype ModelConfig = ModelConfig(contextLength: int, predictionLength: int)

  /** Column roles handed to postprocess, in the order they are copied. */
  const POSTPROCESS_PARAMS: seq<string> := [
    "id_columns",
    "timestamp_column",
    "target_columns",
    "observable_columns",
    "control_columns",
    "conditional_columns",
    "static_categorical_columns"
  ]

  /** Column roles handed to preprocess: the same, then the future series. */
  const PREPROCESS_PARAMS: seq<string> := POSTPROCESS_PARAMS + ["future_time_series"]

  /** The length a step receives under `key`: the caller's value, else the model's. */
  function LengthArg(kwargs: Kwargs, key: string, fromConfig: int): Arg
  {
    Get(kwargs, key, IntArg(fromConfig))
  }

  /** The dictionary handed to one step: both lengths, then every key of `params`
      that the caller supplied, with the caller's value. */
  function Routed(config: ModelConfig, kwargs: Kwargs, params: seq<string>): (r: Kwargs)
    requires "prediction_length" !in params && "context_length" !in params
    ensures r.Keys == {"prediction_length", "context_length"} + (set k | k in params && k in kwargs)
    ensures r["prediction_length"] == (if "prediction_length" in kwargs then kwargs["prediction_length"] else IntArg(config.predictionLength))
    ensures r["context_length"] == (if "context_length" in kwargs then kwargs["context_length"] else IntArg(config.contextLength))
    ensures forall k :: k in params && k in kwargs ==> r[k] == kwargs[k]
  {
    map[
      "prediction_length" := LengthArg(kwargs, "prediction_length", config.predictionLength),
      "context_length" := LengthArg(kwargs, "context_length", config.contextLength)
    ] + Supplied(kwargs, params)
  }

  /** The keys of `params` the caller supplied, with the caller's values. */
  function Supplied(kwargs: Kwargs, params: seq<string>): (r: Kwargs)
    ensures forall k :: k in r <==> k in params && k in kwargs
    ensures forall k :: k in r ==> r[k] == kwargs[k]
  {
    map k | k in params && k in kwargs :: kwargs[k]
  }

  /** Copying one more key adds it exactly when the caller supplied it. */
  lemma SuppliedStep(d: Kwargs, kwargs: Kwargs, params: seq<string>, c: string)
    ensures d + Supplied(kwargs, params + [c]) ==
      if c in kwargs then (d + Supplied(kwargs, params))[c := kwargs[c]] else d + Supplied(kwargs, params)
  {
  }

  /** One of the two copying loops: `d[c] = kwargs[c]` for each `c` of `params`
      that the caller supplied. */
  method CopyPresent(d0: Kwargs, kwargs: Kwargs, params: seq<string>) returns (d: Kwargs)
    ensures d == d0 + Supplied(kwargs, params)
  {
    d := d0;
    var i := 0;
    assert d0 + Supplied(kwargs, params[..0]) == d0;
    while i < |params|
      invariant 0 <= i <= |params|
      invariant d == d0 + Supplied(kwargs, params[..i])
    {
      var c := params[i];
      assert params[..i + 1] == params[..i] + [c];
      SuppliedStep(d0, kwargs, params[..i], c);
      if c in kwargs {
        d := d[c := kwargs[c]];
      }
      i := i + 1;
    }
    assert params[..i] == params;
  }

  /** Splits the caller's keyword arguments into the preprocess, forward and
      postprocess dictionaries. */
  method SanitizeParameters(config: ModelConfig, kwargs: Kwargs) returns (pre: Kwargs, forward: Kwargs, post: Kwargs)
    ensures pre == Routed(config, kwargs, PREPROCESS_PARAMS)
    ensures forward == map[]
    ensures post == Routed(config, kwargs, POSTPROCESS_PARAMS)
  {
    var contextLength := LengthArg(kwargs, "context_length", config.contextLength);
    var predictionLength := LengthArg(kwargs, "prediction_length", config.predictionLength);
    var lengths := map["prediction_length" := predictionLength, "context_length" := contextLength];
    pre := CopyPresent(lengths, kwargs, PREPROCESS_PARAMS);
    post := CopyPresent(lengths, kwargs, POSTPROCESS_PARAMS);
    forward := map[];
  }

  /** The future series reaches preprocess exactly when the caller gave one, and
      never reaches postprocess; every other column role reaches both unchanged. */
  lemma FutureSeriesRoutedToPreprocessOnly(config: ModelConfig, kwargs: Kwargs)
    ensures var pre := Routed(config, kwargs, PREPROCESS_PARAMS);
      ("future_time_series" in pre <==> "future_time_series" in kwargs) &&
      ("future_time_series" in pre ==> pre["future_time_series"] == kwargs["future_time_series"])
    ensures "future_time_series" !in Routed(config, kwargs, POSTPROCESS_PARAMS)
    ensures forall k :: k in POSTPROCESS_PARAMS && k in kwargs ==>
      Routed(config, kwargs, PREPROCESS_PARAMS)[k] == kwargs[k] && Routed(config, kwargs, POSTPROCESS_PARAMS)[k] == kwargs[k]
  {
    assert "future_time_series" == PREPROCESS_PARAMS[7];
    assert forall k :: k in POSTPROCESS_PARAMS ==> k in PREPROCESS_PARAMS;
    assert "future_time_series" !in POSTPROCESS_PARAMS;
    assert "future_time_series" !in {"prediction_length", "context_length"};
  }
}
