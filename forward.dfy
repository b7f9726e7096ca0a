/** `_forward`: hand the model only the fields its `forward` accepts, call it,
    and copy the batch's fields onto its outputs for postprocess. */
module Forwarding {
  import opened Values

  /** The model's call, `model(**inputs)`: opaque here. */
  type Model = Batch -> Batch

  /** The source's `copy_inputs` switch: every input field is copied back, also
      those the model consumed. */
  const COPY_INPUTS := true

  /** The fields the model is called with: the batch's fields that name a
      parameter of the model's `forward`, with the batch's values. */
  function ModelInputs(inputs: Batch, parameters: seq<string>): (r: Batch)
    ensures r.Keys == inputs.Keys * (set k | k in parameters)
    ensures forall k :: k in r ==> r[k] == inputs[k]
  {
    map k | k in parameters && k in inputs :: inputs[k]
  }

  /** The fields copied from the batch onto the model's outputs. */
  function CopiedFields(inputs: Batch, parameters: seq<string>): set<string>
  {
    set k | k in inputs && (k !in parameters || COPY_INPUTS)
  }

  /** The step's result: the model's outputs, every batch field written over them. */
  function Forwarded(inputs: Batch, parameters: seq<string>, model: Model): (r: Batch)
    ensures r.Keys == model(ModelInputs(inputs, parameters)).Keys + inputs.Keys
    ensures forall k :: k in inputs ==> r[k] == inputs[k]
    ensures forall k :: k in model(ModelInputs(inputs, parameters)) && k !in inputs ==>
      r[k] == model(ModelInputs(inputs, parameters))[k]
  {
    var copied := CopiedFields(inputs, parameters);
    assert copied == inputs.Keys;
    model(ModelInputs(inputs, parameters)) + map k | k in copied :: inputs[k]
  }

  method Forward(inputs: Batch, parameters: seq<string>, model: Model) returns (outputs: Batch)
    ensures outputs == Forwarded(inputs, parameters, model)
  {
    var modelInputsOnly: Batch := map[];
    var i := 0;
    while i < |parameters|
      invariant 0 <= i <= |parameters|
      invariant modelInputsOnly == map k | k in parameters[..i] && k in inputs :: inputs[k]
    {
      var k := parameters[i];
      assert parameters[..i + 1] == parameters[..i] + [k];
      if k in inputs {
        modelInputsOnly := modelInputsOnly[k := inputs[k]];
      }
      i := i + 1;
    }
    assert parameters[..i] == parameters;

    outputs := model(modelInputsOnly);

    var copied := CopiedFields(inputs, parameters);
    var pending := copied;
    while pending != {}
      invariant pending <= copied
      invariant outputs == model(modelInputsOnly) + map k | k in copied - pending :: inputs[k]
      decreases pending
    {
      var k :| k in pending;
      outputs := outputs[k := inputs[k]];
      pending := pending - {k};
    }
    assert copied - pending == copied;
  }
}
