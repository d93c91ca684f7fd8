/**
 * Building the c10 function schema of a caffe2 operator: the declared inputs,
 * then one optional-tensor argument per declared output (through which a caller
 * may hand in a preallocated result), under the name "_caffe2::<operator>".
 */
module Schemas {
  import opened IValues

  /** The JIT types an argument can be declared with; only the kind matters here. */
  datatype JitType =
    | DynamicType                  // a tensor
    | OptionalType(elem: JitType)
    | OtherType(kindName: string)  // any kind other than DynamicType, which the builder's assertion rejects

  datatype Optional<T> = Nullopt | Some(value: T)

  /**
   * An argument of a schema: its name, its type, the fixed length when it is
   * a list (`n`), and its default value, if any.
   */
  datatype Argument = Argument(name: string, jitType: JitType, n: Optional<nat>, defaultValue: Optional<IValue>)

  datatype FunctionSchema = FunctionSchema(name: string, arguments: seq<Argument>, returnArgs: seq<Argument>)

  /** The failed assertion, with the index of the output it fired on. */
  datatype SchemaError = AssertionFailed(outputIndex: nat)

  datatype Result<T> = Ok(value: T) | Err(error: SchemaError)

  const NamespacePrefix: string := "_caffe2::"

  /** The builder's test on an output's type: its kind is exactly DynamicType. */
  predicate IsTensorType(t: JitType)
  {
    t.DynamicType?
  }

  /** The optional-tensor argument synthesised for output `o`, defaulting to None. */
  function OutputSlot(o: Argument): (slot: Argument)
    ensures slot.name == o.name
    ensures IsTensorType(o.jitType) ==> slot.jitType == OptionalType(o.jitType)
    ensures !IsTensorType(slot.jitType)
    ensures slot.defaultValue == Some(None)
  {
    Argument(o.name, OptionalType(DynamicType), Nullopt, Some(None))
  }

  /**
   * The loop of the builder: walk the outputs in order, assert that each is a
   * tensor, and append its slot to `actual`. The first output that is not a
   * tensor aborts the whole build.
   */
  function AppendOutputSlots(actual: seq<Argument>, outputs: seq<Argument>): (r: Result<seq<Argument>>)
    ensures r.Ok? <==> forall i :: 0 <= i < |outputs| ==> IsTensorType(outputs[i].jitType)
    ensures r.Ok? ==>
      && |r.value| == |actual| + |outputs|
      && r.value[..|actual|] == actual
      && forall i :: 0 <= i < |outputs| ==> r.value[|actual| + i] == OutputSlot(outputs[i])
    ensures r.Err? ==>
      && r.error.outputIndex < |outputs|
      && !IsTensorType(outputs[r.error.outputIndex].jitType)
      && forall i :: 0 <= i < r.error.outputIndex ==> IsTensorType(outputs[i].jitType)
    decreases |outputs|
  {
    if outputs == [] then Ok(actual)
    else if !IsTensorType(outputs[0].jitType) then Err(AssertionFailed(0))
    else
      var rest := AppendOutputSlots(actual + [OutputSlot(outputs[0])], outputs[1..]);
      match rest
      case Ok(args) => Ok(args)
      case Err(AssertionFailed(i)) => Err(AssertionFailed(i + 1))
  }

  /**
   * The schema under which a caffe2 operator is registered with c10. The build
   * fails, at the first offending output, when a declared output is not a
   * tensor; otherwise its arguments are the declared inputs unchanged followed
   * by one optional-tensor slot per output, named after that output and
   * defaulting to None, and its returns are the declared outputs.
   */
  function MakeFunctionSchemaForC10(operatorName: string, inputs: seq<Argument>, outputs: seq<Argument>): (r: Result<FunctionSchema>)
    ensures r.Ok? <==> forall i :: 0 <= i < |outputs| ==> IsTensorType(outputs[i].jitType)
    ensures r.Ok? ==>
      && r.value.name == NamespacePrefix + operatorName
      && r.value.returnArgs == outputs
      && |r.value.arguments| == |inputs| + |outputs|
      && r.value.arguments[..|inputs|] == inputs
      && forall i :: 0 <= i < |outputs| ==>
           var slot := r.value.arguments[|inputs| + i];
           && slot.name == outputs[i].name
           && slot.jitType == OptionalType(DynamicType)
           && slot.n == Nullopt
           && slot.defaultValue == Some(None)
    ensures r.Err? ==>
      && r.error.outputIndex < |outputs|
      && !IsTensorType(outputs[r.error.outputIndex].jitType)
      && forall i :: 0 <= i < r.error.outputIndex ==> IsTensorType(outputs[i].jitType)
  {
    match AppendOutputSlots(inputs, outputs)
    case Ok(actualInputs) => Ok(FunctionSchema(NamespacePrefix + operatorName, actualInputs, outputs))
    case Err(e) => Err(e)
  }
}
