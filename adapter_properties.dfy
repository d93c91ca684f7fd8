/**
 * What a call of the adapter does to the caller's stack and to the outputs it
 * hands the operator, and how the schemas built for caffe2 operators fit it.
 */
module AdapterProperties {
  import opened IValues
  import opened Schemas
  import opened Caffe2Adapter

  /** An operator that leaves every output as it found it. */
  const PassThrough: Kernel := (ins: seq<IValue>, outs: seq<IValue>) => outs

  /** An operator that copies input k into output k, for every output that has one. */
  const CopyInputs: Kernel := (ins: seq<IValue>, outs: seq<IValue>) =>
    seq(|outs|, k requires 0 <= k < |outs| => if k < |ins| then ins[k] else outs[k])

  /** Counting the missing outputs of a longer prefix never gives less. */
  lemma {:induction false} CountMissingMonotone(outs: seq<IValue>, i: nat, j: nat)
    requires i < j <= |outs|
    ensures CountMissing(outs[..i]) + (if NeedsAllocation(outs[i]) then 1 else 0) <= CountMissing(outs[..j])
    decreases j
  {
    assert outs[..j][..j - 1] == outs[..j - 1];
    if j - 1 > i {
      CountMissingMonotone(outs, i, j - 1);
    }
  }

  /** No output needs an allocation exactly when none is missing. */
  lemma {:induction false} CountMissingZero(outs: seq<IValue>)
    ensures CountMissing(outs) == 0 <==> forall k :: 0 <= k < |outs| ==> !NeedsAllocation(outs[k])
    decreases |outs|
  {
    if outs != [] {
      var init := outs[..|outs| - 1];
      CountMissingZero(init);
      assert forall k :: 0 <= k < |init| ==> init[k] == outs[k];
    }
  }

  /**
   * The tensors allocated for missing outputs are all new: their ids lie in
   * [next, next + CountMissing(outs)), and they increase with the position of
   * the output, so no two allocated outputs share an id.
   */
  lemma MaterialiseFreshIds(outs: seq<IValue>, next: nat)
    ensures var r := Materialise(outs, next);
      && (forall k :: 0 <= k < |outs| && NeedsAllocation(outs[k]) ==>
            next <= r[k].handle.id < next + CountMissing(outs))
      && (forall k, k' :: 0 <= k < k' < |outs| && NeedsAllocation(outs[k]) && NeedsAllocation(outs[k']) ==>
            r[k].handle.id < r[k'].handle.id)
  {
    var r := Materialise(outs, next);
    forall k | 0 <= k < |outs| && NeedsAllocation(outs[k])
      ensures next <= r[k].handle.id < next + CountMissing(outs)
    {
      assert r[k] == MaterialisedAt(outs, k, next);
      CountMissingMonotone(outs, k, |outs|);
      assert outs[..|outs|] == outs;
    }
    forall k, k' | 0 <= k < k' < |outs| && NeedsAllocation(outs[k]) && NeedsAllocation(outs[k'])
      ensures r[k].handle.id < r[k'].handle.id
    {
      assert r[k] == MaterialisedAt(outs, k, next);
      assert r[k'] == MaterialisedAt(outs, k', next);
      CountMissingMonotone(outs, k, k');
    }
  }

  /** Every defined tensor among `values` has storage id below `next`: the allocator has not handed out `next` or beyond. */
  ghost predicate IdsBelow(values: seq<IValue>, next: nat)
  {
    forall p :: 0 <= p < |values| && values[p].Tensor? && values[p].handle.Defined? ==> values[p].handle.id < next
  }

  /**
   * When every tensor the caller passed lies below the allocator's counter,
   * a tensor allocated for a missing output never shares storage with a
   * tensor the caller preallocated.
   */
  lemma MaterialiseAvoidsCallerIds(outs: seq<IValue>, next: nat)
    requires IdsBelow(outs, next)
    ensures var r := Materialise(outs, next);
      forall k, p :: 0 <= k < |outs| && 0 <= p < |outs| && NeedsAllocation(outs[k]) && outs[p].Tensor? && outs[p].handle.Defined? ==>
        r[k].handle.id != r[p].handle.id
  {
    var r := Materialise(outs, next);
    forall k, p | 0 <= k < |outs| && 0 <= p < |outs| && NeedsAllocation(outs[k]) && outs[p].Tensor? && outs[p].handle.Defined?
      ensures r[k].handle.id != r[p].handle.id
    {
      assert r[k] == MaterialisedAt(outs, k, next);
      assert r[p] == outs[p];
    }
  }

  /**
   * The same at the level of the whole call: when every tensor on the stack
   * lies below the allocator's counter, each output the adapter allocates
   * has storage distinct from every tensor anywhere on the caller's stack.
   */
  lemma CallAllocatesFreshStorage(entries: seq<IValue>, schema: FunctionSchema, next: nat)
    requires Fits(entries, schema)
    requires IdsBelow(entries, next)
    ensures var outs := OutputsRegion(entries, schema);
      var m := Materialise(outs, next);
      forall k, p :: 0 <= k < |outs| && NeedsAllocation(outs[k]) && 0 <= p < |entries| && entries[p].Tensor? && entries[p].handle.Defined? ==>
        m[k].handle.id != entries[p].handle.id
  {
    var outs := OutputsRegion(entries, schema);
    var m := Materialise(outs, next);
    forall k | 0 <= k < |outs| && NeedsAllocation(outs[k])
      ensures next <= m[k].handle.id
    {
      assert m[k] == MaterialisedAt(outs, k, next);
    }
  }

  /**
   * Materialising twice is materialising once: the second pass finds nothing
   * missing and so allocates nothing.
   */
  lemma MaterialiseIdempotent(outs: seq<IValue>, next: nat, next': nat)
    ensures CountMissing(Materialise(outs, next)) == 0
    ensures Materialise(Materialise(outs, next), next') == Materialise(outs, next)
  {
    CountMissingZero(Materialise(outs, next));
  }

  /**
   * The stack is the part below the arguments, then the inputs region, then
   * the outputs region, which reaches the top.
   */
  lemma ArgumentsPartition(entries: seq<IValue>, schema: FunctionSchema)
    requires Fits(entries, schema)
    ensures entries == entries[..ArgumentsStart(entries, schema)] + InputsRegion(entries, schema) + OutputsRegion(entries, schema)
    ensures |InputsRegion(entries, schema)| + |OutputsRegion(entries, schema)| == TotalNumArguments(schema)
  {
  }

  /**
   * After a call the stack has shrunk by exactly the number of inputs, every
   * entry below the arguments is where it was, and there is one entry per
   * output above them.
   */
  lemma CallResultShape(entries: seq<IValue>, schema: FunctionSchema, kernel: Kernel, next: nat)
    requires Fits(entries, schema)
    ensures var r := CallResult(entries, schema, kernel, next);
      && |r| == |entries| - NumInputs(schema)
      && |r| - ArgumentsStart(entries, schema) == NumOutputs(schema)
      && forall k :: 0 <= k < ArgumentsStart(entries, schema) ==> r[k] == entries[k]
  {
  }

  /**
   * With an operator that leaves its outputs alone, the stack ends with no
   * output left undefined: a missing output comes back as an empty CPU tensor,
   * and a tensor the caller preallocated comes back as that very tensor.
   */
  lemma PassThroughCall(entries: seq<IValue>, schema: FunctionSchema, next: nat)
    requires Fits(entries, schema)
    ensures var r := CallResult(entries, schema, PassThrough, next);
      var base := ArgumentsStart(entries, schema);
      var outs := OutputsRegion(entries, schema);
      && |r| == base + |outs|
      && forall k :: 0 <= k < |outs| ==>
           && !NeedsAllocation(r[base + k])
           && (NeedsAllocation(outs[k]) ==> IsEmptyTensorOn(r[base + k], CPU))
           && (!NeedsAllocation(outs[k]) ==> r[base + k] == outs[k])
  {
    var base := ArgumentsStart(entries, schema);
    var m := Materialise(OutputsRegion(entries, schema), next);
    var r := CallResult(entries, schema, PassThrough, next);
    assert r == entries[..base] + m;
    assert forall k :: 0 <= k < |m| ==> r[base + k] == m[k];
    assert forall k :: 0 <= k < |m| ==> r[base + k] == MaterialisedAt(OutputsRegion(entries, schema), k, next);
  }

  /**
   * With an operator that copies inputs to outputs, the stack ends with the
   * first NumOutputs inputs in output position, in order.
   */
  lemma CopyInputsRoundTrip(entries: seq<IValue>, schema: FunctionSchema, next: nat)
    requires Fits(entries, schema)
    requires NumOutputs(schema) <= NumInputs(schema)
    ensures CallResult(entries, schema, CopyInputs, next)
      == entries[..ArgumentsStart(entries, schema)] + InputsRegion(entries, schema)[..NumOutputs(schema)]
  {
    var ins := InputsRegion(entries, schema);
    var m := Materialise(OutputsRegion(entries, schema), next);
    assert CopyInputs(ins, m) == ins[..NumOutputs(schema)];
  }

  /**
   * A schema built for a caffe2 operator suits the adapter: it never has more
   * returns than arguments, the adapter's inputs region holds exactly the
   * declared inputs, and its outputs region exactly the synthesised slots.
   */
  lemma BuiltSchemaFitsAdapter(operatorName: string, inputs: seq<Argument>, outputs: seq<Argument>, entries: seq<IValue>)
    requires MakeFunctionSchemaForC10(operatorName, inputs, outputs).Ok?
    ensures var schema := MakeFunctionSchemaForC10(operatorName, inputs, outputs).value;
      && NumOutputs(schema) <= TotalNumArguments(schema)
      && NumInputs(schema) == |inputs|
      && NumOutputs(schema) == |outputs|
      && (Fits(entries, schema) <==> |inputs| + |outputs| <= |entries|)
  {
  }
}
