/**
 * The kernel c10 calls for a caffe2 operator: it takes the operator's
 * arguments off the top of the caller's stack, turns every missing output into
 * a fresh empty tensor, runs the caffe2 operator on the inputs with references
 * to the outputs, and leaves exactly the outputs on the stack.
 */
module Caffe2Adapter {
  import opened IValues
  import opened Schemas

  /** The adapter allocates missing outputs on the CPU whatever the operator's device. */
  const DefaultDevice: Device := CPU

  /**
   * The caffe2 operator's Run(), seen from outside: given its inputs and the
   * current values behind its output references, the values it leaves behind
   * them. It writes through the references and cannot add or remove any.
   */
  type Kernel = k: (seq<IValue>, seq<IValue>) -> seq<IValue>
    | forall ins: seq<IValue>, outs: seq<IValue> :: |k(ins, outs)| == |outs|
    witness (ins: seq<IValue>, outs: seq<IValue>) => outs

  /** The caller-owned operator stack; its top is the end of `entries`. */
  class Stack {
    var entries: seq<IValue>

    constructor(initial: seq<IValue>)
      ensures entries == initial
    {
      entries := initial;
    }

    /** The `len` entries starting `i` places into the top `n` entries. */
    function PeekSlice(i: nat, len: nat, n: nat): (r: seq<IValue>)
      reads this
      requires i + len <= n <= |entries|
      ensures |r| == len
    {
      entries[|entries| - n + i .. |entries| - n + i + len]
    }

    /** Removes the top `n` entries. */
    method Drop(n: nat)
      requires n <= |entries|
      modifies this
      ensures |entries| == |old(entries)| - n
      ensures entries == old(entries)[..|old(entries)| - n]
    {
      entries := entries[..|entries| - n];
    }

    method Push(v: IValue)
      modifies this
      ensures entries == old(entries) + [v]
    {
      entries := entries + [v];
    }
  }

  /**
   * The two slices the adapter peeks, the first `a` and the remaining `n - a`
   * of the top `n` entries, tile those entries exactly, in order.
   */
  lemma PeekSlicesTile(stack: Stack, a: nat, n: nat)
    requires a <= n <= |stack.entries|
    ensures stack.PeekSlice(0, a, n) + stack.PeekSlice(a, n - a, n) == stack.entries[|stack.entries| - n ..]
  {
  }

  /** Hands out tensor storage: each allocation takes the counter as its id and advances it. */
  class Allocator {
    var next: nat

    constructor()
      ensures next == 0
    {
      next := 0;
    }

    /** A new empty tensor on `device`. */
    method Empty(device: Device) returns (v: IValue)
      modifies this
      ensures v == EmptyTensor(old(next), device)
      ensures next == old(next) + 1
    {
      v := EmptyTensor(next, device);
      next := next + 1;
    }
  }

  // ---------------------------------------------------------------------------
  // Specification of the adapter

  function NumOutputs(schema: FunctionSchema): nat
  {
    |schema.returnArgs|
  }

  function TotalNumArguments(schema: FunctionSchema): nat
  {
    |schema.arguments|
  }

  /** What the adapter asks of the schema and the stack it is given. */
  predicate Fits(entries: seq<IValue>, schema: FunctionSchema)
  {
    NumOutputs(schema) <= TotalNumArguments(schema) <= |entries|
  }

  /** The number of inputs: the arguments that are not output slots. */
  function NumInputs(schema: FunctionSchema): (r: nat)
    requires NumOutputs(schema) <= TotalNumArguments(schema)
  {
    TotalNumArguments(schema) - NumOutputs(schema)
  }

  /** The index of the first stack entry that is an argument of the call. */
  function ArgumentsStart(entries: seq<IValue>, schema: FunctionSchema): nat
    requires Fits(entries, schema)
  {
    |entries| - TotalNumArguments(schema)
  }

  /** The inputs region: the first NumInputs of the top TotalNumArguments entries. */
  function InputsRegion(entries: seq<IValue>, schema: FunctionSchema): (r: seq<IValue>)
    requires Fits(entries, schema)
    ensures |r| == NumInputs(schema)
  {
    var base := ArgumentsStart(entries, schema);
    entries[base .. base + NumInputs(schema)]
  }

  /** The outputs region: the NumOutputs entries that follow the inputs, up to the top. */
  function OutputsRegion(entries: seq<IValue>, schema: FunctionSchema): (r: seq<IValue>)
    requires Fits(entries, schema)
    ensures |r| == NumOutputs(schema)
  {
    entries[ArgumentsStart(entries, schema) + NumInputs(schema) ..]
  }

  /** How many of `outs` the adapter has to allocate. */
  function CountMissing(outs: seq<IValue>): (c: nat)
    ensures c <= |outs|
    decreases |outs|
  {
    if outs == [] then 0
    else CountMissing(outs[..|outs| - 1]) + (if NeedsAllocation(outs[|outs| - 1]) then 1 else 0)
  }

  /**
   * Output `k` after materialisation: a missing output becomes an empty CPU
   * tensor whose id is the next one after those given to the missing outputs
   * before it; any other output stays as it is.
   */
  function MaterialisedAt(outs: seq<IValue>, k: nat, next: nat): (r: IValue)
    requires k < |outs|
    ensures !NeedsAllocation(r)
    ensures !NeedsAllocation(outs[k]) ==> r == outs[k]
    ensures NeedsAllocation(outs[k]) ==> IsEmptyTensorOn(r, DefaultDevice) && next <= r.handle.id
  {
    if NeedsAllocation(outs[k]) then EmptyTensor(next + CountMissing(outs[..k]), DefaultDevice)
    else outs[k]
  }

  /**
   * The outputs as the operator gets them. Nothing it gets is None or an
   * undefined tensor; every output that was such a value is now an empty CPU
   * tensor, and every other output is the very value the caller passed.
   */
  function Materialise(outs: seq<IValue>, next: nat): (r: seq<IValue>)
    ensures |r| == |outs|
    ensures forall k :: 0 <= k < |r| ==> !NeedsAllocation(r[k])
    ensures forall k :: 0 <= k < |outs| && !NeedsAllocation(outs[k]) ==> r[k] == outs[k]
    ensures forall k :: 0 <= k < |outs| && NeedsAllocation(outs[k]) ==> IsEmptyTensorOn(r[k], DefaultDevice)
  {
    seq(|outs|, k requires 0 <= k < |outs| => MaterialisedAt(outs, k, next))
  }

  /** The values behind the references `refs` into `values`. */
  function Deref(values: seq<IValue>, refs: seq<nat>): (r: seq<IValue>)
    requires forall j :: 0 <= j < |refs| ==> refs[j] < |values|
    ensures |r| == |refs|
    ensures forall j :: 0 <= j < |refs| ==> r[j] == values[refs[j]]
    ensures (|refs| == |values| && forall j :: 0 <= j < |refs| ==> refs[j] == j) ==> r == values
  {
    seq(|refs|, j requires 0 <= j < |refs| => values[refs[j]])
  }

  /**
   * The stack after one call: what lay below the arguments, then the values
   * the operator left in the outputs, in declared order.
   */
  function CallResult(entries: seq<IValue>, schema: FunctionSchema, kernel: Kernel, next: nat): (r: seq<IValue>)
    requires Fits(entries, schema)
    ensures |r| == ArgumentsStart(entries, schema) + NumOutputs(schema)
    ensures r[..ArgumentsStart(entries, schema)] == entries[..ArgumentsStart(entries, schema)]
  {
    entries[..ArgumentsStart(entries, schema)]
      + kernel(InputsRegion(entries, schema), Materialise(OutputsRegion(entries, schema), next))
  }

  // ---------------------------------------------------------------------------
  // The adapter

  /** Replaces every None or undefined output by a fresh empty CPU tensor, in order. */
  method MaterialiseOutputs(outputs: array<IValue>, alloc: Allocator)
    modifies outputs, alloc
    ensures outputs[..] == Materialise(old(outputs[..]), old(alloc.next))
    ensures alloc.next == old(alloc.next) + CountMissing(old(outputs[..]))
  {
    ghost var before := outputs[..];
    ghost var start := alloc.next;
    var i := 0;
    while i < outputs.Length
      invariant 0 <= i <= outputs.Length
      invariant alloc.next == start + CountMissing(before[..i])
      invariant forall k :: 0 <= k < i ==> outputs[k] == MaterialisedAt(before, k, start)
      invariant forall k :: i <= k < outputs.Length ==> outputs[k] == before[k]
    {
      if NeedsAllocation(outputs[i]) {
        var empty := alloc.Empty(DefaultDevice);
        outputs[i] := empty;
      }
      assert before[..i + 1][..i] == before[..i];
      i := i + 1;
    }
    assert before[..outputs.Length] == before;
  }

  /** One reference per output, the j-th to the j-th output. */
  method OutputReferences(outputs: array<IValue>) returns (refs: seq<nat>)
    ensures |refs| == outputs.Length
    ensures forall j :: 0 <= j < |refs| ==> refs[j] == j
  {
    refs := [];
    var i := 0;
    while i < outputs.Length
      invariant 0 <= i <= outputs.Length
      invariant |refs| == i
      invariant forall j :: 0 <= j < i ==> refs[j] == j
    {
      refs := refs + [i];
      i := i + 1;
    }
  }

  /**
   * Runs the operator: it reads `inputs` and the values behind `refs`, and
   * writes its results back through `refs`; other entries of `outputs` stay.
   */
  method RunOperator(kernel: Kernel, inputs: seq<IValue>, outputs: array<IValue>, refs: seq<nat>)
    requires forall j :: 0 <= j < |refs| ==> refs[j] < outputs.Length
    requires forall j, j' :: 0 <= j < j' < |refs| ==> refs[j] != refs[j']
    modifies outputs
    ensures forall j :: 0 <= j < |refs| ==> outputs[refs[j]] == kernel(inputs, Deref(old(outputs[..]), refs))[j]
    ensures forall p :: 0 <= p < outputs.Length && p !in refs ==> outputs[p] == old(outputs[p])
  {
    var written := kernel(inputs, Deref(outputs[..], refs));
    forall j | 0 <= j < |refs| {
      outputs[refs[j]] := written[j];
    }
  }

  /**
   * Copies the outputs, materialises the missing ones, and runs the operator
   * on the inputs and one reference per output; returns the outputs it left.
   */
  method RunOnMaterialisedOutputs(kernel: Kernel, inputs: seq<IValue>, outputs: seq<IValue>, alloc: Allocator)
    returns (outputsVec_: array<IValue>)
    modifies alloc
    ensures fresh(outputsVec_)
    ensures outputsVec_[..] == kernel(inputs, Materialise(outputs, old(alloc.next)))
    ensures alloc.next == old(alloc.next) + CountMissing(outputs)
  {
    ghost var start := alloc.next;
    outputsVec_ := new IValue[|outputs|](k requires 0 <= k < |outputs| => outputs[k]);
    assert outputsVec_[..] == outputs;
    MaterialiseOutputs(outputsVec_, alloc);
    ghost var materialised := outputsVec_[..];

    var outputsVec := OutputReferences(outputsVec_);
    assert Deref(materialised, outputsVec) == materialised;
    RunOperator(kernel, inputs, outputsVec_, outputsVec);
    ghost var results := kernel(inputs, materialised);
    assert outputsVec_[..] == results by {
      forall j | 0 <= j < |outputs| ensures outputsVec_[j] == results[j] {
        assert outputsVec[j] == j;
      }
    }
  }

  /** Pushes the outputs onto the stack in declared order. */
  method PushOutputs(stack: Stack, outputs: array<IValue>)
    modifies stack
    ensures stack.entries == old(stack.entries) + outputs[..]
  {
    ghost var below := stack.entries;
    var i := 0;
    while i < outputs.Length
      invariant 0 <= i <= outputs.Length
      invariant stack.entries == below + outputs[..i]
    {
      stack.Push(outputs[i]);
      assert outputs[..i + 1] == outputs[..i] + [outputs[i]];
      i := i + 1;
    }
    assert outputs[..outputs.Length] == outputs[..];
  }

  /**
   * The c10 kernel of a caffe2 operator. The top TotalNumArguments entries of
   * the stack are the call's arguments, inputs first, then one output slot per
   * return. Afterwards those entries are gone and the outputs the operator
   * produced stand in their place, in declared order; everything below is as
   * it was, and each missing output was given its own new tensor.
   */
  method CallCaffe2OpFromC10(stack: Stack, schema: FunctionSchema, kernel: Kernel, alloc: Allocator)
    requires Fits(stack.entries, schema)
    modifies stack, alloc
    ensures stack.entries == CallResult(old(stack.entries), schema, kernel, old(alloc.next))
    ensures alloc.next == old(alloc.next) + CountMissing(OutputsRegion(old(stack.entries), schema))
  {
    ghost var start := alloc.next;
    ghost var entries := stack.entries;
    var numOutputs := |schema.returnArgs|;
    var totalNumArguments := |schema.arguments|;
    var numInputs := totalNumArguments - numOutputs;

    var inputs := stack.PeekSlice(0, numInputs, totalNumArguments);
    var outputs := stack.PeekSlice(numInputs, numOutputs, totalNumArguments);
    assert inputs == InputsRegion(entries, schema);
    assert outputs == OutputsRegion(entries, schema);

    var outputsVec_ := RunOnMaterialisedOutputs(kernel, inputs, outputs, alloc);

    stack.Drop(totalNumArguments);
    assert stack.entries == entries[..ArgumentsStart(entries, schema)];
    PushOutputs(stack, outputsVec_);
  }
}
