# caffe2 operators behind the c10 dispatcher

This project models the adapter that lets a legacy caffe2 operator run as a
c10 kernel (`caffe2/core/c10_operator.h`). It has two parts:

- **Schema building** (`make_function_schema_for_c10`, module `Schemas`, file
  `schema.dfy`). This is pure. It takes the operator's declared inputs, then
  appends one optional-tensor argument per declared output, named after that
  output and defaulting to None, so a caller can pass a preallocated result.
  It asserts that every declared output is a tensor (`DynamicType`). The
  schema is named `_caffe2::<operator>` and its returns are the declared
  outputs. A failed assertion is modelled as `Err(AssertionFailed(i))`, where
  `i` is the first output that is not a tensor. No schema exists in that case.
- **The stack adapter** (`call_caffe2_op_from_c10`, module `Caffe2Adapter`,
  file `adapter.dfy`). This is imperative. The caller's stack is a class with
  a `seq` field that `Drop` and `Push` reassign, and the copied outputs live
  in an `array`. The adapter:
  1. reads the inputs region and the outputs region off the top of the stack;
  2. replaces every None or undefined-tensor output with a new empty CPU
     tensor from an `Allocator`;
  3. builds one reference per output (an index into the output array);
  4. runs the operator;
  5. drops all the arguments and pushes the outputs back in order.

  Its postcondition ties the new stack to `CallResult`, a function of the old
  stack. The allocator is a counter of storage ids, so "fresh" means "an id
  at or above the counter's value when the call began".

The operator's `Run()` is a `Kernel`: a function from the inputs and the
values behind the output references to the values it leaves there. Its type
guarantees that it returns exactly one value per reference. Module
`AdapterProperties` (file `adapter_properties.dfy`) proves what a call does to
the stack, and that built schemas fit the adapter. `values.dfy` (module
`IValues`) holds the stack values: None, a tensor (undefined or defined), or
any other payload.

How the adapter treats the stack:

- It reads the top `total_num_arguments` entries (lines 20-21) and drops only
  those (line 42), so entries below them are untouched.
- Its precondition comment (lines 12-13) is the model's `requires Fits`. The
  source never checks it. On a shorter stack the unsigned slice offset
  wraps; the outcome is decided by library code outside this file and is not
  modelled.

## Model

| member | source | states |
|---|---|---|
| `Schemas.IsTensorType` | caffe2/core/c10_operator.h:58 | a definition: the line 58 test as written. `MakeFunctionSchemaForC10` states what it decides. |
| `Schemas.OutputSlot` | caffe2/core/c10_operator.h:59 | the synthesised slot carries the output's name, its type is the optional of the output's tensor type (never a tensor itself), and its default is None. |
| `Schemas.AppendOutputSlots` | caffe2/core/c10_operator.h:55-60 | succeeds exactly when every output is a tensor. On success the result is the given arguments unchanged, followed by one slot per output in order. On failure it names the first non-tensor output. |
| `Schemas.MakeFunctionSchemaForC10` | caffe2/core/c10_operator.h:52-65 | succeeds iff every declared output is a tensor. The name is `"_caffe2::" + operatorName` and the returns are the declared outputs. The arguments (one per declared input and one per declared output) are the declared inputs unchanged, then for output i a slot with its name, type Optional(Tensor), no list length and default None. On failure nothing is built, and the error names the first offending output. |
| `IValues.NeedsAllocation` | caffe2/core/c10_operator.h:29 | a definition: the line 29 test as written. `Materialise` states what it decides. |
| `IValues.EmptyTensor` | caffe2/core/c10_operator.h:30 | the value built is a defined tensor of sizes [0] on the given device, so it no longer needs allocating. |
| `Caffe2Adapter.PeekSlicesTile` | caffe2/core/c10_operator.h:20-21 | the two peeked slices, the first `num_inputs` and the next `num_outputs` of the top `total_num_arguments` entries, tile those entries exactly and in order, so no argument is skipped or read twice. |
| `Caffe2Adapter.Stack.Drop` | caffe2/core/c10_operator.h:42 | removes exactly the top `n` entries and keeps the rest. |
| `Caffe2Adapter.Stack.Push` | caffe2/core/c10_operator.h:44 | appends the value on top. |
| `Caffe2Adapter.Stack.PeekSlice` | caffe2/core/c10_operator.h:20-21 | a definition: the `len` entries starting `i` places into the top `n`, with exactly `len` entries. `PeekSlicesTile` states how the adapter's two calls tile the arguments. |
| `Caffe2Adapter.Allocator.Empty` | caffe2/core/c10_operator.h:26-30 | returns a defined tensor of sizes [0] on the requested device whose id is the counter's value before the call, and advances the counter by one. |
| `Caffe2Adapter.NumOutputs` | caffe2/core/c10_operator.h:16 | a definition: the number of the schema's returns. |
| `Caffe2Adapter.TotalNumArguments` | caffe2/core/c10_operator.h:17 | a definition: the number of the schema's arguments. |
| `Caffe2Adapter.Fits` | caffe2/core/c10_operator.h:12-13 | a definition: the precondition comment, read as `num_outputs <= total_num_arguments <= ` the stack's size. `BuiltSchemaFitsAdapter` reduces it to the stack's size for built schemas. |
| `Caffe2Adapter.NumInputs` | caffe2/core/c10_operator.h:16-18 | a definition: the line 18 difference, defined only when it cannot wrap. `BuiltSchemaFitsAdapter` gives its value for built schemas. |
| `Caffe2Adapter.InputsRegion` | caffe2/core/c10_operator.h:16-20 | the inputs region has `total_num_arguments - num_outputs` entries. |
| `Caffe2Adapter.OutputsRegion` | caffe2/core/c10_operator.h:16-21 | the outputs region has `num_outputs` entries. |
| `Caffe2Adapter.CountMissing` | caffe2/core/c10_operator.h:28-32 | the number of allocations is at most the number of outputs. |
| `Caffe2Adapter.MaterialisedAt` | caffe2/core/c10_operator.h:29-30 | one output after the test: it never needs allocating. A missing output becomes an empty CPU tensor with an id at or above the counter, and any other output is the caller's value. |
| `Caffe2Adapter.Materialise` | caffe2/core/c10_operator.h:28-32 | the outputs keep their number. None of them is None or undefined. Each one that was None or undefined is an empty CPU tensor. Every other one is the caller's value. |
| `Caffe2Adapter.Deref` | caffe2/core/c10_operator.h:34-40 | references that are the identity (one per output, the j-th to output j, as the adapter builds them) give back exactly the output values, so the operator sees the materialised outputs themselves. |
| `Caffe2Adapter.CallResult` | caffe2/core/c10_operator.h:42-45 | the stack after a call has one entry per output above the arguments' start, and everything below that start is the caller's entries unchanged. |
| `Caffe2Adapter.MaterialiseOutputs` | caffe2/core/c10_operator.h:28-32 | the loop leaves the output array equal to `Materialise` of its old contents, and allocates exactly `CountMissing` tensors. |
| `Caffe2Adapter.OutputReferences` | caffe2/core/c10_operator.h:34-38 | exactly one reference per output, and the j-th refers to the j-th output. |
| `Caffe2Adapter.RunOperator` | caffe2/core/c10_operator.h:40 | each referenced output holds what the operator wrote through its reference, and unreferenced entries are unchanged. |
| `Caffe2Adapter.RunOnMaterialisedOutputs` | caffe2/core/c10_operator.h:23-40 | the outputs the operator leaves are `kernel(inputs, Materialise(outputs))`, in a new array, after exactly `CountMissing(outputs)` allocations. |
| `Caffe2Adapter.PushOutputs` | caffe2/core/c10_operator.h:43-45 | the stack gains the outputs on top, in declared order. |
| `Caffe2Adapter.CallCaffe2OpFromC10` | caffe2/core/c10_operator.h:10-50 | the new stack is the old one with its top `total_num_arguments` entries replaced by the operator's outputs, run on the inputs region and the materialised outputs region. It allocates one tensor per missing output. |
| `AdapterProperties.CountMissingMonotone` | caffe2/core/c10_operator.h:28-32 | a longer prefix of the outputs never has fewer missing outputs, and it has strictly more if it includes one more missing output. |
| `AdapterProperties.CountMissingZero` | caffe2/core/c10_operator.h:28-32 | nothing is allocated iff no output is None or undefined. |
| `AdapterProperties.MaterialiseFreshIds` | caffe2/core/c10_operator.h:28-32 | the ids of the allocated tensors lie in `[next, next + CountMissing)` and increase with the output position, so no two allocated outputs share an id. |
| `AdapterProperties.MaterialiseAvoidsCallerIds` | caffe2/core/c10_operator.h:28-32 | when every tensor the caller passed has an id below the allocator's counter, no allocated output shares an id with a preallocated output. |
| `AdapterProperties.CallAllocatesFreshStorage` | caffe2/core/c10_operator.h:26-32 | when every tensor on the stack has an id below the allocator's counter, each output the call allocates has storage distinct from every tensor anywhere on the caller's stack. |
| `AdapterProperties.MaterialiseIdempotent` | caffe2/core/c10_operator.h:28-32 | after materialisation nothing is missing, and a second pass changes nothing. |
| `AdapterProperties.ArgumentsPartition` | caffe2/core/c10_operator.h:16-21 | the stack is the entries below the arguments, then the inputs region, then the outputs region up to the top. Together the two regions are `total_num_arguments` long. |
| `AdapterProperties.CallResultShape` | caffe2/core/c10_operator.h:42-49 | after a call the stack has shrunk by exactly `num_inputs`. Every entry below the arguments is unchanged, and one entry per output sits above them. |
| `AdapterProperties.PassThroughCall` | caffe2/core/c10_operator.h:28-49 | if the operator leaves its outputs alone, no output on the stack is None or undefined. Each missing output is an empty CPU tensor, and each preallocated output is the caller's own value. |
| `AdapterProperties.CopyInputsRoundTrip` | caffe2/core/c10_operator.h:40-45 | if the operator copies input k to output k, when there are at least as many inputs as outputs, the stack ends with the first `num_outputs` inputs, in order, above the untouched entries. |
| `AdapterProperties.BuiltSchemaFitsAdapter` | caffe2/core/c10_operator.h:16-18 | for a built schema, `num_outputs <= total_num_arguments`, so the size_t subtraction cannot wrap. `num_inputs` is the number of declared inputs and `num_outputs` the number of declared outputs. The stack fits iff it holds at least both counts added together. |

## Left out

- Registration is not modelled: the `C10_REGISTER_CAFFE2_OPERATOR` macro, the schema definition and the kernel registration with the dispatcher (lines 70-94). They are compile-time plumbing into a dispatcher that is not part of this model.
- The handle lookup `c10_op_handle_for_c2_op` is not modelled (lines 9, 15, 83-86). The adapter takes the schema as a parameter. The specialisation names `LayerNormOp` whatever the operator class; that quirk is not modelled either.
- The body of the caffe2 operator's `Run()` is not modelled. It is a numerical kernel outside this model, and it stays an abstract `Kernel`. The `caffe2::LayerNorm().schema()` argument it is constructed with is not modelled.
- Tensor storage and devices are not modelled: `caffe2::empty`, the wrapping into `at::Tensor`, and devices other than the CPU (the source leaves GPU support as a TODO). An allocation is a new id with sizes [0] on the CPU.
- `Caffe2Adapter.Allocator.Empty`: its contract gives the id as the counter's value before the call; the model keeps no record of the ids already issued, and the counter is a field a client may overwrite. The model does not track the ids of tensors the caller already had on the stack. Instead, `MaterialiseAvoidsCallerIds` and `CallAllocatesFreshStorage` take as a hypothesis that every such id lies below the counter. Freshness against the caller's tensors holds only under that hypothesis, while `caffe2::empty` (line 30) always returns new storage.
- The unused `KernelCache` parameter is left out.
- Pointers are not modelled: `IValue*` output references are indices into the output array, and moves and ownership are left out.
- Failure inside `Run()` is left out: exceptions and the state of the stack afterwards. The source promises nothing there.
- `CallCaffe2OpFromC10`: requires `num_outputs <= total_num_arguments`. The source subtracts these as `size_t` without a check. With a malformed schema that subtraction wraps, and the copy at line 23 is handed a slice whose length wrapped; this file does not define what happens then, and the model does not say. `BuiltSchemaFitsAdapter` shows that every schema built by `MakeFunctionSchemaForC10` meets the requirement.
- Schema building always gives the same result for the same arguments, because it is a function, so no separate lemma states that.
