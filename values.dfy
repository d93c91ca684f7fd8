/**
 * The type-erased values that travel on an operator stack, reduced to what the
 * caffe2-to-c10 adapter looks at: whether a value is None, whether it is a
 * tensor, and whether that tensor is defined.
 */
module IValues {

  /** Where a tensor lives. The adapter only ever allocates on the CPU. */
  datatype Device = CPU | CUDA

  /**
   * A tensor handle. An undefined handle is declared but holds no storage;
   * a defined one is identified by `id` (the identity of its storage), and
   * carries its sizes and its device.
   */
  datatype TensorHandle =
    | Undefined
    | Defined(id: nat, sizes: seq<nat>, device: Device)

  /**
   * A type-erased stack value: None (an absent optional), a tensor, or any
   * other payload, which the adapter never inspects.
   */
  datatype IValue =
    | None
    | Tensor(handle: TensorHandle)
    | Other(payload: int)

  /** The test the adapter applies to each output slot before calling the operator. */
  predicate NeedsAllocation(v: IValue)
  {
    v.None? || (v.Tensor? && v.handle.Undefined?)
  }

  /** The value of a freshly allocated empty (size 0) tensor with storage `id`. */
  function EmptyTensor(id: nat, device: Device): (v: IValue)
    ensures IsEmptyTensorOn(v, device) && !NeedsAllocation(v)
  {
    Tensor(Defined(id, [0], device))
  }

  /** True of a defined tensor with a single dimension of extent 0 on `device`. */
  predicate IsEmptyTensorOn(v: IValue, device: Device)
  {
    v.Tensor? && v.handle.Defined? && v.handle.sizes == [0] && v.handle.device == device
  }
}
