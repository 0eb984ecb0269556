/**
 * The value types declared by the compute-context wrapper's public header:
 * device kinds, buffer access modes, the dispatch shape (NDRange) and the
 * kernel-argument descriptor with its constructors.
 */
module ClTypes {

  /** Requested device class for context creation. */
  datatype DeviceType = GpuDevice | CpuDevice | NoDevice

  /** Access mode a buffer is tagged with at creation. */
  datatype BufferType = ReadOnly | WriteOnly | ReadAndWrite

  /** Registry handle of a buffer; 0 is the "not created" sentinel. */
  type BufferId = nat

  const InvalidBufferId: BufferId := 0

  /** One size_t[3] array of an NDRange. */
  type Extent3 = s: seq<nat> | |s| == 3 witness [0, 0, 0]

  /** Shape of a dispatch: dimensionality and three per-dimension arrays. */
  datatype NDRange = NDRange(workDim: nat, globalSize: Extent3, localSize: Extent3, globalOffset: Extent3)

  /** The default constructor: no dimensions and every entry zero. */
  function DefaultNDRange(): (r: NDRange)
    ensures r.workDim == 0
    ensures forall d :: 0 <= d < 3 ==> r.globalSize[d] == 0 && r.localSize[d] == 0 && r.globalOffset[d] == 0
  {
    NDRange(0, [0, 0, 0], [0, 0, 0], [0, 0, 0])
  }

  /** Host scalars whose address is handed to `KernelArg(T*)` in this program. */
  datatype Scalar = CInt(i: int) | CFloat(f: real)

  const SizeofInt: nat := 4
  const SizeofFloat: nat := 4

  /** `sizeof(T)` for the scalar kinds above. */
  function SizeOf(s: Scalar): nat
  {
    match s
    case CInt(_) => SizeofInt
    case CFloat(_) => SizeofFloat
  }

  /** A host pointer: null, the address of a scalar, or an opaque block of host memory. */
  datatype HostPtr = Null | ToScalar(target: Scalar) | ToBlock(addr: nat)

  /**
   * A kernel argument: a registry buffer bound by handle, inline bytes read
   * from a host pointer, or a device-local scratch request with no host data.
   */
  datatype KernelArg =
    | Global(id: BufferId)
    | Inline(byteSize: nat, data: HostPtr)
    | Shared(byteSize: nat)
  {
    /**
     * The data pointer the descriptor carries; a scratch request carries null.
     * For a buffer reference the descriptor really points at the caller's
     * handle variable; the model keeps the handle itself in `id` instead, so
     * `Data()` of a `Global` argument means nothing and is never bound.
     */
    function Data(): (p: HostPtr)
      ensures Shared? ==> p == Null
      ensures Inline? ==> p == data
    {
      match this
      case Global(_) => Null
      case Inline(_, d) => d
      case Shared(_) => Null
    }
  }

  /** `KernelArg(T* aData)`: records sizeof(T) and the pointer. */
  function ArgFromPointer(s: Scalar): (a: KernelArg)
    ensures a.Inline? && a.byteSize == SizeOf(s) && a.Data() == ToScalar(s)
  {
    Inline(SizeOf(s), ToScalar(s))
  }

  /** `KernelArg(void* aData, size_t size)`: records exactly the given size. */
  function ArgFromBytes(data: HostPtr, size: nat): (a: KernelArg)
    ensures a.Inline? && a.byteSize == size && a.Data() == data
  {
    Inline(size, data)
  }

  /** `KernelArg::getShared(size)`: a scratch request of `size` bytes with null data. */
  function GetShared(size: nat): (a: KernelArg)
    ensures !a.Global? && a.byteSize == size && a.Data() == Null
  {
    Shared(size)
  }
}
