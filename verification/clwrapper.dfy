/**
 * The compute-context wrapper: a registry of native buffers under integer
 * handles and of prepared kernels under their names, the argument marshaler
 * that turns kernel-argument descriptors into native bindings, and the
 * dispatch that binds every argument before enqueueing a kernel.
 *
 * Every call into the OpenCL driver is an oracle: its answer arrives as a
 * parameter, and the wrapper appends the call it made to `log`, so that the
 * contracts can say which native calls an operation issues and in what order.
 */
module ClWrapper {
  import opened OpenCL
  import opened ClTypes

  // ---------------------------------------------------------------------
  // Error strings (the file-local getError)
  // ---------------------------------------------------------------------

  function Digit(d: nat): (c: char)
    requires d < 10
    ensures '0' <= c <= '9' && c as int - '0' as int == d
  {
    ('0' as int + d) as char
  }

  predicate IsDigits(s: string)
  {
    forall k :: 0 <= k < |s| ==> '0' <= s[k] <= '9'
  }

  /** The number a string of decimal digits denotes, most significant digit first. */
  function DigitsValue(s: string): nat
    requires IsDigits(s)
  {
    if s == [] then 0 else DigitsValue(s[..|s| - 1]) * 10 + (s[|s| - 1] as int - '0' as int)
  }

  /** Decimal digits of `n`, most significant first, without leading zeros. */
  function NatToString(n: nat): (s: string)
    ensures 1 <= |s| && (10 <= n ==> 2 <= |s|) && (2 <= |s| ==> s[0] != '0')
    ensures IsDigits(s) && DigitsValue(s) == n
  {
    if n < 10 then [Digit(n)]
    else
      var init := NatToString(n / 10);
      var s := init + [Digit(n % 10)];
      assert s[..|s| - 1] == init;
      s
  }

  /** `std::to_string(int)`: a minus sign exactly for negative values, then the digits of the magnitude. */
  function IntToString(i: int): (s: string)
    ensures 1 <= |s|
    ensures s[0] == '-' <==> i < 0
    ensures i < 0 ==> IsDigits(s[1..]) && DigitsValue(s[1..]) == -i
    ensures 0 <= i ==> IsDigits(s) && DigitsValue(s) == i
    ensures i < 0 ==> 2 <= |s| && s[1] != '0'
    ensures 0 <= i && 2 <= |s| ==> s[0] != '0'
  {
    if i < 0 then
      var s := "-" + NatToString(-i);
      assert s[1..] == NatToString(-i);
      s
    else NatToString(i)
  }

  lemma {:induction false} NatToStringInjective(a: nat, b: nat)
    requires NatToString(a) == NatToString(b)
    ensures a == b
    decreases a
  {
    var sa, sb := NatToString(a), NatToString(b);
    if a < 10 && b < 10 {
      assert sa[0] == Digit(a) && sb[0] == Digit(b);
    } else if 10 <= a && 10 <= b {
      assert sa == NatToString(a / 10) + [Digit(a % 10)];
      assert sb == NatToString(b / 10) + [Digit(b % 10)];
      assert NatToString(a / 10) == sa[..|sa| - 1];
      assert NatToString(b / 10) == sb[..|sb| - 1];
      assert Digit(a % 10) == sa[|sa| - 1] == sb[|sb| - 1] == Digit(b % 10);
      NatToStringInjective(a / 10, b / 10);
    }
  }

  lemma {:induction false} IntToStringInjective(a: int, b: int)
    requires IntToString(a) == IntToString(b)
    ensures a == b
  {
    var sa, sb := IntToString(a), IntToString(b);
    if a < 0 && b < 0 {
      assert NatToString(-a) == sa[1..] == sb[1..] == NatToString(-b);
      NatToStringInjective(-a, -b);
    } else if 0 <= a && 0 <= b {
      NatToStringInjective(a, b);
    }
  }

  const UnknownErrorPrefix: string := "Erro number :"

  /** The human-readable text logged for a native status code. */
  function GetError(error: ClInt): (msg: string)
    ensures msg == "Success" <==> error == CL_SUCCESS
    ensures 1 <= |msg| && (msg[0] == 'E' <==> !IsNamedError(error))
  {
    if error == CL_SUCCESS then "Success"
    else if error == CL_INVALID_CONTEXT then "Invalid Context"
    else if error == CL_INVALID_VALUE then "Invalid Value"
    else if error == CL_INVALID_BUFFER_SIZE then "Invalid Buffer Size"
    else if error == CL_INVALID_HOST_PTR then "Invalid Host Pointer"
    else if error == CL_MEM_OBJECT_ALLOCATION_FAILURE then "Failure to allocate memory for object"
    else if error == CL_OUT_OF_HOST_MEMORY then "Out of host memory"
    else if error == CL_INVALID_PROGRAM_EXECUTABLE then "Invalid Program Executable"
    else if error == CL_INVALID_COMMAND_QUEUE then "Invalid Command Queue"
    else if error == CL_INVALID_KERNEL then "Invalid Kernel"
    else if error == CL_INVALID_KERNEL_ARGS then "Invalid Kernel Arguments"
    else if error == CL_INVALID_WORK_DIMENSION then "Invalid Work Dimension"
    else if error == CL_INVALID_PLATFORM then "Invalid Platform"
    else if error == CL_DEVICE_NOT_FOUND then "Device not found"
    else if error == CL_INVALID_DEVICE_TYPE then "Invalide Device type"
    else UnknownErrorPrefix + IntToString(error)
  }

  /** The status codes that have a message of their own. */
  predicate IsNamedError(error: ClInt)
  {
    error in {CL_SUCCESS, CL_INVALID_CONTEXT, CL_INVALID_VALUE, CL_INVALID_BUFFER_SIZE,
              CL_INVALID_HOST_PTR, CL_MEM_OBJECT_ALLOCATION_FAILURE, CL_OUT_OF_HOST_MEMORY,
              CL_INVALID_PROGRAM_EXECUTABLE, CL_INVALID_COMMAND_QUEUE, CL_INVALID_KERNEL,
              CL_INVALID_KERNEL_ARGS, CL_INVALID_WORK_DIMENSION, CL_INVALID_PLATFORM,
              CL_DEVICE_NOT_FOUND, CL_INVALID_DEVICE_TYPE}
  }

  /** Distinct status codes are always reported with distinct text. */
  lemma {:induction false} GetErrorInjective(a: ClInt, b: ClInt)
    requires GetError(a) == GetError(b)
    ensures a == b
  {
    if !IsNamedError(a) && !IsNamedError(b) {
      var n := |UnknownErrorPrefix|;
      assert IntToString(a) == GetError(a)[n..] == GetError(b)[n..] == IntToString(b);
      IntToStringInjective(a, b);
    } else if IsNamedError(a) && IsNamedError(b) {
      NamedErrorsDistinct(a, b);
    }
  }

  /** The fifteen named messages are pairwise different. */
  lemma NamedErrorsDistinct(a: ClInt, b: ClInt)
    requires IsNamedError(a) && IsNamedError(b)
    requires GetError(a) == GetError(b)
    ensures a == b
  {
  }

  // ---------------------------------------------------------------------
  // Native calls, buffer flags, argument binding
  // ---------------------------------------------------------------------

  /** What a kernel argument binds natively: a memory object, or bytes at a host pointer. */
  datatype ArgValue = MemObject(mem: ClMem) | HostData(ptr: HostPtr)

  datatype ArgBinding = ArgBinding(size: nat, value: ArgValue)

  /** The driver calls the wrapper issues (queries are not recorded). */
  datatype NativeCall =
    | ClGetDeviceIDs(platform: ClPlatform, deviceType: ClDeviceType)
    | ClCreateContext(device: ClDevice)
    | ClCreateCommandQueue(context: ClContext, device: ClDevice)
    | ClCreateProgramWithSource(inContext: Option<ClContext>, source: string)
    | ClBuildProgram(program: ClProgram)
    | ClCreateKernel(fromProgram: Option<ClProgram>, name: string)
    | ClCreateBuffer(inContext: Option<ClContext>, flags: MemFlags, size: nat, hostData: HostPtr)
    | ClEnqueueWriteBuffer(onQueue: Option<ClQueue>, mem: ClMem, blocking: bool, offset: nat, size: nat, data: HostPtr)
    | ClEnqueueReadBuffer(onQueue: Option<ClQueue>, mem: ClMem, blocking: bool, offset: nat, size: nat, data: HostPtr)
    | ClSetKernelArg(kernel: ClKernel, index: nat, size: nat, value: ArgValue)
    | ClEnqueueNDRangeKernel(onQueue: Option<ClQueue>, kernel: ClKernel, range: NDRange)
    | ClReleaseKernel(kernel: ClKernel)
    | ClReleaseMemObject(mem: ClMem)
    | ClReleaseCommandQueue(queue: ClQueue)
    | ClReleaseContext(context: ClContext)

  /** Device class requested from the driver; anything but GPU asks for a CPU. */
  function ClDeviceTypeFor(deviceType: DeviceType): (t: ClDeviceType)
    ensures t == CL_DEVICE_TYPE_GPU <==> deviceType == GpuDevice
    ensures t == CL_DEVICE_TYPE_CPU <==> deviceType != GpuDevice
  {
    if deviceType == GpuDevice then CL_DEVICE_TYPE_GPU else CL_DEVICE_TYPE_CPU
  }

  const AccessBits: MemFlags := CL_MEM_READ_WRITE | CL_MEM_WRITE_ONLY | CL_MEM_READ_ONLY

  /** Memory flags for a new buffer: its access mode, plus copy-in exactly when host data is given. */
  function MemFlagsFor(bufferType: BufferType, hostData: HostPtr): (flags: MemFlags)
    ensures (flags & CL_MEM_READ_ONLY != 0) <==> bufferType == ReadOnly
    ensures (flags & CL_MEM_WRITE_ONLY != 0) <==> bufferType == WriteOnly
    ensures (flags & CL_MEM_READ_WRITE != 0) <==> bufferType == ReadAndWrite
    ensures (flags & CL_MEM_COPY_HOST_PTR != 0) <==> hostData != Null
    ensures flags & !(AccessBits | CL_MEM_COPY_HOST_PTR) == 0
  {
    var access := match bufferType
      case ReadOnly => CL_MEM_READ_ONLY
      case WriteOnly => CL_MEM_WRITE_ONLY
      case ReadAndWrite => CL_MEM_READ_WRITE;
    if hostData != Null then access | CL_MEM_COPY_HOST_PTR else access
  }

  /**
   * What the marshaler hands to the driver for one argument: a buffer
   * reference binds the native memory object registered under its handle
   * (never the handle itself); any other argument binds its own size and
   * data pointer. `None` is the unknown handle, where the registry lookup
   * throws instead of binding.
   */
  function Resolve(buffers: map<BufferId, ClMem>, arg: KernelArg): (r: Option<ArgBinding>)
    ensures r.None? <==> arg.Global? && arg.id !in buffers
    ensures r.Some? && arg.Global? ==> r.value == ArgBinding(SizeofClMem, MemObject(buffers[arg.id]))
    ensures !arg.Global? ==> r == Some(ArgBinding(arg.byteSize, HostData(arg.Data())))
  {
    match arg
    case Global(id) => if id in buffers then Some(ArgBinding(SizeofClMem, MemObject(buffers[id]))) else None
    case _ => Some(ArgBinding(arg.byteSize, HostData(arg.Data())))
  }

  /** `getShared(size)` binds exactly as `KernelArg(nullptr, size)` does: size bytes, no data. */
  lemma GetSharedBindsLikeNullPointer(buffers: map<BufferId, ClMem>, size: nat)
    ensures Resolve(buffers, GetShared(size)) == Resolve(buffers, ArgFromBytes(Null, size))
    ensures Resolve(buffers, GetShared(size)) == Some(ArgBinding(size, HostData(Null)))
  {
  }

  /** `KernelArg(T*)` binds sizeof(T) bytes read from the scalar it points to. */
  lemma PointerArgBindsItsScalar(buffers: map<BufferId, ClMem>, s: Scalar)
    ensures Resolve(buffers, ArgFromPointer(s)) == Some(ArgBinding(SizeOf(s), HostData(ToScalar(s))))
  {
  }

  /** Outcome of a call that may throw `std::out_of_range` from the registry lookup. */
  datatype CallResult = Returned(ok: bool) | OutOfRange

  /** State of the binding loop after it has attempted a prefix of the arguments. */
  datatype BindState = BindState(allOk: bool, threw: bool, calls: seq<NativeCall>)

  /**
   * The argument-binding loop after indices 0..n-1: every index is attempted
   * even after a failed one (`allOk &= ok`), until an unknown buffer handle
   * throws and ends the loop.
   */
  function BindLoop(buffers: map<BufferId, ClMem>, kernel: ClKernel, args: seq<KernelArg>,
                    argErr: nat -> ClInt, n: nat): BindState
    requires n <= |args|
  {
    if n == 0 then BindState(true, false, [])
    else
      var s := BindLoop(buffers, kernel, args, argErr, n - 1);
      if s.threw then s
      else match Resolve(buffers, args[n - 1])
        case None => s.(threw := true)
        case Some(b) =>
          BindState(s.allOk && argErr(n - 1) == CL_SUCCESS, false,
                    s.calls + [ClSetKernelArg(kernel, n - 1, b.size, b.value)])
  }

  /** An argument whose binding throws: a buffer reference to an unregistered handle. */
  predicate Unbindable(buffers: map<BufferId, ClMem>, arg: KernelArg)
  {
    Resolve(buffers, arg).None?
  }

  /**
   * What the binding loop does: it throws exactly when some argument names an
   * unregistered handle, after binding every argument before the first such
   * one; otherwise it binds every index in order, and it reports success
   * exactly when every binding succeeded.
   */
  lemma {:induction false} BindLoopSpec(buffers: map<BufferId, ClMem>, kernel: ClKernel,
                                        args: seq<KernelArg>, argErr: nat -> ClInt, n: nat)
    requires n <= |args|
    ensures var s := BindLoop(buffers, kernel, args, argErr, n);
      && (s.threw <==> exists k :: 0 <= k < n && Unbindable(buffers, args[k]))
      && |s.calls| <= n
      && (!s.threw ==> |s.calls| == n)
      && (s.threw ==> |s.calls| < n && Unbindable(buffers, args[|s.calls|]))
      && (forall k :: 0 <= k < |s.calls| ==>
            !Unbindable(buffers, args[k]) &&
            s.calls[k] == ClSetKernelArg(kernel, k, Resolve(buffers, args[k]).value.size,
                                       Resolve(buffers, args[k]).value.value))
      && (!s.threw ==> (s.allOk <==> forall k :: 0 <= k < n ==> argErr(k) == CL_SUCCESS))
  {
    if n > 0 {
      BindLoopSpec(buffers, kernel, args, argErr, n - 1);
      var s := BindLoop(buffers, kernel, args, argErr, n - 1);
      if !s.threw && !Unbindable(buffers, args[n - 1]) {
        var t := BindLoop(buffers, kernel, args, argErr, n);
        assert t.calls == s.calls + [ClSetKernelArg(kernel, n - 1, Resolve(buffers, args[n - 1]).value.size,
                                                  Resolve(buffers, args[n - 1]).value.value)];
        if t.allOk {
          assert forall k :: 0 <= k < n ==> argErr(k) == CL_SUCCESS by {
            forall k | 0 <= k < n ensures argErr(k) == CL_SUCCESS {
              if k < n - 1 { assert s.allOk; }
            }
          }
        }
      }
    }
  }

  /** Once the loop has thrown, later indices change nothing. */
  lemma {:induction false} BindLoopStaysThrown(buffers: map<BufferId, ClMem>, kernel: ClKernel,
                                               args: seq<KernelArg>, argErr: nat -> ClInt, i: nat, n: nat)
    requires i <= n <= |args|
    requires BindLoop(buffers, kernel, args, argErr, i).threw
    ensures BindLoop(buffers, kernel, args, argErr, n) == BindLoop(buffers, kernel, args, argErr, i)
    decreases n - i
  {
    if i < n {
      BindLoopStaysThrown(buffers, kernel, args, argErr, i, n - 1);
    }
  }

  /** A prepared kernel: the native object and its cached preferred work-group size. */
  datatype KernelInfo = KernelInfo(kernel: ClKernel, workGroupSize: nat)

  /** Result and native calls of one dispatch. */
  datatype DispatchRun = DispatchRun(result: CallResult, calls: seq<NativeCall>)

  /**
   * A dispatch: an unknown kernel name fails before binding anything; otherwise
   * every argument is bound, and the kernel is enqueued over `range`, unchecked,
   * only when every binding succeeded.
   */
  function DispatchSpec(kernels: map<string, KernelInfo>, buffers: map<BufferId, ClMem>,
                        queue: Option<ClQueue>, name: string, range: NDRange, args: seq<KernelArg>,
                        argErr: nat -> ClInt, enqueueErr: ClInt): DispatchRun
  {
    if name !in kernels then DispatchRun(Returned(false), [])
    else
      var kernel := kernels[name].kernel;
      var b := BindLoop(buffers, kernel, args, argErr, |args|);
      if b.threw then DispatchRun(OutOfRange, b.calls)
      else if !b.allOk then DispatchRun(Returned(false), b.calls)
      else DispatchRun(Returned(enqueueErr == CL_SUCCESS), b.calls + [ClEnqueueNDRangeKernel(queue, kernel, range)])
  }

  predicate EnqueuesKernel(calls: seq<NativeCall>)
  {
    exists k :: 0 <= k < |calls| && calls[k].ClEnqueueNDRangeKernel?
  }

  /**
   * A dispatch enqueues the kernel exactly when the name is prepared and every
   * argument was bound successfully; with an unknown name it binds nothing.
   * It reports success exactly when it enqueued and the enqueue succeeded.
   */
  lemma DispatchEnqueuesIffAllBound(kernels: map<string, KernelInfo>, buffers: map<BufferId, ClMem>,
                                    queue: Option<ClQueue>, name: string, range: NDRange,
                                    args: seq<KernelArg>, argErr: nat -> ClInt, enqueueErr: ClInt)
    ensures var run := DispatchSpec(kernels, buffers, queue, name, range, args, argErr, enqueueErr);
      && (name !in kernels ==> run == DispatchRun(Returned(false), []))
      && (EnqueuesKernel(run.calls) <==>
            name in kernels &&
            forall k :: 0 <= k < |args| ==> !Unbindable(buffers, args[k]) && argErr(k) == CL_SUCCESS)
      && (run.result == Returned(true) <==> EnqueuesKernel(run.calls) && enqueueErr == CL_SUCCESS)
  {
    var run := DispatchSpec(kernels, buffers, queue, name, range, args, argErr, enqueueErr);
    if name in kernels {
      var kernel := kernels[name].kernel;
      BindLoopSpec(buffers, kernel, args, argErr, |args|);
      var b := BindLoop(buffers, kernel, args, argErr, |args|);
      assert forall k :: 0 <= k < |b.calls| ==> b.calls[k].ClSetKernelArg?;
      if !b.threw && b.allOk {
        assert run.calls[|run.calls| - 1].ClEnqueueNDRangeKernel?;
      }
    }
  }

  /**
   * With a prepared kernel and only registered handles, argument index k is
   * bound k-th, whatever the other bindings returned.
   */
  lemma DispatchAttemptsEveryArgument(kernels: map<string, KernelInfo>, buffers: map<BufferId, ClMem>,
                                      queue: Option<ClQueue>, name: string, range: NDRange,
                                      args: seq<KernelArg>, argErr: nat -> ClInt, enqueueErr: ClInt)
    requires name in kernels
    requires forall k :: 0 <= k < |args| ==> Resolve(buffers, args[k]).Some?
    ensures var run := DispatchSpec(kernels, buffers, queue, name, range, args, argErr, enqueueErr);
      && |args| <= |run.calls|
      && forall k :: 0 <= k < |args| ==>
           run.calls[k] == ClSetKernelArg(kernels[name].kernel, k, Resolve(buffers, args[k]).value.size,
                                        Resolve(buffers, args[k]).value.value)
  {
    BindLoopSpec(buffers, kernels[name].kernel, args, argErr, |args|);
  }

  /** No global/local divisibility check: the outcome does not depend on the range. */
  lemma DispatchIgnoresRangeShape(kernels: map<string, KernelInfo>, buffers: map<BufferId, ClMem>,
                                  queue: Option<ClQueue>, name: string, r1: NDRange, r2: NDRange,
                                  args: seq<KernelArg>, argErr: nat -> ClInt, enqueueErr: ClInt)
    ensures DispatchSpec(kernels, buffers, queue, name, r1, args, argErr, enqueueErr).result
         == DispatchSpec(kernels, buffers, queue, name, r2, args, argErr, enqueueErr).result
  {
  }

  // ---------------------------------------------------------------------
  // Driver answers for the multi-call operations
  // ---------------------------------------------------------------------

  /** Answers of the driver calls made while creating a context, in call order. */
  datatype ContextAnswers = ContextAnswers(
    numPlatforms: nat,
    platformErr: ClInt, platform: ClPlatform,
    deviceErr: ClInt, device: ClDevice,
    maxWorkGroupErr: ClInt,
    vendorErr: ClInt, nameErr: ClInt,
    context: Option<ClContext>,
    queue: Option<ClQueue>)

  predicate ReachesDeviceQuery(a: ContextAnswers)
  {
    0 < a.numPlatforms && a.platformErr == CL_SUCCESS
  }

  predicate ReachesContextCreation(a: ContextAnswers)
  {
    ReachesDeviceQuery(a) && a.deviceErr == CL_SUCCESS && a.maxWorkGroupErr == CL_SUCCESS
    && a.vendorErr == CL_SUCCESS && a.nameErr == CL_SUCCESS
  }

  predicate ReachesQueueCreation(a: ContextAnswers)
  {
    ReachesContextCreation(a) && a.context.Some?
  }

  predicate ContextCreationSucceeds(a: ContextAnswers)
  {
    ReachesQueueCreation(a) && a.queue.Some?
  }

  /** The driver calls a first context creation issues, up to the step that fails. */
  function ContextCreationCalls(a: ContextAnswers, deviceType: DeviceType): seq<NativeCall>
  {
    (if ReachesDeviceQuery(a) then [ClGetDeviceIDs(a.platform, ClDeviceTypeFor(deviceType))] else [])
    + (if ReachesContextCreation(a) then [ClCreateContext(a.device)] else [])
    + (if ReachesQueueCreation(a) then [ClCreateCommandQueue(a.context.value, a.device)] else [])
  }

  /** Answers of clCreateProgramWithSource and clBuildProgram. */
  datatype ProgramAnswers = ProgramAnswers(program: Option<ClProgram>, createErr: ClInt, buildErr: ClInt)

  /** Answers of clCreateKernel and clGetKernelWorkGroupInfo. */
  datatype KernelAnswers = KernelAnswers(kernel: Option<ClKernel>, createErr: ClInt, workGroupErr: ClInt, workGroupSize: nat)

  /** `EXIT_FAILURE` from <cstdlib>, returned from a `bool` function. */
  const EXIT_FAILURE: int := 1

  function KernelReleases(kernels: map<string, KernelInfo>, order: seq<string>): seq<NativeCall>
    requires forall k :: 0 <= k < |order| ==> order[k] in kernels
  {
    if order == [] then []
    else KernelReleases(kernels, order[..|order| - 1]) + [ClReleaseKernel(kernels[order[|order| - 1]].kernel)]
  }

  function BufferReleases(buffers: map<BufferId, ClMem>, order: seq<BufferId>): seq<NativeCall>
    requires forall k :: 0 <= k < |order| ==> order[k] in buffers
  {
    if order == [] then []
    else BufferReleases(buffers, order[..|order| - 1]) + [ClReleaseMemObject(buffers[order[|order| - 1]])]
  }

  predicate Distinct<T(==)>(s: seq<T>)
  {
    forall i, j :: 0 <= i < j < |s| ==> s[i] != s[j]
  }

  lemma {:induction false} DistinctElements<T>(s: seq<T>)
    requires Distinct(s)
    ensures |set x | x in s| == |s|
  {
    if s != [] {
      var init := s[..|s| - 1];
      DistinctElements(init);
      assert (set x | x in s) == (set x | x in init) + {s[|s| - 1]};
    }
  }

  // ---------------------------------------------------------------------
  // The wrapper object
  // ---------------------------------------------------------------------

  class ContextWrapper {
    var hasCreatedContext: bool
    var computeContext: Option<ClContext>
    var computeCommands: Option<ClQueue>
    var deviceId: Option<ClDevice>
    var computeProgram: Option<ClProgram>
    var kernels: map<string, KernelInfo>
    var buffers: map<BufferId, ClMem>
    var nextBufferId: nat
    /** Driver calls issued so far, oldest first. */
    var log: seq<NativeCall>
    /** Native kernels created and not yet released. */
    ghost var liveKernels: nat

    ghost predicate Valid()
      reads this
    {
      && 1 <= nextBufferId
      && (forall id :: id in buffers ==> 1 <= id < nextBufferId)
      && |kernels| <= liveKernels
      && (hasCreatedContext ==> computeContext.Some? && computeCommands.Some? && deviceId.Some?)
    }

    /** Native kernels that are live but no longer reachable from the registry. */
    ghost function LeakedKernels(): nat
      reads this
      requires Valid()
    {
      liveKernels - |kernels|
    }

    constructor ()
      ensures Valid()
      ensures !hasCreatedContext && nextBufferId == 1
      ensures kernels == map[] && buffers == map[] && log == [] && liveKernels == 0
      ensures computeContext == None && computeCommands == None && deviceId == None && computeProgram == None
    {
      hasCreatedContext := false;
      computeContext, computeCommands, deviceId, computeProgram := None, None, None, None;
      kernels, buffers := map[], map[];
      nextBufferId := 1;
      log := [];
      liveKernels := 0;
    }

    function HasCreatedContext(): (created: bool)
      reads this
      requires Valid()
      ensures created ==> computeContext.Some? && computeCommands.Some? && deviceId.Some?
    {
      hasCreatedContext
    }

    /**
     * Creates the native context and its queue on the first platform. A second
     * call on a created instance fails and changes nothing; the flag is set
     * only when every step succeeds. A context created before a failing queue
     * creation stays in `computeContext`.
     */
    method CreateContext(a: ContextAnswers, deviceType: DeviceType := CpuDevice) returns (ok: bool)
      requires Valid()
      modifies this
      ensures Valid()
      ensures old(hasCreatedContext) ==> !ok && unchanged(this)
      ensures !old(hasCreatedContext) ==> ok == ContextCreationSucceeds(a)
      ensures hasCreatedContext == (old(hasCreatedContext) || ok)
      ensures !old(hasCreatedContext) ==> log == old(log) + ContextCreationCalls(a, deviceType)
      ensures computeContext == if !old(hasCreatedContext) && ReachesContextCreation(a) then a.context else old(computeContext)
      ensures computeCommands == if !old(hasCreatedContext) && ReachesQueueCreation(a) then a.queue else old(computeCommands)
      ensures deviceId == if ok then Some(a.device) else old(deviceId)
      ensures kernels == old(kernels) && buffers == old(buffers) && nextBufferId == old(nextBufferId)
      ensures computeProgram == old(computeProgram) && liveKernels == old(liveKernels)
    {
      if hasCreatedContext {
        return false;
      }
      if a.numPlatforms == 0 {
        return false;
      }
      if a.platformErr != CL_SUCCESS {
        return false;
      }
      log := log + [ClGetDeviceIDs(a.platform, ClDeviceTypeFor(deviceType))];
      if a.deviceErr != CL_SUCCESS {
        return false;
      }
      if a.maxWorkGroupErr != CL_SUCCESS {
        return false;
      }
      if a.vendorErr != CL_SUCCESS || a.nameErr != CL_SUCCESS {
        return false;
      }
      log := log + [ClCreateContext(a.device)];
      computeContext := a.context;
      if computeContext.None? {
        return false;
      }
      log := log + [ClCreateCommandQueue(computeContext.value, a.device)];
      computeCommands := a.queue;
      if computeCommands.None? {
        return false;
      }
      deviceId := Some(a.device);
      hasCreatedContext := true;
      ok := true;
    }

    /**
     * Compiles the program. Only a failed creation reports failure: a failed
     * build returns EXIT_FAILURE, which converts to `true`.
     */
    method CreateProgramFromSource(a: ProgramAnswers, source: string) returns (ok: bool)
      requires Valid()
      modifies this`computeProgram, this`log
      ensures Valid()
      ensures computeProgram == a.program
      ensures ok <==> a.program.Some? && a.createErr == CL_SUCCESS
      ensures log == old(log) + [ClCreateProgramWithSource(computeContext, source)]
                   + (if ok then [ClBuildProgram(a.program.value)] else [])
    {
      log := log + [ClCreateProgramWithSource(computeContext, source)];
      computeProgram := a.program;
      if computeProgram.None? || a.createErr != CL_SUCCESS {
        return false;
      }
      log := log + [ClBuildProgram(computeProgram.value)];
      if a.buildErr != CL_SUCCESS {
        return EXIT_FAILURE != 0;
      }
      ok := true;
    }

    /**
     * Creates the named kernel and caches its work-group size. Success inserts
     * or overwrites the entry, leaking a kernel it replaces; a failed size
     * query leaks the new kernel and leaves the registry as it was.
     */
    method PrepareKernel(a: KernelAnswers, kernelName: string) returns (ok: bool)
      requires Valid()
      modifies this`kernels, this`log, this`liveKernels
      ensures Valid()
      ensures ok <==> a.kernel.Some? && a.createErr == CL_SUCCESS && a.workGroupErr == CL_SUCCESS
      ensures kernels == if ok then old(kernels)[kernelName := KernelInfo(a.kernel.value, a.workGroupSize)]
                         else old(kernels)
      ensures ok ==> GetWorkGroupSize(kernelName) == a.workGroupSize
      ensures liveKernels == old(liveKernels) + (if a.kernel.Some? then 1 else 0)
      ensures LeakedKernels() == old(LeakedKernels())
                + (if a.kernel.Some? && !(ok && kernelName !in old(kernels)) then 1 else 0)
      ensures log == old(log) + [ClCreateKernel(computeProgram, kernelName)]
    {
      log := log + [ClCreateKernel(computeProgram, kernelName)];
      if a.kernel.Some? {
        liveKernels := liveKernels + 1;
      }
      if a.kernel.None? || a.createErr != CL_SUCCESS {
        return false;
      }
      if a.workGroupErr != CL_SUCCESS {
        return false;
      }
      kernels := kernels[kernelName := KernelInfo(a.kernel.value, a.workGroupSize)];
      ok := true;
    }

    /** The cached work-group size of a prepared kernel; 0 for an unknown name. */
    function GetWorkGroupSize(kernelName: string): (size: nat)
      reads this
      ensures kernelName !in kernels ==> size == 0
      ensures kernelName in kernels ==> size == kernels[kernelName].workGroupSize
    {
      if kernelName in kernels then kernels[kernelName].workGroupSize else 0
    }

    /**
     * Allocates a buffer. On success the new handle is the counter's value,
     * never 0 and never in use before, and the counter moves on by one; a
     * failed allocation returns 0 and leaves registry and counter alone.
     */
    method CreateBuffer(native: Option<ClMem>, bytesSize: nat, hostData: HostPtr := Null,
                        bufferType: BufferType := ReadAndWrite) returns (id: BufferId)
      requires Valid()
      modifies this`buffers, this`nextBufferId, this`log
      ensures Valid()
      ensures log == old(log) + [ClCreateBuffer(computeContext, MemFlagsFor(bufferType, hostData), bytesSize, hostData)]
      ensures native.Some? ==> && id == old(nextBufferId) && id != InvalidBufferId && id !in old(buffers)
                               && buffers == old(buffers)[id := native.value]
                               && nextBufferId == old(nextBufferId) + 1
      ensures native.None? ==> id == InvalidBufferId && buffers == old(buffers) && nextBufferId == old(nextBufferId)
    {
      var flags := MemFlagsFor(bufferType, hostData);
      log := log + [ClCreateBuffer(computeContext, flags, bytesSize, hostData)];
      if native.None? {
        return InvalidBufferId;
      }
      id := nextBufferId;
      buffers := buffers[nextBufferId := native.value];
      nextBufferId := nextBufferId + 1;
    }

    /** `createBuffer<T>(count, ...)`: asks for sizeof(T)*count bytes. */
    method CreateTypedBuffer(native: Option<ClMem>, elemSize: nat, count: nat, hostData: HostPtr := Null,
                             bufferType: BufferType := ReadAndWrite) returns (id: BufferId)
      requires Valid()
      modifies this`buffers, this`nextBufferId, this`log
      ensures Valid()
      ensures log == old(log) + [ClCreateBuffer(computeContext, MemFlagsFor(bufferType, hostData), elemSize * count, hostData)]
      ensures native.Some? ==> && id == old(nextBufferId) && id != InvalidBufferId
                               && buffers == old(buffers)[id := native.value]
                               && nextBufferId == old(nextBufferId) + 1
      ensures native.None? ==> id == InvalidBufferId && buffers == old(buffers) && nextBufferId == old(nextBufferId)
    {
      id := CreateBuffer(native, elemSize * count, hostData, bufferType);
    }

    /** Enqueues a write into a registered buffer; an unknown handle enqueues nothing. */
    method UploadToBuffer(enqueueErr: ClInt, id: BufferId, bytesSize: nat, data: HostPtr,
                          offset: nat := 0, blocking: bool := true) returns (ok: bool)
      requires Valid()
      modifies this`log
      ensures Valid()
      ensures id !in buffers ==> !ok && log == old(log)
      ensures id in buffers ==> && ok == (enqueueErr == CL_SUCCESS)
                                && log == old(log) + [ClEnqueueWriteBuffer(computeCommands, buffers[id], blocking, offset, bytesSize, data)]
    {
      if id !in buffers {
        return false;
      }
      log := log + [ClEnqueueWriteBuffer(computeCommands, buffers[id], blocking, offset, bytesSize, data)];
      ok := enqueueErr == CL_SUCCESS;
    }

    /** Enqueues a read from a registered buffer (source spelling); an unknown handle enqueues nothing. */
    method DowloadFromBuffer(enqueueErr: ClInt, id: BufferId, bytesSize: nat, data: HostPtr,
                             offset: nat := 0, blocking: bool := true) returns (ok: bool)
      requires Valid()
      modifies this`log
      ensures Valid()
      ensures id !in buffers ==> !ok && log == old(log)
      ensures id in buffers ==> && ok == (enqueueErr == CL_SUCCESS)
                                && log == old(log) + [ClEnqueueReadBuffer(computeCommands, buffers[id], blocking, offset, bytesSize, data)]
    {
      if id !in buffers {
        return false;
      }
      log := log + [ClEnqueueReadBuffer(computeCommands, buffers[id], blocking, offset, bytesSize, data)];
      ok := enqueueErr == CL_SUCCESS;
    }

    /** `uploadArrayToBuffer<T>`: forwards sizeof(T)*count bytes. */
    method UploadArrayToBuffer(enqueueErr: ClInt, id: BufferId, elemSize: nat, count: nat, data: HostPtr,
                               offset: nat := 0, blocking: bool := true) returns (ok: bool)
      requires Valid()
      modifies this`log
      ensures Valid()
      ensures id !in buffers ==> !ok && log == old(log)
      ensures id in buffers ==> && ok == (enqueueErr == CL_SUCCESS)
                                && log == old(log) + [ClEnqueueWriteBuffer(computeCommands, buffers[id], blocking, offset, elemSize * count, data)]
    {
      ok := UploadToBuffer(enqueueErr, id, elemSize * count, data, offset, blocking);
    }

    /** `dowloadArrayFromBuffer<T>`: forwards sizeof(T)*count bytes. */
    method DowloadArrayFromBuffer(enqueueErr: ClInt, id: BufferId, elemSize: nat, count: nat, data: HostPtr,
                                  offset: nat := 0, blocking: bool := true) returns (ok: bool)
      requires Valid()
      modifies this`log
      ensures Valid()
      ensures id !in buffers ==> !ok && log == old(log)
      ensures id in buffers ==> && ok == (enqueueErr == CL_SUCCESS)
                                && log == old(log) + [ClEnqueueReadBuffer(computeCommands, buffers[id], blocking, offset, elemSize * count, data)]
    {
      ok := DowloadFromBuffer(enqueueErr, id, elemSize * count, data, offset, blocking);
    }

    /**
     * Binds one argument of `kernel` (the private setKernelArg): the size and
     * value come from `Resolve`; an unregistered handle throws before any call.
     */
    method BindArg(err: ClInt, kernel: ClKernel, arg: KernelArg, index: nat) returns (r: CallResult)
      requires Valid()
      modifies this`log
      ensures Valid()
      ensures Resolve(buffers, arg).None? ==> r == OutOfRange && log == old(log)
      ensures Resolve(buffers, arg).Some? ==>
                && r == Returned(err == CL_SUCCESS)
                && log == old(log) + [ClSetKernelArg(kernel, index, Resolve(buffers, arg).value.size,
                                                   Resolve(buffers, arg).value.value)]
    {
      var argSize: nat;
      var value: ArgValue;
      if arg.Global? {
        if arg.id !in buffers {
          return OutOfRange;
        }
        argSize := SizeofClMem;
        value := MemObject(buffers[arg.id]);
      } else {
        argSize := arg.byteSize;
        value := HostData(arg.Data());
      }
      log := log + [ClSetKernelArg(kernel, index, argSize, value)];
      r := Returned(err == CL_SUCCESS);
    }

    /** The public setKernelArg: binds one argument of a prepared kernel by name. */
    method SetKernelArgByName(err: ClInt, kernelName: string, arg: KernelArg, index: nat) returns (r: CallResult)
      requires Valid()
      modifies this`log
      ensures Valid()
      ensures kernelName !in kernels ==> r == Returned(false) && log == old(log)
      ensures kernelName in kernels && Resolve(buffers, arg).None? ==> r == OutOfRange && log == old(log)
      ensures kernelName in kernels && Resolve(buffers, arg).Some? ==>
                && r == Returned(err == CL_SUCCESS)
                && log == old(log) + [ClSetKernelArg(kernels[kernelName].kernel, index,
                                                   Resolve(buffers, arg).value.size, Resolve(buffers, arg).value.value)]
    {
      if kernelName !in kernels {
        return Returned(false);
      }
      r := BindArg(err, kernels[kernelName].kernel, arg, index);
    }

    /** Dispatches a prepared kernel with the given arguments, as `DispatchSpec` describes. */
    method DispatchKernel(argErr: nat -> ClInt, enqueueErr: ClInt, kernelName: string, range: NDRange,
                          args: seq<KernelArg>) returns (r: CallResult)
      requires Valid()
      modifies this`log
      ensures Valid()
      ensures var run := DispatchSpec(kernels, buffers, computeCommands, kernelName, range, args, argErr, enqueueErr);
        r == run.result && log == old(log) + run.calls
    {
      if kernelName !in kernels {
        return Returned(false);
      }
      var kernel := kernels[kernelName].kernel;
      if |args| != 0 {
        var allOk := true;
        var i := 0;
        while i < |args|
          invariant 0 <= i <= |args|
          invariant Valid()
          invariant |old(log)| <= |log| && log[..|old(log)|] == old(log)
          invariant BindLoop(buffers, kernel, args, argErr, i) == BindState(allOk, false, log[|old(log)|..])
        {
          var bound := BindArg(argErr(i), kernel, args[i], i);
          if bound.OutOfRange? {
            BindLoopStaysThrown(buffers, kernel, args, argErr, i + 1, |args|);
            assert log == old(log) + log[|old(log)|..];
            return OutOfRange;
          }
          allOk := allOk && bound.ok;
          i := i + 1;
          assert log[|old(log)|..] == BindLoop(buffers, kernel, args, argErr, i).calls;
        }
        assert log == old(log) + log[|old(log)|..];
        if !allOk {
          return Returned(false);
        }
      }
      log := log + [ClEnqueueNDRangeKernel(computeCommands, kernel, range)];
      r := Returned(enqueueErr == CL_SUCCESS);
    }

    /** `dispatchKernel(name, range)`: a dispatch without arguments. */
    method DispatchKernelNoArgs(enqueueErr: ClInt, kernelName: string, range: NDRange) returns (r: CallResult)
      requires Valid()
      modifies this`log
      ensures Valid()
      ensures kernelName !in kernels ==> r == Returned(false) && log == old(log)
      ensures kernelName in kernels ==>
                r == Returned(enqueueErr == CL_SUCCESS) &&
                log == old(log) + [ClEnqueueNDRangeKernel(computeCommands, kernels[kernelName].kernel, range)]
    {
      r := DispatchKernel(_ => CL_SUCCESS, enqueueErr, kernelName, range, []);
    }

    /** First loop of the destructor: releases every registered kernel. */
    method ReleaseKernels() returns (ghost order: seq<string>)
      requires Valid()
      modifies this`kernels, this`log, this`liveKernels
      ensures Valid() && kernels == map[]
      ensures Distinct(order) && |order| == |old(kernels)|
      ensures forall name :: name in old(kernels) <==> name in order
      ensures liveKernels == old(liveKernels) - |old(kernels)|
      ensures log == old(log) + KernelReleases(old(kernels), order)
    {
      order := [];
      var remaining := kernels.Keys;
      while remaining != {}
        invariant kernels == old(kernels) && liveKernels == old(liveKernels)
        invariant remaining <= kernels.Keys
        invariant forall name :: name in order <==> name in kernels && name !in remaining
        invariant Distinct(order)
        invariant log == old(log) + KernelReleases(kernels, order)
        decreases remaining
      {
        var name :| name in remaining;
        log := log + [ClReleaseKernel(kernels[name].kernel)];
        assert (order + [name])[..|order|] == order;
        order := order + [name];
        remaining := remaining - {name};
      }
      assert (set name | name in order) == kernels.Keys;
      DistinctElements(order);
      liveKernels := liveKernels - |order|;
      kernels := map[];
    }

    /** Second loop of the destructor: releases every registered buffer. */
    method ReleaseBuffers() returns (ghost order: seq<BufferId>)
      requires Valid()
      modifies this`buffers, this`log
      ensures Valid() && buffers == map[]
      ensures Distinct(order) && |order| == |old(buffers)|
      ensures forall id :: id in old(buffers) <==> id in order
      ensures log == old(log) + BufferReleases(old(buffers), order)
    {
      order := [];
      var remaining := buffers.Keys;
      while remaining != {}
        invariant buffers == old(buffers)
        invariant remaining <= buffers.Keys
        invariant forall id :: id in order <==> id in buffers && id !in remaining
        invariant Distinct(order)
        invariant log == old(log) + BufferReleases(buffers, order)
        decreases remaining
      {
        var id :| id in remaining;
        log := log + [ClReleaseMemObject(buffers[id])];
        assert (order + [id])[..|order|] == order;
        order := order + [id];
        remaining := remaining - {id};
      }
      assert (set id: BufferId | id in order) == buffers.Keys;
      DistinctElements(order);
      buffers := map[];
    }

    /**
     * The destructor: releases every registered kernel and buffer (in the
     * maps' unspecified order), then the queue and context if present. The
     * program is not released, and kernels leaked earlier stay live.
     */
    method Destroy() returns (ghost kernelOrder: seq<string>, ghost bufferOrder: seq<BufferId>)
      requires Valid()
      modifies this`kernels, this`buffers, this`log, this`liveKernels
      ensures kernels == map[] && buffers == map[]
      ensures Distinct(kernelOrder) && |kernelOrder| == |old(kernels)|
      ensures forall name :: name in old(kernels) <==> name in kernelOrder
      ensures Distinct(bufferOrder) && |bufferOrder| == |old(buffers)|
      ensures forall id :: id in old(buffers) <==> id in bufferOrder
      ensures liveKernels == old(liveKernels) - |old(kernels)| == old(LeakedKernels())
      ensures log == old(log) + KernelReleases(old(kernels), kernelOrder) + BufferReleases(old(buffers), bufferOrder)
                     + (if computeCommands.Some? then [ClReleaseCommandQueue(computeCommands.value)] else [])
                     + (if computeContext.Some? then [ClReleaseContext(computeContext.value)] else [])
    {
      kernelOrder := ReleaseKernels();
      bufferOrder := ReleaseBuffers();
      if computeCommands.Some? {
        log := log + [ClReleaseCommandQueue(computeCommands.value)];
      }
      if computeContext.Some? {
        log := log + [ClReleaseContext(computeContext.value)];
      }
    }
  }
}
