/**
 * The ray tracer's use of the compute-context wrapper: the setup done by its
 * constructor (context, shared texture, scene buffers, program and kernels)
 * and the two-stage dispatch issued once per frame. The object records the
 * wrapper calls it issues in `trace`; what the wrapper answers reaches it as
 * a parameter. The lemmas at the end replay the frame's dispatches through
 * the wrapper model to show which native bindings they produce.
 */
module RayTracing {
  import opened OpenCL
  import opened ClTypes
  import ClWrapper

  datatype Vec3 = Vec3(x: real, y: real, z: real)

  /** One scene record (sphere, plane or light); its float layout is not modelled. */
  datatype Drawable = Drawable(ref: nat)

  datatype Scene = Scene(spheres: seq<Drawable>, planes: seq<Drawable>, lights: seq<Drawable>)

  /**
   * The wrapper calls the ray tracer issues, in the order it issues them.
   * Queries that only report state (`hasCreatedContext`, `getMaxWorkGroupSize`)
   * are not recorded. `ExecuteSafeAndSynchronized` is the interop bracket: the
   * calls in `work` run while the handles in `locked` are acquired.
   */
  datatype WrapperCall =
    | CreateContextWithOpengl
    | ShareGLTexture(texture: nat, mode: BufferType)
    | CreateBufferFromArray(records: seq<Drawable>, mode: BufferType)
    | CreateBuffer(bytesSize: nat, hostData: HostPtr, mode: BufferType)
    | CreateProgramFromSource(source: string)
    | PrepareKernel(name: string)
    | DispatchKernel(name: string, range: NDRange, args: seq<KernelArg>)
    | ExecuteSafeAndSynchronized(locked: seq<BufferId>, work: seq<WrapperCall>)

  const ShadingKernel: string := "rayTracingKernel"
  const DrawKernel: string := "drawToTextureKernel"

  /** Work-group edge set by the constructor, in both dimensions. */
  const LocalSize: nat := 16

  /** Bounce count handed to the shading kernel. */
  const Iterations: int := 6

  /**
   * What the setup learns from outside: the wrapper's answers (context
   * creation, the context-created query, the handles it returns) and the
   * kernel source file's text, `None` when the file cannot be opened.
   */
  datatype SetupAnswers = SetupAnswers(
    contextCreated: bool,
    hasCreatedContext: bool,
    sharedTexture: BufferId,
    spheresBuffer: BufferId,
    planesBuffer: BufferId,
    lightsBuffer: BufferId,
    tempBuffer: BufferId,
    kernelSource: Option<string>)

  predicate ContextReady(a: SetupAnswers)
  {
    a.contextCreated && a.hasCreatedContext
  }

  /** Bytes of the intermediate colour buffer: four floats per texel. */
  function TempBufferBytes(width: nat, height: nat): nat
  {
    4 * SizeofFloat * width * height
  }

  /** Bytes of the per-work-group colour scratch: sixteen floats per work item. */
  function LocalTempSize(localX: nat, localY: nat): nat
  {
    SizeofFloat * 16 * localX * localY
  }

  /** Bytes of the per-work-group light scratch: eight floats per light. */
  function LocalLightSize(numLights: nat): nat
  {
    SizeofFloat * 8 * numLights
  }

  /** The wrapper calls of the constructor, up to the step where it gives up. */
  function SetupTrace(a: SetupAnswers, scene: Scene, glTexture: nat, width: nat, height: nat): seq<WrapperCall>
  {
    [CreateContextWithOpengl]
    + (if !ContextReady(a) then []
       else [ShareGLTexture(glTexture, WriteOnly),
             CreateBufferFromArray(scene.spheres, ReadOnly),
             CreateBufferFromArray(scene.planes, ReadOnly),
             CreateBufferFromArray(scene.lights, ReadOnly),
             CreateBuffer(TempBufferBytes(width, height), Null, ReadAndWrite)]
            + (if a.kernelSource.None? then []
               else [CreateProgramFromSource(a.kernelSource.value),
                     PrepareKernel(ShadingKernel),
                     PrepareKernel(DrawKernel)]))
  }

  /** Everything a frame reads from the ray tracer. */
  datatype FrameState = FrameState(
    sharedTexture: BufferId,
    spheres: BufferId, numSpheres: nat,
    planes: BufferId, numPlanes: nat,
    lights: BufferId, numLights: nat,
    temp: BufferId,
    eye: Vec3,
    width: nat, height: nat,
    localX: nat, localY: nat)

  /** The frame's range: two dimensions over the texture, in localX-by-localY groups, no offset. */
  function FrameRange(s: FrameState): (r: NDRange)
    ensures r.workDim == 2
    ensures r.globalSize == [s.width, s.height, 0]
    ensures r.localSize == [s.localX, s.localY, 0]
    ensures r.globalOffset == [0, 0, 0]
  {
    var d := DefaultNDRange();
    NDRange(2, d.globalSize[0 := s.width][1 := s.height], d.localSize[0 := s.localX][1 := s.localY],
            d.globalOffset[0 := 0][1 := 0])
  }

  /** The thirteen arguments of the shading kernel, in binding order. */
  function ShadingArgs(s: FrameState): seq<KernelArg>
  {
    [Global(s.temp),
     Global(s.spheres), ArgFromPointer(CInt(s.numSpheres)),
     Global(s.planes), ArgFromPointer(CInt(s.numPlanes)),
     Global(s.lights), ArgFromPointer(CInt(s.numLights)),
     GetShared(LocalTempSize(s.localX, s.localY)),
     GetShared(LocalLightSize(s.numLights)),
     ArgFromPointer(CInt(Iterations)),
     ArgFromPointer(CFloat(s.eye.x)), ArgFromPointer(CFloat(s.eye.y)), ArgFromPointer(CFloat(s.eye.z))]
  }

  /** The arguments of the draw kernel: the shared texture, then the colour buffer. */
  function DrawArgs(s: FrameState): seq<KernelArg>
  {
    [Global(s.sharedTexture), Global(s.temp)]
  }

  /**
   * The wrapper calls of one frame: nothing without a created context;
   * otherwise the shading dispatch, then the draw dispatch inside the interop
   * bracket over the shared texture alone. The draw dispatch does not depend
   * on whether the shading dispatch returned true or false, but when the
   * shading dispatch throws (`shadingThrew`) the frame ends there.
   */
  function FrameCalls(created: bool, shadingThrew: bool, s: FrameState): seq<WrapperCall>
  {
    if !created then []
    else [DispatchKernel(ShadingKernel, FrameRange(s), ShadingArgs(s))]
         + (if shadingThrew then []
            else [ExecuteSafeAndSynchronized([s.sharedTexture], [DispatchKernel(DrawKernel, FrameRange(s), DrawArgs(s))])])
  }

  /** The kernel names a list of calls prepares. */
  function PreparedNames(calls: seq<WrapperCall>): set<string>
  {
    set k | 0 <= k < |calls| && calls[k].PrepareKernel? :: calls[k].name
  }

  /** The kernel names a list of calls dispatches, inside brackets or not. */
  function DispatchedNames(calls: seq<WrapperCall>): set<string>
    decreases calls
  {
    if calls == [] then {}
    else
      var here := match calls[0]
        case DispatchKernel(name, _, _) => {name}
        case ExecuteSafeAndSynchronized(_, work) => DispatchedNames(work)
        case _ => {};
      here + DispatchedNames(calls[1..])
  }

  /** The buffer handles a list of calls binds as kernel arguments, inside brackets or not. */
  function BoundHandles(calls: seq<WrapperCall>): set<BufferId>
    decreases calls
  {
    if calls == [] then {}
    else
      var here := match calls[0]
        case DispatchKernel(_, _, args) => set k | 0 <= k < |args| && args[k].Global? :: args[k].id
        case ExecuteSafeAndSynchronized(_, work) => BoundHandles(work)
        case _ => {};
      here + BoundHandles(calls[1..])
  }

  class RayTracer {
    var glTexture: nat
    var sharedTextureBufferId: BufferId
    var spheresBufferId: BufferId
    var numSpheres: nat
    var planesBufferId: BufferId
    var numPlanes: nat
    var lightsBufferId: BufferId
    var numLights: nat
    var tempColorsBufferId: BufferId
    var eye: Vec3
    var textureWidth: nat
    var textureHeight: nat
    var localSizeX: nat
    var localSizeY: nat
    /** The wrapper's created-context flag, as setup left it; nothing in the ray tracer changes it later. */
    var hasContext: bool
    /** Wrapper calls issued so far, oldest first. */
    var trace: seq<WrapperCall>

    function State(): FrameState
      reads this
    {
      FrameState(sharedTextureBufferId, spheresBufferId, numSpheres, planesBufferId, numPlanes,
                 lightsBufferId, numLights, tempColorsBufferId, eye, textureWidth, textureHeight,
                 localSizeX, localSizeY)
    }

    /**
     * Sets up the wrapper for `scene`: creates the context, gives up unless it
     * was created, then shares the texture, uploads the three scene arrays,
     * allocates the colour buffer, and, when the kernel file can be read,
     * builds the program and prepares both kernels.
     */
    constructor (a: SetupAnswers, scene: Scene, glTexture: nat, textureWidth: nat, textureHeight: nat)
      ensures this.textureWidth == textureWidth && this.textureHeight == textureHeight
      ensures localSizeX == LocalSize && localSizeY == LocalSize
      ensures trace == SetupTrace(a, scene, glTexture, textureWidth, textureHeight)
      ensures ContextReady(a) ==>
                && this.glTexture == glTexture
                && sharedTextureBufferId == a.sharedTexture
                && spheresBufferId == a.spheresBuffer && numSpheres == |scene.spheres|
                && planesBufferId == a.planesBuffer && numPlanes == |scene.planes|
                && lightsBufferId == a.lightsBuffer && numLights == |scene.lights|
                && tempColorsBufferId == a.tempBuffer
      ensures eye == Vec3(0.0, 0.0, 0.0)
      ensures hasContext == a.hasCreatedContext
    {
      this.textureWidth := textureWidth;
      this.textureHeight := textureHeight;
      localSizeX := LocalSize;
      localSizeY := LocalSize;
      eye := Vec3(0.0, 0.0, 0.0);
      this.glTexture := 0;
      sharedTextureBufferId, tempColorsBufferId := InvalidBufferId, InvalidBufferId;
      spheresBufferId, planesBufferId, lightsBufferId := InvalidBufferId, InvalidBufferId, InvalidBufferId;
      numSpheres, numPlanes, numLights := 0, 0, 0;
      hasContext := a.hasCreatedContext;
      trace := [CreateContextWithOpengl];
      new;
      if a.contextCreated && a.hasCreatedContext {
        this.glTexture := glTexture;
        sharedTextureBufferId := a.sharedTexture;
        numSpheres := |scene.spheres|;
        numPlanes := |scene.planes|;
        numLights := |scene.lights|;
        spheresBufferId := a.spheresBuffer;
        planesBufferId := a.planesBuffer;
        lightsBufferId := a.lightsBuffer;
        tempColorsBufferId := a.tempBuffer;
        trace := trace + [ShareGLTexture(this.glTexture, WriteOnly),
                          CreateBufferFromArray(scene.spheres, ReadOnly),
                          CreateBufferFromArray(scene.planes, ReadOnly),
                          CreateBufferFromArray(scene.lights, ReadOnly),
                          CreateBuffer(TempBufferBytes(this.textureWidth, this.textureHeight), Null, ReadAndWrite)];
        if a.kernelSource.Some? {
          trace := trace + [CreateProgramFromSource(a.kernelSource.value),
                            PrepareKernel(ShadingKernel),
                            PrepareKernel(DrawKernel)];
        }
      }
    }

    /**
     * Issues one frame, after asking the wrapper whether its context was
     * created; the range is filled in field by field from the default one.
     * `shading` is what the shading dispatch produced: when it threw, the
     * exception leaves the frame before the interop bracket.
     */
    method Update(shading: ClWrapper.CallResult)
      modifies this`trace
      // Without a created context FrameCalls is empty, so the trace is unchanged.
      ensures trace == old(trace) + FrameCalls(hasContext, shading.OutOfRange?, State())
    {
      if !hasContext {
        return;
      }
      var range := DefaultNDRange();
      range := range.(workDim := 2);
      var offset, global, local := range.globalOffset, range.globalSize, range.localSize;
      offset := offset[0 := 0][1 := 0];
      global := global[0 := textureWidth][1 := textureHeight];
      local := local[0 := localSizeX][1 := localSizeY];
      range := range.(globalOffset := offset, globalSize := global, localSize := local);
      var iterations := Iterations;
      var localTempSize := LocalTempSize(localSizeX, localSizeY);
      var localLightSize := LocalLightSize(numLights);
      trace := trace + [DispatchKernel(ShadingKernel, range,
                                       [Global(tempColorsBufferId),
                                        Global(spheresBufferId), ArgFromPointer(CInt(numSpheres)),
                                        Global(planesBufferId), ArgFromPointer(CInt(numPlanes)),
                                        Global(lightsBufferId), ArgFromPointer(CInt(numLights)),
                                        GetShared(localTempSize),
                                        GetShared(localLightSize),
                                        ArgFromPointer(CInt(iterations)),
                                        ArgFromPointer(CFloat(eye.x)), ArgFromPointer(CFloat(eye.y)),
                                        ArgFromPointer(CFloat(eye.z))])];
      if shading.OutOfRange? {
        return;
      }
      var draw := DispatchKernel(DrawKernel, range, [Global(sharedTextureBufferId), Global(tempColorsBufferId)]);
      trace := trace + [ExecuteSafeAndSynchronized([sharedTextureBufferId], [draw])];
    }

    /** The eye the next frame's shading dispatch binds, coordinate by coordinate. */
    function GetEye(): (e: Vec3)
      reads this
      ensures e == State().eye
      ensures ShadingArgs(State())[10..] == [ArgFromPointer(CFloat(e.x)), ArgFromPointer(CFloat(e.y)), ArgFromPointer(CFloat(e.z))]
    {
      eye
    }

    method SetEye(e: Vec3)
      modifies this`eye
      ensures GetEye() == e
    {
      eye := e;
    }
  }

  // ---------------------------------------------------------------------
  // Properties of setup and frame
  // ---------------------------------------------------------------------

  /** Without a created context the constructor shares, allocates and prepares nothing. */
  lemma SetupStopsWithoutContext(a: SetupAnswers, scene: Scene, glTexture: nat, width: nat, height: nat)
    requires !ContextReady(a)
    ensures SetupTrace(a, scene, glTexture, width, height) == [CreateContextWithOpengl]
    ensures PreparedNames(SetupTrace(a, scene, glTexture, width, height)) == {}
  {
    assert PreparedNames([CreateContextWithOpengl]) == {};
  }

  /**
   * With a created context the scene arrays are uploaded read-only in the
   * order spheres, planes, lights, the shared texture is write-only, and the
   * colour buffer holds 16 bytes per texel, read-write and without host data.
   */
  lemma SetupBuffers(a: SetupAnswers, scene: Scene, glTexture: nat, width: nat, height: nat)
    requires ContextReady(a)
    ensures var t := SetupTrace(a, scene, glTexture, width, height);
      && 6 <= |t|
      && t[1] == ShareGLTexture(glTexture, WriteOnly)
      && t[2] == CreateBufferFromArray(scene.spheres, ReadOnly)
      && t[3] == CreateBufferFromArray(scene.planes, ReadOnly)
      && t[4] == CreateBufferFromArray(scene.lights, ReadOnly)
      && t[5] == CreateBuffer(16 * width * height, Null, ReadAndWrite)
      && ClWrapper.MemFlagsFor(t[5].mode, t[5].hostData) == CL_MEM_READ_WRITE
  {
  }

  /**
   * Both kernels a frame dispatches are prepared by the setup exactly when the
   * context was created and the kernel file was read; then they are the only
   * kernels prepared.
   */
  lemma {:induction false} FrameKernelsArePrepared(a: SetupAnswers, scene: Scene, glTexture: nat,
                                                   width: nat, height: nat, s: FrameState)
    ensures DispatchedNames(FrameCalls(true, false, s)) == {ShadingKernel, DrawKernel}
    ensures var prepared := PreparedNames(SetupTrace(a, scene, glTexture, width, height));
      && (ContextReady(a) && a.kernelSource.Some? ==> prepared == {ShadingKernel, DrawKernel})
      && (!(ContextReady(a) && a.kernelSource.Some?) ==> prepared == {})
  {
    var f := FrameCalls(true, false, s);
    var draw := DispatchKernel(DrawKernel, FrameRange(s), DrawArgs(s));
    assert DispatchedNames([draw]) == {DrawKernel} by {
      assert [draw][1..] == [];
    }
    assert DispatchedNames(f[1..]) == {DrawKernel} by {
      assert f[1..][1..] == [];
    }
    var t := SetupTrace(a, scene, glTexture, width, height);
    if ContextReady(a) && a.kernelSource.Some? {
      assert t[7].PrepareKernel? && t[7].name == ShadingKernel;
      assert t[8].PrepareKernel? && t[8].name == DrawKernel;
    }
  }

  /**
   * A frame binds exactly the five handles the ray tracer holds: the four
   * buffers of the shading pass and the shared texture of the draw pass.
   */
  lemma {:induction false} FrameBindsHeldHandles(s: FrameState)
    ensures BoundHandles(FrameCalls(true, false, s)) == {s.temp, s.spheres, s.planes, s.lights, s.sharedTexture}
    ensures forall threw :: BoundHandles(FrameCalls(false, threw, s)) == {}
  {
    var f := FrameCalls(true, false, s);
    var shading := ShadingArgs(s);
    assert (set k | 0 <= k < |shading| && shading[k].Global? :: shading[k].id) == {s.temp, s.spheres, s.planes, s.lights} by {
      assert shading[0].Global? && shading[1].Global? && shading[3].Global? && shading[5].Global?;
    }
    var draw := DrawArgs(s);
    var drawCall := DispatchKernel(DrawKernel, FrameRange(s), draw);
    assert BoundHandles([drawCall]) == {s.sharedTexture, s.temp} by {
      assert (set k | 0 <= k < |draw| && draw[k].Global? :: draw[k].id) == {s.sharedTexture, s.temp} by {
        assert draw[0].Global? && draw[1].Global?;
      }
      assert [drawCall][1..] == [];
    }
    assert BoundHandles(f[1..]) == {s.sharedTexture, s.temp} by {
      assert f[1..][1..] == [];
    }
  }

  /** Bytes each shading argument binds in a frame set up by the constructor. */
  function ShadingBindSizes(numLights: nat): seq<nat>
  {
    [8, 8, 4, 8, 4, 8, 4, 16384, 32 * numLights, 4, 4, 4, 4]
  }

  /**
   * Replayed through the wrapper, with the shading kernel prepared and the
   * four buffers registered, the shading dispatch binds all thirteen
   * arguments in order: memory objects for the buffers, the three counts, the
   * two scratch requests without data, the iteration count and the eye.
   */
  lemma {:induction false} ShadingDispatchBindings(kernels: map<string, ClWrapper.KernelInfo>,
                                                   buffers: map<BufferId, ClMem>, queue: Option<ClQueue>,
                                                   s: FrameState, argErr: nat -> ClInt, enqueueErr: ClInt)
    requires ShadingKernel in kernels
    requires s.temp in buffers && s.spheres in buffers && s.planes in buffers && s.lights in buffers
    requires s.localX == LocalSize && s.localY == LocalSize
    ensures var run := ClWrapper.DispatchSpec(kernels, buffers, queue, ShadingKernel, FrameRange(s),
                                              ShadingArgs(s), argErr, enqueueErr);
      && 13 <= |run.calls|
      && (forall k :: 0 <= k < 13 ==>
            && run.calls[k].ClSetKernelArg?
            && run.calls[k].kernel == kernels[ShadingKernel].kernel
            && run.calls[k].index == k
            && run.calls[k].size == ShadingBindSizes(s.numLights)[k])
      && run.calls[0].value == ClWrapper.MemObject(buffers[s.temp])
      && run.calls[1].value == ClWrapper.MemObject(buffers[s.spheres])
      && run.calls[2].value == ClWrapper.HostData(ToScalar(CInt(s.numSpheres)))
      && run.calls[3].value == ClWrapper.MemObject(buffers[s.planes])
      && run.calls[4].value == ClWrapper.HostData(ToScalar(CInt(s.numPlanes)))
      && run.calls[5].value == ClWrapper.MemObject(buffers[s.lights])
      && run.calls[6].value == ClWrapper.HostData(ToScalar(CInt(s.numLights)))
      && run.calls[7].value == ClWrapper.HostData(Null)
      && run.calls[8].value == ClWrapper.HostData(Null)
      && run.calls[9].value == ClWrapper.HostData(ToScalar(CInt(Iterations)))
      && run.calls[10].value == ClWrapper.HostData(ToScalar(CFloat(s.eye.x)))
      && run.calls[11].value == ClWrapper.HostData(ToScalar(CFloat(s.eye.y)))
      && run.calls[12].value == ClWrapper.HostData(ToScalar(CFloat(s.eye.z)))
  {
    var args := ShadingArgs(s);
    assert forall k :: 0 <= k < |args| ==> ClWrapper.Resolve(buffers, args[k]).Some?;
    ClWrapper.DispatchAttemptsEveryArgument(kernels, buffers, queue, ShadingKernel, FrameRange(s),
                                            args, argErr, enqueueErr);
  }

  /**
   * If the colour buffer was never registered (its allocation returned the
   * sentinel 0, which the registry never holds), the shading dispatch throws
   * at its first argument before binding anything.
   */
  lemma {:induction false} ShadingDispatchThrowsWithoutColourBuffer(
    kernels: map<string, ClWrapper.KernelInfo>, buffers: map<BufferId, ClMem>, queue: Option<ClQueue>,
    s: FrameState, argErr: nat -> ClInt, enqueueErr: ClInt)
    requires ShadingKernel in kernels
    requires s.temp !in buffers
    ensures ClWrapper.DispatchSpec(kernels, buffers, queue, ShadingKernel, FrameRange(s), ShadingArgs(s), argErr, enqueueErr)
         == ClWrapper.DispatchRun(ClWrapper.OutOfRange, [])
  {
    var args := ShadingArgs(s);
    var kernel := kernels[ShadingKernel].kernel;
    assert ClWrapper.BindLoop(buffers, kernel, args, argErr, 1).threw;
    ClWrapper.BindLoopStaysThrown(buffers, kernel, args, argErr, 1, |args|);
  }

  /**
   * Replayed through the wrapper, the draw dispatch binds the shared
   * texture's memory object at index 0 and the colour buffer's at index 1,
   * and is enqueued exactly when both bindings succeed.
   */
  lemma {:induction false} DrawDispatchBindings(kernels: map<string, ClWrapper.KernelInfo>,
                                                buffers: map<BufferId, ClMem>, queue: Option<ClQueue>,
                                                s: FrameState, argErr: nat -> ClInt, enqueueErr: ClInt)
    requires DrawKernel in kernels
    requires s.sharedTexture in buffers && s.temp in buffers
    ensures var run := ClWrapper.DispatchSpec(kernels, buffers, queue, DrawKernel, FrameRange(s),
                                              DrawArgs(s), argErr, enqueueErr);
      && 2 <= |run.calls|
      && run.calls[0] == ClWrapper.ClSetKernelArg(kernels[DrawKernel].kernel, 0, SizeofClMem,
                                                  ClWrapper.MemObject(buffers[s.sharedTexture]))
      && run.calls[1] == ClWrapper.ClSetKernelArg(kernels[DrawKernel].kernel, 1, SizeofClMem,
                                                  ClWrapper.MemObject(buffers[s.temp]))
      && (ClWrapper.EnqueuesKernel(run.calls) <==> argErr(0) == CL_SUCCESS && argErr(1) == CL_SUCCESS)
  {
    var args := DrawArgs(s);
    ClWrapper.DispatchAttemptsEveryArgument(kernels, buffers, queue, DrawKernel, FrameRange(s),
                                            args, argErr, enqueueErr);
    ClWrapper.DispatchEnqueuesIffAllBound(kernels, buffers, queue, DrawKernel, FrameRange(s),
                                          args, argErr, enqueueErr);
    assert !ClWrapper.Unbindable(buffers, args[0]) && !ClWrapper.Unbindable(buffers, args[1]);
  }

  /**
   * A frame whose colour buffer was never registered ends after the shading
   * dispatch: replayed through the wrapper that dispatch throws, so neither
   * the interop bracket nor the draw dispatch is issued.
   */
  lemma FrameStopsWithoutColourBuffer(kernels: map<string, ClWrapper.KernelInfo>,
                                      buffers: map<BufferId, ClMem>, queue: Option<ClQueue>,
                                      s: FrameState, argErr: nat -> ClInt, enqueueErr: ClInt)
    requires ShadingKernel in kernels
    requires s.temp !in buffers
    ensures var run := ClWrapper.DispatchSpec(kernels, buffers, queue, ShadingKernel, FrameRange(s),
                                              ShadingArgs(s), argErr, enqueueErr);
      && FrameCalls(true, run.result.OutOfRange?, s) == [DispatchKernel(ShadingKernel, FrameRange(s), ShadingArgs(s))]
      && DispatchedNames(FrameCalls(true, run.result.OutOfRange?, s)) == {ShadingKernel}
  {
    ShadingDispatchThrowsWithoutColourBuffer(kernels, buffers, queue, s, argErr, enqueueErr);
    var only := [DispatchKernel(ShadingKernel, FrameRange(s), ShadingArgs(s))];
    assert only[1..] == [];
  }
}
