# RealTimeRayTracing — compute-context wrapper, ray-tracer dispatch, checkerboard fill

A Dafny model of the parts of RealTimeRayTracing that decide what reaches the
GPU driver:

- **`ClTypes`** (`cltypes.dfy`): the public value types of the compute-context
  wrapper. These are `DeviceType`, `BufferType`, `NDRange` with its all-zero
  default, the `BufferId` handle, and the `KernelArg` descriptor with its
  constructors and `getShared`.
- **`OpenCL`** (`opencl.dfy`): the slice of the OpenCL 1.2 C API the wrapper
  uses. It holds the status codes, the memory and device-type flag bits and
  the opaque native objects.
- **`ClWrapper`** (`clwrapper.dfy`): `CLContextWrapper` as a class.
  - Its fields are the buffer registry (handle to `cl_mem`, handles counted
    from 1), the kernel registry (name to kernel and work-group size) and the
    native context, queue, device and program.
  - It keeps a `log` of the driver calls it issues, and a ghost count of live
    native kernels to track leaks.
  - Every driver answer is a parameter.
  - The pure parts are functions: `getError`, the memory-flag choice, argument
    resolution, and the binding loop of `dispatchKernel`.
- **`RayTracing`** (`raytracing.dfy`): the `RayTracing` class.
  - The constructor sets up context, shared texture, scene buffers, program and
    kernels. `update` issues the shading dispatch and, inside the interop
    bracket, the draw dispatch.
  - Both are recorded as a trace of wrapper calls.
  - Lemmas replay the frame's dispatches through the wrapper model to show the
    native bindings they produce.
- **`GLView`** (`glview.dfy`): the placeholder checkerboard texture of
  `GLView::initializeGL`. It is filled in place in an RGBA byte array, and
  proved equal to a row-by-row specification and correct pixel by pixel.

Driver calls, file reads and GL calls are not executed by the model. Each
answer they would give is an input: a parameter of the method that makes the
call, or a field of an answers record. The model then states which calls are
issued, in which order, and how the wrapper's state changes for every possible
answer.

Where the wrapper's header and its implementation disagree, the model follows
the implementation:

- `BufferId` is a counter starting at 1, with 0 meaning "no buffer", as
  `createBuffer` uses it; the header declares it a pointer.
- A `KernelArg` carries a tag: a registry buffer (`Global`), inline bytes
  (`Inline`) or local scratch (`Shared`). The implementation reads the tag in
  the private `setKernelArg`; the header has no such field. The model reads a
  pointer to a `BufferId` handed to `KernelArg(T*)`, as in the ray tracer's
  frame arguments, as a registry reference (`Global`).
- `createBufferWithBytes`, declared in the header, is identified by its
  signature with `createBuffer(bytesSize, hostData, type)`, which the
  implementation file defines but the header does not declare.

## Model

| member | source | states |
|---|---|---|
| ClTypes.DefaultNDRange | clcontextwrapper.h:32-38 | the default range has no dimensions and every global, local and offset entry is 0 |
| ClTypes.KernelArg.Data | clcontextwrapper.h:61-81 | a scratch request carries a null data pointer; an inline argument carries the pointer it was built with |
| ClTypes.ArgFromPointer | clcontextwrapper.h:66-70 | `KernelArg(T*)` is an inline argument of sizeof(T) bytes pointing at that scalar |
| ClTypes.ArgFromBytes | clcontextwrapper.h:72-75 | `KernelArg(data, size)` is an inline argument of exactly `size` bytes at `data` |
| ClTypes.GetShared | clcontextwrapper.h:77-80 | `getShared(size)` is a non-buffer argument of `size` bytes with null data |
| ClWrapper.NatToString | clcontextwrapper.cpp:99 | the decimal text of a number is a non-empty string of digits without a leading zero, and read most significant digit first it denotes that number |
| ClWrapper.IntToString | clcontextwrapper.cpp:99 | `std::to_string` of an int starts with '-' exactly when the value is negative; the digits after the sign (or the whole text, for a non-negative value) have no leading zero and denote the magnitude, which fixes the text for every value |
| ClWrapper.NatToStringInjective | clcontextwrapper.cpp:99 | different naturals have different decimal text |
| ClWrapper.IntToStringInjective | clcontextwrapper.cpp:99 | different ints have different `std::to_string` text |
| ClWrapper.GetError | clcontextwrapper.cpp:62-103 | the text is "Success" exactly for CL_SUCCESS; it starts with 'E' (the "Erro number :" fallback) exactly for codes without a name of their own |
| ClWrapper.GetErrorInjective | clcontextwrapper.cpp:62-103 | distinct status codes always give distinct messages, named or numeric |
| ClWrapper.ClDeviceTypeFor | clcontextwrapper.cpp:166 | the GPU device class is requested exactly for GPU_DEVICE; CPU_DEVICE and NONE both ask for a CPU |
| ClWrapper.MemFlagsFor | clcontextwrapper.cpp:306-326 | exactly one access bit is set, the one of the buffer type; COPY_HOST_PTR is set exactly when host data is given; no other bit is set |
| ClWrapper.Resolve | clcontextwrapper.cpp:34-46 | a buffer argument binds sizeof(cl_mem) bytes of the registered memory object, and has no binding exactly when its handle is unregistered (where `buffers.at` throws); any other argument binds its own size and data pointer |
| ClWrapper.GetSharedBindsLikeNullPointer | clcontextwrapper.h:77-80 | `getShared(size)` binds exactly like `KernelArg(nullptr, size)`: size bytes, no data |
| ClWrapper.PointerArgBindsItsScalar | clcontextwrapper.h:66-70 | `KernelArg(T*)` binds sizeof(T) bytes read from the pointed-to scalar |
| ClWrapper.BindLoopSpec | clcontextwrapper.cpp:418-435 | the binding loop throws exactly when some argument names an unregistered handle, after binding every argument before the first such one. Otherwise it binds every index in order with its resolved size and value, and reports success exactly when every clSetKernelArg succeeded; a failed index does not stop later ones |
| ClWrapper.BindLoopStaysThrown | clcontextwrapper.cpp:418-435 | once a lookup has thrown, later indices issue no calls and change nothing |
| ClWrapper.DispatchEnqueuesIffAllBound | clcontextwrapper.cpp:403-454 | an unknown kernel name fails before binding anything; the kernel is enqueued exactly when it is prepared and every argument is registered and bound successfully; the result is `true` exactly when the enqueue was issued and succeeded |
| ClWrapper.DispatchAttemptsEveryArgument | clcontextwrapper.cpp:418-435 | with a prepared kernel and only registered handles, argument k is bound k-th, whatever the other bindings returned |
| ClWrapper.DispatchIgnoresRangeShape | clcontextwrapper.cpp:407 | the outcome of a dispatch does not depend on the range: global and local sizes are never checked against each other |
| ClWrapper.ContextWrapper.constructor | clcontextwrapper.cpp:105-109 | a new wrapper has no context, empty registries, an empty log and next buffer handle 1 |
| ClWrapper.ContextWrapper.HasCreatedContext | clcontextwrapper.cpp:222-225 | reports the created flag, which implies context, queue and device are all present |
| ClWrapper.ContextWrapper.CreateContext | clcontextwrapper.cpp:135-220 | a second call fails and changes nothing. A first call issues device query, context creation and queue creation up to the first failing step, and succeeds exactly when all succeed; only then is the flag set. A context created before a failed queue creation is kept. The registries are untouched |
| ClWrapper.ContextWrapper.CreateProgramFromSource | clcontextwrapper.cpp:227-257 | stores whatever program the driver returned; fails exactly when creation failed; builds only after a successful creation; a failed build still returns true (`EXIT_FAILURE` converted to bool) |
| ClWrapper.ContextWrapper.PrepareKernel | clcontextwrapper.cpp:260-291 | succeeds exactly when creation and the work-group query both succeed, then inserts or overwrites the name with the kernel and its size. A replaced kernel, and a kernel that was created but then rejected (by its error code or by a failed work-group query), are leaked (live but unreachable), and nothing else is |
| ClWrapper.ContextWrapper.GetWorkGroupSize | clcontextwrapper.cpp:293-301 | the cached work-group size of a prepared kernel, 0 for an unknown name |
| ClWrapper.ContextWrapper.CreateBuffer | clcontextwrapper.cpp:304-339 | issues one clCreateBuffer with the flags of `MemFlagsFor`. On success it returns the counter's value, which is never 0 and not yet in use, registers the new object under it and advances the counter; on failure it returns 0 and changes nothing else |
| ClWrapper.ContextWrapper.CreateTypedBuffer | clcontextwrapper.h:125-129 | `createBuffer<T>(count)` asks for sizeof(T)*count bytes, with `CreateBuffer`'s outcome |
| ClWrapper.ContextWrapper.UploadToBuffer | clcontextwrapper.cpp:341-367 | an unknown handle fails without a driver call; otherwise one write of the given size, offset and blocking mode is enqueued on the registered object, and the result is the driver's success |
| ClWrapper.ContextWrapper.DowloadFromBuffer | clcontextwrapper.cpp:370-396 | an unknown handle fails without a driver call; otherwise one read of the given size, offset and blocking mode is enqueued on the registered object, and the result is the driver's success |
| ClWrapper.ContextWrapper.UploadArrayToBuffer | clcontextwrapper.h:133-137 | forwards sizeof(T)*count bytes to `UploadToBuffer` |
| ClWrapper.ContextWrapper.DowloadArrayFromBuffer | clcontextwrapper.h:141-145 | forwards sizeof(T)*count bytes to `DowloadFromBuffer` |
| ClWrapper.ContextWrapper.BindArg | clcontextwrapper.cpp:34-59 | an unregistered buffer handle throws before any driver call; otherwise one clSetKernelArg with the resolved size and value, returning whether the driver succeeded |
| ClWrapper.ContextWrapper.SetKernelArgByName | clcontextwrapper.cpp:456-466 | an unknown kernel name fails without a driver call; otherwise as `BindArg` on that kernel |
| ClWrapper.ContextWrapper.DispatchKernel | clcontextwrapper.cpp:403-454 | the loop's result and the calls it issues are exactly those of `DispatchSpec`; with `DispatchEnqueuesIffAllBound` and `BindLoopSpec`, the kernel is enqueued only after all arguments are bound successfully |
| ClWrapper.ContextWrapper.DispatchKernelNoArgs | clcontextwrapper.cpp:398-401 | an unknown name fails without a call; otherwise the kernel is enqueued directly, and the result is the enqueue's success |
| ClWrapper.ContextWrapper.ReleaseKernels | clcontextwrapper.cpp:114-117 | releases every registered kernel exactly once, in some order, and empties the kernel registry |
| ClWrapper.ContextWrapper.ReleaseBuffers | clcontextwrapper.cpp:118-121 | releases every registered memory object exactly once, in some order, and empties the buffer registry |
| ClWrapper.ContextWrapper.Destroy | clcontextwrapper.cpp:111-133 | releases every kernel, then every buffer, then the queue and the context if present; the program is never released, and exactly the kernels leaked earlier stay live |
| RayTracing.FrameRange | raytracing.cpp:81-88 | the frame range is two-dimensional over the texture size, in localSizeX-by-localSizeY groups, with zero offset and zero third entries |
| RayTracing.RayTracer.constructor | raytracing.cpp:9-65 | the wrapper calls of setup, ending after context creation if it fails or no context exists. Otherwise the texture is shared write-only, the three scene arrays are uploaded read-only, the colour buffer is allocated, and the program and both kernels are prepared when the kernel file is read. The handles and counts kept are those returned, the wrapper's created-context flag is kept as setup read it, and the local size is 16 by 16 |
| RayTracing.RayTracer.Update | raytracing.cpp:69-110 | with the created flag setup left false, the trace is unchanged; otherwise the shading dispatch with its thirteen arguments, and then, unless that dispatch threw, the draw dispatch inside the interop bracket over the shared texture, both over the frame range |
| RayTracing.RayTracer.SetEye | raytracing.cpp:112-115 | after `setEye(e)`, `getEye()` returns e |
| RayTracing.RayTracer.GetEye | raytracing.cpp:117-120 | the eye returned is the one the next frame's shading dispatch binds as its last three arguments, x, y, z in that order |
| RayTracing.SetupStopsWithoutContext | raytracing.cpp:17-31 | without a created context, setup issues only the context creation and prepares no kernel |
| RayTracing.SetupBuffers | raytracing.cpp:33-48 | the texture is shared write-only; spheres, planes and lights are uploaded read-only in that order; the colour buffer is 16 bytes per texel, read-write, with no host data, and so gets exactly CL_MEM_READ_WRITE |
| RayTracing.FrameKernelsArePrepared | raytracing.cpp:50-65 | a frame dispatches exactly the shading and draw kernels. Setup prepares exactly those two when the context exists and the kernel file is read, and none otherwise |
| RayTracing.FrameBindsHeldHandles | raytracing.cpp:95-109 | a complete frame binds exactly the five handles the tracer holds (colour, spheres, planes, lights, shared texture), and none without a context |
| RayTracing.ShadingDispatchBindings | raytracing.cpp:95-102 | with the kernel prepared and the four buffers registered, the shading dispatch binds all thirteen arguments in order. Buffers bind 8-byte memory objects; the counts, iterations and eye bind 4 bytes each from their variables; the scratch requests bind 16384 and 32×lights bytes with no data |
| RayTracing.ShadingDispatchThrowsWithoutColourBuffer | raytracing.cpp:95-102 | if the colour buffer is unregistered (its allocation returned 0), the shading dispatch throws at argument 0 before any binding |
| RayTracing.FrameStopsWithoutColourBuffer | raytracing.cpp:95-109 | with the colour buffer unregistered, the frame is the shading dispatch alone: the exception skips the interop bracket and the draw kernel |
| RayTracing.DrawDispatchBindings | raytracing.cpp:105-109 | the draw dispatch binds the shared texture's object at index 0 and the colour buffer's at 1, and enqueues exactly when both bindings succeed |
| GLView.IsLightTile | glview.cpp:111-116 | a pixel is on a light tile exactly when its two 40-pixel tile coordinates have the same parity |
| GLView.PixelColour | glview.cpp:116-129 | every pixel is opaque with blue 128; red and green are 128 on light tiles and 0 on dark ones |
| GLView.ByteIndexInjective | glview.cpp:114-128 | distinct (row, column, channel) triples are written at distinct offsets |
| GLView.ByteIndexCovers | glview.cpp:103-131 | every byte of the `4*w*h`-byte array belongs to some pixel and channel, so the loops write all of it |
| GLView.ByteIndexBounds | glview.cpp:114-128 | every write of the loops stays inside the array |
| GLView.CheckerboardPixel | glview.cpp:103-131 | in the filled texture, byte c of pixel (i, j) is channel c of that pixel's colour |
| GLView.CheckerboardAlphaAndBlue | glview.cpp:118-128 | every pixel's alpha byte is 255 and its blue byte 128 |
| GLView.FillCheckerboard | glview.cpp:103-131 | after the two loops, the array is exactly the row-by-row checkerboard |
| GLView.FillRow | glview.cpp:109-130 | after the inner loop over row i, the array up to the end of that row is the rows above followed by row i's pixels |
| GLView.PaintPixel | glview.cpp:111-129 | the loop body writes exactly the four bytes of pixel (i, j), with that pixel's colour, and leaves every other byte alone |
| GLView.InitializeTexture | glview.cpp:98-149 | with a non-zero generated texture id, the checkerboard is filled and uploaded; the init callback, when set, runs afterwards either way |

## Left out

- The OpenCL and OpenGL drivers: every native call's answer is an input (a parameter or an answers record). Driver-side effects, such as data actually copied or kernels actually run, are not modelled.
- Console output (`std::cout`) and the text of log messages other than `getError`'s.
- Status queries are not recorded in the wrapper's log: clGetPlatformIDs, clGetDeviceInfo, clGetKernelWorkGroupInfo and clGetProgramBuildInfo. Only their outcome is an input.
- `listAvailablePlatforms`: a static query of platform vendor names, called only from `MainWindow::_testOpenCL`, which nothing calls. It is left out. As written, its outer loop repeats the whole query once per platform, so it returns n² names for n platforms, and it never frees the platform array it allocates on each pass.
- `createContextWithOpengl`, `shareGLTexture`, `executeSafeAndSyncronized`, `getMaxWorkGroupSize`, `getContextDeviceType`, `finish` and `createBufferFromArray` are declared in the header or called by the ray tracer, but have no definition in the implementation file. The ray tracer's trace records its calls to `createContextWithOpengl`, `shareGLTexture`, `createBufferFromArray` and `executeSafeAndSyncronized`, with their answers as inputs. Its call to `getMaxWorkGroupSize` only feeds console output and is not recorded; `getContextDeviceType` and `finish` are never called.
- ClWrapper.ContextWrapper.constructor: the native context, queue, device and program of the C++ private struct are left indeterminate by `new` without initialisation; the model starts them as absent (`None`).
- RayTracing.RayTracer.constructor: fields the C++ constructor leaves uninitialised on its early returns start as 0 in the model. The eye is left to `glm::vec3`'s default constructor, which zero-fills only in some GLM versions and configurations; the model chooses to start it at zero.
- The null `_clContext` guard in `update` is not modelled. The constructor always creates the wrapper, so the guard cannot fire.
- Fixed-width integers: `int` texture sizes, the `static_cast<int>` of scene sizes, `size_t` products and `cl_uint` indices are unbounded naturals. Overflow, negative texture sizes and negative argument indices are not modelled. The public `setKernelArg` takes an `int` index and casts it to `cl_uint`, while BindArg and SetKernelArgByName take a natural.
- Platform sizes are fixed: `sizeof(cl_mem)` is 8, as on a 64-bit host, and `sizeof(int)` and `sizeof(float)` are 4. The byte sizes in ShadingBindSizes and in the binding lemmas depend on these values.
- Floating point: the eye and the scene records (spheres, planes, lights) are `real` values or opaque records that are only copied. Their layout, and the kernels' arithmetic, are not modelled.
- The thrown `std::out_of_range` of `buffers.at` on an unknown handle is the outcome `OutOfRange`. RayTracing.RayTracer.Update ends the frame when its shading dispatch throws; what the exception does beyond `update` (the caller, the render loop) is not modelled.
- The iteration order of the `unordered_map`s in the destructor is unspecified. ReleaseKernels, ReleaseBuffers and Destroy return that order as a ghost value and prove it visits every entry exactly once.
- GLView.FillRow: its contract states only the array prefix up to the end of the row, not that later bytes are unchanged. `FillCheckerboard` needs only the prefix, because it overwrites every later row.
- The rest of `initializeGL` (viewport, clear colour, texture parameters), `paintGL`, `resizeGL`, the Qt window and timer, the scene loader, `main` and the camera controls are outside this model.
- Concurrency: the interop bracket's locking and the blocking or non-blocking transfers are recorded as flags and brackets, not as interleavings.
