/**
 * The slice of the OpenCL 1.2 C API the wrapper talks to: status codes, memory
 * and device-type flag bits (values as in the Khronos `cl.h` header), and the
 * opaque native objects the driver hands out. The driver itself is not
 * modelled: every call's answer reaches the model as a parameter.
 */
module OpenCL {

  datatype Option<T> = None | Some(value: T)

  /** `cl_int` status codes; zero is success, anything else an error. */
  type ClInt = int

  const CL_SUCCESS: ClInt := 0
  const CL_DEVICE_NOT_FOUND: ClInt := -1
  const CL_MEM_OBJECT_ALLOCATION_FAILURE: ClInt := -4
  const CL_OUT_OF_HOST_MEMORY: ClInt := -6
  const CL_INVALID_VALUE: ClInt := -30
  const CL_INVALID_DEVICE_TYPE: ClInt := -31
  const CL_INVALID_PLATFORM: ClInt := -32
  const CL_INVALID_CONTEXT: ClInt := -34
  const CL_INVALID_COMMAND_QUEUE: ClInt := -36
  const CL_INVALID_HOST_PTR: ClInt := -37
  const CL_INVALID_PROGRAM_EXECUTABLE: ClInt := -45
  const CL_INVALID_KERNEL: ClInt := -48
  const CL_INVALID_KERNEL_ARGS: ClInt := -52
  const CL_INVALID_WORK_DIMENSION: ClInt := -53
  const CL_INVALID_BUFFER_SIZE: ClInt := -61

  /** `cl_mem_flags` bits (a 64-bit bitfield). */
  type MemFlags = bv64

  const CL_MEM_READ_WRITE: MemFlags := 1
  const CL_MEM_WRITE_ONLY: MemFlags := 2
  const CL_MEM_READ_ONLY: MemFlags := 4
  const CL_MEM_COPY_HOST_PTR: MemFlags := 32

  /** `cl_device_type` bits. */
  type ClDeviceType = bv64

  const CL_DEVICE_TYPE_CPU: ClDeviceType := 2
  const CL_DEVICE_TYPE_GPU: ClDeviceType := 4

  /** `sizeof(cl_mem)`: a pointer on a 64-bit host. */
  const SizeofClMem: nat := 8

  // Opaque native objects; `ref` only tells two of them apart.
  datatype ClPlatform = ClPlatform(ref: nat)
  datatype ClDevice = ClDevice(ref: nat)
  datatype ClContext = ClContext(ref: nat)
  datatype ClQueue = ClQueue(ref: nat)
  datatype ClProgram = ClProgram(ref: nat)
  datatype ClKernel = ClKernel(ref: nat)
  datatype ClMem = ClMem(ref: nat)
}
