# deko3d core model

This project is a Dafny model of four pieces of the deko3d GPU driver for the
Nintendo Switch (Maxwell GPU), and of the properties they are meant to keep.

- **Memory blocks** (`mem_block.dfy`, module `MemBlock`). A `DkMemBlock`
  turns host memory into a handle that the CPU can address and that is mapped
  into the GPU address space.
  - `initialize` normalises the access flags and refuses image blocks.
  - When no storage is passed, it allocates memory that the block then owns.
  - It registers the storage with nvmap.
  - It then maps the block where the system chooses. A code block instead
    reserves a range of the code segment and is mapped there with a fixed
    mapping; if that mapping fails, the range is given back.
  - `destroy` releases, in a fixed order, what the block holds.
  - `dkMemBlockCreate` deletes a block whose initialisation failed.
  - The driver (`Device`) is a class whose calls may fail. Each call is
    appended, with its outcome, to a ghost log. A release call demands that
    the resource is live, so a verified caller never double-frees it.
- **Queue fault monitor** (`gpu_error.dfy`, module `GpuError`).
  - `checkQueueErrors` sweeps the queue table and skips empty slots.
  - `checkError` reads a queue's channel error notification. A queue that has
    faulted moves, one way, into the `Error` state.
  - On a fault, the device's completed sequence value is copied into the
    queue's CPU-visible semaphore slot, which releases anyone waiting on it.
  - The error information words are decoded by their type tag.
- **Compute job state** (`gpu_compute.dfy`, module `GpuCompute`). The compute
  queue keeps one QMD (queue meta data) and one driver constant buffer. The
  model covers:
  - the constant-buffer valid mask;
  - scratch-memory throttling and the cached SM limit;
  - the ring of job slots and the addresses of the jobs in it;
  - the per-SM scratch share.

  Emitted commands are recorded as a sequence of symbolic commands.
- **Swapchain** (`swapchain.dfy`, module `Swapchain`).
  - `findFormat` looks formats up in the format table.
  - The row pitch is rounded to whole 64-byte GOBs.
  - `initialize` configures one window buffer per image and stops at the
    first failure.
  - `dkQueueAcquireImage` and `dkQueuePresentImage` refuse to run on a queue
    in the Error state. In debug builds, present also refuses an image slot
    that is out of range.
  - The native window is an `NWindow` class whose calls may fail; each call is
    logged with its outcome.

`dk_types.dfy` (module `DkTypes`) holds what the four share:
- the 16-, 32- and 64-bit integer types, with explicit wrap-around (`Wrap32`,
  `Wrap64`);
- `DkResult`;
- the mask-based rounding `AlignDown` and `AlignUp32`, restricted to the
  power-of-two alignments the driver uses;
- small arithmetic lemmas.

`DK_ERROR` and `raiseError` are modelled as a result handed to the device's
error callback, which the model returns as `raised`. The model assumes that
the call then ends: the macro's definition is not part of this model, and the
error callback is taken not to return into the driver.

Constants from headers that are not part of this model are taken to be:
- `DkMemBlockFlags`: CPU access at bit 0 and GPU access at bit 2, each two
  bits wide; Code is `1 << 4` and Image is `1 << 5`.
- `DkMemAccess`: None 0, Uncached 1, Cached 2.
- `DK_MEMBLOCK_ALIGNMENT` is 0x1000.
- `DK_GPU_ADDR_INVALID` is all ones.
- `getSize()` is the size recorded in the map object.
- The `tag_DkMemBlock` constructor leaves the block empty.
- The `tag_DkMemBlock` destructor calls `destroy()`, so the `delete obj` of
  `dkMemBlockCreate` releases what a failed `initialize` acquired.
- `nvMapClose` does nothing on a map object that was never created, and
  leaves a closed object uninitialised, so a second close does nothing.
- `CodeSeg::allocSpace` and `nvAddressSpaceMap`, which write the block's GPU
  address by reference, leave it at `DK_GPU_ADDR_INVALID` when they fail, so
  that `destroy` does not unmap an address that was never mapped.
- The QMD has eight constant buffers, and the valid mask is eight bits wide.

The following enter the model as parameters:
- the job-slot stride;
- the size of a job, of the QMD and of the driver constant buffer;
- the field offsets that indirect dispatch patches;
- the 64-bit NvColorFormat codes (`nvCode`).

## Model

| member | source | states |
|---|---|---|
| DkTypes.AlignDown | source/maxwell/gpu_compute.cpp:49 | `x & ~(a-1)` is the largest multiple of `a` that is at most `x` |
| DkTypes.AlignUp32 | source/dk_swapchain.cpp:79 | `(x + a - 1) & ~(a-1)` in 32-bit arithmetic is a multiple of `a` |
| DkTypes.AlignUp32IsLeastMultiple | source/dk_swapchain.cpp:79 | without overflow, the rounded value is the least multiple of `a` that is at least `x` |
| DkTypes.ScratchMaskIsAlignDown | source/maxwell/gpu_compute.cpp:49 | the bit-vector mask `& ~0x7FFF` is rounding down to a multiple of 0x8000 |
| DkTypes.ConstbufMaskIsAlignDown | source/maxwell/gpu_compute.cpp:124 | the mask `& ~0xFF` is rounding down to a multiple of 256 |
| DkTypes.GobMaskIsAlignDown | source/dk_swapchain.cpp:79 | the mask `& ~63` is rounding down to a multiple of 64 |
| MemBlock.StripAccess | source/dk_memblock.cpp:6-8 | both access fields are cleared; every other bit is kept |
| MemBlock.NormalizeFlags | source/dk_memblock.cpp:6-15 | extracting the access fields and putting them back gives the caller's flags unchanged |
| MemBlock.NormalizeKeepsOtherBits | source/dk_memblock.cpp:6-15 | normalisation keeps every bit outside the access masks, and both access fields read back unchanged |
| MemBlock.NormalizeIdempotent | source/dk_memblock.cpp:6-15 | normalising twice is normalising once |
| MemBlock.ImageTestSeesCallerFlags | source/dk_memblock.cpp:8-11 | the image test on the stripped flags is the test on the caller's flags |
| MemBlock.Device.AllocObject | source/dk_memblock.cpp:94 | the allocation of the block object may fail; it is logged and touches no resource |
| MemBlock.Device.AllocMem | source/dk_memblock.cpp:19 | a fresh non-null live address with the requested alignment, or null with nothing allocated; the logged call records the size and the alignment |
| MemBlock.Device.FreeMem | source/dk_memblock.cpp:79 | only live memory can be freed, and it is no longer live afterwards |
| MemBlock.Device.MapCreate | source/dk_memblock.cpp:26 | on success a fresh open handle that records the storage, the size and the CPU caching; on failure nothing opens. The logged call records the storage, size, alignment and CPU caching asked for |
| MemBlock.Device.MapClose | source/dk_memblock.cpp:76 | closes an open handle; an uninitialised object is a logged no-op |
| MemBlock.Device.AddressSpaceMap | source/dk_memblock.cpp:35-37 | on success a valid, previously unmapped address, now mapped to the handle; on failure no mapping. The logged call records the handle and the GPU caching asked for |
| MemBlock.Device.AllocSpace | source/dk_memblock.cpp:44-45 | on success a range inside the code segment that overlaps no reservation, now reserved with its size |
| MemBlock.Device.FreeSpace | source/dk_memblock.cpp:51 | only a live reservation, given back with its own size, is removed |
| MemBlock.Device.CalcOffset | source/dk_memblock.cpp:57 | the offset added to the code segment base gives the address back |
| MemBlock.Device.AddressSpaceMapFixed | source/dk_memblock.cpp:48-49 | on success the given unmapped address is mapped to the handle; on failure nothing changes. The logged call records the handle and the GPU caching asked for |
| MemBlock.Device.AddressSpaceUnmap | source/dk_memblock.cpp:70 | only a live mapping is removed |
| MemBlock.EmptyBlockDestroyReleasesNothing | source/dk_memblock.cpp:66-82 | an empty block's destroy only closes the uninitialised map object |
| MemBlock.MemBlock.Initialize | source/dk_memblock.cpp:4-64 | image flag iff NotImplemented, with nothing touched. Memory is owned iff no storage was passed. OutOfMemory means exactly one failed allocation and no map object. Success maps the block iff GPU access was requested. A failed fixed mapping is followed by the release of that range with the same size, and the result is Fail. On failure the GPU address is invalid and no reservation is kept. Driver resources grow by exactly what the block holds. Every mapping call uses the block's map object and `isGpuCached()` of the caller's flags. The storage registered with nvmap is the caller's, or the owned memory when none was passed, with the block's size, the big-page alignment and `isCpuCached()`. Owned memory is allocated with the block's size and DK_MEMBLOCK_ALIGNMENT, so it is 0x1000-aligned |
| MemBlock.MemBlock.UseStorage | source/dk_memblock.cpp:16-62 | with the flags set: owned memory iff no storage was passed, and OutOfMemory iff that allocation failed. Otherwise the caller's storage, or the owned memory, is registered with nvmap at the big-page alignment and with `isCpuCached()`, and the map object records it. Then come the outcomes of Register, with the resource growth and the GPU caching of the mappings as Initialize states them. Owned memory is allocated with the block's size and DK_MEMBLOCK_ALIGNMENT, so it is 0x1000-aligned |
| MemBlock.MemBlock.Register | source/dk_memblock.cpp:24-63 | the first call registers the given storage and size with nvmap, at the big-page alignment and with `isCpuCached()`. The block holds a map object iff that call succeeded, and the object records that storage, size and caching. The driver's open handles grow by exactly that object. The mapping outcomes are those of MapPitch |
| MemBlock.MemBlock.MapPitch | source/dk_memblock.cpp:29-61 | no-access blocks are not mapped. Non-code blocks are placed by the system. Code blocks are mapped into the code segment as MapCode states. Every mapping call uses the map object and `isGpuCached()` |
| MemBlock.MemBlock.MapCode | source/dk_memblock.cpp:41-58 | success reserves a range of the block's size, maps it, and records calcOffset of it. On failure neither a reservation nor a mapping is left. A failed fixed mapping is immediately followed by the release of its range. The fixed mapping uses the map object and `isGpuCached()` |
| MemBlock.MemBlock.MapReserved | source/dk_memblock.cpp:47-57 | on a reserved address, either the fixed mapping succeeds and the offset is recorded, or the exact calls are the failed mapping and then freeSpace of that address and size, leaving the address invalid |
| MemBlock.MemBlock.Destroy | source/dk_memblock.cpp:66-82 | the calls are, in order: unmap, plus free of the code range for code blocks, only when mapped; close; free of owned memory only when owned. Afterwards the block is empty, and the driver loses exactly what the block held |
| MemBlock.MemBlock.FlushCpuCache | source/dk_memblock.cpp:128-133 | Success iff the CPU does not cache the block, else NotImplemented |
| MemBlock.MemBlock.InvalidateCpuCache | source/dk_memblock.cpp:135-140 | Success iff the CPU does not cache the block, else NotImplemented |
| MemBlock.DestroyTwice | source/dk_memblock.cpp:66-82 | the calls of two destroys are those of the first followed by one no-op close. The owned memory, the open map object, the mapping and the code-segment reservation released are exactly those of one destroy, and the device stays valid |
| MemBlock.DebugRefusal | source/dk_memblock.cpp:87-92 | in debug builds a size that is not a multiple of the alignment gives MisalignedSize; otherwise misaligned storage gives MisalignedData; otherwise nothing |
| MemBlock.Create | source/dk_memblock.cpp:84-106 | the debug refusal is raised with no driver call. Otherwise the object is allocated, and initialised iff that succeeded. A failed initialisation is raised exactly and returns null: an image block raises NotImplemented, a failed allocation of owned memory raises OutOfMemory, and otherwise Fail. Every null result leaves the driver's resources as they were. A non-null result is a fresh, valid block whose mappings use its GPU caching. When initialisation got as far as nvmap, the registered storage is the caller's or the newly allocated memory, with the big-page alignment and `isCpuCached()`, and a non-null block's map object records them. A non-null block's owned memory is 0x1000-aligned |
| MemBlock.InitializeOrDelete | source/dk_memblock.cpp:94-104 | once the object exists: it is returned iff initialize succeeded, and otherwise it is destroyed and the driver holds what it held before. The result codes, the registered storage and the non-null block's properties are those that Create states, counted from the call after the object allocation |
| GpuError.DecodeError | source/gpu_error.cpp:35-59 | each type tag 0-4 gets its class, both ways, and every other tag decodes as unknown. A page fault is a write iff info[3] == 2, and its address splits back into info[1] (high) and info[2] (low 32 bits). For a method error, the method, the extra field and the two dropped bits recompose info[1], and the subchannel/class is info[4] |
| GpuError.PageFaultAddressInjective | source/gpu_error.cpp:42 | the decoded fault address determines both address words |
| GpuError.Queue.CheckError | source/gpu_error.cpp:17-67 | returns true exactly when the error notification was read with a non-zero status, whatever the error-info query gives. Then the queue enters Error, this queue's CPU semaphore slot takes the device's current value, and the diagnostics gain the entered-error record followed by the decoded error or "info unavailable"; otherwise the state, the semaphores and the diagnostics are unchanged |
| GpuError.QueueTable.CheckQueueErrors | source/gpu_error.cpp:7-15 | every non-null slot is checked exactly once. Each semaphore slot changes only for a faulted queue |
| GpuCompute.SetBit | source/maxwell/gpu_compute.cpp:70 | bit `id` is set and all other bits are unchanged |
| GpuCompute.ClearBit | source/maxwell/gpu_compute.cpp:76 | bit `id` is cleared and all other bits are unchanged |
| GpuCompute.ConstBufFor | source/maxwell/gpu_compute.cpp:71-73 | `addr_upper * 2^32 + addr_lower` is the address, and the size is stored |
| GpuCompute.WithConstbuf | source/maxwell/gpu_compute.cpp:66-77 | a non-zero size marks buffer `id` valid and fills its descriptor. A zero size only clears bit `id` and keeps the descriptor. The other bits and buffers are untouched, and no other QMD field changes |
| GpuCompute.BindThenClear | source/maxwell/gpu_compute.cpp:66-77 | bind then clear leaves the buffer invalid with the bound descriptor, and the other buffers as they were |
| GpuCompute.ScratchPerSm | source/maxwell/gpu_compute.cpp:48-49 | each SM's share is a multiple of 0x8000 and the largest such value that is at most total / numSms |
| GpuCompute.ScratchPerSmFits | source/maxwell/gpu_compute.cpp:48-49 | the shares of all SMs together fit in the scratch memory |
| GpuCompute.MinRequiredScratchAsWritten | source/maxwell/gpu_compute.cpp:90 | the 32-bit formula as written gives a multiple of 0x8000 |
| GpuCompute.MinRequiredScratch | source/maxwell/gpu_compute.cpp:90 | the least multiple of 0x8000 that is at least perWarp * numWarpsPerSm |
| GpuCompute.MinRequiredScratchAgrees | source/maxwell/gpu_compute.cpp:90 | without overflow the written and the intended formula agree |
| GpuCompute.MinRequiredScratchWraps | source/maxwell/gpu_compute.cpp:90-101 | two concrete requests on which the written formula wraps: to 0x8000 instead of 0x1_0000_8000, and to 0 |
| GpuCompute.PlanScratch | source/maxwell/gpu_compute.cpp:85-112 | full speed iff the available per-warp scratch suffices. Otherwise it is insufficient iff total < minRequired. When throttling, maxSms ≥ 1 is the largest count whose requirement fits |
| GpuCompute.ThrottleFitsInScratch | source/maxwell/gpu_compute.cpp:99-101 | a throttled plan never asks for more scratch than there is |
| GpuCompute.JobSlot | source/maxwell/gpu_compute.cpp:136-145 | the slot is the counter while it is in range and 0 once the ring is used up, and is always below the slot count |
| GpuCompute.RingSlots | source/maxwell/gpu_compute.cpp:136-146 | dispatch `k` uses slot `k % jobsCount`, and waits for idle exactly at non-zero multiples of the ring size |
| GpuCompute.SlotReuseWaits | source/maxwell/gpu_compute.cpp:136-146 | a slot is reused only after a dispatch in between has waited for idle |
| GpuCompute.JobAddr | source/maxwell/gpu_compute.cpp:149-150 | without overflow the job address is base + slot * stride |
| GpuCompute.JobSlotsDisjoint | source/maxwell/gpu_compute.cpp:149-150 | slots lie inside the ring and do not overlap |
| GpuCompute.LaunchAddr | source/maxwell/gpu_compute.cpp:190 | below 2^40 the launch word is the job address divided by 256 |
| GpuCompute.LaunchAddrRoundTrip | source/maxwell/gpu_compute.cpp:190 | for an aligned job below 2^40 the launch word gives the address back |
| GpuCompute.IndirectCopies | source/maxwell/gpu_compute.cpp:167-187 | three copies from the indirect buffer: its three grid words (12 bytes) into the driver constbuf's gridSize; its first two words as the 32-bit raster width and 16-bit height (6 bytes) at the QMD raster; the word at offset 8 as the 16-bit depth (2 bytes), right behind them |
| GpuCompute.DispatchedJob | source/maxwell/gpu_compute.cpp:152-161 | the grid goes into the driver constant buffer and into the QMD raster, with height and depth cut to 16 bits. Constbuf 0 is bound right after the QMD in the job's slot. Nothing else changes |
| GpuCompute.ShaderJob | source/maxwell/gpu_compute.cpp:100-128 | every shader field comes from the command. Constbuf 1 is at codeSegBase + dataOffset, with the size rounded up to 256. The grid, the five QMD header fields and the other buffers are kept |
| GpuCompute.ShaderDataConstbufCovers | source/maxwell/gpu_compute.cpp:124 | without overflow the data constbuf size is the least multiple of 256 that covers the data |
| GpuCompute.EngineSetup | source/maxwell/gpu_compute.cpp:51-63 | gives the program region, the local memory address, and the non-throttled and throttled limits (every SM, the full share) |
| GpuCompute.ComputeQueue.InitQmd | source/maxwell/gpu_compute.cpp:32-39 | sets the five QMD header fields and changes nothing else |
| GpuCompute.ComputeQueue.InitComputeEngine | source/maxwell/gpu_compute.cpp:41-64 | appends the setup commands with the per-SM scratch share |
| GpuCompute.ComputeQueue.BindConstbuf | source/maxwell/gpu_compute.cpp:66-77 | the QMD becomes WithConstbuf of the old one; nothing else changes |
| GpuCompute.ComputeQueue.BindShader | source/maxwell/gpu_compute.cpp:79-129 | too little scratch raises OutOfMemory with the job untouched. Otherwise the shader job is set and `throttled` is 0 or 1. The SM limit and its command change only when the new maxSms differs from the cached one |
| GpuCompute.ComputeQueue.Dispatch | source/maxwell/gpu_compute.cpp:131-194 | the counter becomes slot + 1, and a wrap emits wait-for-idle and a cache invalidation. The updated job is copied to its slot, followed by the indirect patches when requested and then the launch |
| GpuCompute.BindShaderTwice | source/maxwell/gpu_compute.cpp:100-109 | binding the same shader twice emits at most one throttling command |
| Swapchain.LookupFormat | source/dk_swapchain.cpp:32-38 | an entry is found iff some entry has the format, and the entry found has it |
| Swapchain.FormatTableDistinct | source/dk_swapchain.cpp:19-30 | no format appears twice in the table |
| Swapchain.LookupFindsTheEntry | source/dk_swapchain.cpp:32-38 | in a table without duplicates the lookup of an entry's format finds that entry |
| Swapchain.EveryTableFormatIsFound | source/dk_swapchain.cpp:19-38 | every table format finds its own entry |
| Swapchain.FindFormat | source/dk_swapchain.cpp:32-38 | the linear search of a table returns the first entry for the format, as LookupFormat defines it |
| Swapchain.BytesPerPixel | source/dk_swapchain.cpp:78 | the extracted field lies in [0, 31] |
| Swapchain.WidthAlignedBytes | source/dk_swapchain.cpp:79 | the pitch is a whole number of 64-byte GOBs |
| Swapchain.WidthAligned | source/dk_swapchain.cpp:80 | the stride is the integer quotient of the pitch by the pixel size |
| Swapchain.PitchIsLeastGobMultiple | source/dk_swapchain.cpp:79 | without overflow the pitch is the least multiple of 64 that is at least width * bytesPerPixel |
| Swapchain.StrideCoversWidth | source/dk_swapchain.cpp:79-80 | without overflow the stride holds at least `width` pixels |
| Swapchain.StrideTimesPixelIsPitch | source/dk_swapchain.cpp:79-80 | for every pixel size that divides the 64-byte GOB width (1, 2, 4, 8 and 16 among the sizes the format code can give), the stride times the pixel size is exactly the pitch |
| Swapchain.NWindow.SetDimensions | source/dk_swapchain.cpp:57 | logs the call with its outcome |
| Swapchain.NWindow.ConfigureBuffer | source/dk_swapchain.cpp:94 | logs the slot, the buffer and the outcome |
| Swapchain.NWindow.SetTransformFlipV | source/dk_swapchain.cpp:102 | logs the vertical flip |
| Swapchain.NWindow.DequeueBuffer | source/dk_swapchain.cpp:116 | logs the outcome and the slot |
| Swapchain.NWindow.QueueBuffer | source/dk_swapchain.cpp:124 | logs the slot and the outcome |
| Swapchain.BufferTemplate | source/dk_swapchain.cpp:61-75 | magic, pid and plane count, both Android formats and the colour format from the entry, and the dimensions and block height from the first image |
| Swapchain.SlotBuffer | source/dk_swapchain.cpp:87-93 | each image's buffer records the image's nvmap id, size and offset, with the shared stride and pitch |
| Swapchain.SlotBufferKeepsTemplate | source/dk_swapchain.cpp:86-93 | every other field of a slot's buffer is the template's |
| Swapchain.ConfigureCalls | source/dk_swapchain.cpp:82-96 | the loop's call list has one configure call per slot reached. The slot order, the buffers and the outcomes are stated by ConfigureCallsInSlotOrder |
| Swapchain.ConfigureCallsInSlotOrder | source/dk_swapchain.cpp:82-96 | the calls are in slot order, each for the matching image; every call succeeded except possibly the last |
| Swapchain.InitCalls | source/dk_swapchain.cpp:56-102 | the set-dimensions call comes first, and it succeeded whenever a buffer was configured; the flip comes last on a lower-left success |
| Swapchain.Swapchain.ConfigureImages | source/dk_swapchain.cpp:82-96 | slots before the stop hold their images and have been configured. The first failure returns Fail. Later slots are untouched |
| Swapchain.Swapchain.Initialize | source/dk_swapchain.cpp:41-105 | the window and count are recorded. In debug builds a format missing from the table is BadState, with no window call. A failed set-dimensions is Fail before any buffer is configured. Otherwise the window log is InitCalls, and slot `i` holds image `i` exactly for the configured slots |
| Swapchain.Swapchain.ConfigureWindow | source/dk_swapchain.cpp:61-102 | after the dimensions, the window log is the rest of InitCalls: the configure calls up to the first failure, then the flip on a lower-left success |
| Swapchain.QueueAcquireImage | source/dk_swapchain.cpp:192-203 | a queue in the Error state raises Fail with no window call; a failed dequeue raises Fail |
| Swapchain.QueuePresentImage | source/dk_swapchain.cpp:205-223 | in debug builds a slot outside [0, numImages) raises BadInput; a queue in the Error state raises Fail; in both cases nothing is queued. Otherwise exactly that slot is queued, and Fail is raised iff queueing failed |

## Left out

- Kernel and driver transport: nvmap, the address space, host allocation and the `nwindow*` calls. These are modelled as abstract calls that may fail and are logged, because their code is not part of this model.
- GPU channel queries: `nvGpuChannelGetErrorNotification` and `nvGpuChannelGetErrorInfo` are not calls in the model. A `GpuChannel` holds the two answers as fixed fields, with `None` for a query that fails, and the queries are not logged.
- Code-segment allocator: only its contract is modelled, as reservations that are disjoint ranges inside the segment. `CodeSeg` is not part of this model.
- Command-buffer encoding: `Cmd`, `CmdInline`, `MakeCmdHeader`, `PrepareInlineCopy`, `reserve`/`split`/`addRaw` and the QMD bit layout. Commands are symbolic, and the header words and the GPFIFO split/kick flags are not recorded.
- QMD bitfield widths other than the 16-bit raster height and depth and the 8-bit valid mask. No other field is truncated.
- GpuCompute.JobAddr: `jobId * s_jobSizeAlign` is taken as 64-bit. The width of `s_jobSizeAlign` is not shown.
- GpuCompute.ShaderDataConstbufCovers: proved only without overflow. A data size above 2^32 - 256 rounds to 0, and then clears constant buffer 1 instead of binding it. The model keeps that behaviour.
- GpuCompute.ComputeQueue.BindShader: uses the corrected minimum scratch size; see Findings.
- Logging: `DK_WARNING` output is a ghost diagnostics sequence in the fault monitor, and is dropped elsewhere.
- Concurrency: the queue-table mutex and cross-thread waiting on the semaphore are not modelled. The sweep is a sequential loop.
- Cache maintenance: flush and invalidate keep only their result codes.
- The `NvKind_Pitch` argument of `nvMapCreate` and of the address-space mappings is a constant and is not recorded.
- Image blocks: DkMemBlockFlags_Image is rejected, as the code does. Swizzled or compressed mappings are not modelled.
- `Queue::decompressSurface` for hardware-compressed images, fences (`waitFence`, `signalFence`, `nvMultiFenceCreate`) and `flush` in present.
- Swapchain destruction, `setCrop`, `setSwapInterval` and `dkSwapchainCreate`'s debug checks.
- Swapchain.Swapchain.Initialize: takes the format table as the parameter `formats`; the driver always passes FormatTable, and EveryTableFormatIsFound states what the lookup gives there.
- Swapchain.Swapchain.Initialize: the template fields `header.num_ints`, `unk0`, `usage`, `layout` and `kind` are constants that are not recorded.
- Swapchain.QueueAcquireImage: the value returned after a raise is not modelled. The model also assumes that `DK_ERROR` ends the call. If the error callback returned, the source would go on to dequeue a buffer on a queue in the Error state (lines 195-200), and the model does not capture that.
- Swapchain.QueuePresentImage: assumes that `DK_DEBUG_BAD_INPUT` and `DK_ERROR` end the call. If the error callback returned, the source would go on to queue the buffer (lines 209-222), even for a queue in the Error state or a slot out of range; the model does not capture that.
- m_images holds references to the images in the source. The model stores image values, so aliasing between images is not captured.
- The NvColorFormat codes are a parameter. The model requires every table format's code to give a non-zero pixel size, which holds for the formats in the table.
- The initial values of `m_curJob` and `m_curSmThrottling` are taken to be 0.

## Findings

| source | as written | input that shows it | evidently intended | confidence | as-written member | corrected member |
|---|---|---|---|---|---|---|
| source/maxwell/gpu_compute.cpp:90-101 | `minRequiredScratchMem = (perWarpScratchSize * numWarpsPerSm + 0x7FFF) & ~0x7FFF` is evaluated in 32-bit arithmetic | 64 warps per SM and a 1 MiB scratch buffer. With 0x0400_0200 bytes per warp, the product 0x1_0000_8000 wraps to 0x8000. The scratch check passes and maxSms becomes 32, although one SM needs more than 4 GiB. With 0x0400_0000 bytes per warp, the minimum wraps to 0 and line 101 divides by zero | compute the requirement without wrap-around, so such a shader is refused with OutOfMemory | not executed; assumes both operands are 32-bit, as the surrounding `uint32_t` code suggests | GpuCompute.MinRequiredScratchAsWritten, GpuCompute.MinRequiredScratchWraps | GpuCompute.MinRequiredScratch, GpuCompute.PlanScratch |
