/** The compute job state of source/maxwell/gpu_compute.cpp: the queue keeps
    one QMD (queue meta data) and one driver constant buffer that it edits in
    place as shaders are bound and grids are dispatched, and copies the whole
    job into a ring of job slots in the work buffer on every dispatch. The
    command buffer is modelled as the sequence of commands appended to it;
    their binary encoding is not part of this model. */
module GpuCompute {
  import opened DkTypes

  // ---------------------------------------------------------------------------
  // Data model
  // ---------------------------------------------------------------------------

  /** Three 32-bit grid or block dimensions. */
  type Dim3 = s: seq<u32> | |s| == 3 witness [0, 0, 0]

  /** One of the QMD's constant buffer descriptors. */
  datatype ConstBuf = ConstBuf(addrLower: u32, addrUpper: u32, size: u32)

  /** The QMD's eight constant buffer descriptors. */
  type ConstBufs = s: seq<ConstBuf> | |s| == 8
    witness [ConstBuf(0, 0, 0), ConstBuf(0, 0, 0), ConstBuf(0, 0, 0), ConstBuf(0, 0, 0),
             ConstBuf(0, 0, 0), ConstBuf(0, 0, 0), ConstBuf(0, 0, 0), ConstBuf(0, 0, 0)]

  /** The QMD fields the compute queue writes. The raster height and depth are
      16-bit fields of the QMD. */
  datatype Qmd = Qmd(
    apiVisibleCallLimit: nat,
    smGlobalCachingEnable: nat,
    l1Configuration: nat,
    qmdVersion: nat,
    qmdMajorVersion: nat,
    throttled: nat,
    programOffset: u32,
    sharedMemorySize: u32,
    ctaThreadDimension0: u32,
    ctaThreadDimension1: u32,
    ctaThreadDimension2: u32,
    shaderLocalMemoryLowSize: u32,
    barrierCount: u32,
    shaderLocalMemoryHighSize: u32,
    registerCount: u32,
    shaderLocalMemoryCrsSize: u32,
    ctaRasterWidth: u32,
    ctaRasterHeight: u16,
    ctaRasterDepth: u16,
    constantBufferValid: bv8,
    constantBuffer: ConstBufs)

  /** ComputeDriverCbuf: the block and grid sizes shaders read from constbuf 0. */
  datatype DriverCbuf = DriverCbuf(ctaSize: Dim3, gridSize: Dim3)

  /** The job the queue edits and copies into a job slot. */
  datatype Job = Job(qmd: Qmd, cbuf: DriverCbuf)

  /** CtrlCmdComputeShader: what a bound compute shader asks for. */
  datatype ShaderCmd = ShaderCmd(
    arg: u32,
    sharedMemSize: u32,
    blockDims: Dim3,
    localLoMemSize: u32,
    numBarriers: u32,
    localHiMemSize: u32,
    numRegisters: u32,
    crsSize: u32,
    perWarpScratchSize: u32,
    dataOffset: u32,
    dataSize: u32)

  /** The parts of the device's GPU information the queue reads. */
  datatype GpuInfo = GpuInfo(numSms: u32, numWarpsPerSm: u32)

  /** The work buffer regions the queue uses: scratch memory and the job ring. */
  datatype WorkBuf = WorkBuf(
    scratchMem: u64,
    scratchMemSize: u32,
    perWarpScratchSize: u32,
    computeJobs: u64,
    computeJobsCount: u32)

  /** Sizes and offsets fixed by the driver's headers: the stride of a job slot
      (s_jobSizeAlign), the bytes copied per job (s_jobSizeBytes),
      sizeof(ComputeQmd), ComputeDriverCbufSize, the offset of gridSize inside
      ComputeDriverCbuf and the offset of cta_raster_width inside the QMD. */
  datatype JobLayout = JobLayout(
    jobSizeAlign: nat,
    jobSizeBytes: nat,
    qmdSize: nat,
    driverCbufSize: u32,
    cbufGridSizeOffset: nat,
    qmdCtaRasterOffset: nat)

  /** The commands the queue appends to its command buffer. */
  datatype Command =
    | ShaderExceptions(value: nat)
    | BindlessTexture(constbufSlot: nat)
    | LocalMemoryWindow(window: nat)
    | SharedMemoryWindow(window: nat)
    | ProgramRegion(base: u64)
    | SpaVersion(major: nat, minor: nat)
    | ShaderLocalMemory(iova: u64)
    | LocalMemoryNonThrottled(sizeUpper: nat, sizeLower: nat, maxSmCount: nat)
    | LocalMemoryThrottled(sizeUpper: nat, sizeLower: nat, maxSmCount: nat)
    | WaitForIdle
    | InvalidateConstantCaches
      // an inline copy of the job into its slot
    | CopyJob(target: u64, sizeBytes: nat, job: Job)
      // an inline copy whose data the GPU fetches from an indirect buffer
    | CopyFromIndirect(target: u64, sizeBytes: nat, source: u64, words: nat)
      // SendPcasA with the QMD address >> 8, then SendSignalingPcasB (invalidate, schedule)
    | SendPcas(qmdAddrShifted: u32)

  // ---------------------------------------------------------------------------
  // The constant buffer valid mask (bindConstbuf, lines 66-77)
  // ---------------------------------------------------------------------------

  /** Bit `j` of an 8-bit mask. */
  predicate Bit(m: bv8, j: nat)
    requires j < 8
  {
    (m >> j) & 1 == 1
  }

  /** `m |= 1U << id` */
  function SetBit(m: bv8, id: nat): (r: bv8)
    requires id < 8
    ensures forall j :: 0 <= j < 8 ==> (Bit(r, j) <==> j == id || Bit(m, j))
  {
    m | (1 << id)
  }

  /** `m &= ~(1U << id)` */
  function ClearBit(m: bv8, id: nat): (r: bv8)
    requires id < 8
    ensures forall j :: 0 <= j < 8 ==> (Bit(r, j) <==> j != id && Bit(m, j))
  {
    var r := m & !(1 << id);
    forall j | 0 <= j < 8
      ensures Bit(r, j) <==> j != id && Bit(m, j)
    {
      ClearBitAt(m, id, j);
    }
    r
  }

  lemma ClearBitAt(m: bv8, id: nat, j: nat)
    requires id < 8 && j < 8
    ensures Bit(m & !(1 << id), j) <==> j != id && Bit(m, j)
  {
  }

  /** The descriptor for a buffer at 64-bit address `addr`: the address is split
      into its low and high 32-bit halves. */
  function ConstBufFor(addr: u64, size: u32): (r: ConstBuf)
    ensures r.addrUpper * Two32 + r.addrLower == addr
    ensures r.size == size
  {
    ConstBuf(addr % Two32, addr / Two32, size)
  }

  /** The QMD after bindConstbuf(id, addr, size). A non-zero size marks buffer
      `id` valid and fills its descriptor; a zero size only marks it invalid. */
  function WithConstbuf(q: Qmd, id: nat, addr: u64, size: u32): (r: Qmd)
    requires id < 8
    ensures forall j :: 0 <= j < 8 ==>
              (Bit(r.constantBufferValid, j) <==> if j == id then size != 0 else Bit(q.constantBufferValid, j))
    ensures size != 0 ==> r.constantBuffer[id] == ConstBufFor(addr, size)
    ensures forall j :: 0 <= j < 8 && (j != id || size == 0) ==> r.constantBuffer[j] == q.constantBuffer[j]
    // nothing but the mask and the descriptors changes
    ensures r.(constantBufferValid := q.constantBufferValid, constantBuffer := q.constantBuffer) == q
  {
    if size != 0 then
      q.(constantBufferValid := SetBit(q.constantBufferValid, id),
         constantBuffer := q.constantBuffer[id := ConstBufFor(addr, size)])
    else
      q.(constantBufferValid := ClearBit(q.constantBufferValid, id))
  }

  /** Binding a buffer then clearing it leaves it invalid with the descriptor
      that the bind wrote, and every other buffer as before the bind. */
  lemma BindThenClear(q: Qmd, id: nat, addr: u64, size: u32)
    requires id < 8 && size != 0
    ensures var r := WithConstbuf(WithConstbuf(q, id, addr, size), id, 0, 0);
            && !Bit(r.constantBufferValid, id)
            && r.constantBuffer == q.constantBuffer[id := ConstBufFor(addr, size)]
            && forall j :: 0 <= j < 8 && j != id ==>
                 (Bit(r.constantBufferValid, j) <==> Bit(q.constantBufferValid, j))
  {
    var p := WithConstbuf(q, id, addr, size);
    var r := WithConstbuf(p, id, 0, 0);
    assert r.constantBuffer == p.constantBuffer;
  }

  // ---------------------------------------------------------------------------
  // Scratch memory arithmetic (initComputeEngine and bindShader)
  // ---------------------------------------------------------------------------

  const ScratchAlign: nat := 0x8000

  /** `(total / numSms) & ~0x7FFF` (lines 48-49): each SM's share of the scratch
      memory, rounded down to a multiple of 0x8000. */
  function ScratchPerSm(total: u32, numSms: u32): (r: u32)
    requires numSms > 0
    ensures r % ScratchAlign == 0
    ensures r <= total / numSms < r + ScratchAlign
  {
    AlignDown(total / numSms, ScratchAlign)
  }

  /** The per-SM shares of all SMs together fit in the scratch memory. */
  lemma ScratchPerSmFits(total: u32, numSms: u32)
    requires numSms > 0
    ensures numSms * ScratchPerSm(total, numSms) <= total
  {
    var q := total / numSms;
    var r := ScratchPerSm(total, numSms);
    MulMonotone(r, q, numSms);
    assert numSms * q <= total;
  }

  /** Line 90 as written: the product and the rounding are evaluated in 32-bit
      arithmetic, so a large request wraps around. */
  function MinRequiredScratchAsWritten(perWarp: u32, numWarpsPerSm: u32): (r: u32)
    ensures r % ScratchAlign == 0
  {
    AlignUp32(Wrap32(perWarp * numWarpsPerSm), ScratchAlign)
  }

  /** The scratch memory one SM needs: the whole per-warp requirement of all its
      warps, rounded up to a multiple of 0x8000, without wrap-around. */
  function MinRequiredScratch(perWarp: u32, numWarpsPerSm: u32): (r: nat)
    ensures r % ScratchAlign == 0
    ensures perWarp * numWarpsPerSm <= r < perWarp * numWarpsPerSm + ScratchAlign
  {
    AlignDown(perWarp * numWarpsPerSm + ScratchAlign - 1, ScratchAlign)
  }

  /** When nothing wraps, the 32-bit formula is the intended one. */
  lemma MinRequiredScratchAgrees(perWarp: u32, numWarpsPerSm: u32)
    requires perWarp * numWarpsPerSm + ScratchAlign - 1 < Two32
    ensures MinRequiredScratchAsWritten(perWarp, numWarpsPerSm) == MinRequiredScratch(perWarp, numWarpsPerSm)
  {
    assert Wrap32(perWarp * numWarpsPerSm) == perWarp * numWarpsPerSm;
  }

  /** Two inputs on which the 32-bit formula goes wrong with 64 warps per SM:
      0x0400_0200 bytes per warp need 0x1_0000_8000 bytes per SM but the formula
      gives 0x8000, which a 1 MiB scratch buffer passes; and 0x0400_0000 bytes
      per warp give 0, which line 101 then divides by. */
  lemma MinRequiredScratchWraps()
    ensures MinRequiredScratchAsWritten(0x0400_0200, 64) == 0x8000
    ensures MinRequiredScratch(0x0400_0200, 64) == 0x1_0000_8000
    ensures MinRequiredScratchAsWritten(0x0400_0000, 64) == 0
  {
    assert Wrap32(0x1_0000_8000) == 0x8000;
    assert Wrap32(0x8000 + 0x7FFF) == 0xFFFF;
    assert AlignDown(0xFFFF, ScratchAlign) == 0x8000;
    assert AlignDown(0x1_0000_8000 + 0x7FFF, ScratchAlign) == 0x1_0000_8000;
    assert Wrap32(0x1_0000_0000) == 0;
    assert Wrap32(0x7FFF) == 0x7FFF;
    assert AlignDown(0x7FFF, ScratchAlign) == 0;
  }

  /** The outcome of the scratch check in bindShader (lines 85-112). */
  datatype ScratchPlan =
    | FullSpeed
    | Throttle(minRequired: nat, maxSms: nat)
    | Insufficient(minRequired: nat)

  function PlanScratch(total: u32, available: u32, perWarp: u32, numWarpsPerSm: u32): (r: ScratchPlan)
    requires numWarpsPerSm > 0
    // full speed exactly when every warp gets the scratch it asks for
    ensures r.FullSpeed? <==> perWarp <= available
    ensures !r.FullSpeed? ==> r.minRequired == MinRequiredScratch(perWarp, numWarpsPerSm)
    ensures !r.FullSpeed? ==> (r.Insufficient? <==> total < r.minRequired)
    // throttled: maxSms is the largest number of SMs whose requirement fits
    ensures r.Throttle? ==>
              && r.maxSms >= 1
              && r.maxSms * r.minRequired <= total < (r.maxSms + 1) * r.minRequired
  {
    if available < perWarp then
      var minRequired := MinRequiredScratch(perWarp, numWarpsPerSm);
      if total < minRequired then
        Insufficient(minRequired)
      else
        assert minRequired >= perWarp * numWarpsPerSm >= 1 by {
          MulMonotone(1, perWarp, numWarpsPerSm);
        }
        var maxSms := total / minRequired;
        DivBounds(total, minRequired);
        Throttle(minRequired, maxSms)
    else
      FullSpeed
  }

  /** A throttled plan never runs more SMs than the scratch size allows. */
  lemma ThrottleFitsInScratch(total: u32, available: u32, perWarp: u32, numWarpsPerSm: u32)
    requires numWarpsPerSm > 0
    requires PlanScratch(total, available, perWarp, numWarpsPerSm).Throttle?
    ensures var p := PlanScratch(total, available, perWarp, numWarpsPerSm);
            p.maxSms * (perWarp * numWarpsPerSm) <= total && p.maxSms <= total / ScratchAlign
  {
    var p := PlanScratch(total, available, perWarp, numWarpsPerSm);
    MulMonotone(perWarp * numWarpsPerSm, p.minRequired, p.maxSms);
    MulMonotone(ScratchAlign, p.minRequired, p.maxSms);
    DivLowerBound(total, p.maxSms, ScratchAlign);
  }

  // ---------------------------------------------------------------------------
  // The job ring (dispatch, lines 136-150)
  // ---------------------------------------------------------------------------

  /** The slot dispatch uses: the current counter, or slot 0 once the ring is used up. */
  function JobSlot(curJob: nat, jobsCount: nat): (r: nat)
    ensures jobsCount > 0 ==> r < jobsCount
    ensures curJob < jobsCount ==> r == curJob
    ensures curJob >= jobsCount ==> r == 0
  {
    if curJob >= jobsCount then 0 else curJob
  }

  /** m_curJob after `k` dispatches on a fresh queue. */
  function CurJobAfter(k: nat, jobsCount: nat): nat
  {
    if k == 0 then 0 else JobSlot(CurJobAfter(k - 1, jobsCount), jobsCount) + 1
  }

  /** The ring: dispatch number `k` (from 0) uses slot `k % jobsCount`, and it
      waits for the GPU before reusing slot 0 exactly when that is a non-first
      multiple of the ring size. */
  lemma {:induction false} RingSlots(k: nat, jobsCount: nat)
    requires jobsCount > 0
    ensures JobSlot(CurJobAfter(k, jobsCount), jobsCount) == k % jobsCount
    ensures CurJobAfter(k, jobsCount) >= jobsCount <==> (k > 0 && k % jobsCount == 0)
  {
    CurJobAfterClosed(k, jobsCount);
    if k > 0 {
      ModSucc(k - 1, jobsCount);
    }
  }

  lemma {:induction false} CurJobAfterClosed(k: nat, jobsCount: nat)
    requires jobsCount > 0
    ensures CurJobAfter(k, jobsCount) == if k == 0 then 0 else (k - 1) % jobsCount + 1
  {
    if k > 1 {
      CurJobAfterClosed(k - 1, jobsCount);
      ModSucc(k - 2, jobsCount);
    }
  }

  /** A slot is written again only after a dispatch that waited for idle: if
      dispatches `i < j` use the same slot, some dispatch in `(i, j]` wrapped. */
  lemma SlotReuseWaits(i: nat, j: nat, jobsCount: nat)
    requires jobsCount > 0 && i < j
    requires JobSlot(CurJobAfter(i, jobsCount), jobsCount) == JobSlot(CurJobAfter(j, jobsCount), jobsCount)
    ensures exists m: nat :: i < m <= j && CurJobAfter(m, jobsCount) >= jobsCount
  {
    RingSlots(i, jobsCount);
    RingSlots(j, jobsCount);
    var m := LastMultiple(i, j, jobsCount);
    RingSlots(m, jobsCount);
  }

  /** Between two numbers with the same remainder there is a positive multiple. */
  lemma LastMultiple(i: nat, j: nat, n: nat) returns (m: nat)
    requires n > 0 && i < j && i % n == j % n
    ensures i < m <= j && m % n == 0
  {
    var qi, qj := i / n, j / n;
    assert qi < qj by {
      if qj <= qi {
        MulMonotone(qj, qi, n);
      }
    }
    m := qj * n;
    MulMonotone(qi + 1, qj, n);
    ModUnique(m, qj, n, 0);
  }

  /** jobAddr = jobsBase + slot * s_jobSizeAlign, a 64-bit address. */
  function JobAddr(jobsBase: u64, slot: nat, jobSizeAlign: nat): (r: u64)
    ensures jobsBase + slot * jobSizeAlign < Two64 ==> r == jobsBase + slot * jobSizeAlign
  {
    Wrap64(jobsBase + slot * jobSizeAlign)
  }

  /** When the ring fits in the address space, each slot lies inside the ring and
      the slots do not overlap. */
  lemma JobSlotsDisjoint(jobsBase: u64, jobsCount: nat, jobSizeAlign: nat, s1: nat, s2: nat)
    requires jobsBase + jobsCount * jobSizeAlign < Two64
    requires s1 < s2 < jobsCount
    ensures jobsBase <= JobAddr(jobsBase, s1, jobSizeAlign)
    ensures JobAddr(jobsBase, s1, jobSizeAlign) + jobSizeAlign <= JobAddr(jobsBase, s2, jobSizeAlign)
    ensures JobAddr(jobsBase, s2, jobSizeAlign) + jobSizeAlign <= jobsBase + jobsCount * jobSizeAlign
  {
    MulMonotone(s2 + 1, jobsCount, jobSizeAlign);
    MulMonotone(s1 + 1, s2, jobSizeAlign);
  }

  /** `uint32_t(jobAddr >> 8)`: the QMD address as SendPcasA takes it. */
  function LaunchAddr(jobAddr: u64): (r: u32)
    ensures jobAddr < 0x100_0000_0000 ==> r == jobAddr / 256
  {
    (jobAddr / 256) % Two32
  }

  /** For a 256-byte aligned job below 2^40 the launch word gives the address back. */
  lemma LaunchAddrRoundTrip(jobAddr: u64)
    requires jobAddr % 256 == 0 && jobAddr < 0x100_0000_0000
    ensures LaunchAddr(jobAddr) * 256 == jobAddr
  {
  }

  /** The copies that patch the job slot from an indirect dispatch buffer (lines
      170-186): the three grid sizes into the driver constbuf, the raster width
      and 16-bit height into the QMD, then the 16-bit raster depth. */
  function IndirectCopies(jobAddr: u64, indirect: u64, layout: JobLayout): (r: seq<Command>)
    ensures |r| == 3 && forall c :: c in r ==> c.CopyFromIndirect?
    ensures r[0].source == indirect && r[1].source == indirect
    ensures r[2].source == Wrap64(indirect + 8)
    ensures r[0].sizeBytes + r[1].sizeBytes + r[2].sizeBytes == 20
    // the three 32-bit grid words land in the driver constbuf, just behind the QMD
    ensures r[0].target == Wrap64(jobAddr + layout.qmdSize + layout.cbufGridSizeOffset)
            && r[0].sizeBytes == 3 * 4 && r[0].words == 3
    // 32-bit width and 16-bit height from the first two words, at the QMD raster
    ensures r[1].target == Wrap64(jobAddr + layout.qmdCtaRasterOffset)
            && r[1].sizeBytes == 4 + 2 && r[1].words == 2
    // the 16-bit depth from the third word, right behind width and height
    ensures r[2].sizeBytes == 2 && r[2].words == 1
    ensures jobAddr + layout.qmdCtaRasterOffset + 6 < Two64 ==> r[2].target == r[1].target + r[1].sizeBytes
  {
    [CopyFromIndirect(Wrap64(jobAddr + layout.qmdSize + layout.cbufGridSizeOffset), 12, indirect, 3),
     CopyFromIndirect(Wrap64(jobAddr + layout.qmdCtaRasterOffset), 6, indirect, 2),
     CopyFromIndirect(Wrap64(jobAddr + layout.qmdCtaRasterOffset + 6), 2, Wrap64(indirect + 8), 1)]
  }

  /** The job after dispatch: the grid in the QMD raster (height and depth cut to
      16 bits) and in the driver constbuf, and constbuf 0 bound just behind the
      QMD in the job's own slot. */
  function DispatchedJob(j: Job, jobAddr: u64, layout: JobLayout, x: u32, y: u32, z: u32): (r: Job)
    ensures r.cbuf.gridSize == [x, y, z] && r.cbuf.ctaSize == j.cbuf.ctaSize
    ensures r.qmd.ctaRasterWidth == x
    ensures r.qmd.ctaRasterHeight == y % Two16 && (y < Two16 ==> r.qmd.ctaRasterHeight == y)
    ensures r.qmd.ctaRasterDepth == z % Two16 && (z < Two16 ==> r.qmd.ctaRasterDepth == z)
    ensures Bit(r.qmd.constantBufferValid, 0) <==> layout.driverCbufSize != 0
    ensures layout.driverCbufSize != 0 ==>
              r.qmd.constantBuffer[0] == ConstBufFor(Wrap64(jobAddr + layout.qmdSize), layout.driverCbufSize)
    // the shader, throttling and the other constant buffers are not touched
    ensures r.qmd.(ctaRasterWidth := j.qmd.ctaRasterWidth, ctaRasterHeight := j.qmd.ctaRasterHeight,
                   ctaRasterDepth := j.qmd.ctaRasterDepth)
            == WithConstbuf(j.qmd, 0, Wrap64(jobAddr + layout.qmdSize), layout.driverCbufSize)
                 .(constantBufferValid := r.qmd.constantBufferValid, constantBuffer := r.qmd.constantBuffer)
  {
    var raster := j.qmd.(ctaRasterWidth := x, ctaRasterHeight := y % Two16, ctaRasterDepth := z % Two16);
    Job(WithConstbuf(raster, 0, Wrap64(jobAddr + layout.qmdSize), layout.driverCbufSize),
        j.cbuf.(gridSize := [x, y, z]))
  }

  /** The job after bindShader's field writes (lines 100, 112-128). */
  function ShaderJob(j: Job, cmd: ShaderCmd, codeSegBase: u64, throttled: nat): (r: Job)
    ensures r.qmd.throttled == throttled
    ensures r.qmd.programOffset == cmd.arg && r.qmd.sharedMemorySize == cmd.sharedMemSize
    ensures [r.qmd.ctaThreadDimension0, r.qmd.ctaThreadDimension1, r.qmd.ctaThreadDimension2] == cmd.blockDims
    ensures r.qmd.shaderLocalMemoryLowSize == cmd.localLoMemSize && r.qmd.barrierCount == cmd.numBarriers
    ensures r.qmd.shaderLocalMemoryHighSize == cmd.localHiMemSize && r.qmd.registerCount == cmd.numRegisters
    ensures r.qmd.shaderLocalMemoryCrsSize == cmd.crsSize
    // constbuf 1 holds the shader's data, at codeSegBase + dataOffset, its size rounded up to 256
    ensures var size := AlignUp32(cmd.dataSize, 0x100);
            (Bit(r.qmd.constantBufferValid, 1) <==> size != 0)
            && (size != 0 ==> r.qmd.constantBuffer[1] == ConstBufFor(Wrap64(codeSegBase + cmd.dataOffset), size))
    ensures r.cbuf.ctaSize == cmd.blockDims && r.cbuf.gridSize == j.cbuf.gridSize
    // the grid, the QMD header and the other constant buffers are not touched
    ensures r.qmd.ctaRasterWidth == j.qmd.ctaRasterWidth && r.qmd.ctaRasterHeight == j.qmd.ctaRasterHeight
    ensures r.qmd.ctaRasterDepth == j.qmd.ctaRasterDepth
    ensures r.qmd.apiVisibleCallLimit == j.qmd.apiVisibleCallLimit
            && r.qmd.smGlobalCachingEnable == j.qmd.smGlobalCachingEnable
            && r.qmd.l1Configuration == j.qmd.l1Configuration
            && r.qmd.qmdVersion == j.qmd.qmdVersion && r.qmd.qmdMajorVersion == j.qmd.qmdMajorVersion
    ensures forall i :: 0 <= i < 8 && i != 1 ==>
              r.qmd.constantBuffer[i] == j.qmd.constantBuffer[i]
              && (Bit(r.qmd.constantBufferValid, i) <==> Bit(j.qmd.constantBufferValid, i))
  {
    var q := j.qmd.(
      throttled := throttled,
      programOffset := cmd.arg,
      sharedMemorySize := cmd.sharedMemSize,
      ctaThreadDimension0 := cmd.blockDims[0],
      ctaThreadDimension1 := cmd.blockDims[1],
      ctaThreadDimension2 := cmd.blockDims[2],
      shaderLocalMemoryLowSize := cmd.localLoMemSize,
      barrierCount := cmd.numBarriers,
      shaderLocalMemoryHighSize := cmd.localHiMemSize,
      registerCount := cmd.numRegisters,
      shaderLocalMemoryCrsSize := cmd.crsSize);
    Job(WithConstbuf(q, 1, Wrap64(codeSegBase + cmd.dataOffset), AlignUp32(cmd.dataSize, 0x100)),
        j.cbuf.(ctaSize := cmd.blockDims))
  }

  /** Below 2^32 - 255 bytes, the data constbuf covers the shader's whole data and
      is the smallest multiple of 256 that does. */
  lemma ShaderDataConstbufCovers(dataSize: u32)
    requires dataSize + 0xFF < Two32
    ensures dataSize <= AlignUp32(dataSize, 0x100) < dataSize + 0x100
    ensures forall m: nat :: dataSize <= m && m % 0x100 == 0 ==> AlignUp32(dataSize, 0x100) <= m
  {
    AlignUp32IsLeastMultiple(dataSize, 0x100);
  }

  /** The commands initComputeEngine emits (lines 51-63). */
  function EngineSetup(codeSegBase: u64, scratchMem: u64, scratchPerSm: u32): (r: seq<Command>)
    ensures |r| == 9
    ensures r[4] == ProgramRegion(codeSegBase) && r[6] == ShaderLocalMemory(scratchMem)
    // the non-throttled and throttled limits start out the same: every SM, the full share
    ensures r[7] == LocalMemoryNonThrottled(0, scratchPerSm, 0x100)
    ensures r[8] == LocalMemoryThrottled(0, scratchPerSm, 0x100)
  {
    [ShaderExceptions(0),
     BindlessTexture(0),
     LocalMemoryWindow(0x0100_0000),
     SharedMemoryWindow(0x0300_0000),
     ProgramRegion(codeSegBase),
     SpaVersion(5, 3),
     ShaderLocalMemory(scratchMem),
     LocalMemoryNonThrottled(0, scratchPerSm, 0x100),
     LocalMemoryThrottled(0, scratchPerSm, 0x100)]
  }

  // ---------------------------------------------------------------------------
  // The queue
  // ---------------------------------------------------------------------------

  class ComputeQueue {
    const codeSegBase: u64
    const info: GpuInfo
    const work: WorkBuf
    const layout: JobLayout
    var job: Job
    var curJob: u32             // m_curJob
    var curSmThrottling: u32    // m_curSmThrottling
    var cmds: seq<Command>      // what has been appended to the command buffer
    var raised: seq<DkResult>   // the results reported through DK_ERROR

    /** The device has SMs and warps, and the work buffer has job slots. */
    predicate Valid()
      reads this
    {
      info.numSms > 0 && info.numWarpsPerSm > 0 && work.computeJobsCount > 0
    }

    constructor (codeSegBase: u64, info: GpuInfo, work: WorkBuf, layout: JobLayout, job: Job)
      requires info.numSms > 0 && info.numWarpsPerSm > 0 && work.computeJobsCount > 0
      ensures Valid()
      ensures this.codeSegBase == codeSegBase && this.info == info && this.work == work
      ensures this.layout == layout && this.job == job
      ensures curJob == 0 && curSmThrottling == 0 && cmds == [] && raised == []
    {
      this.codeSegBase := codeSegBase;
      this.info := info;
      this.work := work;
      this.layout := layout;
      this.job := job;
      curJob := 0;
      curSmThrottling := 0;
      cmds := [];
      raised := [];
    }

    /** ComputeQueue::initQmd (lines 32-39). */
    method InitQmd()
      modifies this
      ensures job == old(job).(qmd := old(job).qmd.(apiVisibleCallLimit := 1, smGlobalCachingEnable := 1,
                                                    l1Configuration := 3, qmdVersion := 7, qmdMajorVersion := 1))
      ensures curJob == old(curJob) && curSmThrottling == old(curSmThrottling)
      ensures cmds == old(cmds) && raised == old(raised)
    {
      job := job.(qmd := job.qmd.(apiVisibleCallLimit := 1));
      job := job.(qmd := job.qmd.(smGlobalCachingEnable := 1));
      job := job.(qmd := job.qmd.(l1Configuration := 3));
      job := job.(qmd := job.qmd.(qmdVersion := 7));
      job := job.(qmd := job.qmd.(qmdMajorVersion := 1));
    }

    /** ComputeQueue::initComputeEngine (lines 41-64). */
    method InitComputeEngine()
      requires Valid()
      modifies this
      ensures cmds == old(cmds) + EngineSetup(codeSegBase, work.scratchMem,
                                              ScratchPerSm(work.scratchMemSize, info.numSms))
      ensures job == old(job) && curJob == old(curJob) && curSmThrottling == old(curSmThrottling)
      ensures raised == old(raised)
    {
      var scratchPerSm := work.scratchMemSize / info.numSms;
      scratchPerSm := AlignDown(scratchPerSm, ScratchAlign);
      cmds := cmds + [ShaderExceptions(0), BindlessTexture(0)];
      cmds := cmds + [LocalMemoryWindow(0x0100_0000), SharedMemoryWindow(0x0300_0000)];
      cmds := cmds + [ProgramRegion(codeSegBase), SpaVersion(5, 3)];
      cmds := cmds + [ShaderLocalMemory(work.scratchMem)];
      cmds := cmds + [LocalMemoryNonThrottled(0, scratchPerSm, 0x100), LocalMemoryThrottled(0, scratchPerSm, 0x100)];
    }

    /** ComputeQueue::bindConstbuf (lines 66-77). */
    method BindConstbuf(id: nat, addr: u64, size: u32)
      requires id < 8
      modifies this
      ensures job == old(job).(qmd := WithConstbuf(old(job).qmd, id, addr, size))
      ensures curJob == old(curJob) && curSmThrottling == old(curSmThrottling)
      ensures cmds == old(cmds) && raised == old(raised)
    {
      if size != 0 {
        job := job.(qmd := job.qmd.(constantBufferValid := SetBit(job.qmd.constantBufferValid, id)));
        job := job.(qmd := job.qmd.(constantBuffer := job.qmd.constantBuffer[id := ConstBufFor(addr, size)]));
      } else {
        job := job.(qmd := job.qmd.(constantBufferValid := ClearBit(job.qmd.constantBufferValid, id)));
      }
    }

    /** ComputeQueue::bindShader (lines 79-129), with the minimum scratch size
        computed without wrap-around (see MinRequiredScratchWraps). Too little
        scratch memory raises OutOfMemory and leaves the job as it was; a new
        throttling limit is sent only when it differs from the one last sent. */
    method BindShader(cmd: ShaderCmd)
      requires Valid()
      modifies this
      ensures Valid()
      ensures var plan := PlanScratch(work.scratchMemSize, work.perWarpScratchSize,
                                      cmd.perWarpScratchSize, info.numWarpsPerSm);
              if plan.Insufficient? then
                && job == old(job) && cmds == old(cmds) && curSmThrottling == old(curSmThrottling)
                && raised == old(raised) + [OutOfMemory]
              else
                && raised == old(raised)
                && job == ShaderJob(old(job), cmd, codeSegBase, if plan.Throttle? then 1 else 0)
                && curSmThrottling == (if plan.Throttle? then plan.maxSms else old(curSmThrottling))
                && cmds == old(cmds) + (if plan.Throttle? && plan.maxSms != old(curSmThrottling)
                                        then [LocalMemoryThrottled(0, plan.minRequired, plan.maxSms)]
                                        else [])
      ensures curJob == old(curJob)
    {
      var total := work.scratchMemSize;
      var available := work.perWarpScratchSize;
      ghost var plan := PlanScratch(total, available, cmd.perWarpScratchSize, info.numWarpsPerSm);
      var throttled: u32 := 0;
      if available < cmd.perWarpScratchSize {
        var minRequired := MinRequiredScratch(cmd.perWarpScratchSize, info.numWarpsPerSm);
        if total < minRequired {
          raised := raised + [OutOfMemory];
          return;
        }
        assert plan == Throttle(minRequired, total / minRequired);
        throttled := 1;
        var maxSms: u32 := total / minRequired;
        if maxSms != curSmThrottling {
          curSmThrottling := maxSms;
          cmds := cmds + [LocalMemoryThrottled(0, minRequired, maxSms)];
        }
      }
      assert throttled == if plan.Throttle? then 1 else 0;

      job := job.(qmd := job.qmd.(throttled := throttled));
      job := job.(qmd := job.qmd.(
        programOffset := cmd.arg,
        sharedMemorySize := cmd.sharedMemSize,
        ctaThreadDimension0 := cmd.blockDims[0],
        ctaThreadDimension1 := cmd.blockDims[1],
        ctaThreadDimension2 := cmd.blockDims[2],
        shaderLocalMemoryLowSize := cmd.localLoMemSize,
        barrierCount := cmd.numBarriers,
        shaderLocalMemoryHighSize := cmd.localHiMemSize,
        registerCount := cmd.numRegisters,
        shaderLocalMemoryCrsSize := cmd.crsSize));
      BindConstbuf(1, Wrap64(codeSegBase + cmd.dataOffset), AlignUp32(cmd.dataSize, 0x100));

      job := job.(cbuf := job.cbuf.(ctaSize := [cmd.blockDims[0], cmd.blockDims[1], cmd.blockDims[2]]));
    }

    /** ComputeQueue::dispatch (lines 131-194). */
    method Dispatch(x: u32, y: u32, z: u32, indirect: u64)
      requires Valid()
      modifies this
      ensures Valid()
      ensures var slot := JobSlot(old(curJob), work.computeJobsCount);
              var jobAddr := JobAddr(work.computeJobs, slot, layout.jobSizeAlign);
              && curJob == slot + 1
              && job == DispatchedJob(old(job), jobAddr, layout, x, y, z)
              && cmds == old(cmds)
                         + (if old(curJob) >= work.computeJobsCount then [WaitForIdle, InvalidateConstantCaches] else [])
                         + [CopyJob(jobAddr, layout.jobSizeBytes, job)]
                         + (if indirect != GpuAddrInvalid then IndirectCopies(jobAddr, indirect, layout) else [])
                         + [SendPcas(LaunchAddr(jobAddr))]
      ensures curSmThrottling == old(curSmThrottling) && raised == old(raised)
    {
      var jobId := curJob;
      if jobId >= work.computeJobsCount {
        cmds := cmds + [WaitForIdle, InvalidateConstantCaches];
        jobId := 0;
      }
      curJob := jobId + 1;
      ghost var waited := cmds;
      assert waited == old(cmds) + (if old(curJob) >= work.computeJobsCount then [WaitForIdle, InvalidateConstantCaches] else []);

      var jobAddr := JobAddr(work.computeJobs, jobId, layout.jobSizeAlign);

      job := job.(qmd := job.qmd.(ctaRasterWidth := x, ctaRasterHeight := y % Two16, ctaRasterDepth := z % Two16));
      BindConstbuf(0, Wrap64(jobAddr + layout.qmdSize), layout.driverCbufSize);

      job := job.(cbuf := job.cbuf.(gridSize := [x, y, z]));
      assert job == DispatchedJob(old(job), jobAddr, layout, x, y, z);

      cmds := cmds + [CopyJob(jobAddr, layout.jobSizeBytes, job)];

      if indirect != GpuAddrInvalid {
        cmds := cmds + IndirectCopies(jobAddr, indirect, layout);
      }

      cmds := cmds + [SendPcas(LaunchAddr(jobAddr))];
    }
  }

  /** Binding the same shader twice sends the throttling command at most once. */
  method BindShaderTwice(q: ComputeQueue, cmd: ShaderCmd)
    requires q.Valid()
    modifies q
    ensures var plan := PlanScratch(q.work.scratchMemSize, q.work.perWarpScratchSize,
                                    cmd.perWarpScratchSize, q.info.numWarpsPerSm);
            |q.cmds| <= |old(q.cmds)| + 1
            && (!plan.Throttle? ==> q.cmds == old(q.cmds))
  {
    q.BindShader(cmd);
    ghost var mid := q.cmds;
    q.BindShader(cmd);
    assert q.cmds == mid;
  }
}
