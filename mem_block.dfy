/** The memory block of source/dk_memblock.cpp: a host memory range registered
    with the nvmap driver and mapped into the GPU address space, either where
    the driver chooses or, for shader code, inside the code segment.

    Every kernel or driver call the block makes is a method of `Device` whose
    outcome the environment chooses (a havoc), and every call is appended to
    the ghost `log` with its outcome so that order and matched release can be
    stated. The driver's bookkeeping is kept as sets and maps; each release
    method demands that what it releases is live, so a verified caller never
    double-frees and never releases what it does not hold. */
module MemBlock {
  import opened DkTypes

  // ---------------------------------------------------------------------
  // Flag layout (DkMemBlockFlags and DkMemAccess of deko3d.h)
  // ---------------------------------------------------------------------

  const CpuAccessShift: bv32 := 0
  const GpuAccessShift: bv32 := 2
  const AccessMask: bv32 := 3           // DkMemAccess_Mask
  const AccessNone: bv32 := 0           // DkMemAccess_None
  const AccessUncached: bv32 := 1       // DkMemAccess_Uncached
  const AccessCached: bv32 := 2         // DkMemAccess_Cached
  const CpuAccessMask: bv32 := 3        // AccessMask << CpuAccessShift
  const GpuAccessMask: bv32 := 0xC      // AccessMask << GpuAccessShift
  const CodeFlag: bv32 := 0x10          // DkMemBlockFlags_Code
  const ImageFlag: bv32 := 0x20         // DkMemBlockFlags_Image

  /** DK_MEMBLOCK_ALIGNMENT */
  const MemBlockAlignment: nat := 0x1000

  function CpuAccess(flags: bv32): bv32 { (flags >> CpuAccessShift) & AccessMask }
  function GpuAccess(flags: bv32): bv32 { (flags >> GpuAccessShift) & AccessMask }

  predicate IsCpuCached(flags: bv32) { CpuAccess(flags) == AccessCached }
  predicate IsGpuCached(flags: bv32) { GpuAccess(flags) == AccessCached }
  predicate IsGpuNoAccess(flags: bv32) { GpuAccess(flags) == AccessNone }
  predicate IsCode(flags: bv32) { flags & CodeFlag != 0 }

  /** Lines 6-8: the flags with both access fields cleared; the image test of
      line 10 is made on this value. */
  function StripAccess(flags: bv32): (r: bv32)
    ensures r & (CpuAccessMask | GpuAccessMask) == 0
    ensures r & !(CpuAccessMask | GpuAccessMask) == flags & !(CpuAccessMask | GpuAccessMask)
  {
    flags & !(CpuAccessMask | GpuAccessMask)
  }

  /** Lines 6-8 and 13-14: extract both access fields, clear them and put them
      back at their canonical positions. With the present layout the
      transformation is the identity, which is stronger than what it is meant to
      guarantee: bits outside the access masks are kept, the access fields read
      back unchanged, and applying it twice gives the same value. */
  function NormalizeFlags(flags: bv32): (r: bv32)
    ensures r == flags
  {
    StripAccess(flags) | (CpuAccess(flags) << CpuAccessShift) | (GpuAccess(flags) << GpuAccessShift)
  }

  lemma NormalizeKeepsOtherBits(flags: bv32)
    ensures NormalizeFlags(flags) & !(CpuAccessMask | GpuAccessMask) == flags & !(CpuAccessMask | GpuAccessMask)
    ensures CpuAccess(NormalizeFlags(flags)) == CpuAccess(flags)
    ensures GpuAccess(NormalizeFlags(flags)) == GpuAccess(flags)
  {
  }

  lemma NormalizeIdempotent(flags: bv32)
    ensures NormalizeFlags(NormalizeFlags(flags)) == NormalizeFlags(flags)
  {
  }

  /** The image test on the stripped flags is the image bit of the caller's flags. */
  lemma ImageTestSeesCallerFlags(flags: bv32)
    ensures (StripAccess(flags) & ImageFlag != 0) == (flags & ImageFlag != 0)
  {
  }

  // ---------------------------------------------------------------------
  // The driver and the code segment, as the block sees them
  // ---------------------------------------------------------------------

  /** A host memory address; 0 is null. */
  type Ptr = nat
  const NullPtr: Ptr := 0

  /** An initialised NvMap object (m_mapObj). An uninitialised one is `None`. */
  datatype NvMap = NvMap(handle: nat, storage: Ptr, size: u32, cpuCached: bool)

  /** One call into the driver, with its outcome. */
  datatype DriverCall =
    | ObjAlloc(ok: bool)
    | MemAlloc(ptr: Ptr, size: u32, align: u32)       // ptr == NullPtr: failed
    | MemFree(ptr: Ptr)
    | NvMapCreate(storage: Ptr, size: u32, align: u32, cpuCached: bool, ok: bool)
    | NvMapClose(closed: Option<nat>)                   // None: no-op on an uninitialised object
    | AsMap(handle: nat, gpuCached: bool, ok: bool, addr: u64)
    | CodeAlloc(size: u32, ok: bool, addr: u64)
    | AsMapFixed(handle: nat, gpuCached: bool, addr: u64, ok: bool)
    | AsUnmap(addr: u64)
    | CodeFree(addr: u64, size: u32)

  /** The parts of the device a memory block uses: host memory (allocMem /
      freeMem), nvmap objects, the GPU address space and the code segment. */
  class Device {
    const bigPageSize: u32
    const codeSegBase: u64
    const codeSegSize: nat
    var liveMem: set<Ptr>
    var openMaps: set<nat>
    var mappings: map<u64, nat>      // GPU address -> nvmap handle mapped there
    var reserved: map<u64, nat>      // code-segment reservations: base -> size
    var nextId: nat
    ghost var log: seq<DriverCall>

    ghost predicate Valid()
      reads this
    {
      && codeSegBase + codeSegSize <= Two64
      && codeSegSize < Two32
      && nextId > 0
      && NullPtr !in liveMem
      && (forall p :: p in liveMem ==> p < nextId)
      && (forall h :: h in openMaps ==> h < nextId)
      && GpuAddrInvalid !in mappings
      && (forall a :: a in reserved ==> InCodeSeg(a, reserved[a]))
      && (forall a, b :: a in reserved && b in reserved && a != b ==>
            a + reserved[a] <= b || b + reserved[b] <= a)
    }

    predicate InCodeSeg(addr: nat, size: nat)
    {
      codeSegBase <= addr && addr + size <= codeSegBase + codeSegSize
    }

    constructor (bigPageSize: u32, codeSegBase: u64, codeSegSize: nat)
      requires codeSegBase + codeSegSize <= Two64 && codeSegSize < Two32
      ensures Valid()
      ensures this.bigPageSize == bigPageSize && this.codeSegBase == codeSegBase
      ensures this.codeSegSize == codeSegSize
      ensures liveMem == {} && openMaps == {} && mappings == map[] && reserved == map[]
      ensures log == []
    {
      this.bigPageSize := bigPageSize;
      this.codeSegBase := codeSegBase;
      this.codeSegSize := codeSegSize;
      liveMem, openMaps, mappings, reserved := {}, {}, map[], map[];
      nextId := 1;
      log := [];
    }

    /** The device allocator behind `new(device)`; it may fail. */
    method AllocObject() returns (ok: bool)
      requires Valid()
      modifies this
      ensures Valid() && log == old(log) + [ObjAlloc(ok)]
      ensures liveMem == old(liveMem) && openMaps == old(openMaps)
      ensures mappings == old(mappings) && reserved == old(reserved)
    {
      ok := *;
      log := log + [ObjAlloc(ok)];
    }

    /** allocMem: a fresh non-null address with the requested alignment, or
        null when memory is exhausted. */
    method AllocMem(size: u32, align: u32) returns (p: Ptr)
      requires Valid() && align > 0
      modifies this
      ensures Valid() && log == old(log) + [MemAlloc(p, size, align)]
      ensures p % align == 0
      ensures p == NullPtr ==> liveMem == old(liveMem)
      ensures p != NullPtr ==> p !in old(liveMem) && liveMem == old(liveMem) + {p}
      ensures openMaps == old(openMaps) && mappings == old(mappings) && reserved == old(reserved)
    {
      var pick: nat := *;
      var ok: bool := *;
      ok := ok && pick >= nextId && pick % align == 0;
      if ok {
        p := pick;
        nextId := pick + 1;
        liveMem := liveMem + {p};
      } else {
        p := NullPtr;
      }
      log := log + [MemAlloc(p, size, align)];
    }

    /** freeMem: only memory that is live may be freed. */
    method FreeMem(p: Ptr)
      requires Valid() && p in liveMem
      modifies this
      ensures Valid() && log == old(log) + [MemFree(p)]
      ensures liveMem == old(liveMem) - {p}
      ensures openMaps == old(openMaps) && mappings == old(mappings) && reserved == old(reserved)
    {
      liveMem := liveMem - {p};
      log := log + [MemFree(p)];
    }

    /** nvMapCreate: registers storage with nvmap, at the given alignment and
        CPU caching; it may fail. */
    method MapCreate(storage: Ptr, size: u32, align: u32, cpuCached: bool) returns (ok: bool, m: NvMap)
      requires Valid()
      modifies this
      ensures Valid() && log == old(log) + [NvMapCreate(storage, size, align, cpuCached, ok)]
      ensures ok ==> m.handle !in old(openMaps) && openMaps == old(openMaps) + {m.handle}
      ensures ok ==> m.storage == storage && m.size == size && m.cpuCached == cpuCached
      ensures !ok ==> openMaps == old(openMaps)
      ensures liveMem == old(liveMem) && mappings == old(mappings) && reserved == old(reserved)
    {
      ok := *;
      m := NvMap(nextId, storage, size, cpuCached);
      if ok {
        nextId := nextId + 1;
        openMaps := openMaps + {m.handle};
      }
      log := log + [NvMapCreate(storage, size, align, cpuCached, ok)];
    }

    /** nvMapClose: does nothing on an uninitialised object. */
    method MapClose(m: Option<NvMap>)
      requires Valid() && (m.Some? ==> m.value.handle in openMaps)
      modifies this
      ensures Valid()
      ensures log == old(log) + [NvMapClose(if m.Some? then Some(m.value.handle) else None)]
      ensures openMaps == if m.Some? then old(openMaps) - {m.value.handle} else old(openMaps)
      ensures liveMem == old(liveMem) && mappings == old(mappings) && reserved == old(reserved)
    {
      if m.Some? {
        openMaps := openMaps - {m.value.handle};
      }
      log := log + [NvMapClose(if m.Some? then Some(m.value.handle) else None)];
    }

    /** nvAddressSpaceMap: the driver picks an unused address; it may fail. */
    method AddressSpaceMap(handle: nat, gpuCached: bool) returns (ok: bool, addr: u64)
      requires Valid() && handle in openMaps
      modifies this
      ensures Valid() && log == old(log) + [AsMap(handle, gpuCached, ok, addr)]
      ensures ok ==> addr != GpuAddrInvalid && addr !in old(mappings)
      ensures mappings == if ok then old(mappings)[addr := handle] else old(mappings)
      ensures liveMem == old(liveMem) && openMaps == old(openMaps) && reserved == old(reserved)
    {
      var pick: int := *;
      ok := *;
      ok := ok && 0 <= pick < GpuAddrInvalid && pick !in mappings;
      addr := if ok then pick else GpuAddrInvalid;
      if ok {
        mappings := mappings[addr := handle];
      }
      log := log + [AsMap(handle, gpuCached, ok, addr)];
    }

    /** CodeSeg::allocSpace: a range of `size` bytes inside the code segment that
        overlaps no live reservation, or failure. How the range is chosen is the
        allocator's business and is not modelled. */
    method AllocSpace(size: u32) returns (ok: bool, addr: u64)
      requires Valid()
      modifies this
      ensures Valid() && log == old(log) + [CodeAlloc(size, ok, addr)]
      ensures ok ==> addr !in old(reserved) && InCodeSeg(addr, size) && addr != GpuAddrInvalid
      ensures ok ==> forall b :: b in old(reserved) ==> addr + size <= b || b + old(reserved)[b] <= addr
      ensures reserved == if ok then old(reserved)[addr := size as nat] else old(reserved)
      ensures liveMem == old(liveMem) && openMaps == old(openMaps) && mappings == old(mappings)
    {
      var pick: int := *;
      ok := *;
      ok := ok && 0 <= pick < GpuAddrInvalid && pick !in reserved && InCodeSeg(pick, size)
        && forall b :: b in reserved ==> pick + size <= b || b + reserved[b] <= pick;
      addr := if ok then pick else GpuAddrInvalid;
      if ok {
        reserved := reserved[addr := size as nat];
      }
      log := log + [CodeAlloc(size, ok, addr)];
    }

    /** CodeSeg::freeSpace: only a live reservation, with its own size. */
    method FreeSpace(addr: u64, size: u32)
      requires Valid() && addr in reserved && reserved[addr] == size
      modifies this
      ensures Valid() && log == old(log) + [CodeFree(addr, size)]
      ensures reserved == old(reserved) - {addr}
      ensures liveMem == old(liveMem) && openMaps == old(openMaps) && mappings == old(mappings)
    {
      reserved := reserved - {addr};
      log := log + [CodeFree(addr, size)];
    }

    /** CodeSeg::calcOffset: the position of an address inside the code segment. */
    function CalcOffset(addr: u64): (r: u32)
      requires codeSegBase <= addr <= codeSegBase + codeSegSize && codeSegSize < Two32
      ensures codeSegBase + r == addr
    {
      addr - codeSegBase
    }

    /** nvAddressSpaceMapFixed: maps at a given address; it may fail. */
    method AddressSpaceMapFixed(handle: nat, gpuCached: bool, addr: u64) returns (ok: bool)
      requires Valid() && handle in openMaps && addr != GpuAddrInvalid
      modifies this
      ensures Valid() && log == old(log) + [AsMapFixed(handle, gpuCached, addr, ok)]
      ensures ok ==> addr !in old(mappings)
      ensures mappings == if ok then old(mappings)[addr := handle] else old(mappings)
      ensures liveMem == old(liveMem) && openMaps == old(openMaps) && reserved == old(reserved)
    {
      ok := *;
      ok := ok && addr !in mappings;
      if ok {
        mappings := mappings[addr := handle];
      }
      log := log + [AsMapFixed(handle, gpuCached, addr, ok)];
    }

    /** nvAddressSpaceUnmap: only a live mapping. */
    method AddressSpaceUnmap(addr: u64)
      requires Valid() && addr in mappings
      modifies this
      ensures Valid() && log == old(log) + [AsUnmap(addr)]
      ensures mappings == old(mappings) - {addr}
      ensures liveMem == old(liveMem) && openMaps == old(openMaps) && reserved == old(reserved)
    {
      mappings := mappings - {addr};
      log := log + [AsUnmap(addr)];
    }
  }

  /** Every address-space mapping in `log` from index `from` on maps the
      block's map object `m`, with the given GPU caching; with no map object
      there is none. */
  ghost predicate MapsWith(log: seq<DriverCall>, from: nat, m: Option<NvMap>, gpuCached: bool)
  {
    forall i :: from <= i < |log| && (log[i].AsMap? || log[i].AsMapFixed?) ==>
      m.Some? && log[i].handle == m.value.handle && log[i].gpuCached == gpuCached
  }

  /** The calls `destroy` makes, in order, for a block in the given state. */
  function DestroyCalls(gpuAddr: u64, code: bool, mapObj: Option<NvMap>, ownedMem: Ptr): seq<DriverCall>
  {
    (if gpuAddr != GpuAddrInvalid then
       [AsUnmap(gpuAddr)] + (if code && mapObj.Some? then [CodeFree(gpuAddr, mapObj.value.size)] else [])
     else [])
    + [NvMapClose(if mapObj.Some? then Some(mapObj.value.handle) else None)]
    + (if ownedMem != NullPtr then [MemFree(ownedMem)] else [])
  }

  /** A block that holds nothing releases nothing: destroy only closes an
      uninitialised map object, which is a no-op. */
  lemma EmptyBlockDestroyReleasesNothing(flags: bv32)
    ensures DestroyCalls(GpuAddrInvalid, IsCode(flags), None, NullPtr) == [NvMapClose(None)]
  {
  }

  // ---------------------------------------------------------------------
  // The block
  // ---------------------------------------------------------------------

  class MemBlock {
    var flags: bv32
    var ownedMem: Ptr
    var mapObj: Option<NvMap>
    var gpuAddrPitch: u64
    var codeSegOffset: u32

    /** What the block holds is live in the driver: owned memory is allocated,
        the map object is open, the GPU address is mapped to this block's
        handle, and a code block's address is a code-segment reservation of the
        block's size. */
    ghost predicate Valid(dev: Device)
      reads this, dev
    {
      && (ownedMem != NullPtr ==> ownedMem in dev.liveMem)
      && (mapObj.Some? ==> mapObj.value.handle in dev.openMaps)
      && (gpuAddrPitch != GpuAddrInvalid ==>
            && mapObj.Some?
            && gpuAddrPitch in dev.mappings
            && dev.mappings[gpuAddrPitch] == mapObj.value.handle)
      && (gpuAddrPitch != GpuAddrInvalid && IsCode(flags) ==>
            gpuAddrPitch in dev.reserved && dev.reserved[gpuAddrPitch] == mapObj.value.size)
    }

    /** Holds no resource. */
    predicate IsEmpty()
      reads this
    {
      ownedMem == NullPtr && mapObj.None? && gpuAddrPitch == GpuAddrInvalid
    }

    /** getSize(): the size recorded in the map object. */
    function Size(): u32
      reads this
    {
      if mapObj.Some? then mapObj.value.size else 0
    }

    /** The state the tag_DkMemBlock constructor leaves. */
    constructor ()
      ensures IsEmpty() && flags == 0 && codeSegOffset == 0
    {
      flags := 0;
      ownedMem := NullPtr;
      mapObj := None;
      gpuAddrPitch := GpuAddrInvalid;
      codeSegOffset := 0;
    }

    /** tag_DkMemBlock::initialize (lines 4-64). Resources acquired before a
        failure stay recorded in the block, so that `Destroy` releases them;
        the one exception is a code-segment reservation whose fixed mapping
        failed, which `MapPitch` releases itself. */
    method Initialize(dev: Device, flags: bv32, storage: Ptr, size: u32) returns (r: DkResult)
      requires dev.Valid() && IsEmpty()
      modifies this, dev
      ensures dev.Valid() && Valid(dev)
      ensures r in {Success, Fail, OutOfMemory, NotImplemented}
      ensures old(dev.log) <= dev.log
      // an image block is refused before anything is touched
      ensures (flags & ImageFlag != 0) <==> r == NotImplemented
      ensures r == NotImplemented ==>
                dev.log == old(dev.log) && this.flags == old(this.flags) && IsEmpty()
      ensures r != NotImplemented ==> this.flags == NormalizeFlags(flags)
      // storage: owned iff none was passed; a failed allocation maps nothing
      ensures r != NotImplemented && storage == NullPtr ==>
                |dev.log| > |old(dev.log)| && dev.log[|old(dev.log)|].MemAlloc?
                && ownedMem == dev.log[|old(dev.log)|].ptr
                && dev.log[|old(dev.log)|].size == size
                && dev.log[|old(dev.log)|].align == MemBlockAlignment
      // line 19: owned memory has the block alignment
      ensures ownedMem % MemBlockAlignment == 0
      ensures storage != NullPtr ==> ownedMem == NullPtr
      ensures r == OutOfMemory <==> r != NotImplemented && storage == NullPtr && ownedMem == NullPtr
      ensures r == OutOfMemory ==>
                dev.log == old(dev.log) + [MemAlloc(NullPtr, size, MemBlockAlignment)] && mapObj.None?
                && dev.openMaps == old(dev.openMaps)
      // a successful block is mapped iff GPU access was requested
      ensures r == Success ==> mapObj.Some? && mapObj.value.size == size
      ensures r == Success ==> (gpuAddrPitch == GpuAddrInvalid <==> IsGpuNoAccess(flags))
      ensures r == Success && IsCode(flags) && !IsGpuNoAccess(flags) ==>
                dev.reserved == old(dev.reserved)[gpuAddrPitch := size as nat]
                && codeSegOffset == dev.CalcOffset(gpuAddrPitch)
      ensures !IsCode(flags) || r != Success || IsGpuNoAccess(flags) ==>
                dev.reserved == old(dev.reserved)
      // every failure leaves the block unmapped, with no reservation kept
      ensures r != Success ==> gpuAddrPitch == GpuAddrInvalid
      ensures forall i :: |old(dev.log)| <= i < |dev.log| && dev.log[i].AsMapFixed? && !dev.log[i].ok ==>
                r == Fail && i == |dev.log| - 2 && dev.log[i + 1] == CodeFree(dev.log[i].addr, size)
      // the driver's resources grow by exactly what the block now holds
      ensures dev.liveMem == old(dev.liveMem) + (if ownedMem != NullPtr then {ownedMem} else {})
      ensures dev.openMaps == old(dev.openMaps) + (if mapObj.Some? then {mapObj.value.handle} else {})
      ensures dev.mappings == if gpuAddrPitch != GpuAddrInvalid
                              then old(dev.mappings)[gpuAddrPitch := mapObj.value.handle]
                              else old(dev.mappings)
      ensures ownedMem != NullPtr ==> ownedMem !in old(dev.liveMem)
      ensures mapObj.Some? ==> mapObj.value.handle !in old(dev.openMaps)
      ensures gpuAddrPitch != GpuAddrInvalid ==> gpuAddrPitch !in old(dev.mappings)
      // the mappings use the block's map object and its GPU caching (lines 36, 49)
      // lines 17-26: the caller's storage, or the block's own memory when none
      // was passed, is registered with nvmap
      ensures r != NotImplemented && r != OutOfMemory ==>
                |dev.log| > |old(dev.log)| + (if storage == NullPtr then 1 else 0)
                && dev.log[|old(dev.log)| + (if storage == NullPtr then 1 else 0)]
                   == NvMapCreate(if storage == NullPtr then ownedMem else storage, size,
                                  dev.bigPageSize, IsCpuCached(flags), mapObj.Some?)
      ensures mapObj.Some? ==>
                mapObj.value.storage == (if storage == NullPtr then ownedMem else storage)
                && mapObj.value.size == size && mapObj.value.cpuCached == IsCpuCached(flags)
      ensures MapsWith(dev.log, |old(dev.log)|, mapObj, IsGpuCached(flags))
    {
      var f := StripAccess(flags);
      if f & ImageFlag != 0 {
        return NotImplemented;
      }
      this.flags := NormalizeFlags(flags);
      r := UseStorage(dev, storage, size);
    }

    /** Lines 16-62 for an empty block whose flags are set: memory of its own
        when no storage is passed, then registration and mapping. */
    method UseStorage(dev: Device, storage: Ptr, size: u32) returns (r: DkResult)
      requires dev.Valid() && IsEmpty()
      modifies this`ownedMem, this`mapObj, this`gpuAddrPitch, this`codeSegOffset, dev
      ensures dev.Valid() && Valid(dev)
      ensures r in {Success, Fail, OutOfMemory}
      ensures old(dev.log) <= dev.log
      ensures storage == NullPtr ==>
                |dev.log| > |old(dev.log)| && dev.log[|old(dev.log)|].MemAlloc?
                && ownedMem == dev.log[|old(dev.log)|].ptr
                && dev.log[|old(dev.log)|].size == size
                && dev.log[|old(dev.log)|].align == MemBlockAlignment
      // line 19: owned memory has the block alignment
      ensures ownedMem % MemBlockAlignment == 0
      ensures storage != NullPtr ==> ownedMem == NullPtr
      ensures r == OutOfMemory <==> storage == NullPtr && ownedMem == NullPtr
      ensures r == OutOfMemory ==>
                dev.log == old(dev.log) + [MemAlloc(NullPtr, size, MemBlockAlignment)] && mapObj.None?
                && dev.openMaps == old(dev.openMaps)
      ensures r == Success ==> mapObj.Some? && mapObj.value.size == size
      ensures r == Success ==> (gpuAddrPitch == GpuAddrInvalid <==> IsGpuNoAccess(flags))
      ensures r == Success && IsCode(flags) && !IsGpuNoAccess(flags) ==>
                dev.reserved == old(dev.reserved)[gpuAddrPitch := size as nat]
                && codeSegOffset == dev.CalcOffset(gpuAddrPitch)
      ensures !IsCode(flags) || r != Success || IsGpuNoAccess(flags) ==>
                dev.reserved == old(dev.reserved)
      ensures r != Success ==> gpuAddrPitch == GpuAddrInvalid
      ensures forall i :: |old(dev.log)| <= i < |dev.log| && dev.log[i].AsMapFixed? && !dev.log[i].ok ==>
                r == Fail && i == |dev.log| - 2 && dev.log[i + 1] == CodeFree(dev.log[i].addr, size)
      ensures dev.liveMem == old(dev.liveMem) + (if ownedMem != NullPtr then {ownedMem} else {})
      ensures dev.openMaps == old(dev.openMaps) + (if mapObj.Some? then {mapObj.value.handle} else {})
      ensures dev.mappings == if gpuAddrPitch != GpuAddrInvalid
                              then old(dev.mappings)[gpuAddrPitch := mapObj.value.handle]
                              else old(dev.mappings)
      ensures ownedMem != NullPtr ==> ownedMem !in old(dev.liveMem)
      ensures mapObj.Some? ==> mapObj.value.handle !in old(dev.openMaps)
      ensures gpuAddrPitch != GpuAddrInvalid ==> gpuAddrPitch !in old(dev.mappings)
      // lines 17-26: the caller's storage, or the block's own memory when none
      // was passed, is registered with nvmap
      ensures r != OutOfMemory ==>
                |dev.log| > |old(dev.log)| + (if storage == NullPtr then 1 else 0)
                && dev.log[|old(dev.log)| + (if storage == NullPtr then 1 else 0)]
                   == NvMapCreate(if storage == NullPtr then ownedMem else storage, size,
                                  dev.bigPageSize, IsCpuCached(flags), mapObj.Some?)
      ensures mapObj.Some? ==>
                mapObj.value.storage == (if storage == NullPtr then ownedMem else storage)
                && mapObj.value.size == size && mapObj.value.cpuCached == IsCpuCached(flags)
      ensures MapsWith(dev.log, |old(dev.log)|, mapObj, IsGpuCached(flags))
    {
      var store := storage;
      if storage == NullPtr {
        ownedMem := dev.AllocMem(size, MemBlockAlignment);
        if ownedMem == NullPtr {
          return OutOfMemory;
        }
        store := ownedMem;
      }
      r := Register(dev, store, size);
    }

    /** Lines 24-62: the nvmap object for the storage, then the pitch mapping. */
    method Register(dev: Device, store: Ptr, size: u32) returns (r: DkResult)
      requires dev.Valid() && Valid(dev) && mapObj.None? && gpuAddrPitch == GpuAddrInvalid
      modifies this`mapObj, this`gpuAddrPitch, this`codeSegOffset, dev
      ensures dev.Valid() && Valid(dev)
      ensures r in {Success, Fail}
      // line 26: the storage, aligned to the big page size, with the block's CPU caching
      ensures old(dev.log) < dev.log
              && dev.log[|old(dev.log)|] == NvMapCreate(store, size, dev.bigPageSize, IsCpuCached(flags), mapObj.Some?)
      ensures mapObj.Some? ==>
                mapObj.value.storage == store && mapObj.value.size == size
                && mapObj.value.cpuCached == IsCpuCached(flags)
      ensures r == Success ==> mapObj.Some? && mapObj.value.size == size
      ensures r == Success ==> (gpuAddrPitch == GpuAddrInvalid <==> IsGpuNoAccess(flags))
      ensures r == Success && IsCode(flags) && !IsGpuNoAccess(flags) ==>
                dev.reserved == old(dev.reserved)[gpuAddrPitch := size as nat]
                && codeSegOffset == dev.CalcOffset(gpuAddrPitch)
      ensures !IsCode(flags) || r != Success || IsGpuNoAccess(flags) ==>
                dev.reserved == old(dev.reserved)
      ensures r != Success ==> gpuAddrPitch == GpuAddrInvalid
      ensures forall i :: |old(dev.log)| <= i < |dev.log| && dev.log[i].AsMapFixed? && !dev.log[i].ok ==>
                r == Fail && i == |dev.log| - 2 && dev.log[i + 1] == CodeFree(dev.log[i].addr, size)
      ensures dev.liveMem == old(dev.liveMem)
      ensures dev.openMaps == old(dev.openMaps) + (if mapObj.Some? then {mapObj.value.handle} else {})
      ensures mapObj.Some? ==> mapObj.value.handle !in old(dev.openMaps)
      ensures dev.mappings == if gpuAddrPitch != GpuAddrInvalid
                              then old(dev.mappings)[gpuAddrPitch := mapObj.value.handle]
                              else old(dev.mappings)
      ensures gpuAddrPitch != GpuAddrInvalid ==> gpuAddrPitch !in old(dev.mappings)
      ensures MapsWith(dev.log, |old(dev.log)|, mapObj, IsGpuCached(flags))
    {
      var ok, m := dev.MapCreate(store, size, dev.bigPageSize, IsCpuCached(flags));
      if !ok {
        return Fail;
      }
      mapObj := Some(m);

      ghost var before := dev.log;
      r := MapPitch(dev, size);
      assert forall i :: |old(dev.log)| <= i < |before| ==> !dev.log[i].AsMapFixed?;
    }

    /** Lines 29-61: the pitch mapping of a block whose map object exists. A
        non-code block is placed by the system; a code block gets a range of
        the code segment and a fixed mapping there, and a failed fixed
        mapping gives the range back. */
    method MapPitch(dev: Device, size: u32) returns (r: DkResult)
      requires dev.Valid() && Valid(dev)
      requires mapObj.Some? && mapObj.value.size == size && gpuAddrPitch == GpuAddrInvalid
      modifies this`gpuAddrPitch, this`codeSegOffset, dev
      ensures dev.Valid() && Valid(dev)
      ensures r in {Success, Fail}
      ensures old(dev.log) <= dev.log
      ensures r == Success ==> (gpuAddrPitch == GpuAddrInvalid <==> IsGpuNoAccess(flags))
      ensures r == Success && IsCode(flags) && !IsGpuNoAccess(flags) ==>
                dev.reserved == old(dev.reserved)[gpuAddrPitch := size as nat]
                && codeSegOffset == dev.CalcOffset(gpuAddrPitch)
      ensures !IsCode(flags) || r != Success || IsGpuNoAccess(flags) ==>
                dev.reserved == old(dev.reserved)
      ensures r != Success ==> gpuAddrPitch == GpuAddrInvalid
      ensures forall i :: |old(dev.log)| <= i < |dev.log| && dev.log[i].AsMapFixed? && !dev.log[i].ok ==>
                r == Fail && i == |dev.log| - 2 && dev.log[i + 1] == CodeFree(dev.log[i].addr, size)
      ensures dev.liveMem == old(dev.liveMem) && dev.openMaps == old(dev.openMaps)
      ensures dev.mappings == if gpuAddrPitch != GpuAddrInvalid
                              then old(dev.mappings)[gpuAddrPitch := mapObj.value.handle]
                              else old(dev.mappings)
      ensures gpuAddrPitch != GpuAddrInvalid ==> gpuAddrPitch !in old(dev.mappings)
      ensures MapsWith(dev.log, |old(dev.log)|, mapObj, IsGpuCached(flags))
    {
      var m := mapObj.value;
      if IsGpuNoAccess(flags) {
        return Success;
      }
      if !IsCode(flags) {
        // the system places a non-code block
        var mapped, addr := dev.AddressSpaceMap(m.handle, IsGpuCached(flags));
        if !mapped {
          return Fail;
        }
        gpuAddrPitch := addr;
        return Success;
      }
      r := MapCode(dev, size);
    }

    /** Lines 41-58: a code block gets a range of the code segment and a fixed
        mapping there; a failed fixed mapping gives the range back. */
    method MapCode(dev: Device, size: u32) returns (r: DkResult)
      requires dev.Valid() && Valid(dev) && IsCode(flags)
      requires mapObj.Some? && mapObj.value.size == size && gpuAddrPitch == GpuAddrInvalid
      modifies this`gpuAddrPitch, this`codeSegOffset, dev
      ensures dev.Valid() && Valid(dev)
      ensures r in {Success, Fail}
      ensures old(dev.log) <= dev.log
      ensures r == Success ==>
                && gpuAddrPitch != GpuAddrInvalid && gpuAddrPitch !in old(dev.mappings)
                && dev.mappings == old(dev.mappings)[gpuAddrPitch := mapObj.value.handle]
                && dev.reserved == old(dev.reserved)[gpuAddrPitch := size as nat]
                && codeSegOffset == dev.CalcOffset(gpuAddrPitch)
      ensures r == Fail ==>
                gpuAddrPitch == GpuAddrInvalid && dev.mappings == old(dev.mappings) && dev.reserved == old(dev.reserved)
      ensures forall i :: |old(dev.log)| <= i < |dev.log| && dev.log[i].AsMapFixed? && !dev.log[i].ok ==>
                r == Fail && i == |dev.log| - 2 && dev.log[i + 1] == CodeFree(dev.log[i].addr, size)
      ensures dev.liveMem == old(dev.liveMem) && dev.openMaps == old(dev.openMaps)
      ensures MapsWith(dev.log, |old(dev.log)|, mapObj, IsGpuCached(flags))
    {
      ghost var log0 := dev.log;
      var got, addr := dev.AllocSpace(size);
      if !got {
        assert dev.log == log0 + [CodeAlloc(size, false, addr)];
        return Fail;
      }
      ghost var reserved0 := old(dev.reserved);
      ghost var h := mapObj.value.handle;
      r := MapReserved(dev, addr, size);
      if r == Fail {
        assert dev.reserved == reserved0;
        assert dev.log == log0 + [CodeAlloc(size, true, addr), AsMapFixed(h, IsGpuCached(flags), addr, false), CodeFree(addr, size)];
      } else {
        assert dev.log == log0 + [CodeAlloc(size, true, addr), AsMapFixed(h, IsGpuCached(flags), addr, true)];
      }
      assert dev.log[|log0| + 1].AsMapFixed? && dev.log[|log0| + 1].handle == h;
    }

    /** Lines 47-57: the fixed mapping at a freshly reserved code-segment
        address; if it fails, the reservation is given back. */
    method MapReserved(dev: Device, addr: u64, size: u32) returns (r: DkResult)
      requires dev.Valid() && Valid(dev) && IsCode(flags)
      requires mapObj.Some? && mapObj.value.size == size && gpuAddrPitch == GpuAddrInvalid
      requires addr != GpuAddrInvalid && addr in dev.reserved && dev.reserved[addr] == size
      requires dev.InCodeSeg(addr, size)
      modifies this`gpuAddrPitch, this`codeSegOffset, dev
      ensures dev.Valid() && Valid(dev)
      ensures r in {Success, Fail}
      ensures r == Success ==>
                && gpuAddrPitch == addr && addr !in old(dev.mappings)
                && dev.mappings == old(dev.mappings)[addr := mapObj.value.handle]
                && dev.reserved == old(dev.reserved)
                && codeSegOffset == dev.CalcOffset(addr)
                && dev.log == old(dev.log) + [AsMapFixed(mapObj.value.handle, IsGpuCached(flags), addr, true)]
      ensures r == Fail ==>
                && gpuAddrPitch == GpuAddrInvalid
                && dev.mappings == old(dev.mappings) && dev.reserved == old(dev.reserved) - {addr}
                && dev.log == old(dev.log) + [AsMapFixed(mapObj.value.handle, IsGpuCached(flags), addr, false), CodeFree(addr, size)]
      ensures dev.liveMem == old(dev.liveMem) && dev.openMaps == old(dev.openMaps)
    {
      var m := mapObj.value;
      gpuAddrPitch := addr;
      var mapped := dev.AddressSpaceMapFixed(m.handle, IsGpuCached(flags), gpuAddrPitch);
      if !mapped {
        dev.FreeSpace(gpuAddrPitch, size);
        gpuAddrPitch := GpuAddrInvalid;
        return Fail;
      }
      codeSegOffset := dev.CalcOffset(gpuAddrPitch);
      return Success;
    }

    /** tag_DkMemBlock::destroy (lines 66-82): unmap (and give back the code
        segment range) only when mapped, always close the map object, free
        owned memory only when owned; afterwards the block holds nothing. */
    method Destroy(dev: Device)
      requires dev.Valid() && Valid(dev)
      modifies this, dev
      ensures dev.Valid() && Valid(dev) && IsEmpty()
      ensures flags == old(flags)
      ensures dev.log == old(dev.log) + DestroyCalls(old(gpuAddrPitch), IsCode(flags), old(mapObj), old(ownedMem))
      ensures dev.liveMem == old(dev.liveMem) - {old(ownedMem)}
      ensures dev.openMaps == if old(mapObj).Some? then old(dev.openMaps) - {old(mapObj).value.handle}
                              else old(dev.openMaps)
      ensures dev.mappings == old(dev.mappings) - {old(gpuAddrPitch)}
      ensures dev.reserved == if old(gpuAddrPitch) != GpuAddrInvalid && IsCode(flags)
                              then old(dev.reserved) - {old(gpuAddrPitch)}
                              else old(dev.reserved)
      ensures old(IsEmpty()) ==>
                dev.liveMem == old(dev.liveMem) && dev.openMaps == old(dev.openMaps)
                && dev.mappings == old(dev.mappings) && dev.reserved == old(dev.reserved)
    {
      if gpuAddrPitch != GpuAddrInvalid {
        dev.AddressSpaceUnmap(gpuAddrPitch);
        if IsCode(flags) {
          dev.FreeSpace(gpuAddrPitch, Size());
        }
        gpuAddrPitch := GpuAddrInvalid;
      }

      dev.MapClose(mapObj);
      mapObj := None;
      if ownedMem != NullPtr {
        dev.FreeMem(ownedMem);
        ownedMem := NullPtr;
      }
    }

    /** dkMemBlockFlushCpuCache (lines 128-133): nothing to do for memory the
        CPU does not cache; cache maintenance itself is not implemented. */
    function FlushCpuCache(offset: u32, size: u32): (r: DkResult)
      reads this
      ensures r == Success <==> !IsCpuCached(flags)
      ensures r != Success ==> r == NotImplemented
    {
      if !IsCpuCached(flags) then Success else NotImplemented
    }

    /** dkMemBlockInvalidateCpuCache (lines 135-140), the same contract. */
    function InvalidateCpuCache(offset: u32, size: u32): (r: DkResult)
      reads this
      ensures r == Success <==> !IsCpuCached(flags)
      ensures r == NotImplemented <==> IsCpuCached(flags)
    {
      if !IsCpuCached(flags) then Success else NotImplemented
    }
  }

  /** Destroying twice releases nothing the second time. */
  method DestroyTwice(dev: Device, b: MemBlock)
    requires dev.Valid() && b.Valid(dev)
    modifies b, dev
    ensures dev.Valid() && b.Valid(dev) && b.IsEmpty()
    ensures dev.log == old(dev.log)
                       + DestroyCalls(old(b.gpuAddrPitch), IsCode(b.flags), old(b.mapObj), old(b.ownedMem))
                       + [NvMapClose(None)]
    ensures dev.liveMem == old(dev.liveMem) - {old(b.ownedMem)}
    ensures dev.openMaps == if old(b.mapObj).Some? then old(dev.openMaps) - {old(b.mapObj).value.handle}
                            else old(dev.openMaps)
    ensures dev.mappings == old(dev.mappings) - {old(b.gpuAddrPitch)}
    ensures dev.reserved == if old(b.gpuAddrPitch) != GpuAddrInvalid && IsCode(b.flags)
                            then old(dev.reserved) - {old(b.gpuAddrPitch)}
                            else old(dev.reserved)
  {
    b.Destroy(dev);
    ghost var mid := dev.log;
    ghost var live, maps, mapped, res := dev.liveMem, dev.openMaps, dev.mappings, dev.reserved;
    b.Destroy(dev);
    assert dev.log == mid + [NvMapClose(None)];
    assert dev.liveMem == live && dev.openMaps == maps && dev.mappings == mapped && dev.reserved == res;
  }

  /** The DEBUG-build checks of dkMemBlockCreate (lines 87-92): the size,
      then the storage address, must be multiples of the block alignment. */
  function DebugRefusal(debug: bool, storage: Ptr, size: u32): (r: Option<DkResult>)
    ensures r.None? <==> !debug || (size % MemBlockAlignment == 0 && storage % MemBlockAlignment == 0)
    ensures r == Some(MisalignedSize) <==> debug && size % MemBlockAlignment != 0
    ensures r == Some(MisalignedData) <==>
              debug && size % MemBlockAlignment == 0 && storage % MemBlockAlignment != 0
  {
    if debug && size % MemBlockAlignment != 0 then Some(MisalignedSize)
    else if debug && storage % MemBlockAlignment != 0 then Some(MisalignedData)
    else None
  }

  /** dkMemBlockCreate (lines 84-106). `debug` selects the checks compiled in
      DEBUG builds; `raised` is what reaches the device's error callback, and
      `initResult` is what `initialize` returned when the object could be
      allocated. A failed initialisation is raised exactly, and on every
      failure the device is left holding exactly what it held before. */
  method Create(dev: Device, debug: bool, flags: bv32, storage: Ptr, size: u32)
    returns (obj: MemBlock?, raised: Option<DkResult>, ghost initResult: Option<DkResult>)
    requires dev.Valid()
    modifies dev
    ensures dev.Valid()
    // the DEBUG checks come first and touch nothing
    ensures DebugRefusal(debug, storage, size).Some? ==>
              obj == null && initResult.None? && dev.log == old(dev.log)
              && raised == DebugRefusal(debug, storage, size)
    // otherwise the object is allocated, and initialised iff that succeeded
    ensures DebugRefusal(debug, storage, size).None? ==>
              |dev.log| > |old(dev.log)| && dev.log[|old(dev.log)|].ObjAlloc?
              && (initResult.Some? <==> dev.log[|old(dev.log)|].ok)
    ensures initResult.None? && DebugRefusal(debug, storage, size).None? ==>
              obj == null && raised.None? && dev.log == old(dev.log) + [ObjAlloc(false)]
    // the raised code is initialize's result whenever that is not Success
    ensures initResult.Some? ==> raised == if initResult.value == Success then None else initResult
    ensures initResult.Some? ==> (obj != null <==> initResult.value == Success)
    ensures initResult.Some? ==> initResult.value in {Success, Fail, OutOfMemory, NotImplemented}
    ensures initResult.Some? ==> (flags & ImageFlag != 0 <==> initResult.value == NotImplemented)
    ensures initResult.Some? && flags & ImageFlag == 0 && storage == NullPtr ==>
              |dev.log| > |old(dev.log)| + 1 && dev.log[|old(dev.log)| + 1].MemAlloc?
    ensures initResult == Some(OutOfMemory) <==>
              initResult.Some? && flags & ImageFlag == 0 && storage == NullPtr
              && dev.log[|old(dev.log)| + 1] == MemAlloc(NullPtr, size, MemBlockAlignment)
    ensures raised.Some? ==> obj == null && raised.value != Success
    ensures flags & ImageFlag != 0 ==> obj == null
    ensures obj == null ==>
              dev.liveMem == old(dev.liveMem) && dev.openMaps == old(dev.openMaps)
              && dev.mappings == old(dev.mappings) && dev.reserved == old(dev.reserved)
    ensures obj != null ==>
              && fresh(obj) && raised.None? && obj.Valid(dev)
              && obj.flags == NormalizeFlags(flags)
              && (obj.gpuAddrPitch == GpuAddrInvalid <==> IsGpuNoAccess(flags))
              && (storage == NullPtr <==> obj.ownedMem != NullPtr)
              && obj.ownedMem % MemBlockAlignment == 0
              && obj.Size() == size
    ensures obj != null && IsCode(flags) && !IsGpuNoAccess(flags) ==>
              dev.codeSegBase + obj.codeSegOffset == obj.gpuAddrPitch
    ensures obj != null ==> MapsWith(dev.log, |old(dev.log)|, obj.mapObj, IsGpuCached(flags))
    // the storage registered with nvmap: the caller's, or the block's own memory
    ensures initResult.Some? && initResult.value in {Success, Fail} ==>
              var at := |old(dev.log)| + (if storage == NullPtr then 2 else 1);
              |dev.log| > at && dev.log[at].NvMapCreate?
              && dev.log[at].storage == (if storage == NullPtr then dev.log[|old(dev.log)| + 1].ptr else storage)
              && dev.log[at].size == size && dev.log[at].align == dev.bigPageSize
              && dev.log[at].cpuCached == IsCpuCached(flags)
    ensures obj != null ==>
              && obj.mapObj.Some? && obj.mapObj.value.cpuCached == IsCpuCached(flags)
              && obj.mapObj.value.storage == (if storage == NullPtr then obj.ownedMem else storage)
  {
    initResult := None;
    raised := DebugRefusal(debug, storage, size);
    if raised.Some? {
      return null, raised, initResult;
    }
    var made := dev.AllocObject();
    if !made {
      return null, None, initResult;
    }
    var res;
    obj, res := InitializeOrDelete(dev, flags, storage, size);
    initResult := Some(res);
    raised := if res == Success then None else Some(res);
  }

  /** Lines 94-104 once the object is allocated: initialize it, and delete it
      again (through destroy) when that fails. */
  method InitializeOrDelete(dev: Device, flags: bv32, storage: Ptr, size: u32)
    returns (obj: MemBlock?, res: DkResult)
    requires dev.Valid()
    modifies dev
    ensures dev.Valid() && old(dev.log) <= dev.log
    ensures res in {Success, Fail, OutOfMemory, NotImplemented}
    ensures obj != null <==> res == Success
    ensures flags & ImageFlag != 0 <==> res == NotImplemented
    ensures flags & ImageFlag == 0 && storage == NullPtr ==>
              |dev.log| > |old(dev.log)| && dev.log[|old(dev.log)|].MemAlloc?
    ensures res == OutOfMemory <==>
              flags & ImageFlag == 0 && storage == NullPtr
              && dev.log[|old(dev.log)|] == MemAlloc(NullPtr, size, MemBlockAlignment)
    ensures obj == null ==>
              dev.liveMem == old(dev.liveMem) && dev.openMaps == old(dev.openMaps)
              && dev.mappings == old(dev.mappings) && dev.reserved == old(dev.reserved)
    ensures obj != null ==>
              && fresh(obj) && obj.Valid(dev)
              && obj.flags == NormalizeFlags(flags)
              && (obj.gpuAddrPitch == GpuAddrInvalid <==> IsGpuNoAccess(flags))
              && (storage == NullPtr <==> obj.ownedMem != NullPtr)
              && obj.ownedMem % MemBlockAlignment == 0
              && obj.Size() == size
    ensures obj != null && IsCode(flags) && !IsGpuNoAccess(flags) ==>
              dev.codeSegBase + obj.codeSegOffset == obj.gpuAddrPitch
    ensures obj != null ==> MapsWith(dev.log, |old(dev.log)|, obj.mapObj, IsGpuCached(flags))
    ensures res in {Success, Fail} ==>
              var at := |old(dev.log)| + (if storage == NullPtr then 1 else 0);
              |dev.log| > at && dev.log[at].NvMapCreate?
              && dev.log[at].storage == (if storage == NullPtr then dev.log[|old(dev.log)|].ptr else storage)
              && dev.log[at].size == size && dev.log[at].align == dev.bigPageSize
              && dev.log[at].cpuCached == IsCpuCached(flags)
    ensures obj != null ==>
              && obj.mapObj.Some? && obj.mapObj.value.cpuCached == IsCpuCached(flags)
              && obj.mapObj.value.storage == (if storage == NullPtr then obj.ownedMem else storage)
  {
    var b := new MemBlock();
    res := b.Initialize(dev, flags, storage, size);
    if res != Success {
      ghost var logInit := dev.log;
      b.Destroy(dev);
      assert logInit <= dev.log;
      return null, res;
    }
    return b, res;
  }
}
