/** The queue fault monitor of source/gpu_error.cpp: a sweep over the device's
    queue table that asks every live queue to look at its channel's error
    notification, and the one-way move of a faulted queue into the Error
    state, which publishes the latest completed sequence number so that
    waiters on the queue's semaphore are released. */
module GpuError {
  import opened DkTypes

  datatype QueueState = Active | Error

  /** NvNotification, as nvGpuChannelGetErrorNotification fills it. */
  datatype NvNotification = NvNotification(timestamp: u64, info32: u32, info16: u16, status: u16)

  /** The information words of NvError that the decoder reads (info[0..4]). */
  type InfoWords = s: seq<u32> | |s| == 5 witness [0, 0, 0, 0, 0]

  /** NvError, as nvGpuChannelGetErrorInfo fills it. */
  datatype NvError = NvError(kind: u32, info: InfoWords)

  /** The decoded error classes that `checkError` reports (lines 35-59). */
  datatype ErrorReport =
    | NoErrorInfo
    | PageFault(faultInfo: u32, address: u64, write: bool)
    | MethodError(irq: u32, subchannelClass: u32, methodIndex: u32, data: u32, unknownData: u32, extra: u32)
    | CommandListRejected
    | GpuTimeout
    | UnknownError(kind: u32)

  /** What `checkError` writes to the log about a fault. */
  datatype Diagnostic =
    | EnteredError(id: nat, notification: NvNotification)
    | InfoUnavailable
    | Decoded(report: ErrorReport)

  /** The type switch of lines 35-59 as a decoder. */
  function DecodeError(e: NvError): (r: ErrorReport)
    ensures e.kind == 0 <==> r.NoErrorInfo?
    ensures e.kind == 1 <==> r.PageFault?
    ensures e.kind == 2 <==> r.MethodError?
    ensures e.kind == 3 <==> r.CommandListRejected?
    ensures e.kind == 4 <==> r.GpuTimeout?
    ensures e.kind > 4 <==> r == UnknownError(e.kind)
    // page fault: the address splits back into info[1] (high) and info[2] (low 32 bits)
    ensures r.PageFault? ==>
              r.address / Two32 == e.info[1] && r.address % Two32 == e.info[2]
              && r.faultInfo == e.info[0] && (r.write <==> e.info[3] == 2)
    // method error: method, extra field and the two dropped bits recompose info[1]
    ensures r.MethodError? ==>
              r.extra * Two16 + r.methodIndex * 4 + e.info[1] % 4 == e.info[1]
              && r.methodIndex < 0x4000 && r.extra < Two16
              && r.irq == e.info[0] && r.subchannelClass == e.info[4]
              && r.data == e.info[3] && r.unknownData == e.info[2]
  {
    match e.kind
    case 0 => NoErrorInfo
    case 1 => PageFault(e.info[0], e.info[1] * Two32 + e.info[2], e.info[3] == 2)
    case 2 => MethodError(e.info[0], e.info[4], (e.info[1] % Two16) / 4, e.info[3], e.info[2], e.info[1] / Two16)
    case 3 => CommandListRejected
    case 4 => GpuTimeout
    case _ => UnknownError(e.kind)
  }

  /** The page-fault address determines the two words it was built from. */
  lemma PageFaultAddressInjective(e1: NvError, e2: NvError)
    requires e1.kind == 1 && e2.kind == 1
    requires DecodeError(e1).address == DecodeError(e2).address
    ensures e1.info[1] == e2.info[1] && e1.info[2] == e2.info[2]
  {
  }

  /** The driver's view of a GPU channel. `None` means the query ioctl fails. */
  class GpuChannel {
    var notification: Option<NvNotification>
    var errorInfo: Option<NvError>

    constructor (notification: Option<NvNotification>, errorInfo: Option<NvError>)
      ensures this.notification == notification && this.errorInfo == errorInfo
    {
      this.notification := notification;
      this.errorInfo := errorInfo;
    }

    /** The channel reports a fault: the notification could be read and its
        status is non-zero. */
    predicate Faulted()
      reads this
    {
      notification.Some? && notification.value.status != 0
    }
  }

  /** The semaphores of the device: the CPU-visible `sequence` slot of each
      queue, and the device's current completed value for each queue. */
  class Semaphores {
    const cpuSequence: array<u32>
    const current: array<u32>

    ghost predicate Valid()
      reads this
    {
      cpuSequence.Length == current.Length && cpuSequence != current
    }

    constructor (n: nat)
      ensures Valid() && cpuSequence.Length == n && fresh(cpuSequence) && fresh(current)
    {
      cpuSequence := new u32[n](_ => 0);
      current := new u32[n](_ => 0);
    }
  }

  class Queue {
    const id: nat
    const channel: GpuChannel
    var state: QueueState
    ghost var checks: nat                  // how many times checkError ran
    ghost var diagnostics: seq<Diagnostic>  // the DK_WARNING output

    constructor (id: nat, channel: GpuChannel)
      ensures this.id == id && this.channel == channel && state == Active
      ensures checks == 0 && diagnostics == []
    {
      this.id := id;
      this.channel := channel;
      state := Active;
      checks := 0;
      diagnostics := [];
    }

    /** isInErrorState() */
    predicate InErrorState()
      reads this
    {
      state == Error
    }

    /** Queue::checkError (lines 17-67). */
    method CheckError(sems: Semaphores) returns (faulted: bool)
      requires sems.Valid() && id < sems.cpuSequence.Length
      modifies this, sems.cpuSequence
      // the verdict depends only on the notification, never on the error info
      ensures faulted <==> channel.Faulted()
      ensures state == if faulted then Error else old(state)
      ensures old(state) == Error ==> state == Error
      ensures checks == old(checks) + 1
      ensures !faulted ==> diagnostics == old(diagnostics) && unchanged(sems.cpuSequence)
      ensures faulted ==>
                sems.cpuSequence[..] == old(sems.cpuSequence[..])[id := sems.current[id]]
      ensures faulted ==>
                diagnostics == old(diagnostics)
                  + [EnteredError(id, channel.notification.value),
                     if channel.errorInfo.Some? then Decoded(DecodeError(channel.errorInfo.value))
                     else InfoUnavailable]
    {
      checks := checks + 1;
      var notif := channel.notification;
      if notif.None? || notif.value.status == 0 {
        return false;
      }
      diagnostics := diagnostics + [EnteredError(id, notif.value)];

      var error := channel.errorInfo;
      if error.None? {
        diagnostics := diagnostics + [InfoUnavailable];
      } else {
        diagnostics := diagnostics + [Decoded(DecodeError(error.value))];
      }

      state := Error;
      sems.cpuSequence[id] := sems.current[id];
      return true;
    }
  }

  /** The device's queue table (m_queueTable, s_numQueues slots). */
  class QueueTable {
    const slots: array<Queue?>
    const sems: Semaphores

    /** The queue in slot i has id i, so no queue sits in two slots. */
    ghost predicate Valid()
      reads this, slots, sems
    {
      && sems.Valid()
      && slots.Length == sems.cpuSequence.Length
      && forall i :: 0 <= i < slots.Length && slots[i] != null ==> slots[i].id == i
    }

    ghost function Live(): set<Queue>
      reads this, slots
    {
      set i | 0 <= i < slots.Length && slots[i] != null :: slots[i]
    }

    constructor (slots: array<Queue?>, sems: Semaphores)
      requires sems.Valid() && slots.Length == sems.cpuSequence.Length
      requires forall i :: 0 <= i < slots.Length && slots[i] != null ==> slots[i].id == i
      ensures Valid() && this.slots == slots && this.sems == sems
    {
      this.slots := slots;
      this.sems := sems;
    }

    /** Device::checkQueueErrors (lines 7-15): every non-null slot is checked
        exactly once; null slots are skipped. */
    method CheckQueueErrors()
      requires Valid()
      modifies Live(), sems.cpuSequence
      ensures Valid()
      ensures forall i :: 0 <= i < slots.Length && slots[i] != null ==>
                && slots[i].checks == old(slots[i].checks) + 1
                && slots[i].state == (if slots[i].channel.Faulted() then Error else old(slots[i].state))
      ensures forall i :: 0 <= i < slots.Length ==>
                sems.cpuSequence[i] ==
                  if slots[i] != null && slots[i].channel.Faulted() then sems.current[i]
                  else old(sems.cpuSequence[i])
    {
      var i := 0;
      while i < slots.Length
        invariant 0 <= i <= slots.Length
        invariant forall j :: 0 <= j < i && slots[j] != null ==>
                    && slots[j].checks == old(slots[j].checks) + 1
                    && slots[j].state == (if slots[j].channel.Faulted() then Error else old(slots[j].state))
        invariant forall j :: i <= j < slots.Length && slots[j] != null ==>
                    slots[j].checks == old(slots[j].checks) && slots[j].state == old(slots[j].state)
        invariant forall j :: 0 <= j < slots.Length ==>
                    sems.cpuSequence[j] ==
                      if j < i && slots[j] != null && slots[j].channel.Faulted() then sems.current[j]
                      else old(sems.cpuSequence[j])
      {
        var q := slots[i];
        if q != null {
          var _ := q.CheckError(sems);
        }
        i := i + 1;
      }
    }
  }
}
