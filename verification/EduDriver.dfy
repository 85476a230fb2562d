// The DMA path of the PCI EDU driver. Between any two statements of the operation
// thread, `Interfere` runs an arbitrary sequence of environment events, so every
// contract below holds in every interleaving with the interrupt handler, the DMA
// engine and stale or spurious interrupts, completions and stores.

module EduDriver {
  import opened EduDevice
  import opened EduPattern

  const U32: nat := 0x1_0000_0000

  datatype Errno = EIO | ETIMEDOUT | ERANGE | ParseError

  datatype Status = Success | Failure(error: Errno)

  predicate InRange(input: Input)
  {
    input.Length? && 1 <= input.value <= BUFFER_SIZE
  }

  /** The result of parsing the text written to the sysfs file. */
  datatype Input = Malformed | Length(value: nat)

  datatype DmaResult = NotRun | Passed | Timeout | VerifyFailed | Faulted

  /** One store to a DMA register, with the RUN bit at that moment. */
  datatype DmaWrite =
    | SourceWrite(run: bool, value: nat)
    | DestinationWrite(run: bool, value: nat)
    | CountWrite(run: bool, value: nat)
    | CommandWrite(run: bool, source: nat, destination: nat, count: nat, toRam: bool)

  /** What a wait for the DMA saw, in this order: whether a completion came before the timeout;
      otherwise, whether the engine was idle at the timeout; whether RUN was clear when read;
      and the interrupt status, if it was read after that. */
  datatype Sight = Sight(completed: bool, idleAtTimeout: bool, idle: bool, irq: set<nat>)

  /** The register stores of one transfer, in order. */
  function TransferLog(source: nat, destination: nat, length: nat, toRam: bool): seq<DmaWrite>
  {
    [SourceWrite(false, source), DestinationWrite(false, destination), CountWrite(false, length),
     CommandWrite(false, source, destination, length, toRam)]
  }

  /** A register store is safe while the engine is idle; a command also needs both ranges
      inside the device window and inside the RAM buffer below the 28-bit mask. */
  predicate SafeWrite(handle: nat, w: DmaWrite)
  {
    && !w.run
    && (w.CommandWrite? ==>
          var (ramSide, deviceSide) := if w.toRam then (w.destination, w.source) else (w.source, w.destination);
          && 1 <= w.count
          && handle <= ramSide && ramSide + w.count <= handle + BUFFER_SIZE <= DMA_LIMIT
          && DEVICE_BUFFER <= deviceSide && deviceSide + w.count <= DEVICE_BUFFER + BUFFER_SIZE)
  }

  predicate SafeLog(handle: nat, log: seq<DmaWrite>)
  {
    forall i :: 0 <= i < |log| ==> SafeWrite(handle, log[i])
  }

  function Complement(b: byte): byte
  {
    255 - b
  }

  /** What the CPU stores at an index: the pattern, or its complement as the sentinel. */
  function Fill(index: nat, length: nat, sentinel: bool): byte
  {
    if sentinel then Complement(Pattern(index, length)) else Pattern(index, length)
  }

  /** The image of a whole fill. */
  function Image(length: nat, sentinel: bool): (image: seq<byte>)
    ensures |image| == length
    ensures forall i :: 0 <= i < length ==> image[i] == Fill(i, length, sentinel)
  {
    seq(length, i requires 0 <= i < length => Fill(i, length, sentinel))
  }

  /** A byte the device has not stored since the sentinel fill never passes verification. */
  lemma SentinelNeverPasses(index: nat, length: nat)
    ensures Fill(index, length, true) != Pattern(index, length)
  {
  }

  class QemuEdu {
    const forceDmaTimeout: bool
    const dmaHandle: nat
    const dmaBuffer: array<byte>

    // Changed by the interrupt handler and the device as well.
    var device: Device
    var handler: Handler
    var dmaDone: nat
    var factorialDone: nat
    var anyIrqDone: nat
    var irqCount: nat
    var lastIrqStatus: set<nat>
    ghost var written: set<nat>
    // True once the environment did something a faithful device does not do.
    ghost var noisy: bool

    // Changed under operation_lock only.
    var busMaster: bool
    var dmaLastLength: nat
    var dmaResult: DmaResult
    var dmaFaulted: bool
    // True once a wait of the current operation ran into its timeout.
    ghost var timedOut: bool
    // What the last wait saw, and the bytes the last verification compared.
    ghost var saw: Sight
    ghost var compared: seq<byte>
    // Every store to a DMA register since probe.
    ghost var writes: seq<DmaWrite>

    ghost function Snapshot(): World
      reads this, dmaBuffer
    {
      World(device, handler, dmaDone, factorialDone, anyIrqDone, irqCount, lastIrqStatus,
            busMaster, dmaHandle, dmaBuffer[..], written)
    }

    /** Kept by every statement of every operation. */
    ghost predicate Consistent()
      reads this, dmaBuffer
    {
      && Counters(Snapshot())
      && dmaBuffer.Length == BUFFER_SIZE
      && dmaHandle + BUFFER_SIZE <= DMA_LIMIT
      && SafeLog(dmaHandle, writes)
    }

    /** Holds whenever operation_lock is free. */
    ghost predicate Valid()
      reads this, dmaBuffer
    {
      && Consistent()
      && (dmaFaulted <==> dmaResult == Timeout || dmaResult == Faulted)
      && (dmaFaulted <==> !busMaster)
      && (!dmaFaulted ==> !device.run)
    }

    /** Probe of an idle engine; refuses a buffer that does not fit below the DMA mask. */
    static method Probe(forceDmaTimeout: bool, handle: nat, buffer: array<byte>, idle: Device)
      returns (edu: QemuEdu?)
      requires buffer.Length == BUFFER_SIZE
      requires !idle.run && idle.issued == idle.completed && |idle.memory| == BUFFER_SIZE
      ensures edu != null <==> handle <= (DMA_LIMIT - 1) - (BUFFER_SIZE - 1)
      ensures edu != null ==> fresh(edu) && edu.Valid() && edu.dmaResult == NotRun
      ensures edu != null ==> edu.dmaHandle == handle && edu.dmaBuffer == buffer && edu.writes == []
      ensures edu != null ==> edu.forceDmaTimeout == forceDmaTimeout && edu.Fresh(idle)
    {
      if handle > (DMA_LIMIT - 1) - (BUFFER_SIZE - 1) {
        return null;
      }
      edu := new QemuEdu(forceDmaTimeout, handle, buffer, idle);
    }

    constructor (forceDmaTimeout: bool, handle: nat, buffer: array<byte>, idle: Device)
      requires buffer.Length == BUFFER_SIZE && handle + BUFFER_SIZE <= DMA_LIMIT
      requires !idle.run && idle.issued == idle.completed && |idle.memory| == BUFFER_SIZE
      ensures Valid() && dmaResult == NotRun && writes == []
      ensures dmaHandle == handle && dmaBuffer == buffer
      ensures this.forceDmaTimeout == forceDmaTimeout && Fresh(idle)
    {
      this.forceDmaTimeout, dmaHandle, dmaBuffer := forceDmaTimeout, handle, buffer;
      // pci_set_master, then the pending interrupts are acknowledged.
      device := idle.(irqStatus := {});
      handler := Idle;
      dmaDone, factorialDone, anyIrqDone, irqCount := 0, 0, 0, 0;
      lastIrqStatus, written := {}, {};
      busMaster := true;
      dmaLastLength, dmaResult, dmaFaulted := 0, NotRun, false;
      noisy, timedOut := false, false;
      saw, compared := Sight(false, false, false, {}), [];
      writes := [];
    }

    /** Nothing of the device's past is left: no pending bit, no completion, no count. */
    ghost predicate Fresh(idle: Device)
      reads this
    {
      && device == idle.(irqStatus := {}) && handler == Idle && busMaster
      && dmaDone == factorialDone == anyIrqDone == irqCount == 0 && lastIrqStatus == {} && written == {}
    }

    // ---- The environment ----

    /** One statement of the interrupt handler. */
    method IrqStatement()
      modifies this`device, this`handler, this`dmaDone, this`factorialDone, this`anyIrqDone,
               this`irqCount, this`lastIrqStatus
      ensures Snapshot() == HandlerStep(old(Snapshot()))
    {
      match handler
      case Idle =>
        var status := device.irqStatus;
        device := device.(message := false);
        if status != {} {
          handler := Entered(status);
        }
      case Entered(status) =>
        device := device.(irqStatus := device.irqStatus - status);
        handler := Acked(status);
      case Acked(status) =>
        lastIrqStatus := status;
        handler := Recorded(status);
      case Recorded(status) =>
        irqCount := irqCount + 1;
        handler := Counted(status);
      case Counted(status) =>
        if FACTORIAL_BIT in status {
          factorialDone := factorialDone + 1;
        }
        handler := FactorialSignalled(status);
      case FactorialSignalled(status) =>
        if DMA_BIT in status {
          dmaDone := dmaDone + 1;
        }
        handler := DmaSignalled(status);
      case DmaSignalled(status) =>
        anyIrqDone := anyIrqDone + 1;
        handler := Idle;
    }

    method Environment(e: Event)
      requires Counters(Snapshot())
      modifies this`device, this`handler, this`dmaDone, this`factorialDone, this`anyIrqDone,
               this`irqCount, this`lastIrqStatus, this`written, dmaBuffer
      ensures Snapshot() == EnvStep(old(Snapshot()), e)
    {
      ghost var before := Snapshot();
      match e
      case HandlerStatement =>
        IrqStatement();
      case CopyByte =>
        var d := device;
        if d.run && d.progress < d.count {
          device := d.(progress := d.progress + 1);
          if busMaster && d.count <= BUFFER_SIZE {
            if d.toRam && d.source == DEVICE_BUFFER && d.destination == dmaHandle {
              dmaBuffer[d.progress] := d.memory[d.progress];
              written := written + {d.progress};
            } else if !d.toRam && d.source == dmaHandle && d.destination == DEVICE_BUFFER {
              device := device.(memory := d.memory[d.progress := dmaBuffer[d.progress]]);
            }
          }
        }
        assert Snapshot() == EnvStep(before, e);
      case FinishCopy =>
        if device.run && device.progress == device.count {
          device := device.(run := false, owed := device.irqEnable, completed := device.completed + 1);
        }
      case RaiseDma =>
        if device.owed {
          device := device.(owed := false, message := true, irqStatus := device.irqStatus + {DMA_BIT});
        }
      case SpuriousInterrupt(bits) =>
        device := device.(irqStatus := device.irqStatus + bits, message := true);
      case SpuriousCompletion =>
        dmaDone := dmaDone + 1;
      case StrayStore(index, value) =>
        if busMaster && index < dmaBuffer.Length {
          dmaBuffer[index] := value;
          written := written + {index};
        }
    }

    /** Any number of environment events, between two statements of the operation thread. */
    method Interfere() returns (ghost es: seq<Event>)
      requires Counters(Snapshot())
      modifies this`device, this`handler, this`dmaDone, this`factorialDone, this`anyIrqDone,
               this`irqCount, this`lastIrqStatus, this`written, this`noisy, dmaBuffer
      ensures Snapshot() == EnvRun(old(Snapshot()), es)
      ensures Guarantee(old(Snapshot()), Snapshot())
      ensures noisy <==> old(noisy) || !BenignRun(old(Snapshot()), es)
    {
      es := [];
      ghost var start := Snapshot();
      var steps: nat := *;
      while steps > 0
        invariant Snapshot() == EnvRun(start, es)
        invariant Counters(Snapshot())
        invariant noisy <==> old(noisy) || !BenignRun(start, es)
      {
        var e: Event := *;
        EnvRunAppend(start, es, e);
        StepKeepsGuarantee(Snapshot(), e);
        noisy := noisy || !BenignEvent(Snapshot(), e);
        Environment(e);
        es := es + [e];
        steps := steps - 1;
      }
      EveryRunKeepsGuarantee(start, es);
    }

    // ---- The operation thread ----

    /** Acknowledge whatever is pending: a read, then a write of exactly what was read. Bits
        that arrive in between stay pending. */
    method AckPendingIrqs() returns (ghost es: seq<Event>)
      requires Consistent()
      modifies this`device, this`handler, this`dmaDone, this`factorialDone, this`anyIrqDone,
               this`irqCount, this`lastIrqStatus, this`written, this`noisy, dmaBuffer
      ensures Guarantee(old(Snapshot()), Snapshot())
      ensures old(noisy) ==> noisy
      ensures !noisy && NothingInFlight(old(Snapshot())) ==>
                && NothingInFlight(Snapshot()) && device.irqStatus == {}
                && dmaBuffer[..] == old(dmaBuffer[..]) && device.memory == old(device.memory)
                && irqCount == old(irqCount) && dmaDone == old(dmaDone)
                && lastIrqStatus == old(lastIrqStatus)
      ensures !noisy && Silent(old(Snapshot())) ==> Silent(Snapshot()) && irqCount == old(irqCount)
      ensures !noisy && NothingOwed(old(Snapshot())) ==> NothingOwed(Snapshot()) && device.irqStatus == {}
      ensures device.irqStatus == EnvRun(old(Snapshot()), es).device.irqStatus - old(device.irqStatus)
    {
      ghost var w0 := Snapshot();
      var status := device.irqStatus;
      es := Interfere();
      if !noisy && NothingInFlight(w0) { QuietRun(w0, es); }
      if !noisy && Silent(w0) { SilentRun(w0, es); }
      if !noisy && NothingOwed(w0) { IdleRun(w0, es); }
      if status != {} {
        device := device.(irqStatus := device.irqStatus - status);
      }
    }

    /** Wait until the handler is not running. */
    method SynchronizeIrq()
      requires Consistent()
      modifies this`device, this`handler, this`dmaDone, this`factorialDone, this`anyIrqDone,
               this`irqCount, this`lastIrqStatus, this`written, this`noisy, dmaBuffer
      ensures Guarantee(old(Snapshot()), Snapshot())
      ensures old(noisy) ==> noisy
      ensures handler == Idle
      ensures !noisy && Silent(old(Snapshot())) ==> Silent(Snapshot()) && irqCount == old(irqCount)
      ensures !noisy && NothingOwed(old(Snapshot())) ==>
                NothingOwed(Snapshot()) && device.irqStatus <= old(device.irqStatus)
    {
      hide SafeLog, HandlerStep;
      ghost var w0 := Snapshot();
      ghost var es := Interfere();
      if !noisy && Silent(w0) { SilentRun(w0, es); }
      if !noisy && NothingOwed(w0) { IdleRun(w0, es); }
      ghost var w1 := Snapshot();
      FinishHandler();
      GuaranteeIsTransitive(w0, w1, Snapshot());
    }

    /** The handler's own statements, up to its return. */
    method FinishHandler()
      requires Consistent()
      modifies this`device, this`handler, this`dmaDone, this`factorialDone, this`anyIrqDone,
               this`irqCount, this`lastIrqStatus
      ensures Guarantee(old(Snapshot()), Snapshot())
      ensures handler == Idle
      ensures Silent(old(Snapshot())) ==> Silent(Snapshot()) && irqCount == old(irqCount)
      ensures NothingOwed(old(Snapshot())) ==> NothingOwed(Snapshot()) && device.irqStatus <= old(device.irqStatus)
    {
      ghost var w1 := Snapshot();
      while handler != Idle
        invariant Guarantee(w1, Snapshot())
        invariant Silent(w1) ==> Silent(Snapshot()) && irqCount == w1.irqCount
        invariant NothingOwed(w1) ==> NothingOwed(Snapshot()) && device.irqStatus <= w1.device.irqStatus
        decreases
          match handler
          case Idle => 0
          case Entered(_) => 6
          case Acked(_) => 5
          case Recorded(_) => 4
          case Counted(_) => 3
          case FactorialSignalled(_) => 2
          case DmaSignalled(_) => 1
      {
        ghost var w := Snapshot();
        StepKeepsGuarantee(w, HandlerStatement);
        IrqStatement();
        GuaranteeIsTransitive(w1, w, Snapshot());
      }
    }

    /** wait_for_completion_timeout: consume a completion, or give up. */
    method WaitForCompletion() returns (waited: bool)
      modifies this`dmaDone, this`timedOut, this`saw
      ensures waited <==> old(dmaDone) > 0
      ensures dmaDone == if waited then old(dmaDone) - 1 else 0
      ensures timedOut <==> old(timedOut) || !waited
      ensures saw == Sight(waited, !waited && !device.run, false, {})
    {
      waited := dmaDone > 0;
      saw := Sight(waited, !waited && !device.run, false, {});
      if waited {
        dmaDone := dmaDone - 1;
      } else {
        timedOut := true;
      }
    }

    /** Other threads of control run; what the fault path needs to know about it. */
    method Pause()
      requires Consistent()
      modifies this`device, this`handler, this`dmaDone, this`factorialDone, this`anyIrqDone,
               this`irqCount, this`lastIrqStatus, this`written, this`noisy, dmaBuffer
      ensures Consistent() && device.issued == old(device.issued)
      ensures !old(device.run) ==> !device.run
      ensures old(noisy) ==> noisy
      ensures !noisy && old(Silent(Snapshot())) ==> Silent(Snapshot()) && irqCount == old(irqCount)
      ensures !noisy && old(NothingOwed(Snapshot())) ==> NothingOwed(Snapshot())
    {
      ghost var w0 := Snapshot();
      ghost var es := Interfere();
      if !noisy && Silent(w0) { SilentRun(w0, es); }
      if !noisy && NothingOwed(w0) { IdleRun(w0, es); }
    }

    /** Leave no stale interrupt: acknowledge what is pending and wait for the handler. */
    method DrainIrqs()
      requires Consistent()
      modifies this`device, this`handler, this`dmaDone, this`factorialDone, this`anyIrqDone,
               this`irqCount, this`lastIrqStatus, this`written, this`noisy, dmaBuffer
      ensures Consistent() && handler == Idle && device.issued == old(device.issued)
      ensures !old(device.run) ==> !device.run
      ensures old(noisy) ==> noisy
      ensures !noisy && old(Silent(Snapshot())) ==> irqCount == old(irqCount)
      ensures !noisy && old(NothingOwed(Snapshot())) ==> device.irqStatus == {}
    {
      ghost var _ := AckPendingIrqs();
      SynchronizeIrq();
    }

    /** The fault path: stop bus mastering, latch the fault, drain the interrupts. */
    method LatchFault()
      requires Consistent()
      modifies this`device, this`handler, this`dmaDone, this`factorialDone, this`anyIrqDone,
               this`irqCount, this`lastIrqStatus, this`written, this`noisy, dmaBuffer,
               this`busMaster, this`dmaFaulted
      ensures Consistent() && !busMaster && dmaFaulted && handler == Idle
      ensures device.issued == old(device.issued)
      ensures !old(device.run) ==> !device.run
      ensures old(noisy) ==> noisy
      ensures !noisy && old(Silent(Snapshot())) ==> irqCount == old(irqCount)
      ensures !noisy && old(NothingOwed(Snapshot())) ==> device.irqStatus == {}
    {
      Pause();
      busMaster := false;
      Pause();
      dmaFaulted := true;
      DrainIrqs();
    }

    /** Sleep until the completion or the timeout. */
    method AwaitCompletion(ghost irqs: nat, ghost length: nat, ghost toRam: bool, ghost ram: seq<byte>, ghost memory: seq<byte>)
      returns (waited: bool)
      requires Consistent()
      modifies this`device, this`handler, this`dmaDone, this`factorialDone, this`anyIrqDone,
               this`irqCount, this`lastIrqStatus, this`written, this`noisy, dmaBuffer, this`timedOut, this`saw
      ensures Guarantee(old(Snapshot()), Snapshot())
      ensures old(noisy) ==> noisy
      ensures timedOut <==> old(timedOut) || !waited
      ensures saw == Sight(waited, !waited && !device.run, false, {})
      ensures !noisy && old(Silent(Snapshot())) ==> Silent(Snapshot()) && irqCount == old(irqCount)
      ensures !noisy && old(Transferring(Snapshot(), irqs, length, toRam, false)) ==> !waited
      ensures waited && !noisy
              && old(Transferring(Snapshot(), irqs, length, toRam, true) && CopiedSoFar(Snapshot(), ram, memory)) ==>
                Finished(irqs, length, toRam, ram, memory)
    {
      ghost var w0 := Snapshot();
      ghost var es := Interfere();
      ghost var w1 := Snapshot();
      if !noisy && Silent(w0) { SilentRun(w0, es); }
      if !noisy && Transferring(w0, irqs, length, toRam, false) {
        TransferRunWithoutInterrupts(w0, es, irqs, length, toRam);
      }
      if !noisy && Transferring(w0, irqs, length, toRam, true) && CopiedSoFar(w0, ram, memory) {
        TransferRun(w0, es, irqs, length, toRam, true, ram, memory);
        if dmaDone > 0 { CompletionMeansFinished(w1, irqs, length, toRam); }
      }
      waited := WaitForCompletion();
    }

    /** The transfer ended with its interrupt counted and acknowledged, all bytes copied. */
    ghost predicate Finished(irqs: nat, length: nat, toRam: bool, ram: seq<byte>, memory: seq<byte>)
      reads this, dmaBuffer
    {
      && NothingInFlight(Snapshot()) && device.irqStatus == {}
      && irqCount == irqs + 1 && lastIrqStatus == {DMA_BIT}
      && CopiedSoFar(Snapshot(), ram, memory) && device.progress == length && device.toRam == toRam
    }

    /** Read the RUN bit. */
    method ReadRun(ghost irqs: nat, ghost length: nat, ghost toRam: bool, ghost ram: seq<byte>, ghost memory: seq<byte>)
      returns (running: bool)
      requires Consistent()
      modifies this`device, this`handler, this`dmaDone, this`factorialDone, this`anyIrqDone,
               this`irqCount, this`lastIrqStatus, this`written, this`noisy, dmaBuffer, this`saw
      ensures running == device.run && saw == old(saw).(idle := !running)
      ensures Guarantee(old(Snapshot()), Snapshot())
      ensures old(noisy) ==> noisy
      ensures !noisy && old(Silent(Snapshot())) ==> Silent(Snapshot()) && irqCount == old(irqCount)
      ensures !noisy && old(Finished(irqs, length, toRam, ram, memory)) ==> Finished(irqs, length, toRam, ram, memory)
    {
      ghost var w0 := Snapshot();
      ghost var es := Interfere();
      if !noisy && Silent(w0) { SilentRun(w0, es); }
      if !noisy && NothingInFlight(w0) { QuietRun(w0, es); }
      running := device.run;
      saw := saw.(idle := !device.run);
    }

    /** Read the interrupt status the handler recorded last. */
    method ReadIrqStatus(ghost irqs: nat, ghost length: nat, ghost toRam: bool, ghost ram: seq<byte>, ghost memory: seq<byte>)
      returns (status: set<nat>)
      requires Consistent()
      modifies this`device, this`handler, this`dmaDone, this`factorialDone, this`anyIrqDone,
               this`irqCount, this`lastIrqStatus, this`written, this`noisy, dmaBuffer, this`saw
      ensures status == lastIrqStatus && saw == old(saw).(irq := status)
      ensures Guarantee(old(Snapshot()), Snapshot())
      ensures old(noisy) ==> noisy
      ensures !noisy && old(Silent(Snapshot())) ==> Silent(Snapshot()) && irqCount == old(irqCount)
      ensures !noisy && old(Finished(irqs, length, toRam, ram, memory)) ==> Finished(irqs, length, toRam, ram, memory)
    {
      ghost var w0 := Snapshot();
      ghost var es := Interfere();
      if !noisy && Silent(w0) { SilentRun(w0, es); }
      if !noisy && NothingInFlight(w0) { QuietRun(w0, es); }
      status := lastIrqStatus;
      saw := saw.(irq := lastIrqStatus);
    }

    /** Wait for the transfer. The answer is what the wait saw: success exactly for a completion
        with RUN clear and the DMA status alone, ETIMEDOUT exactly for a timeout with RUN clear;
        anything but success latches the fault. */
    method WaitForDma(ghost irqs: nat, ghost length: nat, ghost toRam: bool, ghost ram: seq<byte>, ghost memory: seq<byte>)
      returns (r: Status)
      requires Consistent() && !dmaFaulted && busMaster
      modifies this`device, this`handler, this`dmaDone, this`factorialDone, this`anyIrqDone,
               this`irqCount, this`lastIrqStatus, this`written, this`noisy, dmaBuffer,
               this`busMaster, this`dmaFaulted, this`timedOut, this`saw
      ensures Consistent() && device.issued == old(device.issued)
      ensures r.Success? ==> !device.run && !dmaFaulted && busMaster && Guarantee(old(Snapshot()), Snapshot())
      ensures r.Failure? ==> dmaFaulted && !busMaster && (r.error == EIO || r.error == ETIMEDOUT)
      ensures Answered(r, old(timedOut))
      ensures r == Failure(ETIMEDOUT) ==> !device.run
      ensures old(noisy) ==> noisy
      ensures !noisy && old(Silent(Snapshot()) && Transferring(Snapshot(), irqs, length, toRam, false)) ==>
                r.Failure? && irqCount == irqs
      ensures !noisy && old(Transferring(Snapshot(), irqs, length, toRam, true) && CopiedSoFar(Snapshot(), ram, memory)) ==>
                && (!old(timedOut) ==> (r.Success? <==> !timedOut))
                && (r.Success? ==> Finished(irqs, length, toRam, ram, memory))
    {
      ghost var w0 := Snapshot();
      var waited := AwaitCompletion(irqs, length, toRam, ram, memory);
      ghost var w1 := Snapshot();
      var running := ReadRun(irqs, length, toRam, ram, memory);
      ghost var w2 := Snapshot();
      GuaranteeIsTransitive(w0, w1, w2);
      if waited && !running {
        var status := ReadIrqStatus(irqs, length, toRam, ram, memory);
        GuaranteeIsTransitive(w0, w2, Snapshot());
        if status == {DMA_BIT} {
          return Success;
        }
      }
      LatchFault();
      r := Failure(if !waited && !running then ETIMEDOUT else EIO);
    }

    /** Acknowledge stale interrupts and forget stale completions. */
    method ForgetStaleState()
      requires Consistent()
      modifies this`device, this`handler, this`dmaDone, this`factorialDone, this`anyIrqDone,
               this`irqCount, this`lastIrqStatus, this`written, this`noisy, dmaBuffer
      ensures Guarantee(old(Snapshot()), Snapshot())
      ensures old(noisy) ==> noisy
      ensures !noisy && old(NothingInFlight(Snapshot())) ==> Settled(old(irqCount), old(dmaBuffer[..]), old(device.memory))
    {
      ghost var w0 := Snapshot();
      ghost var _ := AckPendingIrqs();
      ghost var w1 := Snapshot();
      ghost var es := Interfere();
      if !noisy && NothingInFlight(w1) { QuietRun(w1, es); }
      GuaranteeIsTransitive(w0, w1, Snapshot());
      dmaDone := 0;
    }

    /** Ready to program a transfer: no stale interrupt or completion, buffers as given. */
    ghost predicate Settled(irqs: nat, ram: seq<byte>, memory: seq<byte>)
      reads this, dmaBuffer
    {
      && NothingInFlight(Snapshot()) && device.irqStatus == {} && dmaDone == 0
      && irqCount == irqs && dmaBuffer[..] == ram && device.memory == memory
    }

    /** Program source, destination and count; each register is written with RUN clear. */
    method ProgramTransfer(
      source: nat, destination: nat, length: nat, ghost irqs: nat, ghost ram: seq<byte>, ghost memory: seq<byte>)
      requires Consistent() && !device.run
      modifies this`device, this`handler, this`dmaDone, this`factorialDone, this`anyIrqDone,
               this`irqCount, this`lastIrqStatus, this`written, this`noisy, dmaBuffer, this`writes
      ensures Consistent()
      ensures writes == old(writes) + TransferLog(source, destination, length, false)[..3]
      ensures Guarantee(old(Snapshot()), Snapshot())
      ensures device.source == source && device.destination == destination && device.count == length
      ensures old(noisy) ==> noisy
      ensures !noisy && old(Settled(irqs, ram, memory)) ==> Settled(irqs, ram, memory)
    {
      StoreAddress(SourceWrite(false, source), irqs, ram, memory);
      StoreAddress(DestinationWrite(false, destination), irqs, ram, memory);
      StoreAddress(CountWrite(false, length), irqs, ram, memory);
      PauseSettled(irqs, ram, memory);
    }

    /** One store to a register other than the command, with the engine idle. */
    method StoreAddress(w: DmaWrite, ghost irqs: nat, ghost ram: seq<byte>, ghost memory: seq<byte>)
      requires Consistent() && !device.run && !w.CommandWrite? && !w.run
      modifies this`device, this`handler, this`dmaDone, this`factorialDone, this`anyIrqDone,
               this`irqCount, this`lastIrqStatus, this`written, this`noisy, dmaBuffer, this`writes
      ensures Consistent() && writes == old(writes) + [w]
      ensures Guarantee(old(Snapshot()), Snapshot())
      ensures device.source == if w.SourceWrite? then w.value else old(device.source)
      ensures device.destination == if w.DestinationWrite? then w.value else old(device.destination)
      ensures device.count == if w.CountWrite? then w.value else old(device.count)
      ensures old(noisy) ==> noisy
      ensures !noisy && old(Settled(irqs, ram, memory)) ==> Settled(irqs, ram, memory)
    {
      PauseSettled(irqs, ram, memory);
      match w
      case SourceWrite(_, value) =>
        writes := writes + [SourceWrite(device.run, value)];
        device := device.(source := value);
      case DestinationWrite(_, value) =>
        writes := writes + [DestinationWrite(device.run, value)];
        device := device.(destination := value);
      case CountWrite(_, value) =>
        writes := writes + [CountWrite(device.run, value)];
        device := device.(count := value);
    }

    method PauseSettled(ghost irqs: nat, ghost ram: seq<byte>, ghost memory: seq<byte>)
      requires Consistent() && !device.run
      modifies this`device, this`handler, this`dmaDone, this`factorialDone, this`anyIrqDone,
               this`irqCount, this`lastIrqStatus, this`written, this`noisy, dmaBuffer
      ensures Guarantee(old(Snapshot()), Snapshot())
      ensures device.source == old(device.source) && device.destination == old(device.destination)
      ensures device.count == old(device.count)
      ensures old(noisy) ==> noisy
      ensures !noisy && old(Settled(irqs, ram, memory)) ==> Settled(irqs, ram, memory)
    {
      ghost var w0 := Snapshot();
      ghost var es := Interfere();
      if !noisy && NothingInFlight(w0) { QuietRun(w0, es); }
      ProgrammedRegistersStay(w0, es);
    }

    /** The answer of the last wait is what it saw, and so is the record of timeouts. */
    ghost predicate Answered(r: Status, before: bool)
      reads this`saw, this`timedOut
    {
      && (r.Success? <==> saw.completed && saw.idle && saw.irq == {DMA_BIT})
      && (r == Failure(ETIMEDOUT) <==> !saw.completed && saw.idle)
      && (saw.idleAtTimeout ==> !saw.completed && saw.idle)
      && (timedOut <==> before || !saw.completed)
    }

    /** One transfer: forget stale state, program the engine, start it, wait for it.
        Success means that the command issued here, and no other, has finished. */
    method DmaTransfer(source: nat, destination: nat, length: nat, toRam: bool) returns (r: Status)
      requires Consistent() && !device.run && !dmaFaulted && busMaster
      requires 1 <= length <= BUFFER_SIZE
      requires if toRam then source == DEVICE_BUFFER && destination == dmaHandle
               else source == dmaHandle && destination == DEVICE_BUFFER
      modifies this`device, this`handler, this`dmaDone, this`factorialDone, this`anyIrqDone,
               this`irqCount, this`lastIrqStatus, this`written, this`noisy, dmaBuffer,
               this`busMaster, this`dmaFaulted, this`timedOut, this`saw, this`writes
      ensures Consistent() && device.issued == old(device.issued) + 1
      ensures writes == old(writes) + TransferLog(source, destination, length, toRam)
      ensures r.Success? ==> device.completed == device.issued && !device.run && !dmaFaulted && busMaster
      ensures r.Success? ==> BufferKept(old(dmaBuffer[..]), old(written), dmaBuffer[..], written)
      ensures r.Failure? ==> dmaFaulted && !busMaster && (r.error == EIO || r.error == ETIMEDOUT)
      ensures r == Failure(ETIMEDOUT) ==> !device.run
      ensures Answered(r, old(timedOut))
      ensures old(noisy) ==> noisy
      ensures !noisy && forceDmaTimeout && old(NothingInFlight(Snapshot())) ==>
                r.Failure? && irqCount == old(irqCount)
      ensures !noisy && !forceDmaTimeout && old(NothingInFlight(Snapshot())) ==>
                && (!old(timedOut) ==> (r.Success? <==> !timedOut))
                && (r.Success? ==>
                      Finished(old(irqCount), length, toRam, old(dmaBuffer[..]), old(device.memory)))
    {
      ghost var w0 := Snapshot();
      ForgetStaleState();
      ghost var w1 := Snapshot();
      ProgramTransfer(source, destination, length, w0.irqCount, w0.ram, w0.device.memory);
      ghost var w2 := Snapshot();
      GuaranteeIsTransitive(w0, w1, w2);
      writes := writes + [CommandWrite(device.run, device.source, device.destination, device.count, toRam)];
      device := device.(run := true, toRam := toRam, irqEnable := !forceDmaTimeout, progress := 0,
                        issued := device.issued + 1);
      ghost var w3 := Snapshot();
      assert InWindow(w3);
      r := WaitForDma(w0.irqCount, length, toRam, w0.ram, w0.device.memory);
      if r.Success? {
        assert BufferKept(w0.ram, w0.written, dmaBuffer[..], written);
      }
    }

    /** Below `upTo`, every byte the device has not stored since is the CPU's. */
    ghost predicate Filled(upTo: nat, image: seq<byte>)
      requires dmaBuffer.Length == BUFFER_SIZE && |image| <= BUFFER_SIZE
      reads this, dmaBuffer
    {
      forall i :: 0 <= i < upTo && i < |image| && i !in written ==> dmaBuffer[i] == image[i]
    }

    /** Nothing in flight, the first `upTo` bytes are the CPU's, and the rest of the state is as given. */
    ghost predicate QuietlyFilled(upTo: nat, image: seq<byte>, irqs: nat, lastIrq: set<nat>, memory: seq<byte>)
      requires dmaBuffer.Length == BUFFER_SIZE && |image| <= BUFFER_SIZE
      reads this, dmaBuffer
    {
      && NothingInFlight(Snapshot()) && irqCount == irqs
      && lastIrqStatus == lastIrq && device.memory == memory
      && forall i :: 0 <= i < upTo && i < |image| ==> dmaBuffer[i] == image[i]
    }

    /** Other threads of control run while the CPU works through the buffer. */
    method PauseFilled(
      upTo: nat, ghost image: seq<byte>, ghost expected: seq<byte>,
      ghost irqs: nat, ghost lastIrq: set<nat>, ghost memory: seq<byte>)
      requires Consistent() && !device.run && |image| <= BUFFER_SIZE && |expected| <= BUFFER_SIZE && Filled(upTo, image)
      modifies this`device, this`handler, this`dmaDone, this`factorialDone, this`anyIrqDone,
               this`irqCount, this`lastIrqStatus, this`written, this`noisy, dmaBuffer
      ensures Consistent() && !device.run && device.issued == old(device.issued)
      ensures Filled(upTo, image)
      ensures old(written) <= written
      ensures forall n: nat :: old(StoredBelow(n)) ==> StoredBelow(n)
      ensures old(noisy) ==> noisy
      ensures !noisy && old(QuietlyFilled(upTo, expected, irqs, lastIrq, memory)) ==>
                QuietlyFilled(upTo, expected, irqs, lastIrq, memory)
    {
      ghost var w0 := Snapshot();
      assert forall i :: 0 <= i < BUFFER_SIZE ==> w0.ram[i] == dmaBuffer[i];
      ghost var es := Interfere();
      assert forall i :: 0 <= i < BUFFER_SIZE ==> Snapshot().ram[i] == dmaBuffer[i];
      if !noisy && NothingInFlight(w0) { QuietRun(w0, es); }
    }

    /** The CPU stores one byte; it is the CPU's until the device stores there again. */
    method StoreByte(
      index: nat, value: byte, ghost image: seq<byte>, ghost irqs: nat, ghost lastIrq: set<nat>, ghost memory: seq<byte>)
      requires Consistent() && !device.run && |image| <= BUFFER_SIZE && index < |image|
      requires Filled(index, image) && value == image[index]
      modifies this`written, dmaBuffer
      ensures Consistent() && !device.run
      ensures Filled(index + 1, image)
      ensures old(QuietlyFilled(index, image, irqs, lastIrq, memory)) ==>
                QuietlyFilled(index + 1, image, irqs, lastIrq, memory)
    {
      dmaBuffer[index] := value;
      written := written - {index};
    }

    /** The CPU stores the pattern, or its complement, at the first `length` indexes. */
    method FillBuffer(length: nat, sentinel: bool)
      requires Consistent() && !device.run && length <= BUFFER_SIZE
      modifies this`device, this`handler, this`dmaDone, this`factorialDone, this`anyIrqDone,
               this`irqCount, this`lastIrqStatus, this`written, this`noisy, dmaBuffer
      ensures Consistent() && !device.run && device.issued == old(device.issued)
      ensures Filled(length, Image(length, sentinel))
      ensures old(noisy) ==> noisy
      ensures !noisy && old(NothingInFlight(Snapshot())) ==>
                QuietlyFilled(length, Image(length, sentinel), old(irqCount), old(lastIrqStatus), old(device.memory))
    {
      ghost var quiet := NothingInFlight(Snapshot());
      ghost var (irqs, lastIrq, memory) := (irqCount, lastIrqStatus, device.memory);
      ghost var image := Image(length, sentinel);
      var index := 0;
      while index < length
        invariant index <= length
        invariant Consistent() && !device.run && device.issued == old(device.issued)
        invariant Filled(index, image)
        invariant old(noisy) ==> noisy
        invariant !noisy && quiet ==> QuietlyFilled(index, image, irqs, lastIrq, memory)
      {
        PauseFilled(index, image, image, irqs, lastIrq, memory);
        StoreByte(index, Fill(index, length, sentinel), image, irqs, lastIrq, memory);
        index := index + 1;
      }
    }

    ghost predicate StoredBelow(n: nat)
      reads this`written
    {
      forall i :: 0 <= i < n ==> i in written
    }

    /** A byte that differs is not the image, and was not left quietly as the image. */
    lemma DiffersFromImage(index: nat, length: nat, image: seq<byte>, irqs: nat, lastIrq: set<nat>, memory: seq<byte>)
      requires dmaBuffer.Length == BUFFER_SIZE && index < length == |image| <= BUFFER_SIZE && dmaBuffer[index] != image[index]
      ensures !QuietlyFilled(length, image, irqs, lastIrq, memory) && dmaBuffer[..length] != image
    {
      assert dmaBuffer[..length][index] != image[index];
    }

    /** A byte that matches the pattern is not the sentinel, so the device stored it. */
    lemma MatchIsStored(index: nat, length: nat)
      requires dmaBuffer.Length == BUFFER_SIZE && index < length <= BUFFER_SIZE && Filled(length, Image(length, true))
      requires dmaBuffer[index] == Fill(index, length, false)
      ensures StoredBelow(index) ==> StoredBelow(index + 1)
    {
      SentinelNeverPasses(index, length);
      assert Image(length, true)[index] == Fill(index, length, true);
    }

    /** The bytes compared so far are the expected ones. */
    ghost predicate Compared(expected: seq<byte>, index: nat)
      reads this`compared
    {
      index <= |expected| && compared == expected[..index]
    }

    /** Load one byte of the buffer. */
    method ReadByte(index: nat, ghost expected: seq<byte>) returns (value: byte)
      requires index < dmaBuffer.Length && index < |expected| && Compared(expected, index)
      modifies this`compared
      ensures value == dmaBuffer[index] && compared == old(compared) + [value]
      ensures if value == expected[index] then Compared(expected, index + 1) else compared != expected
    {
      value := dmaBuffer[index];
      compared := compared + [dmaBuffer[index]];
      assert compared[index] == value;
    }

    /** Begin a comparison. */
    ghost method StartComparing(expected: seq<byte>)
      modifies this`compared
      ensures Compared(expected, 0)
    {
      compared := [];
    }

    lemma AllCompared(expected: seq<byte>)
      requires Compared(expected, |expected|)
      ensures compared == expected
    {
    }

    /** Compare the first `length` bytes with the pattern. */
    method VerifyBuffer(length: nat) returns (ok: bool)
      requires Consistent() && !device.run && length <= BUFFER_SIZE
      requires Filled(length, Image(length, true))
      modifies this`device, this`handler, this`dmaDone, this`factorialDone, this`anyIrqDone,
               this`irqCount, this`lastIrqStatus, this`written, this`noisy, dmaBuffer, this`compared
      ensures Consistent() && !device.run && device.issued == old(device.issued)
      ensures ok ==> StoredBelow(length)
      ensures ok <==> compared == Image(length, false)
      ensures !ok ==> dmaBuffer[..length] != Image(length, false)
      ensures old(noisy) ==> noisy
      ensures !noisy && old(QuietlyFilled(length, Image(length, false), irqCount, lastIrqStatus, device.memory)) ==>
                ok && QuietlyFilled(length, Image(length, false), old(irqCount), old(lastIrqStatus), old(device.memory))
    {
      ghost var (sentinel, expected) := (Image(length, true), Image(length, false));
      ghost var (irqs, lastIrq, memory) := (irqCount, lastIrqStatus, device.memory);
      ghost var quiet := QuietlyFilled(length, expected, irqs, lastIrq, memory);
      assert dmaBuffer.Length == BUFFER_SIZE;
      hide Consistent, QuietlyFilled, Filled, Fill, StoredBelow, Compared;
      StartComparing(expected);
      var index := 0;
      while index < length
        invariant index <= length && dmaBuffer.Length == BUFFER_SIZE
        invariant Consistent() && !device.run && device.issued == old(device.issued)
        invariant Filled(length, sentinel)
        invariant StoredBelow(index) && Compared(expected, index)
        invariant old(noisy) ==> noisy
        invariant !noisy && quiet ==> QuietlyFilled(length, expected, irqs, lastIrq, memory)
      {
        PauseFilled(length, sentinel, expected, irqs, lastIrq, memory);
        var stored := ReadByte(index, expected);
        if stored != Fill(index, length, false) {
          DiffersFromImage(index, length, expected, irqs, lastIrq, memory);
          return false;
        }
        MatchIsStored(index, length);
        index := index + 1;
      }
      AllCompared(expected);
      return true;
    }

    /** The sysfs round trip: RAM to device, sentinel, device to RAM, comparison. */
    method DmaRoundtripStore(input: Input) returns (r: Status)
      requires Valid()
      modifies this, dmaBuffer
      ensures Valid()
      ensures old(writes) <= writes
      ensures input.Malformed? ==> r == Failure(ParseError)
      ensures input.Length? && !(1 <= input.value <= BUFFER_SIZE) ==> r == Failure(ERANGE)
      ensures !InRange(input) ==>
                Snapshot() == old(Snapshot()) && writes == old(writes) && dmaFaulted == old(dmaFaulted)
                && dmaResult == old(dmaResult) && dmaLastLength == old(dmaLastLength)
      ensures old(dmaFaulted) ==> dmaFaulted
      // A latched fault refuses every later request without touching anything.
      ensures old(dmaFaulted) && InRange(input) ==>
                && r == Failure(EIO) && Snapshot() == old(Snapshot()) && writes == old(writes)
                && dmaResult == old(dmaResult) && dmaLastLength == old(dmaLastLength)
      ensures !old(dmaFaulted) && InRange(input) ==>
                && dmaLastLength == input.value
                && ResultOf(r)
      // A pass means both transfers finished and the device stored every compared byte
      // after the CPU had stored the sentinel there.
      ensures r.Success? ==>
                && input.Length? && device.issued == device.completed == old(device.issued) + 2
                && compared == Image(input.value, false)
                && writes == old(writes) + RoundTripLog(input.value)
                && forall i :: 0 <= i < input.value ==> i in written
      // ETIMEDOUT, and the result "timeout", exactly when a wait ran into its timeout and found
      // RUN clear; it did if the engine was idle at the timeout.
      ensures !old(dmaFaulted) && InRange(input) ==>
                && (r == Failure(ETIMEDOUT) <==> timedOut && saw.idle)
                && (dmaResult == Timeout <==> timedOut && saw.idle)
                && (timedOut && saw.idleAtTimeout ==> saw.idle)
                && (r == Failure(EIO) && !dmaFaulted ==> !timedOut && compared != Image(input.value, false))
      // Without noise and with nothing in flight, a round trip passes exactly when no wait
      // times out, and then counts exactly two interrupts.
      ensures (&& !noisy && !timedOut && !forceDmaTimeout && InRange(input)
               && !old(dmaFaulted) && old(NothingInFlight(Snapshot()))) ==> r.Success?
      ensures !noisy && r.Success? && old(NothingInFlight(Snapshot())) ==>
                && !timedOut && irqCount == old(irqCount) + 2 && lastIrqStatus == {DMA_BIT}
                && NothingInFlight(Snapshot())
                && forall i :: 0 <= i < input.value ==> dmaBuffer[i] == Pattern(i, input.value)
      ensures !noisy && forceDmaTimeout && old(NothingInFlight(Snapshot())) ==>
                r.Failure? && irqCount == old(irqCount)
    {
      hide Pattern;
      if input.Malformed? {
        return Failure(ParseError);
      }
      var length := input.value;
      if length == 0 || length > BUFFER_SIZE {
        return Failure(ERANGE);
      }
      noisy, timedOut := false, false;
      if dmaFaulted {
        return Failure(EIO);
      }
      r := RoundTrip(length);
    }

    /** The register stores of a whole round trip. */
    function RoundTripLog(length: nat): seq<DmaWrite>
    {
      TransferLog(dmaHandle, DEVICE_BUFFER, length, false) + TransferLog(DEVICE_BUFFER, dmaHandle, length, true)
    }

    /** Fill the buffer with the pattern and send it to the device. */
    method SendToDevice(length: nat) returns (r: Status)
      requires Consistent() && !device.run && !dmaFaulted && busMaster && 1 <= length <= BUFFER_SIZE
      modifies this`device, this`handler, this`dmaDone, this`factorialDone, this`anyIrqDone,
               this`irqCount, this`lastIrqStatus, this`written, this`noisy, dmaBuffer,
               this`busMaster, this`dmaFaulted, this`timedOut, this`saw, this`writes
      ensures Consistent() && device.issued == old(device.issued) + 1
      ensures r.Success? ==> device.completed == device.issued && !device.run && !dmaFaulted && busMaster
      ensures r.Failure? ==> dmaFaulted && !busMaster && (r.error == EIO || r.error == ETIMEDOUT)
      ensures writes == old(writes) + TransferLog(dmaHandle, DEVICE_BUFFER, length, false)
      ensures Answered(r, old(timedOut))
      ensures old(noisy) ==> noisy
      ensures !noisy && forceDmaTimeout && old(NothingInFlight(Snapshot())) ==>
                r.Failure? && irqCount == old(irqCount)
      ensures !noisy && !forceDmaTimeout && old(NothingInFlight(Snapshot())) ==>
                && (!old(timedOut) ==> (r.Success? <==> !timedOut))
                && (r.Success? ==>
                      && NothingInFlight(Snapshot()) && irqCount == old(irqCount) + 1
                      && device.memory[..length] == Image(length, false))
    {
      FillBuffer(length, false);
      ghost var ram := dmaBuffer[..];
      assert !noisy && old(NothingInFlight(Snapshot())) ==> ram[..length] == Image(length, false);
      r := DmaTransfer(dmaHandle % U32, DEVICE_BUFFER, length, false);
    }

    /** Overwrite the buffer with the sentinel and fetch the device's bytes into it. */
    method FetchFromDevice(length: nat) returns (r: Status)
      requires Consistent() && !device.run && !dmaFaulted && busMaster && 1 <= length <= BUFFER_SIZE
      modifies this`device, this`handler, this`dmaDone, this`factorialDone, this`anyIrqDone,
               this`irqCount, this`lastIrqStatus, this`written, this`noisy, dmaBuffer,
               this`busMaster, this`dmaFaulted, this`timedOut, this`saw, this`writes
      ensures Consistent() && device.issued == old(device.issued) + 1
      ensures r.Success? ==> device.completed == device.issued && !device.run && !dmaFaulted && busMaster
      ensures r.Success? ==> Filled(length, Image(length, true))
      ensures r.Failure? ==> dmaFaulted && !busMaster && (r.error == EIO || r.error == ETIMEDOUT)
      ensures writes == old(writes) + TransferLog(DEVICE_BUFFER, dmaHandle, length, true)
      ensures Answered(r, old(timedOut))
      ensures old(noisy) ==> noisy
      ensures !noisy && !forceDmaTimeout && old(NothingInFlight(Snapshot())) ==>
                && (!old(timedOut) ==> (r.Success? <==> !timedOut))
                && (r.Success? && old(device.memory[..length]) == Image(length, false) ==>
                      QuietlyFilled(length, Image(length, false), old(irqCount) + 1, {DMA_BIT}, device.memory))
    {
      ghost var fetched := device.memory;
      FillBuffer(length, true);
      ghost var ram := dmaBuffer[..];
      ghost var sentinel := Image(length, true);
      ghost var writtenBefore := written;
      r := DmaTransfer(DEVICE_BUFFER, dmaHandle % U32, length, true);
      if r.Success? {
        KeepFilled(length, sentinel, ram, writtenBefore);
        if !noisy && !forceDmaTimeout && old(NothingInFlight(Snapshot())) {
          assert dmaBuffer[..] == fetched[..length] + ram[length..];
          assert forall i :: 0 <= i < length ==> dmaBuffer[i] == fetched[..length][i];
        }
      }
    }

    /** What the CPU stored and the device did not touch is still what the CPU stored. */
    lemma KeepFilled(length: nat, image: seq<byte>, ram: seq<byte>, writtenBefore: set<nat>)
      requires dmaBuffer.Length == BUFFER_SIZE && |image| <= BUFFER_SIZE && length <= |image|
      requires BufferKept(ram, writtenBefore, dmaBuffer[..], written)
      requires forall i :: 0 <= i < length && i !in writtenBefore ==> ram[i] == image[i]
      ensures Filled(length, image)
    {
      assert forall i :: 0 <= i < BUFFER_SIZE ==> dmaBuffer[..][i] == dmaBuffer[i];
    }

    /** Compare and record the verdict. */
    method Conclude(length: nat) returns (r: Status)
      requires Consistent() && !device.run && 1 <= length <= BUFFER_SIZE
      requires Filled(length, Image(length, true))
      modifies this`device, this`handler, this`dmaDone, this`factorialDone, this`anyIrqDone,
               this`irqCount, this`lastIrqStatus, this`written, this`noisy, dmaBuffer,
               this`dmaLastLength, this`dmaResult, this`compared
      ensures Consistent() && !device.run && device.issued == old(device.issued)
      ensures r == Success || r == Failure(EIO)
      ensures r.Success? <==> compared == Image(length, false)
      ensures dmaLastLength == length && dmaResult == if r.Success? then Passed else VerifyFailed
      ensures r.Success? ==> forall i :: 0 <= i < length ==> i in written
      ensures old(noisy) ==> noisy
      ensures !noisy && old(QuietlyFilled(length, Image(length, false), irqCount, lastIrqStatus, device.memory)) ==>
                && r.Success?
                && QuietlyFilled(length, Image(length, false), old(irqCount), old(lastIrqStatus), device.memory)
    {
      var ok := VerifyBuffer(length);
      dmaLastLength := length;
      dmaResult := if ok then Passed else VerifyFailed;
      r := if ok then Success else Failure(EIO);
    }

    /** The second half of a round trip: fetch the bytes, compare them, record the verdict. */
    method Receive(length: nat) returns (r: Status)
      requires Consistent() && !device.run && !dmaFaulted && busMaster && 1 <= length <= BUFFER_SIZE && !timedOut
      modifies this, dmaBuffer
      ensures Valid() && dmaLastLength == length && ResultOf(r)
      ensures r == Failure(ETIMEDOUT) <==> timedOut && saw.idle
      ensures timedOut && saw.idleAtTimeout ==> saw.idle
      ensures r == Failure(EIO) && !dmaFaulted ==> !timedOut && compared != Image(length, false)
      ensures writes == old(writes) + TransferLog(DEVICE_BUFFER, dmaHandle, length, true)
      ensures r.Success? ==> compared == Image(length, false) && device.issued == device.completed == old(device.issued) + 1
      ensures r.Success? ==> forall i :: 0 <= i < length ==> i in written
      ensures old(noisy) ==> noisy
      ensures !noisy && !forceDmaTimeout && old(NothingInFlight(Snapshot())) ==>
                && (r.Success? ==> !timedOut)
                && (old(device.memory[..length]) == Image(length, false) ==>
                      && (!timedOut ==> r.Success?)
                      && (r.Success? ==>
                            QuietlyFilled(length, Image(length, false), old(irqCount) + 1, {DMA_BIT}, device.memory)))
    {
      hide Image, TransferLog, Filled, Guarantee, SafeLog, NothingInFlight;
      r := FetchFromDevice(length);
      if r.Failure? {
        RecordFailure(length, r.error);
        return;
      }
      r := Conclude(length);
    }

    /** The result an operation records for what it returns. */
    ghost predicate ResultOf(r: Status)
      reads this`dmaResult, this`dmaFaulted
    {
      match r
      case Success => dmaResult == Passed
      case Failure(e) =>
        && (e == ETIMEDOUT || e == EIO)
        && dmaResult == if e == ETIMEDOUT then Timeout else if dmaFaulted then Faulted else VerifyFailed
    }

    method RoundTrip(length: nat) returns (r: Status)
      requires Valid() && !dmaFaulted && 1 <= length <= BUFFER_SIZE && !noisy && !timedOut
      modifies this, dmaBuffer
      ensures Valid()
      ensures old(writes) <= writes
      ensures dmaLastLength == length && ResultOf(r)
      ensures r == Failure(ETIMEDOUT) <==> timedOut && saw.idle
      ensures timedOut && saw.idleAtTimeout ==> saw.idle
      ensures r == Failure(EIO) && !dmaFaulted ==> !timedOut && compared != Image(length, false)
      ensures r.Success? ==> compared == Image(length, false) && writes == old(writes) + RoundTripLog(length)
      ensures r.Success? ==>
                && device.issued == device.completed == old(device.issued) + 2
                && forall i :: 0 <= i < length ==> i in written
      ensures !noisy && !timedOut && !forceDmaTimeout && old(NothingInFlight(Snapshot())) ==> r.Success?
      ensures !noisy && r.Success? && old(NothingInFlight(Snapshot())) ==>
                && !timedOut
                && QuietlyFilled(length, Image(length, false), old(irqCount) + 2, {DMA_BIT}, device.memory)
      ensures !noisy && forceDmaTimeout && old(NothingInFlight(Snapshot())) ==>
                r.Failure? && irqCount == old(irqCount)
    {
      hide Image, TransferLog, Filled, QuietlyFilled, Guarantee, SafeLog, NothingInFlight;
      r := SendToDevice(length);
      if r.Failure? {
        RecordFailure(length, r.error);
        return;
      }
      r := Receive(length);
    }

    method RecordFailure(length: nat, error: Errno)
      modifies this`dmaLastLength, this`dmaResult
      ensures dmaLastLength == length
      ensures dmaResult == if error == ETIMEDOUT then Timeout else Faulted
    {
      dmaLastLength := length;
      dmaResult := if error == ETIMEDOUT then Timeout else Faulted;
    }

    /** Any sequence of requests after probe. Once a wait has timed out, or any transfer
        fault was latched, every later request of valid length is refused, and no DMA
        register is written again; all register stores ever made were safe. As long as all
        is calm, without noise and timeouts, every request of valid length succeeds. */
    method Serve(requests: seq<Input>) returns (replies: seq<Status>, ghost calm: bool)
      requires Valid()
      modifies this, dmaBuffer
      ensures Valid() && old(writes) <= writes
      ensures |replies| == |requests|
      ensures forall j :: 0 <= j < |requests| ==> Plausible(requests[j], replies[j])
      ensures calm && !old(dmaFaulted) && !forceDmaTimeout && old(NothingInFlight(Snapshot())) ==>
                forall j :: 0 <= j < |requests| && InRange(requests[j]) ==> replies[j] == Success
      ensures old(dmaFaulted) ==> dmaFaulted && writes == old(writes)
      ensures forall j :: 0 <= j < |requests| && old(dmaFaulted) && InRange(requests[j]) ==> replies[j] == Failure(EIO)
      ensures forall i, j :: 0 <= i < j < |requests| && replies[i] == Failure(ETIMEDOUT) && InRange(requests[j]) ==>
                replies[j] == Failure(EIO)
    {
      replies, calm := [], true;
      ghost var latched := dmaFaulted;
      ghost var quiet := !dmaFaulted && !forceDmaTimeout && NothingInFlight(Snapshot());
      while |replies| < |requests|
        invariant Valid() && old(writes) <= writes
        invariant |replies| <= |requests|
        invariant forall j :: 0 <= j < |replies| ==> Plausible(requests[j], replies[j])
        invariant calm && quiet ==> !dmaFaulted && NothingInFlight(Snapshot())
        invariant calm && quiet ==> forall j :: 0 <= j < |replies| && InRange(requests[j]) ==> replies[j] == Success
        invariant latched ==> dmaFaulted && writes == old(writes)
        invariant forall j :: 0 <= j < |replies| && latched && InRange(requests[j]) ==> replies[j] == Failure(EIO)
        invariant forall i :: 0 <= i < |replies| && replies[i] == Failure(ETIMEDOUT) ==> dmaFaulted
        invariant forall i, j :: 0 <= i < j < |replies| && replies[i] == Failure(ETIMEDOUT) && InRange(requests[j]) ==>
                    replies[j] == Failure(EIO)
      {
        var request := requests[|replies|];
        calm := BetweenRequests(calm);
        var r := DmaRoundtripStore(request);
        calm := calm && (InRange(request) ==> !noisy && !timedOut);
        replies := replies + [r];
      }
    }

    /** Whatever happens between two requests; only noise disturbs the calm. */
    method BetweenRequests(ghost before: bool) returns (ghost calm: bool)
      requires Valid()
      modifies this`device, this`handler, this`dmaDone, this`factorialDone, this`anyIrqDone,
               this`irqCount, this`lastIrqStatus, this`written, this`noisy, dmaBuffer
      ensures Valid()
      ensures calm ==> before
      ensures calm && old(NothingInFlight(Snapshot())) ==> NothingInFlight(Snapshot())
    {
      noisy := false;
      ghost var w0 := Snapshot();
      ghost var es := Interfere();
      calm := before && !noisy;
      if !noisy && NothingInFlight(w0) { QuietRun(w0, es); }
    }
  }

  /** What a reply may be, given the request. */
  predicate Plausible(request: Input, reply: Status)
  {
    match request
    case Malformed => reply == Failure(ParseError)
    case Length(n) =>
      if !InRange(request) then reply == Failure(ERANGE)
      else reply == Success || reply == Failure(EIO) || reply == Failure(ETIMEDOUT)
  }

  /** Bytes the device has not stored since the CPU did are the ones that were there. */
  ghost predicate BufferKept(before: seq<byte>, writtenBefore: set<nat>, after: seq<byte>, writtenAfter: set<nat>)
  {
    && |before| == |after| == BUFFER_SIZE
    && writtenBefore <= writtenAfter
    && forall i :: 0 <= i < BUFFER_SIZE && i !in writtenAfter ==> after[i] == before[i]
  }
}
