// The EDU device and the interrupt handler, as seen by one driver thread.
//
// Everything that can happen between two statements of the driver's operation
// thread is a sequence of events: a statement of the interrupt handler, a step
// of the DMA engine, or noise (stale or invented interrupts, completions and
// stores). A 32-bit status word is the set of its bit numbers, so writing the
// acknowledge register clears exactly the written bits by set difference.

module EduDevice {

  type byte = x: int | 0 <= x < 256

  const BUFFER_SIZE: nat := 4096
  const DEVICE_BUFFER: nat := 0x40000
  const DMA_LIMIT: nat := 0x1000_0000  // one past the 28-bit DMA mask
  const FACTORIAL_BIT: nat := 0
  const DMA_BIT: nat := 8

  /** The registers and the 4 KiB buffer of the device.
      `issued` and `completed` number the accepted commands and the finished copies. */
  datatype Device = Device(
    irqStatus: set<nat>,   // bits waiting for acknowledgement
    message: bool,         // an interrupt was raised and the handler not yet entered for it
    source: nat,
    destination: nat,
    count: nat,
    toRam: bool,
    irqEnable: bool,
    run: bool,
    progress: nat,         // bytes copied by the current command
    owed: bool,            // the copy is done, its interrupt not yet raised
    issued: nat,
    completed: nat,
    memory: seq<byte>)

  /** Where the interrupt handler stands; the status it read travels along. */
  datatype Handler =
    | Idle
    | Entered(status: set<nat>)
    | Acked(status: set<nat>)
    | Recorded(status: set<nat>)
    | Counted(status: set<nat>)
    | FactorialSignalled(status: set<nat>)
    | DmaSignalled(status: set<nat>)

  /** All state the environment of the operation thread may change.
      `written` holds the buffer indexes stored by the device since the CPU last filled them. */
  datatype World = World(
    device: Device,
    handler: Handler,
    dmaDone: nat,
    factorialDone: nat,
    anyIrqDone: nat,
    irqCount: nat,
    lastIrqStatus: set<nat>,
    busMaster: bool,
    dmaHandle: nat,
    ram: seq<byte>,
    written: set<nat>)

  datatype Event =
    | HandlerStatement
    | CopyByte
    | FinishCopy
    | RaiseDma
    | SpuriousInterrupt(bits: set<nat>)
    | SpuriousCompletion
    | StrayStore(index: nat, value: byte)

  /** One statement of the interrupt handler. */
  function HandlerStep(w: World): World
  {
    match w.handler
    case Idle =>
      var heard := w.(device := w.device.(message := false));
      if w.device.irqStatus == {} then heard else heard.(handler := Entered(w.device.irqStatus))
    case Entered(status) =>
      w.(device := w.device.(irqStatus := w.device.irqStatus - status), handler := Acked(status))
    case Acked(status) =>
      w.(lastIrqStatus := status, handler := Recorded(status))
    case Recorded(status) =>
      w.(irqCount := w.irqCount + 1, handler := Counted(status))
    case Counted(status) =>
      w.(factorialDone := w.factorialDone + (if FACTORIAL_BIT in status then 1 else 0),
         handler := FactorialSignalled(status))
    case FactorialSignalled(status) =>
      w.(dmaDone := w.dmaDone + (if DMA_BIT in status then 1 else 0),
         handler := DmaSignalled(status))
    case DmaSignalled(status) =>
      w.(anyIrqDone := w.anyIrqDone + 1, handler := Idle)
  }

  /** Whether both ranges of the programmed command lie in the two buffers. */
  predicate InWindow(w: World)
  {
    var d := w.device;
    |w.ram| == BUFFER_SIZE && |d.memory| == BUFFER_SIZE &&
    if d.toRam then
      d.source == DEVICE_BUFFER && d.destination == w.dmaHandle && d.count <= BUFFER_SIZE
    else
      d.source == w.dmaHandle && d.destination == DEVICE_BUFFER && d.count <= BUFFER_SIZE
  }

  /** The engine moves one byte; without bus mastering it advances but nothing reaches RAM. */
  function CopyStep(w: World): World
  {
    var d := w.device;
    if !d.run || d.progress >= d.count then w
    else
      var moved := w.(device := d.(progress := d.progress + 1));
      if !InWindow(w) || !w.busMaster then moved
      else if d.toRam then
        moved.(ram := w.ram[d.progress := d.memory[d.progress]], written := w.written + {d.progress})
      else
        moved.(device := moved.device.(memory := d.memory[d.progress := w.ram[d.progress]]))
  }

  /** RUN clears only when the whole copy is finished; that is the device's contract. */
  function FinishStep(w: World): World
  {
    var d := w.device;
    if d.run && d.progress == d.count then
      w.(device := d.(run := false, owed := d.irqEnable, completed := d.completed + 1))
    else w
  }

  function RaiseStep(w: World): World
  {
    var d := w.device;
    if d.owed then w.(device := d.(owed := false, message := true, irqStatus := d.irqStatus + {DMA_BIT}))
    else w
  }

  function EnvStep(w: World, e: Event): World
  {
    match e
    case HandlerStatement => HandlerStep(w)
    case CopyByte => CopyStep(w)
    case FinishCopy => FinishStep(w)
    case RaiseDma => RaiseStep(w)
    case SpuriousInterrupt(bits) =>
      w.(device := w.device.(irqStatus := w.device.irqStatus + bits, message := true))
    case SpuriousCompletion => w.(dmaDone := w.dmaDone + 1)
    case StrayStore(index, value) =>
      if w.busMaster && index < |w.ram| then
        w.(ram := w.ram[index := value], written := w.written + {index})
      else w
  }

  function EnvRun(w: World, es: seq<Event>): World
    decreases |es|
  {
    if es == [] then w else EnvRun(EnvStep(w, es[0]), es[1..])
  }

  /** No noise: the handler reads a pending status only for a raised interrupt. */
  predicate BenignEvent(w: World, e: Event)
  {
    match e
    case HandlerStatement => w.handler.Idle? && w.device.irqStatus != {} ==> w.device.message
    case CopyByte | FinishCopy | RaiseDma => true
    case _ => false
  }

  predicate BenignRun(w: World, es: seq<Event>)
    decreases |es|
  {
    es == [] || (BenignEvent(w, es[0]) && BenignRun(EnvStep(w, es[0]), es[1..]))
  }

  lemma {:induction false} EnvRunAppend(w: World, es: seq<Event>, e: Event)
    ensures EnvRun(w, es + [e]) == EnvStep(EnvRun(w, es), e)
    ensures BenignRun(w, es + [e]) <==> BenignRun(w, es) && BenignEvent(EnvRun(w, es), e)
    decreases |es|
  {
    if es == [] {
      assert ([e])[1..] == [];
      assert EnvRun(w, [e]) == EnvRun(EnvStep(w, e), []);
      assert [] + [e] == [e];
      assert BenignRun(EnvStep(w, e), []);
    } else {
      assert (es + [e])[0] == es[0] && (es + [e])[1..] == es[1..] + [e];
      EnvRunAppend(EnvStep(w, es[0]), es[1..], e);
    }
  }

  /** The counters tell whether a command is running, and the buffers keep their sizes. */
  predicate Counters(w: World)
  {
    && w.device.issued == w.device.completed + (if w.device.run then 1 else 0)
    && |w.ram| == BUFFER_SIZE
    && |w.device.memory| == BUFFER_SIZE
  }

  /** What no interleaving of handler, engine and noise can do to the driver. */
  predicate Guarantee(before: World, after: World)
  {
    && Counters(after)
    && |before.ram| == BUFFER_SIZE
    && after.device.issued == before.device.issued
    && after.device.completed >= before.device.completed
    && (!before.device.run ==> !after.device.run)
    && after.busMaster == before.busMaster
    && after.dmaHandle == before.dmaHandle
    && before.written <= after.written
    && (forall i :: 0 <= i < BUFFER_SIZE && i !in after.written ==> after.ram[i] == before.ram[i])
    && (!before.busMaster ==> after.ram == before.ram)
  }

  lemma StepKeepsGuarantee(w: World, e: Event)
    requires Counters(w)
    ensures Guarantee(w, EnvStep(w, e))
  {
  }

  lemma GuaranteeIsTransitive(a: World, b: World, c: World)
    requires Guarantee(a, b) && Guarantee(b, c)
    ensures Guarantee(a, c)
  {
  }

  /** Every run of the environment keeps the guarantee, noise included. */
  lemma {:induction false} EveryRunKeepsGuarantee(w: World, es: seq<Event>)
    requires Counters(w)
    ensures Guarantee(w, EnvRun(w, es))
    decreases |es|
  {
    if es != [] {
      var v := EnvStep(w, es[0]);
      StepKeepsGuarantee(w, es[0]);
      EveryRunKeepsGuarantee(v, es[1..]);
      GuaranteeIsTransitive(w, v, EnvRun(v, es[1..]));
    }
  }

  predicate SameProgram(d: Device, e: Device)
  {
    e.source == d.source && e.destination == d.destination && e.count == d.count &&
    e.toRam == d.toRam && e.irqEnable == d.irqEnable
  }

  lemma StepKeepsProgram(w: World, e: Event)
    ensures SameProgram(w.device, EnvStep(w, e).device)
  {
  }

  /** Only the operation thread writes the programming registers. */
  lemma {:induction false} ProgrammedRegistersStay(w: World, es: seq<Event>)
    ensures SameProgram(w.device, EnvRun(w, es).device)
    decreases |es|
  {
    if es != [] {
      StepKeepsProgram(w, es[0]);
      ProgrammedRegistersStay(EnvStep(w, es[0]), es[1..]);
      hide EnvStep;
    }
  }

  // ---- Runs without noise ----

  /** The interrupt of the current transfer is inside the handler, before its completion. */
  predicate InHandler(h: Handler)
  {
    !h.Idle? && !h.DmaSignalled?
  }

  /** Nothing left over from earlier operations except unacknowledged status bits,
      completions nobody waited for, and a handler about to return. */
  predicate NothingInFlight(w: World)
  {
    && !w.device.run
    && !w.device.owed
    && !InHandler(w.handler)
    && (w.device.message ==> w.device.irqStatus == {})
  }

  lemma {:induction false} QuietRun(w: World, es: seq<Event>)
    requires Counters(w) && NothingInFlight(w) && BenignRun(w, es)
    ensures
      var v := EnvRun(w, es);
      && NothingInFlight(v)
      && v.device == w.device.(message := v.device.message)
      && v.ram == w.ram
      && v.dmaDone == w.dmaDone && v.irqCount == w.irqCount
      && v.lastIrqStatus == w.lastIrqStatus
    decreases |es|
  {
    if es != [] {
      StepKeepsGuarantee(w, es[0]);
      QuietRun(EnvStep(w, es[0]), es[1..]);
    }
  }

  /** How many places hold the one interrupt of the current transfer. */
  function Tokens(w: World): nat
  {
    (if w.device.run then 1 else 0) +
    (if w.device.owed then 1 else 0) +
    (if DMA_BIT in w.device.irqStatus then 1 else 0) +
    (if InHandler(w.handler) then 1 else 0) +
    w.dmaDone
  }

  /** A transfer of `length` bytes is under way or done, `irqs` interrupts were counted
      before it. With interrupts enabled exactly one token exists: the engine runs, owes
      the interrupt, has raised it, the handler carries it, or the completion holds it. */
  predicate Transferring(w: World, irqs: nat, length: nat, toRam: bool, enable: bool)
  {
    var d := w.device;
    var h := w.handler;
    && d.toRam == toRam && d.irqEnable == enable && d.count == length
    && InWindow(w) && w.busMaster
    && d.irqStatus <= {DMA_BIT}
    && (InHandler(h) ==> h.status == {DMA_BIT})
    && (h.Entered? ==> DMA_BIT in d.irqStatus)
    && (d.irqStatus != {} && !h.Entered? ==> d.message)
    && d.progress <= length
    && (!d.run ==> d.progress == length)
    && (if enable then
          Tokens(w) == (if h.Entered? then 2 else 1)
        else
          !d.owed && d.irqStatus == {} && !InHandler(h) && w.dmaDone == 0)
    && w.irqCount == irqs + (if h.Counted? || h.FactorialSignalled? || w.dmaDone == 1 then 1 else 0)
    && (h.Recorded? || h.Counted? || h.FactorialSignalled? || w.dmaDone == 1 ==>
          w.lastIrqStatus == {DMA_BIT})
  }

  /** Before the engine reaches index `progress` the target keeps its old bytes, below it
      the target equals the source, and the source never changes. */
  predicate CopiedSoFar(w: World, ram: seq<byte>, memory: seq<byte>)
  {
    var d := w.device;
    && |ram| == |memory| == |w.ram| == |d.memory| == BUFFER_SIZE && d.progress <= BUFFER_SIZE
    && (if d.toRam then
          d.memory == memory && w.ram == memory[..d.progress] + ram[d.progress..]
        else
          w.ram == ram && d.memory == ram[..d.progress] + memory[d.progress..])
  }

  lemma {:induction false} TransferStep(
    w: World, e: Event, irqs: nat, length: nat, toRam: bool, enable: bool, ram: seq<byte>, memory: seq<byte>)
    requires Transferring(w, irqs, length, toRam, enable) && CopiedSoFar(w, ram, memory)
    requires BenignEvent(w, e)
    ensures Transferring(EnvStep(w, e), irqs, length, toRam, enable)
    ensures CopiedSoFar(EnvStep(w, e), ram, memory)
  {
    if e.CopyByte? && w.device.run && w.device.progress < length {
      var k := w.device.progress;
      var v := EnvStep(w, e);
      if toRam {
        assert v.ram == memory[..k + 1] + ram[k + 1..];
      } else {
        assert v.device.memory == ram[..k + 1] + memory[k + 1..];
      }
    }
  }

  lemma {:induction false} TransferRun(
    w: World, es: seq<Event>, irqs: nat, length: nat, toRam: bool, enable: bool, ram: seq<byte>, memory: seq<byte>)
    requires Transferring(w, irqs, length, toRam, enable) && CopiedSoFar(w, ram, memory)
    requires BenignRun(w, es)
    ensures Transferring(EnvRun(w, es), irqs, length, toRam, enable)
    ensures CopiedSoFar(EnvRun(w, es), ram, memory)
    decreases |es|
  {
    if es != [] {
      TransferStep(w, es[0], irqs, length, toRam, enable, ram, memory);
      TransferRun(EnvStep(w, es[0]), es[1..], irqs, length, toRam, enable, ram, memory);
    }
  }

  /** With interrupts disabled no completion ever arrives. */
  lemma {:induction false} TransferRunWithoutInterrupts(w: World, es: seq<Event>, irqs: nat, length: nat, toRam: bool)
    requires Transferring(w, irqs, length, toRam, false) && BenignRun(w, es)
    ensures Transferring(EnvRun(w, es), irqs, length, toRam, false)
    decreases |es|
  {
    if es != [] {
      TransferRunWithoutInterrupts(EnvStep(w, es[0]), es[1..], irqs, length, toRam);
    }
  }

  /** No interrupt of the current transfer exists or can arise: they were never enabled. */
  predicate Silent(w: World)
  {
    && !w.device.irqEnable
    && !w.device.owed
    && w.device.irqStatus == {}
    && !InHandler(w.handler)
  }

  lemma {:induction false} SilentRun(w: World, es: seq<Event>)
    requires Silent(w) && BenignRun(w, es)
    ensures Silent(EnvRun(w, es)) && EnvRun(w, es).irqCount == w.irqCount
    decreases |es|
  {
    if es != [] {
      SilentRun(EnvStep(w, es[0]), es[1..]);
    }
  }

  /** The engine is idle and its last interrupt was raised. */
  predicate NothingOwed(w: World)
  {
    !w.device.run && !w.device.owed
  }

  /** An idle engine raises nothing: pending bits only go away. */
  lemma {:induction false} IdleRun(w: World, es: seq<Event>)
    requires NothingOwed(w) && BenignRun(w, es)
    ensures NothingOwed(EnvRun(w, es)) && EnvRun(w, es).device.irqStatus <= w.device.irqStatus
    decreases |es|
  {
    if es != [] {
      IdleRun(EnvStep(w, es[0]), es[1..]);
    }
  }

  // ---- One interrupt ----

  function HandlerSteps(w: World, n: nat): World
    decreases n
  {
    if n == 0 then w else HandlerSteps(HandlerStep(w), n - 1)
  }

  /** The handler, from entry to return: it acknowledges what it read, records it, counts
      one interrupt, and signals each completion whose bit it read. */
  lemma WholeInterrupt(w: World)
    requires w.handler.Idle? && w.device.irqStatus != {}
    ensures
      var (status, v) := (w.device.irqStatus, HandlerSteps(w, 7));
      && v.handler.Idle? && v.device == w.device.(message := false, irqStatus := {})
      && v.lastIrqStatus == status && v.irqCount == w.irqCount + 1 && v.anyIrqDone == w.anyIrqDone + 1
      && v.dmaDone == w.dmaDone + (if DMA_BIT in status then 1 else 0)
      && v.factorialDone == w.factorialDone + (if FACTORIAL_BIT in status then 1 else 0)
      && v.ram == w.ram && v.written == w.written && v.busMaster == w.busMaster
  {
    var w1 := HandlerStep(w);
    var w2 := HandlerStep(w1);
    var w3 := HandlerStep(w2);
    var w4 := HandlerStep(w3);
    var w5 := HandlerStep(w4);
    var w6 := HandlerStep(w5);
    assert HandlerSteps(w, 7) == HandlerSteps(w1, 6) == HandlerSteps(w2, 5) == HandlerSteps(w3, 4);
    assert HandlerSteps(w3, 4) == HandlerSteps(w4, 3) == HandlerSteps(w5, 2) == HandlerSteps(w6, 1);
    assert HandlerSteps(w6, 1) == HandlerSteps(HandlerStep(w6), 0);
    assert w.device.irqStatus - w.device.irqStatus == {};
  }

  /** The handler has read the bit, and will count an interrupt for it. */
  predicate Held(handler: Handler, bit: nat)
  {
    match handler
    case Entered(status) => bit in status
    case Acked(status) => bit in status
    case Recorded(status) => bit in status
    case _ => false
  }

  /** A bit that is pending stays so until a handler that has read it acknowledges it: one
      that arrives between the read and the acknowledgement is not lost. */
  lemma PendingStays(w: World, e: Event, bit: nat)
    requires bit in w.device.irqStatus
    ensures bit in EnvStep(w, e).device.irqStatus || (e.HandlerStatement? && w.handler.Entered? && bit in w.handler.status)
  {
  }

  lemma HeldOrCounted(w: World, e: Event, bit: nat)
    requires bit in w.device.irqStatus || Held(w.handler, bit)
    ensures
      var v := EnvStep(w, e);
      bit in v.device.irqStatus || Held(v.handler, bit) || v.irqCount > w.irqCount
  {
  }

  lemma CountNeverFalls(w: World, e: Event)
    ensures EnvStep(w, e).irqCount >= w.irqCount
  {
  }

  /** No interrupt is lost, however handler, engine and noise interleave: a pending bit stays
      pending, is held by the handler, or has had an interrupt counted since. */
  lemma {:induction false} NoInterruptIsLost(w: World, es: seq<Event>, bit: nat, counted: nat)
    requires bit in w.device.irqStatus || Held(w.handler, bit) || w.irqCount > counted
    requires w.irqCount >= counted
    ensures
      var v := EnvRun(w, es);
      bit in v.device.irqStatus || Held(v.handler, bit) || v.irqCount > counted
    decreases |es|
  {
    hide EnvStep, Held;
    if es != [] {
      CountNeverFalls(w, es[0]);
      if w.irqCount <= counted {
        HeldOrCounted(w, es[0], bit);
      }
      NoInterruptIsLost(EnvStep(w, es[0]), es[1..], bit, counted);
    }
  }

  /** A completion is signalled only after its status was recorded and its interrupt counted. */
  lemma RecordedBeforeSignalled(w: World)
    requires HandlerStep(w).dmaDone != w.dmaDone || HandlerStep(w).factorialDone != w.factorialDone
    ensures w.handler.Counted? || w.handler.FactorialSignalled?
  {
  }

  /** A completion seen by the waiter is the interrupt of a finished transfer. */
  lemma CompletionMeansFinished(w: World, irqs: nat, length: nat, toRam: bool)
    requires Transferring(w, irqs, length, toRam, true) && w.dmaDone > 0
    ensures w.dmaDone == 1 && w.irqCount == irqs + 1 && w.lastIrqStatus == {DMA_BIT}
    ensures NothingInFlight(w) && w.device.irqStatus == {} && w.device.progress == length
  {
  }
}
