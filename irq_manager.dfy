/**
 * The IRQ manager: takes every external interrupt on vectors 32..255 from
 * the guest, signals EOI to the x2APIC at once, and re-delivers the vector to
 * the guest by event injection -- immediately when the guest can take an
 * interrupt, otherwise from a FIFO of pending vectors drained one per
 * interrupt-window exit.
 */
module IrqManager {
  import opened Wrappers
  import opened Hardware
  import opened Dispatch
  import opened Lapic
  import X2Apic
  import IrqWindow
  import Irq
  import Msrs
  import Components
  import opened InterruptWindow

  /** The chains the manager leaves on the IRQ component: its own handler on 32..255, nothing below 32. */
  ghost predicate ExtIrqInstalled(handlers: map<Irq.Vector, seq<Delegate>>, from: bv64, to: bv64)
  {
    forall w: bv64 :: Irq.ChainOf(handlers, w) == if from <= w < to then [ExtIrqHandler] else []
  }

  /** Registering the manager's handler on the next vector extends the installed range by one. */
  lemma InstallNext(handlers: map<Irq.Vector, seq<Delegate>>, from: bv64, to: bv64)
    requires from <= to < 256 && ExtIrqInstalled(handlers, from, to)
    ensures ExtIrqInstalled(handlers[Irq.Vector(to) := [ExtIrqHandler] + Irq.ChainOf(handlers, to)], from, to + 1)
  {
    var h := handlers[Irq.Vector(to) := [ExtIrqHandler] + Irq.ChainOf(handlers, to)];
    forall w: bv64
      ensures Irq.ChainOf(h, w) == if from <= w < to + 1 then [ExtIrqHandler] else []
    {
      assert Irq.ChainOf(handlers, w) == if from <= w < to then [ExtIrqHandler] else [];
      if w != to {
        assert Irq.Vector(w) != Irq.Vector(to);
        assert Irq.ChainOf(h, w) == Irq.ChainOf(handlers, w);
      }
    }
  }

  /**
   * After initialisation, an external interrupt on a vector the manager
   * serves is claimed by the manager's handler (which always claims), and
   * one on a vector below 32 finds no handler and is not claimed.
   */
  lemma InstalledVectorsClaimed(handlers: map<Irq.Vector, seq<Delegate>>, run: (Delegate, Irq.Info) -> Step<Irq.Info>, info: Irq.Info)
    requires ExtIrqInstalled(handlers, 32, 256)
    // The manager's handler claims: this is HandleExtIrq's `ensures claimed`.
    requires run(ExtIrqHandler, info).claimed
    ensures 32 <= info.vec < 256 ==> Walk(Irq.ChainOf(handlers, info.vec), run, info) == Outcome(Some(0), run(ExtIrqHandler, info).info)
    ensures !(32 <= info.vec < 256) ==> Walk(Irq.ChainOf(handlers, info.vec), run, info) == Outcome(None, info)
  {
    assert Irq.ChainOf(handlers, info.vec) == if 32 <= info.vec < 256 then [ExtIrqHandler] else [];
  }

  class IrqManager {
    const cpu: Cpu
    const msrs: Msrs.Msrs
    const lapic: X2Apic.X2ApicCtl
    const irqwin: IrqWindow.IrqWindow
    const extirq: Irq.Irq
    /** `m_virr`: vectors taken from the guest but not yet injected, oldest first. */
    var virr: seq<bv64>

    /** The components share the manager's processor. */
    predicate Valid()
    {
      lapic.cpu == cpu && irqwin.cpu == cpu && extirq.cpu == cpu
    }

    /**
     * The pending queue and the interrupt-window control agree: window
     * exiting is armed exactly while vectors wait. A new manager has it as
     * long as window exiting starts off, and both handlers keep it.
     */
    ghost predicate QueueArmed()
      reads this, cpu
    {
      Armed(Queue(virr, cpu.windowExiting))
    }

    /**
     * What the constructor leaves behind: the manager's handler on every
     * vector 32..255 and on the interrupt window, the EOI handler on the
     * x2APIC EOI MSR with its writes trapped, external-interrupt exiting with
     * acknowledge-on-exit, and an empty pending queue.
     */
    ghost predicate Initialised()
      reads this, extirq, irqwin, msrs, cpu
    {
      Valid()
      && ExtIrqInstalled(extirq.handlers, 32, 256)
      && irqwin.handlers == [IrqWindowHandler]
      && msrs.WrmsrChain(X2APIC_EOI) != [] && msrs.WrmsrChain(X2APIC_EOI)[0] == EoiHandler
      && MsrAddr(X2APIC_EOI) in msrs.trappedWrites
      && cpu.extIntExiting && cpu.ackIntOnExit
      && virr == []
    }

    /**
     * Construction fails, leaving everything as it was, unless a local APIC
     * is present, x2APIC is supported and the APIC is in x2APIC mode; then
     * the handlers are installed.
     */
    static method Create(cpu: Cpu, exitHandler: Components.Component, msrs: Msrs.Msrs, present: bool,
                         x2apicSupported: bool, state: ApicState, table: RegSet, msrStart: bv32, msrEnd: bv32)
      returns (r: Result<IrqManager, InitError>)
      modifies cpu`extIntExiting, cpu`ackIntOnExit, msrs, exitHandler
      ensures r.Success? <==> SelectX2Apic(present, x2apicSupported, state).Success?
      ensures r.Failure? ==> r.error == SelectX2Apic(present, x2apicSupported, state).error
      ensures r.Failure? ==> unchanged(cpu) && unchanged(msrs) && unchanged(exitHandler)
      ensures r.Success? ==>
        exitHandler.calls == old(exitHandler.calls)
          + [Components.AddKeyedHandler([EXIT_REASON_INTERRUPT_WINDOW], IrqWindowExitHandler),
             Components.AddKeyedHandler([EXIT_REASON_EXTERNAL_INTERRUPT], IrqExitHandler)]
      ensures r.Success? ==> fresh(r.value) && r.value.cpu == cpu && r.value.msrs == msrs && r.value.Initialised()
      ensures r.Success? ==> msrs.WrmsrChain(X2APIC_EOI) == [EoiHandler] + old(msrs.WrmsrChain(X2APIC_EOI))
    {
      var selected := SelectX2Apic(present, x2apicSupported, state);
      if selected.Failure? {
        return Failure(selected.error);
      }
      var m := new IrqManager(cpu, exitHandler, msrs, table, msrStart, msrEnd);
      return Success(m);
    }

    /**
     * The window and IRQ components, made in that order, register their own
     * exit handlers with the base exit handler before the manager installs
     * its handlers on them.
     */
    constructor (cpu: Cpu, exitHandler: Components.Component, msrs: Msrs.Msrs, table: RegSet, msrStart: bv32, msrEnd: bv32)
      modifies cpu`extIntExiting, cpu`ackIntOnExit, msrs, exitHandler
      ensures this.cpu == cpu && this.msrs == msrs && Initialised()
      ensures irqwin.exitHandler == exitHandler && extirq.exitHandler == exitHandler
      ensures exitHandler.calls == old(exitHandler.calls)
        + [Components.AddKeyedHandler([EXIT_REASON_INTERRUPT_WINDOW], IrqWindowExitHandler),
           Components.AddKeyedHandler([EXIT_REASON_EXTERNAL_INTERRUPT], IrqExitHandler)]
      ensures QueueArmed() <==> !cpu.windowExiting
      ensures msrs.WrmsrChain(X2APIC_EOI) == [EoiHandler] + old(msrs.WrmsrChain(X2APIC_EOI))
    {
      this.cpu := cpu;
      this.msrs := msrs;
      lapic := new X2Apic.X2ApicCtl(cpu, table, msrStart, msrEnd);
      irqwin := new IrqWindow.IrqWindow(cpu, exitHandler);
      extirq := new Irq.Irq(cpu, exitHandler);
      virr := [];
      new;
      InstallExtIrqHandlers();
      irqwin.AddHandler(IrqWindowHandler);
      msrs.AddWrmsrHandler(X2APIC_EOI, EoiHandler);
      msrs.TrapOnWrmsrAccess(X2APIC_EOI);
      extirq.Trap();
    }

    /** Registers the manager's handler for every vector from 32 up to 255, in increasing order. */
    method InstallExtIrqHandlers()
      requires extirq.handlers == map[]
      modifies extirq`handlers
      ensures ExtIrqInstalled(extirq.handlers, 32, 256)
    {
      var v: bv64 := 32;
      while v < 256
        invariant 32 <= v <= 256
        invariant ExtIrqInstalled(extirq.handlers, 32, v)
        decreases 256 - v
      {
        InstallNext(extirq.handlers, 32, v);
        extirq.AddHandler(v, ExtIrqHandler);
        v := v + 1;
      }
    }

    method InjectIrq(v: bv64)
      modifies cpu`entryInfo, cpu`trace
      ensures cpu.entryInfo == EntryInfo(v)
      ensures cpu.trace == old(cpu.trace) + Injections([v])
    {
      cpu.SetEntryInfo(EntryInfo(v));
    }

    /**
     * A vector arrives: EOI is signalled first; then the vector is injected
     * if the guest can take it, and otherwise queued behind the others with
     * interrupt-window exiting armed.
     */
    method HandleIrq(v: bv64)
      requires Valid()
      modifies this`virr, cpu`windowExiting, cpu`entryInfo, cpu`trace, cpu`msrs
      ensures (Queue(virr, cpu.windowExiting), cpu.trace) ==
        var (q, injected) := Deliver(Queue(old(virr), old(cpu.windowExiting)), IsOpen(old(cpu.guest)), v);
        (q, old(cpu.trace) + [MsrWrite(X2APIC_EOI, 0)] + Injections(injected))
      ensures cpu.msrs == old(cpu.msrs)[MsrAddr(X2APIC_EOI) := 0]
      ensures cpu.entryInfo == if IsOpen(old(cpu.guest)) then EntryInfo(v) else old(cpu.entryInfo)
      ensures old(QueueArmed()) ==> QueueArmed()
    {
      if QueueArmed() {
        DeliverKeepsArmed(Queue(virr, cpu.windowExiting), IsOpen(cpu.guest), v);
      }
      lapic.WriteEoi();
      if !IsOpen(cpu.guest) {
        irqwin.Enable();
        virr := virr + [v];
        assert cpu.trace == old(cpu.trace) + [MsrWrite(X2APIC_EOI, 0)] + Injections([]);
        return;
      }
      InjectIrq(v);
    }

    /** The manager's external-interrupt handler: hands the vector to HandleIrq and claims the exit. */
    method HandleExtIrq(info: Irq.Info) returns (claimed: bool)
      requires Valid()
      modifies this`virr, cpu`windowExiting, cpu`entryInfo, cpu`trace, cpu`msrs
      ensures (Queue(virr, cpu.windowExiting), cpu.trace) ==
        var (q, injected) := Deliver(Queue(old(virr), old(cpu.windowExiting)), IsOpen(old(cpu.guest)), info.vec);
        (q, old(cpu.trace) + [MsrWrite(X2APIC_EOI, 0)] + Injections(injected))
      ensures cpu.msrs == old(cpu.msrs)[MsrAddr(X2APIC_EOI) := 0]
      ensures old(QueueArmed()) ==> QueueArmed()
      ensures claimed
    {
      HandleIrq(info.vec);
      claimed := true;
    }

    /**
     * The manager's interrupt-window handler: the oldest pending vector is
     * injected, and window exiting stays armed only while more wait. The
     * precondition that a vector is pending is what `QueueArmed` provides:
     * the exit only happens with window exiting armed, and the handlers keep
     * the queue non-empty whenever it is.
     */
    method HandleIrqWin() returns (claimed: bool)
      requires Valid() && virr != []
      modifies this`virr, cpu`windowExiting, cpu`entryInfo, cpu`trace
      ensures (Queue(virr, cpu.windowExiting), cpu.trace) ==
        var (q, injected) := WindowExit(Queue(old(virr), old(cpu.windowExiting)));
        (q, old(cpu.trace) + Injections(injected))
      ensures cpu.entryInfo == EntryInfo(old(virr)[0])
      ensures QueueArmed()
      ensures claimed
    {
      WindowExitKeepsArmed(Queue(virr, cpu.windowExiting));
      var v := virr[0];
      InjectIrq(v);
      virr := virr[1..];
      if virr != [] {
        irqwin.Enable();
      } else {
        irqwin.Disable();
      }
      claimed := true;
    }
  }
}
