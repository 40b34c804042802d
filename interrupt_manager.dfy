/**
 * The interrupt manager: the earlier revision of the IRQ manager. It takes
 * external interrupts on vectors 32..255 through the external-interrupt
 * component, signals EOI to the x2APIC, and hands the vector to the
 * interrupt-window component, which injects it or queues it.
 */
module InterruptManager {
  import opened Wrappers
  import opened Hardware
  import opened Dispatch
  import opened Lapic
  import X2Apic
  import ExternalInterrupt
  import Msrs
  import Components
  import opened InterruptWindow

  class InterruptManager {
    const cpu: Cpu
    const msrs: Msrs.Msrs
    const lapic: X2Apic.X2ApicCtl
    const extint: ExternalInterrupt.ExternalInterrupt
    const window: InterruptWindow

    /** The components share the manager's processor and the external-interrupt table has its 256 slots. */
    ghost predicate Valid()
    {
      lapic.cpu == cpu && extint.cpu == cpu && window.cpu == cpu && extint.handlers.Length == 256
    }

    /**
     * What the constructor leaves behind: the manager's handler on every
     * vector 32..255 and none below, external-interrupt exiting with
     * acknowledge-on-exit, an empty interrupt-window queue, and the EOI
     * handler on the x2APIC EOI MSR with its writes trapped.
     */
    ghost predicate Initialised()
      reads this, extint, extint.handlers, window, msrs, cpu
    {
      Valid()
      && (forall w :: 0 <= w < 256 ==> extint.handlers[w] == if 32 <= w then [ExtIrqHandler] else [])
      && cpu.extIntExiting && cpu.ackIntOnExit
      && window.irr == [] && window.handlers == []
      && msrs.WrmsrChain(X2APIC_EOI) != [] && msrs.WrmsrChain(X2APIC_EOI)[0] == EoiHandler
      && MsrAddr(X2APIC_EOI) in msrs.trappedWrites
    }

    /**
     * Construction fails, leaving everything as it was, unless a local APIC
     * is present, x2APIC is supported and the APIC is in x2APIC mode; then
     * the handlers are installed.
     */
    static method Create(cpu: Cpu, exitHandler: Components.Component, msrs: Msrs.Msrs, present: bool,
                         x2apicSupported: bool, state: ApicState, table: RegSet, msrStart: bv32, msrEnd: bv32,
                         debugBuild: bool, logCap: nat)
      returns (r: Result<InterruptManager, InitError>)
      modifies cpu`extIntExiting, cpu`ackIntOnExit, msrs, exitHandler
      ensures r.Success? <==> SelectX2Apic(present, x2apicSupported, state).Success?
      ensures r.Failure? ==> r.error == SelectX2Apic(present, x2apicSupported, state).error
      ensures r.Failure? ==> unchanged(cpu) && unchanged(msrs) && unchanged(exitHandler)
      ensures r.Success? ==>
        exitHandler.calls == old(exitHandler.calls)
          + [Components.AddKeyedHandler([EXIT_REASON_EXTERNAL_INTERRUPT], ExternalInterruptExitHandler),
             Components.AddKeyedHandler([EXIT_REASON_INTERRUPT_WINDOW], InterruptWindowExitHandler)]
      ensures r.Success? ==> fresh(r.value) && r.value.cpu == cpu && r.value.msrs == msrs && r.value.Initialised()
    {
      var selected := SelectX2Apic(present, x2apicSupported, state);
      if selected.Failure? {
        return Failure(selected.error);
      }
      var m := new InterruptManager(cpu, exitHandler, msrs, table, msrStart, msrEnd, debugBuild, logCap);
      return Success(m);
    }

    /**
     * The external-interrupt and interrupt-window components, made in that
     * order, register their own exit handlers with the base exit handler.
     */
    constructor (cpu: Cpu, exitHandler: Components.Component, msrs: Msrs.Msrs, table: RegSet, msrStart: bv32,
                 msrEnd: bv32, debugBuild: bool, logCap: nat)
      modifies cpu`extIntExiting, cpu`ackIntOnExit, msrs, exitHandler
      ensures this.cpu == cpu && this.msrs == msrs && Initialised()
      ensures extint.exitHandler == exitHandler && window.exitHandler == exitHandler
      ensures exitHandler.calls == old(exitHandler.calls)
        + [Components.AddKeyedHandler([EXIT_REASON_EXTERNAL_INTERRUPT], ExternalInterruptExitHandler),
           Components.AddKeyedHandler([EXIT_REASON_INTERRUPT_WINDOW], InterruptWindowExitHandler)]
      ensures fresh(extint) && fresh(extint.handlers) && fresh(window)
      ensures msrs.WrmsrChain(X2APIC_EOI) == [EoiHandler] + old(msrs.WrmsrChain(X2APIC_EOI))
    {
      this.cpu := cpu;
      this.msrs := msrs;
      lapic := new X2Apic.X2ApicCtl(cpu, table, msrStart, msrEnd);
      extint := new ExternalInterrupt.ExternalInterrupt(cpu, exitHandler, debugBuild, logCap);
      window := new InterruptWindow(cpu, exitHandler);
      new;
      InstallExternalInterruptHandlers();
      extint.EnableTrapping();
      msrs.AddWrmsrHandler(X2APIC_EOI, EoiHandler);
      msrs.TrapOnWrmsrAccess(X2APIC_EOI);
    }

    /** Registers the manager's handler for every vector from 32 up to 255, in increasing order. */
    method InstallExternalInterruptHandlers()
      requires Valid() && forall w :: 0 <= w < 256 ==> extint.handlers[w] == []
      modifies extint.handlers
      ensures forall w :: 0 <= w < 256 ==> extint.handlers[w] == if 32 <= w then [ExtIrqHandler] else []
    {
      var v: bv64 := 32;
      while v < 256
        invariant 32 <= v <= 256
        invariant forall w :: 0 <= w < 256 ==> extint.handlers[w] == if 32 <= w < v as int then [ExtIrqHandler] else []
        decreases 256 - v
      {
        extint.AddHandler(v, ExtIrqHandler);
        v := v + 1;
      }
    }

    /** A vector arrives: EOI is signalled first, then the interrupt-window component injects or queues it. */
    method HandleInterrupt(vector: bv64)
      requires Valid()
      modifies window`irr, cpu`windowExiting, cpu`entryInfo, cpu`trace, cpu`msrs
      ensures (Queue(window.irr, cpu.windowExiting), cpu.trace) ==
        var (q, injected) := Deliver(Queue(old(window.irr), old(cpu.windowExiting)), IsOpen(old(cpu.guest)), vector);
        (q, old(cpu.trace) + [MsrWrite(X2APIC_EOI, 0)] + Injections(injected))
      ensures cpu.msrs == old(cpu.msrs)[MsrAddr(X2APIC_EOI) := 0]
    {
      lapic.WriteEoi();
      window.QueueInterrupt(vector);
    }

    /** The manager's external-interrupt handler: hands the vector to HandleInterrupt and claims the exit. */
    method HandleExternalInterrupt(info: ExternalInterrupt.Info) returns (claimed: bool)
      requires Valid()
      modifies window`irr, cpu`windowExiting, cpu`entryInfo, cpu`trace, cpu`msrs
      ensures (Queue(window.irr, cpu.windowExiting), cpu.trace) ==
        var (q, injected) := Deliver(Queue(old(window.irr), old(cpu.windowExiting)), IsOpen(old(cpu.guest)), info.vector);
        (q, old(cpu.trace) + [MsrWrite(X2APIC_EOI, 0)] + Injections(injected))
      ensures claimed
    {
      HandleInterrupt(info.vector);
      claimed := true;
    }
  }
}
