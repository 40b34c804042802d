/**
 * The IRQ-window component: a chain of handlers for interrupt-window exits
 * and the switch for the "interrupt-window exiting" control.
 */
module IrqWindow {
  import opened Hardware
  import opened Dispatch
  import Components

  class IrqWindow {
    const cpu: Cpu
    /** The base exit handler the component registers its `Handle` with. */
    const exitHandler: Components.Component
    var handlers: seq<Delegate>

    /** No handlers yet; interrupt-window exits now reach this component's `Handle`. */
    constructor (cpu: Cpu, exitHandler: Components.Component)
      modifies exitHandler
      ensures this.cpu == cpu && this.exitHandler == exitHandler && handlers == []
      ensures exitHandler.calls == old(exitHandler.calls) + [Components.AddKeyedHandler([EXIT_REASON_INTERRUPT_WINDOW], IrqWindowExitHandler)]
    {
      this.cpu := cpu;
      this.exitHandler := exitHandler;
      handlers := [];
      new;
      exitHandler.Record(Components.AddKeyedHandler([EXIT_REASON_INTERRUPT_WINDOW], IrqWindowExitHandler));
    }

    method AddHandler(d: Delegate)
      modifies this`handlers
      ensures handlers == [d] + old(handlers)
    {
      handlers := [d] + handlers;
    }

    /** Sets interrupt-window exiting; no other state changes. */
    method Enable()
      modifies cpu`windowExiting
      ensures cpu.windowExiting
    {
      cpu.windowExiting := true;
    }

    /** Clears interrupt-window exiting; no other state changes. */
    method Disable()
      modifies cpu`windowExiting
      ensures !cpu.windowExiting
    {
      cpu.windowExiting := false;
    }

    /** Claims the exit exactly when some handler, newest first, claims it; an empty chain claims nothing. */
    method Handle(run: (Delegate, ()) -> Step<()>) returns (claimed: bool)
      ensures claimed <==> exists j :: 0 <= j < |handlers| && ClaimsAt(handlers, run, (), j)
      ensures handlers == [] ==> !claimed
    {
      UnclaimedIffNoneClaims(handlers, run, ());
      var unit;
      claimed, unit := RunChain(handlers, run, ());
    }
  }
}
