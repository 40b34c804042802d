/**
 * The external-interrupt component: one handler chain per vector in a
 * 256-slot array, and a debug log of the vectors seen.
 */
module ExternalInterrupt {
  import opened Hardware
  import opened Dispatch
  import Log
  import Components

  /** What an external-interrupt handler receives: the vector of the exit. */
  datatype Info = Info(vector: bv64)

  /** The info record of the current exit, read from the exit interruption-information field. */
  function ParseInfo(exitInfo: bv32): (info: Info)
    ensures info.vector < 256
    ensures info.vector as bv32 == exitInfo & 0xFF
  {
    Info(ExitVector(exitInfo))
  }

  class ExternalInterrupt {
    const cpu: Cpu
    /** The base exit handler the component registers its `Handle` with. */
    const exitHandler: Components.Component
    /** `m_handlers`: a chain per vector. */
    const handlers: array<seq<Delegate>>
    /** Whether this is a debug build (`!ndebug`). */
    const debugBuild: bool
    /** The cap of the debug log, set in code this model does not include. */
    const logCap: nat
    var logging: bool
    /** The vectors of the exits seen while logging, earliest first. */
    var log: seq<bv64>

    ghost predicate Valid()
      reads this
    {
      handlers.Length == 256
    }

    /** Empty chains and log, logging off; external-interrupt exits now reach this component's `Handle`. */
    constructor (cpu: Cpu, exitHandler: Components.Component, debugBuild: bool, logCap: nat)
      modifies exitHandler
      ensures Valid() && fresh(handlers)
      ensures this.cpu == cpu && this.exitHandler == exitHandler && this.debugBuild == debugBuild && this.logCap == logCap
      ensures exitHandler.calls == old(exitHandler.calls) + [Components.AddKeyedHandler([EXIT_REASON_EXTERNAL_INTERRUPT], ExternalInterruptExitHandler)]
      ensures forall v :: 0 <= v < 256 ==> handlers[v] == []
      ensures !logging && log == []
    {
      this.cpu := cpu;
      this.exitHandler := exitHandler;
      this.debugBuild := debugBuild;
      this.logCap := logCap;
      handlers := new seq<Delegate>[256](_ => []);
      logging := false;
      log := [];
      new;
      exitHandler.Record(Components.AddKeyedHandler([EXIT_REASON_EXTERNAL_INTERRUPT], ExternalInterruptExitHandler));
    }

    /** Prepends `d` to the chain of `vector`, which must index one of the 256 slots. */
    method AddHandler(vector: bv64, d: Delegate)
      requires Valid() && vector < 256
      modifies handlers
      ensures handlers[..] == old(handlers[..])[vector as int := [d] + old(handlers[vector as int])]
    {
      handlers[vector as int] := [d] + handlers[vector as int];
    }

    method EnableTrapping()
      modifies cpu`ackIntOnExit, cpu`extIntExiting
      ensures cpu.ackIntOnExit && cpu.extIntExiting
    {
      cpu.ackIntOnExit := true;
      cpu.extIntExiting := true;
    }

    /**
     * An external-interrupt exit: in a debug build with logging on, the vector
     * is recorded; then the vector's chain is walked newest first and the
     * first claim wins.
     */
    method Handle(run: (Delegate, Info) -> Step<Info>) returns (claimed: bool)
      requires Valid()
      modifies this`log
      ensures var info := ParseInfo(cpu.exitInfo);
        claimed == Walk(handlers[info.vector as int], run, info).claimer.Some?
      ensures log == if debugBuild && logging
        then Log.AddRecord(old(log), ParseInfo(cpu.exitInfo).vector, logCap) else old(log)
    {
      var info := ParseInfo(cpu.exitInfo);
      if debugBuild && logging {
        log := Log.AddRecord(log, info.vector, logCap);
      }
      claimed, info := RunChain(handlers[info.vector as int], run, info);
    }
  }
}
