/**
 * The IRQ component: external-interrupt exits dispatched to a chain of
 * handlers per vector, kept in a map from vector to chain.
 */
module Irq {
  import opened Wrappers
  import opened Hardware
  import opened Dispatch
  import Components

  /** A vector as a map key (a bit-vector wrapped in a datatype, which maps handle well). */
  datatype Vector = Vector(value: bv64)

  /** What an IRQ handler receives: the vector of the exit. */
  datatype Info = Info(vec: bv64)

  /** The chain registered for `vector`; a vector never seen has an empty chain. */
  function ChainOf(handlers: map<Vector, seq<Delegate>>, vector: bv64): seq<Delegate>
  {
    if Vector(vector) in handlers then handlers[Vector(vector)] else []
  }

  /** The info record of the current exit, read from the exit interruption-information field. */
  function ParseInfo(exitInfo: bv32): (info: Info)
    ensures info.vec < 256
    ensures info.vec as bv32 == exitInfo & 0xFF
  {
    Info(ExitVector(exitInfo))
  }

  class Irq {
    const cpu: Cpu
    /** The base exit handler the component registers its `Handle` with. */
    const exitHandler: Components.Component
    var handlers: map<Vector, seq<Delegate>>

    /** No chains yet; external-interrupt exits now reach this component's `Handle`. */
    constructor (cpu: Cpu, exitHandler: Components.Component)
      modifies exitHandler
      ensures this.cpu == cpu && this.exitHandler == exitHandler && handlers == map[]
      ensures exitHandler.calls == old(exitHandler.calls) + [Components.AddKeyedHandler([EXIT_REASON_EXTERNAL_INTERRUPT], IrqExitHandler)]
    {
      this.cpu := cpu;
      this.exitHandler := exitHandler;
      handlers := map[];
      new;
      exitHandler.Record(Components.AddKeyedHandler([EXIT_REASON_EXTERNAL_INTERRUPT], IrqExitHandler));
    }

    /** The new handler runs before every handler already registered for `vector`; other vectors are untouched. */
    method AddHandler(vector: bv64, d: Delegate)
      modifies this`handlers
      ensures handlers == old(handlers)[Vector(vector) := [d] + ChainOf(old(handlers), vector)]
    {
      handlers := handlers[Vector(vector) := [d] + ChainOf(handlers, vector)];
    }

    method Trap()
      modifies cpu`ackIntOnExit, cpu`extIntExiting
      ensures cpu.ackIntOnExit && cpu.extIntExiting
    {
      cpu.ackIntOnExit := true;
      cpu.extIntExiting := true;
    }

    method PassThrough()
      modifies cpu`ackIntOnExit, cpu`extIntExiting
      ensures !cpu.ackIntOnExit && !cpu.extIntExiting
    {
      cpu.ackIntOnExit := false;
      cpu.extIntExiting := false;
    }

    /**
     * An external-interrupt exit: the chain of the exit's vector is walked
     * newest first and the exit is claimed by the first handler that claims
     * it. Looking the vector up inserts an empty chain when none exists.
     */
    method Handle(run: (Delegate, Info) -> Step<Info>) returns (claimed: bool)
      modifies this`handlers
      ensures var info := ParseInfo(cpu.exitInfo);
        claimed == Walk(ChainOf(old(handlers), info.vec), run, info).claimer.Some?
      ensures handlers == old(handlers)[Vector(ParseInfo(cpu.exitInfo).vec) := ChainOf(old(handlers), ParseInfo(cpu.exitInfo).vec)]
    {
      var info := ParseInfo(cpu.exitInfo);
      var chain := ChainOf(handlers, info.vec);
      handlers := handlers[Vector(info.vec) := chain];
      claimed, info := RunChain(chain, run, info);
    }
  }

  /** An exit whose vector has no handler, or whose handlers all decline, is not claimed. */
  lemma UnclaimedWithoutClaimer(handlers: map<Vector, seq<Delegate>>, run: (Delegate, Info) -> Step<Info>, info: Info)
    requires forall j :: 0 <= j < |ChainOf(handlers, info.vec)| ==> !ClaimsAt(ChainOf(handlers, info.vec), run, info, j)
    ensures Walk(ChainOf(handlers, info.vec), run, info).claimer.None?
    ensures Vector(info.vec) !in handlers ==> Walk(ChainOf(handlers, info.vec), run, info) == Outcome(None, info)
  {
    UnclaimedIffNoneClaims(ChainOf(handlers, info.vec), run, info);
  }
}
