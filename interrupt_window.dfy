/**
 * The interrupt-window component: a FIFO of pending external-interrupt
 * vectors (`m_irr`) beside the "interrupt-window exiting" control. A vector is
 * injected at once when the guest can take an interrupt; otherwise it waits
 * and the processor is asked to exit as soon as the guest's interrupt window
 * opens, at which point the oldest waiting vector is injected.
 */
module InterruptWindow {
  import opened Bits
  import opened Hardware
  import opened Dispatch
  import Components

  /**
   * Whether the guest can take an external interrupt now (Intel SDM Vol. 3C,
   * section 24.4.2): RFLAGS.IF set, activity state active or HLT, and no
   * blocking by STI or by MOV SS. Written in the order the checks are made.
   */
  predicate IsOpen(g: GuestState)
    ensures g.rflags & RFLAGS_IF == 0 ==> !IsOpen(g)
    ensures g.activity == SHUTDOWN || g.activity == WAIT_FOR_SIPI ==> !IsOpen(g)
    ensures g.activity != ACTIVE && g.activity != HLT ==> !IsOpen(g)
    ensures g.interruptibility & BLOCKING_BY_STI != 0 ==> !IsOpen(g)
    ensures g.interruptibility & BLOCKING_BY_MOV_SS != 0 ==> !IsOpen(g)
  {
    if g.rflags & RFLAGS_IF == 0 then false
    else if g.activity != ACTIVE && g.activity != HLT then false
    else if g.interruptibility & BLOCKING_BY_STI != 0 then false
    else if g.interruptibility & BLOCKING_BY_MOV_SS != 0 then false
    else true
  }

  /** The window is open exactly when all four conditions hold, whatever the order of the checks. */
  lemma IsOpenExactly(g: GuestState)
    ensures IsOpen(g) <==>
      g.rflags & RFLAGS_IF != 0
      && (g.activity == ACTIVE || g.activity == HLT)
      && g.interruptibility & BLOCKING_BY_STI == 0
      && g.interruptibility & BLOCKING_BY_MOV_SS == 0
  {
  }

  // Fields of the VM-entry interruption-information field, Intel SDM Vol. 3C, section 24.8.3.

  /** Interruption type 0: external interrupt. */
  const EXTERNAL_INTERRUPT: bv64 := 0

  function InfoVector(info: bv32): bv32 { info & 0xFF }

  function InfoType(info: bv32): bv32 { (info >> 8) & 0x7 }

  predicate InfoValid(info: bv32) { info & 0x8000_0000 != 0 }

  /**
   * The value `inject_interrupt` writes: starting from 0, the vector field,
   * then the type field set to external interrupt, then the valid bit; the
   * 64-bit intermediate is kept in a 32-bit variable.
   */
  function EntryInfo(vector: bv64): (info: bv32)
    ensures InfoVector(info) as bv64 == vector & 0xFF
    ensures InfoType(info) as bv64 == EXTERNAL_INTERRUPT
    ensures InfoValid(info)
    ensures info & 0x7FFF_F800 == 0
  {
    var withVector := SetBits(0, 0xFF, vector);
    var withType := SetBits(withVector, 0x700, EXTERNAL_INTERRUPT << 8);
    Low32(withType | 0x8000_0000)
  }

  /** Distinct 8-bit vectors give distinct injections, so the vector can be read back. */
  lemma EntryInfoInjective(v: bv64, w: bv64)
    requires v < 256 && w < 256 && EntryInfo(v) == EntryInfo(w)
    ensures v == w
  {
    assert InfoVector(EntryInfo(v)) == InfoVector(EntryInfo(w));
  }

  /** The events injecting each vector of `vs`, in order. */
  function Injections(vs: seq<bv64>): (es: seq<Event>)
    ensures |es| == |vs|
    ensures forall i :: 0 <= i < |vs| ==> es[i] == Injected(EntryInfo(vs[i]))
  {
    if vs == [] then [] else [Injected(EntryInfo(vs[0]))] + Injections(vs[1..])
  }

  // The pending queue as a state machine; both revisions (this component and
  // the IRQ manager) implement it.

  datatype Queue = Queue(pending: seq<bv64>, trapping: bool)

  /** An interrupt arrives: injected if the window is open, otherwise queued with trapping armed. */
  function Deliver(q: Queue, open: bool, v: bv64): (Queue, seq<bv64>)
  {
    if open then (q, [v]) else (Queue(q.pending + [v], true), [])
  }

  /** The window opened: the oldest vector is injected, trapping stays armed only while more wait. */
  function WindowExit(q: Queue): (Queue, seq<bv64>)
    requires q.pending != []
  {
    (Queue(q.pending[1..], q.pending[1..] != []), [q.pending[0]])
  }

  /** Trapping is armed exactly while vectors wait. */
  predicate Armed(q: Queue)
  {
    q.trapping <==> q.pending != []
  }

  lemma DeliverKeepsArmed(q: Queue, open: bool, v: bv64)
    requires Armed(q)
    ensures Armed(Deliver(q, open, v).0)
  {
  }

  lemma WindowExitKeepsArmed(q: Queue)
    requires q.pending != []
    ensures Armed(WindowExit(q).0)
  {
  }

  /** Delivers `vs` one by one while the window stays closed. */
  function DeliverAllClosed(q: Queue, vs: seq<bv64>): (Queue, seq<bv64>)
    decreases |vs|
  {
    if vs == [] then (q, [])
    else
      var (q1, inj1) := Deliver(q, false, vs[0]);
      var (q2, inj2) := DeliverAllClosed(q1, vs[1..]);
      (q2, inj1 + inj2)
  }

  /** Takes `n` window exits in a row. */
  function Drain(q: Queue, n: nat): (Queue, seq<bv64>)
    requires n <= |q.pending|
    decreases n
  {
    if n == 0 then (q, [])
    else
      var (q1, inj1) := WindowExit(q);
      var (q2, inj2) := Drain(q1, n - 1);
      (q2, inj1 + inj2)
  }

  lemma {:induction false} DeliverAllClosedAppends(q: Queue, vs: seq<bv64>)
    ensures DeliverAllClosed(q, vs).0.pending == q.pending + vs
    ensures DeliverAllClosed(q, vs).1 == []
    ensures vs != [] ==> DeliverAllClosed(q, vs).0.trapping
    ensures vs == [] ==> DeliverAllClosed(q, vs).0 == q
    decreases |vs|
  {
    if vs != [] {
      DeliverAllClosedAppends(Queue(q.pending + [vs[0]], true), vs[1..]);
      assert q.pending + [vs[0]] + vs[1..] == q.pending + vs;
    }
  }

  lemma {:induction false} DrainInOrder(q: Queue, n: nat)
    requires n <= |q.pending|
    ensures Drain(q, n).1 == q.pending[..n]
    ensures Drain(q, n).0.pending == q.pending[n..]
    ensures n > 0 ==> Drain(q, n).0.trapping == (n < |q.pending|)
    decreases n
  {
    if n > 0 {
      DrainInOrder(WindowExit(q).0, n - 1);
      assert q.pending[..n] == [q.pending[0]] + q.pending[1..][..n - 1];
      assert q.pending[1..][n - 1..] == q.pending[n..];
    }
  }

  /**
   * FIFO: vectors that arrive while the window is closed are injected, one per
   * window exit, in arrival order, after which the queue is empty and trapping
   * is off again.
   */
  lemma Fifo(vs: seq<bv64>)
    requires vs != []
    ensures var q := DeliverAllClosed(Queue([], false), vs).0;
      |q.pending| == |vs| && Drain(q, |vs|) == (Queue([], false), vs)
  {
    DeliverAllClosedAppends(Queue([], false), vs);
    var q := DeliverAllClosed(Queue([], false), vs).0;
    DrainInOrder(q, |vs|);
    assert q.pending[..|vs|] == vs;
  }

  /** Vectors 5, 7 and 11 queued behind a closed window come out as 5, 7, 11. */
  lemma FifoExample()
    ensures var q := DeliverAllClosed(Queue([], false), [5, 7, 11]).0;
      q == Queue([5, 7, 11], true) && Drain(q, 3).1 == [5, 7, 11] && Drain(q, 3).0 == Queue([], false)
  {
    Fifo([5, 7, 11]);
    DeliverAllClosedAppends(Queue([], false), [5, 7, 11]);
  }

  class InterruptWindow {
    const cpu: Cpu
    /** The base exit handler the component registers its `Handle` with. */
    const exitHandler: Components.Component
    /** The delegates run on each interrupt-window exit, newest first. */
    var handlers: seq<Delegate>
    /** Vectors waiting for the window to open, oldest first. */
    var irr: seq<bv64>

    /** No handlers and nothing pending; interrupt-window exits now reach this component's `Handle`. */
    constructor (cpu: Cpu, exitHandler: Components.Component)
      modifies exitHandler
      ensures this.cpu == cpu && this.exitHandler == exitHandler && handlers == [] && irr == []
      ensures exitHandler.calls == old(exitHandler.calls) + [Components.AddKeyedHandler([EXIT_REASON_INTERRUPT_WINDOW], InterruptWindowExitHandler)]
    {
      this.cpu := cpu;
      this.exitHandler := exitHandler;
      handlers := [];
      irr := [];
      new;
      exitHandler.Record(Components.AddKeyedHandler([EXIT_REASON_INTERRUPT_WINDOW], InterruptWindowExitHandler));
    }

    method AddHandler(d: Delegate)
      modifies this`handlers
      ensures handlers == [d] + old(handlers)
    {
      handlers := [d] + handlers;
    }

    method EnableTrapping()
      modifies cpu`windowExiting
      ensures cpu.windowExiting
    {
      cpu.windowExiting := true;
    }

    method DisableTrapping()
      modifies cpu`windowExiting
      ensures !cpu.windowExiting
    {
      cpu.windowExiting := false;
    }

    method InjectInterrupt(vector: bv64)
      modifies cpu`entryInfo, cpu`trace
      ensures cpu.entryInfo == EntryInfo(vector)
      ensures cpu.trace == old(cpu.trace) + Injections([vector])
    {
      cpu.SetEntryInfo(EntryInfo(vector));
    }

    method QueueInterrupt(vector: bv64)
      modifies this`irr, cpu`windowExiting, cpu`entryInfo, cpu`trace
      ensures (Queue(irr, cpu.windowExiting), cpu.trace) ==
        var (q, injected) := Deliver(Queue(old(irr), old(cpu.windowExiting)), IsOpen(old(cpu.guest)), vector);
        (q, old(cpu.trace) + Injections(injected))
      ensures !IsOpen(old(cpu.guest)) ==> cpu.entryInfo == old(cpu.entryInfo)
    {
      if IsOpen(cpu.guest) {
        InjectInterrupt(vector);
        return;
      }
      EnableTrapping();
      irr := irr + [vector];
      assert cpu.trace == old(cpu.trace) + Injections([]);
    }

    /**
     * An interrupt-window exit: inject the oldest vector, re-arm trapping only
     * if more wait, then offer the exit to the handlers. The exit counts as
     * handled whatever they answer.
     */
    method Handle(run: (Delegate, ()) -> Step<()>) returns (handled: bool)
      requires irr != []
      modifies this`irr, cpu`windowExiting, cpu`entryInfo, cpu`trace
      ensures (Queue(irr, cpu.windowExiting), cpu.trace) ==
        var (q, injected) := WindowExit(Queue(old(irr), old(cpu.windowExiting)));
        (q, old(cpu.trace) + Injections(injected))
      ensures cpu.entryInfo == EntryInfo(old(irr)[0])
      ensures handled
    {
      var vector := irr[0];
      InjectInterrupt(vector);
      irr := irr[1..];
      if irr != [] {
        EnableTrapping();
        var _, _ := RunChain(handlers, run, ());
        return true;
      }
      DisableTrapping();
      var _, _ := RunChain(handlers, run, ());
      return true;
    }
  }
}
