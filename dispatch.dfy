/**
 * Handler chains shared by the CPUID, IRQ, external-interrupt and
 * interrupt-window components. A chain is a list whose front is the most
 * recently added handler (`add_handler` does `push_front`); dispatch offers
 * the exit to each handler in turn, handing it the info record as left by the
 * handlers before it, and stops at the first one that claims the exit.
 *
 * Handlers are delegates into code outside this model, so a handler is known
 * only by identity and its behaviour is a parameter `run`: given the handler
 * and the info record it receives, whether it claims the exit and the info
 * record as it leaves it.
 */
module Dispatch {
  import opened Wrappers

  /**
   * The handlers the components, the interrupt managers and the INIT/SIPI
   * handlers register themselves, and handlers added by users.
   */
  datatype Delegate =
    | IrqExitHandler              // irq::handle
    | IrqWindowExitHandler        // irq_window::handle
    | ExternalInterruptExitHandler  // external_interrupt::handle
    | InterruptWindowExitHandler  // interrupt_window::handle
    | CpuidExitHandler            // cpuid::handle_cpuid
    | ExtIrqHandler | IrqWindowHandler | EoiHandler | IcrWriteHandler | InitExitHandler | SipiExitHandler
    | User(id: nat)

  datatype Step<I> = Step(claimed: bool, info: I)

  /** The position of the claiming handler, if any, and the final info record. */
  datatype Outcome<I> = Outcome(claimer: Option<nat>, info: I)

  function Shift<I>(o: Outcome<I>, n: nat): Outcome<I>
  {
    Outcome(if o.claimer.Some? then Some(o.claimer.value + n) else None, o.info)
  }

  /** First-claim-wins dispatch over `chain`, front first. */
  function Walk<I>(chain: seq<Delegate>, run: (Delegate, I) -> Step<I>, info: I): (r: Outcome<I>)
    ensures r.claimer.Some? ==> r.claimer.value < |chain|
    decreases |chain|
  {
    if chain == [] then Outcome(None, info)
    else
      var s := run(chain[0], info);
      if s.claimed then Outcome(Some(0), s.info)
      else Shift(Walk(chain[1..], run, s.info), 1)
  }

  /** The info record the handler at position `k` receives when the handlers before it all decline. */
  function InfoAt<I>(chain: seq<Delegate>, run: (Delegate, I) -> Step<I>, info: I, k: nat): I
    requires k <= |chain|
    decreases k
  {
    if k == 0 then info else InfoAt(chain[1..], run, run(chain[0], info).info, k - 1)
  }

  /** Whether the handler at position `k` claims, given what it receives. */
  predicate ClaimsAt<I>(chain: seq<Delegate>, run: (Delegate, I) -> Step<I>, info: I, k: nat)
    requires k < |chain|
  {
    run(chain[k], InfoAt(chain, run, info, k)).claimed
  }

  /**
   * Dispatch stops at the first claiming handler and returns what it left in
   * the info record; when no handler claims, every handler was offered the
   * exit and the info record is what the last one left.
   */
  lemma {:induction false} WalkFirstClaim<I>(chain: seq<Delegate>, run: (Delegate, I) -> Step<I>, info: I)
    ensures Walk(chain, run, info).claimer.Some? ==>
      var k := Walk(chain, run, info).claimer.value;
      k < |chain| && ClaimsAt(chain, run, info, k)
      && Walk(chain, run, info).info == run(chain[k], InfoAt(chain, run, info, k)).info
      && forall j :: 0 <= j < k ==> !ClaimsAt(chain, run, info, j)
    ensures Walk(chain, run, info).claimer.None? ==>
      (forall j :: 0 <= j < |chain| ==> !ClaimsAt(chain, run, info, j))
      && Walk(chain, run, info).info == InfoAt(chain, run, info, |chain|)
    decreases |chain|
  {
    if chain != [] {
      var s := run(chain[0], info);
      if !s.claimed {
        WalkFirstClaim(chain[1..], run, s.info);
        forall j | 1 <= j <= |chain|
          ensures InfoAt(chain, run, info, j) == InfoAt(chain[1..], run, s.info, j - 1)
        {
        }
        forall j | 1 <= j < |chain|
          ensures ClaimsAt(chain, run, info, j) == ClaimsAt(chain[1..], run, s.info, j - 1)
        {
          assert chain[1..][j - 1] == chain[j];
        }
      }
    }
  }

  /** The exit is unclaimed exactly when no handler in the chain claims it. */
  lemma UnclaimedIffNoneClaims<I>(chain: seq<Delegate>, run: (Delegate, I) -> Step<I>, info: I)
    ensures Walk(chain, run, info).claimer.None? <==>
      forall j :: 0 <= j < |chain| ==> !ClaimsAt(chain, run, info, j)
  {
    WalkFirstClaim(chain, run, info);
  }

  /** A handler behind the claiming one is never consulted: the chain cut after it dispatches the same way. */
  lemma {:induction false} LaterHandlersIgnored<I>(chain: seq<Delegate>, run: (Delegate, I) -> Step<I>, info: I, k: nat)
    requires Walk(chain, run, info).claimer == Some(k)
    ensures k < |chain| && Walk(chain[..k + 1], run, info) == Walk(chain, run, info)
    decreases |chain|
  {
    var s := run(chain[0], info);
    if !s.claimed {
      LaterHandlersIgnored(chain[1..], run, s.info, k - 1);
      assert chain[..k + 1][1..] == chain[1..][..k];
    }
  }

  /** A handler added with `push_front` is consulted before every older one, and wins if it claims. */
  lemma NewestFirst<I>(d: Delegate, chain: seq<Delegate>, run: (Delegate, I) -> Step<I>, info: I)
    ensures run(d, info).claimed ==> Walk([d] + chain, run, info) == Outcome(Some(0), run(d, info).info)
    ensures !run(d, info).claimed ==>
      Walk([d] + chain, run, info) == Shift(Walk(chain, run, run(d, info).info), 1)
  {
    assert ([d] + chain)[1..] == chain;
  }

  /** The dispatch loop every component's `handle` runs over its chain. */
  method RunChain<I>(chain: seq<Delegate>, run: (Delegate, I) -> Step<I>, info: I) returns (claimed: bool, out: I)
    ensures claimed == Walk(chain, run, info).claimer.Some?
    ensures out == Walk(chain, run, info).info
  {
    var i := 0;
    var cur := info;
    while i < |chain|
      invariant 0 <= i <= |chain|
      invariant Walk(chain, run, info) == Shift(Walk(chain[i..], run, cur), i)
    {
      assert chain[i..][0] == chain[i] && chain[i..][1..] == chain[i + 1..];
      var s := run(chain[i], cur);
      if s.claimed {
        return true, s.info;
      }
      cur := s.info;
      i := i + 1;
    }
    return false, cur;
  }
}
