/**
 * The WRMSR side of the MSR-trapping component the interrupt managers
 * register with: a chain of WRMSR handlers per MSR and the set of MSRs
 * whose writes cause an exit. Only the registration is modelled; the
 * component's exit handling is not part of this model.
 */
module Msrs {
  import opened Hardware
  import opened Wrappers
  import opened Dispatch

  /** What a WRMSR handler receives: the value written, and whether to drop the write or skip advancing RIP. */
  datatype WrmsrInfo = WrmsrInfo(value: bv64, ignoreWrite: bool, ignoreAdvance: bool)

  /**
   * The handler both interrupt managers install for the x2APIC EOI MSR: the
   * guest's EOI is dropped (the manager has already signalled EOI for the
   * interrupt it took), the instruction is still skipped, and the exit is
   * claimed.
   */
  function HandleWrmsrEoi(info: WrmsrInfo): (r: (bool, WrmsrInfo))
    ensures r.0
    ensures r.1.ignoreWrite && !r.1.ignoreAdvance
    ensures r.1.value == info.value
  {
    (true, info.(ignoreWrite := true, ignoreAdvance := false))
  }

  /** The run function of the EOI handler as a member of a WRMSR chain. */
  function RunWrmsrEoi(d: Delegate, info: WrmsrInfo): Step<WrmsrInfo>
  {
    if d == EoiHandler then Step(HandleWrmsrEoi(info).0, HandleWrmsrEoi(info).1) else Step(false, info)
  }

  /** Once the EOI handler heads the EOI MSR's chain, every guest EOI write is claimed there and dropped. */
  lemma EoiChainClaims(chain: seq<Delegate>, info: WrmsrInfo)
    requires chain != [] && chain[0] == EoiHandler
    ensures Walk(chain, RunWrmsrEoi, info) == Outcome(Some(0), info.(ignoreWrite := true, ignoreAdvance := false))
  {
  }

  class Msrs {
    var wrmsrHandlers: map<MsrAddr, seq<Delegate>>
    var trappedWrites: set<MsrAddr>

    constructor ()
      ensures wrmsrHandlers == map[] && trappedWrites == {}
    {
      wrmsrHandlers := map[];
      trappedWrites := {};
    }

    /** The chain registered for `addr`; an MSR never seen has an empty chain. */
    function WrmsrChain(addr: bv32): seq<Delegate>
      reads this
    {
      if MsrAddr(addr) in wrmsrHandlers then wrmsrHandlers[MsrAddr(addr)] else []
    }

    /** The new handler runs before every handler already registered for `addr`. */
    method AddWrmsrHandler(addr: bv32, d: Delegate)
      modifies this`wrmsrHandlers
      ensures wrmsrHandlers == old(wrmsrHandlers)[MsrAddr(addr) := [d] + old(WrmsrChain(addr))]
      ensures WrmsrChain(addr) == [d] + old(WrmsrChain(addr))
    {
      wrmsrHandlers := wrmsrHandlers[MsrAddr(addr) := [d] + WrmsrChain(addr)];
    }

    method TrapOnWrmsrAccess(addr: bv32)
      modifies this`trappedWrites
      ensures trappedWrites == old(trappedWrites) + {MsrAddr(addr)}
    {
      trappedWrites := trappedWrites + {MsrAddr(addr)};
    }
  }
}
