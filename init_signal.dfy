/**
 * The INIT side of the INIT-SIPI-SIPI start-up of an application processor.
 * On the sending processor, guest writes of the x2APIC ICR are inspected: an
 * INIT with the level asserted is sent by the handler itself, which then
 * waits until the target has taken its INIT exit and drops the guest's own
 * write. On the target, the INIT exit puts the guest into wait-for-SIPI and
 * releases the sender.
 */
module InitSignal {
  import opened Hardware
  import opened Lapic
  import opened Msrs
  import SipiSignal

  /** An ICR value that sends INIT with the level asserted (delivery mode 101b, bit 14 set). */
  predicate InitAssert(icr: bv64)
  {
    IcrDeliveryMode(icr) == DELIVERY_INIT && IcrLevelAsserted(icr)
  }

  /** A SELF IPI is never taken for an INIT, while 0x4500 is the plain INIT-assert command. */
  lemma InitFilterExamples(vec: bv64)
    ensures !InitAssert(SelfIpiIcr(vec))
    ensures InitAssert(0x4500) && !InitAssert(0x0500) && !InitAssert(0x4600)
  {
  }

  /** The flag the two handlers share across processors: set by the target's INIT exit, cleared by the sender. */
  class Handshake {
    var handled: bool

    constructor ()
      ensures !handled
    {
      handled := false;
    }
  }

  class InitSignal {
    const cpu: Cpu
    const sync: Handshake

    constructor (cpu: Cpu, sync: Handshake)
      ensures this.cpu == cpu && this.sync == sync
    {
      this.cpu := cpu;
      this.sync := sync;
    }

    /**
     * A guest write of the ICR. An INIT with the level asserted is written to
     * the ICR here, the handshake is reset for the next processor, and the
     * guest's write is dropped; anything else passes through untouched. The
     * exit is always claimed. Waiting for the target is not modelled: the
     * write is taken to return once the target has taken its INIT.
     */
    method HandleIcrWrite(info: WrmsrInfo) returns (claimed: bool, out: WrmsrInfo)
      modifies cpu`msrs, cpu`trace, sync`handled
      ensures claimed
      ensures InitAssert(info.value) ==>
        && out == info.(ignoreWrite := true)
        && cpu.msrs == old(cpu.msrs)[MsrAddr(X2APIC_ICR) := info.value]
        && cpu.trace == old(cpu.trace) + [MsrWrite(X2APIC_ICR, info.value)]
        && !sync.handled
      ensures !InitAssert(info.value) ==>
        && out == info
        && cpu.msrs == old(cpu.msrs) && cpu.trace == old(cpu.trace)
        && sync.handled == old(sync.handled)
    {
      out := info;
      if IcrDeliveryMode(info.value) == DELIVERY_INIT {
        if IcrLevelAsserted(info.value) {
          cpu.WriteMsr(X2APIC_ICR, info.value);
          sync.handled := false;
          out := out.(ignoreWrite := true);
        }
      }
      claimed := true;
    }

    /** The INIT exit on the target: the guest waits for a SIPI, and the sender is released. */
    method Handle() returns (handled: bool)
      modifies cpu`guest, sync`handled
      ensures cpu.guest == old(cpu.guest).(activity := WAIT_FOR_SIPI)
      ensures sync.handled && handled
    {
      cpu.guest := cpu.guest.(activity := WAIT_FOR_SIPI);
      sync.handled := true;
      handled := true;
    }
  }

  /**
   * INIT then SIPI: after the INIT exit the guest cannot take interrupts
   * (wait-for-SIPI closes the interrupt window), and the SIPI that follows
   * makes it active again at the vector's page, whatever it was doing before.
   */
  lemma InitThenSipi(g: GuestState, v: bv64)
    requires v < 256
    ensures g.(activity := WAIT_FOR_SIPI).activity == WAIT_FOR_SIPI
    ensures var r := SipiSignal.ResetGuest(g.(activity := WAIT_FOR_SIPI), v);
      r.activity == ACTIVE && r.cs.base >> 12 == v && r == SipiSignal.ResetGuest(g, v)
  {
    SipiSignal.StartAddress(g, v);
    SipiSignal.ResetForgetsPast(g.(activity := WAIT_FOR_SIPI), g, v);
  }
}
