/**
 * The SIPI exit handler: on a start-up IPI the guest is put into the state a
 * processor has after power-up or INIT (Intel SDM Vol. 3A, section 9.1.1,
 * table 9-1), except that CS is loaded from the SIPI vector so that the
 * guest starts executing at physical address 0x000VV000.
 */
module SipiSignal {
  import opened Hardware

  /** CR0 with ET (bit 4), NE (bit 5), NW (bit 29) and CD (bit 30) set. */
  const CR0_RESET: bv64 := 0x6000_0030
  /** CR4 with VMXE (bit 13) set, which VMX operation requires. */
  const CR4_RESET: bv64 := 0x2000
  const CR0_SHADOW_RESET: bv64 := 0x6000_0010

  /** SS, DS, ES, FS and GS: selector 0, base 0, limit 0xFFFF, read/write data accessed. */
  const DATA_SEGMENT: Segment := Segment(0, 0, 0xFFFF, 0x93)
  const LDTR_RESET: Segment := Segment(0, 0, 0xFFFF, 0x82)
  const TR_RESET: Segment := Segment(0, 0, 0xFFFF, 0x8B)

  /** Every saved register 0 except RDX, which holds 0xF00, and RIP, which starts at 0. */
  const SAVE_RESET: SaveState := SaveState(0, 0, 0, 0xF00, 0, 0, 0, 0, 0, 0, 0, 0, 0, 0, 0, 0, 0)

  /** The SIPI vector: bits 7:0 of the exit qualification (Intel SDM Vol. 3C, section 27.2.1). */
  function SipiVector(qualification: bv64): (v: bv64)
    ensures v < 256
  {
    qualification & 0xFF
  }

  /** The CS selector for vector VV: VV << 8, so that selector * 16 is the page VV000. */
  function CsSelector(v: bv64): bv64 { v << 8 }

  function CsBase(v: bv64): bv64 { v << 12 }

  /** The guest state the handler leaves for SIPI vector `v`; only the interruptibility state survives. */
  function ResetGuest(g: GuestState, v: bv64): GuestState
  {
    g.(rflags := 2, activity := ACTIVE,
       cr0 := CR0_RESET, cr2 := 0, cr3 := 0, cr4 := CR4_RESET, cr0Shadow := CR0_SHADOW_RESET, cr4Shadow := 0,
       cs := Segment(CsSelector(v), CsBase(v), 0xFFFF, 0x9B),
       ss := DATA_SEGMENT, ds := DATA_SEGMENT, es := DATA_SEGMENT, fs := DATA_SEGMENT, gs := DATA_SEGMENT,
       ldtr := LDTR_RESET, tr := TR_RESET,
       gdtrBase := 0, gdtrLimit := 0xFFFF, idtrBase := 0, idtrLimit := 0xFFFF,
       dr7 := 0x400, efer := 0, ia32eModeGuest := false)
  }

  /**
   * For every vector the guest starts in real mode at CS:IP = VV00:0000, whose
   * base is the selector times 16: the page-aligned address 0x000VV000, below
   * 1 MiB.
   */
  lemma StartAddress(g: GuestState, v: bv64)
    requires v < 256
    ensures var r := ResetGuest(g, v);
      && r.cs.base == r.cs.selector << 4
      && r.cs.base & 0xFFF == 0 && r.cs.base < 0x10_0000
      && r.cs.base >> 12 == v
      && r.cs.limit == 0xFFFF && r.cs.access == 0x9B
  {
  }

  /** The image does not depend on the state before the SIPI, apart from the interruptibility state it leaves alone. */
  lemma ResetForgetsPast(g1: GuestState, g2: GuestState, v: bv64)
    requires g1.interruptibility == g2.interruptibility
    ensures ResetGuest(g1, v) == ResetGuest(g2, v)
  {
  }

  /** With no guard against a repeated SIPI, a second SIPI with the same vector changes nothing further. */
  lemma ResetIdempotent(g: GuestState, v: bv64)
    ensures ResetGuest(ResetGuest(g, v), v) == ResetGuest(g, v)
  {
  }

  class SipiSignal {
    const cpu: Cpu

    constructor (cpu: Cpu)
      ensures this.cpu == cpu
    {
      this.cpu := cpu;
    }

    /**
     * A SIPI exit: the reset image is written field by field, CS is then
     * reloaded from the SIPI vector, RIP cleared and the guest made active.
     * The exit is always handled.
     */
    method Handle() returns (handled: bool)
      modifies cpu`guest, cpu`save
      ensures cpu.guest == ResetGuest(old(cpu.guest), SipiVector(cpu.exitQualification))
      ensures cpu.save == SAVE_RESET
      ensures handled
    {
      cpu.guest := cpu.guest.(ia32eModeGuest := false, rflags := 2);
      cpu.save := cpu.save.(rip := 0xFFF0);
      cpu.guest := cpu.guest.(cr0 := CR0_RESET, cr2 := 0, cr3 := 0, cr4 := CR4_RESET);
      cpu.guest := cpu.guest.(cr0Shadow := CR0_SHADOW_RESET, cr4Shadow := 0);
      cpu.guest := cpu.guest.(cs := Segment(0xF000, 0xFFFF_0000, 0xFFFF, 0x9B));
      cpu.guest := cpu.guest.(ss := DATA_SEGMENT, ds := DATA_SEGMENT, es := DATA_SEGMENT, fs := DATA_SEGMENT, gs := DATA_SEGMENT);
      cpu.save := cpu.save.(rdx := 0xF00, rax := 0, rbx := 0, rcx := 0, rsi := 0, rdi := 0, rbp := 0, rsp := 0);
      cpu.guest := cpu.guest.(gdtrBase := 0, gdtrLimit := 0xFFFF, idtrBase := 0, idtrLimit := 0xFFFF);
      cpu.guest := cpu.guest.(ldtr := LDTR_RESET, tr := TR_RESET, dr7 := 0x400);
      cpu.save := cpu.save.(r8 := 0, r9 := 0, r10 := 0, r11 := 0, r12 := 0, r13 := 0, r14 := 0, r15 := 0);
      cpu.guest := cpu.guest.(efer := 0, fs := cpu.guest.fs.(base := 0), gs := cpu.guest.gs.(base := 0));

      var v := SipiVector(cpu.exitQualification);
      cpu.guest := cpu.guest.(cs := Segment(CsSelector(v), CsBase(v), 0xFFFF, 0x9B));
      cpu.save := cpu.save.(rip := 0);
      cpu.guest := cpu.guest.(activity := ACTIVE);
      handled := true;
    }
  }
}
