/**
 * The processor state the extension layer reads and writes: the VMCS fields
 * it touches, the guest register save area and the MSRs. Hardware accessors
 * of the original become plain reads and writes of these fields; a ghost
 * `trace` records, in order, the writes a guest or the local APIC could
 * observe (event injections and MSR writes).
 */
module Hardware {
  import opened Bits

  // Basic exit reasons, Intel SDM Vol. 3D, appendix C.
  const EXIT_REASON_EXTERNAL_INTERRUPT: bv64 := 1
  const EXIT_REASON_INIT_SIGNAL: bv64 := 3
  const EXIT_REASON_SIPI: bv64 := 4
  const EXIT_REASON_INTERRUPT_WINDOW: bv64 := 7
  const EXIT_REASON_CPUID: bv64 := 10

  // Guest activity states, Intel SDM Vol. 3C, section 24.4.2.
  const ACTIVE: bv64 := 0
  const HLT: bv64 := 1
  const SHUTDOWN: bv64 := 2
  const WAIT_FOR_SIPI: bv64 := 3

  /** RFLAGS.IF, bit 9. */
  const RFLAGS_IF: bv64 := 0x200

  // Guest interruptibility state, Intel SDM Vol. 3C, section 24.4.2, table 24-3.
  const BLOCKING_BY_STI: bv64 := 0x1
  const BLOCKING_BY_MOV_SS: bv64 := 0x2

  // x2APIC MSR addresses, Intel SDM Vol. 3A, section 10.12.1.2, table 10-6.
  const X2APIC_ID: bv32 := 0x802
  const X2APIC_VERSION: bv32 := 0x803
  const X2APIC_TPR: bv32 := 0x808
  const X2APIC_PPR: bv32 := 0x80A
  const X2APIC_EOI: bv32 := 0x80B
  const X2APIC_LDR: bv32 := 0x80D
  const X2APIC_SVR: bv32 := 0x80F
  const X2APIC_ISR0: bv32 := 0x810
  const X2APIC_TMR0: bv32 := 0x818
  const X2APIC_IRR0: bv32 := 0x820
  const X2APIC_ESR: bv32 := 0x828
  const X2APIC_LVT_CMCI: bv32 := 0x82F
  const X2APIC_ICR: bv32 := 0x830
  const X2APIC_LVT_TIMER: bv32 := 0x832
  const X2APIC_LVT_THERMAL: bv32 := 0x833
  const X2APIC_LVT_PMI: bv32 := 0x834
  const X2APIC_LVT_LINT0: bv32 := 0x835
  const X2APIC_LVT_LINT1: bv32 := 0x836
  const X2APIC_LVT_ERROR: bv32 := 0x837
  const X2APIC_INIT_COUNT: bv32 := 0x838
  const X2APIC_CUR_COUNT: bv32 := 0x839
  const X2APIC_DIV_CONF: bv32 := 0x83E
  const X2APIC_SELF_IPI: bv32 := 0x83F

  /** The vector field (bits 7:0) of the VM-exit interruption-information field, Intel SDM Vol. 3C, section 24.9.2. */
  function ExitVector(exitInfo: bv32): (v: bv64)
    ensures v < 256
    ensures v as bv32 == exitInfo & 0xFF
  {
    (exitInfo & 0xFF) as bv64
  }

  /** A guest segment register as the VMCS holds it. */
  datatype Segment = Segment(selector: bv64, base: bv64, limit: bv64, access: bv64)

  /** The guest-state VMCS fields used here, plus CR2, which the VMCS does not hold. */
  datatype GuestState = GuestState(
    rflags: bv64, activity: bv64, interruptibility: bv64,
    cr0: bv64, cr2: bv64, cr3: bv64, cr4: bv64, cr0Shadow: bv64, cr4Shadow: bv64,
    cs: Segment, ss: Segment, ds: Segment, es: Segment, fs: Segment, gs: Segment,
    ldtr: Segment, tr: Segment,
    gdtrBase: bv64, gdtrLimit: bv64, idtrBase: bv64, idtrLimit: bv64,
    dr7: bv64, efer: bv64, ia32eModeGuest: bool)

  /** The general-purpose registers and RIP saved on a VM exit. */
  datatype SaveState = SaveState(
    rax: bv64, rbx: bv64, rcx: bv64, rdx: bv64,
    rsi: bv64, rdi: bv64, rbp: bv64, rsp: bv64,
    r8: bv64, r9: bv64, r10: bv64, r11: bv64,
    r12: bv64, r13: bv64, r14: bv64, r15: bv64,
    rip: bv64)

  /** An MSR address as a map key (a bit-vector wrapped in a datatype, which maps handle well). */
  datatype MsrAddr = MsrAddr(addr: bv32)

  /** A write the guest or the local APIC can observe. */
  datatype Event = Injected(info: bv32) | MsrWrite(addr: bv32, value: bv64)

  class Cpu {
    var guest: GuestState
    var save: SaveState
    /** Primary processor-based control "interrupt-window exiting". */
    var windowExiting: bool
    /** Pin-based control "external-interrupt exiting". */
    var extIntExiting: bool
    /** VM-exit control "acknowledge interrupt on exit". */
    var ackIntOnExit: bool
    /** VM-entry interruption-information field. */
    var entryInfo: bv32
    /** VM-exit interruption-information field, as left by the last exit. */
    var exitInfo: bv32
    /** Exit qualification of the last exit (the SIPI vector for a SIPI exit). */
    var exitQualification: bv64
    /** VM-exit instruction length. */
    var instrLen: bv64
    var msrs: map<MsrAddr, bv64>
    ghost var trace: seq<Event>

    constructor (guest: GuestState, save: SaveState, exitInfo: bv32, exitQualification: bv64,
                 instrLen: bv64, msrs: map<MsrAddr, bv64>)
      ensures this.guest == guest && this.save == save && this.msrs == msrs
      ensures this.exitInfo == exitInfo && this.exitQualification == exitQualification
      ensures this.instrLen == instrLen
      ensures !windowExiting && !extIntExiting && !ackIntOnExit && entryInfo == 0 && trace == []
    {
      this.guest := guest;
      this.save := save;
      this.exitInfo := exitInfo;
      this.exitQualification := exitQualification;
      this.instrLen := instrLen;
      this.msrs := msrs;
      windowExiting, extIntExiting, ackIntOnExit := false, false, false;
      entryInfo := 0;
      trace := [];
    }

    /** The value an RDMSR of `addr` returns; an MSR never written reads as 0. */
    function Msr(addr: bv32): bv64
      reads this
    {
      if MsrAddr(addr) in msrs then msrs[MsrAddr(addr)] else 0
    }

    method WriteMsr(addr: bv32, value: bv64)
      modifies this`msrs, this`trace
      ensures msrs == old(msrs)[MsrAddr(addr) := value]
      ensures trace == old(trace) + [MsrWrite(addr, value)]
      ensures Msr(addr) == value
    {
      msrs := msrs[MsrAddr(addr) := value];
      trace := trace + [MsrWrite(addr, value)];
    }

    /** Writes the VM-entry interruption-information field. */
    method SetEntryInfo(info: bv32)
      modifies this`entryInfo, this`trace
      ensures entryInfo == info
      ensures trace == old(trace) + [Injected(info)]
    {
      entryInfo := info;
      trace := trace + [Injected(info)];
    }

    /** The base exit handler's advance(): moves RIP past the exiting instruction and succeeds. */
    method Advance() returns (ok: bool)
      modifies this`save
      ensures save == old(save).(rip := Add64(old(save.rip), instrLen))
      ensures ok
    {
      save := save.(rip := Add64(save.rip, instrLen));
      ok := true;
    }
  }
}
