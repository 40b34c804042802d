/**
 * The x2APIC controller: every local-APIC register is an MSR (Intel SDM
 * Vol. 3A, section 10.12.1.2), so reads and writes go to the processor's MSRs.
 */
module X2Apic {
  import opened Bits
  import opened Hardware
  import opened Lapic

  function LvtMsr(reg: LvtReg): bv32
  {
    match reg
    case Cmci => X2APIC_LVT_CMCI
    case Timer => X2APIC_LVT_TIMER
    case Thermal => X2APIC_LVT_THERMAL
    case Perf => X2APIC_LVT_PMI
    case Lint0 => X2APIC_LVT_LINT0
    case Lint1 => X2APIC_LVT_LINT1
    case Error => X2APIC_LVT_ERROR
  }

  function CountMsr(reg: CountReg): bv32
  {
    match reg
    case Initial => X2APIC_INIT_COUNT
    case Current => X2APIC_CUR_COUNT
  }

  /** The named x2APIC MSRs are the xAPIC registers moved to 0x800 + offset, so both controllers agree on layout. */
  lemma MsrLayoutMatchesOffsets(reg: LvtReg, count: CountReg)
    ensures LvtMsr(reg) == 0x800 | LvtOffset(reg)
    ensures CountMsr(count) == 0x800 | CountOffset(count)
    ensures X2APIC_ID == 0x800 | ID && X2APIC_VERSION == 0x800 | VERSION && X2APIC_TPR == 0x800 | TPR
    ensures X2APIC_EOI == 0x800 | EOI && X2APIC_LDR == 0x800 | LDR && X2APIC_SVR == 0x800 | SVR
    ensures X2APIC_ISR0 == 0x800 | ISR0 && X2APIC_TMR0 == 0x800 | TMR0 && X2APIC_IRR0 == 0x800 | IRR0
    ensures X2APIC_ICR == 0x800 | ICR_LOW && X2APIC_DIV_CONF == 0x800 | DIV_CONF
  {
  }

  class X2ApicCtl {
    const cpu: Cpu
    const table: RegSet
    const msrStart: bv32
    const msrEnd: bv32

    constructor (cpu: Cpu, table: RegSet, msrStart: bv32, msrEnd: bv32)
      ensures this.cpu == cpu && this.table == table && this.msrStart == msrStart && this.msrEnd == msrEnd
    {
      this.cpu := cpu;
      this.table := table;
      this.msrStart := msrStart;
      this.msrEnd := msrEnd;
    }

    /** The MSR of register `offset`: offset | msr_start_reg. */
    function RegisterMsr(offset: bv32): bv32
    {
      offset | msrStart
    }

    function ReadRegister(offset: bv32): bv64
      reads cpu
    {
      cpu.Msr(RegisterMsr(offset))
    }

    method WriteRegister(offset: bv32, value: bv64)
      modifies cpu`msrs, cpu`trace
      ensures cpu.msrs == old(cpu.msrs)[MsrAddr(RegisterMsr(offset)) := value]
      ensures cpu.trace == old(cpu.trace) + [MsrWrite(RegisterMsr(offset), value)]
      ensures ReadRegister(offset) == value
    {
      cpu.WriteMsr(RegisterMsr(offset), value);
    }

    function ReadId(): bv64 reads cpu { cpu.Msr(X2APIC_ID) }
    function ReadVersion(): bv64 reads cpu { cpu.Msr(X2APIC_VERSION) }
    function ReadTpr(): bv64 reads cpu { cpu.Msr(X2APIC_TPR) }
    function ReadLdr(): bv64 reads cpu { cpu.Msr(X2APIC_LDR) }
    function ReadSvr(): bv64 reads cpu { cpu.Msr(X2APIC_SVR) }
    function ReadIcr(): bv64 reads cpu { cpu.Msr(X2APIC_ICR) }
    function ReadDivConfig(): bv64 reads cpu { cpu.Msr(X2APIC_DIV_CONF) }
    function ReadIsr(idx: Index): bv64 reads cpu { cpu.Msr(BankRegister(X2APIC_ISR0, idx)) }
    function ReadTmr(idx: Index): bv64 reads cpu { cpu.Msr(BankRegister(X2APIC_TMR0, idx)) }
    function ReadIrr(idx: Index): bv64 reads cpu { cpu.Msr(BankRegister(X2APIC_IRR0, idx)) }
    function ReadLvt(reg: LvtReg): bv64 reads cpu { cpu.Msr(LvtMsr(reg)) }
    function ReadCount(reg: CountReg): bv64 reads cpu { cpu.Msr(CountMsr(reg)) }

    /** Signals end of interrupt: writes 0 to the EOI MSR. */
    method WriteEoi()
      modifies cpu`msrs, cpu`trace
      ensures cpu.msrs == old(cpu.msrs)[MsrAddr(X2APIC_EOI) := 0]
      ensures cpu.trace == old(cpu.trace) + [MsrWrite(X2APIC_EOI, 0)]
    {
      cpu.WriteMsr(X2APIC_EOI, 0);
    }

    method WriteTpr(tpr: bv64)
      modifies cpu`msrs, cpu`trace
      ensures cpu.msrs == old(cpu.msrs)[MsrAddr(X2APIC_TPR) := tpr]
      ensures cpu.trace == old(cpu.trace) + [MsrWrite(X2APIC_TPR, tpr)]
    {
      cpu.WriteMsr(X2APIC_TPR, tpr);
    }

    method WriteSvr(svr: bv64)
      modifies cpu`msrs, cpu`trace
      ensures cpu.msrs == old(cpu.msrs)[MsrAddr(X2APIC_SVR) := svr]
      ensures cpu.trace == old(cpu.trace) + [MsrWrite(X2APIC_SVR, svr)]
    {
      cpu.WriteMsr(X2APIC_SVR, svr);
    }

    /** One 64-bit MSR holds the whole ICR, so reading it back gives the full value written. */
    method WriteIcr(icr: bv64)
      modifies cpu`msrs, cpu`trace
      ensures cpu.msrs == old(cpu.msrs)[MsrAddr(X2APIC_ICR) := icr]
      ensures cpu.trace == old(cpu.trace) + [MsrWrite(X2APIC_ICR, icr)]
      ensures ReadIcr() == icr
    {
      cpu.WriteMsr(X2APIC_ICR, icr);
    }

    method WriteLvt(reg: LvtReg, value: bv64)
      modifies cpu`msrs, cpu`trace
      ensures cpu.msrs == old(cpu.msrs)[MsrAddr(LvtMsr(reg)) := value]
      ensures cpu.trace == old(cpu.trace) + [MsrWrite(LvtMsr(reg), value)]
    {
      cpu.WriteMsr(LvtMsr(reg), value);
    }

    method WriteInitCount(count: bv64)
      modifies cpu`msrs, cpu`trace
      ensures cpu.msrs == old(cpu.msrs)[MsrAddr(X2APIC_INIT_COUNT) := count]
      ensures cpu.trace == old(cpu.trace) + [MsrWrite(X2APIC_INIT_COUNT, count)]
    {
      cpu.WriteMsr(X2APIC_INIT_COUNT, count);
    }

    method WriteDivConfig(config: bv64)
      modifies cpu`msrs, cpu`trace
      ensures cpu.msrs == old(cpu.msrs)[MsrAddr(X2APIC_DIV_CONF) := config]
      ensures cpu.trace == old(cpu.trace) + [MsrWrite(X2APIC_DIV_CONF, config)]
    {
      cpu.WriteMsr(X2APIC_DIV_CONF, config);
    }

    /**
     * Writes `vec` into the vector field (bits 7:0) of the SELF IPI MSR,
     * keeping its other bits; the field is taken to be written by a
     * read-modify-write with `SetBits`.
     */
    method WriteSelfIpi(vec: bv64)
      modifies cpu`msrs, cpu`trace
      ensures cpu.msrs == old(cpu.msrs)[MsrAddr(X2APIC_SELF_IPI) := SetBits(old(cpu.Msr(X2APIC_SELF_IPI)), 0xFF, vec)]
      ensures cpu.trace == old(cpu.trace) + [MsrWrite(X2APIC_SELF_IPI, SetBits(old(cpu.Msr(X2APIC_SELF_IPI)), 0xFF, vec))]
    {
      cpu.WriteMsr(X2APIC_SELF_IPI, SetBits(cpu.Msr(X2APIC_SELF_IPI), 0xFF, vec));
    }

    function TmrBanks(): (banks: seq<bv64>)
      reads cpu
      ensures |banks| == 8
    {
      [ReadTmr(0), ReadTmr(1), ReadTmr(2), ReadTmr(3), ReadTmr(4), ReadTmr(5), ReadTmr(6), ReadTmr(7)]
    }

    function IsrBanks(): (banks: seq<bv64>)
      reads cpu
      ensures |banks| == 8
    {
      [ReadIsr(0), ReadIsr(1), ReadIsr(2), ReadIsr(3), ReadIsr(4), ReadIsr(5), ReadIsr(6), ReadIsr(7)]
    }

    /** Whether `vec`'s bit is set in the TMR. */
    function LevelTriggered(vec: bv64): (r: bool)
      reads cpu
      ensures r <==> AnySet(ReadTmr(Bank(vec)), BitMask(vec))
    {
      VectorBitSet(TmrBanks(), vec)
    }

    /** Whether `vec`'s bit is set in the ISR. */
    function InService(vec: bv64): (r: bool)
      reads cpu
      ensures r <==> AnySet(ReadIsr(Bank(vec)), BitMask(vec))
    {
      VectorBitSet(IsrBanks(), vec)
    }
  }

  /** The SELF IPI write changes only the vector field, and that field ends up holding the vector. */
  lemma SelfIpiOnlyVectorField(old_: bv64, vec: bv64)
    ensures SetBits(old_, 0xFF, vec) & 0xFF == vec & 0xFF
    ensures SetBits(old_, 0xFF, vec) & !0xFF == old_ & !0xFF
  {
  }
}
