/**
 * The xAPIC controller: the local APIC's registers live in a 4 KiB page of
 * 32-bit words, register offset `o` at word `o << 2` (byte 16 * o).
 */
module XApic {
  import opened Bits
  import opened Lapic

  /** A write to the APIC page, or the store fence `write_icr` puts between its two writes. */
  datatype PageEvent = PageWrite(offset: bv32, value: bv32) | StoreFence

  /** The word of the page that holds register `offset`. */
  function Slot(offset: bv32): (i: nat)
    requires offset < 256
    ensures i < 1024
  {
    (offset << 2) as nat
  }

  class XApicCtl {
    /** `m_apic_page`. */
    const page: array<bv32>
    const table: RegSet
    const msrStart: bv32
    const msrEnd: bv32
    /** The writes made to the page, in order. */
    ghost var writes: seq<PageEvent>

    ghost predicate Valid()
      reads this
    {
      page.Length == 1024
    }

    constructor (page: array<bv32>, table: RegSet, msrStart: bv32, msrEnd: bv32)
      requires page.Length == 1024
      ensures Valid() && this.page == page && this.table == table
      ensures this.msrStart == msrStart && this.msrEnd == msrEnd && writes == []
    {
      this.page := page;
      this.table := table;
      this.msrStart := msrStart;
      this.msrEnd := msrEnd;
      writes := [];
    }

    /** A register reads as its 32-bit word, zero-extended. */
    function ReadRegister(offset: bv32): bv64
      requires Valid() && offset < 256
      reads this, page
    {
      Widen(page[Slot(offset)])
    }

    /** Stores the low 32 bits of `value` in the register's word, so reading it back gives `value` truncated to 32 bits. */
    method WriteRegister(offset: bv32, value: bv64)
      requires Valid() && offset < 256
      modifies page, this`writes
      ensures page[..] == old(page[..])[Slot(offset) := Low32(value)]
      ensures writes == old(writes) + [PageWrite(offset, Low32(value))]
      ensures ReadRegister(offset) == value & 0xFFFF_FFFF
    {
      page[Slot(offset)] := Low32(value);
      writes := writes + [PageWrite(offset, Low32(value))];
      WidenLow32(value);
    }

    function ReadId(): bv64 requires Valid() reads this, page { ReadRegister(ID) }
    function ReadVersion(): bv64 requires Valid() reads this, page { ReadRegister(VERSION) }
    function ReadTpr(): bv64 requires Valid() reads this, page { ReadRegister(TPR) }
    function ReadLdr(): bv64 requires Valid() reads this, page { ReadRegister(LDR) }
    function ReadSvr(): bv64 requires Valid() reads this, page { ReadRegister(SVR) }
    function ReadDivConfig(): bv64 requires Valid() reads this, page { ReadRegister(DIV_CONF) }

    /** The ICR from its two registers: (high << 32) | low. */
    function ReadIcr(): (icr: bv64)
      requires Valid()
      reads this, page
      ensures IcrHigh(icr) == ReadRegister(ICR_HIGH) && IcrLow(icr) == ReadRegister(ICR_LOW)
    {
      var low := ReadRegister(ICR_LOW);
      var high := ReadRegister(ICR_HIGH);
      (high << 32) | low
    }

    /** Bank `idx` of the ISR, at offset ISR0 | idx. */
    function ReadIsr(idx: Index): bv64
      requires Valid()
      reads this, page
    {
      ReadRegister(BankRegister(ISR0, idx))
    }

    function ReadTmr(idx: Index): bv64
      requires Valid()
      reads this, page
    {
      ReadRegister(BankRegister(TMR0, idx))
    }

    function ReadIrr(idx: Index): bv64
      requires Valid()
      reads this, page
    {
      ReadRegister(BankRegister(IRR0, idx))
    }

    function ReadLvt(reg: LvtReg): bv64 requires Valid() reads this, page { ReadRegister(LvtOffset(reg)) }

    function ReadCount(reg: CountReg): bv64 requires Valid() reads this, page { ReadRegister(CountOffset(reg)) }

    method WriteEoi()
      requires Valid()
      modifies page, this`writes
      ensures page[..] == old(page[..])[Slot(EOI) := 0]
      ensures writes == old(writes) + [PageWrite(EOI, 0)]
    {
      WriteRegister(EOI, 0);
    }

    method WriteTpr(tpr: bv64)
      requires Valid()
      modifies page, this`writes
      ensures page[..] == old(page[..])[Slot(TPR) := Low32(tpr)]
      ensures writes == old(writes) + [PageWrite(TPR, Low32(tpr))]
    {
      WriteRegister(TPR, tpr);
    }

    method WriteSvr(svr: bv64)
      requires Valid()
      modifies page, this`writes
      ensures page[..] == old(page[..])[Slot(SVR) := Low32(svr)]
      ensures writes == old(writes) + [PageWrite(SVR, Low32(svr))]
    {
      WriteRegister(SVR, svr);
    }

    method WriteLvt(reg: LvtReg, value: bv64)
      requires Valid()
      modifies page, this`writes
      ensures page[..] == old(page[..])[Slot(LvtOffset(reg)) := Low32(value)]
      ensures writes == old(writes) + [PageWrite(LvtOffset(reg), Low32(value))]
    {
      WriteRegister(LvtOffset(reg), value);
    }

    method WriteInitCount(count: bv64)
      requires Valid()
      modifies page, this`writes
      ensures page[..] == old(page[..])[Slot(INIT_COUNT) := Low32(count)]
      ensures writes == old(writes) + [PageWrite(INIT_COUNT, Low32(count))]
    {
      WriteRegister(INIT_COUNT, count);
    }

    method WriteDivConfig(config: bv64)
      requires Valid()
      modifies page, this`writes
      ensures page[..] == old(page[..])[Slot(DIV_CONF) := Low32(config)]
      ensures writes == old(writes) + [PageWrite(DIV_CONF, Low32(config))]
    {
      WriteRegister(DIV_CONF, config);
    }

    /**
     * Writes the ICR high word, then a store fence, then the low word (the
     * write of the low word is what sends the IPI); reading the ICR back gives
     * the value written.
     */
    method WriteIcr(icr: bv64)
      requires Valid()
      modifies page, this`writes
      ensures writes == old(writes) + [PageWrite(ICR_HIGH, Low32(IcrHigh(icr))), StoreFence, PageWrite(ICR_LOW, Low32(IcrLow(icr)))]
      ensures page[..] == old(page[..])[Slot(ICR_HIGH) := Low32(IcrHigh(icr))][Slot(ICR_LOW) := Low32(IcrLow(icr))]
      ensures ReadIcr() == icr
    {
      var low := IcrLow(icr);
      var high := IcrHigh(icr);
      WriteRegister(ICR_HIGH, high);
      writes := writes + [StoreFence];
      WriteRegister(ICR_LOW, low);
      IcrSplitJoin(icr);
    }

    /** Sends a self-targeted, edge-triggered, fixed IPI at `vec` through the ICR. */
    method WriteSelfIpi(vec: bv64)
      requires Valid()
      modifies page, this`writes
      ensures writes == old(writes) + [PageWrite(ICR_HIGH, 0), StoreFence, PageWrite(ICR_LOW, Low32(SelfIpiIcr(vec)))]
      ensures ReadIcr() == SelfIpiIcr(vec)
    {
      WriteIcr(SelfIpiIcr(vec));
    }

    /** The eight TMR banks, bank 0 first. */
    function TmrBanks(): (banks: seq<bv64>)
      requires Valid()
      reads this, page
      ensures |banks| == 8
    {
      [ReadTmr(0), ReadTmr(1), ReadTmr(2), ReadTmr(3), ReadTmr(4), ReadTmr(5), ReadTmr(6), ReadTmr(7)]
    }

    /** The eight ISR banks, bank 0 first. */
    function IsrBanks(): (banks: seq<bv64>)
      requires Valid()
      reads this, page
      ensures |banks| == 8
    {
      [ReadIsr(0), ReadIsr(1), ReadIsr(2), ReadIsr(3), ReadIsr(4), ReadIsr(5), ReadIsr(6), ReadIsr(7)]
    }

    /** Whether `vec`'s bit is set in the TMR. */
    function LevelTriggered(vec: bv64): (r: bool)
      requires Valid()
      reads this, page
      ensures r <==> AnySet(ReadTmr(Bank(vec)), BitMask(vec))
    {
      VectorBitSet(TmrBanks(), vec)
    }

    /** Whether `vec`'s bit is set in the ISR. */
    function InService(vec: bv64): (r: bool)
      requires Valid()
      reads this, page
      ensures r <==> AnySet(ReadIsr(Bank(vec)), BitMask(vec))
    {
      VectorBitSet(IsrBanks(), vec)
    }
  }
}
