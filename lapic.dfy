/**
 * The contract shared by the two local-APIC controllers (xAPIC, reached
 * through a memory page, and x2APIC, reached through MSRs): the register
 * offsets, the access-permission check, the ICR field layout and the way a
 * vector selects a bit of the 256-bit ISR and TMR (Intel SDM Vol. 3A,
 * sections 10.4.1, 10.5, 10.6.1, 10.8.4 and 10.12).
 */
module Lapic {
  import opened Wrappers

  /** One of the eight 32-bit banks of ISR, TMR and IRR. */
  type Index = i: nat | i < 8

  /** A bank's register: the bank-0 register `base` ORed with the bank index. */
  function BankRegister(base: bv32, idx: Index): bv32
  {
    base | idx as bv32
  }

  datatype LvtReg = Cmci | Timer | Thermal | Perf | Lint0 | Lint1 | Error

  datatype CountReg = Initial | Current

  datatype RegOp = Read | Write

  /** What a register allows. */
  datatype Perm = Perm(readable: bool, writeable: bool)

  /** A register table: register offset to permissions (the unshown `reg_set`). */
  type RegSet = map<bv32, Perm>

  // Register offsets in 16-byte units, Intel SDM Vol. 3A, section 10.4.1, table 10-1.
  // The x2APIC MSR of a register is 0x800 plus its offset (section 10.12.1.2).
  const ID: bv32 := 0x02
  const VERSION: bv32 := 0x03
  const TPR: bv32 := 0x08
  const EOI: bv32 := 0x0B
  const LDR: bv32 := 0x0D
  const SVR: bv32 := 0x0F
  const ISR0: bv32 := 0x10
  const TMR0: bv32 := 0x18
  const IRR0: bv32 := 0x20
  const ICR_LOW: bv32 := 0x30
  const ICR_HIGH: bv32 := 0x31
  const INIT_COUNT: bv32 := 0x38
  const CUR_COUNT: bv32 := 0x39
  const DIV_CONF: bv32 := 0x3E

  function LvtOffset(reg: LvtReg): bv32
  {
    match reg
    case Cmci => 0x2F
    case Timer => 0x32
    case Thermal => 0x33
    case Perf => 0x34
    case Lint0 => 0x35
    case Lint1 => 0x36
    case Error => 0x37
  }

  function CountOffset(reg: CountReg): bv32
  {
    match reg
    case Initial => INIT_COUNT
    case Current => CUR_COUNT
  }

  predicate Allows(table: RegSet, offset: bv32, op: RegOp)
  {
    offset in table && (match op case Read => table[offset].readable case Write => table[offset].writeable)
  }

  /** The register offset a guest-physical address in the APIC page selects: (addr & 0xFF0) >> 4. */
  function GpaOffset(addr: bv64): (offset: bv32)
    ensures offset < 256
    ensures offset as bv64 == (addr % 0x1000) / 0x10
  {
    ((addr & 0xFF0) >> 4) as bv32
  }

  /** The register offset an MSR address selects: msr & 0xFF. */
  function MsrOffset(msr: bv32): (offset: bv32)
    ensures offset < 256
    ensures offset == msr % 0x100
  {
    msr & 0xFF
  }

  /** `check_gpa_op`: the register offset when the address maps to a register that allows `op`, else -1. */
  function CheckGpaOp(table: RegSet, addr: bv64, op: RegOp): (r: int)
    ensures r == -1 || r == GpaOffset(addr) as int
    ensures -1 <= r <= 0xFF
    ensures r != -1 <==> Allows(table, GpaOffset(addr), op)
  {
    var reg := GpaOffset(addr);
    if reg in table then
      match op
      case Read => if table[reg].readable then reg as int else -1
      case Write => if table[reg].writeable then reg as int else -1
    else -1
  }

  /**
   * `check_msr_op`: -1 for an MSR outside [start, end]; otherwise the same
   * offset-or--1 answer as `CheckGpaOp`, for offset msr & 0xFF.
   */
  function CheckMsrOp(table: RegSet, start: bv32, end: bv32, msr: bv32, op: RegOp): (r: int)
    ensures msr < start || msr > end ==> r == -1
    ensures r == -1 || r == MsrOffset(msr) as int
    ensures r != -1 <==> start <= msr <= end && Allows(table, MsrOffset(msr), op)
  {
    if msr < start || msr > end then -1
    else
      var reg := MsrOffset(msr);
      if reg in table then
        match op
        case Read => if table[reg].readable then reg as int else -1
        case Write => if table[reg].writeable then reg as int else -1
      else -1
  }

  /**
   * What the xAPIC unit tests establish about the unshown xAPIC register
   * table: offset 0 unreadable, version unwritable, EOI unreadable, ID
   * read/write, APR and RRD read-only, LDR writable, DFR read/write, ESR
   * unwritable, ICR-high read/write, self-IPI neither.
   */
  predicate XApicTableAsTested(t: RegSet)
  {
    && !Allows(t, 0x00, Read)
    && !Allows(t, 0x03, Write)
    && !Allows(t, 0x0B, Read)
    && Allows(t, 0x02, Read) && Allows(t, 0x02, Write)
    && Allows(t, 0x09, Read) && !Allows(t, 0x09, Write)
    && Allows(t, 0x0C, Read) && !Allows(t, 0x0C, Write)
    && Allows(t, 0x0D, Write)
    && Allows(t, 0x0E, Read) && Allows(t, 0x0E, Write)
    && !Allows(t, 0x28, Write)
    && Allows(t, 0x31, Read) && Allows(t, 0x31, Write)
    && !Allows(t, 0x3F, Read) && !Allows(t, 0x3F, Write)
  }

  /** What the same tests establish about the MSR window [start, end]. */
  predicate MsrRangeAsTested(start: bv32, end: bv32)
  {
    0 < start <= 0x802 && 0x831 <= end < 0xFFFF_FFFF
  }

  /** Under those facts the checks give the answers the tests expect, address decoding included. */
  lemma XApicChecksAsTested(t: RegSet, start: bv32, end: bv32)
    requires XApicTableAsTested(t) && MsrRangeAsTested(start, end)
    ensures CheckGpaOp(t, 0xFEE0_0000, Read) == -1
    ensures CheckGpaOp(t, 0xFEE0_0030, Write) == -1
    ensures CheckGpaOp(t, 0xFEE0_00B0, Read) == -1
    ensures CheckGpaOp(t, 0xFEE0_0020, Read) == 0x2 && CheckGpaOp(t, 0xFEE0_0020, Write) == 0x2
    ensures CheckGpaOp(t, 0xFEE0_0090, Read) == 0x9 && CheckGpaOp(t, 0xFEE0_0090, Write) == -1
    ensures CheckGpaOp(t, 0xFEE0_00C0, Read) == 0xC && CheckGpaOp(t, 0xFEE0_00C0, Write) == -1
    ensures CheckGpaOp(t, 0xFEE0_00D0, Write) == 0xD
    ensures CheckGpaOp(t, 0xFEE0_00E0, Read) == 0xE && CheckGpaOp(t, 0xFEE0_00E0, Write) == 0xE
    ensures CheckGpaOp(t, 0xFEE0_0280, Write) == -1
    ensures CheckGpaOp(t, 0xFEE0_0310, Read) == 0x31 && CheckGpaOp(t, 0xFEE0_0310, Write) == 0x31
    ensures CheckGpaOp(t, 0xFEE0_03F0, Read) == -1 && CheckGpaOp(t, 0xFEE0_03F0, Write) == -1
    ensures CheckMsrOp(t, start, end, 0x0, Read) == -1
    ensures CheckMsrOp(t, start, end, 0xFFFF_FFFF, Read) == -1
    ensures CheckMsrOp(t, start, end, 0x800, Read) == -1
    ensures CheckMsrOp(t, start, end, 0x803, Write) == -1
    ensures CheckMsrOp(t, start, end, 0x80B, Read) == -1
    ensures CheckMsrOp(t, start, end, 0x802, Read) == 0x2 && CheckMsrOp(t, start, end, 0x802, Write) == 0x2
    ensures CheckMsrOp(t, start, end, 0x809, Read) == 0x9 && CheckMsrOp(t, start, end, 0x809, Write) == -1
    ensures CheckMsrOp(t, start, end, 0x80C, Read) == 0xC && CheckMsrOp(t, start, end, 0x80C, Write) == -1
    ensures CheckMsrOp(t, start, end, 0x80D, Write) == 0xD
    ensures CheckMsrOp(t, start, end, 0x80E, Read) == 0xE && CheckMsrOp(t, start, end, 0x80E, Write) == 0xE
    ensures CheckMsrOp(t, start, end, 0x828, Write) == -1
    ensures CheckMsrOp(t, start, end, 0x831, Read) == 0x31 && CheckMsrOp(t, start, end, 0x831, Write) == 0x31
    ensures CheckMsrOp(t, start, end, 0x83F, Read) == -1 && CheckMsrOp(t, start, end, 0x83F, Write) == -1
  {
  }

  // Interrupt command register fields, Intel SDM Vol. 3A, section 10.6.1.

  const DELIVERY_FIXED: bv64 := 0
  const DELIVERY_INIT: bv64 := 5
  const SHORTHAND_SELF: bv64 := 1

  function IcrVector(icr: bv64): bv64 { icr & 0xFF }

  function IcrDeliveryMode(icr: bv64): bv64 { (icr >> 8) & 0x7 }

  /** Destination mode, bit 11: 0 is physical. */
  function IcrDestinationMode(icr: bv64): bv64 { (icr >> 11) & 0x1 }

  /** Level, bit 14: 1 is assert. */
  predicate IcrLevelAsserted(icr: bv64) { icr & 0x4000 != 0 }

  /** Trigger mode, bit 15: 0 is edge. */
  predicate IcrLevelTriggered(icr: bv64) { icr & 0x8000 != 0 }

  function IcrShorthand(icr: bv64): bv64 { (icr >> 18) & 0x3 }

  function IcrDestination(icr: bv64): bv64 { icr >> 32 }

  /** The ICR value `write_self_ipi` sends: (vec & 0xFF) | 0x44000. */
  function SelfIpiIcr(vec: bv64): (icr: bv64)
    ensures IcrVector(icr) == vec & 0xFF
    ensures IcrDeliveryMode(icr) == DELIVERY_FIXED
    ensures IcrDestinationMode(icr) == 0
    ensures IcrLevelAsserted(icr) && !IcrLevelTriggered(icr)
    ensures IcrShorthand(icr) == SHORTHAND_SELF
    ensures IcrDestination(icr) == 0
  {
    0x0 | (vec & 0xFF) | 0x44000
  }

  /** The ICR split into the two 32-bit registers of the xAPIC page. */
  function IcrLow(icr: bv64): bv64 { icr & 0xFFFF_FFFF }

  function IcrHigh(icr: bv64): bv64 { (icr & 0xFFFF_FFFF_0000_0000) >> 32 }

  /** Joining the two halves back, as `read_icr` does, gives the ICR again. */
  lemma IcrSplitJoin(icr: bv64)
    ensures IcrHigh(icr) < 0x1_0000_0000 && IcrLow(icr) < 0x1_0000_0000
    ensures (IcrHigh(icr) << 32) | IcrLow(icr) == icr
  {
  }

  /** The bank selector of a vector as the source computes it: (vec & 0xE0) >> 5. */
  function BankSelector(vec: bv64): (reg: bv64)
    ensures reg < 8
  {
    (vec & 0xE0) >> 5
  }

  /** The ISR/TMR bank of a vector, as an index. */
  function Bank(vec: bv64): (b: Index)
  {
    var reg := BankSelector(vec);
    if reg == 0 then 0 else if reg == 1 then 1 else if reg == 2 then 2 else if reg == 3 then 3
    else if reg == 4 then 4 else if reg == 5 then 5 else if reg == 6 then 6 else 7
  }

  /** The position of a vector's bit within its bank: vec & 0x1F. */
  function BitIndex(vec: bv64): (i: bv64)
    ensures i < 32 && i == vec % 32
  {
    vec & 0x1F
  }

  /** Whether any bit of `mask` is set in `x` (C++'s conversion of x & mask to bool). */
  predicate AnySet(x: bv64, mask: bv64)
  {
    x & mask != 0
  }

  /** The mask `1 << (vec & 0x1F)` tested against the bank. */
  function BitMask(vec: bv64): bv64
  {
    1 << BitIndex(vec)
  }

  /**
   * The bank switch of `level_triggered` and `in_service`: bank
   * (vec & 0xE0) >> 5 is tested against the mask 1 << (vec & 0x1F); the
   * switch's error branch is unreachable because the bank is below 8.
   */
  function VectorBitSet(banks: seq<bv64>, vec: bv64): (r: bool)
    requires |banks| == 8
    ensures r <==> AnySet(banks[Bank(vec)], BitMask(vec))
  {
    var reg := BankSelector(vec);
    var bit := BitMask(vec);
    if reg == 0 then AnySet(banks[0], bit)
    else if reg == 1 then AnySet(banks[1], bit)
    else if reg == 2 then AnySet(banks[2], bit)
    else if reg == 3 then AnySet(banks[3], bit)
    else if reg == 4 then AnySet(banks[4], bit)
    else if reg == 5 then AnySet(banks[5], bit)
    else if reg == 6 then AnySet(banks[6], bit)
    else if reg == 7 then AnySet(banks[7], bit)
    else false
  }

  /**
   * Vector v's bit is bit v % 32 of bank v / 32, the layout of the 256-bit
   * ISR and TMR in Intel SDM Vol. 3A, section 10.8.4.
   */
  lemma BankBitPlace(vec: bv64)
    ensures Bank(vec) == (vec & 0xFF) as int / 32
    ensures BitIndex(vec) as int == (vec & 0xFF) as int % 32
  {
  }

  /** The APIC operating mode, from IA32_APIC_BASE (Intel SDM Vol. 3A, section 10.12.5). */
  datatype ApicState = Disabled | Invalid | XApic | X2Apic

  datatype InitError = LapicNotPresent | X2ApicNotSupported | InvalidApicState

  /**
   * The controller selection both interrupt managers make on construction:
   * only an x2APIC that is present, supported and in x2APIC mode is accepted.
   */
  function SelectX2Apic(present: bool, x2apicSupported: bool, state: ApicState): (r: Result<(), InitError>)
    ensures r.Success? <==> present && x2apicSupported && state == X2Apic
    ensures !present ==> r == Failure(LapicNotPresent)
    ensures present && !x2apicSupported ==> r == Failure(X2ApicNotSupported)
  {
    if !present then Failure(LapicNotPresent)
    else if !x2apicSupported then Failure(X2ApicNotSupported)
    else match state
      case X2Apic => Success(())
      case _ => Failure(InvalidApicState)
  }
}
