/**
 * A VT-d context entry (Intel VT-d Architecture Specification, section 9.3):
 * 128 bits held as two 64-bit words, with accessors for the present bit, the
 * fault-processing-disable bit, the translation type, the second-level
 * page-table pointer, the address width and the domain identifier.
 *
 * The accessors that read are functions of the entry's value; the ones that
 * write replace one word of an entry held in place.
 */
module ContextEntry {
  import opened Bits

  /** `data[0]` and `data[1]`. */
  datatype Entry = Entry(data0: bv64, data1: bv64)

  /** A default-constructed entry is all zero. */
  const DEFAULT: Entry := Entry(0, 0)

  // Field layout: mask and position within its word.
  const P_MASK: bv64 := 0x1
  const FPD_MASK: bv64 := 0x2
  const T_MASK: bv64 := 0xC
  const T_FROM: bv64 := 2
  const SLPTPTR_MASK: bv64 := 0xFFFF_FFFF_F000
  const SLPTPTR_FROM: bv64 := 12
  const AW_MASK: bv64 := 0x7
  const DID_MASK: bv64 := 0xFF_FF00
  const DID_FROM: bv64 := 8

  /** is_bit_set(x, from) */
  predicate BitSet(x: bv64, bit: bv64)
  {
    x & bit != 0
  }

  // Reads (data[0]).

  predicate PIsEnabled(e: Entry) { BitSet(e.data0, P_MASK) }
  predicate FpdIsEnabled(e: Entry) { BitSet(e.data0, FPD_MASK) }
  function TGet(e: Entry): bv64 { GetBits(e.data0, T_MASK) >> T_FROM }
  function SlptptrGet(e: Entry): bv64 { GetBits(e.data0, SLPTPTR_MASK) >> SLPTPTR_FROM }

  // Reads (data[1]).

  function AwGet(e: Entry): bv64 { GetBits(e.data1, AW_MASK) }
  function DidGet(e: Entry): bv64 { GetBits(e.data1, DID_MASK) >> DID_FROM }

  // The value each write leaves (set_bit, clear_bit and set_bits on one word).

  function PEnable(e: Entry): Entry { e.(data0 := e.data0 | P_MASK) }
  function PDisable(e: Entry): Entry { e.(data0 := e.data0 & !P_MASK) }
  function FpdEnable(e: Entry): Entry { e.(data0 := e.data0 | FPD_MASK) }
  function FpdDisable(e: Entry): Entry { e.(data0 := e.data0 & !FPD_MASK) }
  function TSet(e: Entry, v: bv64): Entry { e.(data0 := SetBits(e.data0, T_MASK, v << T_FROM)) }
  function SlptptrSet(e: Entry, v: bv64): Entry { e.(data0 := SetBits(e.data0, SLPTPTR_MASK, v << SLPTPTR_FROM)) }
  function AwSet(e: Entry, v: bv64): Entry { e.(data1 := SetBits(e.data1, AW_MASK, v)) }
  function DidSet(e: Entry, v: bv64): Entry { e.(data1 := SetBits(e.data1, DID_MASK, v << DID_FROM)) }

  /** A default entry is not present, has fault processing enabled, and every field reads 0. */
  lemma DefaultIsZero()
    ensures !PIsEnabled(DEFAULT) && !FpdIsEnabled(DEFAULT)
    ensures TGet(DEFAULT) == 0 && SlptptrGet(DEFAULT) == 0 && AwGet(DEFAULT) == 0 && DidGet(DEFAULT) == 0
  {
  }

  // One lemma per writer: the solver handles each writer's facts together
  // cheaply, but not several writers' facts at once.

  /** Enabling the present bit is seen by `is_enabled`, touches only bit 0 of `data[0]`, and leaves FPD as it was. */
  lemma PEnableEffect(e: Entry)
    ensures PIsEnabled(PEnable(e))
    ensures PEnable(e).data0 & !P_MASK == e.data0 & !P_MASK && PEnable(e).data1 == e.data1
    ensures FpdIsEnabled(PEnable(e)) == FpdIsEnabled(e)
  {
  }

  lemma PDisableEffect(e: Entry)
    ensures !PIsEnabled(PDisable(e))
    ensures PDisable(e).data0 & !P_MASK == e.data0 & !P_MASK && PDisable(e).data1 == e.data1
    ensures FpdIsEnabled(PDisable(e)) == FpdIsEnabled(e)
  {
  }

  /** The same for the fault-processing-disable bit (bit 1), which leaves the present bit as it was. */
  lemma FpdEnableEffect(e: Entry)
    ensures FpdIsEnabled(FpdEnable(e))
    ensures FpdEnable(e).data0 & !FPD_MASK == e.data0 & !FPD_MASK && FpdEnable(e).data1 == e.data1
    ensures PIsEnabled(FpdEnable(e)) == PIsEnabled(e)
  {
  }

  lemma FpdDisableEffect(e: Entry)
    ensures !FpdIsEnabled(FpdDisable(e))
    ensures FpdDisable(e).data0 & !FPD_MASK == e.data0 & !FPD_MASK && FpdDisable(e).data1 == e.data1
    ensures PIsEnabled(FpdDisable(e)) == PIsEnabled(e)
  {
  }

  /** The translation type reads back as the 2 bits written; nothing outside bits 3:2 of `data[0]` changes. */
  lemma TSetEffect(e: Entry, v: bv64)
    ensures TGet(TSet(e, v)) == v & 0x3
    ensures TSet(e, v).data0 & !T_MASK == e.data0 & !T_MASK && TSet(e, v).data1 == e.data1
  {
  }

  /** The second-level page-table pointer reads back as the 36 bits written; nothing outside bits 47:12 of `data[0]` changes. */
  lemma SlptptrSetEffect(e: Entry, v: bv64)
    ensures SlptptrGet(SlptptrSet(e, v)) == v & 0xF_FFFF_FFFF
    ensures SlptptrSet(e, v).data0 & !SLPTPTR_MASK == e.data0 & !SLPTPTR_MASK && SlptptrSet(e, v).data1 == e.data1
  {
  }

  /** The address width reads back as the 3 bits written; nothing outside bits 2:0 of `data[1]` changes. */
  lemma AwSetEffect(e: Entry, v: bv64)
    ensures AwGet(AwSet(e, v)) == v & 0x7
    ensures AwSet(e, v).data1 & !AW_MASK == e.data1 & !AW_MASK && AwSet(e, v).data0 == e.data0
  {
  }

  /** The domain identifier reads back as the 16 bits written; nothing outside bits 23:8 of `data[1]` changes. */
  lemma DidSetEffect(e: Entry, v: bv64)
    ensures DidGet(DidSet(e, v)) == v & 0xFFFF
    ensures DidSet(e, v).data1 & !DID_MASK == e.data1 & !DID_MASK && DidSet(e, v).data0 == e.data0
  {
  }

  /** Writing the address width leaves the domain identifier alone, and the other way round. */
  lemma AwDidIndependent(e: Entry, v: bv64)
    ensures DidGet(AwSet(e, v)) == DidGet(e)
    ensures AwGet(DidSet(e, v)) == AwGet(e)
  {
    SetBitsOther(e.data1, AW_MASK, v, DID_MASK);
    SetBitsOther(e.data1, DID_MASK, v << DID_FROM, AW_MASK);
  }

  /** The fields of `data[0]` do not disturb each other. */
  lemma Data0FieldsIndependent(e: Entry, v: bv64)
    ensures PIsEnabled(TSet(e, v)) == PIsEnabled(e) && FpdIsEnabled(TSet(e, v)) == FpdIsEnabled(e)
    ensures SlptptrGet(TSet(e, v)) == SlptptrGet(e)
    ensures TGet(SlptptrSet(e, v)) == TGet(e)
  {
    SetBitsOther(e.data0, T_MASK, v << T_FROM, P_MASK);
    SetBitsOther(e.data0, T_MASK, v << T_FROM, FPD_MASK);
    SetBitsOther(e.data0, T_MASK, v << T_FROM, SLPTPTR_MASK);
    SetBitsOther(e.data0, SLPTPTR_MASK, v << SLPTPTR_FROM, T_MASK);
  }

  /** An entry held in place: `data[2]`, whose writers overwrite one word. */
  class ContextEntry {
    const data: array<bv64>

    ghost predicate Valid()
    {
      data.Length == 2
    }

    function Value(): Entry
      requires Valid()
      reads data
    {
      Entry(data[0], data[1])
    }

    constructor ()
      ensures Valid() && fresh(data) && Value() == DEFAULT
    {
      data := new bv64[2](_ => 0);
    }

    method EnableP()
      requires Valid()
      modifies data
      ensures Value() == PEnable(old(Value()))
    {
      data[0] := PEnable(Value()).data0;
    }

    method DisableP()
      requires Valid()
      modifies data
      ensures Value() == PDisable(old(Value()))
    {
      data[0] := PDisable(Value()).data0;
    }

    method EnableFpd()
      requires Valid()
      modifies data
      ensures Value() == FpdEnable(old(Value()))
    {
      data[0] := FpdEnable(Value()).data0;
    }

    method DisableFpd()
      requires Valid()
      modifies data
      ensures Value() == FpdDisable(old(Value()))
    {
      data[0] := FpdDisable(Value()).data0;
    }

    method SetT(v: bv64)
      requires Valid()
      modifies data
      ensures Value() == TSet(old(Value()), v)
    {
      data[0] := TSet(Value(), v).data0;
    }

    method SetSlptptr(v: bv64)
      requires Valid()
      modifies data
      ensures Value() == SlptptrSet(old(Value()), v)
    {
      data[0] := SlptptrSet(Value(), v).data0;
    }

    method SetAw(v: bv64)
      requires Valid()
      modifies data
      ensures Value() == AwSet(old(Value()), v)
    {
      data[1] := AwSet(Value(), v).data1;
    }

    method SetDid(v: bv64)
      requires Valid()
      modifies data
      ensures Value() == DidSet(old(Value()), v)
    {
      data[1] := DidSet(Value(), v).data1;
    }
  }
}
