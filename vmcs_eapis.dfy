/**
 * The extended VMCS: VPID, the I/O bitmaps and the VMX-preemption timer.
 * VMCS fields and controls are plain fields of the class; the timer value
 * field is 32 bits wide (Intel SDM Vol. 3C, section 24.4.2), so what is
 * stored there is taken modulo 2^32.
 */
module VmcsEapis {
  import opened Wrappers
  import opened IoBitmap

  const TIMER_FIELD_LIMIT: nat := 0x1_0000_0000
  const UINT64_LIMIT: nat := 0x1_0000_0000_0000_0000

  function Pow2(n: nat): (r: nat)
    ensures r >= 1
  {
    if n == 0 then 1 else 2 * Pow2(n - 1)
  }

  /** `enable_preemption_timer` has not run, or the processor does not count the timer down. */
  datatype PreemptionError = PreemptionTimerNotEnabled

  /** What `set_preemption_timer(val)` leaves in the 32-bit timer field. */
  function StoredTicks(val: nat, multiplier: nat): (s: nat)
    requires multiplier >= 1
    ensures s < TIMER_FIELD_LIMIT
  {
    (val / multiplier) % TIMER_FIELD_LIMIT
  }

  /** Euclid's division: `val` is `multiplier` times its quotient plus a remainder below `multiplier`. */
  lemma DivisionBounds(val: nat, multiplier: nat)
    requires multiplier >= 1
    ensures multiplier * (val / multiplier) <= val < multiplier * (val / multiplier) + multiplier
    ensures val - multiplier * (val / multiplier) == val % multiplier
  {
  }

  /**
   * Reading back a timer set to `val` TSC ticks gives `val` rounded down to
   * a multiple of the multiplier, as long as the quotient fits the 32-bit
   * field: at most `val`, and less than one multiplier below it.
   */
  lemma GetAfterSet(val: nat, multiplier: nat)
    requires multiplier >= 1 && val < multiplier * TIMER_FIELD_LIMIT
    ensures var got := multiplier * StoredTicks(val, multiplier);
      got <= val && val < got + multiplier && got == val - val % multiplier
  {
    DivisionBounds(val, multiplier);
    QuotientFits(val, multiplier);
    assert StoredTicks(val, multiplier) == val / multiplier;
  }

  /** A request below `multiplier * 2^32` has a quotient that fits the 32-bit field. */
  lemma QuotientFits(val: nat, multiplier: nat)
    requires multiplier >= 1 && val < multiplier * TIMER_FIELD_LIMIT
    ensures val / multiplier < TIMER_FIELD_LIMIT
  {
    DivisionBounds(val, multiplier);
    if val / multiplier >= TIMER_FIELD_LIMIT {
      MulMonotone(multiplier, TIMER_FIELD_LIMIT, val / multiplier);
    }
  }

  lemma MulMonotone(m: nat, a: nat, b: nat)
    requires a <= b
    ensures m * a <= m * b
  {
    assert m * b == m * a + m * (b - a);
  }

  /** A request of 2^32 ticks with a multiplier of 1 does not fit the field and leaves 0: the timer expires at once. */
  lemma SetTruncates()
    ensures StoredTicks(TIMER_FIELD_LIMIT, 1) == 0
  {
  }

  class VmcsEapis {
    // VPID: the identifier this VMCS was given, and the VMCS field and control.
    const vpid: nat
    var vpidEnabled: bool
    var vpidField: nat

    // I/O bitmaps and the "use I/O bitmaps" control.
    const ioBitmapA: array<bv8>
    const ioBitmapB: array<bv8>
    var useIoBitmaps: bool

    // Preemption timer: the two controls, the timer value field and the multiplier.
    var activatePreemptionTimer: bool
    var savePreemptionTimer: bool
    var preemptionTimerValue: nat
    var preemptionMultiplier: nat

    ghost predicate Valid()
    {
      ioBitmapA.Length == BITMAP_SIZE && ioBitmapB.Length == BITMAP_SIZE && ioBitmapA != ioBitmapB
    }

    /** Whether a guest access to `port` exits. */
    predicate Trapped(p: Port)
      requires Valid()
      reads ioBitmapA, ioBitmapB
    {
      IoBitmap.Trapped(ioBitmapA[..], ioBitmapB[..], p)
    }

    /** A new VMCS: its VPID allocated, VPID off, both bitmaps zero (nothing trapped), no timer multiplier. */
    constructor (vpid: nat)
      ensures Valid() && fresh(ioBitmapA) && fresh(ioBitmapB)
      ensures this.vpid == vpid && !vpidEnabled && vpidField == 0
      ensures forall q: Port :: !Trapped(q)
      ensures !useIoBitmaps && !activatePreemptionTimer && !savePreemptionTimer
      ensures preemptionTimerValue == 0 && preemptionMultiplier == 0
    {
      this.vpid := vpid;
      vpidEnabled := false;
      vpidField := 0;
      ioBitmapA := new bv8[BITMAP_SIZE](_ => 0);
      ioBitmapB := new bv8[BITMAP_SIZE](_ => 0);
      useIoBitmaps := false;
      activatePreemptionTimer := false;
      savePreemptionTimer := false;
      preemptionTimerValue := 0;
      preemptionMultiplier := 0;
      new;
      FilledBitmaps(ioBitmapA[..], ioBitmapB[..], 0);
    }

    /** VPID on, with this VMCS's own identifier: enabling again does not use up another one. */
    method EnableVpid()
      modifies this`vpidEnabled, this`vpidField
      ensures vpidEnabled && vpidField == vpid
    {
      vpidEnabled := true;
      vpidField := vpid;
    }

    /** VPID off, and the VPID field 0. */
    method DisableVpid()
      modifies this`vpidEnabled, this`vpidField
      ensures !vpidEnabled && vpidField == 0
    {
      vpidEnabled := false;
      vpidField := 0;
    }

    method EnableIoBitmaps()
      modifies this`useIoBitmaps
      ensures useIoBitmaps
    {
      useIoBitmaps := true;
    }

    method DisableIoBitmaps()
      modifies this`useIoBitmaps
      ensures !useIoBitmaps
    {
      useIoBitmaps := false;
    }

    /** Set (trap) or clear (pass through) the bit of one port; every other port keeps its setting. */
    method SetIoAccess(port: Port, trap: bool)
      requires Valid()
      modifies ioBitmapA, ioBitmapB
      ensures (ioBitmapA[..], ioBitmapB[..]) == SetPort(old(ioBitmapA[..]), old(ioBitmapB[..]), port, trap)
      ensures forall q: Port :: Trapped(q) == if q == port then trap else old(Trapped(q))
    {
      var r := SetPort(ioBitmapA[..], ioBitmapB[..], port, trap);
      SetPortEffect(ioBitmapA[..], ioBitmapB[..], port, trap);
      var i := ByteOf(port);
      if InB(port) {
        ioBitmapB[i] := r.1[i];
      } else {
        ioBitmapA[i] := r.0[i];
      }
      assert ioBitmapA[..] == r.0 && ioBitmapB[..] == r.1;
    }

    /** An access to `port` exits from now on. */
    method TrapOnIoAccess(port: Port)
      requires Valid()
      modifies ioBitmapA, ioBitmapB
      ensures forall q: Port :: Trapped(q) == (q == port || old(Trapped(q)))
    {
      SetIoAccess(port, true);
    }

    /** An access to `port` goes to the device from now on. */
    method PassThroughIoAccess(port: Port)
      requires Valid()
      modifies ioBitmapA, ioBitmapB
      ensures forall q: Port :: Trapped(q) == (q != port && old(Trapped(q)))
    {
      SetIoAccess(port, false);
    }

    /** Every byte of both bitmaps set to `fill`. */
    method Fill(fill: bv8)
      requires Valid()
      modifies ioBitmapA, ioBitmapB
      ensures forall i :: 0 <= i < BITMAP_SIZE ==> ioBitmapA[i] == fill && ioBitmapB[i] == fill
    {
      forall i | 0 <= i < ioBitmapA.Length {
        ioBitmapA[i] := fill;
      }
      forall i | 0 <= i < ioBitmapB.Length {
        ioBitmapB[i] := fill;
      }
    }

    method TrapOnAllIoAccesses()
      requires Valid()
      modifies ioBitmapA, ioBitmapB
      ensures forall q: Port :: Trapped(q)
    {
      Fill(0xFF);
      FilledBitmaps(ioBitmapA[..], ioBitmapB[..], 0xFF);
    }

    method PassThroughAllIoAccesses()
      requires Valid()
      modifies ioBitmapA, ioBitmapB
      ensures forall q: Port :: !Trapped(q)
    {
      Fill(0);
      FilledBitmaps(ioBitmapA[..], ioBitmapB[..], 0);
    }

    /** Trap everything, then pass each listed port through: exactly the listed ports reach the device. */
    method WhitelistIoAccess(ports: seq<Port>)
      requires Valid()
      modifies ioBitmapA, ioBitmapB
      ensures forall q: Port :: Trapped(q) == (q !in ports)
    {
      TrapOnAllIoAccesses();
      for i := 0 to |ports|
        invariant forall q: Port :: Trapped(q) == (q !in ports[..i])
      {
        PassThroughIoAccess(ports[i]);
        assert ports[..i + 1] == ports[..i] + [ports[i]];
      }
      assert ports[..|ports|] == ports;
    }

    /** Pass everything through, then trap each listed port: exactly the listed ports exit. */
    method BlacklistIoAccess(ports: seq<Port>)
      requires Valid()
      modifies ioBitmapA, ioBitmapB
      ensures forall q: Port :: Trapped(q) == (q in ports)
    {
      PassThroughAllIoAccesses();
      for i := 0 to |ports|
        invariant forall q: Port :: Trapped(q) == (q in ports[..i])
      {
        TrapOnIoAccess(ports[i]);
        assert ports[..i + 1] == ports[..i] + [ports[i]];
      }
      assert ports[..|ports|] == ports;
    }

    /**
     * Both timer controls on, the multiplier 2^bit where `bit` is the rate at
     * which the timer counts down relative to the TSC (bits 4:0 of
     * IA32_VMX_MISC, a parameter here), and the timer cleared.
     */
    method EnablePreemptionTimer(decrementBit: nat)
      requires decrementBit < 32
      modifies this`activatePreemptionTimer, this`savePreemptionTimer, this`preemptionMultiplier, this`preemptionTimerValue
      ensures activatePreemptionTimer && savePreemptionTimer
      ensures preemptionMultiplier == Pow2(decrementBit) && preemptionTimerValue == 0
    {
      activatePreemptionTimer := true;
      savePreemptionTimer := true;
      preemptionMultiplier := Pow2(decrementBit);
      ClearPreemptionTimer();
    }

    /** Both timer controls off and the timer cleared; the multiplier stays, so a cleared-before-enable timer stays as it was. */
    method DisablePreemptionTimer()
      modifies this`activatePreemptionTimer, this`savePreemptionTimer, this`preemptionTimerValue
      ensures !activatePreemptionTimer && !savePreemptionTimer
      ensures preemptionTimerValue == if preemptionMultiplier == 0 then old(preemptionTimerValue) else 0
    {
      activatePreemptionTimer := false;
      savePreemptionTimer := false;
      ClearPreemptionTimer();
    }

    /** Set the timer to `val` TSC ticks: the field gets `val / multiplier`, truncated to 32 bits; an error before the timer is enabled. */
    method SetPreemptionTimer(val: nat) returns (r: Result<(), PreemptionError>)
      requires val < UINT64_LIMIT
      modifies this`preemptionTimerValue
      ensures preemptionMultiplier == 0 <==> r.Failure?
      ensures preemptionMultiplier == 0 ==> preemptionTimerValue == old(preemptionTimerValue)
      ensures preemptionMultiplier != 0 ==> preemptionTimerValue == StoredTicks(val, preemptionMultiplier)
    {
      if preemptionMultiplier == 0 {
        return Failure(PreemptionTimerNotEnabled);
      }
      preemptionTimerValue := StoredTicks(val, preemptionMultiplier);
      r := Success(());
    }

    /** The timer in TSC ticks: the field times the multiplier; an error before the timer is enabled. */
    method GetPreemptionTimer() returns (r: Result<nat, PreemptionError>)
      ensures preemptionMultiplier == 0 ==> r == Failure(PreemptionTimerNotEnabled)
      ensures preemptionMultiplier != 0 ==> r == Success(preemptionMultiplier * preemptionTimerValue)
    {
      if preemptionMultiplier == 0 {
        return Failure(PreemptionTimerNotEnabled);
      }
      r := Success(preemptionMultiplier * preemptionTimerValue);
    }

    /** The timer value 0, so no preemption exit follows; nothing happens while the multiplier is 0. */
    method ClearPreemptionTimer()
      modifies this`preemptionTimerValue
      ensures preemptionTimerValue == if preemptionMultiplier == 0 then old(preemptionTimerValue) else 0
    {
      if preemptionMultiplier == 0 {
        return;
      }
      preemptionTimerValue := 0;
    }
  }
}
