/**
 * The CPUID component: handler chains keyed by (leaf, subleaf), dispatched
 * on the guest's RAX and RCX. The first claiming handler's result is meant
 * to replace the low 32 bits of RAX, RBX, RCX and RDX unless it asks for the
 * write to be ignored (the source drops that write; see
 * `CpuidExitAsWritten`), and RIP is advanced unless it asks for that to be
 * skipped. A debug build can keep a bounded log of the results.
 */
module Cpuid {
  import opened Wrappers
  import opened Bits
  import opened Hardware
  import opened Dispatch
  import Log
  import Components

  /** The cap of the debug log. */
  const CPUID_LOG_MAX: nat := 10

  datatype Key = Key(leaf: bv64, subleaf: bv64)

  /** What a CPUID handler receives and may change: the result registers and the two suppress flags. */
  datatype Info = Info(rax: bv64, rbx: bv64, rcx: bv64, rdx: bv64, ignoreWrite: bool, ignoreAdvance: bool)

  /** What the processor's CPUID instruction returns in EAX, EBX, ECX and EDX. */
  datatype HwResult = HwResult(eax: bv32, ebx: bv32, ecx: bv32, edx: bv32)

  /** A log record: the leaf and subleaf queried, the four result registers, and whether it is the result written back. */
  datatype Record = Record(leaf: bv64, subleaf: bv64, rax: bv64, rbx: bv64, rcx: bv64, rdx: bv64, out: bool)

  /**
   * The hash of a (leaf, subleaf) key, given the hashes of its halves: an OR
   * of two comparisons, so it takes only the values 0 and 1 and every key
   * lands in one of two buckets. Lookups still compare keys for equality, so
   * this costs speed, not correctness.
   */
  function PairHash(h1: bv64, h2: bv64): (h: bv64)
    ensures h == 0 || h == 1
  {
    (if h1 & 0x0000_0000_FFFF_FFFF > 0 then 1 else 0) | (if h2 & 0xFFFF_FFFF_0000_0000 > 32 then 1 else 0)
  }

  /** The chain registered for `key`, or the empty chain. */
  function ChainOf(handlers: map<Key, seq<Delegate>>, key: Key): seq<Delegate>
  {
    if key in handlers then handlers[key] else []
  }

  /**
   * The info a chain starts from: the processor's own answer to CPUID, asked
   * with the low 32 bits of the guest's RAX, RBX, RCX and RDX, and both
   * suppress flags clear.
   */
  function Baseline(hw: (bv32, bv32, bv32, bv32) -> HwResult, save: SaveState): (info: Info)
    ensures !info.ignoreWrite && !info.ignoreAdvance
    ensures info.rax & 0xFFFF_FFFF_0000_0000 == 0 && info.rdx & 0xFFFF_FFFF_0000_0000 == 0
  {
    var r := hw(Low32(save.rax), Low32(save.rbx), Low32(save.rcx), Low32(save.rdx));
    WidenHigh(r.eax);
    WidenHigh(r.edx);
    Info(Widen(r.eax), Widen(r.ebx), Widen(r.ecx), Widen(r.edx), false, false)
  }

  /** The four result registers get the low 32 bits of `info` and keep their own high 32 bits. */
  function WriteBack(save: SaveState, info: Info): (s: SaveState)
  {
    save.(rax := SetBits(save.rax, 0xFFFF_FFFF, info.rax),
          rbx := SetBits(save.rbx, 0xFFFF_FFFF, info.rbx),
          rcx := SetBits(save.rcx, 0xFFFF_FFFF, info.rcx),
          rdx := SetBits(save.rdx, 0xFFFF_FFFF, info.rdx))
  }

  lemma WriteBackLow32(save: SaveState, info: Info)
    ensures var s := WriteBack(save, info);
      && s.rax & 0xFFFF_FFFF == info.rax & 0xFFFF_FFFF && s.rax & !0xFFFF_FFFF == save.rax & !0xFFFF_FFFF
      && s.rbx & 0xFFFF_FFFF == info.rbx & 0xFFFF_FFFF && s.rbx & !0xFFFF_FFFF == save.rbx & !0xFFFF_FFFF
      && s.rcx & 0xFFFF_FFFF == info.rcx & 0xFFFF_FFFF && s.rcx & !0xFFFF_FFFF == save.rcx & !0xFFFF_FFFF
      && s.rdx & 0xFFFF_FFFF == info.rdx & 0xFFFF_FFFF && s.rdx & !0xFFFF_FFFF == save.rdx & !0xFFFF_FFFF
      && s.(rax := save.rax, rbx := save.rbx, rcx := save.rcx, rdx := save.rdx) == save
  {
  }

  /**
   * The guest registers after a CPUID exit whose dispatch ended in `o`:
   * untouched if nobody claimed it; otherwise written back unless the
   * claimer set ignore-write, and RIP advanced unless it set ignore-advance.
   */
  function CpuidExit(save: SaveState, instrLen: bv64, o: Outcome<Info>): SaveState
  {
    if o.claimer.None? then save
    else
      var s := if o.info.ignoreWrite then save else WriteBack(save, o.info);
      if o.info.ignoreAdvance then s else s.(rip := Add64(s.rip, instrLen))
  }

  /** An exit nobody claims leaves every guest register as it was; a claimed one moves RIP exactly when advance is not suppressed. */
  lemma CpuidExitEffects(save: SaveState, instrLen: bv64, o: Outcome<Info>)
    ensures o.claimer.None? ==> CpuidExit(save, instrLen, o) == save
    ensures o.claimer.Some? && o.info.ignoreWrite && o.info.ignoreAdvance ==> CpuidExit(save, instrLen, o) == save
    ensures o.claimer.Some? ==> CpuidExit(save, instrLen, o).rip == if o.info.ignoreAdvance then save.rip else Add64(save.rip, instrLen)
    ensures o.claimer.Some? && !o.info.ignoreWrite ==>
      CpuidExit(save, instrLen, o).(rip := save.rip) == WriteBack(save, o.info)
  {
    if o.claimer.Some? && !o.info.ignoreWrite {
      var w := WriteBack(save, o.info);
      assert w.rip == save.rip;
      if o.info.ignoreAdvance {
        assert CpuidExit(save, instrLen, o) == w;
      } else {
        assert CpuidExit(save, instrLen, o) == w.(rip := Add64(w.rip, instrLen));
      }
    }
  }

  /**
   * The guest registers after a CPUID exit as the source writes it: the four
   * `set_bits` calls there return the combined value and their results are
   * dropped, so no result reaches the guest and only RIP can change.
   */
  function CpuidExitAsWritten(save: SaveState, instrLen: bv64, o: Outcome<Info>): SaveState
  {
    if o.claimer.None? || o.info.ignoreAdvance then save else save.(rip := Add64(save.rip, instrLen))
  }

  /**
   * As written, a claimer that asks for its result to be written back is
   * ignored: RAX..RDX keep their values, while the debug log still gains the
   * record of a written-back result.
   */
  lemma WriteBackDiscardedAsWritten(save: SaveState, instrLen: bv64, o: Outcome<Info>, log: seq<Record>, base: Info)
    ensures var s := CpuidExitAsWritten(save, instrLen, o);
      s.rax == save.rax && s.rbx == save.rbx && s.rcx == save.rcx && s.rdx == save.rdx
    ensures o.claimer.Some? && !o.info.ignoreWrite ==> |LogAsWritten(log, true, base, o)| == |log| + 2
  {
    if o.claimer.Some? && !o.info.ignoreAdvance {
      assert CpuidExitAsWritten(save, instrLen, o) == save.(rip := Add64(save.rip, instrLen));
    }
    if o.claimer.Some? && !o.info.ignoreWrite {
      assert LogAsWritten(log, true, base, o) == log + [RecordAsWritten(base, false)] + [RecordAsWritten(o.info, true)];
    }
  }

  /** A handler answering 0x1234 in RAX: a guest whose RAX was 0 still reads 0 as written, and 0x1234 under `CpuidExit`. */
  lemma WriteBackDiscardedExample(save: SaveState, instrLen: bv64)
    ensures var claimed := Outcome(Some(0), Info(0x1234, 0, 0, 0, false, true));
      && CpuidExitAsWritten(save.(rax := 0), instrLen, claimed).rax == 0
      && CpuidExit(save.(rax := 0), instrLen, claimed).rax == 0x1234
  {
    var claimed := Outcome(Some(0), Info(0x1234, 0, 0, 0, false, true));
    assert CpuidExit(save.(rax := 0), instrLen, claimed).rax == SetBits(0, 0xFFFF_FFFF, 0x1234);
  }

  /** The log record for the exit on `key`: the key, the result registers, and the direction. */
  function CpuidRecord(key: Key, info: Info, out: bool): (r: Record)
  {
    Record(key.leaf, key.subleaf, info.rax, info.rbx, info.rcx, info.rdx, out)
  }

  /** Records tell exits apart: a record determines the key, the result and whether it was written back. */
  lemma CpuidRecordInjective(k1: Key, i1: Info, o1: bool, k2: Key, i2: Info, o2: bool)
    requires CpuidRecord(k1, i1, o1) == CpuidRecord(k2, i2, o2)
    ensures k1 == k2 && o1 == o2
    ensures i1.rax == i2.rax && i1.rbx == i2.rbx && i1.rcx == i2.rcx && i1.rdx == i2.rdx
  {
  }

  /**
   * The record the source's five-element initialiser `{rax, rbx, rcx, rdx,
   * flag}` builds in the seven-field record: members are filled in
   * declaration order, so the result lands in leaf..rbx, the flag in rcx, and
   * `out` stays false.
   */
  function RecordAsWritten(info: Info, flag: bool): (r: Record)
  {
    Record(info.rax, info.rbx, info.rcx, info.rdx, if flag then 1 else 0, 0, false)
  }

  /** As written, no record is ever marked as the written-back result, and the key queried is not recorded. */
  lemma RecordAsWrittenMisfiled(info: Info)
    ensures !RecordAsWritten(info, true).out && !RecordAsWritten(info, false).out
    ensures RecordAsWritten(info, true).leaf == info.rax && RecordAsWritten(info, true).rcx == 1
    ensures CpuidRecord(Key(1, 0), Info(0xA, 0xB, 0xC, 0xD, false, false), true).out
    ensures RecordAsWritten(Info(0xA, 0xB, 0xC, 0xD, false, false), true)
      != CpuidRecord(Key(1, 0), Info(0xA, 0xB, 0xC, 0xD, false, false), true)
  {
  }

  /**
   * The log after one exit on `key` that reached a chain: with logging on, an
   * "in" record of the baseline before dispatch and an "out" record of the
   * claimer's result when it is written back, each through the bounded
   * `add_record`.
   */
  function LogAfter(log: seq<Record>, on: bool, key: Key, base: Info, o: Outcome<Info>): seq<Record>
  {
    if !on then log
    else
      var withIn := Log.AddRecord(log, CpuidRecord(key, base, false), CPUID_LOG_MAX);
      if o.claimer.Some? && !o.info.ignoreWrite then Log.AddRecord(withIn, CpuidRecord(key, o.info, true), CPUID_LOG_MAX)
      else withIn
  }

  /** The log never grows past its cap, and while there is room it gains exactly the in record and, on write-back, the out record. */
  lemma LogAfterBounded(log: seq<Record>, on: bool, key: Key, base: Info, o: Outcome<Info>)
    requires |log| <= CPUID_LOG_MAX
    ensures |LogAfter(log, on, key, base, o)| <= CPUID_LOG_MAX
    ensures on && |log| + 2 <= CPUID_LOG_MAX ==>
      LogAfter(log, on, key, base, o) == log + [CpuidRecord(key, base, false)]
        + (if o.claimer.Some? && !o.info.ignoreWrite then [CpuidRecord(key, o.info, true)] else [])
    ensures !on ==> LogAfter(log, on, key, base, o) == log
  {
    if on {
      var withIn := Log.AddRecord(log, CpuidRecord(key, base, false), CPUID_LOG_MAX);
      Log.AddRecordBounded(log, CpuidRecord(key, base, false), CPUID_LOG_MAX);
      Log.AddRecordBounded(withIn, CpuidRecord(key, o.info, true), CPUID_LOG_MAX);
    }
  }

  /** The log as the source keeps it: `push_back` with no cap, using the misfilled records. */
  function LogAsWritten(log: seq<Record>, on: bool, base: Info, o: Outcome<Info>): seq<Record>
  {
    if !on then log
    else
      var withIn := log + [RecordAsWritten(base, false)];
      if o.claimer.Some? && !o.info.ignoreWrite then withIn + [RecordAsWritten(o.info, true)] else withIn
  }

  /** As written, every exit with logging on grows the log, so a full log goes past the cap on the next exit. */
  lemma LogAsWrittenUnbounded(log: seq<Record>, base: Info, o: Outcome<Info>)
    requires |log| == CPUID_LOG_MAX
    ensures |LogAsWritten(log, true, base, o)| > CPUID_LOG_MAX
    ensures |LogAfter(log, true, Key(0, 0), base, o)| == CPUID_LOG_MAX
  {
  }

  class Cpuid {
    const cpu: Cpu
    /** The base exit handler the component registers its `HandleCpuid` with. */
    const exitHandler: Components.Component
    /** Whether this is a debug build (`!ndebug`). */
    const debugBuild: bool
    var handlers: map<Key, seq<Delegate>>
    var logEnabled: bool
    var log: seq<Record>

    /** Logging starts disabled, with no handler and an empty log; CPUID exits now reach `HandleCpuid`. */
    constructor (cpu: Cpu, exitHandler: Components.Component, debugBuild: bool)
      modifies exitHandler
      ensures this.cpu == cpu && this.exitHandler == exitHandler && this.debugBuild == debugBuild
      ensures handlers == map[] && !logEnabled && log == []
      ensures exitHandler.calls == old(exitHandler.calls) + [Components.AddKeyedHandler([EXIT_REASON_CPUID], CpuidExitHandler)]
    {
      this.cpu := cpu;
      this.exitHandler := exitHandler;
      this.debugBuild := debugBuild;
      handlers := map[];
      logEnabled := false;
      log := [];
      new;
      exitHandler.Record(Components.AddKeyedHandler([EXIT_REASON_CPUID], CpuidExitHandler));
    }

    /** Prepends `d` to the chain of exactly (leaf, subleaf); every other key keeps its chain. */
    method AddCpuidHandler(leaf: bv64, subleaf: bv64, d: Delegate)
      modifies this`handlers
      ensures handlers == old(handlers)[Key(leaf, subleaf) := [d] + ChainOf(old(handlers), Key(leaf, subleaf))]
      ensures forall k :: k != Key(leaf, subleaf) ==> ChainOf(handlers, k) == ChainOf(old(handlers), k)
    {
      handlers := handlers[Key(leaf, subleaf) := [d] + ChainOf(handlers, Key(leaf, subleaf))];
    }

    method EnableLog()
      modifies this`logEnabled
      ensures logEnabled
    {
      logEnabled := true;
    }

    method DisableLog()
      modifies this`logEnabled
      ensures !logEnabled
    {
      logEnabled := false;
    }

    /**
     * A CPUID exit. The key is (guest RAX, guest RCX); with no chain for it
     * the exit is declined and nothing changes. Otherwise the chain is walked
     * from the hardware baseline, the first claimer's result is applied as
     * `CpuidExit` says, and the result of the exit is whether anybody claimed
     * it.
     */
    method HandleCpuid(hw: (bv32, bv32, bv32, bv32) -> HwResult, run: (Delegate, Info) -> Step<Info>)
      returns (handled: bool)
      modifies cpu`save, this`log
      ensures var key := Key(old(cpu.save.rax), old(cpu.save.rcx));
        var base := Baseline(hw, old(cpu.save));
        var o := if key in handlers then Walk(handlers[key], run, base) else Outcome(None, base);
        && handled == o.claimer.Some?
        && cpu.save == CpuidExit(old(cpu.save), cpu.instrLen, o)
        && log == if key in handlers then LogAfter(old(log), debugBuild && logEnabled, key, base, o) else old(log)
    {
      var key := Key(cpu.save.rax, cpu.save.rcx);
      if key !in handlers {
        return false;
      }
      var info := Baseline(hw, cpu.save);
      if debugBuild && logEnabled {
        log := Log.AddRecord(log, CpuidRecord(key, info, false), CPUID_LOG_MAX);
      }
      var claimed;
      claimed, info := RunChain(handlers[key], run, info);
      if !claimed {
        return false;
      }
      if !info.ignoreWrite {
        cpu.save := WriteBack(cpu.save, info);
        if debugBuild && logEnabled {
          log := Log.AddRecord(log, CpuidRecord(key, info, true), CPUID_LOG_MAX);
        }
      }
      if !info.ignoreAdvance {
        handled := cpu.Advance();
        return;
      }
      return true;
    }
  }
}
