/**
 * The legacy CPUID emulation of the extended exit handler: a map from a
 * (leaf, subleaf) key to the four registers a CPUID on that key returns, a
 * per-key access counter, and a fallback to the base CPUID handling for keys
 * the map does not hold.
 */
module CpuidEmulation {
  import opened Bits
  import opened Hardware

  /** A key as `create_key` builds it from leaf and subleaf (the key function is a parameter). */
  datatype EmuKey = EmuKey(value: bv64)

  /** The register values an emulated CPUID returns. */
  datatype Regs = Regs(rax: bv64, rbx: bv64, rcx: bv64, rdx: bv64)

  /** How often `key` was seen; a key never seen has count 0. */
  function Count(log: map<EmuKey, nat>, key: EmuKey): nat
  {
    if key in log then log[key] else 0
  }

  /** `m_cpuid_access_log[key]++`: the key's counter goes up by one and no other counter moves. */
  function LogAccess(log: map<EmuKey, nat>, key: EmuKey): (r: map<EmuKey, nat>)
    ensures Count(r, key) == Count(log, key) + 1
    ensures forall k :: k != key ==> Count(r, k) == Count(log, k)
    ensures r.Keys == log.Keys + {key}
  {
    log[key := Count(log, key) + 1]
  }

  /** Counting `n` accesses to one key raises its counter by exactly `n`. */
  function LogAccesses(log: map<EmuKey, nat>, key: EmuKey, n: nat): map<EmuKey, nat>
  {
    if n == 0 then log else LogAccess(LogAccesses(log, key, n - 1), key)
  }

  lemma {:induction false} LogAccessesCounts(log: map<EmuKey, nat>, key: EmuKey, n: nat)
    ensures Count(LogAccesses(log, key, n), key) == Count(log, key) + n
    ensures forall k :: k != key ==> Count(LogAccesses(log, key, n), k) == Count(log, k)
  {
    if n > 0 {
      LogAccessesCounts(log, key, n - 1);
    }
  }

  /** The guest registers after an emulated CPUID: the stored values, and RIP past the instruction. */
  function Emulated(save: SaveState, regs: Regs, instrLen: bv64): (s: SaveState)
    ensures s.rax == regs.rax && s.rbx == regs.rbx && s.rcx == regs.rcx && s.rdx == regs.rdx
    ensures s.rip == Add64(save.rip, instrLen)
    ensures s.(rax := save.rax, rbx := save.rbx, rcx := save.rcx, rdx := save.rdx, rip := save.rip) == save
  {
    save.(rax := regs.rax, rbx := regs.rbx, rcx := regs.rcx, rdx := regs.rdx, rip := Add64(save.rip, instrLen))
  }

  class CpuidEmulation {
    const cpu: Cpu
    /** `create_key`, which this model does not include. */
    const createKey: (bv64, bv64) -> bv64
    var accessLogEnabled: bool
    var accessLog: map<EmuKey, nat>
    /** The emulated keys; filling the map is code this model does not include. */
    var emuMap: map<EmuKey, Regs>

    constructor (cpu: Cpu, createKey: (bv64, bv64) -> bv64, emuMap: map<EmuKey, Regs>)
      ensures this.cpu == cpu && this.createKey == createKey && this.emuMap == emuMap
      ensures !accessLogEnabled && accessLog == map[]
    {
      this.cpu := cpu;
      this.createKey := createKey;
      this.emuMap := emuMap;
      accessLogEnabled := false;
      accessLog := map[];
    }

    method LogCpuidAccess(enable: bool)
      modifies this`accessLogEnabled
      ensures accessLogEnabled == enable
    {
      accessLogEnabled := enable;
    }

    method ClearCpuidAccessLog()
      modifies this`accessLog
      ensures accessLog == map[]
      ensures forall k :: Count(accessLog, k) == 0
    {
      accessLog := map[];
    }

    /**
     * A CPUID exit: the key of (RAX, RCX) is counted when logging is on;
     * an emulated key gets its stored registers and RIP advanced, any other
     * key goes to the base CPUID handling `fallback`. The guest is resumed
     * either way.
     */
    method HandleExitCpuid(fallback: SaveState -> SaveState)
      modifies this`accessLog, cpu`save
      ensures var key := EmuKey(createKey(old(cpu.save.rax), old(cpu.save.rcx)));
        && accessLog == (if accessLogEnabled then LogAccess(old(accessLog), key) else old(accessLog))
        && cpu.save == if key in emuMap then Emulated(old(cpu.save), emuMap[key], cpu.instrLen) else fallback(old(cpu.save))
    {
      var key := EmuKey(createKey(cpu.save.rax, cpu.save.rcx));
      if accessLogEnabled {
        accessLog := LogAccess(accessLog, key);
      }
      if key in emuMap {
        var regs := emuMap[key];
        cpu.save := cpu.save.(rax := regs.rax, rbx := regs.rbx, rcx := regs.rcx, rdx := regs.rdx);
        var _ := cpu.Advance();
      } else {
        cpu.save := fallback(cpu.save);
      }
    }
  }
}
