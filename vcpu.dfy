/**
 * The extended vCPU: like the facade, it creates each exit-handler component
 * on first use, and it also registers every component it creates under its
 * basic exit reason in a handler table. At construction it creates the
 * components for a list of exit reasons, by default all six it can serve;
 * a reason it cannot serve is an error.
 */
module Vcpu {
  import opened Wrappers
  import opened Dispatch
  import opened Components

  const PAGE_SIZE: nat := 4096

  // Basic exit reasons, Intel SDM Vol. 3D, appendix C.
  const CPUID: nat := 10
  const CONTROL_REGISTER_ACCESSES: nat := 28
  const MOV_DR: nat := 29
  const RDMSR: nat := 31
  const WRMSR: nat := 32
  const MONITOR_TRAP_FLAG: nat := 37

  /** The exit reasons the vCPU has a component for, in the order of the default list. */
  const AVAILABLE_HANDLERS: seq<nat> := [CONTROL_REGISTER_ACCESSES, CPUID, MONITOR_TRAP_FLAG, MOV_DR, RDMSR, WRMSR]

  datatype InitError = HandlerUnavailable(reason: nat)

  /** The first reason in `needed` that no component serves, if there is one. */
  function FirstUnavailable(needed: seq<nat>): (r: Option<nat>)
    ensures r.None? <==> forall i :: 0 <= i < |needed| ==> needed[i] in AVAILABLE_HANDLERS
    ensures r.Some? ==> r.value in needed && r.value !in AVAILABLE_HANDLERS
  {
    if needed == [] then None
    else if needed[0] !in AVAILABLE_HANDLERS then Some(needed[0])
    else FirstUnavailable(needed[1..])
  }

  /** Going through `xs + ys` in order fails at the first failure of `xs`, or else at the first of `ys`. */
  lemma {:induction false} FirstUnavailableConcat(xs: seq<nat>, ys: seq<nat>)
    ensures FirstUnavailable(xs + ys) == if FirstUnavailable(xs).Some? then FirstUnavailable(xs) else FirstUnavailable(ys)
  {
    if xs == [] {
      assert xs + ys == ys;
    } else {
      assert (xs + ys)[1..] == xs[1..] + ys;
      FirstUnavailableConcat(xs[1..], ys);
    }
  }

  /** The default list is served in full. */
  lemma DefaultListServed()
    ensures FirstUnavailable(AVAILABLE_HANDLERS) == None
  {
  }

  /** The reasons of a list, as a set. */
  function Reasons(needed: seq<nat>): set<nat>
  {
    set x | x in needed
  }

  /** A prefix with every reason served, followed by one that is served, is a longer such prefix. */
  lemma PrefixGrows(needed: seq<nat>, i: nat)
    requires i < |needed| && FirstUnavailable(needed[..i]) == None && needed[i] in AVAILABLE_HANDLERS
    ensures FirstUnavailable(needed[..i + 1]) == None
    ensures Reasons(needed[..i + 1]) == Reasons(needed[..i]) + {needed[i]}
  {
    assert needed[..i + 1] == needed[..i] + [needed[i]];
    FirstUnavailableConcat(needed[..i], [needed[i]]);
  }

  /** A prefix with every reason served, followed by one that is not: that one is the list's first unavailable reason. */
  lemma PrefixThenFailure(needed: seq<nat>, i: nat)
    requires i < |needed| && FirstUnavailable(needed[..i]) == None && needed[i] !in AVAILABLE_HANDLERS
    ensures FirstUnavailable(needed) == Some(needed[i])
  {
    assert needed[..i + 1] == needed[..i] + [needed[i]];
    FirstUnavailableConcat(needed[..i], [needed[i]]);
    assert needed[..i + 1] + needed[i + 1..] == needed;
    FirstUnavailableConcat(needed[..i + 1], needed[i + 1..]);
  }

  class Vcpu {
    var controlRegister: Component?
    var cpuid: Component?
    var monitorTrap: Component?
    var movDr: Component?
    var rdmsr: Component?
    var wrmsr: Component?
    var vpid: Component?

    /** The handler table: basic exit reason to component. */
    var handlers: map<nat, Component>

    /** The control-register exits already switched on: `m_is_rdcr3_enabled` and its three siblings, as a set. */
    var crExitingEnabled: set<CrAccess>

    var msrBitmap: array?<bv8>
    var useMsrBitmap: bool
    var msrBitmapAddress: array?<bv8>

    /** `c` is registered under `reason` exactly when it exists. */
    ghost predicate Registered(reason: nat, c: Component?)
      reads this
    {
      (reason in handlers <==> c != null) && (c != null ==> handlers[reason] == c)
    }

    /**
     * Every existing exit component is in the table under its reason and
     * nothing else is; the MSR bitmap, once allocated, is one page published
     * in the VMCS, and both MSR components hold that same bitmap; a
     * control-register exit is only switched on through an existing
     * control-register component.
     */
    ghost predicate Valid()
      reads this
    {
      && Registered(CONTROL_REGISTER_ACCESSES, controlRegister) && Registered(CPUID, cpuid)
      && Registered(MONITOR_TRAP_FLAG, monitorTrap) && Registered(MOV_DR, movDr)
      && Registered(RDMSR, rdmsr) && Registered(WRMSR, wrmsr)
      && (forall r :: r in handlers ==> r in AVAILABLE_HANDLERS)
      && (msrBitmap != null ==> msrBitmap.Length == PAGE_SIZE && useMsrBitmap && msrBitmapAddress == msrBitmap)
      && (rdmsr != null ==> msrBitmap != null && rdmsr.msrBitmap == msrBitmap)
      && (wrmsr != null ==> msrBitmap != null && wrmsr.msrBitmap == msrBitmap)
      && (crExitingEnabled != {} ==> controlRegister != null)
    }

    /** No component, no bitmap, nothing switched on. */
    constructor Empty()
      ensures Valid() && handlers == map[] && crExitingEnabled == {}
      ensures controlRegister == null && cpuid == null && monitorTrap == null && movDr == null
      ensures rdmsr == null && wrmsr == null && vpid == null && msrBitmap == null
    {
      controlRegister := null;
      cpuid := null;
      monitorTrap := null;
      movDr := null;
      rdmsr := null;
      wrmsr := null;
      vpid := null;
      handlers := map[];
      crExitingEnabled := {};
      msrBitmap := null;
      useMsrBitmap := false;
      msrBitmapAddress := null;
    }

    /** A vCPU with the components for `needed`, or the error for the first reason in it that has none. */
    static method Create(needed: seq<nat>) returns (r: Result<Vcpu, InitError>)
      ensures r.Success? <==> FirstUnavailable(needed).None?
      ensures r.Failure? ==> r.error == HandlerUnavailable(FirstUnavailable(needed).value)
      ensures r.Success? ==> fresh(r.value) && r.value.Valid() && r.value.handlers.Keys == Reasons(needed)
    {
      var v := new Vcpu.Empty();
      var init := v.InitHandlers(needed);
      if init.Failure? {
        return Failure(init.error);
      }
      r := Success(v);
    }

    /** The default vCPU: a component for each of the six reasons, each registered. */
    static method CreateDefault() returns (v: Vcpu)
      ensures fresh(v) && v.Valid() && v.handlers.Keys == Reasons(AVAILABLE_HANDLERS)
      ensures v.controlRegister != null && v.cpuid != null && v.monitorTrap != null
      ensures v.movDr != null && v.rdmsr != null && v.wrmsr != null
    {
      v := new Vcpu.Empty();
      DefaultListServed();
      var _ := v.InitHandlers(AVAILABLE_HANDLERS);
      assert CONTROL_REGISTER_ACCESSES in v.handlers && CPUID in v.handlers && MONITOR_TRAP_FLAG in v.handlers;
      assert MOV_DR in v.handlers && RDMSR in v.handlers && WRMSR in v.handlers;
    }

    /** `init_exit_handler` for each reason in turn, stopping at the first that fails. */
    method InitHandlers(needed: seq<nat>) returns (r: Result<(), InitError>)
      requires Valid()
      modifies this
      ensures Valid()
      ensures r.Success? <==> FirstUnavailable(needed).None?
      ensures r.Failure? ==> r.error == HandlerUnavailable(FirstUnavailable(needed).value)
      ensures r.Success? ==> handlers.Keys == old(handlers.Keys) + Reasons(needed)
    {
      for i := 0 to |needed|
        invariant Valid()
        invariant FirstUnavailable(needed[..i]) == None
        invariant handlers.Keys == old(handlers.Keys) + Reasons(needed[..i])
      {
        var one := InitExitHandler(needed[i]);
        if one.Failure? {
          PrefixThenFailure(needed, i);
          return Failure(one.error);
        }
        PrefixGrows(needed, i);
      }
      assert needed[..|needed|] == needed;
      r := Success(());
    }

    /** The component for one exit reason, created and registered if missing; any other reason is an error that changes nothing. */
    method InitExitHandler(reason: nat) returns (r: Result<(), InitError>)
      requires Valid()
      modifies this
      ensures Valid()
      ensures r.Success? <==> reason in AVAILABLE_HANDLERS
      ensures r.Failure? ==> r.error == HandlerUnavailable(reason) && handlers == old(handlers)
      ensures r.Success? ==> handlers.Keys == old(handlers.Keys) + {reason}
    {
      if reason == CONTROL_REGISTER_ACCESSES {
        InitControlRegister();
      } else if reason == CPUID {
        InitCpuid();
      } else if reason == MONITOR_TRAP_FLAG {
        InitMonitorTrap();
      } else if reason == MOV_DR {
        InitMovDr();
      } else if reason == RDMSR {
        InitRdmsr();
      } else if reason == WRMSR {
        InitWrmsr();
      } else {
        return Failure(HandlerUnavailable(reason));
      }
      r := Success(());
    }

    method InitControlRegister()
      requires Valid()
      modifies this`controlRegister, this`handlers
      ensures Valid() && Kept(old(controlRegister), controlRegister)
      ensures old(controlRegister) == null ==> fresh(controlRegister) && controlRegister.calls == []
      ensures handlers == old(handlers)[CONTROL_REGISTER_ACCESSES := controlRegister]
    {
      if controlRegister == null {
        controlRegister := new Component(null);
        handlers := handlers[CONTROL_REGISTER_ACCESSES := controlRegister];
      }
    }

    method InitCpuid()
      requires Valid()
      modifies this`cpuid, this`handlers
      ensures Valid() && Kept(old(cpuid), cpuid)
      ensures old(cpuid) == null ==> fresh(cpuid) && cpuid.calls == []
      ensures handlers == old(handlers)[CPUID := cpuid]
    {
      if cpuid == null {
        cpuid := new Component(null);
        handlers := handlers[CPUID := cpuid];
      }
    }

    /** Not guarded: every call makes a new monitor-trap component and registers it in place of the old one. */
    method InitMonitorTrap()
      requires Valid()
      modifies this`monitorTrap, this`handlers
      ensures Valid() && monitorTrap != null && fresh(monitorTrap) && monitorTrap.calls == []
      ensures handlers == old(handlers)[MONITOR_TRAP_FLAG := monitorTrap]
    {
      monitorTrap := new Component(null);
      handlers := handlers[MONITOR_TRAP_FLAG := monitorTrap];
    }

    method InitMovDr()
      requires Valid()
      modifies this`movDr, this`handlers
      ensures Valid() && Kept(old(movDr), movDr)
      ensures old(movDr) == null ==> fresh(movDr) && movDr.calls == []
      ensures handlers == old(handlers)[MOV_DR := movDr]
    {
      if movDr == null {
        movDr := new Component(null);
        handlers := handlers[MOV_DR := movDr];
      }
    }

    /** One zeroed page for the MSR bitmap, allocated and published once. */
    method CheckMsrBitmap()
      requires Valid()
      modifies this`msrBitmap, this`useMsrBitmap, this`msrBitmapAddress
      ensures Valid() && msrBitmap != null
      ensures old(msrBitmap) != null ==> msrBitmap == old(msrBitmap) && useMsrBitmap == old(useMsrBitmap)
      ensures old(msrBitmap) == null ==> fresh(msrBitmap) && forall i :: 0 <= i < msrBitmap.Length ==> msrBitmap[i] == 0
    {
      if msrBitmap == null {
        var page := new bv8[PAGE_SIZE](_ => 0);
        msrBitmap := page;
        msrBitmapAddress := page;
        useMsrBitmap := true;
      }
    }

    /** The bitmap first, then the RDMSR component, which is handed that bitmap. */
    method InitRdmsr()
      requires Valid()
      modifies this`msrBitmap, this`useMsrBitmap, this`msrBitmapAddress, this`rdmsr, this`handlers
      ensures Valid() && Kept(old(rdmsr), rdmsr) && rdmsr.msrBitmap == msrBitmap != null
      ensures old(msrBitmap) != null ==> msrBitmap == old(msrBitmap)
      ensures old(rdmsr) == null ==> fresh(rdmsr) && rdmsr.calls == []
      ensures handlers == old(handlers)[RDMSR := rdmsr]
    {
      CheckMsrBitmap();
      if rdmsr == null {
        rdmsr := new Component(msrBitmap);
        handlers := handlers[RDMSR := rdmsr];
      }
    }

    method InitWrmsr()
      requires Valid()
      modifies this`msrBitmap, this`useMsrBitmap, this`msrBitmapAddress, this`wrmsr, this`handlers
      ensures Valid() && Kept(old(wrmsr), wrmsr) && wrmsr.msrBitmap == msrBitmap != null
      ensures old(msrBitmap) != null ==> msrBitmap == old(msrBitmap)
      ensures old(wrmsr) == null ==> fresh(wrmsr) && wrmsr.calls == []
      ensures handlers == old(handlers)[WRMSR := wrmsr]
    {
      CheckMsrBitmap();
      if wrmsr == null {
        wrmsr := new Component(msrBitmap);
        handlers := handlers[WRMSR := wrmsr];
      }
    }

    /** The VPID component is created once and never registered: VPID has no exit. */
    method InitVpid()
      modifies this`vpid
      ensures Kept(old(vpid), vpid)
      ensures old(vpid) == null ==> fresh(vpid) && vpid.calls == []
    {
      vpid := Obtain(vpid, null);
    }

    /** The first request for a CR3 or CR8 exit switches it on; later ones find it on and ask nothing more. */
    method CheckCrExiting(cr: CrAccess)
      requires Valid() && cr in {RdCr3, WrCr3, RdCr8, WrCr8}
      modifies this`controlRegister, this`handlers, this`crExitingEnabled, controlRegister
      ensures Valid() && Kept(old(controlRegister), controlRegister) && (old(controlRegister) == null ==> fresh(controlRegister))
      ensures crExitingEnabled == old(crExitingEnabled) + {cr}
      ensures controlRegister.calls
        == old(CallsOf(controlRegister)) + if cr in old(crExitingEnabled) then [] else [EnableExiting(cr)]
    {
      InitControlRegister();
      if cr !in crExitingEnabled {
        crExitingEnabled := crExitingEnabled + {cr};
        controlRegister.Record(EnableExiting(cr));
      }
    }

    // The public operations: make sure the component exists, then forward.

    method EnableWriteCrExiting(cr: CrAccess, mask: bv64, shadow: bv64)
      requires Valid() && (cr == WrCr0 || cr == WrCr4)
      modifies this`controlRegister, this`handlers, controlRegister
      ensures Valid() && Kept(old(controlRegister), controlRegister) && (old(controlRegister) == null ==> fresh(controlRegister))
      ensures controlRegister.calls == old(CallsOf(controlRegister)) + [EnableWriteExiting(cr, mask, shadow)]
    {
      InitControlRegister();
      controlRegister.Record(EnableWriteExiting(cr, mask, shadow));
    }

    /** A CR0 or CR4 write handler. */
    method AddWriteCrHandler(cr: CrAccess, d: Delegate)
      requires Valid() && (cr == WrCr0 || cr == WrCr4)
      modifies this`controlRegister, this`handlers, controlRegister
      ensures Valid() && Kept(old(controlRegister), controlRegister) && (old(controlRegister) == null ==> fresh(controlRegister))
      ensures controlRegister.calls == old(CallsOf(controlRegister)) + [AddCrHandler(cr, d)]
    {
      InitControlRegister();
      controlRegister.Record(AddCrHandler(cr, d));
    }

    /** A CR3 or CR8 read or write handler, its exit switched on first if it was not. */
    method AddExitingCrHandler(cr: CrAccess, d: Delegate)
      requires Valid() && cr in {RdCr3, WrCr3, RdCr8, WrCr8}
      modifies this`controlRegister, this`handlers, this`crExitingEnabled, controlRegister
      ensures Valid() && Kept(old(controlRegister), controlRegister) && (old(controlRegister) == null ==> fresh(controlRegister))
      ensures crExitingEnabled == old(crExitingEnabled) + {cr}
      ensures controlRegister.calls
        == old(CallsOf(controlRegister)) + (if cr in old(crExitingEnabled) then [] else [EnableExiting(cr)]) + [AddCrHandler(cr, d)]
    {
      CheckCrExiting(cr);
      controlRegister.Record(AddCrHandler(cr, d));
    }

    method AddCpuidHandler(leaf: bv64, subleaf: bv64, d: Delegate)
      requires Valid()
      modifies this`cpuid, this`handlers, cpuid
      ensures Valid() && Kept(old(cpuid), cpuid) && (old(cpuid) == null ==> fresh(cpuid))
      ensures cpuid.calls == old(CallsOf(cpuid)) + [AddKeyedHandler([leaf, subleaf], d)]
    {
      InitCpuid();
      cpuid.Record(AddKeyedHandler([leaf, subleaf], d));
    }

    /** Goes to a brand-new component each time, so earlier monitor-trap handlers are dropped. */
    method AddMonitorTrapHandler(d: Delegate)
      requires Valid()
      modifies this`monitorTrap, this`handlers
      ensures Valid() && monitorTrap != null && fresh(monitorTrap)
      ensures monitorTrap.calls == [AddHandler(d)]
    {
      InitMonitorTrap();
      monitorTrap.Record(AddHandler(d));
    }

    method EnableMonitorTrapFlag()
      requires Valid()
      modifies this`monitorTrap, this`handlers
      ensures Valid() && monitorTrap != null && fresh(monitorTrap)
      ensures monitorTrap.calls == [Enable]
    {
      InitMonitorTrap();
      monitorTrap.Record(Enable);
    }

    method AddMovDrHandler(d: Delegate)
      requires Valid()
      modifies this`movDr, this`handlers, movDr
      ensures Valid() && Kept(old(movDr), movDr) && (old(movDr) == null ==> fresh(movDr))
      ensures movDr.calls == old(CallsOf(movDr)) + [AddHandler(d)]
    {
      InitMovDr();
      movDr.Record(AddHandler(d));
    }

    method PassThroughAllRdmsrAccesses()
      requires Valid()
      modifies this`msrBitmap, this`useMsrBitmap, this`msrBitmapAddress, this`rdmsr, this`handlers
      ensures Valid() && Kept(old(rdmsr), rdmsr)
    {
      InitRdmsr();
    }

    method AddRdmsrHandler(msr: bv64, d: Delegate)
      requires Valid()
      modifies this`msrBitmap, this`useMsrBitmap, this`msrBitmapAddress, this`rdmsr, this`handlers, rdmsr
      ensures Valid() && Kept(old(rdmsr), rdmsr) && (old(rdmsr) == null ==> fresh(rdmsr))
      ensures rdmsr.calls == old(CallsOf(rdmsr)) + [AddKeyedHandler([msr], d)]
    {
      InitRdmsr();
      rdmsr.Record(AddKeyedHandler([msr], d));
    }

    method PassThroughAllWrmsrAccesses()
      requires Valid()
      modifies this`msrBitmap, this`useMsrBitmap, this`msrBitmapAddress, this`wrmsr, this`handlers
      ensures Valid() && Kept(old(wrmsr), wrmsr)
    {
      InitWrmsr();
    }

    method AddWrmsrHandler(msr: bv64, d: Delegate)
      requires Valid()
      modifies this`msrBitmap, this`useMsrBitmap, this`msrBitmapAddress, this`wrmsr, this`handlers, wrmsr
      ensures Valid() && Kept(old(wrmsr), wrmsr) && (old(wrmsr) == null ==> fresh(wrmsr))
      ensures wrmsr.calls == old(CallsOf(wrmsr)) + [AddKeyedHandler([msr], d)]
    {
      InitWrmsr();
      wrmsr.Record(AddKeyedHandler([msr], d));
    }

    method EnableVpid()
      modifies this`vpid, vpid
      ensures Kept(old(vpid), vpid) && (old(vpid) == null ==> fresh(vpid))
      ensures vpid.calls == old(CallsOf(vpid)) + [Enable]
    {
      InitVpid();
      vpid.Record(Enable);
    }
  }

  /** Once both MSR components exist they hold the same bitmap, the one the VMCS points at. */
  lemma MsrComponentsShareBitmap(v: Vcpu)
    requires v.Valid() && v.rdmsr != null && v.wrmsr != null
    ensures v.rdmsr.msrBitmap == v.wrmsr.msrBitmap == v.msrBitmapAddress != null
  {
  }
}
