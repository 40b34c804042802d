/**
 * The per-vCPU facade of the extended APIs. Every exit-handler component is
 * created the first time something needs it and reused afterwards; some
 * hardware controls are switched on once, guarded by a flag; the I/O bitmaps
 * (two pages) and the MSR bitmap (one page) are allocated once and published
 * in the VMCS. The INIT and SIPI handlers are created with the facade.
 */
module Apis {
  import opened Wrappers
  import opened Hardware
  import opened Dispatch
  import opened Components
  import InterruptWindow
  import InitSignal
  import SipiSignal

  const PAGE_SIZE: nat := 4096

  class Apis {
    const cpu: Cpu
    /** The base exit handler that `add_handler` forwards to. */
    const exitHandler: Component
    const initSignal: InitSignal.InitSignal
    const sipiSignal: SipiSignal.SipiSignal

    // The VMCS controls and address fields the facade writes.
    var unrestrictedGuest: bool
    var useIoBitmaps: bool
    var useMsrBitmap: bool
    /** The I/O bitmap A and B address fields: a buffer and the byte offset into it. */
    var ioBitmapAAddress: Option<(array?<bv8>, nat)>
    var ioBitmapBAddress: Option<(array?<bv8>, nat)>
    var msrBitmapAddress: array?<bv8>

    // The components, null until first needed.
    var eptHandler: Component?
    var vpidHandler: Component?
    var controlRegisterHandler: Component?
    var cpuidHandler: Component?
    var eptMisconfigurationHandler: Component?
    var eptViolationHandler: Component?
    var externalInterruptHandler: Component?
    var interruptWindowHandler: Component?
    var ioInstructionHandler: Component?
    var monitorTrapHandler: Component?
    var movDrHandler: Component?
    var rdmsrHandler: Component?
    var wrmsrHandler: Component?

    var rdcr3Enabled: bool
    var wrcr3Enabled: bool

    var ioBitmaps: array?<bv8>
    var msrBitmap: array?<bv8>

    /**
     * Once allocated, the I/O bitmaps are two pages with bitmap A at byte 0
     * and bitmap B at byte 4096, and the MSR bitmap one page, each published
     * in the VMCS with its control on; a CR3 exiting flag is only set once
     * the control-register component exists; the MSR components exist
     * only once the MSR bitmap does; and the WRMSR component is never the
     * base exit handler.
     */
    ghost predicate Valid()
      reads this
    {
      && (ioBitmaps != null ==>
            && ioBitmaps.Length == 2 * PAGE_SIZE && useIoBitmaps
            && ioBitmapAAddress == Some((ioBitmaps, 0)) && ioBitmapBAddress == Some((ioBitmaps, PAGE_SIZE)))
      && (msrBitmap != null ==> msrBitmap.Length == PAGE_SIZE && useMsrBitmap && msrBitmapAddress == msrBitmap)
      && (rdcr3Enabled || wrcr3Enabled ==> controlRegisterHandler != null)
      && (rdmsrHandler != null || wrmsrHandler != null ==> msrBitmap != null)
      && wrmsrHandler != exitHandler
    }

    /**
     * Unrestricted guest on, then the INIT and SIPI handlers, which register
     * themselves: the base exit handler holds their two exit handlers, INIT
     * first, and the ICR write handler has brought the MSR bitmap and the
     * WRMSR component into being. Nothing else exists yet.
     */
    constructor (cpu: Cpu, sync: InitSignal.Handshake)
      ensures Valid()
      ensures this.cpu == cpu && fresh(exitHandler)
      ensures exitHandler.calls
        == [AddKeyedHandler([EXIT_REASON_INIT_SIGNAL], InitExitHandler), AddKeyedHandler([EXIT_REASON_SIPI], SipiExitHandler)]
      ensures initSignal.cpu == cpu && initSignal.sync == sync && sipiSignal.cpu == cpu
      ensures fresh(msrBitmap) && msrBitmap.Length == PAGE_SIZE && forall i :: 0 <= i < msrBitmap.Length ==> msrBitmap[i] == 0
      ensures useMsrBitmap && msrBitmapAddress == msrBitmap
      ensures fresh(wrmsrHandler) && wrmsrHandler.calls == [AddKeyedHandler([X2APIC_ICR as bv64], IcrWriteHandler)]
      ensures unrestrictedGuest && !useIoBitmaps && ioBitmaps == null && !rdcr3Enabled && !wrcr3Enabled
      ensures eptHandler == null && vpidHandler == null && controlRegisterHandler == null && cpuidHandler == null
      ensures eptMisconfigurationHandler == null && eptViolationHandler == null && externalInterruptHandler == null
      ensures interruptWindowHandler == null && ioInstructionHandler == null && monitorTrapHandler == null
      ensures movDrHandler == null && rdmsrHandler == null
    {
      this.cpu := cpu;
      exitHandler := new Component(null);
      unrestrictedGuest := true;
      initSignal := new InitSignal.InitSignal(cpu, sync);
      sipiSignal := new SipiSignal.SipiSignal(cpu);
      useIoBitmaps := false;
      useMsrBitmap := false;
      ioBitmapAAddress := None;
      ioBitmapBAddress := None;
      msrBitmapAddress := null;
      eptHandler := null;
      vpidHandler := null;
      controlRegisterHandler := null;
      cpuidHandler := null;
      eptMisconfigurationHandler := null;
      eptViolationHandler := null;
      externalInterruptHandler := null;
      interruptWindowHandler := null;
      ioInstructionHandler := null;
      monitorTrapHandler := null;
      movDrHandler := null;
      rdmsrHandler := null;
      wrmsrHandler := null;
      rdcr3Enabled := false;
      wrcr3Enabled := false;
      ioBitmaps := null;
      msrBitmap := null;
      new;
      RegisterInitSignal();
      RegisterSipiSignal();
    }

    /**
     * What the INIT handler does with the facade when it is made: its INIT
     * exit handler goes to the base exit handler, and its handler for guest
     * writes of the x2APIC ICR to the WRMSR component, which brings the MSR
     * bitmap and that component into being if they are missing.
     */
    method RegisterInitSignal()
      requires Valid()
      modifies this`msrBitmap, this`msrBitmapAddress, this`useMsrBitmap, this`wrmsrHandler, wrmsrHandler, exitHandler
      ensures Valid() && msrBitmap != null && (old(msrBitmap) != null ==> msrBitmap == old(msrBitmap))
      ensures old(msrBitmap) == null ==> fresh(msrBitmap) && forall i :: 0 <= i < msrBitmap.Length ==> msrBitmap[i] == 0
      ensures exitHandler.calls == old(exitHandler.calls) + [AddKeyedHandler([EXIT_REASON_INIT_SIGNAL], InitExitHandler)]
      ensures Kept(old(wrmsrHandler), wrmsrHandler) && (old(wrmsrHandler) == null ==> fresh(wrmsrHandler))
      ensures wrmsrHandler.calls == old(CallsOf(wrmsrHandler)) + [AddKeyedHandler([X2APIC_ICR as bv64], IcrWriteHandler)]
    {
      AddExitHandler(EXIT_REASON_INIT_SIGNAL, InitExitHandler);
      AddWrmsrHandler(X2APIC_ICR as bv64, IcrWriteHandler);
    }

    /** What the SIPI handler does with the facade when it is made: its SIPI exit handler goes to the base exit handler. */
    method RegisterSipiSignal()
      modifies exitHandler
      ensures exitHandler.calls == old(exitHandler.calls) + [AddKeyedHandler([EXIT_REASON_SIPI], SipiExitHandler)]
    {
      AddExitHandler(EXIT_REASON_SIPI, SipiExitHandler);
    }

    // EPT

    method SetEptp(eptMap: nat)
      modifies this`eptHandler, eptHandler
      ensures Kept(old(eptHandler), eptHandler) && (old(eptHandler) == null ==> fresh(eptHandler))
      ensures eptHandler.calls == old(CallsOf(eptHandler)) + [Eptp(Some(eptMap))]
    {
      var c := Obtain(eptHandler, null);
      eptHandler := c;
      c.Record(Eptp(Some(eptMap)));
    }

    /** EPTP null on the EPT component, and nothing at all when there is none. */
    method DisableEpt()
      modifies eptHandler
      ensures eptHandler != null ==> eptHandler.calls == old(eptHandler.calls) + [Eptp(None)]
    {
      if eptHandler != null {
        eptHandler.Record(Eptp(None));
      }
    }

    // VPID

    method EnableVpid()
      modifies this`vpidHandler, vpidHandler
      ensures Kept(old(vpidHandler), vpidHandler) && (old(vpidHandler) == null ==> fresh(vpidHandler))
      ensures vpidHandler.calls == old(CallsOf(vpidHandler)) + [Enable]
    {
      var c := Obtain(vpidHandler, null);
      vpidHandler := c;
      c.Record(Enable);
    }

    method DisableVpid()
      modifies vpidHandler
      ensures vpidHandler != null ==> vpidHandler.calls == old(vpidHandler.calls) + [Disable]
    {
      if vpidHandler != null {
        vpidHandler.Record(Disable);
      }
    }

    // Control registers

    method CheckCrall()
      modifies this`controlRegisterHandler
      ensures Kept(old(controlRegisterHandler), controlRegisterHandler)
      ensures old(controlRegisterHandler) == null ==> fresh(controlRegisterHandler) && controlRegisterHandler.calls == []
    {
      controlRegisterHandler := Obtain(controlRegisterHandler, null);
    }

    /** The first call switches CR3-read exiting on; later calls find the flag set and leave the component alone. */
    method CheckRdcr3()
      requires Valid()
      modifies this`controlRegisterHandler, this`rdcr3Enabled, controlRegisterHandler
      ensures Valid() && rdcr3Enabled
      ensures Kept(old(controlRegisterHandler), controlRegisterHandler) && (old(controlRegisterHandler) == null ==> fresh(controlRegisterHandler))
      ensures controlRegisterHandler.calls
        == old(CallsOf(controlRegisterHandler)) + if old(rdcr3Enabled) then [] else [EnableExiting(RdCr3)]
    {
      CheckCrall();
      if !rdcr3Enabled {
        rdcr3Enabled := true;
        controlRegisterHandler.Record(EnableExiting(RdCr3));
      }
    }

    method CheckWrcr3()
      requires Valid()
      modifies this`controlRegisterHandler, this`wrcr3Enabled, controlRegisterHandler
      ensures Valid() && wrcr3Enabled
      ensures Kept(old(controlRegisterHandler), controlRegisterHandler) && (old(controlRegisterHandler) == null ==> fresh(controlRegisterHandler))
      ensures controlRegisterHandler.calls
        == old(CallsOf(controlRegisterHandler)) + if old(wrcr3Enabled) then [] else [EnableExiting(WrCr3)]
    {
      CheckCrall();
      if !wrcr3Enabled {
        wrcr3Enabled := true;
        controlRegisterHandler.Record(EnableExiting(WrCr3));
      }
    }

    method EnableWrcr0Exiting(mask: bv64, shadow: bv64)
      modifies this`controlRegisterHandler, controlRegisterHandler
      ensures Kept(old(controlRegisterHandler), controlRegisterHandler) && (old(controlRegisterHandler) == null ==> fresh(controlRegisterHandler))
      ensures controlRegisterHandler.calls == old(CallsOf(controlRegisterHandler)) + [EnableWriteExiting(WrCr0, mask, shadow)]
    {
      CheckCrall();
      controlRegisterHandler.Record(EnableWriteExiting(WrCr0, mask, shadow));
    }

    method EnableWrcr4Exiting(mask: bv64, shadow: bv64)
      modifies this`controlRegisterHandler, controlRegisterHandler
      ensures Kept(old(controlRegisterHandler), controlRegisterHandler) && (old(controlRegisterHandler) == null ==> fresh(controlRegisterHandler))
      ensures controlRegisterHandler.calls == old(CallsOf(controlRegisterHandler)) + [EnableWriteExiting(WrCr4, mask, shadow)]
    {
      CheckCrall();
      controlRegisterHandler.Record(EnableWriteExiting(WrCr4, mask, shadow));
    }

    /** A CR0 or CR4 write handler; these need no exiting switched on here. */
    method AddWriteCrHandler(cr: CrAccess, d: Delegate)
      requires cr == WrCr0 || cr == WrCr4
      modifies this`controlRegisterHandler, controlRegisterHandler
      ensures Kept(old(controlRegisterHandler), controlRegisterHandler) && (old(controlRegisterHandler) == null ==> fresh(controlRegisterHandler))
      ensures controlRegisterHandler.calls == old(CallsOf(controlRegisterHandler)) + [AddCrHandler(cr, d)]
    {
      CheckCrall();
      controlRegisterHandler.Record(AddCrHandler(cr, d));
    }

    method AddRdcr3Handler(d: Delegate)
      requires Valid()
      modifies this`controlRegisterHandler, this`rdcr3Enabled, controlRegisterHandler
      ensures Valid() && rdcr3Enabled
      ensures Kept(old(controlRegisterHandler), controlRegisterHandler) && (old(controlRegisterHandler) == null ==> fresh(controlRegisterHandler))
      ensures controlRegisterHandler.calls
        == old(CallsOf(controlRegisterHandler)) + (if old(rdcr3Enabled) then [] else [EnableExiting(RdCr3)]) + [AddCrHandler(RdCr3, d)]
    {
      CheckRdcr3();
      controlRegisterHandler.Record(AddCrHandler(RdCr3, d));
    }

    method AddWrcr3Handler(d: Delegate)
      requires Valid()
      modifies this`controlRegisterHandler, this`wrcr3Enabled, controlRegisterHandler
      ensures Valid() && wrcr3Enabled
      ensures Kept(old(controlRegisterHandler), controlRegisterHandler) && (old(controlRegisterHandler) == null ==> fresh(controlRegisterHandler))
      ensures controlRegisterHandler.calls
        == old(CallsOf(controlRegisterHandler)) + (if old(wrcr3Enabled) then [] else [EnableExiting(WrCr3)]) + [AddCrHandler(WrCr3, d)]
    {
      CheckWrcr3();
      controlRegisterHandler.Record(AddCrHandler(WrCr3, d));
    }

    // CPUID

    method AddCpuidHandler(leaf: bv64, d: Delegate)
      modifies this`cpuidHandler, cpuidHandler
      ensures Kept(old(cpuidHandler), cpuidHandler) && (old(cpuidHandler) == null ==> fresh(cpuidHandler))
      ensures cpuidHandler.calls == old(CallsOf(cpuidHandler)) + [AddKeyedHandler([leaf], d)]
    {
      var c := Obtain(cpuidHandler, null);
      cpuidHandler := c;
      c.Record(AddKeyedHandler([leaf], d));
    }

    // EPT misconfiguration and violation

    method AddEptMisconfigurationHandler(d: Delegate)
      modifies this`eptMisconfigurationHandler, eptMisconfigurationHandler
      ensures Kept(old(eptMisconfigurationHandler), eptMisconfigurationHandler)
      ensures old(eptMisconfigurationHandler) == null ==> fresh(eptMisconfigurationHandler)
      ensures eptMisconfigurationHandler.calls == old(CallsOf(eptMisconfigurationHandler)) + [AddHandler(d)]
    {
      var c := Obtain(eptMisconfigurationHandler, null);
      eptMisconfigurationHandler := c;
      c.Record(AddHandler(d));
    }

    /** A read, write or execute violation handler, all on the one EPT-violation component. */
    method AddEptViolationHandler(access: Access, d: Delegate)
      modifies this`eptViolationHandler, eptViolationHandler
      ensures Kept(old(eptViolationHandler), eptViolationHandler) && (old(eptViolationHandler) == null ==> fresh(eptViolationHandler))
      ensures eptViolationHandler.calls == old(CallsOf(eptViolationHandler)) + [AddViolationHandler(access, d)]
    {
      var c := Obtain(eptViolationHandler, null);
      eptViolationHandler := c;
      c.Record(AddViolationHandler(access, d));
    }

    // External interrupts

    /** External-interrupt exiting is switched on when, and only when, this call creates the component. */
    method AddExternalInterruptHandler(d: Delegate)
      modifies this`externalInterruptHandler, externalInterruptHandler
      ensures Kept(old(externalInterruptHandler), externalInterruptHandler)
      ensures old(externalInterruptHandler) == null ==> fresh(externalInterruptHandler)
      ensures externalInterruptHandler.calls
        == old(CallsOf(externalInterruptHandler)) + (if old(externalInterruptHandler) == null then [Enable] else []) + [AddHandler(d)]
    {
      if externalInterruptHandler == null {
        externalInterruptHandler := new Component(null);
        externalInterruptHandler.Record(Enable);
      }
      externalInterruptHandler.Record(AddHandler(d));
    }

    method DisableExternalInterrupts()
      modifies externalInterruptHandler
      ensures externalInterruptHandler != null ==> externalInterruptHandler.calls == old(externalInterruptHandler.calls) + [Disable]
    {
      if externalInterruptHandler != null {
        externalInterruptHandler.Record(Disable);
      }
    }

    // Interrupt window

    method TrapOnNextInterruptWindow()
      modifies this`interruptWindowHandler, interruptWindowHandler
      ensures Kept(old(interruptWindowHandler), interruptWindowHandler) && (old(interruptWindowHandler) == null ==> fresh(interruptWindowHandler))
      ensures interruptWindowHandler.calls == old(CallsOf(interruptWindowHandler)) + [Enable]
    {
      var c := Obtain(interruptWindowHandler, null);
      interruptWindowHandler := c;
      c.Record(Enable);
    }

    /** Unlike the other disables, this one creates the component when it is missing. */
    method DisableInterruptWindow()
      modifies this`interruptWindowHandler, interruptWindowHandler
      ensures Kept(old(interruptWindowHandler), interruptWindowHandler) && (old(interruptWindowHandler) == null ==> fresh(interruptWindowHandler))
      ensures interruptWindowHandler.calls == old(CallsOf(interruptWindowHandler)) + [Disable]
    {
      var c := Obtain(interruptWindowHandler, null);
      interruptWindowHandler := c;
      c.Record(Disable);
    }

    method AddInterruptWindowHandler(d: Delegate)
      modifies this`interruptWindowHandler, interruptWindowHandler
      ensures Kept(old(interruptWindowHandler), interruptWindowHandler) && (old(interruptWindowHandler) == null ==> fresh(interruptWindowHandler))
      ensures interruptWindowHandler.calls == old(CallsOf(interruptWindowHandler)) + [AddHandler(d)]
    {
      var c := Obtain(interruptWindowHandler, null);
      interruptWindowHandler := c;
      c.Record(AddHandler(d));
    }

    /** Whether the guest can take an interrupt now (the interrupt-window predicate on the current guest state). */
    method IsInterruptWindowOpen() returns (open: bool)
      modifies this`interruptWindowHandler
      ensures Kept(old(interruptWindowHandler), interruptWindowHandler)
      ensures old(interruptWindowHandler) == null ==> fresh(interruptWindowHandler) && interruptWindowHandler.calls == []
      ensures open == InterruptWindow.IsOpen(cpu.guest)
    {
      interruptWindowHandler := Obtain(interruptWindowHandler, null);
      open := InterruptWindow.IsOpen(cpu.guest);
    }

    method InjectExternalInterrupt(vector: bv64)
      modifies this`interruptWindowHandler, interruptWindowHandler
      ensures Kept(old(interruptWindowHandler), interruptWindowHandler) && (old(interruptWindowHandler) == null ==> fresh(interruptWindowHandler))
      ensures interruptWindowHandler.calls == old(CallsOf(interruptWindowHandler)) + [Inject(vector)]
    {
      var c := Obtain(interruptWindowHandler, null);
      interruptWindowHandler := c;
      c.Record(Inject(vector));
    }

    // I/O instructions

    /** The bitmaps are allocated and published before the I/O component sees the handler pair. */
    method AddIoInstructionHandler(port: bv64, inD: Delegate, outD: Delegate)
      requires Valid()
      modifies this`ioBitmaps, this`ioBitmapAAddress, this`ioBitmapBAddress, this`useIoBitmaps
      modifies this`ioInstructionHandler, ioInstructionHandler
      ensures Valid() && ioBitmaps != null
      ensures old(ioBitmaps) != null ==> ioBitmaps == old(ioBitmaps)
      ensures Kept(old(ioInstructionHandler), ioInstructionHandler) && (old(ioInstructionHandler) == null ==> fresh(ioInstructionHandler))
      ensures ioInstructionHandler.calls == old(CallsOf(ioInstructionHandler)) + [AddIoHandler(port, inD, outD)]
    {
      CheckIoBitmaps();
      var c := Obtain(ioInstructionHandler, null);
      ioInstructionHandler := c;
      c.Record(AddIoHandler(port, inD, outD));
    }

    /** Allocates the two zeroed bitmap pages and publishes A at byte 0 and B at byte 4096, once; later calls change nothing. */
    method CheckIoBitmaps()
      requires Valid()
      modifies this`ioBitmaps, this`ioBitmapAAddress, this`ioBitmapBAddress, this`useIoBitmaps
      ensures Valid() && ioBitmaps != null
      ensures old(ioBitmaps) != null ==>
        && ioBitmaps == old(ioBitmaps) && ioBitmapAAddress == old(ioBitmapAAddress)
        && ioBitmapBAddress == old(ioBitmapBAddress) && useIoBitmaps == old(useIoBitmaps)
      ensures old(ioBitmaps) == null ==> fresh(ioBitmaps) && forall i :: 0 <= i < ioBitmaps.Length ==> ioBitmaps[i] == 0
    {
      if ioBitmaps == null {
        var page := new bv8[2 * PAGE_SIZE](_ => 0);
        ioBitmaps := page;
        ioBitmapAAddress := Some((page, 0));
        ioBitmapBAddress := Some((page, PAGE_SIZE));
        useIoBitmaps := true;
      }
    }

    // Monitor trap and MOV DR

    method AddMonitorTrapHandler(d: Delegate)
      modifies this`monitorTrapHandler, monitorTrapHandler
      ensures Kept(old(monitorTrapHandler), monitorTrapHandler) && (old(monitorTrapHandler) == null ==> fresh(monitorTrapHandler))
      ensures monitorTrapHandler.calls == old(CallsOf(monitorTrapHandler)) + [AddHandler(d)]
    {
      var c := Obtain(monitorTrapHandler, null);
      monitorTrapHandler := c;
      c.Record(AddHandler(d));
    }

    method EnableMonitorTrapFlag()
      modifies this`monitorTrapHandler, monitorTrapHandler
      ensures Kept(old(monitorTrapHandler), monitorTrapHandler) && (old(monitorTrapHandler) == null ==> fresh(monitorTrapHandler))
      ensures monitorTrapHandler.calls == old(CallsOf(monitorTrapHandler)) + [Enable]
    {
      var c := Obtain(monitorTrapHandler, null);
      monitorTrapHandler := c;
      c.Record(Enable);
    }

    method AddMovDrHandler(d: Delegate)
      modifies this`movDrHandler, movDrHandler
      ensures Kept(old(movDrHandler), movDrHandler) && (old(movDrHandler) == null ==> fresh(movDrHandler))
      ensures movDrHandler.calls == old(CallsOf(movDrHandler)) + [AddHandler(d)]
    {
      var c := Obtain(movDrHandler, null);
      movDrHandler := c;
      c.Record(AddHandler(d));
    }

    // MSRs

    /** Allocates one zeroed page for the MSR bitmap and publishes it, once; later calls change nothing. */
    method CheckMsrBitmap()
      requires Valid()
      modifies this`msrBitmap, this`msrBitmapAddress, this`useMsrBitmap
      ensures Valid() && msrBitmap != null
      ensures old(msrBitmap) != null ==> msrBitmap == old(msrBitmap) && useMsrBitmap == old(useMsrBitmap)
      ensures old(msrBitmap) == null ==> fresh(msrBitmap) && forall i :: 0 <= i < msrBitmap.Length ==> msrBitmap[i] == 0
    {
      if msrBitmap == null {
        var page := new bv8[PAGE_SIZE](_ => 0);
        msrBitmap := page;
        msrBitmapAddress := page;
        useMsrBitmap := true;
      }
    }

    /** The MSR bitmap first, then the RDMSR component; both are created at most once. */
    method CheckRdmsrHandler()
      requires Valid()
      modifies this`msrBitmap, this`msrBitmapAddress, this`useMsrBitmap, this`rdmsrHandler
      ensures Valid() && msrBitmap != null && (old(msrBitmap) != null ==> msrBitmap == old(msrBitmap))
      ensures old(msrBitmap) == null ==> fresh(msrBitmap) && forall i :: 0 <= i < msrBitmap.Length ==> msrBitmap[i] == 0
      ensures Kept(old(rdmsrHandler), rdmsrHandler)
      ensures old(rdmsrHandler) == null ==> fresh(rdmsrHandler) && rdmsrHandler.calls == []
    {
      CheckMsrBitmap();
      rdmsrHandler := Obtain(rdmsrHandler, null);
    }

    method CheckWrmsrHandler()
      requires Valid()
      modifies this`msrBitmap, this`msrBitmapAddress, this`useMsrBitmap, this`wrmsrHandler
      ensures Valid() && msrBitmap != null && (old(msrBitmap) != null ==> msrBitmap == old(msrBitmap))
      ensures old(msrBitmap) == null ==> fresh(msrBitmap) && forall i :: 0 <= i < msrBitmap.Length ==> msrBitmap[i] == 0
      ensures Kept(old(wrmsrHandler), wrmsrHandler)
      ensures old(wrmsrHandler) == null ==> fresh(wrmsrHandler) && wrmsrHandler.calls == []
    {
      CheckMsrBitmap();
      wrmsrHandler := Obtain(wrmsrHandler, null);
    }

    method AddRdmsrHandler(msr: bv64, d: Delegate)
      requires Valid()
      modifies this`msrBitmap, this`msrBitmapAddress, this`useMsrBitmap, this`rdmsrHandler, rdmsrHandler
      ensures Valid() && msrBitmap != null && (old(msrBitmap) != null ==> msrBitmap == old(msrBitmap))
      ensures old(msrBitmap) == null ==> fresh(msrBitmap) && forall i :: 0 <= i < msrBitmap.Length ==> msrBitmap[i] == 0
      ensures Kept(old(rdmsrHandler), rdmsrHandler) && (old(rdmsrHandler) == null ==> fresh(rdmsrHandler))
      ensures rdmsrHandler.calls == old(CallsOf(rdmsrHandler)) + [AddKeyedHandler([msr], d)]
    {
      CheckRdmsrHandler();
      rdmsrHandler.Record(AddKeyedHandler([msr], d));
    }

    method AddWrmsrHandler(msr: bv64, d: Delegate)
      requires Valid()
      modifies this`msrBitmap, this`msrBitmapAddress, this`useMsrBitmap, this`wrmsrHandler, wrmsrHandler
      ensures Valid() && msrBitmap != null && (old(msrBitmap) != null ==> msrBitmap == old(msrBitmap))
      ensures old(msrBitmap) == null ==> fresh(msrBitmap) && forall i :: 0 <= i < msrBitmap.Length ==> msrBitmap[i] == 0
      ensures Kept(old(wrmsrHandler), wrmsrHandler) && (old(wrmsrHandler) == null ==> fresh(wrmsrHandler))
      ensures wrmsrHandler.calls == old(CallsOf(wrmsrHandler)) + [AddKeyedHandler([msr], d)]
    {
      CheckWrmsrHandler();
      wrmsrHandler.Record(AddKeyedHandler([msr], d));
    }

    /** A handler for a whole exit reason goes to the base exit handler. */
    method AddExitHandler(reason: bv64, d: Delegate)
      modifies exitHandler
      ensures exitHandler.calls == old(exitHandler.calls) + [AddKeyedHandler([reason], d)]
    {
      exitHandler.Record(AddKeyedHandler([reason], d));
    }
  }

  /**
   * The facade starts with the MSR bitmap its INIT handler needed, and
   * whatever order the RDMSR and WRMSR components are asked for in
   * afterwards, both find that bitmap: one page, published and enabled, is
   * shared by both, and the WRMSR component is the one that already holds
   * the ICR write handler.
   */
  method SharedMsrBitmap(cpu: Cpu, sync: InitSignal.Handshake, readFirst: bool)
    returns (a: Apis, atStart: array<bv8>, afterFirst: array?<bv8>, afterSecond: array?<bv8>)
    ensures a.rdmsrHandler != null && a.wrmsrHandler != null
    ensures afterFirst == atStart && afterSecond == atStart && a.msrBitmap == atStart
    ensures a.msrBitmapAddress == atStart && a.useMsrBitmap && atStart.Length == PAGE_SIZE
    ensures a.wrmsrHandler.calls == [Components.AddKeyedHandler([X2APIC_ICR as bv64], IcrWriteHandler)]
  {
    a := new Apis(cpu, sync);
    atStart := a.msrBitmap;
    if readFirst {
      a.CheckRdmsrHandler();
      afterFirst := a.msrBitmap;
      a.CheckWrmsrHandler();
    } else {
      a.CheckWrmsrHandler();
      afterFirst := a.msrBitmap;
      a.CheckRdmsrHandler();
    }
    afterSecond := a.msrBitmap;
  }
}
