# Extended APIs for the Bareflank hypervisor — a Dafny model

This project models the core of the Bareflank "extended APIs" layer. That layer sits on
top of the base VM-exit handler of an Intel VT-x hypervisor. It consists of:

- **Exit-handler components.** These are the CPUID, external-interrupt (IRQ),
  interrupt-window and INIT/SIPI handlers. Each keeps a chain of handler delegates and
  dispatches each exit to it: the newest handler goes first and the first claim wins.
- **Two interrupt managers.** `irq_manager` and `interrupt_manager` take every external
  interrupt from the guest, signal EOI to the local APIC, and re-inject the vector into
  the guest once its interrupt window is open. A vector that cannot be injected yet is
  queued.
- **The local-APIC controllers.** There are two: xAPIC, memory-mapped, and x2APIC,
  MSR-based. They check register accesses against a permission table, read and write
  registers, and send self-IPIs.
- **The VMCS extensions.** These cover VPID, the I/O bitmaps (trap, pass through,
  whitelist and blacklist I/O ports) and the VMX-preemption timer.
- **A VT-d context entry.** This is a 128-bit entry with six bit fields.
- **The facades** `apis` and `vcpu`. They create the components lazily and forward
  registrations to them.
- **The CPUID emulation handler** with its access counters.

The modules follow the source, one module per component:

- `Dispatch` is the handler-chain semantics the components share.
- `Hardware` is the processor state: the VMCS fields used, the guest register save area
  and the MSRs. A ghost trace records injections and MSR writes, so that ordering can be
  stated.
- `Irq`, `IrqWindow`, `ExternalInterrupt`, `InterruptWindow` and `Cpuid` are the
  exit-handler components.
- `IrqManager` and `InterruptManager` are the two managers.
- `Lapic` holds what the two controllers share: register offsets, the access checks and
  the ICR layout.
- `XApic` and `X2Apic` are the two controllers. The source's abstract `lapic_ctl` base
  becomes these two concrete classes.
- `IoBitmap` and `VmcsEapis` model the VMCS extensions.
- `ContextEntry` is the VT-d context entry.
- `Components`, `Apis` and `Vcpu` model the facades.
- `CpuidEmulation` is the CPUID emulation handler.
- `SipiSignal` and `InitSignal` are the INIT/SIPI handlers.
- `Msrs` is the WRMSR registration the managers use.
- `Log` holds the capped debug logs.
- `Bits` and `Wrappers` are helpers.

## How things are modelled

**Parameters instead of code.** Handler delegates call into code outside the model. A
delegate is therefore known only by identity. What it does is a function parameter
`run`: whether it claims the exit and how it leaves the info record. The following are
also parameters:

- the processor's own CPUID results;
- `create_key`;
- the register permission table `reg_set`;
- the MSR window `msr_start_reg`/`msr_end_reg`;
- the `advance()` of the base handler. It is modelled as RIP plus the exit's instruction
  length, and it succeeds.

**Components as call logs.** The components the facades create (control register, EPT,
MSR, VPID, …) have internals that are not part of this model. Each is a
`Components.Component` that records, in order, the calls forwarded to it. The base exit
handler is one too: every component that registers its own exit handler when it is
made (IRQ, IRQ window, external interrupt, interrupt window, CPUID, INIT, SIPI) is
given it and records that registration under its basic exit reason.

**Source revisions.**

- `vcpu.h` carries the handler registration (`init_handlers`, `m_handlers`,
  `s_available_handlers`), so `Vcpu` follows `vcpu.h`. Where `vcpu.cpp` defines the same
  members, the header's inline definitions are the ones modelled.
- The INIT and SIPI handlers register themselves with the facade when they are made.
  The facade's module depends on theirs, so those registrations are the facade's
  `RegisterInitSignal` and `RegisterSipiSignal`, which its constructor calls after
  making the two handlers.
- `irq_manager.cpp` calls `m_irqwin->trap()` and `trap(bool)`. The `irq_window.cpp` at
  hand does not define them; they are modelled as setting and clearing the
  "interrupt-window exiting" control, which is what `enable`/`disable` there do.

**Data representation.**

- The four `m_is_rd/wrcr3/8_enabled` flags of `vcpu` are one set of `CrAccess`
  values.
- The VPID and I/O-bitmap operations of `vmcs_intel_x64_eapis` are modelled from their
  documented behaviour in the header. Their implementation file is not part of this
  model.
- The MSR-trapping component `msrs_t` that the managers use is also not part of this
  model. `Msrs.Msrs` models only the WRMSR chain per MSR and the set of trapped MSRs.

**Arithmetic and constants.**

- Integer widths are explicit. The preemption-timer field is 32 bits wide, so the value
  stored is truncated. The CPUID write-back keeps the high 32 bits of each register.
- `set_bits(x, m, b)` is taken to return `(x & ~m) | (b & m)`, as every call that
  assigns its result uses it. The CPUID handler drops the four results (see "## Findings");
  `Cpuid.CpuidExit` is the write-back it evidently intends and the one the model uses.
- Vectors, MSR values and register values are `bv64`.
- Constants follow the Intel SDM: exit reasons, interruption-information fields, APIC
  register offsets and the x2APIC MSR addresses.

## Model

| member | source | states |
|---|---|---|
| Dispatch.Walk | src/hve/arch/intel_x64/irq.cpp:82-93 | dispatch over a handler chain reports a claimer only at a position inside the chain |
| Dispatch.WalkFirstClaim | src/hve/arch/intel_x64/irq.cpp:82-93 | the claimer is the first handler that claims, given the info left by those before it, and its info is the result; with no claimer every handler declined and the info is what the last left |
| Dispatch.UnclaimedIffNoneClaims | src/hve/arch/intel_x64/irq.cpp:82-93 | an exit is unclaimed exactly when no handler in the chain claims it |
| Dispatch.LaterHandlersIgnored | src/hve/arch/intel_x64/cpuid.cpp:150-151 | handlers behind the claiming one are never consulted: cutting the chain after the claimer changes nothing |
| Dispatch.NewestFirst | src/hve/arch/intel_x64/irq.cpp:62-66 | a handler added at the front is consulted before all older ones and wins when it claims; otherwise the older chain decides with its info |
| Dispatch.RunChain | src/hve/arch/intel_x64/irq_window.cpp:58-68 | the dispatch loop returns exactly the claim decision and info of the first-claim-wins specification |
| Log.AddRecordBounded | include/hve/arch/intel_x64/cpuid.h:188-193 | adding a record never takes the log past its cap, and drops the record exactly when the log is full |
| Log.AddRecordsKeepsEarliest | include/hve/arch/intel_x64/cpuid.h:188-193 | after any run of records the log is the first cap records of everything offered (or all of it) |
| Bits.SetBits | bfvmm/include/hve/arch/intel_x64/vtd/context_entry.h:96-100 | bits inside the mask come from the new value, bits outside it are kept |
| Bits.GetBits | bfvmm/include/hve/arch/intel_x64/vtd/context_entry.h:96-97 | the result has no bits outside the mask and together with the bits outside gives back the word |
| Bits.Low32 | src/vic/arch/intel_x64/xapic_ctl.cpp:93-95 | the narrowing cast keeps exactly the low 32 bits |
| Hardware.ExitVector | src/hve/arch/intel_x64/external_interrupt.cpp:27-29 | the vector of an exit is the low 8 bits of the exit interruption-information field, below 256 |
| ContextEntry.DefaultIsZero | bfvmm/include/hve/arch/intel_x64/vtd/context_entry.h:41 | a default entry is not present, FPD clear, and every field reads 0 |
| ContextEntry.PEnableEffect | bfvmm/include/hve/arch/intel_x64/vtd/context_entry.h:43-64 | enabling P is seen by is_enabled, changes only bit 0 of data[0], and keeps FPD |
| ContextEntry.PDisableEffect | bfvmm/include/hve/arch/intel_x64/vtd/context_entry.h:43-64 | disabling P is seen by is_enabled, changes only bit 0 of data[0], and keeps FPD |
| ContextEntry.FpdEnableEffect | bfvmm/include/hve/arch/intel_x64/vtd/context_entry.h:66-87 | enabling FPD is seen by is_enabled, changes only bit 1, and keeps P |
| ContextEntry.FpdDisableEffect | bfvmm/include/hve/arch/intel_x64/vtd/context_entry.h:66-87 | disabling FPD is seen by is_enabled, changes only bit 1, and keeps P |
| ContextEntry.TSetEffect | bfvmm/include/hve/arch/intel_x64/vtd/context_entry.h:89-104 | get after set of the translation type gives the 2 bits written; nothing outside bits 3:2 of data[0] changes |
| ContextEntry.SlptptrSetEffect | bfvmm/include/hve/arch/intel_x64/vtd/context_entry.h:106-121 | get after set of the page-table pointer gives the 36 bits written; nothing outside bits 47:12 changes |
| ContextEntry.AwSetEffect | bfvmm/include/hve/arch/intel_x64/vtd/context_entry.h:123-138 | get after set of the address width gives the 3 bits written; nothing outside bits 2:0 of data[1] changes |
| ContextEntry.DidSetEffect | bfvmm/include/hve/arch/intel_x64/vtd/context_entry.h:140-155 | get after set of the domain identifier gives the 16 bits written; nothing outside bits 23:8 of data[1] changes |
| ContextEntry.AwDidIndependent | bfvmm/include/hve/arch/intel_x64/vtd/context_entry.h:123-155 | writing the address width keeps the domain identifier and vice versa |
| ContextEntry.Data0FieldsIndependent | bfvmm/include/hve/arch/intel_x64/vtd/context_entry.h:43-121 | writing T keeps P, FPD and the pointer; writing the pointer keeps T |
| ContextEntry.ContextEntry.constructor | bfvmm/include/hve/arch/intel_x64/vtd/context_entry.h:41 | a new in-place entry holds the default (all-zero) value |
| ContextEntry.ContextEntry.EnableP | bfvmm/include/hve/arch/intel_x64/vtd/context_entry.h:56-57 | the stored entry becomes the P-enabled entry |
| ContextEntry.ContextEntry.DisableP | bfvmm/include/hve/arch/intel_x64/vtd/context_entry.h:59-60 | the stored entry becomes the P-disabled entry |
| ContextEntry.ContextEntry.EnableFpd | bfvmm/include/hve/arch/intel_x64/vtd/context_entry.h:66-87 | the stored entry becomes the FPD-enabled entry |
| ContextEntry.ContextEntry.DisableFpd | bfvmm/include/hve/arch/intel_x64/vtd/context_entry.h:66-87 | the stored entry becomes the FPD-disabled entry |
| ContextEntry.ContextEntry.SetT | bfvmm/include/hve/arch/intel_x64/vtd/context_entry.h:99-100 | the stored entry becomes the entry with T written |
| ContextEntry.ContextEntry.SetSlptptr | bfvmm/include/hve/arch/intel_x64/vtd/context_entry.h:116-117 | the stored entry becomes the entry with the pointer written |
| ContextEntry.ContextEntry.SetAw | bfvmm/include/hve/arch/intel_x64/vtd/context_entry.h:133-134 | the stored entry becomes the entry with the address width written |
| ContextEntry.ContextEntry.SetDid | bfvmm/include/hve/arch/intel_x64/vtd/context_entry.h:150-151 | the stored entry becomes the entry with the domain identifier written |
| InterruptWindow.IsOpen | src/hve/arch/intel_x64/interrupt_window.cpp:27-59 | the window is closed when RFLAGS.IF is clear, when the guest is neither active nor halted, and under STI or MOV SS blocking |
| InterruptWindow.IsOpenExactly | src/hve/arch/intel_x64/interrupt_window.cpp:27-59 | the window is open exactly when IF is set, the guest is active or halted, and neither blocking bit is set |
| InterruptWindow.EntryInfo | src/hve/arch/intel_x64/interrupt_window.cpp:90-104 | the injected field carries the vector, type external interrupt, the valid bit, and nothing else |
| InterruptWindow.EntryInfoInjective | src/hve/arch/intel_x64/interrupt_window.cpp:90-104 | distinct 8-bit vectors give distinct injections |
| InterruptWindow.DeliverKeepsArmed | src/hve/arch/intel_x64/interrupt_window.cpp:77-88 | queueing an interrupt keeps "trapping armed exactly while vectors wait" |
| InterruptWindow.WindowExitKeepsArmed | src/hve/arch/intel_x64/interrupt_window.cpp:120-147 | a window exit keeps "trapping armed exactly while vectors wait" |
| InterruptWindow.DeliverAllClosedAppends | src/hve/arch/intel_x64/interrupt_window.cpp:77-88 | vectors arriving while the window is closed are appended in order, nothing is injected, and trapping is armed |
| InterruptWindow.DrainInOrder | src/hve/arch/intel_x64/interrupt_window.cpp:120-147 | n window exits inject the n oldest vectors in order, leave the rest, and disarm trapping when the queue empties |
| InterruptWindow.Fifo | src/hve/arch/intel_x64/interrupt_window.cpp:77-147 | vectors queued behind a closed window are injected first-in first-out, then trapping is off |
| InterruptWindow.FifoExample | src/hve/arch/intel_x64/interrupt_window.cpp:77-147 | 5, 7, 11 queued come out as 5, 7, 11 |
| InterruptWindow.InterruptWindow.constructor | src/hve/arch/intel_x64/interrupt_window.cpp:61-71 | no handlers and an empty pending queue; the base exit handler gains this component's handler for interrupt-window exits (reason 7) |
| InterruptWindow.InterruptWindow.AddHandler | src/hve/arch/intel_x64/interrupt_window.cpp:73-75 | the handler goes to the front of the chain |
| InterruptWindow.InterruptWindow.EnableTrapping | src/hve/arch/intel_x64/interrupt_window.cpp:106-111 | interrupt-window exiting is set |
| InterruptWindow.InterruptWindow.DisableTrapping | src/hve/arch/intel_x64/interrupt_window.cpp:113-118 | interrupt-window exiting is cleared |
| InterruptWindow.InterruptWindow.InjectInterrupt | src/hve/arch/intel_x64/interrupt_window.cpp:90-104 | the entry field holds the injection of the vector and exactly that injection is added to the trace |
| InterruptWindow.InterruptWindow.QueueInterrupt | src/hve/arch/intel_x64/interrupt_window.cpp:77-88 | queue, trapping and trace follow the pending-queue state machine; nothing is injected while the window is closed |
| InterruptWindow.InterruptWindow.Handle | src/hve/arch/intel_x64/interrupt_window.cpp:120-147 | the oldest pending vector is injected, the queue and trapping follow the state machine, and the exit is handled |
| Irq.ParseInfo | src/hve/arch/intel_x64/irq.cpp:42-46 | the info's vector is the low 8 bits of the exit interruption information |
| Irq.Irq.constructor | src/hve/arch/intel_x64/irq.cpp:52-60 | no vector has a handler; the base exit handler gains this component's handler for external-interrupt exits (reason 1) |
| Irq.Irq.AddHandler | src/hve/arch/intel_x64/irq.cpp:62-66 | the handler goes to the front of its vector's chain; other vectors are untouched |
| Irq.Irq.Trap | src/hve/arch/intel_x64/irq.cpp:68-73 | external-interrupt exiting and acknowledge-on-exit are both set |
| Irq.Irq.PassThrough | src/hve/arch/intel_x64/irq.cpp:75-80 | external-interrupt exiting and acknowledge-on-exit are both cleared |
| Irq.Irq.Handle | src/hve/arch/intel_x64/irq.cpp:82-93 | the exit is claimed exactly as first-claim-wins dispatch over the exit vector's chain decides |
| Irq.UnclaimedWithoutClaimer | src/hve/arch/intel_x64/irq.cpp:82-93 | a vector with no handler, or whose handlers all decline, is not claimed |
| ExternalInterrupt.ParseInfo | src/hve/arch/intel_x64/external_interrupt.cpp:27-29 | the info's vector is the low 8 bits of the exit interruption information |
| ExternalInterrupt.ExternalInterrupt.constructor | src/hve/arch/intel_x64/external_interrupt.cpp:31-43 | 256 empty chains and an empty log, logging off; the base exit handler gains this component's handler for external-interrupt exits (reason 1) |
| ExternalInterrupt.ExternalInterrupt.AddHandler | src/hve/arch/intel_x64/external_interrupt.cpp:52-54 | only the chain of the given vector changes: the handler goes to its front |
| ExternalInterrupt.ExternalInterrupt.EnableTrapping | src/hve/arch/intel_x64/external_interrupt.cpp:56-61 | external-interrupt exiting and acknowledge-on-exit are set |
| ExternalInterrupt.ExternalInterrupt.Handle | src/hve/arch/intel_x64/external_interrupt.cpp:63-79 | claimed exactly as dispatch over the vector's chain decides; in a debug build with logging on the vector is added to the capped log |
| IrqWindow.IrqWindow.constructor | src/hve/arch/intel_x64/irq_window.cpp:31-38 | no handlers; the base exit handler gains this component's handler for interrupt-window exits (reason 7) |
| IrqWindow.IrqWindow.AddHandler | src/hve/arch/intel_x64/irq_window.cpp:40-44 | the handler goes to the front of the chain |
| IrqWindow.IrqWindow.Enable | src/hve/arch/intel_x64/irq_window.cpp:46-50 | interrupt-window exiting is set |
| IrqWindow.IrqWindow.Disable | src/hve/arch/intel_x64/irq_window.cpp:52-56 | interrupt-window exiting is cleared |
| IrqWindow.IrqWindow.Handle | src/hve/arch/intel_x64/irq_window.cpp:58-68 | claimed exactly when some handler claims; an empty chain claims nothing |
| Msrs.HandleWrmsrEoi | src/vic/arch/intel_x64/irq_manager.cpp:86-95 | the guest's EOI write is dropped, RIP still advances, and the exit is claimed |
| Msrs.EoiChainClaims | src/vic/arch/intel_x64/interrupt_manager.cpp:30-38 | with the EOI handler at the front of the EOI MSR's chain, every guest EOI is claimed there and dropped |
| Msrs.Msrs.AddWrmsrHandler | src/vic/arch/intel_x64/irq_manager.cpp:181-184 | the handler goes to the front of that MSR's chain; other MSRs keep theirs |
| Msrs.Msrs.TrapOnWrmsrAccess | src/vic/arch/intel_x64/irq_manager.cpp:185 | the MSR is added to the trapped set |
| IrqManager.InstallNext | src/vic/arch/intel_x64/irq_manager.cpp:173-176 | one more loop iteration extends "the manager's handler alone on each installed vector, nothing elsewhere" by one vector |
| IrqManager.InstalledVectorsClaimed | src/vic/arch/intel_x64/irq_manager.cpp:173-176 | after installation every vector 32..255 is claimed by the manager's handler and every vector below 32 is unclaimed |
| IrqManager.IrqManager.Create | src/vic/arch/intel_x64/irq_manager.cpp:148-165 | fails, changing nothing, exactly when there is no local APIC, no x2APIC support or x2APIC mode is off, with the matching error; otherwise an initialised manager with the EOI handler in front, and the base exit handler holds the window then the IRQ component's exit handler |
| IrqManager.IrqManager.constructor | src/vic/arch/intel_x64/irq_manager.cpp:101-114 | handler on 32..255 only, window handler registered, EOI handler in front of the EOI MSR's chain and that MSR trapped, interrupts trapped, empty queue; the queue is armed exactly when window exiting starts off; the window and IRQ components, made in that order, have registered their exit handlers (reasons 7 and 1) with the base exit handler |
| IrqManager.IrqManager.InstallExtIrqHandlers | src/vic/arch/intel_x64/irq_manager.cpp:173-176 | the loop leaves the manager's handler alone on each of 32..255 and nothing below 32 |
| IrqManager.IrqManager.InjectIrq | src/vic/arch/intel_x64/irq_manager.cpp:223-235 | the entry field holds the injection of the vector, added once to the trace |
| IrqManager.IrqManager.HandleIrq | src/vic/arch/intel_x64/irq_manager.cpp:209-221 | EOI is written first, then the vector is injected if the window is open or queued with window exiting armed; an armed queue (exiting on exactly while vectors wait) stays armed |
| IrqManager.IrqManager.HandleExtIrq | src/vic/arch/intel_x64/irq_manager.cpp:190-196 | the exit's vector goes through HandleIrq and the exit is claimed |
| IrqManager.IrqManager.HandleIrqWin | src/vic/arch/intel_x64/irq_manager.cpp:198-207 | the oldest pending vector is injected, the queue shrinks by one, window exiting stays armed only while more wait, so the queue stays armed; the pending vector it needs is what the armed queue guarantees at a window exit |
| InterruptManager.InterruptManager.Create | src/vic/arch/intel_x64/interrupt_manager.cpp:87-104 | fails, changing nothing, exactly on the same three x2APIC conditions; otherwise an initialised manager, and the base exit handler holds the external-interrupt then the interrupt-window component's exit handler |
| InterruptManager.InterruptManager.constructor | src/vic/arch/intel_x64/interrupt_manager.cpp:40-53 | handler on 32..255 only, a fresh interrupt-window component, EOI handler in front of the EOI MSR's chain; the external-interrupt and interrupt-window components, made in that order, have registered their exit handlers (reasons 1 and 7) with the base exit handler |
| InterruptManager.InterruptManager.InstallExternalInterruptHandlers | src/vic/arch/intel_x64/interrupt_manager.cpp:106-122 | every slot 32..255 holds exactly the manager's handler and slots below 32 stay empty |
| InterruptManager.InterruptManager.HandleInterrupt | src/vic/arch/intel_x64/interrupt_manager.cpp:159-164 | EOI is written first, then the interrupt-window component injects or queues the vector |
| InterruptManager.InterruptManager.HandleExternalInterrupt | src/vic/arch/intel_x64/interrupt_manager.cpp:149-157 | the exit's vector goes through HandleInterrupt and the exit is claimed |
| Lapic.GpaOffset | src/vic/arch/intel_x64/xapic_ctl.cpp:30-56 | an APIC-page address selects register (address mod 4096) / 16 |
| Lapic.MsrOffset | src/vic/arch/intel_x64/x2apic_ctl.cpp:58-87 | an MSR selects register msr mod 256 |
| Lapic.CheckGpaOp | src/vic/arch/intel_x64/xapic_ctl.cpp:30-56 | the result is the address's register offset when the table allows the operation, and -1 exactly otherwise |
| Lapic.CheckMsrOp | src/vic/arch/intel_x64/xapic_ctl.cpp:58-87 | -1 outside the MSR window; inside it the register offset exactly when the table allows the operation |
| Lapic.XApicChecksAsTested | tests/vic/arch/intel_x64/test_xapic_ctl.cpp:64-114 | with the register facts the tests rely on, both checks give every answer the tests expect |
| Lapic.SelfIpiIcr | src/vic/arch/intel_x64/xapic_ctl.cpp:252-257 | the self-IPI ICR has the vector, fixed delivery, physical mode, level assert, edge trigger, self shorthand and no destination |
| Lapic.IcrSplitJoin | src/vic/arch/intel_x64/xapic_ctl.cpp:117-123 | splitting the ICR into two 32-bit registers and joining them gives the ICR back |
| Lapic.BankSelector | src/vic/arch/intel_x64/xapic_ctl.cpp:259-279 | the bank selector of a vector is below 8 |
| Lapic.BitIndex | src/vic/arch/intel_x64/xapic_ctl.cpp:259-279 | the bit position of a vector is vector mod 32 |
| Lapic.VectorBitSet | src/vic/arch/intel_x64/xapic_ctl.cpp:259-279 | the vector's bit test reads the vector's bank at the vector's bit |
| Lapic.BankBitPlace | src/vic/arch/intel_x64/xapic_ctl.cpp:259-279 | bank and bit of a vector are its low byte divided by 32 and mod 32 |
| Lapic.SelectX2Apic | src/vic/arch/intel_x64/irq_manager.cpp:148-165 | success exactly when the local APIC is present, x2APIC is supported and x2APIC mode is on; each failure has its own error |
| XApic.Slot | src/vic/arch/intel_x64/xapic_ctl.cpp:89-95 | each register offset lies at a word inside the 4 KiB page |
| XApic.XApicCtl.WriteRegister | src/vic/arch/intel_x64/xapic_ctl.cpp:93-95 | the register's word gets the low 32 bits of the value, and reading it back gives the value truncated |
| XApic.XApicCtl.ReadIcr | src/vic/arch/intel_x64/xapic_ctl.cpp:117-123 | the ICR read has the high register as its upper half and the low register as its lower half |
| XApic.XApicCtl.WriteEoi | src/vic/arch/intel_x64/xapic_ctl.cpp:190-192 | the EOI register is written with 0 |
| XApic.XApicCtl.WriteTpr | src/vic/arch/intel_x64/xapic_ctl.cpp:194-196 | the TPR word gets the low 32 bits of the value |
| XApic.XApicCtl.WriteSvr | src/vic/arch/intel_x64/xapic_ctl.cpp:198-200 | the SVR word gets the low 32 bits of the value |
| XApic.XApicCtl.WriteLvt | src/vic/arch/intel_x64/xapic_ctl.cpp:212-242 | the chosen LVT register's word gets the low 32 bits of the value |
| XApic.XApicCtl.WriteInitCount | src/vic/arch/intel_x64/xapic_ctl.cpp:244-246 | the initial-count word gets the low 32 bits of the value |
| XApic.XApicCtl.WriteDivConfig | src/vic/arch/intel_x64/xapic_ctl.cpp:248-250 | the divide-configuration word gets the low 32 bits of the value |
| XApic.XApicCtl.WriteIcr | src/vic/arch/intel_x64/xapic_ctl.cpp:202-210 | the high half is written, then a store fence, then the low half (which sends the IPI); reading the ICR back gives the value written |
| XApic.XApicCtl.WriteSelfIpi | src/vic/arch/intel_x64/xapic_ctl.cpp:252-257 | a self IPI is sent through the ICR: destination 0, fence, then the self-IPI low half |
| XApic.XApicCtl.LevelTriggered | src/vic/arch/intel_x64/xapic_ctl.cpp:259-279 | true exactly when the vector's bit is set in its TMR bank |
| XApic.XApicCtl.InService | src/vic/arch/intel_x64/xapic_ctl.cpp:281-301 | true exactly when the vector's bit is set in its ISR bank |
| X2Apic.MsrLayoutMatchesOffsets | src/vic/arch/intel_x64/x2apic_ctl.cpp:97-165 | each x2APIC MSR is 0x800 plus its xAPIC register offset, so the two controllers agree on layout |
| X2Apic.SelfIpiOnlyVectorField | src/vic/arch/intel_x64/x2apic_ctl.cpp:235-237 | the SELF IPI write sets the vector field to the vector and keeps every other bit |
| X2Apic.X2ApicCtl.constructor | include/vic/arch/intel_x64/x2apic_ctl.h:167 | the controller keeps the processor, table and MSR window it is given |
| X2Apic.X2ApicCtl.WriteRegister | src/vic/arch/intel_x64/x2apic_ctl.cpp:93-95 | the register's MSR is written with the value, which reads back unchanged |
| X2Apic.X2ApicCtl.WriteEoi | src/vic/arch/intel_x64/x2apic_ctl.cpp:184-186 | the EOI MSR is written with 0 |
| X2Apic.X2ApicCtl.WriteTpr | src/vic/arch/intel_x64/x2apic_ctl.cpp:188-190 | the TPR MSR is written with the value |
| X2Apic.X2ApicCtl.WriteSvr | src/vic/arch/intel_x64/x2apic_ctl.cpp:192-194 | the SVR MSR is written with the value |
| X2Apic.X2ApicCtl.WriteIcr | src/vic/arch/intel_x64/x2apic_ctl.cpp:196-198 | the whole 64-bit ICR is written in one MSR write and reads back unchanged |
| X2Apic.X2ApicCtl.WriteLvt | src/vic/arch/intel_x64/x2apic_ctl.cpp:200-216 | the chosen LVT MSR is written with the value |
| X2Apic.X2ApicCtl.WriteInitCount | src/vic/arch/intel_x64/x2apic_ctl.cpp:218-220 | the initial-count MSR is written with the value |
| X2Apic.X2ApicCtl.WriteDivConfig | src/vic/arch/intel_x64/x2apic_ctl.cpp:222-224 | the divide-configuration MSR is written with the value |
| X2Apic.X2ApicCtl.WriteSelfIpi | src/vic/arch/intel_x64/x2apic_ctl.cpp:235-237 | the SELF IPI MSR gets its old value with the vector field replaced |
| X2Apic.X2ApicCtl.LevelTriggered | src/vic/arch/intel_x64/x2apic_ctl.cpp:250-270 | true exactly when the vector's bit is set in its TMR bank |
| X2Apic.X2ApicCtl.InService | src/vic/arch/intel_x64/x2apic_ctl.cpp:283-303 | true exactly when the vector's bit is set in its ISR bank |
| Cpuid.PairHash | include/hve/arch/intel_x64/cpuid.h:65-71 | the pair hash is 0 or 1: an OR of two comparisons (low half of hash(a) non-zero, high half of hash(b) above 32), not a combination of the hashes |
| Cpuid.Baseline | src/hve/arch/intel_x64/cpuid.cpp:124-138 | the info handlers start from has the processor's 32-bit results zero-extended and both suppress flags clear |
| Cpuid.WriteBackLow32 | src/hve/arch/intel_x64/cpuid.cpp:153-157 | the intended write-back puts the low 32 bits of each result in its register and keeps the register's high 32 bits |
| Cpuid.CpuidExitEffects | src/hve/arch/intel_x64/cpuid.cpp:150-179 | an unclaimed exit leaves the guest registers alone; a claimed one writes back unless suppressed (the intended write-back) and advances RIP unless suppressed |
| Cpuid.WriteBackDiscardedAsWritten | src/hve/arch/intel_x64/cpuid.cpp:153-167 | as written, RAX..RDX keep their values on every exit, while a claimed exit that asks for the write still logs an out record |
| Cpuid.WriteBackDiscardedExample | src/hve/arch/intel_x64/cpuid.cpp:153-157 | a handler answering 0x1234 in RAX leaves a zero RAX at 0 as written and makes it 0x1234 under the intended write-back |
| Cpuid.CpuidRecordInjective | include/hve/arch/intel_x64/cpuid.h:175-183 | a correctly filled record determines the key, the four results and the direction |
| Cpuid.RecordAsWrittenMisfiled | src/hve/arch/intel_x64/cpuid.cpp:140-148 | as written, records never mark the written-back result and store RAX where the leaf belongs |
| Cpuid.LogAfterBounded | include/hve/arch/intel_x64/cpuid.h:188-193 | with add_record the log stays within CPUID_LOG_MAX and otherwise gains the in record and, on write-back, the out record |
| Cpuid.LogAsWrittenUnbounded | src/hve/arch/intel_x64/cpuid.cpp:140-167 | as written, a full log grows past CPUID_LOG_MAX on the next exit |
| Cpuid.Cpuid.constructor | src/hve/arch/intel_x64/cpuid.cpp:26-36 | no handlers, logging off, empty log; the base exit handler gains `handle_cpuid` for CPUID exits (reason 10) |
| Cpuid.Cpuid.AddCpuidHandler | src/hve/arch/intel_x64/cpuid.cpp:49-51 | the handler goes to the front of exactly the (leaf, subleaf) chain; every other key keeps its chain |
| Cpuid.Cpuid.EnableLog | src/hve/arch/intel_x64/cpuid.cpp:59-61 | logging is on |
| Cpuid.Cpuid.DisableLog | src/hve/arch/intel_x64/cpuid.cpp:63-65 | logging is off |
| Cpuid.Cpuid.HandleCpuid | src/hve/arch/intel_x64/cpuid.cpp:115-180 | with no chain for (RAX, RCX) the exit is declined and nothing changes; otherwise the chain runs over the hardware baseline, the guest registers change as the claim and suppress flags say, the log gains its records through the capped add, and the exit is handled exactly when a handler claims |
| CpuidEmulation.LogAccess | src/exit_handler/src/exit_handler_intel_x64_eapis_cpuid_emulation.cpp:39-41 | the key's counter goes up by one and no other counter moves |
| CpuidEmulation.LogAccessesCounts | src/exit_handler/src/exit_handler_intel_x64_eapis_cpuid_emulation.cpp:39-41 | n accesses to one key raise its counter by exactly n and leave the others |
| CpuidEmulation.Emulated | src/exit_handler/src/exit_handler_intel_x64_eapis_cpuid_emulation.cpp:43-52 | an emulated CPUID puts the stored values in RAX..RDX, advances RIP, and changes no other register |
| CpuidEmulation.CpuidEmulation.constructor | src/exit_handler/src/exit_handler_intel_x64_eapis_cpuid_emulation.cpp:32-58 | logging off and no counters |
| CpuidEmulation.CpuidEmulation.LogCpuidAccess | src/exit_handler/src/exit_handler_intel_x64_eapis_cpuid_emulation.cpp:24-26 | the access log is switched on or off as asked |
| CpuidEmulation.CpuidEmulation.ClearCpuidAccessLog | src/exit_handler/src/exit_handler_intel_x64_eapis_cpuid_emulation.cpp:28-30 | every counter reads 0 afterwards |
| CpuidEmulation.CpuidEmulation.HandleExitCpuid | src/exit_handler/src/exit_handler_intel_x64_eapis_cpuid_emulation.cpp:32-58 | the key is counted when logging is on; an emulated key gets its stored values, any other goes to the fallback |
| SipiSignal.SipiVector | bfvmm/src/hve/arch/intel_x64/vmexit/sipi_signal.cpp:194-198 | the SIPI vector from the exit qualification is below 256 |
| SipiSignal.StartAddress | bfvmm/src/hve/arch/intel_x64/vmexit/sipi_signal.cpp:194-206 | after the SIPI the guest is active and starts at 0x000VV000: CS selector VV00, CS base VV000, RIP 0 |
| SipiSignal.ResetForgetsPast | bfvmm/src/hve/arch/intel_x64/vmexit/sipi_signal.cpp:42-209 | the state after a SIPI depends only on the vector, not on the state before |
| SipiSignal.ResetIdempotent | bfvmm/src/hve/arch/intel_x64/vmexit/sipi_signal.cpp:42-209 | a second SIPI with the same vector changes nothing more |
| SipiSignal.SipiSignal.Handle | bfvmm/src/hve/arch/intel_x64/vmexit/sipi_signal.cpp:42-209 | the guest state becomes the reset state for the exit's vector, the registers the reset values, and the exit is handled |
| InitSignal.InitFilterExamples | bfvmm/src/hve/arch/intel_x64/vmexit/init_signal.cpp:57-82 | self IPIs and de-assert or non-INIT ICR writes are not INIT asserts; an INIT assert is |
| InitSignal.InitThenSipi | bfvmm/src/hve/arch/intel_x64/vmexit/init_signal.cpp:84-95 | INIT parks the guest in wait-for-SIPI, and the SIPI that follows starts it at the vector's address |
| InitSignal.Handshake.constructor | bfvmm/src/hve/arch/intel_x64/vmexit/init_signal.cpp:47 | the handled flag starts false |
| InitSignal.InitSignal.HandleIcrWrite | bfvmm/src/hve/arch/intel_x64/vmexit/init_signal.cpp:57-82 | an INIT-assert ICR write is performed on the ICR by the handler itself, the guest's write dropped and the handshake reset; any other ICR write passes on unchanged; every ICR write is claimed |
| InitSignal.InitSignal.Handle | bfvmm/src/hve/arch/intel_x64/vmexit/init_signal.cpp:84-95 | the guest is put in wait-for-SIPI, the handshake is marked handled, and the exit is handled |
| IoBitmap.SetBitEffect | include/vmcs/vmcs_intel_x64_eapis.h:127-144 | setting a bit of a byte sets it and keeps the seven others |
| IoBitmap.ClearBitEffect | include/vmcs/vmcs_intel_x64_eapis.h:163-180 | clearing a bit of a byte clears it and keeps the seven others |
| IoBitmap.FullAndEmptyBytes | include/vmcs/vmcs_intel_x64_eapis.h:146-197 | 0xFF has every bit set and 0 none |
| IoBitmap.ByteOf | include/vmcs/vmcs_intel_x64_eapis.h:127-144 | a port's byte lies inside its 4 KiB bitmap |
| IoBitmap.BitIndexOf | include/vmcs/vmcs_intel_x64_eapis.h:127-144 | a port's bit index is below 8 |
| IoBitmap.SameByteSameBit | include/vmcs/vmcs_intel_x64_eapis.h:127-144 | two ports sharing bitmap and byte are equal exactly when they share the bit |
| IoBitmap.SetPort | include/vmcs/vmcs_intel_x64_eapis.h:127-180 | both bitmaps keep their 4 KiB size |
| IoBitmap.SetPortByte | include/vmcs/vmcs_intel_x64_eapis.h:127-180 | only the byte holding the port changes |
| IoBitmap.UpdateBit | include/vmcs/vmcs_intel_x64_eapis.h:127-180 | setting or clearing one bit decides that bit and keeps the others |
| IoBitmap.SetPortSameByte | include/vmcs/vmcs_intel_x64_eapis.h:127-180 | ports sharing the byte keep their setting |
| IoBitmap.SetPortAt | include/vmcs/vmcs_intel_x64_eapis.h:127-180 | the port gets the requested setting and any other port keeps its own |
| IoBitmap.SetPortEffect | include/vmcs/vmcs_intel_x64_eapis.h:127-180 | the same for every port at once |
| IoBitmap.FilledBitmaps | include/vmcs/vmcs_intel_x64_eapis.h:146-197 | bitmaps of all 0xFF trap every port, bitmaps of all 0 trap none |
| VmcsEapis.StoredTicks | src/vmcs/src/vmcs_intel_x64_eapis_preemption.cpp:52-59 | the stored timer value fits the 32-bit field |
| VmcsEapis.GetAfterSet | src/vmcs/src/vmcs_intel_x64_eapis_preemption.cpp:52-68 | get after set gives the requested ticks rounded down to a multiple of the multiplier when it fits the field |
| VmcsEapis.SetTruncates | src/vmcs/src/vmcs_intel_x64_eapis_preemption.cpp:52-59 | 2^32 ticks at multiplier 1 is stored as 0 |
| VmcsEapis.VmcsEapis.constructor | include/vmcs/vmcs_intel_x64_eapis.h:56-64 | VPID allocated but off, no port trapped, bitmaps off, no timer |
| VmcsEapis.VmcsEapis.EnableVpid | include/vmcs/vmcs_intel_x64_eapis.h:73-87 | VPID on with this VMCS's identifier |
| VmcsEapis.VmcsEapis.DisableVpid | include/vmcs/vmcs_intel_x64_eapis.h:89-101 | VPID off and the VPID field 0 |
| VmcsEapis.VmcsEapis.EnableIoBitmaps | include/vmcs/vmcs_intel_x64_eapis.h:103-113 | the I/O bitmaps are in use |
| VmcsEapis.VmcsEapis.DisableIoBitmaps | include/vmcs/vmcs_intel_x64_eapis.h:115-125 | the I/O bitmaps are not in use |
| VmcsEapis.VmcsEapis.SetIoAccess | include/vmcs/vmcs_intel_x64_eapis.h:127-180 | the port's bit is set or cleared and every other port keeps its setting |
| VmcsEapis.VmcsEapis.TrapOnIoAccess | include/vmcs/vmcs_intel_x64_eapis.h:127-144 | the port traps from now on and every other port keeps its setting |
| VmcsEapis.VmcsEapis.PassThroughIoAccess | include/vmcs/vmcs_intel_x64_eapis.h:163-180 | the port passes through from now on and every other port keeps its setting |
| VmcsEapis.VmcsEapis.Fill | include/vmcs/vmcs_intel_x64_eapis.h:146-197 | every byte of both bitmaps holds the fill value |
| VmcsEapis.VmcsEapis.TrapOnAllIoAccesses | include/vmcs/vmcs_intel_x64_eapis.h:146-161 | every port traps |
| VmcsEapis.VmcsEapis.PassThroughAllIoAccesses | include/vmcs/vmcs_intel_x64_eapis.h:182-197 | no port traps |
| VmcsEapis.VmcsEapis.WhitelistIoAccess | include/vmcs/vmcs_intel_x64_eapis.h:199-217 | a port traps exactly when it is not listed |
| VmcsEapis.VmcsEapis.BlacklistIoAccess | include/vmcs/vmcs_intel_x64_eapis.h:219-237 | a port traps exactly when it is listed |
| VmcsEapis.VmcsEapis.EnablePreemptionTimer | src/vmcs/src/vmcs_intel_x64_eapis_preemption.cpp:31-41 | both timer controls on, the multiplier 2 to the processor's rate bit, the timer 0 |
| VmcsEapis.VmcsEapis.DisablePreemptionTimer | src/vmcs/src/vmcs_intel_x64_eapis_preemption.cpp:43-50 | both timer controls off and the timer cleared |
| VmcsEapis.VmcsEapis.SetPreemptionTimer | src/vmcs/src/vmcs_intel_x64_eapis_preemption.cpp:52-59 | an error exactly before the timer is enabled; otherwise the field holds ticks / multiplier truncated to 32 bits |
| VmcsEapis.VmcsEapis.GetPreemptionTimer | src/vmcs/src/vmcs_intel_x64_eapis_preemption.cpp:61-68 | an error before the timer is enabled; otherwise the field times the multiplier |
| VmcsEapis.VmcsEapis.ClearPreemptionTimer | src/vmcs/src/vmcs_intel_x64_eapis_preemption.cpp:70-77 | the timer is 0 once enabled; nothing happens before |
| Apis.Apis.constructor | bfvmm/src/hve/arch/intel_x64/apis.cpp:26-38 | unrestricted guest on; the INIT and SIPI handlers are made and register themselves, so the base exit handler holds the INIT then the SIPI exit handler, a zeroed MSR bitmap is published with use-MSR-bitmap on, and the WRMSR component holds the ICR write handler; no other component, no I/O bitmap and no CR3 exiting yet |
| Apis.Apis.RegisterInitSignal | bfvmm/src/hve/arch/intel_x64/vmexit/init_signal.cpp:29-41 | the INIT exit handler goes to the base exit handler under exit reason 3, and the x2APIC ICR write handler to the WRMSR component, which exists afterwards together with the MSR bitmap |
| Apis.Apis.RegisterSipiSignal | bfvmm/src/hve/arch/intel_x64/vmexit/sipi_signal.cpp:29-36 | the SIPI exit handler goes to the base exit handler under exit reason 4 |
| Apis.Apis.SetEptp | bfvmm/src/hve/arch/intel_x64/apis.cpp:52-60 | the EPT component exists (kept if it did) and receives the map |
| Apis.Apis.DisableEpt | bfvmm/src/hve/arch/intel_x64/apis.cpp:62-68 | the EPT component, if any, receives a null EPTP; without one nothing happens |
| Apis.Apis.EnableVpid | bfvmm/src/hve/arch/intel_x64/apis.cpp:78-86 | the VPID component exists and is asked to enable |
| Apis.Apis.DisableVpid | bfvmm/src/hve/arch/intel_x64/apis.cpp:88-94 | the VPID component, if any, is asked to disable |
| Apis.Apis.CheckCrall | bfvmm/src/hve/arch/intel_x64/apis.cpp:459-465 | the control-register component exists, made fresh only when missing |
| Apis.Apis.CheckRdcr3 | bfvmm/src/hve/arch/intel_x64/apis.cpp:467-476 | CR3-read exiting is asked for once: on the first call only |
| Apis.Apis.CheckWrcr3 | bfvmm/src/hve/arch/intel_x64/apis.cpp:478-487 | CR3-write exiting is asked for once: on the first call only |
| Apis.Apis.EnableWrcr0Exiting | bfvmm/src/hve/arch/intel_x64/apis.cpp:108-114 | the control-register component is asked for CR0-write exiting with the mask and shadow |
| Apis.Apis.EnableWrcr4Exiting | bfvmm/src/hve/arch/intel_x64/apis.cpp:116-122 | the control-register component is asked for CR4-write exiting with the mask and shadow |
| Apis.Apis.AddWriteCrHandler | bfvmm/src/hve/arch/intel_x64/apis.cpp:124-155 | a CR0 or CR4 write handler reaches the control-register component |
| Apis.Apis.AddRdcr3Handler | bfvmm/src/hve/arch/intel_x64/apis.cpp:132-138 | CR3-read exiting is on and the handler reaches the component after it |
| Apis.Apis.AddWrcr3Handler | bfvmm/src/hve/arch/intel_x64/apis.cpp:140-146 | CR3-write exiting is on and the handler reaches the component after it |
| Apis.Apis.AddCpuidHandler | bfvmm/src/hve/arch/intel_x64/apis.cpp:164-173 | the CPUID component exists and receives the handler for the leaf |
| Apis.Apis.AddEptMisconfigurationHandler | bfvmm/src/hve/arch/intel_x64/apis.cpp:183-192 | the EPT-misconfiguration component exists and receives the handler |
| Apis.Apis.AddEptViolationHandler | bfvmm/src/hve/arch/intel_x64/apis.cpp:202-233 | the EPT-violation component exists and receives the handler for its access kind |
| Apis.Apis.AddExternalInterruptHandler | bfvmm/src/hve/arch/intel_x64/apis.cpp:243-254 | the component exists, is enabled exactly when this call creates it, and receives the handler |
| Apis.Apis.DisableExternalInterrupts | bfvmm/src/hve/arch/intel_x64/apis.cpp:255-261 | the component, if any, is asked to disable |
| Apis.Apis.TrapOnNextInterruptWindow | bfvmm/src/hve/arch/intel_x64/apis.cpp:271-280 | the interrupt-window component exists and is asked to enable |
| Apis.Apis.DisableInterruptWindow | bfvmm/src/hve/arch/intel_x64/apis.cpp:281-290 | the interrupt-window component exists (made if missing) and is asked to disable |
| Apis.Apis.AddInterruptWindowHandler | bfvmm/src/hve/arch/intel_x64/apis.cpp:291-301 | the interrupt-window component exists and receives the handler |
| Apis.Apis.IsInterruptWindowOpen | bfvmm/src/hve/arch/intel_x64/apis.cpp:302-311 | the answer is the interrupt-window predicate on the current guest state |
| Apis.Apis.InjectExternalInterrupt | bfvmm/src/hve/arch/intel_x64/apis.cpp:312-320 | the interrupt-window component exists and is asked to inject the vector |
| Apis.Apis.AddIoInstructionHandler | bfvmm/src/hve/arch/intel_x64/apis.cpp:330-343 | the I/O bitmaps exist before the I/O component receives the port's handler pair |
| Apis.Apis.CheckIoBitmaps | bfvmm/src/hve/arch/intel_x64/apis.cpp:489-502 | two zeroed pages are made once, A published at byte 0 and B at byte 4096 (octal 010000), and bitmaps enabled; later calls change nothing |
| Apis.Apis.AddMonitorTrapHandler | bfvmm/src/hve/arch/intel_x64/apis.cpp:353-363 | the monitor-trap component exists and receives the handler |
| Apis.Apis.EnableMonitorTrapFlag | bfvmm/src/hve/arch/intel_x64/apis.cpp:364-372 | the monitor-trap component exists and is asked to enable |
| Apis.Apis.AddMovDrHandler | bfvmm/src/hve/arch/intel_x64/apis.cpp:382-391 | the MOV-DR component exists and receives the handler |
| Apis.Apis.CheckMsrBitmap | bfvmm/src/hve/arch/intel_x64/apis.cpp:504-515 | one zeroed page is made once, published and enabled; later calls change nothing |
| Apis.Apis.CheckRdmsrHandler | bfvmm/src/hve/arch/intel_x64/apis.cpp:517-525 | the MSR bitmap exists first, then the RDMSR component, each made at most once (also what pass_through_all_rdmsr_handler_accesses does) |
| Apis.Apis.CheckWrmsrHandler | bfvmm/src/hve/arch/intel_x64/apis.cpp:527-535 | the MSR bitmap exists first, then the WRMSR component, each made at most once (also what pass_through_all_wrmsr_handler_accesses does) |
| Apis.Apis.AddRdmsrHandler | bfvmm/src/hve/arch/intel_x64/apis.cpp:405-411 | the bitmap and RDMSR component exist and the component receives the handler for the MSR |
| Apis.Apis.AddWrmsrHandler | bfvmm/src/hve/arch/intel_x64/apis.cpp:425-431 | the bitmap and WRMSR component exist and the component receives the handler for the MSR |
| Apis.Apis.AddExitHandler | bfvmm/src/hve/arch/intel_x64/apis.cpp:449-453 | the handler for the exit reason goes to the base exit handler |
| Apis.SharedMsrBitmap | bfvmm/src/hve/arch/intel_x64/apis.cpp:504-535 | the MSR bitmap a new facade starts with (made for the INIT handler's ICR write handler) is the one page both MSR components find, in either order, published and enabled; the WRMSR component is the one holding the ICR handler |
| Vcpu.FirstUnavailable | include/vcpu/arch/intel_x64/vcpu.h:565-571 | none exactly when every reason is served; otherwise a listed reason no component serves |
| Vcpu.FirstUnavailableConcat | include/vcpu/arch/intel_x64/vcpu.h:565-571 | going through a list in two parts fails at the first part's failure, or else at the second's |
| Vcpu.DefaultListServed | include/vcpu/arch/intel_x64/vcpu.h:518-526 | every reason of the default list has a component |
| Vcpu.PrefixGrows | include/vcpu/arch/intel_x64/vcpu.h:565-571 | a served prefix followed by a served reason is a longer served prefix with that reason added |
| Vcpu.PrefixThenFailure | include/vcpu/arch/intel_x64/vcpu.h:565-571 | a served prefix followed by an unserved reason makes that reason the list's first failure |
| Vcpu.Vcpu.Empty | include/vcpu/arch/intel_x64/vcpu.h:499-516 | no component, no bitmap, no CR exiting, empty handler table |
| Vcpu.Vcpu.Create | include/vcpu/arch/intel_x64/vcpu.h:62-67 | succeeds exactly when every needed reason is served, with one handler per reason; otherwise fails with the first unserved reason |
| Vcpu.Vcpu.CreateDefault | include/vcpu/arch/intel_x64/vcpu.h:50-55 | the default vCPU has all six components, each registered |
| Vcpu.Vcpu.InitHandlers | include/vcpu/arch/intel_x64/vcpu.h:565-571 | succeeds exactly when every reason is served, adding their handlers; otherwise fails with the first unserved reason |
| Vcpu.Vcpu.InitExitHandler | include/vcpu/arch/intel_x64/vcpu.h:528-563 | succeeds exactly for the six served reasons, registering one; any other reason is an error that changes nothing |
| Vcpu.Vcpu.InitControlRegister | include/vcpu/arch/intel_x64/vcpu.h:381-387 | the control-register component exists, made only when missing, and is registered under reason 28 |
| Vcpu.Vcpu.InitCpuid | include/vcpu/arch/intel_x64/vcpu.h:429-435 | the CPUID component exists, made only when missing, and is registered under reason 10 |
| Vcpu.Vcpu.InitMonitorTrap | include/vcpu/arch/intel_x64/vcpu.h:437-441 | a brand-new monitor-trap component is made on every call and registered under reason 37 |
| Vcpu.Vcpu.InitMovDr | include/vcpu/arch/intel_x64/vcpu.h:443-449 | the MOV-DR component exists, made only when missing, and is registered under reason 29 |
| Vcpu.Vcpu.CheckMsrBitmap | include/vcpu/arch/intel_x64/vcpu.h:451-461 | one zeroed page is made once and published; later calls change nothing |
| Vcpu.Vcpu.InitRdmsr | include/vcpu/arch/intel_x64/vcpu.h:463-473 | the bitmap exists, then the RDMSR component holding that bitmap, registered under reason 31 |
| Vcpu.Vcpu.InitWrmsr | include/vcpu/arch/intel_x64/vcpu.h:475-485 | the bitmap exists, then the WRMSR component holding that bitmap, registered under reason 32 |
| Vcpu.Vcpu.InitVpid | include/vcpu/arch/intel_x64/vcpu.h:487-492 | the VPID component exists, made only when missing, and is not registered |
| Vcpu.Vcpu.CheckCrExiting | include/vcpu/arch/intel_x64/vcpu.h:389-427 | the CR3/CR8 exit is asked for on the first request only and is recorded as on |
| Vcpu.Vcpu.EnableWriteCrExiting | include/vcpu/arch/intel_x64/vcpu.h:108-125 | the component is asked for CR0- or CR4-write exiting with the mask and shadow |
| Vcpu.Vcpu.AddWriteCrHandler | include/vcpu/arch/intel_x64/vcpu.h:132-169 | a CR0 or CR4 write handler reaches the control-register component |
| Vcpu.Vcpu.AddExitingCrHandler | include/vcpu/arch/intel_x64/vcpu.h:143-191 | a CR3/CR8 handler reaches the component after its exit is switched on |
| Vcpu.Vcpu.AddCpuidHandler | include/vcpu/arch/intel_x64/vcpu.h:213-218 | the CPUID component receives the handler for the (leaf, subleaf) key |
| Vcpu.Vcpu.AddMonitorTrapHandler | include/vcpu/arch/intel_x64/vcpu.h:240-244 | the handler goes to a brand-new component, so earlier handlers are dropped |
| Vcpu.Vcpu.EnableMonitorTrapFlag | include/vcpu/arch/intel_x64/vcpu.h:251-255 | a brand-new monitor-trap component is asked to enable |
| Vcpu.Vcpu.AddMovDrHandler | include/vcpu/arch/intel_x64/vcpu.h:277-281 | the MOV-DR component receives the handler |
| Vcpu.Vcpu.PassThroughAllRdmsrAccesses | include/vcpu/arch/intel_x64/vcpu.h:303-304 | the RDMSR component exists, made only when missing |
| Vcpu.Vcpu.AddRdmsrHandler | include/vcpu/arch/intel_x64/vcpu.h:311-316 | the RDMSR component receives the handler for the MSR |
| Vcpu.Vcpu.PassThroughAllWrmsrAccesses | include/vcpu/arch/intel_x64/vcpu.h:364-365 | the WRMSR component exists, made only when missing |
| Vcpu.Vcpu.AddWrmsrHandler | include/vcpu/arch/intel_x64/vcpu.h:372-377 | the WRMSR component receives the handler for the MSR |
| Vcpu.Vcpu.EnableVpid | include/vcpu/arch/intel_x64/vcpu.h:338-342 | the VPID component exists and is asked to enable |
| Vcpu.MsrComponentsShareBitmap | include/vcpu/arch/intel_x64/vcpu.h:451-485 | once both MSR components exist they hold the one bitmap the VMCS points at |

## Left out

- Host-side setup done by the interrupt managers' constructors is not modelled: the host
  IDT and IST, `init_save_state`, and clearing RFLAGS.IF on the host
  (`irq_manager.cpp:101-114`, `interrupt_manager.cpp:40-53`). These act on host
  descriptor tables outside the guest state modelled here.
- InitSignal.InitSignal.HandleIcrWrite: the spin-wait (`wait_until_handled`) on `g_handled` across cores is not
  modelled. The handshake flag is a shared object whose final value is stated; it has no
  concurrent reader.
- Debug output (`dump`, `bfdebug` lines, the external-interrupt and CPUID log printing
  in the destructors) is I/O and is left out. The logs themselves are modelled.
- The internals of the EPT, VPID, control-register, MOV-DR, monitor-trap, RDMSR and
  WRMSR components are not part of this model. They are the calls the facades forward,
  recorded in order.
- `vmcs_intel_x64_eapis` `enable_ept`, `disable_ept`, `set_eptp` and `write_fields` are
  left out. They set VMCS fields that the EPT component owns.
- `vmcs_intel_x64_vmm_state_eapis.cpp`, the EFI integration test and the MSR verifier
  headers are host-state and test scaffolding, and are left out.
- The `default` branch of `check_gpa_op` in `xapic_ctl.cpp` and `x2apic_ctl.cpp` is left
  out. The operation is a two-value enumeration here, so that branch cannot be taken.
- `reg_set`, `msr_start_reg` and `msr_end_reg` are inputs. Their contents come from a
  header that is not part of this model; `Lapic.XApicChecksAsTested` states what the
  tests require of them.
- The `xapic_ctl` constructor is not part of this model. `XApic.XApicCtl.constructor`
  takes the APIC page, the permission table and the MSR window as inputs and writes
  nothing.
- The processor's own CPUID results and `create_key` are function parameters.
- Vcpu.Vcpu.InitHandlers: a thrown `runtime_error` becomes a `Failure`. Components
  made before the failing reason are kept, as they are in the source when the exception
  leaves the constructor.
- The delegate objects and their storage (`delegate.h`) are not modelled. A delegate is
  an identity, and its behaviour is the `run` parameter.

## Findings

| source | as written | input that shows it | evidently intended | confidence | as-written member | corrected member |
|---|---|---|---|---|---|---|
| src/hve/arch/intel_x64/cpuid.cpp:140-148 | the in and out log records are built from 5-value initialisers (`{rax, rbx, rcx, rdx, flag}`) for the 7-field `cpuid_record_t`, so the leaf field gets RAX, the subleaf RBX and the `out` flag is never set | any logged exit: leaf 1, results 0xA/0xB/0xC/0xD gives a record with leaf 0xA and `out` false for the written-back result | records carry the leaf and subleaf queried, the four results and whether the result was written back | not executed | Cpuid.RecordAsWrittenMisfiled | Cpuid.CpuidRecordInjective, Cpuid.Cpuid.HandleCpuid |
| src/hve/arch/intel_x64/cpuid.cpp:140-167 | records go to the log with `push_back`, bypassing `add_record` and its CPUID_LOG_MAX cap | a log already holding CPUID_LOG_MAX records and one more exit with logging on | the log stays within CPUID_LOG_MAX, as `add_record` (cpuid.h:188-193) ensures | not executed | Cpuid.LogAsWrittenUnbounded | Cpuid.LogAfterBounded |
| src/hve/arch/intel_x64/cpuid.cpp:153-157 | the four `set_bits` calls discard their results, so a claimer's answer never reaches RAX..RDX, while the out record is still logged | a handler that claims with RAX 0x1234 and ignore_write false, on a guest whose RAX is 0: RAX stays 0 | the low 32 bits of each register take the handler's result | not executed; depends on `set_bits` returning its result as its assigning callers use it | Cpuid.WriteBackDiscardedAsWritten, Cpuid.WriteBackDiscardedExample | Cpuid.WriteBackLow32, Cpuid.Cpuid.HandleCpuid |
