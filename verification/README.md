# JCOS kernel: device lifetimes, messages, capabilities and memory

JCOS is a single-processor capability kernel written in C. Its operations run with local
interrupts disabled, so each stretch of kernel code between two points where interrupts may come
in is one atomic step. This project models the kernel's stateful cores as step functions over
immutable states, proves what every step keeps and what holds over whole runs, and proves that
imperative versions with the loops, in-place updates and early exits of the C code leave exactly
the state those functions give.

The parts, each independent of the others except for `Slots` and `FrameSpans`:

- PCI device lifetimes (`Pci*`, `IrqEvents`, `PageRuns`): assignments, BARs and their mappings, DMA
  buffers and submissions, interrupts and crash recovery keep separate registries and counters.
  `PciLedger` and `PciRecovery` hold the steps, `PciInvariant` what the registries agree on,
  `PciEdits` to `PciRecoverySafety` why each step keeps it, `PciEffects` and `PciRecoveryExact` when
  each call succeeds and what it does, told by its arguments, `PciRuns`, `PciIdentities`, `PciTorn`,
  `PciTornRuns`, `PciDrain` and `PciResets` the run theorems, and `PciKernel` the imperative code.
- Message passing (`Ipc*`): one-slot mailboxes, one waiting receiver, one waiting sender with a
  staged message, timeouts with 64-bit wrap, abort and close. A blocking call is split at the point
  where the thread gives up the processor. A history of accepted, delivered and discarded messages
  and of returned calls states what exactly-once means. `IpcTruth` says what messages say,
  `IpcLifetimes` how long calls last, and `IpcOutcomes` when they succeed.
- Capability tables (`Capabilit*`): reference counts in objects, slots in many tables, generations
  issued once per boot.
- Physical frames and FAT32 (`Frame*`, `Fat32*`): a byte map, a count and a hint against a set of
  frames, and a list of ranges against the memory map; a sector-by-sector walk against a slice of a
  flat file, and that file against the table and the data area.
- Interrupt routing and the display lease (`IrqRouter*`, `Display*`).

Whatever the kernel asks of code outside a part (a capability lookup, a page-table insertion, a
frame, a configuration-space read, the outcome of a function-level reset, how parking ends) is a
parameter of the step, so every statement holds for every answer.

What the proofs showed about the code:

- A DMA buffer that is unmapped only in part, or that the kernel process owns, fails its own
  validity check for good. Every recovery pass reads every registered buffer, so from then on no
  recovery of any device becomes DMA-safe. Completion succeeds exactly when every registered buffer
  is intact (`DrainIffIntact`, `TornIsForever`, `TornFreezes`).
- One page removal that fails once is enough: `InnocentDeviceIsLost` is a run from boot in which the
  recovery of an unrelated device fails for good although its reset completed.
- A function-level reset runs with interrupts enabled, and its result is credited to whatever
  recovery is in the record by then. Credit goes wrong exactly when a successful reset lands on a
  quiesced record that holds another recovery than the one it was started for (`StepCreditedIff`,
  `RunCreditedIff`); `StaleCredit` is such a run. Never starting a second reset for a record that
  has one in flight prevents it (`DisciplinedRunsAreFresh`).
- The buffer passes of recovery find nothing left to do after the submission passes
  (`BufferPassesAreIdle`).
- The delivery counters of an interrupt balance without any assumption on saturation, because the
  sequence numbers run out first (`RunFromFresh`).
- The free-page count of the frame allocator is right exactly when the memory map's usable ranges
  are disjoint (`Init`, `TotalIffDisjoint`, and `OverlapIsCountedTwice` for a map where it is not).
- A memory map with more than 128 separate usable runs loses memory without notice; with at most
  128, every usable frame is managed (`WholeMapManaged`, `TooManyRuns`).
- A timed wait never times out early, and a poll catches it at the deadline or up to 2^63 - 1 ticks
  later; at 2^63 ticks it is missed (`TimesOutIff`, `TimeoutWindow`, `ReachedLapses`).
- Unreachable are: the invariant-failure halts of message passing, the roll-back in send, the failure
  of a timer registration, the reference-overflow guard of a grant, the halts of the interrupt
  router, and the halts of the device code where a child pin, an access pin or the DMA gate is given
  back.

Methods of the imperative classes that make a single guarded update serve the methods around them
and have no row below. Check the whole project with `dafny verify dfyconfig.toml`.

## Model

| member | source | states |
|---|---|---|
| `Slots.FindEmpty` | kernel/object_storage.h:19-22 | the scan returns the first empty slot, or the capacity when there is none |
| `PciRuns.StepSound` | kernel/pci_assignment.c:231-444 | every ledger operation keeps the cross-registry invariant, never halts, and either leaves every quarantine in place or closes one recovery whose record is DMA-safe (after a completed reset if one was required) |
| `PciRuns.RunKeepsInv` | kernel/pci_assignment.c:276-321 | the invariant survives any sequence of operations, with any answers from capability lookup, page tables, frame allocation and the device |
| `PciRuns.RunFromBoot` | kernel/pci_assignment.c:40-56 | from an empty system every run keeps the invariant and no next operation reaches a halt |
| `PciRuns.PinsConserved` | kernel/pci_assignment.c:276-321 | over every run: access count = BAR accesses + DMA buffer pins + interrupt pins, child count = registered BARs + buffers + interrupts, and a BAR access count = its live mappings |
| `PciRuns.GateIffOneSubmission` | kernel/pci_dma_submission.c:34-73 | the DMA gate is set if and only if a registered submission of the assignment exists, and there is at most one |
| `PciRuns.DmaExcludesCpu` | kernel/pci_dma_submission.c:105-172 | while a submission lives, no BAR access of its assignment is live, its buffer has no CPU mapping, its byte span lies inside the buffer, and the frames are neither free nor shared |
| `PciRuns.ExposedReusedOnlyAfterReset` | kernel/pci_assignment.c:348-371 | over every run, an exposed incarnation that is available again went through a step that closed a DMA-safe recovery with a completed reset |
| `PciRuns.BusMasterReusedOnlyAfterReset` | kernel/pci_device_recovery.c:143-160 | the same for a recovery record that says bus mastering; BusMasteringNeedsReset starts from what the device reads back |
| `PciRecoveryExact.BusMasteringNeedsReset` | kernel/pci_device_recovery.c:121-196 | over every run: if the command register reads back with bus mastering on when a recovery is begun, the device is available again only after a recovery of it was closed with a completed reset |
| `PciRecoveryExact.ExposureNeedsReset` | kernel/pci_assignment.c:348-371 | over every run: the same once the owner has marked the device exposed or noted inherited bus mastering |
| `PciRecoveryExact.BeginRecords` | kernel/pci_device_recovery.c:143-160 | a recovery that opens records the device, its incarnation, the caller, the bus mastering bit that was read and the exposure of the device, and nothing later in the call changes them |
| `PciRecoveryExact.BeginIff` | kernel/pci_device_recovery.c:121-196 | beginning a recovery succeeds if and only if the caller owns an assigned device without a recovery, the function is present and enumerated, and quiescing has nothing to fail on |
| `PciRecoveryExact.QuiesceIff` | kernel/pci_device_recovery.c:162-190 | the order of silencing, unmapping and quarantining reaches its end if and only if the router and the device answer, no page removal fails and every buffer is intact |
| `PciRecoveryExact.SweepIff` | kernel/pci_dma_submission.c:268-311 | each of the seven passes succeeds if and only if every record it reads lets it pass |
| `PciRecoveryExact.CompleteDmaIff` | kernel/pci_device_recovery.c:198-213 | the completion sweep succeeds if and only if every transfer of the device can be zeroed and every registered buffer is intact; then the device has no transfer left and the record is DMA-safe |
| `PciRecoveryExact.CompleteWithoutResetIff` | kernel/pci_device_recovery.c:215-233 | completion without reset succeeds if and only if the record is quiesced, needs no reset, the command register is unchanged and the sweep succeeds |
| `PciRecoveryExact.StartResetExact` | kernel/pci_device_recovery.c:235-250 | a reset starts if and only if the record is quiesced, needs one and the device supports it; it takes nothing but a place in flight |
| `PciRecoveryExact.FinishResetExact` | kernel/pci_device_recovery.c:252-281 | what each outcome of a reset leaves: a failed one fails the record, a complete one makes it DMA-safe or fails it as the sweep succeeds or fails, and one that was not attempted changes nothing |
| `PciRecoveryExact.CompleteAssignmentExact` | kernel/pci_device_recovery.c:283-304 | the device is released if and only if its record is DMA-safe and nothing of it is left; then it is available to anyone and the record is gone |
| `PciIdentities.StepKeepsIdentities` | kernel/pci_assignment.c:40-56 | every step: a record that stays in its slot stays the object it was made as; only counters, states and holders of it change |
| `PciIdentities.FramesConserved` | kernel/pci_dma_buffer.c:114-186 | every step but the allocator's own: no frame is lost or invented between the allocator and the buffers, whatever rolls back |
| `PciIdentities.OneBarPerRegister` | kernel/pci_bar_resource.c:91-171 | over every run: a device has at most one BAR record for each register |
| `PciIdentities.MappingsStayInside` | kernel/pci_bar_access.c:35-58 | over every run: a mapping never reaches outside the BAR it was made for |
| `PciRuns.FailedIsForever` | kernel/pci_device_recovery.c:235-304 | a failed record stays failed, and its assignment stays quarantined, in every later state |
| `PciRuns.QuarantineAdmitsNothing` | kernel/pci_assignment.c:299-346 | while quarantined, no operation adds an access pin, sets the gate or changes the owner; the only way out is closing a recovery of that assignment |
| `PciTorn.TornIsForever` | kernel/pci_dma_buffer.c:59-76 | a buffer that fails its own validity check never passes it again, and from then on no recovery record of any device becomes DMA-safe |
| `PciTorn.TornFreezes` | kernel/pci_device_recovery.c:198-213 | with such a buffer present, a quarantined assignment without a DMA-safe record stays quarantined in every run |
| `PciTorn.SweepKeepsTorn` | kernel/pci_dma_buffer.c:486-527 | a buffer pass that reaches the torn buffer does not succeed, and repairs nothing |
| `PciTorn.QuiesceFails` | kernel/pci_device_recovery.c:162-190 | quiescing any device fails while a torn buffer is registered |
| `PciTorn.CompleteDmaFails` | kernel/pci_device_recovery.c:198-213 | completing any recovery fails while a torn buffer is registered |
| `PciTornRuns.TornReached` | kernel/pci_dma_buffer.c:255-269 | a concrete run from boot in which one failed page removal tears a buffer, while the recovery of another device waits for its reset |
| `PciTornRuns.InnocentDeviceIsLost` | kernel/pci_device_recovery.c:264-281 | from there the reset of that other device completes, its recovery fails all the same, and the device stays quarantined in every continuation |
| `PciDrain.DrainIffIntact` | kernel/pci_device_recovery.c:198-213 | from a quiesced record and with working memory, completion succeeds if and only if every registered buffer is intact; then no submission, gate or pin is left, every buffer is ready, and those that were quarantined have been zeroed |
| `PciDrain.ResetPassSucceeds` | kernel/pci_dma_submission.c:290-311 | the submission pass of a quiesced device never fails |
| `PciDrain.BufferPassSucceedsIff` | kernel/pci_dma_buffer.c:509-527 | the buffer pass changes nothing after the submission pass, and succeeds if and only if every buffer it reads is intact |
| `PciSweeps.SweepSettles` | kernel/pci_dma_submission.c:268-311 | each of the seven per-assignment passes keeps the invariant, never halts, touches only its own registries, and on success leaves nothing of the assignment unsettled |
| `PciSweeps.BufferPassesAreIdle` | kernel/pci_dma_buffer.c:486-527 | after the submission passes the buffer quarantine and reset passes have nothing to do |
| `PciResets.StepCreditedIff` | kernel/pci_device_recovery.c:235-281 | a step leaves a completed recovery credited with a reset that was not started for it, if and only if it lands a successful reset on a quiesced record that by then holds another recovery |
| `PciResets.RunCreditedIff` | kernel/pci_device_recovery.c:235-281 | credits are right in every state of a run if and only if no step of it lands such a stale reset |
| `PciResets.ExposedReusedOnlyAfterOwnReset` | kernel/pci_device_recovery.c:235-304 | in a run without stale landings, an exposed device that is available again was released by a recovery whose own reset completed |
| `PciResets.DisciplinedRunsAreFresh` | kernel/pci_device_recovery.c:235-250 | what a caller can do: a run that starts no second reset for a record with one in flight lands no stale reset |
| `PciResets.StaleCredit` | kernel/pci_device_recovery.c:250-262 | a concrete run from boot in which a recovery becomes DMA-safe on a reset started for an earlier recovery in the same record |
| `PciRecoverySafety.BeginRecoverySound` | kernel/pci_device_recovery.c:121-196 | beginning a recovery keeps the invariant at every point where it may give up, and never releases a device |
| `PciRecoverySafety.CompleteDmaSound` | kernel/pci_device_recovery.c:198-213 | a completion that succeeds moves only its record to DMA-safe; one that fails leaves every quarantine in place |
| `PciRecoverySafety.CompleteWithoutResetSound` | kernel/pci_device_recovery.c:215-233 | completion without reset keeps the invariant and releases nothing |
| `PciRecoverySafety.FinishResetSound` | kernel/pci_device_recovery.c:252-281 | whatever a reset reports and whatever its record holds by then, the invariant is kept |
| `PciRecoverySafety.CompleteAssignmentSound` | kernel/pci_device_recovery.c:283-304 | the assignment is released only from a DMA-safe record, with a completed reset if it was exposed or bus-mastering |
| `PciInvariant.BarAlwaysValid` | kernel/pci_bar_resource.c:39-66 | a registered BAR always passes its validity check |
| `PciInvariant.MappingAlwaysValid` | kernel/pci_bar_access.c:68-87 | a registered mapping always passes its validity check, and its BAR has an access |
| `PciInvariant.BufferValidIffIntact` | kernel/pci_dma_buffer.c:47-76 | a registered buffer passes its validity check if and only if it is fully mapped or fully unmapped and not owned by the kernel process |
| `PciInvariant.SubmissionAlwaysValid` | kernel/pci_dma_submission.c:34-73 | a registered submission always passes its validity check |
| `PciInvariant.IrqAlwaysValid` | kernel/pci_irq_resource.c:42-64 | a registered interrupt always passes its validity check |
| `PciInvariant.RecoveryAlwaysValid` | kernel/pci_device_recovery.c:51-63 | a registered recovery always passes its validity check |
| `PciOperations.CreateAssignmentSafe` | kernel/pci_assignment.c:81-103 | creation keeps the invariant from every state that has it, reaches no halt, and releases no quarantined device |
| `PciOperations.DestroyAssignmentSafe` | kernel/pci_assignment.c:105-124 | destruction keeps the invariant from every state that has it, reaches no halt, and releases no quarantined device |
| `PciOperations.ClaimSafe` | kernel/pci_assignment.c:231-265 | a claim keeps the invariant from every state that has it, reaches no halt, and releases no quarantined device |
| `PciOperations.ExposureSafe` | kernel/pci_assignment.c:348-371 | marking exposure keeps the invariant from every state that has it, reaches no halt, and releases no quarantined device |
| `PciOperations.ReleaseSafe` | kernel/pci_assignment.c:373-401 | orderly release keeps the invariant from every state that has it, reaches no halt, and releases no quarantined device |
| `PciOperations.QuarantineSafe` | kernel/pci_assignment.c:403-427 | quarantine keeps the invariant from every state that has it, reaches no halt, and releases no quarantined device |
| `PciOperations.CreateBarSafe` | kernel/pci_bar_resource.c:91-171 | BAR creation, including the roll-back of its child pin, keeps the invariant from every state that has it, reaches no halt, and releases no quarantined device |
| `PciOperations.DestroyBarSafe` | kernel/pci_bar_resource.c:173-194 | BAR destruction keeps the invariant from every state that has it, reaches no halt, and releases no quarantined device |
| `PciOperations.MapMmioSafe` | kernel/pci_bar_access.c:123-184 | an MMIO mapping keeps the invariant from every state that has it, reaches no halt, and releases no quarantined device |
| `PciOperations.UnmapMmioSafe` | kernel/pci_bar_access.c:186-230 | an MMIO unmapping, complete or torn, keeps the invariant from every state that has it, reaches no halt, and releases no quarantined device |
| `PciOperations.CreateBufferSafe` | kernel/pci_dma_buffer.c:114-186 | buffer creation, including every roll-back, keeps the invariant from every state that has it, reaches no halt, and releases no quarantined device |
| `PciOperations.MapBufferSafe` | kernel/pci_dma_buffer.c:207-244 | a CPU mapping of a buffer keeps the invariant from every state that has it, reaches no halt, and releases no quarantined device |
| `PciOperations.UnmapBufferSafe` | kernel/pci_dma_buffer.c:246-291 | an unmapping of a buffer, complete or torn, keeps the invariant from every state that has it, reaches no halt, and releases no quarantined device |
| `PciOperations.DestroyBufferSafe` | kernel/pci_dma_buffer.c:404-430 | buffer destruction keeps the invariant from every state that has it, reaches no halt, and releases no quarantined device |
| `PciOperations.BeginSubmissionSafe` | kernel/pci_dma_submission.c:105-172 | beginning a submission keeps the invariant from every state that has it, reaches no halt, and releases no quarantined device |
| `PciOperations.CompleteSubmissionSafe` | kernel/pci_dma_submission.c:182-200 | completing a submission keeps the invariant from every state that has it, reaches no halt, and releases no quarantined device |
| `PciOperations.QuarantineSubmissionSafe` | kernel/pci_dma_submission.c:202-220 | quarantining a submission keeps the invariant from every state that has it, reaches no halt, and releases no quarantined device |
| `PciOperations.ResetSubmissionSafe` | kernel/pci_dma_submission.c:222-238 | resetting a submission keeps the invariant from every state that has it, reaches no halt, and releases no quarantined device |
| `PciOperations.CreateIrqSafe` | kernel/pci_irq_resource.c:98-181 | interrupt creation keeps the invariant from every state that has it, reaches no halt, and releases no quarantined device |
| `PciOperations.DestroyIrqSafe` | kernel/pci_irq_resource.c:183-219 | interrupt destruction keeps the invariant from every state that has it, reaches no halt, and releases no quarantined device |
| `PciOperations.ArmIrqSafe` | kernel/pci_irq_resource.c:277-291 | arming keeps the invariant from every state that has it, reaches no halt, and releases no quarantined device |
| `PciOperations.ForceDisarmIrqSafe` | kernel/pci_irq_resource.c:293-319 | disarming keeps the invariant from every state that has it, reaches no halt, and releases no quarantined device |
| `PciEffects.ClaimExact` | kernel/pci_assignment.c:231-265 | a claim succeeds if and only if the device is available and unreferenced and the process may have it; from then on exactly that process may act on it |
| `PciEffects.ReleaseExact` | kernel/pci_assignment.c:373-401 | orderly release starts if and only if the owner asks and the device was never exposed and is idle, and ends if and only if nothing of it is left; then nobody may act on it |
| `PciEffects.CreateAssignmentExact` | kernel/pci_assignment.c:81-103 | a new assignment is for the device asked for, available and untouched, and there is no other for that device |
| `PciEffects.QuarantineExact` | kernel/pci_assignment.c:403-427 | an owner can quarantine an idle device, and the kernel any device that has an owner; nothing else changes |
| `PciEffects.DestroyExact` | kernel/pci_assignment.c:105-124 | assignments, BARs and interrupts are destroyed if and only if they are idle and unreferenced, and give their child pin back |
| `PciEffects.CreateBarExact` | kernel/pci_bar_resource.c:91-171 | a BAR record is made for the device, owner and index asked for, over exactly the window and of the kind the device reports; a failed creation leaves only the identity counter moved |
| `PciEffects.PortAccessExact` | kernel/pci_bar_access.c:253-335 | a port access goes through if and only if the owner asks for an aligned unit inside a port BAR with no DMA in flight; it is refused while any transfer of the device lives |
| `PciEffects.MapMmioExact` | kernel/pci_bar_access.c:123-184 | a mapping succeeds if and only if whole pages inside a memory BAR are asked for and can be inserted; its base is the base of the BAR plus the offset, its length the size asked for, and unmapping it takes everything back |
| `PciEffects.UnmapMmioExact` | kernel/pci_bar_access.c:186-230 | unmapping removes the mapping and its access, or exactly as many pages as the page tables let go |
| `PciEffects.CreateBufferExact` | kernel/pci_dma_buffer.c:114-186 | a buffer is made of exactly the frames the allocator named, zeroed, for the device and owner asked for; a failed creation loses no frame |
| `PciEffects.MapBufferExact` | kernel/pci_dma_buffer.c:207-244 | an idle buffer is mapped in full by its owner, and its frames no longer count as zeroed |
| `PciEffects.UnmapBufferExact` | kernel/pci_dma_buffer.c:246-291 | a buffer is unmapped in full, or exactly as many pages remain as the page tables keep |
| `PciEffects.DestroyBufferExact` | kernel/pci_dma_buffer.c:404-430 | destroying an idle unreferenced buffer gives exactly its frames back |
| `PciEffects.BeginSubmissionExact` | kernel/pci_dma_submission.c:105-172 | a transfer starts if and only if its byte range lies in an idle unmapped buffer of the device and no BAR access or other transfer lives; it makes one submission with the buffer, owner and direction asked for, whose byte i is byte offset + i of the buffer, changes no other, and completing it takes everything back |
| `PciEffects.CompleteSubmissionExact` | kernel/pci_dma_submission.c:182-200 | the owner of a running transfer can complete it exactly while the device is assigned; the buffer is ready again and the submission gone |
| `PciEffects.QuarantineSubmissionExact` | kernel/pci_dma_submission.c:202-220 | quarantining a transfer never fails: transfer, buffer and device are quarantined together |
| `PciEffects.ResetSubmissionExact` | kernel/pci_dma_submission.c:222-238 | a quarantined transfer is closed if and only if its buffer was zeroed |
| `PciEffects.CreateIrqExact` | kernel/pci_irq_resource.c:98-181 | a new interrupt belongs to the device and owner asked for and is disarmed |
| `PciEffects.ArmExact` | kernel/pci_irq_resource.c:277-291 | the owner can arm a disarmed interrupt of an assigned device, which takes one access |
| `PciEffects.DisarmExact` | kernel/pci_irq_resource.c:293-319 | disarming by the owner always works and gives the access back |
| `PciEffects.DeliveryExact` | kernel/pci_irq_resource.c:352-442 | signal, acknowledgement, storm recovery and receipt change the events of that interrupt as the delivery machine says, and nothing else |
| `PciOperations.DeliverySafe` | kernel/pci_irq_resource.c:352-442 | signal, acknowledge, storm recovery, event receipt and closing the event endpoint keep the invariant and release no quarantined device |
| `PciOperations.PinRoundTrips` | kernel/pci_assignment.c:276-346 | giving back a child pin, an access pin or the gate that was just taken restores the ledger exactly |
| `PciOperations.HoldersCanGiveBack` | kernel/pci_assignment.c:287-346 | every registered BAR, buffer and interrupt can give back its child pin and any access pin it holds, and every submission the gate, in every reachable state; the halts behind those give-backs are unreachable |
| `PciOperations.UndoSafe` | kernel/pci_bar_resource.c:159-166 | giving back a child pin after a failed creation restores the ledger exactly |
| `PciOperations.BarAcquireRelease` | kernel/pci_bar_resource.c:266-290 | release undoes acquire exactly |
| `PciOperations.PortAccessSafe` | kernel/pci_bar_access.c:307-335 | a port access leaves the ledger exactly as it was |
| `PciKernel.Kernel.CountBarPins` | kernel/pci_bar_resource.c:229-245 | the loop returns the sum of the access counts of the assignment's BARs |
| `PciKernel.Kernel.TakeBar` | kernel/pci_bar_resource.c:266-278 | in place: pins BAR and assignment together or changes nothing |
| `PciKernel.Kernel.DropBar` | kernel/pci_bar_resource.c:280-290 | in place: unpins both or changes nothing |
| `PciKernel.Kernel.MakeBar` | kernel/pci_bar_resource.c:91-171 | in place: the exact ledger after creation or after its roll-back |
| `PciKernel.Kernel.RemoveBar` | kernel/pci_bar_resource.c:173-194 | in place: the exact ledger after destruction |
| `PciKernel.Kernel.AccessPort` | kernel/pci_bar_access.c:307-335 | in place: the exact ledger after a port access |
| `PciKernel.Kernel.Map` | kernel/pci_bar_access.c:123-184 | in place: the ledger that MapMmioExact describes, roll-back included |
| `PciKernel.Kernel.Unmap` | kernel/pci_bar_access.c:186-230 | in place, page by page: the exact ledger, torn mapping included |
| `PciKernel.Kernel.MakeBuffer` | kernel/pci_dma_buffer.c:114-186 | in place: the exact ledger after creation or any roll-back |
| `PciKernel.Kernel.ForceUnmap` | kernel/pci_dma_buffer.c:246-281 | in place, page by page: the exact ledger, torn buffer included |
| `PciKernel.Kernel.BeginDevice` | kernel/pci_dma_buffer.c:313-327 | in place: hands the buffer to the device with a pin, or changes nothing |
| `PciKernel.Kernel.CompleteDevice` | kernel/pci_dma_buffer.c:329-343 | in place: takes the buffer back, or changes nothing |
| `PciKernel.Kernel.QuarantineInUse` | kernel/pci_dma_buffer.c:345-384 | in place: quarantines the buffer and drops its pin, or changes nothing |
| `PciKernel.Kernel.ResetAfterQuarantine` | kernel/pci_dma_buffer.c:386-402 | in place: zeroes before the buffer is ready, or keeps it quarantined |
| `PciKernel.Kernel.RemoveBuffer` | kernel/pci_dma_buffer.c:404-430 | in place: the exact ledger and free frames after destruction |
| `PciKernel.Kernel.CheckSubmission` | kernel/pci_dma_submission.c:34-73 | the check returns exactly the validity of a submission |
| `PciKernel.Kernel.Submit` | kernel/pci_dma_submission.c:105-172 | in place: the ledger that BeginSubmissionExact describes, including the roll-backs |
| `PciKernel.Kernel.Complete` | kernel/pci_dma_submission.c:182-200 | in place: the exact ledger after completion |
| `PciKernel.Kernel.Quarantine` | kernel/pci_dma_submission.c:202-220 | in place: the exact ledger after quarantine, invariant kept |
| `PciKernel.Kernel.ResetOne` | kernel/pci_dma_submission.c:222-238 | in place: the exact ledger after reset, invariant kept |
| `PciKernel.Kernel.CountSubmissions` | kernel/pci_dma_submission.c:255-266 | the loop returns the number of the assignment's submissions |
| `PciKernel.Kernel.Arm` | kernel/pci_irq_resource.c:277-291 | in place: the exact ledger after arming |
| `PciKernel.Kernel.ForceDisarm` | kernel/pci_irq_resource.c:293-319 | in place: the exact ledger after disarming, invariant kept |
| `PciKernel.Kernel.VisitMapping` | kernel/pci_bar_access.c:232-251 | one turn of the mapping pass |
| `PciKernel.Kernel.VisitBuffer` | kernel/pci_dma_buffer.c:293-311 | one turn of a buffer pass |
| `PciKernel.Kernel.VisitSubmission` | kernel/pci_dma_submission.c:268-311 | one turn of a submission pass |
| `PciKernel.Kernel.VisitIrq` | kernel/pci_irq_resource.c:330-350 | one turn of the interrupt pass |
| `PciKernel.Kernel.SweepAll` | kernel/pci_dma_submission.c:268-311 | the loop over a registry equals the recursive pass whose effect SweepSettles states, stopping at the first failure |
| `PciKernel.Kernel.DisarmListed` | kernel/pci_irq_router.c:282-302 | the loop over the bound interrupts equals the recursive pass |
| `PciKernel.Kernel.Recover` | kernel/pci_device_recovery.c:121-196 | in place: the ledger that BeginIff and BeginRecords describe, wherever it gives up |
| `PciKernel.Kernel.QuiesceAll` | kernel/pci_device_recovery.c:162-190 | in place: interrupts are silenced before the device is |
| `PciKernel.Kernel.QuiesceMappings` | kernel/pci_device_recovery.c:176-190 | in place: CPU mappings go before DMA lifetimes |
| `PciKernel.Kernel.QuiesceLifetimes` | kernel/pci_device_recovery.c:180-190 | in place: submissions, buffers, the zero-access check and unbinding, in that order |
| `PciKernel.Kernel.DrainDma` | kernel/pci_device_recovery.c:198-213 | in place: the exact ledger after the completion sweep |
| `PciKernel.Kernel.LandReset` | kernel/pci_device_recovery.c:252-281 | in place: the exact ledger after a reset reports |
| `PciKernel.Kernel.Release` | kernel/pci_device_recovery.c:283-304 | in place: the exact ledger after the assignment is released |
| `PageRuns.Space.MapRun` | kernel/pci_bar_access.c:155-164 | the page loop leaves the whole run mapped or the space exactly as it was, and succeeds if and only if no insertion failed and no page was taken |
| `PageRuns.Space.Rollback` | kernel/pci_bar_access.c:111-121 | undoing a partial run restores the space exactly, and no removal can fail |
| `PageRuns.Space.UnmapRun` | kernel/pci_dma_buffer.c:255-269 | unmapping from the top leaves exactly the low end of the run that its page count says |
| `IrqEvents.RunFromFresh` | kernel/pci_irq_resource.c:352-442 | over every event sequence: delivered numbers strictly increase, delivered = acknowledged + dropped + pending with no saturation assumption, a mailbox event carries the pending number, and an unmasked source is armed with an empty mailbox and no suppressed signal |
| `IrqEvents.RunKeepsWf` | kernel/pci_irq_resource.c:277-442 | every event sequence keeps the delivery invariant, and delivered numbers are only appended |
| `IrqEvents.OneOutstandingDelivery` | kernel/pci_irq_resource.c:361-405 | back-pressure: between two states deliveries exceed acknowledgements and drops by at most one |
| `IrqEvents.AcknowledgedOnce` | kernel/pci_irq_resource.c:407-426 | an accepted acknowledgement is never accepted again for the same number, in any continuation |
| `IrqEvents.SignalDelivers` | kernel/pci_irq_resource.c:361-405 | a signal is delivered if and only if the resource is armed, numbers are left and the mailbox takes it; if only the mailbox is in the way, the resource storms |
| `IrqEvents.BurstCollapses` | kernel/pci_irq_resource.c:361-405 | any number of signals before the owner reacts deliver one event; with the eighth suppressed one, and not before, the resource storms |
| `IrqEvents.BurstSettles` | kernel/pci_irq_resource.c:407-442 | after any burst, taking the event, acknowledging its number and, in a storm, recovering leave the resource armed and open as before, one delivery and one acknowledgement further |
| `IrqEvents.Resource.SignalSource` | kernel/pci_irq_resource.c:352-405 | in place: the state after a signal; it reports success if and only if a number was delivered |
| `IpcExactlyOnce.ExactlyOnceInOrder` | kernel/ipc.c:180-229 | over every interleaving: the messages accepted by an endpoint are those delivered, then those discarded by close, then the one in its mailbox, in that order, and calls are accepted in the order they were issued; MessagesAreTrue says what each of them says |
| `IpcExactlyOnce.RepliesAreTrue` | kernel/ipc.c:353-459 | over every run: a returned send succeeded if and only if its message was accepted, by one endpoint only; a returned receive holds a message if and only if that message was delivered to it; MessagesAreTrue and TakesFromNamed say which message and from where |
| `IpcTruth.MessagesAreTrue` | kernel/ipc.c:180-229 | over every run and continuation: whatever is accepted, held, staged, delivered, discarded or returned under the number of a send is the message that call was given, and it is found only at the endpoint the call named |
| `IpcContent.StepMoves` | kernel/ipc.c:180-229 | no step puts a message anywhere, except a send its own at the endpoint it names |
| `IpcTruth.StepReplies` | kernel/ipc.c:353-402 | a receive returns only a message that was in a mailbox, and a call takes the next number or changes nothing |
| `IpcLifetimes.TakesFromNamed` | kernel/ipc.c:353-402 | over every run and continuation: whatever a call takes, it takes from the endpoint it named, in the incarnation it named |
| `IpcLifetimes.TimesOutAsAsked` | kernel/ipc.c:57-85 | over every run and continuation: while a call waits without a result, a poll times it out if and only if it has a timeout and that many ticks have elapsed since it was issued |
| `IpcLifetimes.CallsAreAccountedFor` | kernel/ipc.c:335-459 | over every run: a call that was issued has been answered, is still going on in its thread, or its thread was aborted inside it |
| `IpcLifetimes.StepIsOk` | kernel/ipc.c:180-531 | every step: no call but the one it runs takes a message, starts, ends or has its timer changed, and a call that does not end keeps its endpoint and timer |
| `IpcOutcomes.SendIff` | kernel/ipc.c:180-192 | a send succeeds if and only if the message is valid and the endpoint open with an empty mailbox and no receiver that has given up; the message is then in the mailbox and a blocked receiver awake |
| `IpcOutcomes.ReceiveIff` | kernel/ipc.c:194-229 | a receive succeeds if and only if there is mail at an open endpoint that nobody else waits for; a staged message moves up and its sender is completed |
| `IpcOutcomes.TrySendReply` | kernel/ipc.c:231-238 | what a send that does not wait is told, decided by the endpoint alone |
| `IpcOutcomes.TryReceiveReply` | kernel/ipc.c:240-248 | what a receive that does not wait is told: the message that is there for it, or nothing |
| `IpcOutcomes.SendBlockingOutcome` | kernel/ipc.c:412-459 | a blocking send is refused for a bad message, timeout or endpoint, sent when there is room, and waits if and only if the mailbox is full and nobody else waits to send |
| `IpcOutcomes.ReceiveBlockingOutcome` | kernel/ipc.c:353-402 | a blocking receive is refused for a bad timeout or endpoint, returns the message that is there for it, and waits if and only if there is none and nobody else waits |
| `IpcOutcomes.ResumeOutcome` | kernel/ipc.c:382-401 | a resumed call returns what its wait result calls for, takes the message that has come, or parks again |
| `IpcExactlyOnce.NoLostWakeup` | kernel/ipc.c:382-400 | over every run: a blocked thread has a pending wait at an open endpoint, with an empty mailbox if it receives, and a full mailbox and a staged message if it sends |
| `IpcExactlyOnce.RunKeepsHistory` | kernel/ipc.c:180-531 | every run keeps the bookkeeping that ties mailboxes, staged messages, parked calls and replies to the history |
| `IpcExactlyOnce.StepHistory` | kernel/ipc.c:180-531 | every step keeps that bookkeeping |
| `IpcResults.ResultsAreFinal` | kernel/thread.c:465-478 | no step replaces a final wait result: a completed send never becomes a timeout or a closed peer |
| `IpcRuns.RunFromBoot` | kernel/ipc.c:109-143 | from boot every run keeps the wait invariant, and no invariant-failure halt is reachable |
| `IpcRuns.StepSafe` | kernel/ipc.c:180-531 | every step keeps the wait invariant and does not halt |
| `IpcRuns.TimerTableIsExact` | kernel/ipc.c:36-97 | over every run: timed-wait slots and timed waits correspond one to one, and a pending timed wait was not due at the last poll, unless two polls were more than 2^63 ticks apart |
| `IpcRuns.AbortSafe` | kernel/ipc.c:469-497 | abort succeeds exactly for a waiting thread other than the current one; its seat, staged message and timer slot go and nothing else changes |
| `IpcTimeouts.TimesOutIff` | kernel/ipc.c:145-176 | over every run, for every start tick, timeout and lag: a pending wait times out in a step if and only if the step is a poll and the wait has elapsed |
| `IpcTimeouts.TimeoutWindow` | kernel/ipc.c:145-176 | over every run: a poll before the deadline leaves the wait pending, and a poll at the deadline or up to 2^63 - 1 ticks after it times the wait out |
| `IpcTimeouts.OnlyPollsTimeOut` | kernel/ipc.c:163-171 | no call other than the poll gives any wait the timed-out result |
| `IpcTimers.PollSafe` | kernel/ipc.c:145-176 | a poll never halts, however late it comes, times out exactly the pending waits that have elapsed, and changes no other thread |
| `IpcTimers.ReachedExact` | kernel/ipc.c:53-55 | for every start, timeout and later time: the wrapped comparison is true if and only if the deadline has passed by less than 2^63 ticks beyond whole turns of the counter |
| `IpcTimers.ReachedIff` | kernel/ipc.c:53-55 | for every start tick, wrap included, and every timeout up to 2^63 - 1: the deadline test is true if and only if the ticks have elapsed, for 2^63 ticks after the deadline |
| `IpcTimers.ReachedLapses` | kernel/ipc.c:53-55 | 2^63 ticks after the deadline the test turns false again, so that bound is exact |
| `IpcTimers.TableHasRoom` | kernel/ipc.c:57-85 | pigeonhole: while an endpoint has a free seat the 512-slot table has a free slot |
| `IpcCalls.RegisterSucceeds` | kernel/ipc.c:57-85 | registering a timed reservation that was just made never fails |
| `IpcCalls.ReserveLinked` | kernel/ipc.c:366-374 | taking a seat at an open endpoint makes thread and endpoint name each other and keeps every other wait intact |
| `IpcCalls.LeftInv` | kernel/ipc.c:335-351 | leaving a wait keeps the invariant: the seat, staged message and timer slot of the thread go together |
| `IpcCalls.WaitLoopSafe` | kernel/ipc.c:382-400 | one turn of a wait loop keeps the invariant and does not halt, however parking ends |
| `IpcCalls.BeginSafe` | kernel/ipc.c:367-400 | reserving, registering and parking keep the invariant and do not halt |
| `IpcInvariant.SendLockedSafe` | kernel/ipc.c:180-192 | a send refuses with no change or fills the mailbox of an open endpoint with nothing staged, waking its receiver; it does not halt, so its roll-back is unreachable |
| `IpcInvariant.ReceiveLockedSafe` | kernel/ipc.c:194-229 | a receive refuses with no change or takes the message and moves a staged one up; it does not halt |
| `IpcInvariant.CloseSafe` | kernel/ipc.c:499-531 | close succeeds exactly on an open endpoint; its pending waits end as closed and nothing else moves |
| `IpcKernel.Ipc.Deposit` | kernel/ipc.c:180-192 | in place: the exact state after a send attempt |
| `IpcKernel.Ipc.Collect` | kernel/ipc.c:194-229 | in place: the exact state after a receive attempt |
| `IpcKernel.Ipc.CollectStaged` | kernel/ipc.c:207-227 | in place: delivery, then promotion of the staged message and its sender |
| `IpcKernel.Ipc.Enter` | kernel/ipc.c:57-85 | in place: the loop takes the first free timer slot unless the wait is already entered |
| `IpcKernel.Ipc.Remove` | kernel/ipc.c:87-97 | in place: the loop frees the slot that names the wait, or changes nothing |
| `IpcKernel.Ipc.Poll` | kernel/ipc.c:145-176 | in place: the loop over the timer table, at any tick count, equals the poll whose effect PollSafe states |
| `IpcKernel.Ipc.PollEntry` | kernel/ipc.c:148-174 | in place: one turn of that loop |
| `IpcKernel.Ipc.Release` | kernel/ipc.c:335-351 | in place: ends the reservation of a call |
| `IpcKernel.Ipc.Finish` | kernel/ipc.c:398-401 | in place: the call returns with the reply its wait result calls for |
| `IpcKernel.Ipc.Turn` | kernel/ipc.c:382-400 | in place: one turn of the wait loop, up to parking or returning |
| `IpcKernel.Ipc.Continue` | kernel/ipc.c:382-400 | in place: what the resumed thread does |
| `IpcKernel.Ipc.StartWait` | kernel/ipc.c:367-400 | in place: reservation, timer entry and first turn |
| `IpcKernel.Ipc.BlockingSend` | kernel/ipc.c:412-459 | in place: the exact state after a blocking send up to its return or parking |
| `IpcKernel.Ipc.BlockingReceive` | kernel/ipc.c:353-402 | in place: the exact state after a blocking receive up to its return or parking |
| `IpcKernel.Ipc.AbortWait` | kernel/ipc.c:469-497 | in place: the exact state after an abort |
| `IpcKernel.Ipc.ReleaseSeat` | kernel/ipc.c:512-525 | in place: ends the wait at one seat of a closing endpoint |
| `IpcKernel.Ipc.CloseEndpoint` | kernel/ipc.c:499-531 | in place: the exact state after a close |
| `CapabilityRuns.RunFromBoot` | kernel/capability.c:90-101 | every run of creations, destructions, grants and revocations keeps the global invariant |
| `CapabilityRuns.ReferencesConserved` | kernel/capability.c:50-101 | over every run: an object's reference count is the number of slots naming it over all tables, an object that is gone is named nowhere, and every occupied slot names a live object in the incarnation it was granted for |
| `CapabilityRuns.StepInv` | kernel/capability.c:119-279 | every operation keeps the global invariant |
| `CapabilityRuns.TableAlwaysValid` | kernel/capability.c:90-101 | a registered table always passes its validity check |
| `CapabilityRuns.BulkDeleteExact` | kernel/capability.c:245-264 | bulk deletion on a registered table always succeeds, clears exactly the matching slots, and lowers every count by exactly the slots it cleared |
| `CapabilityRuns.DeleteSlotInv` | kernel/capability.c:224-234 | deleting one slot keeps the invariant and lowers exactly one object's count by one |
| `CapabilityRuns.InsertSucceedsIff` | kernel/capability.c:164-195 | a grant succeeds if and only if the table, object and rights are good and some slot is empty with generations left; the reference-overflow guard never decides |
| `CapabilityRuns.InsertInv` | kernel/capability.c:164-195 | the handle returned was never issued before by any table, and is recorded with its table and grant |
| `CapabilityRuns.LookupExact` | kernel/capability.c:197-217 | a lookup succeeds if and only if the slot holds that generation, type and rights, and then gives the object of the grant the handle was issued for |
| `CapabilityRuns.HandleHasOneTable` | kernel/capability.c:197-217 | a handle resolves in at most one table |
| `CapabilityRuns.RevokeSpends` | kernel/capability.c:236-243 | a revoked handle is spent |
| `CapabilityRuns.BulkSpends` | kernel/capability.c:245-279 | every handle removed by a bulk deletion, of all grants or of one object's, is spent |
| `CapabilityRuns.GrantStaysOrIsSpent` | kernel/capability.c:224-264 | whatever the step, a grant is still in its slot afterwards or its handle is spent |
| `CapabilityEffects.HandleMeansItsGrant` | kernel/capability.c:164-217 | over every run after a grant: until its handle is deleted it finds that object, in that incarnation, in the table it was granted to, for any of the rights granted, and finds nothing anywhere else; once deleted it finds nothing |
| `CapabilityEffects.AlwaysWorks` | kernel/capability.c:119-136 | in every reachable state each table has the slots and each slot the issuer that a grant relies on |
| `CapabilityEffects.InsertExact` | kernel/capability.c:164-195 | a grant fills one free slot under a handle that names it and adds one reference to the object named; nothing else changes |
| `CapabilityEffects.RevokeExact` | kernel/capability.c:236-243 | a revocation succeeds if and only if the handle names a grant of that table; it clears that slot and takes one reference from the object named; nothing else changes |
| `CapabilityEffects.InsertThenRevoke` | kernel/capability.c:164-243 | revoking what was just granted gives every object its references and every table its grants back; only the handle is spent |
| `CapabilityEffects.DestroyObjectIff` | kernel/capability.c:50-88 | an object can be destroyed if and only if no slot of any table names it |
| `CapabilityEffects.InitTableExact` | kernel/capability.c:119-136 | a table can be made if and only if there is room, and holds no grant |
| `CapabilityEffects.DestroyTableIff` | kernel/capability.c:138-148 | a table can be destroyed if and only if it holds no grant |
| `CapabilityEffects.RetireExact` | kernel/capability.c:50-81 | a retired object is never granted again, and the handles it has keep working |
| `CapabilityEffects.CreatedIsNew` | kernel/capability.c:50-88 | over every run: an object created where another one was has an identity that no handle was ever issued for |
| `CapabilityRuns.DeletedHandleStaysDead` | kernel/capability.c:103-108 | a spent handle resolves in no table after any further run |
| `CapabilityRuns.HandleRoundTrip` | kernel/capability.c:185-204 | packing a generation and an index into a handle loses neither, and the handle is a non-zero 64-bit number |
| `CapabilityKernel.Capability.CheckTable` | kernel/capability.c:90-101 | the loop returns exactly the table's validity |
| `CapabilityKernel.Capability.GrantTo` | kernel/capability.c:164-195 | in place: the exact tables, counts and issuers after a grant, or no change |
| `CapabilityKernel.Capability.RevokeOne` | kernel/capability.c:236-243 | in place: the exact state after revoking a handle |
| `CapabilityKernel.Capability.CountNaming` | kernel/capability.c:251-255 | the loop returns the number of slots that name an object |
| `CapabilityKernel.Capability.CheckAffordable` | kernel/capability.c:248-258 | the nested loop returns whether every count covers the slots to be removed |
| `CapabilityKernel.Capability.DeleteMany` | kernel/capability.c:245-264 | in place: the loop equals the bulk deletion that BulkDeleteExact describes |
| `FrameAllocator.TotalIffDisjoint` | kernel/pmm.c:208-216 | the summed page count equals the number of managed frames if and only if the ranges are disjoint |
| `FrameAllocator.OverlapIsCountedTwice` | kernel/pmm.c:208-216 | a concrete memory map whose two usable ranges overlap: eight pages are counted where there are five frames |
| `FrameAllocator.ManagedIffKept` | kernel/pmm.c:157-200 | for every memory map: a frame is managed if and only if a usable descriptor that was not dropped covers the whole of it above the first MiB; merging adjoining descriptors loses nothing |
| `FrameAllocator.WholeMapManaged` | kernel/pmm.c:157-200 | a map with at most 128 separate runs is managed completely: every frame some descriptor covers, and no other |
| `FrameAllocator.TooManyRuns` | kernel/pmm.c:189-197 | a map with more runs than that loses at least one descriptor |
| `FrameAllocator.BoundsExact` | kernel/pmm.c:205-216 | the bounds of the byte map are the lowest and the highest managed frame |
| `FrameAllocator.CollectProper` | kernel/pmm.c:157-200 | every collected range is non-empty, above the first MiB and representable |
| `FrameAllocator.Pmm.Init` | kernel/pmm.c:134-304 | succeeds if and only if there is a usable range with room for the bitmap; then a frame is free if and only if a usable descriptor that was not dropped covers it and it does not hold the bitmap, the bitmap has a bit for every managed frame and no page to spare, and the free count is right if and only if the ranges are disjoint |
| `FrameAllocator.Pmm.CollectRanges` | kernel/pmm.c:157-200 | the loop collects ranges whose frames are exactly those that a usable descriptor that was not dropped covers |
| `FrameAllocator.Pmm.Measure` | kernel/pmm.c:205-216 | the loop returns the bounds and the summed size of the ranges |
| `FrameAllocator.Pmm.FindHome` | kernel/pmm.c:241-250 | finds room for the bitmap inside managed memory if and only if a range has it |
| `FrameAllocator.Pmm.ClearManaged` | kernel/pmm.c:282-287 | the nested loop frees exactly the managed frames |
| `FrameAllocator.Pmm.IsManaged` | kernel/pmm.c:77-84 | membership in the managed set |
| `FrameAllocator.Pmm.Alloc` | kernel/pmm.c:343-365 | fails if and only if no frame is free; otherwise takes exactly one, the first free one in circular order from the hint, leaves the hint one step after it, and keeps count and set equal |
| `FrameAllocator.Pmm.FindNext` | kernel/pmm.c:346-364 | the circular scan finds the free frame nearest after the hint, if there is any |
| `FrameAllocator.Pmm.Releasable` | kernel/pmm.c:375-391 | true if and only if the span is non-empty, managed, outside the bitmap and entirely allocated |
| `FrameAllocator.Pmm.FreeRange` | kernel/pmm.c:393-413 | all or nothing: succeeds exactly on such spans, freeing exactly that span; otherwise nothing changes |
| `FrameAllocator.Pmm.FindRun` | kernel/pmm.c:455-470 | finds the lowest run of free frames if and only if there is one |
| `FrameAllocator.Pmm.AllocPages` | kernel/pmm.c:452-481 | returns zero if and only if the count is zero or no such run exists; otherwise takes exactly the lowest run |
| `FrameBitmap.Mark` | kernel/pmm.c:102-107 | changes one bit of the byte map and no other |
| `FrameBitmap.Unmark` | kernel/pmm.c:109-115 | clears one bit of the byte map and no other |
| `FrameBitmap.MarkRun` | kernel/pmm.c:290-293 | sets exactly the bits of a run |
| `FrameBitmap.UnmarkRun` | kernel/pmm.c:282-287 | clears exactly the bits of a run |
| `FrameBitmap.MarkAll` | kernel/pmm.c:273-273 | sets every bit |
| `Fat32.Reader.ReadFile` | kernel/fat32.c:238-345 | on success the count is the request clamped to the file end and the buffer holds exactly that slice of the flat file, the rest of it untouched; it succeeds if and only if the slice is readable |
| `Fat32.Reader.ReadSlice` | kernel/fat32.c:263-345 | the two loops return the slice if and only if its clusters are on the chain, within the visited bound, and every sector it needs can be read |
| `Fat32.Reader.TakeCluster` | kernel/fat32.c:298-326 | the sector loop appends the bytes of one cluster, starting inside it |
| `Fat32.Reader.ReadSector` | kernel/fat32.c:305-325 | one turn of the sector loop appends the right bytes of one sector |
| `Fat32.Reader.SkipTo` | kernel/fat32.c:266-284 | reaches the k-th cluster if and only if the chain has it and k is within the visited bound |
| `Fat32.Reader.Next` | kernel/fat32.c:72-94 | returns the link of a cluster if and only if its table sector can be read and it links to a data cluster |
| `Fat32.AcyclicChainIsReadable` | kernel/fat32.c:269-291 | on an acyclic chain of data clusters that reaches far enough, with working blocks, every slice is readable: the visited guard rejects none |
| `Fat32.AcyclicFits` | kernel/fat32.c:271-271 | an acyclic chain is no longer than the cluster count |
| `Fat32Layout.FileFollowsTable` | kernel/fat32.c:50-94 | over the data clusters that the table links, byte p of a file is byte p of those clusters laid end to end, each where its number puts it in the data area |
| `Fat32Layout.FileIsData` | kernel/fat32.c:50-70 | every byte of a file is a byte of the data area: of the cluster its chain has there, at the distance from the cluster start that the position has from a cluster boundary |
| `Fat32Layout.ClustersTile` | kernel/fat32.c:50-70 | no sector belongs to two clusters, and the clusters together are exactly the data area |
| `Fat32Layout.ClusterOrder` | kernel/fat32.c:50-70 | exactly the clusters from 2 up have a place; it is on the device, and clusters follow each other in order without a gap |
| `Fat32Layout.TableIsFlat` | kernel/fat32.c:72-94 | the link of cluster c is the little-endian number in bytes 4c to 4c + 3 of the table without its top four bits, and never straddles two sectors |
| `Fat32Layout.FollowIff` | kernel/fat32.c:72-98 | a chain goes on if and only if that number is a data cluster; every other mark, or a sector that cannot be read, ends it |
| `Fat32Layout.ProbeLayout` | kernel/fat32.c:347-429 | an accepted volume has its tables after the reserved sectors, its data after the tables, and as many whole clusters as fit in the declared sectors, all on the device |
| `Fat32Layout.ProbeAccepts` | kernel/fat32.c:347-429 | every layout within the limits of FAT32 is accepted and found exactly, whichever field holds the sector count |
| `Fat32.ProbeGeometry` | kernel/fat32.c:347-429 | a volume that probing accepts has the geometry the reader relies on |
| `IrqRouter.RouterIsSafe` | kernel/pci_irq_router.c:106-342 | over every run and any starting redirection table: no halt, an unmasked leased entry has an armed resource, bindings differ in vector, entry and resource, and every entry that is not leased is what it was at the start |
| `IrqRouter.StepInv` | kernel/pci_irq_router.c:106-342 | every router step keeps that invariant and does not halt |
| `IrqRouter.FreeSlotFreeVector` | kernel/pci_irq_router.c:92-104 | pigeonhole: a free binding slot implies a free vector |
| `IrqRouter.ReleaseInv` | kernel/interrupt_controller.c:415-432 | unbinding restores the saved redirection entry and touches no other |
| `IrqRouter.BindInv` | kernel/pci_irq_router.c:106-149 | binding keeps the invariant and remembers the entry as it was |
| `IrqRouter.Driven` | kernel/interrupt_controller.c:375-401 | masking a source, or unmasking it together with arming its resource, keeps every binding and every redirection entry in order |
| `IrqRouter.HandleInv` | kernel/pci_irq_router.c:326-342 | an interrupt keeps the invariant and does not halt |
| `IrqRouterEffects.HandleExact` | kernel/pci_irq_router.c:326-342 | an interrupt on a bound vector masks that source and passes the signal on to the resource bound to it; on any other vector nothing happens, and no other binding, entry or resource changes |
| `IrqRouterEffects.InterruptCycle` | kernel/pci_irq_router.c:226-342 | one interrupt puts the next number in the mailbox behind a masked source; taken and acknowledged, the source is open again and only the counters of that resource differ |
| `IrqRouterEffects.BindExact` | kernel/pci_irq_router.c:106-149 | a bind succeeds if and only if the resource is disarmed and unbound, the entry idle, masked and not leased, and a binding free; the new binding names resource and owner, has a vector of its own and remembers the entry |
| `IrqRouterEffects.BindThenUnbind` | kernel/pci_irq_router.c:106-167 | unbinding what was just bound puts everything back |
| `IrqRouterEffects.UnbindExact` | kernel/pci_irq_router.c:151-167 | an unbind succeeds if and only if the resource is disarmed, and restores the entry the lease saved |
| `IrqRouterEffects.ForceUnbindExact` | kernel/pci_irq_router.c:266-280 | the owner can always unbind by force, whatever the resource is doing |
| `IrqRouterEffects.ArmExact` | kernel/pci_irq_router.c:169-187 | arming succeeds if and only if the resource is disarmed, and opens its source |
| `IrqRouterEffects.AcknowledgeExact` | kernel/pci_irq_router.c:226-244 | an acknowledgement succeeds if and only if it names the pending event after it was taken; the source opens unless the resource storms |
| `IrqRouterEffects.RecoverStormExact` | kernel/pci_irq_router.c:246-264 | a storm ends if and only if its event has been dealt with, and the source opens |
| `IrqRouterEffects.DisarmExact` | kernel/pci_irq_router.c:189-224 | disarming succeeds if and only if the owner asks, and masks the source |
| `IrqRouterEffects.UnboundRefused` | kernel/pci_irq_router.c:159-280 | every call that names a resource without a binding is refused |
| `IrqRouterKernel.Table.FindIrq` | kernel/pci_irq_router.c:40-47 | the loop finds the first binding of a resource |
| `IrqRouterKernel.Table.FindOnVector` | kernel/pci_irq_router.c:49-56 | the loop finds the first binding on a vector |
| `IrqRouterKernel.Table.UsesGsi` | kernel/pci_irq_router.c:58-65 | true if and only if some binding leases the entry |
| `IrqRouterKernel.Table.AllocateVector` | kernel/pci_irq_router.c:92-98 | the loop returns the lowest vector in range that no binding uses, or zero |
| `IrqRouterKernel.Table.BindSource` | kernel/pci_irq_router.c:106-149 | in place: the exact table and entries after a bind |
| `IrqRouterKernel.Table.Interrupt` | kernel/pci_irq_router.c:326-342 | in place: masks first, then signals the resource |
| `IrqRouterKernel.Table.ArmSource` | kernel/pci_irq_router.c:169-187 | in place: arms the resource, then unmasks its source; a valid binding cannot refuse the unmask |
| `IrqRouterKernel.Table.QuiesceOne` | kernel/pci_irq_router.c:189-197 | masks and disarms one binding, if and only if the owner matches |
| `IrqRouterKernel.Table.QuiesceDevice` | kernel/pci_irq_router.c:282-302 | succeeds if and only if every binding of the device belongs to the owner; then each is masked with its resource disarmed and the count says how many; every other binding, its resource and its entry are untouched either way |
| `DisplayLease.ScreenIsExclusive` | kernel/display.c:47-69 | over every run: in hand-off or user lease no kernel writer is active and none is admitted, every active writer belongs to the current output, and a started restoration always finishes |
| `DisplayLease.StepInv` | kernel/display.c:95-211 | every step keeps the coupling of lease, output and writers; the lease re-enters kernel only from reclaim, scan-out only advances and is retired only with no writer, identities only grow |
| `DisplayLease.GoneForGood` | kernel/framebuffer.c:297-327 | an output identity that is gone never matches again |
| `DisplayLease.RevokedIsGone` | kernel/framebuffer.c:315-327 | revoking makes the identity gone |
| `DisplayEffects.ScreenStaysGiven` | kernel/display.c:158-211 | over every run: from the commit to a process until the screen is taken back from that very process, no writer is admitted, nobody else is given the screen, and taking it back works for that process and no other |
| `DisplayEffects.CommitIsForPrepared` | kernel/display.c:95-171 | over every run: after a hand-off was prepared for an output, a commit works if and only if the hand-off lasts and that output is still the valid one |
| `DisplayEffects.HandoffIff` | kernel/display.c:95-171 | a hand-off can be prepared if and only if the kernel holds the screen, no writer is active and the output named is the valid one |
| `DisplayEffects.HandoffAndBack` | kernel/display.c:95-211 | handing the screen over and taking it back, or calling the hand-off off, leaves the screen as it was |
| `DisplayEffects.LastWriterRetires` | kernel/framebuffer.c:49-85 | the firmware scan-out is retired at once if nobody writes, and otherwise exactly when the last writer is done; no writer is admitted meanwhile |
| `DisplayEffects.InstallExact` | kernel/framebuffer.c:297-313 | a new output is installed if and only if the old one is retired and nobody writes; it has a new identity and the kind asked for, takes writers and can be revoked |
| `DisplayKernel.Display.BeginWrite` | kernel/framebuffer.c:49-56 | in place: admission of a writer as the lease and output allow |
| `DisplayKernel.Display.EndWrite` | kernel/framebuffer.c:58-64 | in place: the last writer completes a pending retirement |
| `DisplayKernel.Display.PrepareOutput` | kernel/display.c:95-141 | in place: hand-off begins only with no writer |
| `DisplayKernel.Display.FinishRestore` | kernel/display.c:195-203 | in place: the second half always succeeds |
| `DisplayKernel.Display.RetireFirmware` | kernel/framebuffer.c:73-85 | in place: retirement, at once or when the writers drain |
| `DisplayKernel.Display.InstallNative` | kernel/framebuffer.c:297-313 | in place: a new output with a new identity |

## Left out

- Capability authorisation inside the device and message parts is a parameter of each step; the tables themselves are a part of their own.
- Page tables, virtual addresses, cache and write flags of mappings: the device ledger keeps page counts, and `PageRuns` keeps the page loops over an abstract page map.
- PageRuns.Space.Rollback: the model's page removal fails only when the page does not show the expected frame.
- Halts of the device code on a failed capability revocation, device-resource destruction, frame release or endpoint call inside roll-backs and destructors: those calls are parameters or always work in the model, so nothing is shown about these halts.
- The bit patterns of configuration and command registers and the steps inside a function-level reset: the model keeps what they report.
- Pins that the Polaris observation code takes on device objects, and the enumeration record behind an assignment.
- PciKernel.Kernel.AccessPort: the value that is read or written is not modelled.
- PciKernel.Kernel.MakeBar: probing a BAR is a parameter, so its power-of-two and alignment check is not modelled.
- PciKernel.Kernel.DisarmListed: the router's bindings appear as the list of bound interrupts; the router's own state is in `IrqRouter`.
- PciKernel.Kernel.BeginDevice, CompleteDevice and QuarantineInUse run only inside a submission or a recovery, as the kernel's callers use them; direct calls on a buffer that a submission holds are not steps of a run.
- `pci_assignment_complete_quarantine` is a step only through a recovery; other callers are not modelled.
- PciOperations.DestroyIrqSafe: destroying an interrupt that is still bound in the router is not modelled; the code does not check for it.
- A device owner stays registered while it owns device objects.
- 64-bit identity counters stop at zero after wrap-around, as in the code; running out of identities is modelled, the time it takes is not.
- Scheduler queues and saved contexts: a blocked thread is assumed to have a saved context, and how parking ends is a parameter.
- Process-exit waits, endpoint ownership and the loop that closes all endpoints of a process, which only repeats close.
- Test hooks and fault injection are taken as unarmed.
- FrameAllocator.Pmm.Init: the boot mapping of the bitmap and the later switch to the direct map are not modelled.
- Partition and block-device offsets: a volume is a sequence of blocks of which some may fail.
- Fat32.AcyclicChainIsReadable: that the table covers every cluster is a hypothesis on the chain, since probing does not check it.
- FAT32 directory listing, short names and file lookup, and the byte offsets of the boot sector fields.
- IrqRouterKernel.Table.BindSource: the search for the I/O APIC pin and the encoding of trigger and polarity are parameters.
- Terminal redraw, pixel formats and the geometry of display mappings.
- Boot, drivers, graphical services, consoles and the remaining services: device bring-up and plumbing without a deep invariant.
