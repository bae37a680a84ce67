/**
 Recovery of a crashed driver's device (kernel/pci_device_recovery.c): quarantine
 the assignment, take every CPU access and DMA lifetime away from it, prove that
 the device no longer writes memory, and only then release the assignment.
 */
module PciRecovery {
  import opened Slots
  import opened PciLedger

  // ------------------------------------------------------------------ sweeps

  /** The per-assignment passes over one registry. */
  datatype Pass =
    | DisarmIrqs | UnmapMappings | UnmapBuffers | QuarantineSubs | QuarantineBuffers | ResetSubs | ResetBuffers

  function Capacity(l: Ledger, pass: Pass): nat {
    match pass
    case DisarmIrqs => |l.irqs|
    case UnmapMappings => |l.maps|
    case UnmapBuffers => |l.buffers|
    case QuarantineSubs => |l.subs|
    case QuarantineBuffers => |l.buffers|
    case ResetSubs => |l.subs|
    case ResetBuffers => |l.buffers|
  }

  /** Which page-table removals fail: slot `i` loses only `faults[i]` pages. */
  type Faults = map<nat, nat>

  function Removals(faults: Faults, i: nat, mapped: nat): nat {
    if i in faults then faults[i] else mapped
  }

  /** What one pass does at slot `i`; `Done` continues with the next slot. A
      record that fails its own validity check stops the pass, whichever
      assignment it belongs to. */
  function Visit(l: Ledger, pass: Pass, i: nat, a: nat, owner: nat, faults: Faults, zeroOk: bool): (Ledger, Result)
    requires i < Capacity(l, pass)
  {
    match pass
    case DisarmIrqs =>
      if l.irqs[i].None? then (l, Done)
      else if !IrqValid(l, i) then (l, Refused)
      else if l.irqs[i].value.parent != a then (l, Done)
      else ForceDisarmIrq(l, i, owner)
    case UnmapMappings =>
      if l.maps[i].None? then (l, Done)
      else if !MappingValid(l, i) then (l, Refused)
      else if l.bars[l.maps[i].value.bar].value.parent != a then (l, Done)
      else if l.maps[i].value.owner != owner then (l, Refused)
      else UnmapMmio(l, i, Removals(faults, i, l.maps[i].value.mapped))
    case UnmapBuffers =>
      if l.buffers[i].None? then (l, Done)
      else if !BufferValid(l, i) then (l, Refused)
      else if l.buffers[i].value.parent != a then (l, Done)
      else ForceUnmapBuffer(l, i, owner, Removals(faults, i, l.buffers[i].value.mapped))
    case QuarantineSubs =>
      if l.subs[i].None? then (l, Done)
      else if !SubmissionValid(l, i) then (l, Refused)
      else if l.subs[i].value.parent != a then (l, Done)
      else if l.subs[i].value.owner != owner then (l, Refused)
      else QuarantineSubmission(l, i)
    case QuarantineBuffers =>
      if l.buffers[i].None? then (l, Done)
      else if !BufferValid(l, i) then (l, Refused)
      else if l.buffers[i].value.parent != a then (l, Done)
      else if l.buffers[i].value.owner != owner then (l, Refused)
      else if l.buffers[i].value.state != DeviceActive then (l, Done)
      else (match QuarantineBuffer(l, i, owner) case None => (l, Refused) case Some(l1) => (l1, Done))
    case ResetSubs =>
      if l.subs[i].None? then (l, Done)
      else if !SubmissionValid(l, i) then (l, Refused)
      else if l.subs[i].value.parent != a then (l, Done)
      else if l.subs[i].value.owner != owner then (l, Refused)
      else ResetSubmission(l, i, zeroOk)
    case ResetBuffers =>
      if l.buffers[i].None? then (l, Done)
      else if !BufferValid(l, i) then (l, Refused)
      else if l.buffers[i].value.parent != a then (l, Done)
      else if l.buffers[i].value.owner != owner then (l, Refused)
      else if l.buffers[i].value.state != BufferQuarantined then (l, Done)
      else (match ResetBuffer(l, i, owner, zeroOk) case None => (l, Refused) case Some(l1) => (l1, Done))
  }

  function Sweep(l: Ledger, pass: Pass, i: nat, a: nat, owner: nat, faults: Faults, zeroOk: bool): (Ledger, Result)
    requires i <= Capacity(l, pass)
    decreases Capacity(l, pass) - i
  {
    if i == Capacity(l, pass) then (l, Done)
    else
      var (l1, r) := Visit(l, pass, i, a, owner, faults, zeroOk);
      if r != Done then (l1, r) else Sweep(l1, pass, i + 1, a, owner, faults, zeroOk)
  }

  /** The router quiesces the assignment's bound interrupt resources before the
      registry pass; `bound` lists them in binding order. */
  function DisarmBound(l: Ledger, bound: seq<nat>, a: nat, owner: nat): (Ledger, Result)
    decreases |bound|
  {
    if bound == [] then (l, Done)
    else if !Live(l.irqs, bound[0]) || l.irqs[bound[0]].value.parent != a then DisarmBound(l, bound[1..], a, owner)
    else
      var (l1, r) := ForceDisarmIrq(l, bound[0], owner);
      if r != Done then (l1, r) else DisarmBound(l1, bound[1..], a, owner)
  }

  // ---------------------------------------------------------------- recovery

  predicate RecoveryFor(s: Registry<Recovery>, a: nat) {
    exists r :: 0 <= r < |s| && s[r].Some? && s[r].value.parent == a
  }

  predicate RecoveryValid(l: Ledger, r: nat) {
    && Live(l.recs, r)
    && var x := l.recs[r].value;
       && Matches(l, x.parent, x.prid, x.owner)
       && InState(l, x.parent, Quarantined)
       && (x.completed ==> x.attempted)
  }

  function PutRecovery(l: Ledger, r: nat, x: Recovery): Ledger
    requires r < |l.recs|
  {
    l.(recs := l.recs[r := Some(x)])
  }

  /** What the environment answers while a recovery begins: whether the owner
      has no threads left, whether the function is still enumerated, whether its
      command register reads back at all and with bus mastering on, how far the
      interrupt router gets, whether decoding reads back as disabled, which page
      removals fail, and whether the router releases its bindings. */
  datatype Surroundings = Surroundings(
    quiet: bool, enumerated: bool, present: bool, busMaster: bool, bound: seq<nat>, routerOk: bool,
    decodingOff: bool, mmioFaults: Faults, dmaFaults: Faults, unbindOk: bool)

  /** The caller provides the record's storage, which `slot` stands for. */
  function BeginRecovery(l: Ledger, slot: nat, a: nat, p: Process, env: Surroundings): (Ledger, Result) {
    if !p.ready || p.kernel || p.id == 0 || !env.quiet || RecoveryFor(l.recs, a) || !InState(l, a, Assigned) ||
       l.assigns[a].value.owner != p.id || !env.enumerated || slot >= |l.recs| || Live(l.recs, slot) ||
       !env.present
    then (l, Refused)
    else match ForceQuarantine(l, a, p.id)
      case None => (l, Refused)
      case Some(l1) =>
        var x := Recovery(a, l.assigns[a].value.rid, p.id, env.busMaster, l.assigns[a].value.exposed, false, false,
                          FailedQuarantined, l.serial, 0);
        var l2 := PutRecovery(l1, slot, x).(serial := l1.serial + 1);
        Quiesce(l2, slot, a, p.id, env)
  }

  /** The steps that must all succeed before the recovery counts as quiesced;
      a failed step leaves it FAILED_QUARANTINED. First interrupts and decoding,
      then the CPU mappings, then the DMA lifetimes. */
  function Quiesce(l: Ledger, slot: nat, a: nat, owner: nat, env: Surroundings): (Ledger, Result)
    requires Live(l.recs, slot)
  {
    var (l1, r1) := DisarmBound(l, env.bound, a, owner);
    if r1 != Done || !env.routerOk then (l1, NotDone(r1))
    else
      var (l2, r2) := Sweep(l1, DisarmIrqs, 0, a, owner, map[], false);
      if r2 != Done || !env.decodingOff then (l2, NotDone(r2)) else QuiesceCpu(l2, slot, a, owner, env)
  }

  function QuiesceCpu(l: Ledger, slot: nat, a: nat, owner: nat, env: Surroundings): (Ledger, Result) {
    var (l1, r1) := Sweep(l, UnmapMappings, 0, a, owner, env.mmioFaults, false);
    if r1 != Done then (l1, r1)
    else
      var (l2, r2) := Sweep(l1, UnmapBuffers, 0, a, owner, env.dmaFaults, false);
      if r2 != Done then (l2, r2) else QuiesceDma(l2, slot, a, owner, env)
  }

  function QuiesceDma(l: Ledger, slot: nat, a: nat, owner: nat, env: Surroundings): (Ledger, Result) {
    var (l1, r1) := Sweep(l, QuarantineSubs, 0, a, owner, map[], false);
    if r1 != Done then (l1, r1)
    else
      var (l2, r2) := Sweep(l1, QuarantineBuffers, 0, a, owner, map[], false);
      if r2 != Done || BarPins(l2, a) != 0 || !env.unbindOk || !Live(l2.recs, slot) then (l2, NotDone(r2))
      else (PutRecovery(l2, slot, l2.recs[slot].value.(state := Quiesced)), Done)
  }

  function NotDone(r: Result): Result {
    if r == Halt then Halt else Refused
  }

  function SubOf(a: nat): Option<Submission> -> nat {
    (s: Option<Submission>) => if s.Some? && s.value.parent == a then 1 else 0
  }

  /** `complete_dma_recovery_locked`. */
  function CompleteDma(l: Ledger, r: nat, zeroOk: bool): (Ledger, Result)
    requires Live(l.recs, r)
  {
    var x := l.recs[r].value;
    var (l1, r1) := Sweep(l, ResetSubs, 0, x.parent, x.owner, map[], zeroOk);
    if r1 != Done then (l1, r1)
    else
      var (l2, r2) := Sweep(l1, ResetBuffers, 0, x.parent, x.owner, map[], zeroOk);
      if r2 != Done then (l2, r2) else Certify(l2, r, x.parent)
  }

  /** The zero-count checks that end a completion. */
  function Certify(l: Ledger, r: nat, a: nat): (Ledger, Result) {
    if Sum(l.subs, SubOf(a)) != 0 || !Known(l, a) || l.assigns[a].value.gate || l.assigns[a].value.pins != 0 ||
      !Live(l.recs, r)
    then (l, Refused)
    else (PutRecovery(l, r, l.recs[r].value.(state := DmaSafe)), Done)
  }

  predicate ResetRequired(x: Recovery) {
    x.busMaster || x.exposed
  }

  function CompleteWithoutReset(l: Ledger, r: nat, commandUnchanged: bool, zeroOk: bool): (Ledger, Result) {
    if !RecoveryValid(l, r) || l.recs[r].value.state != Quiesced || ResetRequired(l.recs[r].value) || !commandUnchanged
    then (l, Refused)
    else CompleteDma(l, r, zeroOk)
  }

  /** The kernel checks the recovery, then drops its exclusion and resets the
      device; other operations can run before the reset reports back. */
  function StartReset(l: Ledger, r: nat, supported: bool): (Ledger, Result) {
    if !RecoveryValid(l, r) || l.recs[r].value.state != Quiesced || !ResetRequired(l.recs[r].value) || !supported
    then (l, Refused)
    else (l.(flights := l.flights + [Flight(r, l.recs[r].value.serial)]), Done)
  }

  datatype ResetOutcome = NotAttempted | Complete | Failed

  function FinishReset(l: Ledger, f: nat, outcome: ResetOutcome, zeroOk: bool): (Ledger, Result) {
    if f >= |l.flights| then (l, Refused)
    else
      var flight := l.flights[f];
      var l1 := l.(flights := l.flights[..f] + l.flights[f + 1..]);
      var r := flight.slot;
      if !RecoveryValid(l1, r) || l1.recs[r].value.state != Quiesced || outcome == NotAttempted then (l1, Refused)
      else if outcome == Failed then
        (PutRecovery(l1, r, l1.recs[r].value.(attempted := true, state := FailedQuarantined)), Refused)
      else CompleteAfterReset(l1, r, flight.serial, zeroOk)
  }

  function CompleteAfterReset(l: Ledger, r: nat, serial: nat, zeroOk: bool): (Ledger, Result)
    requires Live(l.recs, r)
  {
    var l1 := PutRecovery(l, r, l.recs[r].value.(attempted := true, completed := true, resetSerial := serial));
    var (l2, res) := CompleteDma(l1, r, zeroOk);
    if res != Done && Live(l2.recs, r) then
      (PutRecovery(l2, r, l2.recs[r].value.(state := FailedQuarantined)), NotDone(res))
    else (l2, res)
  }

  function CompleteAssignment(l: Ledger, r: nat): (Ledger, Result) {
    if !RecoveryValid(l, r) || l.recs[r].value.state != DmaSafe then (l, Refused)
    else match CompleteQuarantine(l, l.recs[r].value.parent, l.recs[r].value.owner)
      case None => (l, Refused)
      case Some(l1) => (l1.(recs := l1.recs[r := None]), Done)
  }
}
