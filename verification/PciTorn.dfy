/**
 What a damaged DMA buffer costs. A buffer whose unmapping failed part-way, or
 that the kernel process owns, fails its own validity check, and the passes over
 the buffer registry stop at the first invalid buffer of any device. Once there
 is such a buffer it stays for the rest of the run, and no recovery of any
 device makes progress again.
 */
module PciTorn {
  import opened Slots
  import opened PciLedger
  import opened PciRecovery
  import opened PciInvariant
  import opened PciEdits
  import opened PciOperations
  import opened PciSweeps
  import opened PciDrain
  import opened PciRecoverySafety
  import opened PciRuns

  predicate Torn(l: Ledger, j: nat) {
    Live(l.buffers, j) && !Intact(l.buffers[j].value)
  }

  // ------------------------------------------------------- no step repairs one

  lemma AssignmentKeepsBuffers(l: Ledger, call: AssignmentCall)
    ensures AssignmentOp(l, call).0.buffers == l.buffers
  {
  }

  lemma BarKeepsBuffers(l: Ledger, call: BarCall)
    ensures BarOp(l, call).0.buffers == l.buffers
  {
  }

  lemma IrqKeepsBuffers(l: Ledger, call: IrqCall)
    ensures IrqOp(l, call).0.buffers == l.buffers
  {
  }

  lemma SubmissionsKeepTorn(l: Ledger, call: BufferCall, j: nat)
    requires Torn(l, j)
    requires call.OpBeginSubmission? || call.OpCompleteSubmission? || call.OpQuarantineSubmission?
    ensures Torn(BufferOp(l, call).0, j)
  {
    hide BarPins;
  }

  lemma BufferOpKeepsTorn(l: Ledger, call: BufferCall, j: nat)
    requires Torn(l, j)
    ensures Torn(BufferOp(l, call).0, j)
  {
    hide BarPins, BeginSubmission, CompleteSubmission, QuarantineSubmission;
    if call.OpBeginSubmission? || call.OpCompleteSubmission? || call.OpQuarantineSubmission? {
      SubmissionsKeepTorn(l, call, j);
    }
  }

  lemma VisitKeepsTorn(l: Ledger, pass: Pass, i: nat, a: nat, owner: nat, faults: Faults, zeroOk: bool, j: nat)
    requires Torn(l, j) && i < Capacity(l, pass)
    ensures Torn(Visit(l, pass, i, a, owner, faults, zeroOk).0, j)
    ensures Capacity(Visit(l, pass, i, a, owner, faults, zeroOk).0, pass) == Capacity(l, pass)
    ensures (pass == UnmapBuffers || pass == QuarantineBuffers || pass == ResetBuffers) && i == j ==>
      Visit(l, pass, i, a, owner, faults, zeroOk).1 == Refused
  {
    hide BarPins;
  }

  /** No pass repairs a torn buffer, and the passes over the buffers stop at it. */
  lemma {:induction false} SweepKeepsTorn(l: Ledger, pass: Pass, i: nat, a: nat, owner: nat, faults: Faults,
      zeroOk: bool, j: nat)
    requires Torn(l, j) && i <= Capacity(l, pass)
    ensures Torn(Sweep(l, pass, i, a, owner, faults, zeroOk).0, j)
    ensures (pass == UnmapBuffers || pass == QuarantineBuffers || pass == ResetBuffers) && i <= j ==>
      Sweep(l, pass, i, a, owner, faults, zeroOk).1 != Done
    decreases Capacity(l, pass) - i
  {
    hide Visit;
    if i < Capacity(l, pass) {
      var (l1, r) := Visit(l, pass, i, a, owner, faults, zeroOk);
      VisitKeepsTorn(l, pass, i, a, owner, faults, zeroOk, j);
      if r == Done {
        SweepKeepsTorn(l1, pass, i + 1, a, owner, faults, zeroOk, j);
      }
    }
  }

  lemma {:induction false} DisarmKeepsBuffers(l: Ledger, bound: seq<nat>, a: nat, owner: nat)
    ensures DisarmBound(l, bound, a, owner).0.buffers == l.buffers
    decreases |bound|
  {
    if bound != [] {
      DisarmKeepsBuffers(l, bound[1..], a, owner);
      if Live(l.irqs, bound[0]) {
        DisarmKeepsBuffers(ForceDisarmIrq(l, bound[0], owner).0, bound[1..], a, owner);
      }
    }
  }

  /** A recovery that begins beside a torn buffer ends in FAILED_QUARANTINED. */
  lemma QuiesceFails(l: Ledger, slot: nat, a: nat, owner: nat, env: Surroundings, j: nat)
    requires Torn(l, j) && Live(l.recs, slot)
    ensures var (l', r) := Quiesce(l, slot, a, owner, env);
            Torn(l', j) && r != Done
  {
    hide Sweep, DisarmBound;
    DisarmKeepsBuffers(l, env.bound, a, owner);
    var l1 := DisarmBound(l, env.bound, a, owner).0;
    SweepKeepsTorn(l1, DisarmIrqs, 0, a, owner, map[], false, j);
    var l2 := Sweep(l1, DisarmIrqs, 0, a, owner, map[], false).0;
    SweepKeepsTorn(l2, UnmapMappings, 0, a, owner, env.mmioFaults, false, j);
    var l3 := Sweep(l2, UnmapMappings, 0, a, owner, env.mmioFaults, false).0;
    SweepKeepsTorn(l3, UnmapBuffers, 0, a, owner, env.dmaFaults, false, j);
  }

  lemma CompleteDmaFails(l: Ledger, r: nat, zeroOk: bool, j: nat)
    requires Torn(l, j) && Live(l.recs, r)
    ensures var (l', res) := CompleteDma(l, r, zeroOk);
            Torn(l', j) && res != Done
  {
    hide Sweep;
    var x := l.recs[r].value;
    SweepKeepsTorn(l, ResetSubs, 0, x.parent, x.owner, map[], zeroOk, j);
    var l1 := Sweep(l, ResetSubs, 0, x.parent, x.owner, map[], zeroOk).0;
    SweepKeepsTorn(l1, ResetBuffers, 0, x.parent, x.owner, map[], zeroOk, j);
  }

  /** No record is DMA-safe that was not so already. */
  ghost predicate NoneSaved(l: Ledger, l': Ledger) {
    forall r: nat :: Live(l'.recs, r) && l'.recs[r].value.state == DmaSafe ==>
      Live(l.recs, r) && l.recs[r] == l'.recs[r]
  }

  lemma BeginFails(l: Ledger, slot: nat, a: nat, p: Process, env: Surroundings, j: nat)
    requires Inv(l) && Torn(l, j)
    ensures var (l', res) := BeginRecovery(l, slot, a, p, env);
            Torn(l', j) && NoneSaved(l, l') && res != Done
  {
    hide Inv, Quiesce;
    if InState(l, a, Assigned) && ForceQuarantine(l, a, p.id).Some? && slot < |l.recs| && !Live(l.recs, slot) {
      var l1 := ForceQuarantine(l, a, p.id).value;
      var x := Recovery(a, l.assigns[a].value.rid, p.id, env.busMaster, l.assigns[a].value.exposed, false, false,
                        FailedQuarantined, l.serial, 0);
      var l2 := PutRecovery(l1, slot, x).(serial := l1.serial + 1);
      OpenRecord(l, slot, a, p.id, x);
      QuiesceSafe(l2, slot, a, p.id, env);
      QuiesceFails(l2, slot, a, p.id, env, j);
    }
  }

  lemma FinishFails(l: Ledger, r: nat, serial: nat, zeroOk: bool, j: nat)
    requires Inv(l) && Torn(l, j) && Live(l.recs, r) && l.recs[r].value.state == Quiesced
    ensures var (l', res) := CompleteAfterReset(l, r, serial, zeroOk);
            Torn(l', j) && NoneSaved(l, l')
  {
    hide Inv, CompleteDma;
    CreditReset(l, r, serial);
    var l1 := PutRecovery(l, r, l.recs[r].value.(attempted := true, completed := true, resetSerial := serial));
    CompleteDmaSound(l1, r, zeroOk);
    CompleteDmaFails(l1, r, zeroOk, j);
  }

  lemma RecoveryOpFails(l: Ledger, call: RecoveryCall, j: nat)
    requires Inv(l) && Torn(l, j)
    ensures var l' := RecoveryOp(l, call).0;
            Torn(l', j) && NoneSaved(l, l')
  {
    hide Inv, BeginRecovery, CompleteAfterReset, CompleteDma;
    match call
    case OpBeginRecovery(slot, a, p, env) => BeginFails(l, slot, a, p, env, j);
    case OpCompleteWithoutReset(r, commandUnchanged, zeroOk) =>
      if RecoveryValid(l, r) && l.recs[r].value.state == Quiesced && !ResetRequired(l.recs[r].value) {
        CompleteDmaSound(l, r, zeroOk);
        CompleteDmaFails(l, r, zeroOk, j);
      }
    case OpFinishReset(f, outcome, zeroOk) =>
      if f < |l.flights| {
        var l1 := l.(flights := l.flights[..f] + l.flights[f + 1..]);
        FlightsSafe(l, l1.flights);
        var r := l.flights[f].slot;
        if Live(l1.recs, r) && l1.recs[r].value.state == Quiesced {
          FinishFails(l1, r, l.flights[f].serial, zeroOk, j);
        }
      }
    case OpStartReset(_, _) =>
    case OpCompleteAssignment(_) =>
  }

  lemma StepKeepsTorn(l: Ledger, op: Op, j: nat)
    requires Inv(l) && Torn(l, j)
    ensures var l' := Apply(l, op).0;
            Torn(l', j) && NoneSaved(l, l')
  {
    hide Inv, AssignmentOp, BarOp, BufferOp, IrqOp, RecoveryOp;
    match op
    case OnAssignment(call) => AssignmentOpSafe(l, call); AssignmentKeepsBuffers(l, call);
    case OnBar(call) => BarOpSafe(l, call); BarKeepsBuffers(l, call);
    case OnBuffer(call) => BufferOpSafe(l, call); BufferOpKeepsTorn(l, call, j);
    case OnIrq(call) => IrqOpSafe(l, call); IrqKeepsBuffers(l, call);
    case OnRecovery(call) => RecoveryOpFails(l, call, j);
  }

  /** Over every run: the torn buffer stays, and no recovery of any device
      becomes DMA-safe. */
  lemma {:induction false} TornIsForever(l: Ledger, ops: seq<Op>, j: nat)
    requires Inv(l) && Torn(l, j)
    ensures Torn(Run(l, ops), j) && NoneSaved(l, Run(l, ops))
    decreases |ops|
  {
    hide Inv, Apply;
    if ops != [] {
      StepSound(l, ops[0]);
      StepKeepsTorn(l, ops[0], j);
      TornIsForever(Apply(l, ops[0]).0, ops[1..], j);
    }
  }

  /** A quarantined device whose recovery is not yet DMA-safe then stays
      quarantined for the rest of the run. */
  lemma {:induction false} TornFreezes(l: Ledger, ops: seq<Op>, j: nat, a: nat)
    requires Inv(l) && Torn(l, j) && a < ASSIGNMENTS && At(l.assigns, a).state == Quarantined
    requires forall r: nat :: Live(l.recs, r) && l.recs[r].value.parent == a ==> l.recs[r].value.state != DmaSafe
    ensures At(Run(l, ops).assigns, a).state == Quarantined
    decreases |ops|
  {
    hide Inv, Apply;
    if ops != [] {
      StepSound(l, ops[0]);
      StepKeepsTorn(l, ops[0], j);
      QuarantineAdmitsNothing(l, ops[0], a);
      TornFreezes(Apply(l, ops[0]).0, ops[1..], j, a);
    }
  }
}
