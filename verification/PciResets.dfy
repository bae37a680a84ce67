/**
 Which reset a completed recovery has had. The kernel starts a function-level
 reset, drops its exclusion, and credits the result to whatever recovery is in
 the same record when the reset reports back.
 */
module PciResets {
  import opened Slots
  import opened PciLedger
  import opened PciRecovery
  import opened PciInvariant
  import opened PciEdits
  import opened PciOperations
  import opened PciSweeps
  import opened PciDrain
  import opened PciRecoverySafety
  import opened PciRuns

  /** Every reset in flight belongs to the recovery that is in its record now, and
      a completed recovery was reset by a reset that was started for it. */
  ghost predicate Fresh(l: Ledger) {
    && (forall f :: 0 <= f < |l.flights| ==> InFlight(l, l.flights[f]))
    && (forall f, g :: 0 <= f < g < |l.flights| ==> l.flights[f].slot != l.flights[g].slot)
    && (forall r: nat :: Live(l.recs, r) && l.recs[r].value.completed ==>
      l.recs[r].value.resetSerial == l.recs[r].value.serial)
  }

  predicate InFlight(l: Ledger, flight: Flight) {
    && Live(l.recs, flight.slot)
    && var x := l.recs[flight.slot].value;
       x.state == Quiesced && ResetRequired(x) && x.serial == flight.serial
  }

  /** The discipline that keeps resets fresh: none is started for a record that
      has one in flight. */
  predicate Disciplined(l: Ledger, op: Op) {
    op.OnRecovery? && op.recovery.OpStartReset? ==>
      forall f :: 0 <= f < |l.flights| ==> l.flights[f].slot != op.recovery.r
  }

  lemma BeginFresh(l: Ledger, slot: nat, a: nat, p: Process, env: Surroundings)
    requires Inv(l) && Fresh(l)
    ensures Fresh(BeginRecovery(l, slot, a, p, env).0)
  {
    hide Inv, Quiesce;
    if InState(l, a, Assigned) && ForceQuarantine(l, a, p.id).Some? && slot < |l.recs| && !Live(l.recs, slot) {
      var l1 := ForceQuarantine(l, a, p.id).value;
      var x := Recovery(a, l.assigns[a].value.rid, p.id, env.busMaster, l.assigns[a].value.exposed, false, false,
                        FailedQuarantined, l.serial, 0);
      var l2 := PutRecovery(l1, slot, x).(serial := l1.serial + 1);
      OpenRecord(l, slot, a, p.id, x);
      QuiesceSafe(l2, slot, a, p.id, env);
    }
  }

  lemma CompleteFresh(l: Ledger, r: nat, zeroOk: bool)
    requires Inv(l) && Fresh(l) && Live(l.recs, r) && l.recs[r].value.state == Quiesced
    requires ResetRequired(l.recs[r].value) ==> l.recs[r].value.completed
    requires forall f :: 0 <= f < |l.flights| ==> l.flights[f].slot != r
    ensures Fresh(CompleteDma(l, r, zeroOk).0)
    ensures Live(CompleteDma(l, r, zeroOk).0.recs, r) && CompleteDma(l, r, zeroOk).0.flights == l.flights
  {
    hide Inv, CompleteDma;
    CompleteDmaSound(l, r, zeroOk);
  }

  function Without(l: Ledger, f: nat): Ledger
    requires f < |l.flights|
  {
    l.(flights := l.flights[..f] + l.flights[f + 1..])
  }

  lemma LandingFresh(l: Ledger, f: nat)
    requires Fresh(l) && f < |l.flights|
    ensures var l1 := Without(l, f);
            && Fresh(l1) && InFlight(l1, l.flights[f])
            && (forall g :: 0 <= g < |l1.flights| ==> l1.flights[g].slot != l.flights[f].slot)
  {
    var l1 := Without(l, f);
    assert InFlight(l, l.flights[f]);
    forall g | 0 <= g < |l1.flights| ensures InFlight(l1, l1.flights[g]) && l1.flights[g].slot != l.flights[f].slot {
      var was := if g < f then g else g + 1;
      assert InFlight(l, l.flights[was]);
    }
  }

  lemma FinishFresh(l: Ledger, f: nat, outcome: ResetOutcome, zeroOk: bool)
    requires Inv(l) && Fresh(l)
    ensures Fresh(FinishReset(l, f, outcome, zeroOk).0)
  {
    hide Inv, CompleteDma;
    if f < |l.flights| {
      var l1 := Without(l, f);
      LandingFresh(l, f);
      FlightsSafe(l, l1.flights);
      LandedFresh(l1, l.flights[f], outcome, zeroOk);
    }
  }

  lemma LandedFresh(l: Ledger, flight: Flight, outcome: ResetOutcome, zeroOk: bool)
    requires Inv(l) && Fresh(l) && InFlight(l, flight)
    requires forall g :: 0 <= g < |l.flights| ==> l.flights[g].slot != flight.slot
    ensures var r := flight.slot;
            && Fresh(PutRecovery(l, r, l.recs[r].value.(attempted := true, state := FailedQuarantined)))
            && Fresh(CompleteAfterReset(l, r, flight.serial, zeroOk).0)
  {
    hide Inv, CompleteDma;
    var r := flight.slot;
    CreditReset(l, r, flight.serial);
    CompleteFresh(PutRecovery(l, r,
      l.recs[r].value.(attempted := true, completed := true, resetSerial := flight.serial)), r, zeroOk);
  }

  lemma RecoveryOpFresh(l: Ledger, call: RecoveryCall)
    requires Inv(l) && Fresh(l) && Disciplined(l, OnRecovery(call))
    ensures Fresh(RecoveryOp(l, call).0)
  {
    hide Inv, BeginRecovery, FinishReset, CompleteDma;
    match call
    case OpBeginRecovery(slot, a, p, env) => BeginFresh(l, slot, a, p, env);
    case OpCompleteWithoutReset(r, commandUnchanged, zeroOk) =>
      if RecoveryValid(l, r) && l.recs[r].value.state == Quiesced && !ResetRequired(l.recs[r].value) {
        forall f | 0 <= f < |l.flights| ensures l.flights[f].slot != r {
          assert InFlight(l, l.flights[f]);
        }
        CompleteFresh(l, r, zeroOk);
      }
    case OpStartReset(r, supported) =>
      if RecoveryValid(l, r) {
        var l' := StartReset(l, r, supported).0;
        forall f | 0 <= f < |l'.flights| ensures InFlight(l', l'.flights[f]) {
          assert f < |l.flights| ==> InFlight(l, l.flights[f]);
        }
      }
    case OpFinishReset(f, outcome, zeroOk) => FinishFresh(l, f, outcome, zeroOk);
    case OpCompleteAssignment(r) =>
      var l' := CompleteAssignment(l, r).0;
      forall f | 0 <= f < |l'.flights| ensures InFlight(l', l'.flights[f]) {
        assert InFlight(l, l.flights[f]);
      }
  }

  lemma StepFresh(l: Ledger, op: Op)
    requires Inv(l) && Fresh(l) && Disciplined(l, op)
    ensures Fresh(Apply(l, op).0)
  {
    hide Inv, AssignmentOp, BarOp, BufferOp, IrqOp, RecoveryOp;
    match op
    case OnAssignment(call) => AssignmentOpSafe(l, call);
    case OnBar(call) => BarOpSafe(l, call);
    case OnBuffer(call) => BufferOpSafe(l, call);
    case OnIrq(call) => IrqOpSafe(l, call);
    case OnRecovery(call) => RecoveryOpFresh(l, call);
  }

  // ---------------------------------------------------------- when a credit is right

  /** Every completed recovery was reset by a reset that was started for it. */
  ghost predicate Credited(l: Ledger) {
    forall r: nat :: Live(l.recs, r) && l.recs[r].value.completed ==>
      l.recs[r].value.resetSerial == l.recs[r].value.serial
  }

  /** The step lands a successful reset on a quiesced record that by now holds
      another recovery than the one the reset was started for. */
  predicate LandsStale(l: Ledger, op: Op) {
    && op.OnRecovery? && op.recovery.OpFinishReset? && op.recovery.outcome == Complete && op.recovery.f < |l.flights|
    && var flight := l.flights[op.recovery.f];
       && RecoveryValid(l, flight.slot)
       && l.recs[flight.slot].value.state == Quiesced && l.recs[flight.slot].value.serial != flight.serial
  }

  lemma BeginCredited(l: Ledger, slot: nat, a: nat, p: Process, env: Surroundings)
    requires Inv(l) && Credited(l)
    ensures Credited(BeginRecovery(l, slot, a, p, env).0)
  {
    hide Inv, Quiesce;
    if InState(l, a, Assigned) && ForceQuarantine(l, a, p.id).Some? && slot < |l.recs| && !Live(l.recs, slot) {
      var l1 := ForceQuarantine(l, a, p.id).value;
      var x := Recovery(a, l.assigns[a].value.rid, p.id, env.busMaster, l.assigns[a].value.exposed, false, false,
                        FailedQuarantined, l.serial, 0);
      var l2 := PutRecovery(l1, slot, x).(serial := l1.serial + 1);
      OpenRecord(l, slot, a, p.id, x);
      QuiesceSafe(l2, slot, a, p.id, env);
    }
  }

  /** Completion credits its own record with the reset that landed, right or wrong. */
  lemma LandedCredit(l: Ledger, r: nat, serial: nat, zeroOk: bool)
    requires Inv(l) && Credited(l) && Live(l.recs, r) && l.recs[r].value.state == Quiesced
    ensures Credited(CompleteAfterReset(l, r, serial, zeroOk).0) <==> l.recs[r].value.serial == serial
  {
    hide Inv, CompleteDma;
    CreditReset(l, r, serial);
    var l1 := PutRecovery(l, r, l.recs[r].value.(attempted := true, completed := true, resetSerial := serial));
    CompleteDmaSound(l1, r, zeroOk);
    var l' := CompleteAfterReset(l, r, serial, zeroOk).0;
    assert Live(l'.recs, r) && l'.recs[r].value.completed;
    assert l'.recs[r].value.serial == l.recs[r].value.serial && l'.recs[r].value.resetSerial == serial;
    assert l'.recs == l.recs[r := l'.recs[r]];
  }

  lemma FinishCredited(l: Ledger, f: nat, outcome: ResetOutcome, zeroOk: bool)
    requires Inv(l) && Credited(l)
    ensures Credited(FinishReset(l, f, outcome, zeroOk).0) <==>
      !LandsStale(l, OnRecovery(OpFinishReset(f, outcome, zeroOk)))
  {
    hide Inv, CompleteAfterReset;
    if f < |l.flights| {
      var l1, flight := Without(l, f), l.flights[f];
      FlightsSafe(l, l1.flights);
      if RecoveryValid(l1, flight.slot) && l1.recs[flight.slot].value.state == Quiesced {
        LandedCredit(l1, flight.slot, flight.serial, zeroOk);
      }
    }
  }

  lemma RecoveryOpCredited(l: Ledger, call: RecoveryCall)
    requires Inv(l) && Credited(l)
    ensures Credited(RecoveryOp(l, call).0) <==> !LandsStale(l, OnRecovery(call))
  {
    hide Inv, BeginRecovery, FinishReset, CompleteDma;
    match call
    case OpBeginRecovery(slot, a, p, env) => BeginCredited(l, slot, a, p, env);
    case OpCompleteWithoutReset(r, commandUnchanged, zeroOk) =>
      if RecoveryValid(l, r) && l.recs[r].value.state == Quiesced && !ResetRequired(l.recs[r].value) {
        CompleteDmaSound(l, r, zeroOk);
      }
    case OpStartReset(r, supported) =>
    case OpFinishReset(f, outcome, zeroOk) => FinishCredited(l, f, outcome, zeroOk);
    case OpCompleteAssignment(r) =>
  }

  /** A step leaves a wrong credit exactly when it lands a stale reset. */
  lemma StepCreditedIff(l: Ledger, op: Op)
    requires Inv(l) && Credited(l)
    ensures Credited(Apply(l, op).0) <==> !LandsStale(l, op)
  {
    hide Inv, AssignmentOp, BarOp, BufferOp, IrqOp, RecoveryOp;
    match op
    case OnAssignment(call) => AssignmentOpSafe(l, call);
    case OnBar(call) => BarOpSafe(l, call);
    case OnBuffer(call) => BufferOpSafe(l, call);
    case OnIrq(call) => IrqOpSafe(l, call);
    case OnRecovery(call) => RecoveryOpCredited(l, call);
  }

  /** Every state of the run, the first and the last included. */
  ghost predicate AlwaysCredited(l: Ledger, ops: seq<Op>)
    decreases |ops|
  {
    Credited(l) && (ops != [] ==> AlwaysCredited(Apply(l, ops[0]).0, ops[1..]))
  }

  predicate NeverStale(l: Ledger, ops: seq<Op>)
    decreases |ops|
  {
    ops != [] ==> !LandsStale(l, ops[0]) && NeverStale(Apply(l, ops[0]).0, ops[1..])
  }

  /** Credits are right throughout a run exactly when none of its steps lands a stale reset. */
  lemma {:induction false} RunCreditedIff(l: Ledger, ops: seq<Op>)
    requires Inv(l) && Credited(l)
    ensures AlwaysCredited(l, ops) <==> NeverStale(l, ops)
    decreases |ops|
  {
    hide Inv, Credited, LandsStale, Apply;
    if ops != [] {
      StepSound(l, ops[0]);
      StepCreditedIff(l, ops[0]);
      if Credited(Apply(l, ops[0]).0) {
        RunCreditedIff(Apply(l, ops[0]).0, ops[1..]);
      }
    }
  }

  /** Some step of the run closes a recovery of assignment `a` whose record had a
      completed reset that was started for that recovery. */
  ghost predicate ReusedAfterOwnReset(l: Ledger, ops: seq<Op>, a: nat)
    decreases |ops|
  {
    ops != [] &&
    var l' := Apply(l, ops[0]).0;
    || (exists r: nat ::
          && Closes(l, l', ops[0], r) && l.recs[r].value.parent == a && l.recs[r].value.completed
          && l.recs[r].value.resetSerial == l.recs[r].value.serial)
    || ReusedAfterOwnReset(l', ops[1..], a)
  }

  lemma {:induction false} OwnReset(l: Ledger, ops: seq<Op>, a: nat)
    requires AlwaysCredited(l, ops) && ReusedAfterReset(l, ops, a)
    ensures ReusedAfterOwnReset(l, ops, a)
    decreases |ops|
  {
    hide Apply;
    var l' := Apply(l, ops[0]).0;
    if r: nat :| Closes(l, l', ops[0], r) && l.recs[r].value.parent == a && l.recs[r].value.completed {
      assert Live(l.recs, r);
    } else {
      OwnReset(l', ops[1..], a);
    }
  }

  /** The safety claim in full: in a run that never lands a stale reset, an exposed
      device is available again only after a reset that was started for the very
      recovery that released it. */
  lemma ExposedReusedOnlyAfterOwnReset(l: Ledger, ops: seq<Op>, a: nat)
    requires Inv(l) && Credited(l) && NeverStale(l, ops)
    requires a < ASSIGNMENTS && At(l.assigns, a).exposed && At(Run(l, ops).assigns, a).state == Available
    ensures ReusedAfterOwnReset(l, ops, a)
  {
    hide Inv, Credited, NeverStale, AlwaysCredited, ReusedAfterReset, ReusedAfterOwnReset, Run;
    RunCreditedIff(l, ops);
    ExposedReusedOnlyAfterReset(l, ops, a);
    OwnReset(l, ops, a);
  }

  // ------------------------------------------------------------- the discipline

  predicate DisciplinedRun(l: Ledger, ops: seq<Op>)
    decreases |ops|
  {
    ops == [] || (Disciplined(l, ops[0]) && DisciplinedRun(Apply(l, ops[0]).0, ops[1..]))
  }

  /** What a caller can do: while no second reset is started for a record with one in
      flight, every credit is right and no reset lands stale. */
  lemma {:induction false} DisciplinedRunsAreFresh(l: Ledger, ops: seq<Op>)
    requires Inv(l) && Fresh(l) && DisciplinedRun(l, ops)
    ensures Fresh(Run(l, ops)) && NeverStale(l, ops)
    decreases |ops|
  {
    hide Inv, Fresh, Disciplined, Apply, LandsStale;
    if ops != [] {
      StepSound(l, ops[0]);
      StepFresh(l, ops[0]);
      FreshLandsNone(l, ops[0]);
      DisciplinedRunsAreFresh(Apply(l, ops[0]).0, ops[1..]);
    }
  }

  lemma FreshLandsNone(l: Ledger, op: Op)
    requires Fresh(l)
    ensures !LandsStale(l, op)
  {
    if op.OnRecovery? && op.recovery.OpFinishReset? && op.recovery.f < |l.flights| {
      assert InFlight(l, l.flights[op.recovery.f]);
    }
  }

  // ---------------------------------------------------- without the discipline

  /** A ledger with at most one assignment, one recovery and no other object. */
  function Solo(x: Option<Assignment>, r: Option<Recovery>, rid: nat, serial: nat, flights: seq<Flight>): (l: Ledger)
    ensures l.assigns == Boot.assigns[0 := x] && l.recs == Boot.recs[0 := r]
    ensures l.nextRid == rid && l.serial == serial && l.flights == flights
    ensures Bare(l)
  {
    Ledger(Boot.assigns[0 := x], Boot.bars, Boot.maps, Boot.buffers, Boot.subs, Boot.irqs, Boot.recs[0 := r], rid, {},
      {}, serial,
           flights)
  }

  predicate Bare(l: Ledger) {
    && Shape(l)
    && l.bars == Boot.bars && l.maps == Boot.maps && l.buffers == Boot.buffers && l.subs == Boot.subs &&
      l.irqs == Boot.irqs
    && l.free == {} && l.zeroed == {}
  }

  lemma {:induction false} NothingToSweep(l: Ledger, pass: Pass, i: nat, a: nat, owner: nat, zeroOk: bool)
    requires Bare(l) && i <= Capacity(l, pass)
    ensures Sweep(l, pass, i, a, owner, map[], zeroOk) == (l, Done)
    decreases Capacity(l, pass) - i
  {
    hide Blank;
    if i < Capacity(l, pass) {
      NothingToSweep(l, pass, i + 1, a, owner, zeroOk);
    }
  }

  const Driver: Process := Process(1, false, true)
  const Quiet: Surroundings := Surroundings(true, true, true, false, [], true, true, map[], map[], true)

  function Device(state: AssignmentState, exposed: bool): Assignment {
    Assignment(7, 1, 0, if state == Available then 0 else 1, 0, 0, state, false, exposed, false)
  }

  function Record(state: RecoveryState, serial: nat, reset: nat): Recovery {
    Recovery(0, 1, 1, false, true, reset != 0, reset != 0, state, serial, reset)
  }

  /** Claim the device, note that it was mastering the bus, drop the owner's
      capability, and begin recovering it. */
  const Life: seq<Op> := [
    OnAssignment(OpClaim(0, Driver, false, true)), OnAssignment(OpNoteInherited(0, 1)),
      OnAssignment(OpReferences(0, 0)),
    OnRecovery(OpBeginRecovery(0, 0, Driver, Quiet))]

  lemma {:induction false} RunAppend(l: Ledger, ops: seq<Op>, more: seq<Op>)
    ensures Run(l, ops + more) == Run(Run(l, ops), more)
    decreases |ops|
  {
    hide Apply;
    if ops == [] {
      assert ops + more == more;
    } else {
      assert (ops + more)[1..] == ops[1..] + more;
      RunAppend(Apply(l, ops[0]).0, ops[1..], more);
    }
  }

  lemma RunStep(l: Ledger, op: Op, rest: seq<Op>)
    ensures Run(l, [op] + rest) == Run(Apply(l, op).0, rest)
  {
    hide Apply;
    assert ([op] + rest)[1..] == rest;
  }

  lemma RunFour(l: Ledger, a: Op, b: Op, c: Op, d: Op)
    ensures Run(l, [a, b, c, d]) == Apply(Apply(Apply(Apply(l, a).0, b).0, c).0, d).0
  {
    hide Apply, Run;
    assert [a, b, c, d] == [a] + ([b] + ([c] + ([d] + [])));
    RunStep(l, a, [b] + ([c] + ([d] + [])));
    RunStep(Apply(l, a).0, b, [c] + ([d] + []));
    RunStep(Apply(Apply(l, a).0, b).0, c, [d] + []);
    RunStep(Apply(Apply(Apply(l, a).0, b).0, c).0, d, []);
    RunNone(Apply(Apply(Apply(Apply(l, a).0, b).0, c).0, d).0);
  }

  lemma RunNone(l: Ledger)
    ensures Run(l, []) == l
  {
  }

  /** Two ledgers with nothing but an assignment and a recovery, field by field. */
  lemma SoloEquals(l: Ledger, x: Option<Assignment>, r: Option<Recovery>)
    requires Bare(l) && l.assigns == Boot.assigns[0 := x] && l.recs == Boot.recs[0 := r]
    ensures l == Solo(x, r, l.nextRid, l.serial, l.flights)
  {
    hide Blank;
  }

  lemma QuiesceAlone(l: Ledger, owner: nat)
    requires Bare(l) && Live(l.recs, 0)
    ensures Quiesce(l, 0, 0, owner, Quiet) == (PutRecovery(l, 0, l.recs[0].value.(state := Quiesced)), Done)
  {
    hide Sweep, Blank;
    NothingToSweep(l, DisarmIrqs, 0, 0, owner, false);
    NothingToSweep(l, UnmapMappings, 0, 0, owner, false);
    NothingToSweep(l, UnmapBuffers, 0, 0, owner, false);
    NothingToSweep(l, QuarantineSubs, 0, 0, owner, false);
    NothingToSweep(l, QuarantineBuffers, 0, 0, owner, false);
    SumZero(l.bars, BarPin(0));
  }

  lemma CompleteAlone(l: Ledger)
    requires Bare(l) && Live(l.recs, 0) && l.recs[0].value.parent == 0
    requires Known(l, 0) && !l.assigns[0].value.gate && l.assigns[0].value.pins == 0
    ensures CompleteDma(l, 0, true) == (PutRecovery(l, 0, l.recs[0].value.(state := DmaSafe)), Done)
  {
    hide Sweep, Blank;
    NothingToSweep(l, ResetSubs, 0, 0, l.recs[0].value.owner, true);
    NothingToSweep(l, ResetBuffers, 0, 0, l.recs[0].value.owner, true);
    SumZero(l.subs, SubOf(0));
  }

  lemma BeginAlone(serial: nat, flights: seq<Flight>)
    ensures BeginRecovery(Solo(Some(Device(Assigned, true)), None, 2, serial, flights), 0, 0, Driver, Quiet).0 ==
      Solo(Some(Device(Quarantined, true)), Some(Record(Quiesced, serial, 0)), 2, serial + 1, flights)
  {
    hide Sweep, Blank, Solo, Quiesce;
    var l := Solo(Some(Device(Assigned, true)), None, 2, serial, flights);
    var l1 := ForceQuarantine(l, 0, 1).value;
    var l2 := PutRecovery(l1, 0, Record(FailedQuarantined, serial, 0)).(serial := serial + 1);
    QuiesceAlone(l2, 1);
    var l3 := PutRecovery(l2, 0, Record(Quiesced, serial, 0));
    SoloEquals(l3, Some(Device(Quarantined, true)), Some(Record(Quiesced, serial, 0)));
  }

  lemma ClaimAlone(serial: nat, flights: seq<Flight>)
    ensures Run(Solo(Some(Device(Available, false)), None, 2, serial, flights), Life) ==
      Solo(Some(Device(Quarantined, true)), Some(Record(Quiesced, serial, 0)), 2, serial + 1, flights)
  {
    hide Blank, Solo, BeginRecovery;
    var l := Solo(Some(Device(Available, false)), None, 2, serial, flights);
    RunFour(l, Life[0], Life[1], Life[2], Life[3]);
    assert Life == [Life[0], Life[1], Life[2], Life[3]];
    var l1 := Apply(l, Life[0]).0;
    var l2 := Apply(l1, Life[1]).0;
    var l3 := Apply(l2, Life[2]).0;
    SoloEquals(l3, Some(Device(Assigned, true)), None);
    BeginAlone(serial, flights);
  }

  lemma FinishAlone(serial: nat, started: nat, flights: seq<Flight>)
    requires started != 0
    ensures FinishReset(Solo(Some(Device(Quarantined, true)), Some(Record(Quiesced, serial, 0)), 2, serial + 1,
                             [Flight(0, started)] + flights), 0, Complete, true).0 ==
      Solo(Some(Device(Quarantined, true)), Some(Record(DmaSafe, serial, started)), 2, serial + 1, flights)
  {
    hide Blank, Solo, CompleteDma;
    var all := [Flight(0, started)] + flights;
    assert all[..0] + all[0 + 1..] == flights;
    var l := Solo(Some(Device(Quarantined, true)), Some(Record(Quiesced, serial, 0)), 2, serial + 1, all);
    var l1 := l.(flights := flights);
    var l2 := PutRecovery(l1, 0, Record(Quiesced, serial, started));
    CompleteAlone(l2);
    var l3 := PutRecovery(l2, 0, Record(DmaSafe, serial, started));
    SoloEquals(l3, Some(Device(Quarantined, true)), Some(Record(DmaSafe, serial, started)));
  }

  /** Two resets are started for one recovery; the first to report back completes
      it, and the device is released while the other is still in flight. */
  const Overtaken: seq<Op> := [
    OnRecovery(OpStartReset(0, true)), OnRecovery(OpStartReset(0, true)), OnRecovery(OpFinishReset(0, Complete, true)),
    OnRecovery(OpCompleteAssignment(0))]

  lemma OvertakeAlone(serial: nat)
    requires serial != 0
    ensures Run(Solo(Some(Device(Quarantined, true)), Some(Record(Quiesced, serial, 0)), 2, serial + 1, []),
      Overtaken) ==
      Solo(Some(Device(Available, false)), None, 2, serial + 1, [Flight(0, serial)])
  {
    hide Blank, Solo, FinishReset;
    var l := Solo(Some(Device(Quarantined, true)), Some(Record(Quiesced, serial, 0)), 2, serial + 1, []);
    RunFour(l, Overtaken[0], Overtaken[1], Overtaken[2], Overtaken[3]);
    assert Overtaken == [Overtaken[0], Overtaken[1], Overtaken[2], Overtaken[3]];
    var l1 := Apply(l, Overtaken[0]).0;
    var l2 := Apply(l1, Overtaken[1]).0;
    SoloEquals(l2, Some(Device(Quarantined, true)), Some(Record(Quiesced, serial, 0)));
    assert l2.flights == [Flight(0, serial)] + [Flight(0, serial)];
    FinishAlone(serial, serial, [Flight(0, serial)]);
    var l3 := Apply(l2, Overtaken[2]).0;
    var l4 := Apply(l3, Overtaken[3]).0;
    SoloEquals(l4, Some(Device(Available, false)), None);
  }

  const Create: Op := OnAssignment(OpCreateAssignment(7, true))
  const Finish: Op := OnRecovery(OpFinishReset(0, Complete, true))
  const StaleRun: seq<Op> := [Create] + (Life + (Overtaken + (Life + [Finish])))

  lemma CreateAlone()
    ensures Apply(Boot, Create).0 == Solo(Some(Device(Available, false)), None, 2, 1, [])
  {
    hide Blank, Solo;
    var l := Apply(Boot, Create).0;
    assert Empty(Boot.assigns) == 0;
    assert Boot.recs[0 := None] == Boot.recs;
    SoloEquals(l, Some(Device(Available, false)), None);
  }

  lemma StaleEnd()
    ensures Run(Boot, StaleRun) == Solo(Some(Device(Quarantined, true)), Some(Record(DmaSafe, 2, 1)), 2, 3, [])
  {
    hide Blank, Solo, Run, Apply, Create, Life, Overtaken, Finish, Boot;
    RunStep(Boot, Create, Life + (Overtaken + (Life + [Finish])));
    CreateAlone();
    var l1 := Solo(Some(Device(Available, false)), None, 2, 1, []);
    RunAppend(l1, Life, Overtaken + (Life + [Finish]));
    ClaimAlone(1, []);
    var l2 := Run(l1, Life);
    RunAppend(l2, Overtaken, Life + [Finish]);
    OvertakeAlone(1);
    var l3 := Run(l2, Overtaken);
    RunAppend(l3, Life, [Finish]);
    ClaimAlone(2, [Flight(0, 1)]);
    StaleFinish();
  }

  lemma StaleFinish()
    ensures Run(Solo(Some(Device(Quarantined, true)), Some(Record(Quiesced, 2, 0)), 2, 3, [Flight(0, 1)]), [Finish]) ==
      Solo(Some(Device(Quarantined, true)), Some(Record(DmaSafe, 2, 1)), 2, 3, [])
  {
    hide Blank, Solo, Run, FinishReset;
    var l := Solo(Some(Device(Quarantined, true)), Some(Record(Quiesced, 2, 0)), 2, 3, [Flight(0, 1)]);
    assert [Finish] + [] == [Finish] && [Flight(0, 1)] + [] == [Flight(0, 1)];
    RunStep(l, Finish, []);
    RunNone(Apply(l, Finish).0);
    FinishAlone(2, 1, []);
  }

  /** Without the discipline the credit can be stale: this run ends with a
      recovery that counts as reset by a reset started for an earlier one. */
  lemma StaleCredit()
    ensures var l := Run(Boot, StaleRun);
            && Live(l.recs, 0) && l.recs[0].value.state == DmaSafe && l.recs[0].value.completed
            && l.recs[0].value.resetSerial != l.recs[0].value.serial
            && !Credited(l)
  {
    hide Blank, Solo, Run;
    StaleEnd();
  }
}
