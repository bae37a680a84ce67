/** Beginning, completing and closing a recovery: each keeps the invariant, never
 halts, keeps failed recoveries failed, and frees an assignment only from a
 DMA-safe record. */
module PciRecoverySafety {
  import opened Slots
  import opened PciLedger
  import opened PciRecovery
  import opened PciInvariant
  import opened PciEdits
  import opened PciOperations
  import opened PciSweeps
  import opened PciDrain
  import IrqEvents

  lemma {:induction false} DisarmBoundSafe(l: Ledger, bound: seq<nat>, a: nat, owner: nat)
    requires Inv(l) && InState(l, a, Quarantined)
    ensures var (l', r) := DisarmBound(l, bound, a, owner);
            Inv(l') && r != Halt && Untouched(l, l', DisarmIrqs, a) && InState(l', a, Quarantined)
    decreases |bound|
  {
    if bound != [] {
      if !Live(l.irqs, bound[0]) || l.irqs[bound[0]].value.parent != a {
        DisarmBoundSafe(l, bound[1..], a, owner);
      } else {
        var (l1, r) := ForceDisarmIrq(l, bound[0], owner);
        ForceDisarmIrqSafe(l, bound[0], owner);
        DisarmEffect(l, bound[0], a, owner);
        UntouchedPrepared(l, l1, DisarmIrqs, a);
        if r == Done {
          DisarmBoundSafe(l1, bound[1..], a, owner);
          UntouchedChains(l, l1, DisarmBound(l1, bound[1..], a, owner).0, DisarmIrqs, a);
        }
      }
    }
  }

  /** The part of a pass's effect that later passes preserve as well. */
  ghost predicate Aside(l: Ledger, l': Ledger) {
    && l'.recs == l.recs && l'.serial == l.serial && l'.flights == l.flights
    && (forall c: nat :: Lowered(At(l.assigns, c), At(l'.assigns, c)))
  }

  lemma PassSafe(l: Ledger, pass: Pass, a: nat, owner: nat, faults: Faults, zeroOk: bool)
    requires Inv(l) && Prepared(l, pass, a)
    ensures var (l', r) := Sweep(l, pass, 0, a, owner, faults, zeroOk);
            && Inv(l') && r != Halt && Untouched(l, l', pass, a) && Aside(l, l') && Prepared(l', pass, a)
            && (r == Done ==> AllSettled(l', pass, a))
  {
    SweepSettles(l, pass, 0, a, owner, faults, zeroOk);
    UntouchedPrepared(l, Sweep(l, pass, 0, a, owner, faults, zeroOk).0, pass, a);
  }

  /** The outcome of the quiescing steps from a state in which `slot` is failed. */
  ghost predicate Quieted(l: Ledger, step: (Ledger, Result), slot: nat)
    requires Live(l.recs, slot)
  {
    var (l', r) := step;
    && Inv(l') && r != Halt && Live(l'.recs, slot)
    && l'.recs == l.recs[slot := Some(l.recs[slot].value.(state := l'.recs[slot].value.state))]
    && (if r == Done then l'.recs[slot].value.state == Quiesced else l'.recs == l.recs)
    && l'.serial == l.serial && l'.flights == l.flights
    && (forall c: nat :: Lowered(At(l.assigns, c), At(l'.assigns, c)))
  }

  ghost predicate Failing(l: Ledger, slot: nat, a: nat) {
    && Inv(l) && InState(l, a, Quarantined)
    && Live(l.recs, slot) && l.recs[slot].value.parent == a && l.recs[slot].value.state == FailedQuarantined
  }

  lemma QuietedChains(l: Ledger, l1: Ledger, step: (Ledger, Result), slot: nat)
    requires Live(l.recs, slot) && Aside(l, l1) && Quieted(l1, step, slot)
    ensures Quieted(l, step, slot)
  {
  }

  lemma AsideQuieted(l: Ledger, l1: Ledger, r: Result, slot: nat)
    requires Live(l.recs, slot) && Aside(l, l1) && Inv(l1) && r == Refused
    ensures Quieted(l, (l1, r), slot)
  {
    assert l.recs[slot := Some(l.recs[slot].value)] == l.recs;
  }

  lemma QuiesceDmaSafe(l: Ledger, slot: nat, a: nat, owner: nat, env: Surroundings)
    requires Failing(l, slot, a) && AllSettled(l, DisarmIrqs, a)
    ensures Quieted(l, QuiesceDma(l, slot, a, owner, env), slot)
  {
    hide Inv;
    var step := QuiesceDma(l, slot, a, owner, env);
    PassSafe(l, QuarantineSubs, a, owner, map[], false);
    var (l1, r1) := Sweep(l, QuarantineSubs, 0, a, owner, map[], false);
    if r1 == Done {
      PassSafe(l1, QuarantineBuffers, a, owner, map[], false);
      var (l2, r2) := Sweep(l1, QuarantineBuffers, 0, a, owner, map[], false);
      if r2 == Done && BarPins(l2, a) == 0 && env.unbindOk {
        QuiescedRecord(l, l2, slot, a);
      } else {
        AsideQuieted(l, l2, step.1, slot);
      }
    } else {
      AsideQuieted(l, l1, step.1, slot);
    }
  }

  lemma QuiesceCpuSafe(l: Ledger, slot: nat, a: nat, owner: nat, env: Surroundings)
    requires Failing(l, slot, a) && AllSettled(l, DisarmIrqs, a)
    ensures Quieted(l, QuiesceCpu(l, slot, a, owner, env), slot)
  {
    hide Inv;
    var step := QuiesceCpu(l, slot, a, owner, env);
    PassSafe(l, UnmapMappings, a, owner, env.mmioFaults, false);
    var (l1, r1) := Sweep(l, UnmapMappings, 0, a, owner, env.mmioFaults, false);
    if r1 == Done {
      PassSafe(l1, UnmapBuffers, a, owner, env.dmaFaults, false);
      var (l2, r2) := Sweep(l1, UnmapBuffers, 0, a, owner, env.dmaFaults, false);
      if r2 == Done {
        SettledIrqsStay(l, l2, a);
        QuiesceDmaSafe(l2, slot, a, owner, env);
        QuietedChains(l, l2, step, slot);
      } else {
        AsideQuieted(l, l2, step.1, slot);
      }
    } else {
      AsideQuieted(l, l1, step.1, slot);
    }
  }

  lemma SettledIrqsStay(l: Ledger, l': Ledger, a: nat)
    requires AllSettled(l, DisarmIrqs, a) && l'.irqs == l.irqs
    ensures AllSettled(l', DisarmIrqs, a)
  {
    forall n | 0 <= n < Capacity(l', DisarmIrqs) ensures Settled(l', DisarmIrqs, n, a) {
      assert Settled(l, DisarmIrqs, n, a);
    }
  }

  lemma QuiesceSafe(l: Ledger, slot: nat, a: nat, owner: nat, env: Surroundings)
    requires Failing(l, slot, a)
    ensures Quieted(l, Quiesce(l, slot, a, owner, env), slot)
  {
    hide Inv;
    var step := Quiesce(l, slot, a, owner, env);
    DisarmBoundSafe(l, env.bound, a, owner);
    var (l1, r1) := DisarmBound(l, env.bound, a, owner);
    if r1 == Done && env.routerOk {
      PassSafe(l1, DisarmIrqs, a, owner, map[], false);
      var (l2, r2) := Sweep(l1, DisarmIrqs, 0, a, owner, map[], false);
      if r2 == Done && env.decodingOff {
        QuiesceCpuSafe(l2, slot, a, owner, env);
        QuietedChains(l, l2, step, slot);
      } else {
        AsideQuieted(l, l2, step.1, slot);
      }
    } else {
      AsideQuieted(l, l1, step.1, slot);
    }
  }

  lemma QuiescedRecord(l2: Ledger, l: Ledger, slot: nat, a: nat)
    requires Inv(l2) && AllSettled(l2, DisarmIrqs, a) && l.irqs == l2.irqs
    requires Inv(l) && AllSettled(l, QuarantineSubs, a) && BarPins(l, a) == 0
    requires Live(l.recs, slot) && l.recs[slot].value.parent == a && l.recs[slot].value.state == FailedQuarantined
    ensures Inv(PutRecovery(l, slot, l.recs[slot].value.(state := Quiesced)))
    ensures RecoveryOk(l, l.recs[slot].value.(state := Quiesced))
  {
    forall q | 0 <= q < |l.irqs| ensures IrqPin(a)(l.irqs[q]) == 0 {
      assert Settled(l2, DisarmIrqs, q, a);
    }
    SumZero(l.irqs, IrqPin(a));
    forall k | 0 <= k < |l.subs| ensures ActiveSub(a)(l.subs[k]) == 0 {
      assert Settled(l, QuarantineSubs, k, a);
    }
    SumZero(l.subs, ActiveSub(a));
    assert RecoveryOk(l, l.recs[slot].value);
    RecoveryEditKeepsInv(l, PutRecovery(l, slot, l.recs[slot].value.(state := Quiesced)), slot);
  }

  // ---------------------------------------------------------- whole operations

  /** What a step may do to a recovery record it keeps. */
  predicate Kept(x: Recovery, x': Recovery) {
    && x' == x.(attempted := x'.attempted, completed := x'.completed, state := x'.state, resetSerial := x'.resetSerial)
    && (x.state == FailedQuarantined ==> x'.state == FailedQuarantined)
    && (x.completed ==> x'.completed)
  }

  /** A step that keeps every recovery record and moves every assignment by an
      ordinary transition. */
  ghost predicate Orderly(l: Ledger, l': Ledger) {
    && (forall r: nat :: Live(l.recs, r) ==> Live(l'.recs, r) && Kept(l.recs[r].value, l'.recs[r].value))
    && (forall c :: 0 <= c < ASSIGNMENTS ==> Transition(At(l.assigns, c), At(l'.assigns, c)))
  }

  ghost predicate Sound(l: Ledger, step: (Ledger, Result)) {
    Inv(l) ==> Inv(step.0) && step.1 != Halt && Orderly(l, step.0)
  }

  lemma TameOrderly(l: Ledger, l': Ledger)
    requires Tame(l, l')
    ensures Orderly(l, l')
  {
  }

  lemma BeginRecoverySound(l: Ledger, slot: nat, a: nat, p: Process, env: Surroundings)
    ensures Sound(l, BeginRecovery(l, slot, a, p, env))
  {
    hide Inv;
    if Inv(l) && InState(l, a, Assigned) && ForceQuarantine(l, a, p.id).Some? && slot < |l.recs| &&
      !Live(l.recs, slot) {
      var l1 := ForceQuarantine(l, a, p.id).value;
      var x := Recovery(a, l.assigns[a].value.rid, p.id, env.busMaster, l.assigns[a].value.exposed, false, false,
                        FailedQuarantined, l.serial, 0);
      var l2 := PutRecovery(l1, slot, x).(serial := l1.serial + 1);
      OpenRecord(l, slot, a, p.id, x);
      QuiesceSafe(l2, slot, a, p.id, env);
      BeginOrderly(l, l2, Quiesce(l2, slot, a, p.id, env), slot, a, x);
    }
  }

  lemma OpenRecord(l: Ledger, slot: nat, a: nat, owner: nat, x: Recovery)
    requires Inv(l) && InState(l, a, Assigned) && ForceQuarantine(l, a, owner).Some? && slot < |l.recs| &&
      l.recs[slot].None?
    requires x.parent == a && x.prid == l.assigns[a].value.rid && x.owner == owner &&
      x.exposed == l.assigns[a].value.exposed
    requires !x.completed && x.state == FailedQuarantined
    ensures var l1 := ForceQuarantine(l, a, owner).value;
            Failing(PutRecovery(l1, slot, x).(serial := l1.serial + 1), slot, a)
  {
    QuarantineSafe(l, a, owner);
    NoRecovery(l, a);
    var l1 := ForceQuarantine(l, a, owner).value;
    RecoveryEditKeepsInv(l1, PutRecovery(l1, slot, x).(serial := l1.serial + 1), slot);
  }

  lemma BeginOrderly(l: Ledger, l2: Ledger, step: (Ledger, Result), slot: nat, a: nat, x: Recovery)
    requires Live(l.assigns, a) && l.assigns[a].value.state == Assigned && slot < |l.recs| && l.recs[slot].None?
    requires l2.assigns == l.assigns[a := Some(l.assigns[a].value.(state := Quarantined))]
    requires l2.recs == l.recs[slot := Some(x)] && Quieted(l2, step, slot)
    ensures Orderly(l, step.0)
  {
    hide Inv;
    forall c | 0 <= c < ASSIGNMENTS ensures Transition(At(l.assigns, c), At(step.0.assigns, c)) {
      assert Lowered(At(l2.assigns, c), At(step.0.assigns, c));
    }
  }

  /** Completion, whatever the zeroing reports; `x` is the record it runs for. */
  lemma CompleteDmaSound(l: Ledger, r: nat, zeroOk: bool)
    requires Inv(l) && Live(l.recs, r) && l.recs[r].value.state == Quiesced
    requires ResetRequired(l.recs[r].value) ==> l.recs[r].value.completed
    ensures var step := CompleteDma(l, r, zeroOk);
            && Sound(l, step)
            && Live(step.0.recs, r) && step.0.flights == l.flights
            && (step.1 == Done ==> step.0.recs == l.recs[r := Some(l.recs[r].value.(state := DmaSafe))])
            && (step.1 != Done ==> step.0.recs == l.recs)
  {
    hide Inv, Sweep, Untouched, AllSettled;
    var x := l.recs[r].value;
    var a := x.parent;
    RecoveryAlwaysValid(l, r);
    ResetPasses(l, a, x.owner, zeroOk);
    var (l1, r1) := Sweep(l, ResetSubs, 0, a, x.owner, map[], zeroOk);
    if r1 == Done {
      var (l2, r2) := Sweep(l1, ResetBuffers, 0, a, x.owner, map[], zeroOk);
      if r2 == Done && CompleteDma(l, r, zeroOk).1 == Done {
        DmaSafeRecord(l2, r);
      }
    }
  }

  lemma ResetPasses(l: Ledger, a: nat, owner: nat, zeroOk: bool)
    requires Inv(l) && InState(l, a, Quarantined)
    ensures var (l1, r1) := Sweep(l, ResetSubs, 0, a, owner, map[], zeroOk);
            && Inv(l1) && r1 != Halt && Aside(l, l1) && Orderly(l, l1)
            && (r1 == Done ==>
                  var (l2, r2) := Sweep(l1, ResetBuffers, 0, a, owner, map[], zeroOk);
                  Inv(l2) && r2 != Halt && Aside(l, l2) && Orderly(l, l2))
  {
    hide Inv;
    PassSafe(l, ResetSubs, a, owner, map[], zeroOk);
    var (l1, r1) := Sweep(l, ResetSubs, 0, a, owner, map[], zeroOk);
    AsideOrderly(l, l1);
    if r1 == Done {
      PassSafe(l1, ResetBuffers, a, owner, map[], zeroOk);
      var l2 := Sweep(l1, ResetBuffers, 0, a, owner, map[], zeroOk).0;
      AsideChains(l, l1, l2);
      AsideOrderly(l, l2);
    }
  }

  lemma DmaSafeRecord(l: Ledger, r: nat)
    requires Inv(l) && Live(l.recs, r) && l.recs[r].value.state != FailedQuarantined
    requires ResetRequired(l.recs[r].value) ==> l.recs[r].value.completed
    requires At(l.assigns, l.recs[r].value.parent).pins == 0 && !At(l.assigns, l.recs[r].value.parent).gate
    ensures Inv(PutRecovery(l, r, l.recs[r].value.(state := DmaSafe)))
  {
    assert RecoveryOk(l, l.recs[r].value);
    RecoveryEditKeepsInv(l, PutRecovery(l, r, l.recs[r].value.(state := DmaSafe)), r);
  }

  lemma AsideChains(l: Ledger, l1: Ledger, l2: Ledger)
    requires Aside(l, l1) && Aside(l1, l2)
    ensures Aside(l, l2)
  {
  }

  lemma AsideOrderly(l: Ledger, l': Ledger)
    requires Aside(l, l')
    ensures Orderly(l, l')
  {
    forall c | 0 <= c < ASSIGNMENTS ensures Transition(At(l.assigns, c), At(l'.assigns, c)) {
      assert Lowered(At(l.assigns, c), At(l'.assigns, c));
    }
  }

  lemma CompleteWithoutResetSound(l: Ledger, r: nat, commandUnchanged: bool, zeroOk: bool)
    ensures Sound(l, CompleteWithoutReset(l, r, commandUnchanged, zeroOk))
  {
    if Inv(l) && Live(l.recs, r) && l.recs[r].value.state == Quiesced && !ResetRequired(l.recs[r].value) {
      CompleteDmaSound(l, r, zeroOk);
    }
  }

  lemma StartResetSound(l: Ledger, r: nat, supported: bool)
    ensures Sound(l, StartReset(l, r, supported))
  {
    if Inv(l) && Live(l.recs, r) {
      RecoveryEditKeepsInv(l, StartReset(l, r, supported).0, r);
    }
  }

  lemma FailRecord(l: Ledger, r: nat, attempted: bool)
    requires Inv(l) && Live(l.recs, r) && (l.recs[r].value.attempted ==> attempted)
    ensures Inv(PutRecovery(l, r, l.recs[r].value.(attempted := attempted, state := FailedQuarantined)))
  {
    assert RecoveryOk(l, l.recs[r].value);
    RecoveryEditKeepsInv(l, PutRecovery(l, r, l.recs[r].value.(attempted := attempted, state := FailedQuarantined)), r);
  }

  lemma CreditReset(l: Ledger, r: nat, serial: nat)
    requires Inv(l) && Live(l.recs, r) && l.recs[r].value.state == Quiesced
    ensures Inv(PutRecovery(l, r, l.recs[r].value.(attempted := true, completed := true, resetSerial := serial)))
  {
    var x := l.recs[r].value;
    assert RecoveryOk(l, x);
    RecoveryEditKeepsInv(l, PutRecovery(l, r, x.(attempted := true, completed := true, resetSerial := serial)), r);
  }

  lemma FlightsSafe(l: Ledger, flights: seq<Flight>)
    requires Inv(l)
    ensures Inv(l.(flights := flights))
  {
    RecoveryEditKeepsInv(l, l.(flights := flights), 0);
  }

  lemma CompleteAfterResetSound(l: Ledger, r: nat, serial: nat, zeroOk: bool)
    requires Inv(l) && Live(l.recs, r) && l.recs[r].value.state == Quiesced
    ensures Sound(l, CompleteAfterReset(l, r, serial, zeroOk))
  {
    hide Inv, CompleteDma;
    CreditReset(l, r, serial);
    var l1 := PutRecovery(l, r, l.recs[r].value.(attempted := true, completed := true, resetSerial := serial));
    CompleteDmaSound(l1, r, zeroOk);
    FailRecord(CompleteDma(l1, r, zeroOk).0, r, true);
  }

  lemma FinishResetSound(l: Ledger, f: nat, outcome: ResetOutcome, zeroOk: bool)
    ensures Sound(l, FinishReset(l, f, outcome, zeroOk))
  {
    hide Inv, CompleteAfterReset;
    if Inv(l) && f < |l.flights| {
      var flight := l.flights[f];
      var l1 := l.(flights := l.flights[..f] + l.flights[f + 1..]);
      FlightsSafe(l, l1.flights);
      if Live(l1.recs, flight.slot) && l1.recs[flight.slot].value.state == Quiesced {
        FailRecord(l1, flight.slot, true);
        CompleteAfterResetSound(l1, flight.slot, flight.serial, zeroOk);
      }
    }
  }

  /** The only step that removes a recovery record and frees a quarantined
      assignment. */
  lemma CompleteAssignmentSound(l: Ledger, r: nat)
    requires Inv(l)
    ensures var (l', res) := CompleteAssignment(l, r);
            && Inv(l') && res != Halt
            && (res == Refused ==> l' == l)
            && (res == Done ==>
                  && Live(l.recs, r) && l.recs[r].value.state == DmaSafe
                  && (ResetRequired(l.recs[r].value) ==> l.recs[r].value.completed)
                  && (At(l.assigns, l.recs[r].value.parent).exposed ==> l.recs[r].value.exposed)
                  && l'.recs == l.recs[r := None]
                  && (forall c :: 0 <= c < ASSIGNMENTS && c != l.recs[r].value.parent ==>
                    At(l'.assigns, c) == At(l.assigns, c)))
  {
    hide BarsOk, BuffersOk, FramesOk, IrqOk;
    if CompleteAssignment(l, r).1 == Done {
      var x := l.recs[r].value;
      var a := x.parent;
      assert RecoveryOk(l, x);
      var l1 := l.(recs := l.recs[r := None]);
      RecoveryEditKeepsInv(l, l1, r);
      assert Balanced(l, a);
      SumAtLeast(l.recs, r, RecoveryOf(a));
      SumUpdate(l.recs, r, None, RecoveryOf(a));
      AssignmentEditKeepsInv(l1, CompleteAssignment(l, r).0, a);
    }
  }
}
