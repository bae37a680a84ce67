/**
 When the steps of a recovery succeed and what they record, in terms of what the
 environment answers and of the buffers and mappings that are there.
 */
module PciRecoveryExact {
  import opened Slots
  import IrqEvents
  import opened PciLedger
  import opened PciRecovery
  import opened PciInvariant
  import opened PciEdits
  import opened PciOperations
  import opened PciEffects
  import opened PciSweeps
  import opened PciDrain
  import opened PciRecoverySafety
  import opened PciRuns

  // ----------------------------------------------------------- when a pass succeeds

  /** Nothing at slot `n` stops the pass: every page of the device's mappings can be
      removed, buffers of every device are intact, and zeroing works where it is needed. */
  predicate Passable(l: Ledger, pass: Pass, n: nat, a: nat, faults: Faults, zeroOk: bool)
    requires n < Capacity(l, pass)
  {
    match pass
    case DisarmIrqs => true
    case UnmapMappings =>
      l.maps[n].Some? && Live(l.bars, l.maps[n].value.bar) && l.bars[l.maps[n].value.bar].value.parent == a ==>
        l.maps[n].value.mapped <= Removals(faults, n, l.maps[n].value.mapped)
    case UnmapBuffers =>
      l.buffers[n].Some? ==>
        && Intact(l.buffers[n].value)
        && (l.buffers[n].value.parent == a ==>
              l.buffers[n].value.mapped <= Removals(faults, n, l.buffers[n].value.mapped))
    case QuarantineSubs => true
    case QuarantineBuffers => l.buffers[n].Some? ==> Intact(l.buffers[n].value)
    case ResetSubs => l.subs[n].Some? && l.subs[n].value.parent == a ==> zeroOk
    case ResetBuffers => l.buffers[n].Some? ==> Intact(l.buffers[n].value)
  }

  /** A pass runs on behalf of the owner, and resetting comes after quarantining. */
  ghost predicate Due(l: Ledger, pass: Pass, a: nat, owner: nat) {
    && Inv(l) && Prepared(l, pass, a) && l.assigns[a].value.owner == owner
    && (pass == ResetSubs ==> AllSettled(l, QuarantineSubs, a))
  }

  /** Whoever is registered under the assignment has its owner. */
  lemma SameOwner(l: Ledger, a: nat)
    requires Inv(l)
    ensures forall m: nat ::
      Live(l.maps, m) && Live(l.bars, l.maps[m].value.bar) && l.bars[l.maps[m].value.bar].value.parent == a ==>
      l.maps[m].value.owner == At(l.assigns, a).owner
    ensures forall j: nat :: Live(l.buffers, j) && l.buffers[j].value.parent == a ==>
      l.buffers[j].value.owner == At(l.assigns, a).owner
    ensures forall k: nat :: Live(l.subs, k) && l.subs[k].value.parent == a ==>
      l.subs[k].value.owner == At(l.assigns, a).owner
    ensures forall q: nat :: Live(l.irqs, q) && l.irqs[q].value.parent == a ==>
      l.irqs[q].value.owner == At(l.assigns, a).owner
  {
    hide Balanced, FramesOk, RecoveryOk;
    forall m: nat | Live(l.maps, m) && Live(l.bars, l.maps[m].value.bar) &&
        l.bars[l.maps[m].value.bar].value.parent == a
      ensures l.maps[m].value.owner == At(l.assigns, a).owner
    {
      assert MappingOk(l.bars, l.maps[m].value) && BarOk(l.assigns, l.bars[l.maps[m].value.bar].value);
    }
    forall j: nat | Live(l.buffers, j) && l.buffers[j].value.parent == a
      ensures l.buffers[j].value.owner == At(l.assigns, a).owner
    {
      assert BufferOk(l.assigns, l.buffers[j].value);
    }
    forall k: nat | Live(l.subs, k) && l.subs[k].value.parent == a
      ensures l.subs[k].value.owner == At(l.assigns, a).owner
    {
      assert SubmissionOk(l.assigns, l.buffers, l.subs[k].value);
    }
    forall q: nat | Live(l.irqs, q) && l.irqs[q].value.parent == a
      ensures l.irqs[q].value.owner == At(l.assigns, a).owner
    {
      assert IrqOk(l.assigns, l.irqs[q].value);
    }
  }

  /** One turn goes on exactly when its slot is passable. */
  lemma VisitIff(l: Ledger, pass: Pass, i: nat, a: nat, owner: nat, faults: Faults, zeroOk: bool)
    requires Due(l, pass, a, owner) && i < Capacity(l, pass)
    ensures Visit(l, pass, i, a, owner, faults, zeroOk).1 == Done <==> Passable(l, pass, i, a, faults, zeroOk)
  {
    hide Inv, ForceDisarmIrq, UnmapMmio, ForceUnmapBuffer, QuarantineSubmission, ResetSubmission, QuarantineBuffer,
      ResetBuffer;
    SameOwner(l, a);
    match pass
    case DisarmIrqs =>
      if Live(l.irqs, i) {
        IrqAlwaysValid(l, i);
        DisarmExact(l, i, owner);
      }
    case UnmapMappings =>
      if Live(l.maps, i) {
        MappingAlwaysValid(l, i);
        UnmapMmioExact(l, i, Removals(faults, i, l.maps[i].value.mapped));
      }
    case UnmapBuffers =>
      if Live(l.buffers, i) {
        BufferValidIffIntact(l, i);
        UnmapBufferExact(l, i, owner, Removals(faults, i, l.buffers[i].value.mapped));
      }
    case QuarantineSubs =>
      if Live(l.subs, i) {
        SubmissionAlwaysValid(l, i);
        QuarantineSubmissionExact(l, i);
      }
    case ResetSubs =>
      if Live(l.subs, i) {
        SubmissionAlwaysValid(l, i);
        ResetSubmissionExact(l, i, zeroOk);
        assert Settled(l, QuarantineSubs, i, a);
      }
    case QuarantineBuffers => BufferVisitIff(l, pass, i, a, owner, faults, zeroOk);
    case ResetBuffers => BufferVisitIff(l, pass, i, a, owner, faults, zeroOk);
  }

  lemma BufferVisitIff(l: Ledger, pass: Pass, i: nat, a: nat, owner: nat, faults: Faults, zeroOk: bool)
    requires Due(l, pass, a, owner) && (pass == QuarantineBuffers || pass == ResetBuffers) && i < Capacity(l, pass)
    ensures Visit(l, pass, i, a, owner, faults, zeroOk).1 == Done <==> Passable(l, pass, i, a, faults, zeroOk)
  {
    hide Inv, QuarantineBuffer, ResetBuffer;
    SameOwner(l, a);
    BufferPassesAreIdle(l, pass, i, a, owner, faults, zeroOk);
    if Live(l.buffers, i) {
      BufferValidIffIntact(l, i);
    }
  }

  /** What a turn at slot `i` means for the other slots: nothing. */
  lemma VisitElsewhere(l: Ledger, pass: Pass, i: nat, a: nat, owner: nat, faults: Faults, zeroOk: bool, n: nat)
    requires Due(l, pass, a, owner) && i < Capacity(l, pass) && n < Capacity(l, pass) && n != i
    requires Visit(l, pass, i, a, owner, faults, zeroOk).1 == Done
    ensures var l' := Visit(l, pass, i, a, owner, faults, zeroOk).0;
            && n < Capacity(l', pass)
            && (Passable(l', pass, n, a, faults, zeroOk) <==> Passable(l, pass, n, a, faults, zeroOk))
  {
    hide Inv, ForceDisarmIrq, UnmapMmio, ForceUnmapBuffer, QuarantineSubmission, ResetSubmission, QuarantineBuffer,
      ResetBuffer;
    match pass
    case DisarmIrqs => if Live(l.irqs, i) { DisarmEffect(l, i, a, owner); }
    case UnmapMappings =>
      if Live(l.maps, i) { UnmapMappingEffect(l, i, a, Removals(faults, i, l.maps[i].value.mapped)); }
    case UnmapBuffers =>
      if Live(l.buffers, i) { UnmapBufferEffect(l, i, a, owner, Removals(faults, i, l.buffers[i].value.mapped)); }
    case QuarantineSubs => if Live(l.subs, i) && l.subs[i].value.parent == a { QuarantineEffect(l, i, a); }
    case ResetSubs => if Live(l.subs, i) && l.subs[i].value.parent == a { ResetEffect(l, i, a, zeroOk); }
    case QuarantineBuffers => BufferPassesAreIdle(l, pass, i, a, owner, faults, zeroOk);
    case ResetBuffers => BufferPassesAreIdle(l, pass, i, a, owner, faults, zeroOk);
  }

  lemma VisitKeepsDue(l: Ledger, pass: Pass, i: nat, a: nat, owner: nat, faults: Faults, zeroOk: bool)
    requires Due(l, pass, a, owner) && i < Capacity(l, pass)
    requires Visit(l, pass, i, a, owner, faults, zeroOk).1 == Done
    ensures Due(Visit(l, pass, i, a, owner, faults, zeroOk).0, pass, a, owner)
  {
    hide Inv, Visit, Untouched;
    VisitSafe(l, pass, i, a, owner, faults, zeroOk);
    VisitUntouched(l, pass, i, a, owner, faults, zeroOk);
    var l' := Visit(l, pass, i, a, owner, faults, zeroOk).0;
    UntouchedPrepared(l, l', pass, a);
    OwnerStays(l, l', pass, a);
    if pass == ResetSubs {
      ResetKeepsQuarantined(l, i, a, owner, faults, zeroOk);
    }
  }

  lemma OwnerStays(l: Ledger, l': Ledger, pass: Pass, a: nat)
    requires Untouched(l, l', pass, a) && InState(l, a, Quarantined)
    ensures Live(l'.assigns, a) && l'.assigns[a].value.owner == l.assigns[a].value.owner
  {
    assert Lowered(At(l.assigns, a), At(l'.assigns, a));
  }

  lemma ResetKeepsQuarantined(l: Ledger, i: nat, a: nat, owner: nat, faults: Faults, zeroOk: bool)
    requires Due(l, ResetSubs, a, owner) && i < |l.subs|
    ensures AllSettled(Visit(l, ResetSubs, i, a, owner, faults, zeroOk).0, QuarantineSubs, a)
  {
    hide Inv, ResetSubmission;
    if Live(l.subs, i) && l.subs[i].value.parent == a {
      ResetEffect(l, i, a, zeroOk);
      ResetSubmissionExact(l, i, zeroOk);
    }
    var l' := Visit(l, ResetSubs, i, a, owner, faults, zeroOk).0;
    forall n | 0 <= n < |l'.subs| ensures Settled(l', QuarantineSubs, n, a) {
      assert Settled(l, QuarantineSubs, n, a);
    }
  }

  /** A whole pass succeeds exactly when every slot from there on is passable. */
  lemma {:induction false} SweepIff(l: Ledger, pass: Pass, i: nat, a: nat, owner: nat, faults: Faults, zeroOk: bool)
    requires Due(l, pass, a, owner) && i <= Capacity(l, pass)
    ensures Sweep(l, pass, i, a, owner, faults, zeroOk).1 == Done <==>
      forall n :: i <= n < Capacity(l, pass) ==> Passable(l, pass, n, a, faults, zeroOk)
    decreases Capacity(l, pass) - i
  {
    hide Due, Visit, Passable;
    if i < Capacity(l, pass) {
      VisitIff(l, pass, i, a, owner, faults, zeroOk);
      var (l1, r) := Visit(l, pass, i, a, owner, faults, zeroOk);
      if r == Done {
        SameCapacity(l, pass, i, a, owner, faults, zeroOk);
        VisitKeepsDue(l, pass, i, a, owner, faults, zeroOk);
        SweepIff(l1, pass, i + 1, a, owner, faults, zeroOk);
        forall n | i < n < Capacity(l, pass)
          ensures Passable(l1, pass, n, a, faults, zeroOk) <==> Passable(l, pass, n, a, faults, zeroOk)
        {
          VisitElsewhere(l, pass, i, a, owner, faults, zeroOk, n);
        }
      }
    }
  }

  lemma SameCapacity(l: Ledger, pass: Pass, i: nat, a: nat, owner: nat, faults: Faults, zeroOk: bool)
    requires Due(l, pass, a, owner) && i < Capacity(l, pass)
    ensures Capacity(Visit(l, pass, i, a, owner, faults, zeroOk).0, pass) == Capacity(l, pass)
  {
    hide Inv, Visit;
    VisitUntouched(l, pass, i, a, owner, faults, zeroOk);
  }

  // ------------------------------------------------------ when a recovery quiesces

  ghost predicate AllPassable(l: Ledger, pass: Pass, a: nat, faults: Faults, zeroOk: bool) {
    forall n :: 0 <= n < Capacity(l, pass) ==> Passable(l, pass, n, a, faults, zeroOk)
  }

  /** The interrupts of a quarantined device can always be disarmed. */
  lemma {:induction false} DisarmBoundDone(l: Ledger, bound: seq<nat>, a: nat, owner: nat)
    requires Due(l, DisarmIrqs, a, owner)
    ensures DisarmBound(l, bound, a, owner).1 == Done && Due(DisarmBound(l, bound, a, owner).0, DisarmIrqs, a, owner)
    ensures Untouched(l, DisarmBound(l, bound, a, owner).0, DisarmIrqs, a)
    decreases |bound|
  {
    hide Inv, ForceDisarmIrq, Untouched;
    if bound == [] {
      UntouchedSelf(l, a);
    } else if !Live(l.irqs, bound[0]) || l.irqs[bound[0]].value.parent != a {
      DisarmBoundDone(l, bound[1..], a, owner);
    } else {
      SameOwner(l, a);
      DisarmExact(l, bound[0], owner);
      ForceDisarmIrqSafe(l, bound[0], owner);
      DisarmEffect(l, bound[0], a, owner);
      var l1 := ForceDisarmIrq(l, bound[0], owner).0;
      UntouchedPrepared(l, l1, DisarmIrqs, a);
      OwnerStays(l, l1, DisarmIrqs, a);
      DisarmBoundDone(l1, bound[1..], a, owner);
      UntouchedChains(l, l1, DisarmBound(l1, bound[1..], a, owner).0, DisarmIrqs, a);
    }
  }

  lemma UntouchedSelf(l: Ledger, a: nat)
    ensures Untouched(l, l, DisarmIrqs, a)
  {
  }

  /** Passes do not change what later passes depend on. */
  lemma PassableStays(l: Ledger, l': Ledger, done: Pass, a: nat, mmioFaults: Faults, dmaFaults: Faults)
    requires Untouched(l, l', done, a)
    ensures done == DisarmIrqs ==>
      (AllPassable(l', UnmapMappings, a, mmioFaults, false) <==> AllPassable(l, UnmapMappings, a, mmioFaults, false))
    ensures done == DisarmIrqs || done == UnmapMappings ==>
      (AllPassable(l', UnmapBuffers, a, dmaFaults, false) <==> AllPassable(l, UnmapBuffers, a, dmaFaults, false))
    ensures done != UnmapBuffers ==> (AllIntact(l') <==> AllIntact(l))
  {
    hide Lowered;
    if done == DisarmIrqs || done == UnmapMappings {
      forall n | 0 <= n < |l.buffers|
        ensures Passable(l', UnmapBuffers, n, a, dmaFaults, false) <==>
          Passable(l, UnmapBuffers, n, a, dmaFaults, false)
      {
        assert Live(l.buffers, n) <==> Live(l'.buffers, n);
      }
    }
    if done == DisarmIrqs {
      forall n | 0 <= n < |l.maps|
        ensures Passable(l', UnmapMappings, n, a, mmioFaults, false) <==>
          Passable(l, UnmapMappings, n, a, mmioFaults, false)
      {
      }
    }
  }

  /** The buffer unmapping pass leaves every buffer intact when it succeeds. */
  lemma {:induction false} UnmapLeavesIntact(l: Ledger, i: nat, a: nat, owner: nat, faults: Faults)
    requires Due(l, UnmapBuffers, a, owner) && i <= |l.buffers|
    requires forall n :: 0 <= n < i && l.buffers[n].Some? ==> Intact(l.buffers[n].value)
    requires Sweep(l, UnmapBuffers, i, a, owner, faults, false).1 == Done
    ensures AllIntact(Sweep(l, UnmapBuffers, i, a, owner, faults, false).0)
    decreases |l.buffers| - i
  {
    hide Due, ForceUnmapBuffer, Inv;
    if i < |l.buffers| {
      VisitIff(l, UnmapBuffers, i, a, owner, faults, false);
      SameCapacity(l, UnmapBuffers, i, a, owner, faults, false);
      VisitKeepsDue(l, UnmapBuffers, i, a, owner, faults, false);
      var l1 := Visit(l, UnmapBuffers, i, a, owner, faults, false).0;
      if Live(l.buffers, i) {
        UnmapBufferEffect(l, i, a, owner, Removals(faults, i, l.buffers[i].value.mapped));
      }
      UnmapLeavesIntact(l1, i + 1, a, owner, faults);
    }
  }

  /** Sweeps from the start keep what later sweeps need. */
  lemma SweepDue(l: Ledger, pass: Pass, next: Pass, a: nat, owner: nat, faults: Faults)
    requires Due(l, pass, a, owner) && pass != ResetSubs && pass != ResetBuffers
    requires Sweep(l, pass, 0, a, owner, faults, false).1 == Done
    requires next == DisarmIrqs || next == UnmapMappings || next == UnmapBuffers || next == QuarantineSubs ||
      (next == QuarantineBuffers && pass == QuarantineSubs)
    ensures Due(Sweep(l, pass, 0, a, owner, faults, false).0, next, a, owner)
    ensures Untouched(l, Sweep(l, pass, 0, a, owner, faults, false).0, pass, a)
  {
    hide Inv, Sweep, Untouched;
    PassSafe(l, pass, a, owner, faults, false);
    OwnerStays(l, Sweep(l, pass, 0, a, owner, faults, false).0, pass, a);
  }

  /** The last part: it fails only on a torn buffer or when the router keeps a binding. */
  lemma QuiesceDmaIff(l: Ledger, slot: nat, a: nat, owner: nat, env: Surroundings)
    requires Due(l, QuarantineSubs, a, owner) && Live(l.recs, slot) && AllSettled(l, UnmapMappings, a)
    ensures QuiesceDma(l, slot, a, owner, env).1 == Done <==> AllIntact(l) && env.unbindOk
  {
    hide Inv, Sweep, Untouched, AllIntact, AllSettled, Passable;
    SweepIff(l, QuarantineSubs, 0, a, owner, map[], false);
    AlwaysPassable(l, QuarantineSubs, a, map[]);
    var l1 := Sweep(l, QuarantineSubs, 0, a, owner, map[], false).0;
    SweepDue(l, QuarantineSubs, QuarantineBuffers, a, owner, map[]);
    PassableStays(l, l1, QuarantineSubs, a, map[], map[]);
    SweepIff(l1, QuarantineBuffers, 0, a, owner, map[], false);
    IntactPassable(l1, QuarantineBuffers, a, map[], false);
    var (l2, r2) := Sweep(l1, QuarantineBuffers, 0, a, owner, map[], false);
    if r2 == Done {
      PassSafe(l1, QuarantineBuffers, a, owner, map[], false);
      NoPinsLeft(l, l1, l2, a);
    }
  }

  lemma NoPinsLeft(l: Ledger, l1: Ledger, l2: Ledger, a: nat)
    requires Inv(l) && AllSettled(l, UnmapMappings, a)
    requires Untouched(l, l1, QuarantineSubs, a) && Untouched(l1, l2, QuarantineBuffers, a)
    ensures BarPins(l2, a) == 0 && l2.recs == l.recs
  {
    hide BuffersOk, FramesOk, RecoveryOk, IrqOk, Balanced, Lowered;
    assert l2.bars == l.bars;
    forall i | 0 <= i < |l.bars| ensures BarPin(a)(l.bars[i]) == 0 {
      if Live(l.bars, i) && l.bars[i].value.parent == a {
        forall m | 0 <= m < |l.maps| ensures MappingOn(i)(l.maps[m]) == 0 {
          assert Settled(l, UnmapMappings, m, a);
        }
        SumZero(l.maps, MappingOn(i));
      }
    }
    SumZero(l.bars, BarPin(a));
  }

  lemma AlwaysPassable(l: Ledger, pass: Pass, a: nat, faults: Faults)
    requires pass == DisarmIrqs || pass == QuarantineSubs
    ensures forall n :: 0 <= n < Capacity(l, pass) ==> Passable(l, pass, n, a, faults, false)
  {
  }

  lemma IntactPassable(l: Ledger, pass: Pass, a: nat, faults: Faults, zeroOk: bool)
    requires pass == QuarantineBuffers || pass == ResetBuffers
    ensures AllPassable(l, pass, a, faults, zeroOk) <==> AllIntact(l)
  {
    if AllPassable(l, pass, a, faults, zeroOk) {
      forall j: nat | Live(l.buffers, j) ensures Intact(l.buffers[j].value) {
        assert Passable(l, pass, j, a, faults, zeroOk);
      }
    }
  }

  lemma QuiesceCpuIff(l: Ledger, slot: nat, a: nat, owner: nat, env: Surroundings)
    requires Due(l, UnmapMappings, a, owner) && Live(l.recs, slot)
    ensures QuiesceCpu(l, slot, a, owner, env).1 == Done <==>
      && AllPassable(l, UnmapMappings, a, env.mmioFaults, false) &&
        AllPassable(l, UnmapBuffers, a, env.dmaFaults, false)
      && env.unbindOk
  {
    hide Inv, Sweep, Untouched, AllIntact, AllSettled, Passable, QuiesceDma;
    SweepIff(l, UnmapMappings, 0, a, owner, env.mmioFaults, false);
    var (l1, r1) := Sweep(l, UnmapMappings, 0, a, owner, env.mmioFaults, false);
    if r1 == Done {
      SweepDue(l, UnmapMappings, UnmapBuffers, a, owner, env.mmioFaults);
      PassSafe(l, UnmapMappings, a, owner, env.mmioFaults, false);
      PassableStays(l, l1, UnmapMappings, a, env.mmioFaults, env.dmaFaults);
      SweepIff(l1, UnmapBuffers, 0, a, owner, env.dmaFaults, false);
      var (l2, r2) := Sweep(l1, UnmapBuffers, 0, a, owner, env.dmaFaults, false);
      if r2 == Done {
        SweepDue(l1, UnmapBuffers, QuarantineSubs, a, owner, env.dmaFaults);
        UnmapLeavesIntact(l1, 0, a, owner, env.dmaFaults);
        SettledStays(l, l1, l2, a);
        QuiesceDmaIff(l2, slot, a, owner, env);
      }
    }
  }

  lemma SettledStays(l: Ledger, l1: Ledger, l2: Ledger, a: nat)
    requires AllSettled(l1, UnmapMappings, a) && Untouched(l1, l2, UnmapBuffers, a)
    requires Untouched(l, l1, UnmapMappings, a)
    ensures AllSettled(l2, UnmapMappings, a) && l2.recs == l.recs
  {
    forall n | 0 <= n < |l2.maps| ensures Settled(l2, UnmapMappings, n, a) {
      assert Settled(l1, UnmapMappings, n, a);
    }
  }

  /** Quiescing succeeds exactly when the router and the command register obey, every
      page of the device's mappings can be removed, and every registered buffer, of
      whatever device, is intact. Interrupts and transfers never stop it. */
  lemma QuiesceIff(l: Ledger, slot: nat, a: nat, owner: nat, env: Surroundings)
    requires Due(l, DisarmIrqs, a, owner) && Live(l.recs, slot)
    ensures Quiesce(l, slot, a, owner, env).1 == Done <==>
      && env.routerOk && env.decodingOff && env.unbindOk
      && AllPassable(l, UnmapMappings, a, env.mmioFaults, false) &&
        AllPassable(l, UnmapBuffers, a, env.dmaFaults, false)
  {
    hide Inv, Sweep, Untouched, AllPassable, DisarmBound, QuiesceCpu, Passable;
    DisarmBoundDone(l, env.bound, a, owner);
    var l1 := DisarmBound(l, env.bound, a, owner).0;
    PassableStays(l, l1, DisarmIrqs, a, env.mmioFaults, env.dmaFaults);
    SweepIff(l1, DisarmIrqs, 0, a, owner, map[], false);
    AlwaysPassable(l1, DisarmIrqs, a, map[]);
    var l2 := Sweep(l1, DisarmIrqs, 0, a, owner, map[], false).0;
    SweepDue(l1, DisarmIrqs, UnmapMappings, a, owner, map[]);
    PassableStays(l1, l2, DisarmIrqs, a, env.mmioFaults, env.dmaFaults);
    RecordStays(l, l1, l2, a);
    QuiesceCpuIff(l2, slot, a, owner, env);
  }

  lemma RecordStays(l: Ledger, l1: Ledger, l2: Ledger, a: nat)
    requires Untouched(l, l1, DisarmIrqs, a) && Untouched(l1, l2, DisarmIrqs, a)
    ensures l2.recs == l.recs
  {
  }

  // ------------------------------------------------------------------- beginning

  /** What has to be true before a recovery even starts. */
  predicate CanBegin(l: Ledger, slot: nat, a: nat, p: Process, env: Surroundings) {
    && p.ready && !p.kernel && p.id != 0
    && env.quiet && env.enumerated && env.present
    && slot < |l.recs| && !Live(l.recs, slot)
    && Live(l.assigns, a) && l.assigns[a].value.state == Assigned && l.assigns[a].value.owner == p.id
  }

  /** Opening the record: quarantine, then the record with what was found. */
  function Opened(l: Ledger, slot: nat, a: nat, p: Process, env: Surroundings): Ledger
    requires CanBegin(l, slot, a, p, env)
  {
    var x := Recovery(a, l.assigns[a].value.rid, p.id, env.busMaster, l.assigns[a].value.exposed, false, false,
                      FailedQuarantined, l.serial, 0);
    Put(l, a, l.assigns[a].value.(state := Quarantined)).(recs := l.recs[slot := Some(x)], serial := l.serial + 1)
  }

  lemma BeginOpens(l: Ledger, slot: nat, a: nat, p: Process, env: Surroundings)
    requires Inv(l)
    ensures !CanBegin(l, slot, a, p, env) ==> BeginRecovery(l, slot, a, p, env) == (l, Refused)
    ensures CanBegin(l, slot, a, p, env) ==>
      var l2 := Opened(l, slot, a, p, env);
      Failing(l2, slot, a) && BeginRecovery(l, slot, a, p, env) == Quiesce(l2, slot, a, p.id, env)
  {
    hide BarsOk, BuffersOk, FramesOk, IrqOk, Quiesce;
    if CanBegin(l, slot, a, p, env) {
      NoRecovery(l, a);
      forall r | 0 <= r < |l.recs| ensures RecoveryOf(a)(l.recs[r]) == 0 {
        SumAtLeast(l.recs, r, RecoveryOf(a));
      }
      assert !RecoveryFor(l.recs, a);
      var x := Opened(l, slot, a, p, env).recs[slot].value;
      OpenRecord(l, slot, a, p.id, x);
    }
  }

  /** A recovery begins exactly when the owner is dead and the device is there; it
      quiesces exactly when nothing the environment or a torn buffer does stops it. */
  lemma BeginIff(l: Ledger, slot: nat, a: nat, p: Process, env: Surroundings)
    requires Inv(l)
    ensures BeginRecovery(l, slot, a, p, env).1 == Done <==>
      && CanBegin(l, slot, a, p, env)
      && env.routerOk && env.decodingOff && env.unbindOk
      && AllPassable(l, UnmapMappings, a, env.mmioFaults, false) &&
        AllPassable(l, UnmapBuffers, a, env.dmaFaults, false)
  {
    hide Inv, Quiesce, AllPassable, Passable, Opened;
    BeginOpens(l, slot, a, p, env);
    if CanBegin(l, slot, a, p, env) {
      var l2 := Opened(l, slot, a, p, env);
      OpenedIsDue(l, slot, a, p, env);
      QuiesceIff(l2, slot, a, p.id, env);
    }
  }

  lemma OpenedIsDue(l: Ledger, slot: nat, a: nat, p: Process, env: Surroundings)
    requires CanBegin(l, slot, a, p, env) && Failing(Opened(l, slot, a, p, env), slot, a)
    ensures Due(Opened(l, slot, a, p, env), DisarmIrqs, a, p.id)
    ensures AllPassable(Opened(l, slot, a, p, env), UnmapMappings, a, env.mmioFaults, false) <==>
      AllPassable(l, UnmapMappings, a, env.mmioFaults, false)
    ensures AllPassable(Opened(l, slot, a, p, env), UnmapBuffers, a, env.dmaFaults, false) <==>
      AllPassable(l, UnmapBuffers, a, env.dmaFaults, false)
  {
    var l2 := Opened(l, slot, a, p, env);
    forall n | 0 <= n < |l.maps|
      ensures Passable(l2, UnmapMappings, n, a, env.mmioFaults, false) <==>
        Passable(l, UnmapMappings, n, a, env.mmioFaults, false)
    {
    }
    forall n | 0 <= n < |l.buffers|
      ensures Passable(l2, UnmapBuffers, n, a, env.dmaFaults, false) <==>
        Passable(l, UnmapBuffers, n, a, env.dmaFaults, false)
    {
    }
  }

  /** Whatever stops it afterwards, a recovery that has begun keeps the device in
      quarantine and remembers whether it was mastering the bus and whether it was
      exposed. The other records are as they were. */
  lemma BeginRecords(l: Ledger, slot: nat, a: nat, p: Process, env: Surroundings)
    requires Inv(l) && CanBegin(l, slot, a, p, env)
    ensures var (l', r) := BeginRecovery(l, slot, a, p, env);
            && Inv(l') && At(l'.assigns, a).state == Quarantined
            && Live(l'.recs, slot) && l'.recs == l.recs[slot := l'.recs[slot]]
            && var x := l'.recs[slot].value;
               && x.parent == a && x.owner == p.id && x.busMaster == env.busMaster
               && x.exposed == l.assigns[a].value.exposed && !x.completed
               && x.state == (if r == Done then Quiesced else FailedQuarantined)
  {
    hide Inv, Quiesce, Opened;
    BeginOpens(l, slot, a, p, env);
    var l2 := Opened(l, slot, a, p, env);
    OpenedFacts(l, slot, a, p, env);
    QuiesceSafe(l2, slot, a, p.id, env);
    var l' := BeginRecovery(l, slot, a, p, env).0;
    assert Lowered(At(l2.assigns, a), At(l'.assigns, a));
    assert l2.recs[slot := l'.recs[slot]] == l.recs[slot := l'.recs[slot]];
  }

  lemma OpenedFacts(l: Ledger, slot: nat, a: nat, p: Process, env: Surroundings)
    requires CanBegin(l, slot, a, p, env)
    ensures var l2 := Opened(l, slot, a, p, env);
            && |l2.recs| == |l.recs| && l2.recs == l.recs[slot := l2.recs[slot]] && Live(l2.recs, slot)
            && At(l2.assigns, a).state == Quarantined
            && var x := l2.recs[slot].value;
               && x.parent == a && x.owner == p.id && x.busMaster == env.busMaster
               && x.exposed == l.assigns[a].value.exposed && !x.completed
  {
  }

  /** The safety law on what the device did: if it was mastering the bus when its
      recovery began, it is never available again without a reset that completed. */
  lemma BusMasteringNeedsReset(l: Ledger, slot: nat, a: nat, p: Process, env: Surroundings, ops: seq<Op>)
    requires Inv(l) && a < ASSIGNMENTS && At(l.assigns, a).state == Assigned && env.busMaster
    requires var l1 := Apply(l, OnRecovery(OpBeginRecovery(slot, a, p, env))).0;
             At(l1.assigns, a).state == Quarantined && At(Run(l1, ops).assigns, a).state == Available
    ensures ReusedAfterReset(Apply(l, OnRecovery(OpBeginRecovery(slot, a, p, env))).0, ops, a)
  {
    hide Inv, Run, BeginRecovery, ReusedAfterReset;
    BeginOpens(l, slot, a, p, env);
    if CanBegin(l, slot, a, p, env) {
      BeginRecords(l, slot, a, p, env);
      BusMasterReusedOnlyAfterReset(BeginRecovery(l, slot, a, p, env).0, ops, slot);
    }
  }

  /** The same for a device that was given bus mastering, or found with it, while it was
      assigned: from the call that noted it. */
  lemma ExposureNeedsReset(l: Ledger, a: nat, owner: nat, inherited: bool, ops: seq<Op>)
    requires Inv(l)
    requires var call := if inherited then OpNoteInherited(a, owner) else OpMarkExposed(a, owner);
             var (l1, r) := Apply(l, OnAssignment(call));
             r == Done && At(Run(l1, ops).assigns, a).state == Available
    ensures var call := if inherited then OpNoteInherited(a, owner) else OpMarkExposed(a, owner);
            ReusedAfterReset(Apply(l, OnAssignment(call)).0, ops, a)
  {
    hide Inv, Run, ReusedAfterReset;
    var call := if inherited then OpNoteInherited(a, owner) else OpMarkExposed(a, owner);
    ExposureSafe(l, a, owner);
    ShapeOf(l);
    ExposedReusedOnlyAfterReset(Apply(l, OnAssignment(call)).0, ops, a);
  }

  lemma ShapeOf(l: Ledger)
    requires Inv(l)
    ensures Shape(l)
  {
  }

  // ------------------------------------------------------------------ completing

  /** Some transfer of the device is still registered. */
  ghost predicate HasTransfers(l: Ledger, a: nat) {
    exists k: nat :: Live(l.subs, k) && l.subs[k].value.parent == a
  }

  /** Draining works: every buffer is intact, and zeroing works if there is anything to zero. */
  ghost predicate CanDrain(l: Ledger, a: nat, zeroOk: bool) {
    AllIntact(l) && (zeroOk || !HasTransfers(l, a))
  }

  lemma ResetSubsPassable(l: Ledger, a: nat, zeroOk: bool)
    ensures AllPassable(l, ResetSubs, a, map[], zeroOk) <==> zeroOk || !HasTransfers(l, a)
  {
    if AllPassable(l, ResetSubs, a, map[], zeroOk) && HasTransfers(l, a) {
      var k: nat :| Live(l.subs, k) && l.subs[k].value.parent == a;
      assert Passable(l, ResetSubs, k, a, map[], zeroOk);
    }
    if zeroOk || !HasTransfers(l, a) {
      forall n | 0 <= n < |l.subs| ensures Passable(l, ResetSubs, n, a, map[], zeroOk) {
        assert l.subs[n].Some? ==> Live(l.subs, n);
      }
    }
  }

  /** A quiesced device is drained exactly when draining works; nothing else refuses. */
  lemma CompleteDmaIff(l: Ledger, r: nat, zeroOk: bool)
    requires Inv(l) && Live(l.recs, r) && l.recs[r].value.state == Quiesced
    ensures CompleteDma(l, r, zeroOk).1 == Done <==> CanDrain(l, l.recs[r].value.parent, zeroOk)
  {
    hide Inv, Sweep, Untouched, AllPassable, Passable, AllIntact, HasTransfers, AllSettled;
    var x := l.recs[r].value;
    var a := x.parent;
    QuiescedSettled(l, r);
    SweepIff(l, ResetSubs, 0, a, x.owner, map[], zeroOk);
    AllPassableMeans(l, ResetSubs, a, map[], zeroOk);
    ResetSubsPassable(l, a, zeroOk);
    var (l1, r1) := Sweep(l, ResetSubs, 0, a, x.owner, map[], zeroOk);
    if r1 == Done {
      PassSafe(l, ResetSubs, a, x.owner, map[], zeroOk);
      PassableStays(l, l1, ResetSubs, a, map[], map[]);
      AfterResets(l, l1, r, a);
      OwnerStays(l, l1, ResetSubs, a);
      SweepIff(l1, ResetBuffers, 0, a, x.owner, map[], zeroOk);
      AllPassableMeans(l1, ResetBuffers, a, map[], zeroOk);
      IntactPassable(l1, ResetBuffers, a, map[], zeroOk);
      var (l2, r2) := Sweep(l1, ResetBuffers, 0, a, x.owner, map[], zeroOk);
      PassSafe(l1, ResetBuffers, a, x.owner, map[], zeroOk);
      SubsStay(l1, l2, a);
      assert Lowered(At(l1.assigns, a), At(l2.assigns, a));
    }
  }

  lemma AllPassableMeans(l: Ledger, pass: Pass, a: nat, faults: Faults, zeroOk: bool)
    ensures AllPassable(l, pass, a, faults, zeroOk) <==>
      forall n :: 0 <= n < Capacity(l, pass) ==> Passable(l, pass, n, a, faults, zeroOk)
  {
  }

  lemma SubsStay(l: Ledger, l': Ledger, a: nat)
    requires Untouched(l, l', ResetBuffers, a)
    ensures l'.subs == l.subs && l'.recs == l.recs
  {
  }

  lemma AfterResets(l: Ledger, l1: Ledger, r: nat, a: nat)
    requires Inv(l) && Inv(l1) && Live(l.recs, r) && l.recs[r].value.state == Quiesced && a == l.recs[r].value.parent
    requires Untouched(l, l1, ResetSubs, a) && AllSettled(l1, ResetSubs, a) && InState(l1, a, Quarantined)
    ensures Prepared(l1, ResetBuffers, a) && l1.recs == l.recs
    ensures Sum(l1.subs, SubOf(a)) == 0 && !At(l1.assigns, a).gate && At(l1.assigns, a).pins == 0
  {
    NothingLeft(l1, a);
    assert RecoveryOk(l, l.recs[r].value);
    assert Balanced(l1, a);
  }

  /** Completing without a reset: exactly for a quiesced device that needs none, whose
      command register still reads as it was left, and that can be drained. */
  lemma CompleteWithoutResetIff(l: Ledger, r: nat, commandUnchanged: bool, zeroOk: bool)
    requires Inv(l)
    ensures CompleteWithoutReset(l, r, commandUnchanged, zeroOk).1 == Done <==>
      && Live(l.recs, r) && l.recs[r].value.state == Quiesced
      && !l.recs[r].value.busMaster && !l.recs[r].value.exposed && commandUnchanged
      && CanDrain(l, l.recs[r].value.parent, zeroOk)
  {
    hide Inv, CompleteDma, CanDrain;
    if Live(l.recs, r) {
      RecoveryAlwaysValid(l, r);
      if l.recs[r].value.state == Quiesced {
        CompleteDmaIff(l, r, zeroOk);
      }
    }
  }

  /** A reset is started exactly for a quiesced device that needs one and supports it;
      starting it changes nothing but the list of resets in flight. */
  lemma StartResetExact(l: Ledger, r: nat, supported: bool)
    requires Inv(l)
    ensures var (l', res) := StartReset(l, r, supported);
            && (res == Done <==>
                  && Live(l.recs, r) && l.recs[r].value.state == Quiesced && supported
                  && (l.recs[r].value.busMaster || l.recs[r].value.exposed))
            && (res != Done ==> l' == l)
            && (res == Done ==> l' == l.(flights := l.flights + [Flight(r, l.recs[r].value.serial)]))
  {
    hide Inv;
    if Live(l.recs, r) {
      RecoveryAlwaysValid(l, r);
    }
  }

  /** A reset that reports back on a quiesced record: not attempted changes nothing; a
      failed one fails the record; a completed one is recorded, and the record becomes
      DMA-safe exactly when the device can be drained and failed otherwise. */
  lemma FinishResetExact(l: Ledger, f: nat, outcome: ResetOutcome, zeroOk: bool)
    requires Inv(l) && f < |l.flights| && Live(l.recs, l.flights[f].slot)
    requires l.recs[l.flights[f].slot].value.state == Quiesced
    ensures var (l', res) := FinishReset(l, f, outcome, zeroOk);
            var r := l.flights[f].slot;
            var x := l.recs[r].value;
            && l'.flights == l.flights[..f] + l.flights[f + 1..] && Live(l'.recs, r)
            && l'.recs == l.recs[r := l'.recs[r]]
            && (res == Done <==> outcome == Complete && CanDrain(l, x.parent, zeroOk))
            && l'.recs[r].value ==
               match outcome
               case NotAttempted => x
               case Failed => x.(attempted := true, state := FailedQuarantined)
               case Complete =>
                 x.(attempted := true, completed := true, resetSerial := l.flights[f].serial,
                    state := if CanDrain(l, x.parent, zeroOk) then DmaSafe else FailedQuarantined)
  {
    hide Inv, CompleteDma, CanDrain;
    var r := l.flights[f].slot;
    var l0 := l.(flights := l.flights[..f] + l.flights[f + 1..]);
    FlightsSafe(l, l0.flights);
    RecoveryAlwaysValid(l0, r);
    if outcome == Complete {
      CreditReset(l0, r, l.flights[f].serial);
      var l1 := PutRecovery(l0, r,
        l0.recs[r].value.(attempted := true, completed := true, resetSerial := l.flights[f].serial));
      CompleteDmaIff(l1, r, zeroOk);
      CompleteDmaSound(l1, r, zeroOk);
      DrainUnread(l, l1, l.recs[r].value.parent, zeroOk);
    }
  }

  lemma DrainUnread(l: Ledger, l1: Ledger, a: nat, zeroOk: bool)
    requires l1.buffers == l.buffers && l1.subs == l.subs
    ensures CanDrain(l1, a, zeroOk) <==> CanDrain(l, a, zeroOk)
  {
    if HasTransfers(l, a) {
      var k: nat :| Live(l.subs, k) && l.subs[k].value.parent == a;
      assert Live(l1.subs, k);
    }
    if HasTransfers(l1, a) {
      var k: nat :| Live(l1.subs, k) && l1.subs[k].value.parent == a;
      assert Live(l.subs, k);
    }
  }

  /** A DMA-safe record gives its device back exactly when the owner's objects and
      capabilities are gone; then the record is gone and the device is available,
      unexposed and nobody's. */
  lemma CompleteAssignmentExact(l: Ledger, r: nat)
    requires Inv(l)
    ensures var (l', res) := CompleteAssignment(l, r);
            && (res == Done <==>
                  && Live(l.recs, r) && l.recs[r].value.state == DmaSafe
                  && Live(l.assigns, l.recs[r].value.parent)
                  && l.assigns[l.recs[r].value.parent].value.kids == 0
                  && l.assigns[l.recs[r].value.parent].value.refs == 0)
            && (res != Done ==> l' == l)
            && (res == Done ==>
                  var a := l.recs[r].value.parent;
                  && l' == l.(recs := l.recs[r := None], assigns := l.assigns[a := l'.assigns[a]])
                  && l'.assigns[a] ==
                     Some(l.assigns[a].value.(owner := 0, exposed := false, state := Available)))
  {
    hide BarsOk, BuffersOk, FramesOk, IrqOk, Balanced;
    if Live(l.recs, r) {
      RecoveryAlwaysValid(l, r);
      assert RecoveryOk(l, l.recs[r].value);
    }
  }
}
