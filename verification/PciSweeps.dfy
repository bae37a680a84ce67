/**
 The passes that recovery makes over the registries: what each leaves behind,
 and exactly when the final one drains the device's DMA.
 */
module PciSweeps {
  import opened Slots
  import opened PciLedger
  import opened PciRecovery
  import opened PciInvariant
  import opened PciEdits
  import opened PciOperations
  import IrqEvents

  /** What a completed pass guarantees at slot `n` for assignment `a`. */
  predicate Settled(l: Ledger, pass: Pass, n: nat, a: nat)
    requires n < Capacity(l, pass)
  {
    match pass
    case DisarmIrqs => l.irqs[n].Some? && l.irqs[n].value.parent == a ==> !l.irqs[n].value.held
    case UnmapMappings =>
      l.maps[n].Some? && Live(l.bars, l.maps[n].value.bar) ==> l.bars[l.maps[n].value.bar].value.parent != a
    case UnmapBuffers => l.buffers[n].Some? && l.buffers[n].value.parent == a ==> l.buffers[n].value.mapped == 0
    case QuarantineSubs =>
      l.subs[n].Some? && l.subs[n].value.parent == a ==> l.subs[n].value.state == SubmissionQuarantined
    case QuarantineBuffers =>
      l.buffers[n].Some? && l.buffers[n].value.parent == a ==> l.buffers[n].value.state != DeviceActive
    case ResetSubs => l.subs[n].Some? ==> l.subs[n].value.parent != a
    case ResetBuffers => l.buffers[n].Some? && l.buffers[n].value.parent == a ==> l.buffers[n].value.state == Ready
  }

  ghost predicate AllSettled(l: Ledger, pass: Pass, a: nat) {
    forall n :: 0 <= n < Capacity(l, pass) ==> Settled(l, pass, n, a)
  }

  /** The two buffer passes run after the submission passes. */
  ghost predicate Prepared(l: Ledger, pass: Pass, a: nat) {
    && InState(l, a, Quarantined)
    && (pass == QuarantineBuffers ==> AllSettled(l, QuarantineSubs, a))
    && (pass == ResetBuffers ==> AllSettled(l, ResetSubs, a))
  }

  /** Only the pins and the gate change, and only downward. */
  predicate Lowered(x: Assignment, x': Assignment) {
    x' == x.(pins := x'.pins, gate := x'.gate) && x'.pins <= x.pins && (x'.gate ==> x.gate)
  }

  /** What a pass leaves alone. */
  ghost predicate Untouched(l: Ledger, l': Ledger, pass: Pass, a: nat) {
    && l'.recs == l.recs && l'.serial == l.serial && l'.flights == l.flights
    && (pass != DisarmIrqs ==> l'.irqs == l.irqs)
    && (pass != UnmapMappings ==> l'.bars == l.bars && l'.maps == l.maps)
    && (pass != QuarantineSubs && pass != ResetSubs ==> l'.subs == l.subs)
    && |l'.assigns| == |l.assigns| && |l'.buffers| == |l.buffers| && Capacity(l', pass) == Capacity(l, pass)
    && (forall c: nat :: Lowered(At(l.assigns, c), At(l'.assigns, c)))
    && (forall j: nat :: Live(l.buffers, j) <==> Live(l'.buffers, j))
    && (forall j: nat :: Live(l.buffers, j) ==>
          && l'.buffers[j].value.parent == l.buffers[j].value.parent
          && l'.buffers[j].value.kernel == l.buffers[j].value.kernel &&
            l'.buffers[j].value.pages == l.buffers[j].value.pages
          && (pass != UnmapBuffers ==> l'.buffers[j].value.mapped == l.buffers[j].value.mapped))
  }

  /** A busy buffer has its submission, in the matching state. */
  lemma BusyBufferHasSubmission(l: Ledger, j: nat) returns (k: nat)
    requires Inv(l) && Live(l.buffers, j) && l.buffers[j].value.state != Ready
    ensures Live(l.subs, k) && l.subs[k].value.buffer == j && l.subs[k].value.parent == l.buffers[j].value.parent
    ensures l.subs[k].value.state == Active <==> l.buffers[j].value.state == DeviceActive
  {
    k := SumPositive(l.subs, SubOn(j));
    assert SubmissionOk(l.assigns, l.buffers, l.subs[k].value);
  }

  /** The buffer passes find nothing to do: the submission passes have already
      settled every buffer of the assignment. */
  lemma BufferPassesAreIdle(l: Ledger, pass: Pass, i: nat, a: nat, owner: nat, faults: Faults, zeroOk: bool)
    requires Inv(l) && (pass == QuarantineBuffers || pass == ResetBuffers) && Prepared(l, pass, a) &&
      i < Capacity(l, pass)
    ensures Visit(l, pass, i, a, owner, faults, zeroOk).0 == l
    ensures Settled(l, pass, i, a)
  {
    if Live(l.buffers, i) && l.buffers[i].value.state != Ready && l.buffers[i].value.parent == a {
      var k := BusyBufferHasSubmission(l, i);
      var before := if pass == QuarantineBuffers then QuarantineSubs else ResetSubs;
      assert Settled(l, before, k, a);
    }
  }

  lemma VisitSafe(l: Ledger, pass: Pass, i: nat, a: nat, owner: nat, faults: Faults, zeroOk: bool)
    requires Inv(l) && Prepared(l, pass, a) && i < Capacity(l, pass)
    ensures var (l', r) := Visit(l, pass, i, a, owner, faults, zeroOk);
            Inv(l') && r != Halt
  {
    hide Inv, ForceDisarmIrq, UnmapMmio, ForceUnmapBuffer, QuarantineSubmission, ResetSubmission;
    match pass
    case DisarmIrqs => ForceDisarmIrqSafe(l, i, owner);
    case UnmapMappings =>
      if Live(l.maps, i) {
        UnmapMmioSafe(l, i, Removals(faults, i, l.maps[i].value.mapped));
      }
    case UnmapBuffers =>
      if Live(l.buffers, i) {
        UnmapBufferSafe(l, i, owner, Removals(faults, i, l.buffers[i].value.mapped));
      }
    case QuarantineSubs => QuarantineSubmissionSafe(l, i);
    case ResetSubs => ResetSubmissionSafe(l, i, zeroOk);
    case QuarantineBuffers => BufferPassesAreIdle(l, pass, i, a, owner, faults, zeroOk);
    case ResetBuffers => BufferPassesAreIdle(l, pass, i, a, owner, faults, zeroOk);
  }

  lemma DisarmEffect(l: Ledger, q: nat, a: nat, owner: nat)
    requires Live(l.irqs, q)
    ensures var (l', r) := ForceDisarmIrq(l, q, owner);
            && Untouched(l, l', DisarmIrqs, a)
            && |l'.irqs| == |l.irqs| && l'.irqs == l.irqs[q := l'.irqs[q]] &&
              (r == Done ==> Live(l'.irqs, q) && !l'.irqs[q].value.held)
  {
  }

  lemma UnmapMappingEffect(l: Ledger, m: nat, a: nat, unmaps: nat)
    requires Live(l.maps, m)
    ensures var (l', r) := UnmapMmio(l, m, unmaps);
            && Untouched(l, l', UnmapMappings, a)
            && l'.maps == l.maps[m := l'.maps[m]] && (r == Done ==> l'.maps[m].None?)
            && |l'.bars| == |l.bars|
            && (forall i: nat :: Live(l.bars, i) <==> Live(l'.bars, i))
            && (forall i: nat :: Live(l.bars, i) ==> l'.bars[i].value.parent == l.bars[i].value.parent)
  {
  }

  lemma UnmapBufferEffect(l: Ledger, j: nat, a: nat, owner: nat, unmaps: nat)
    requires Live(l.buffers, j)
    ensures var (l', r) := ForceUnmapBuffer(l, j, owner, unmaps);
            && Untouched(l, l', UnmapBuffers, a)
            && l'.buffers == l.buffers[j := l'.buffers[j]] && (r == Done ==> l'.buffers[j].value.mapped == 0)
  {
  }

  lemma QuarantineEffect(l: Ledger, k: nat, a: nat)
    requires Live(l.subs, k) && l.subs[k].value.parent == a && InState(l, a, Quarantined)
    ensures var (l', r) := QuarantineSubmission(l, k);
            && Untouched(l, l', QuarantineSubs, a)
            && l'.subs == l.subs[k := l'.subs[k]]
            && (r == Done ==>
              Live(l'.subs, k) && l'.subs[k].value.parent == a && l'.subs[k].value.state == SubmissionQuarantined)
  {
    if SubmissionValid(l, k) && l.subs[k].value.state == Active {
      var s := l.subs[k].value;
      assert ForceQuarantine(l, a, s.owner).Some? ==> ForceQuarantine(l, a, s.owner).value.assigns == l.assigns;
    }
  }

  lemma ResetEffect(l: Ledger, k: nat, a: nat, zeroOk: bool)
    requires Live(l.subs, k) && l.subs[k].value.parent == a
    ensures var (l', r) := ResetSubmission(l, k, zeroOk);
            && Untouched(l, l', ResetSubs, a)
            && l'.subs == l.subs[k := l'.subs[k]] && (r == Done ==> l'.subs[k].None?)
  {
  }

  lemma VisitUntouched(l: Ledger, pass: Pass, i: nat, a: nat, owner: nat, faults: Faults, zeroOk: bool)
    requires Inv(l) && Prepared(l, pass, a) && i < Capacity(l, pass)
    ensures Untouched(l, Visit(l, pass, i, a, owner, faults, zeroOk).0, pass, a)
  {
    hide Inv, ForceDisarmIrq, UnmapMmio, ForceUnmapBuffer, QuarantineSubmission, ResetSubmission, QuarantineBuffer,
      ResetBuffer;
    match pass
    case DisarmIrqs => if Live(l.irqs, i) { DisarmEffect(l, i, a, owner); }
    case UnmapMappings =>
      if Live(l.maps, i) { UnmapMappingEffect(l, i, a, Removals(faults, i, l.maps[i].value.mapped)); }
    case UnmapBuffers =>
      if Live(l.buffers, i) { UnmapBufferEffect(l, i, a, owner, Removals(faults, i, l.buffers[i].value.mapped)); }
    case QuarantineSubs => if Live(l.subs, i) && l.subs[i].value.parent == a { QuarantineEffect(l, i, a); }
    case ResetSubs => if Live(l.subs, i) && l.subs[i].value.parent == a { ResetEffect(l, i, a, zeroOk); }
    case QuarantineBuffers => BufferPassesAreIdle(l, pass, i, a, owner, faults, zeroOk);
    case ResetBuffers => BufferPassesAreIdle(l, pass, i, a, owner, faults, zeroOk);
  }

  lemma VisitSettles(l: Ledger, pass: Pass, i: nat, a: nat, owner: nat, faults: Faults, zeroOk: bool, n: nat)
    requires Inv(l) && Prepared(l, pass, a) && i < Capacity(l, pass) && n < Capacity(l, pass)
    requires Visit(l, pass, i, a, owner, faults, zeroOk).1 == Done
    requires n == i || Settled(l, pass, n, a)
    ensures var l' := Visit(l, pass, i, a, owner, faults, zeroOk).0;
            n < Capacity(l', pass) && Settled(l', pass, n, a)
  {
    hide Inv, ForceDisarmIrq, UnmapMmio, ForceUnmapBuffer, QuarantineSubmission, ResetSubmission, QuarantineBuffer,
      ResetBuffer;
    match pass
    case DisarmIrqs =>
      if Live(l.irqs, i) {
        IrqAlwaysValid(l, i);
        DisarmEffect(l, i, a, owner);
      }
    case UnmapMappings =>
      if Live(l.maps, i) {
        UnmapMappingEffect(l, i, a, Removals(faults, i, l.maps[i].value.mapped));
      }
    case UnmapBuffers =>
      if Live(l.buffers, i) {
        UnmapBufferEffect(l, i, a, owner, Removals(faults, i, l.buffers[i].value.mapped));
      }
    case QuarantineSubs => if Live(l.subs, i) && l.subs[i].value.parent == a { QuarantineEffect(l, i, a); }
    case ResetSubs => if Live(l.subs, i) && l.subs[i].value.parent == a { ResetEffect(l, i, a, zeroOk); }
    case QuarantineBuffers => BufferPassesAreIdle(l, pass, i, a, owner, faults, zeroOk);
    case ResetBuffers => BufferPassesAreIdle(l, pass, i, a, owner, faults, zeroOk);
  }

  /** A pass keeps the invariant, never halts, leaves the rest alone, and when it
      completes it has settled every slot. */
  lemma {:induction false} SweepSettles(l: Ledger, pass: Pass, i: nat, a: nat, owner: nat, faults: Faults, zeroOk: bool)
    requires Inv(l) && Prepared(l, pass, a) && i <= Capacity(l, pass)
    requires forall n :: 0 <= n < i ==> Settled(l, pass, n, a)
    ensures var (l', r) := Sweep(l, pass, i, a, owner, faults, zeroOk);
            && Inv(l') && r != Halt && Untouched(l, l', pass, a)
            && (r == Done ==> AllSettled(l', pass, a))
    decreases Capacity(l, pass) - i
  {
    if i < Capacity(l, pass) {
      var (l1, r) := Visit(l, pass, i, a, owner, faults, zeroOk);
      VisitSafe(l, pass, i, a, owner, faults, zeroOk);
      VisitUntouched(l, pass, i, a, owner, faults, zeroOk);
      if r == Done {
        forall n | 0 <= n < i + 1 ensures Settled(l1, pass, n, a) {
          VisitSettles(l, pass, i, a, owner, faults, zeroOk, n);
        }
        UntouchedPrepared(l, l1, pass, a);
        SweepSettles(l1, pass, i + 1, a, owner, faults, zeroOk);
        UntouchedChains(l, l1, Sweep(l1, pass, i + 1, a, owner, faults, zeroOk).0, pass, a);
      }
    }
  }

  lemma UntouchedPrepared(l: Ledger, l': Ledger, pass: Pass, a: nat)
    requires Inv(l) && Inv(l') && Prepared(l, pass, a) && Untouched(l, l', pass, a)
    ensures Prepared(l', pass, a)
  {
    assert At(l'.assigns, a).state == Quarantined;
    forall n | 0 <= n < |l'.subs|
      ensures pass == QuarantineBuffers ==> Settled(l', QuarantineSubs, n, a)
      ensures pass == ResetBuffers ==> Settled(l', ResetSubs, n, a)
    {
      assert pass == QuarantineBuffers ==> Settled(l, QuarantineSubs, n, a);
      assert pass == ResetBuffers ==> Settled(l, ResetSubs, n, a);
    }
  }

  lemma UntouchedChains(l: Ledger, l1: Ledger, l2: Ledger, pass: Pass, a: nat)
    requires Untouched(l, l1, pass, a) && Untouched(l1, l2, pass, a)
    ensures Untouched(l, l2, pass, a)
  {
  }
}
