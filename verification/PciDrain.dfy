/**
 Completing a recovery: the DMA passes drain everything exactly when every
 registered buffer is intact, and each buffer is zeroed before it is ready again.
 */
module PciDrain {
  import opened Slots
  import opened PciLedger
  import opened PciRecovery
  import opened PciInvariant
  import opened PciOperations
  import opened PciSweeps

  /** Buffers keep their frames; one that left quarantine has been zeroed, and
      nothing that was zero is dirtied. */
  ghost predicate Scrubbed(l: Ledger, l': Ledger) {
    && l.zeroed <= l'.zeroed
    && (forall j: nat :: Live(l.buffers, j) <==> Live(l'.buffers, j))
    && (forall j: nat :: Live(l.buffers, j) ==>
          var b, b' := l.buffers[j].value, l'.buffers[j].value;
          && SpanOf(b) == SpanOf(b')
          && (b.state == Ready ==> b'.state == Ready)
          && (b.state == BufferQuarantined ==>
                b'.state == BufferQuarantined || (b'.state == Ready && SpanOf(b) <= l'.zeroed)))
  }

  /** With the assignment quarantined and its submissions quarantined too, no
      submission can stop the first pass. */
  lemma ResetSucceeds(l: Ledger, k: nat, a: nat)
    requires Inv(l) && InState(l, a, Quarantined) && Live(l.subs, k)
    requires l.subs[k].value.parent == a && l.subs[k].value.state == SubmissionQuarantined
    ensures var (l', r) := ResetSubmission(l, k, true);
            r == Done && Scrubbed(l, l') && Known(l', a) && l'.subs == l.subs[k := None]
  {
    SubmissionAlwaysValid(l, k);
    BufferValidIffIntact(l, l.subs[k].value.buffer);
  }

  lemma ResetVisit(l: Ledger, i: nat, a: nat, owner: nat)
    requires Inv(l) && InState(l, a, Quarantined) && l.assigns[a].value.owner == owner && i < |l.subs|
    requires AllSettled(l, QuarantineSubs, a)
    ensures var (l', r) := Visit(l, ResetSubs, i, a, owner, map[], true);
            r == Done && Scrubbed(l, l') && l'.subs == l.subs[i := l'.subs[i]] && AllSettled(l', QuarantineSubs, a)
  {
    if Live(l.subs, i) {
      SubmissionAlwaysValid(l, i);
      if l.subs[i].value.parent == a {
        assert Settled(l, QuarantineSubs, i, a);
        ResetSucceeds(l, i, a);
      }
    }
    var l' := Visit(l, ResetSubs, i, a, owner, map[], true).0;
    forall n | 0 <= n < |l'.subs| ensures Settled(l', QuarantineSubs, n, a) {
      assert Settled(l, QuarantineSubs, n, a);
    }
  }

  lemma ScrubbedChains(l: Ledger, l1: Ledger, l2: Ledger)
    requires Scrubbed(l, l1) && Scrubbed(l1, l2)
    ensures Scrubbed(l, l2)
  {
  }

  lemma {:induction false} ResetPassSucceeds(l: Ledger, i: nat, a: nat, owner: nat)
    requires Inv(l) && InState(l, a, Quarantined) && l.assigns[a].value.owner == owner && i <= |l.subs|
    requires AllSettled(l, QuarantineSubs, a)
    ensures var (l', r) := Sweep(l, ResetSubs, i, a, owner, map[], true);
            r == Done && Scrubbed(l, l')
    decreases |l.subs| - i
  {
    if i < |l.subs| {
      var (l1, r) := Visit(l, ResetSubs, i, a, owner, map[], true);
      ResetVisit(l, i, a, owner);
      VisitSafe(l, ResetSubs, i, a, owner, map[], true);
      VisitUntouched(l, ResetSubs, i, a, owner, map[], true);
      UntouchedPrepared(l, l1, ResetSubs, a);
      assert At(l1.assigns, a).owner == owner;
      ResetPassSucceeds(l1, i + 1, a, owner);
      ScrubbedChains(l, l1, Sweep(l1, ResetSubs, i + 1, a, owner, map[], true).0);
    }
  }

  ghost predicate AllIntact(l: Ledger) {
    forall j: nat :: Live(l.buffers, j) ==> Intact(l.buffers[j].value)
  }

  /** The second pass stops at the first buffer that fails its validity check. */
  lemma {:induction false} BufferPassSucceedsIff(l: Ledger, i: nat, a: nat, owner: nat)
    requires Inv(l) && Prepared(l, ResetBuffers, a) && l.assigns[a].value.owner == owner && i <= |l.buffers|
    ensures var (l', r) := Sweep(l, ResetBuffers, i, a, owner, map[], true);
            l' == l && (r == Done <==> forall j: nat :: i <= j && Live(l.buffers, j) ==> Intact(l.buffers[j].value))
    decreases |l.buffers| - i
  {
    if i < |l.buffers| {
      BufferPassesAreIdle(l, ResetBuffers, i, a, owner, map[], true);
      if Live(l.buffers, i) {
        BufferValidIffIntact(l, i);
      }
      BufferPassSucceedsIff(l, i + 1, a, owner);
    }
  }

  /** When all submissions of an assignment are gone, so are its gate and the
      buffers' pins. */
  lemma NothingLeft(l: Ledger, a: nat)
    requires Inv(l) && a < ASSIGNMENTS && AllSettled(l, ResetSubs, a)
    ensures Sum(l.subs, SubOf(a)) == 0 && !At(l.assigns, a).gate
    ensures Sum(l.buffers, BufferPin(a)) == 0
    ensures forall j: nat :: Live(l.buffers, j) && l.buffers[j].value.parent == a ==> l.buffers[j].value.state == Ready
  {
    forall n | 0 <= n < |l.subs| ensures SubOf(a)(l.subs[n]) == 0 {
      assert Settled(l, ResetSubs, n, a);
    }
    SumZero(l.subs, SubOf(a));
    forall j: nat | Live(l.buffers, j) && l.buffers[j].value.parent == a ensures l.buffers[j].value.state == Ready {
      if l.buffers[j].value.state != Ready {
        var k := BusyBufferHasSubmission(l, j);
        SumAtLeast(l.subs, k, SubOf(a));
      }
    }
    forall j | 0 <= j < |l.buffers| ensures BufferPin(a)(l.buffers[j]) == 0 {
      assert Live(l.buffers, j) ==> BufferOk(l.assigns, l.buffers[j].value);
    }
    SumZero(l.buffers, BufferPin(a));
    assert Balanced(l, a);
  }

  /** A quiesced recovery can only have quarantined submissions. */
  lemma QuiescedSettled(l: Ledger, r: nat)
    requires Inv(l) && Live(l.recs, r) && l.recs[r].value.state == Quiesced
    ensures InState(l, l.recs[r].value.parent, Quarantined)
    ensures l.assigns[l.recs[r].value.parent].value.owner == l.recs[r].value.owner
    ensures AllSettled(l, QuarantineSubs, l.recs[r].value.parent)
  {
    var a := l.recs[r].value.parent;
    assert RecoveryOk(l, l.recs[r].value);
    forall n | 0 <= n < |l.subs| ensures Settled(l, QuarantineSubs, n, a) {
      SumAtLeast(l.subs, n, ActiveSub(a));
    }
  }

  /** What draining leaves: no submission, no gate, no pin, every buffer of the
      device ready, and those that were quarantined zeroed. */
  ghost predicate Drained(l: Ledger, l': Ledger, a: nat) {
    && Known(l', a)
    && Sum(l'.subs, SubOf(a)) == 0 && !l'.assigns[a].value.gate && l'.assigns[a].value.pins == 0
    && Scrubbed(l, l')
    && (forall j: nat :: Live(l'.buffers, j) && l'.buffers[j].value.parent == a ==> l'.buffers[j].value.state == Ready)
  }

  lemma FirstPass(l: Ledger, r: nat) returns (l1: Ledger)
    requires Inv(l) && Live(l.recs, r) && l.recs[r].value.state == Quiesced
    ensures var x := l.recs[r].value;
            && (l1, Done) == Sweep(l, ResetSubs, 0, x.parent, x.owner, map[], true)
            && Inv(l1) && Untouched(l, l1, ResetSubs, x.parent) && Prepared(l1, ResetBuffers, x.parent)
            && l1.assigns[x.parent].value.owner == x.owner
            && Drained(l, l1, x.parent)
            && (AllIntact(l1) <==> AllIntact(l))
  {
    hide BarsOk, BuffersOk, FramesOk, IrqOk;
    var x := l.recs[r].value;
    var a := x.parent;
    QuiescedSettled(l, r);
    ResetPassSucceeds(l, 0, a, x.owner);
    SweepSettles(l, ResetSubs, 0, a, x.owner, map[], true);
    l1 := Sweep(l, ResetSubs, 0, a, x.owner, map[], true).0;
    assert At(l1.assigns, a).state == Quarantined && At(l1.assigns, a).owner == x.owner;
    NothingLeft(l1, a);
    assert RecoveryOk(l, x);
    assert Balanced(l1, a);
  }

  /** The completion step drains the device exactly when every registered
      buffer, of whatever device, is intact; the zero-count checks at its end
      never refuse. */
  lemma DrainIffIntact(l: Ledger, r: nat)
    requires Inv(l) && Live(l.recs, r) && l.recs[r].value.state == Quiesced
    ensures var (l', res) := CompleteDma(l, r, true);
            && (res == Done <==> AllIntact(l))
            && (res == Done ==>
              Drained(l, l', l.recs[r].value.parent) && Live(l'.recs, r) && l'.recs[r].value.state == DmaSafe)
  {
    var x := l.recs[r].value;
    var l1 := FirstPass(l, r);
    BufferPassSucceedsIff(l1, 0, x.parent, x.owner);
  }
}
