/**
 A run that tears a buffer, and what it does to a device that has nothing to do
 with it: the recovery of that device fails although its reset completed.
 */
module PciTornRuns {
  import opened Slots
  import opened FrameSpans
  import opened PciLedger
  import opened PciRecovery
  import opened PciInvariant
  import opened PciRecoverySafety
  import opened PciRuns
  import opened PciTorn
  import opened PciResets

  const Other: Process := Process(2, false, true)

  /** A second device gets an owner with a DMA buffer of two pages; both are mapped,
      and removing the second of them fails. */
  const Tear: seq<Op> := [
    OnAssignment(OpCreateAssignment(8, true)), OnAssignment(OpClaim(1, Other, false, true)),
      OnBuffer(OpFrames({}, {1, 2})),
    OnBuffer(OpCreateBuffer(1, Other, true, 2, 1, true, true, true)), OnBuffer(OpMapBuffer(0, Other, true, 2)),
    OnBuffer(OpForceUnmapBuffer(0, 2, 1))]

  /** The first device is quarantined and its recovery has quiesced it. */
  function Waiting(): Ledger {
    Solo(Some(Device(Quarantined, true)), Some(Record(Quiesced, 1, 0)), 2, 2, [])
  }

  function Second(kids: nat): Assignment {
    Assignment(8, 2, 1, 2, kids, 0, Assigned, false, false, false)
  }

  function Half(mapped: nat): Buffer {
    Buffer(1, 2, 3, 1, 2, false, 1, 2, mapped, Ready, false)
  }

  lemma RunSix(l: Ledger, ops: seq<Op>)
    requires |ops| == 6
    ensures Run(l, ops) ==
      Apply(Apply(Apply(Apply(Apply(Apply(l, ops[0]).0, ops[1]).0, ops[2]).0, ops[3]).0, ops[4]).0, ops[5]).0
  {
    hide Apply, Run;
    RunAppend(l, ops[..4], ops[4..]);
    assert ops == ops[..4] + ops[4..];
    RunFour(l, ops[0], ops[1], ops[2], ops[3]);
    assert ops[..4] == [ops[0], ops[1], ops[2], ops[3]];
    var l4 := Run(l, ops[..4]);
    assert ops[4..] == [ops[4]] + ([ops[5]] + []);
    RunStep(l4, ops[4], [ops[5]] + []);
    RunStep(Apply(l4, ops[4]).0, ops[5], []);
    RunNone(Apply(Apply(l4, ops[4]).0, ops[5]).0);
  }

  /** Up to the claim of the second device. */
  lemma SecondClaimed(l: Ledger)
    requires l == Waiting()
    ensures var l2 := Apply(Apply(l, Tear[0]).0, Tear[1]).0;
            && l2 == l.(assigns := l2.assigns, nextRid := 3) && |l2.assigns| == |l.assigns|
            && l2.assigns[1] == Some(Second(0))
  {
    hide Blank, Solo;
    assert Empty(l.assigns) == 1;
    assert !DeviceTaken(l.assigns, 8);
  }

  /** A buffer for it over the frames that were given back. */
  lemma BufferMade(l: Ledger)
    requires l.buffers == Boot.buffers && l.free == {} && l.nextRid == 3
    requires Live(l.assigns, 1) && l.assigns[1].value == Second(0)
    ensures var l2 := Apply(Apply(l, Tear[2]).0, Tear[3]).0;
            && Live(l2.assigns, 1) && l2.assigns[1].value == Second(1)
            && |l2.buffers| == BUFFERS && l2.buffers[0] == Some(Half(0)) && l2.recs == l.recs && l2.flights == l.flights
  {
    hide Blank;
    var l1 := Apply(l, Tear[2]).0;
    assert forall f :: f in BufferFrames(l.buffers) ==> false;
    assert Span(1, 2) <= l1.free;
    assert Empty(l1.buffers) == 0;
  }

  lemma BufferTorn(l: Ledger)
    requires |l.buffers| == BUFFERS && l.buffers[0] == Some(Half(0)) && Live(l.assigns, 1) &&
      l.assigns[1].value == Second(1)
    ensures var l2 := Apply(Apply(l, Tear[4]).0, Tear[5]).0;
            Torn(l2, 0) && l2.buffers[0].value == Half(1) && l2.recs == l.recs && l2.flights == l.flights
  {
    hide Blank;
    var l1 := Apply(l, Tear[4]).0;
    assert l1.buffers[0] == Some(Half(2));
  }

  const TornRun: seq<Op> := [Create] + (Life + Tear)

  /** The hypotheses of the torn-buffer results are met in a reachable state: a page
      removal that fails once is enough, and the buffer belongs to another device
      than the recovery that waits for its reset. */
  lemma TornReached()
    ensures var l := Run(Boot, TornRun);
            && Inv(l) && Torn(l, 0) && l.buffers[0].value.parent == 1
            && Live(l.recs, 0) && l.recs[0].value == Record(Quiesced, 1, 0) && l.recs[0].value.parent == 0
            && l.flights == []
  {
    hide Blank, Run, Apply, Create, Life, Tear, Boot, Inv;
    RunStep(Boot, Create, Life + Tear);
    CreateAlone();
    var l1 := Solo(Some(Device(Available, false)), None, 2, 1, []);
    RunAppend(l1, Life, Tear);
    ClaimAlone(1, []);
    TornFromWaiting();
    RunFromBoot(TornRun, Create);
  }

  lemma TornFromWaiting()
    ensures var l := Run(Waiting(), Tear);
            && Torn(l, 0) && l.buffers[0].value.parent == 1
            && Live(l.recs, 0) && l.recs[0].value == Record(Quiesced, 1, 0) && l.flights == []
  {
    var l := Waiting();
    assert l.buffers == Boot.buffers && l.free == {} && l.recs[0] == Some(Record(Quiesced, 1, 0)) && l.flights == [];
    hide Blank, Run, Apply, Solo, Tear;
    assert |Tear| == 6 by {
      SixSteps();
    }
    RunSix(l, Tear);
    SecondClaimed(l);
    var l2 := Apply(Apply(l, Tear[0]).0, Tear[1]).0;
    BufferMade(l2);
    BufferTorn(Apply(Apply(l2, Tear[2]).0, Tear[3]).0);
  }

  lemma SixSteps()
    ensures |Tear| == 6
  {
  }

  lemma LandingFails(l: Ledger)
    requires Inv(l.(flights := [])) && Torn(l, 0) && l.flights == [Flight(0, 1)]
    requires Live(l.recs, 0) && l.recs[0].value == Record(Quiesced, 1, 0)
    ensures var l' := Apply(l, Finish).0;
            Inv(l') && Live(l'.recs, 0) && l'.recs[0].value.completed && l'.recs[0].value.state == FailedQuarantined &&
            l'.recs[0].value.parent == 0
  {
    hide Inv, CompleteDma;
    FlightsSafe(l.(flights := []), l.flights);
    assert l.(flights := []).(flights := l.flights) == l;
    var l0 := l.(flights := []);
    assert l.flights[..0] + l.flights[0 + 1..] == [];
    RecoveryAlwaysValid(l0, 0);
    CreditReset(l0, 0, 1);
    var l1 := PutRecovery(l0, 0, l0.recs[0].value.(attempted := true, completed := true, resetSerial := 1));
    CompleteDmaSound(l1, 0, true);
    CompleteDmaFails(l1, 0, true, 0);
    StepSound(l, Finish);
  }

  /** The reset of the first device then completes, its recovery fails all the same,
      and the device stays quarantined for the rest of every run. */
  lemma InnocentDeviceIsLost(ops: seq<Op>)
    ensures var l := Run(Boot, TornRun);
            var l' := Apply(Apply(l, OnRecovery(OpStartReset(0, true))).0, Finish).0;
            && Live(l'.recs, 0) && l'.recs[0].value.completed && l'.recs[0].value.state == FailedQuarantined
            && At(Run(l', ops).assigns, 0).state == Quarantined
  {
    hide Run, Inv, Apply, Torn, Boot, TornRun;
    TornReached();
    ResetIsWasted(Run(Boot, TornRun), ops);
  }

  lemma ResetStarts(l: Ledger)
    requires Inv(l) && Live(l.recs, 0) && l.recs[0].value == Record(Quiesced, 1, 0) && l.flights == []
    ensures Apply(l, OnRecovery(OpStartReset(0, true))).0 == l.(flights := [Flight(0, 1)])
  {
    hide Inv;
    RecoveryAlwaysValid(l, 0);
  }

  lemma ResetIsWasted(l: Ledger, ops: seq<Op>)
    requires Inv(l) && Torn(l, 0) && Live(l.recs, 0) && l.recs[0].value == Record(Quiesced, 1, 0) && l.flights == []
    ensures var l' := Apply(Apply(l, OnRecovery(OpStartReset(0, true))).0, Finish).0;
            && Live(l'.recs, 0) && l'.recs[0].value.completed && l'.recs[0].value.state == FailedQuarantined
            && At(Run(l', ops).assigns, 0).state == Quarantined
  {
    hide Inv, Apply, Run;
    ResetStarts(l);
    var l1 := l.(flights := [Flight(0, 1)]);
    assert l1.(flights := []) == l;
    LandingFails(l1);
    FailedIsForever(Apply(l1, Finish).0, ops, 0);
  }
}
