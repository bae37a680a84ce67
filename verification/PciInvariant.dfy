/**
 What the registries of the device-lifetime ledger agree on in every reachable
 state.
 */
module PciInvariant {
  import opened Slots
  import opened PciLedger
  import opened PciRecovery
  import IrqEvents

  // ----------------------------------------------------------------- weights

  function BarKid(a: nat): Option<Bar> -> nat {
    (b: Option<Bar>) => if b.Some? && b.value.parent == a then 1 else 0
  }

  function BufferKid(a: nat): Option<Buffer> -> nat {
    (b: Option<Buffer>) => if b.Some? && b.value.parent == a then 1 else 0
  }

  function IrqKid(a: nat): Option<Irq> -> nat {
    (q: Option<Irq>) => if q.Some? && q.value.parent == a then 1 else 0
  }

  function BufferPin(a: nat): Option<Buffer> -> nat {
    (b: Option<Buffer>) => if b.Some? && b.value.parent == a && b.value.held then 1 else 0
  }

  function IrqPin(a: nat): Option<Irq> -> nat {
    (q: Option<Irq>) => if q.Some? && q.value.parent == a && q.value.held then 1 else 0
  }

  function MappingOn(i: nat): Option<Mapping> -> nat {
    (m: Option<Mapping>) => if m.Some? && m.value.bar == i then 1 else 0
  }

  function SubOn(j: nat): Option<Submission> -> nat {
    (s: Option<Submission>) => if s.Some? && s.value.buffer == j then 1 else 0
  }

  function ActiveSub(a: nat): Option<Submission> -> nat {
    (s: Option<Submission>) => if s.Some? && s.value.parent == a && s.value.state == Active then 1 else 0
  }

  function RecoveryOf(a: nat): Option<Recovery> -> nat {
    (r: Option<Recovery>) => if r.Some? && r.value.parent == a then 1 else 0
  }

  // --------------------------------------------------------------- the books

  const NoAssignment: Assignment := Assignment(0, 0, 0, 0, 0, 0, Available, false, false, false)

  function At(s: Registry<Assignment>, a: nat): Assignment {
    if Live(s, a) then s[a].value else NoAssignment
  }

  /** Pins and children as the parts hold them. */
  function PinsHeld(l: Ledger, a: nat): nat {
    Sum(l.bars, BarPin(a)) + Sum(l.buffers, BufferPin(a)) + Sum(l.irqs, IrqPin(a))
  }

  function Children(l: Ledger, a: nat): nat {
    Sum(l.bars, BarKid(a)) + Sum(l.buffers, BufferKid(a)) + Sum(l.irqs, IrqKid(a))
  }

  /** The assignment's own counters agree with the registries, and its DMA gate
      is set exactly when one submission holds it, which excludes BAR access. */
  predicate Balanced(l: Ledger, a: nat) {
    var x := At(l.assigns, a);
    && x.pins == PinsHeld(l, a)
    && x.kids == Children(l, a)
    && Sum(l.subs, SubOf(a)) == (if x.gate then 1 else 0)
    && (x.gate ==> Sum(l.bars, BarPin(a)) == 0)
    && Sum(l.recs, RecoveryOf(a)) <= 1
  }

  predicate ParentOk(s: Registry<Assignment>, parent: nat, prid: nat, owner: nat) {
    parent < ASSIGNMENTS && owner != 0 && At(s, parent).owner == owner && At(s, parent).rid == prid
  }

  predicate BarOk(s: Registry<Assignment>, b: Bar) {
    ParentOk(s, b.parent, b.prid, b.owner) && b.index < BAR_INDEXES && (b.bounded <==> b.size != 0)
  }

  /** A mapping covers whole pages inside its BAR. */
  predicate MappingOk(bars: Registry<Bar>, m: Mapping) {
    && Live(bars, m.bar)
    && var b := bars[m.bar].value;
       && m.brid == b.rid && m.owner == b.owner && 0 < m.mapped <= m.pages
       && b.base <= m.base && m.base + m.pages * PAGE <= b.base + b.size
  }

  predicate BufferOk(s: Registry<Assignment>, b: Buffer) {
    && ParentOk(s, b.parent, b.prid, b.owner)
    && b.base != 0 && 0 < b.pages <= BUFFER_MAX_PAGES && b.mapped <= b.pages
    && (b.held <==> b.state != Ready)
    && (b.state != Ready ==> b.mapped == 0 && !b.kernel)
    && (b.state == DeviceActive ==> At(s, b.parent).state == Assigned || At(s, b.parent).state == Quarantined)
    && (b.state == BufferQuarantined ==> At(s, b.parent).state == Quarantined)
  }

  /** A submission names a buffer of its own assignment that is in the matching
      state, and its physical span lies inside that buffer. */
  predicate SubmissionOk(s: Registry<Assignment>, buffers: Registry<Buffer>, x: Submission) {
    && ParentOk(s, x.parent, x.prid, x.owner)
    && Live(buffers, x.buffer)
    && var b := buffers[x.buffer].value;
       && b.parent == x.parent && b.owner == x.owner && b.rid == x.brid
       && x.size != 0 && b.base * PAGE <= x.base && x.base + x.size <= (b.base + b.pages) * PAGE
       && (x.state == Active <==> b.state == DeviceActive)
       && (x.state == SubmissionQuarantined <==> b.state == BufferQuarantined)
  }

  ghost predicate IrqOk(s: Registry<Assignment>, q: Irq) {
    ParentOk(s, q.parent, q.prid, q.owner) && IrqEvents.Wf(q.events) &&
      (q.held <==> q.events.phase != IrqEvents.Disarmed)
  }

  /** A recovery holds its assignment in quarantine. Once quiesced, no BAR access
      and no interrupt pin is left and no submission is active; once DMA-safe,
      nothing is pinned at all, and a required reset has completed. */
  predicate RecoveryOk(l: Ledger, r: Recovery) {
    && ParentOk(l.assigns, r.parent, r.prid, r.owner)
    && At(l.assigns, r.parent).state == Quarantined
    && (At(l.assigns, r.parent).exposed ==> r.exposed)
    && (r.completed ==> r.attempted)
    && (r.state == Quiesced ==>
          && Sum(l.bars, BarPin(r.parent)) == 0 && Sum(l.irqs, IrqPin(r.parent)) == 0
          && Sum(l.subs, ActiveSub(r.parent)) == 0)
    && (r.state == DmaSafe ==>
          && At(l.assigns, r.parent).pins == 0 && !At(l.assigns, r.parent).gate
          && (ResetRequired(r) ==> r.completed))
  }

  predicate Shape(l: Ledger) {
    && |l.assigns| == ASSIGNMENTS && |l.bars| == BARS && |l.maps| == MAPPINGS && |l.buffers| == BUFFERS
    && |l.subs| == SUBMISSIONS && |l.irqs| == IRQS && |l.recs| == RECOVERIES
  }

  ghost predicate AssignmentsOk(s: Registry<Assignment>) {
    && (forall a: nat :: Live(s, a) ==> AssignmentValid(s[a].value))
    && (forall a: nat, b: nat :: Live(s, a) && Live(s, b) && a < b ==> s[a].value.device != s[b].value.device)
  }

  ghost predicate BarsOk(l: Ledger) {
    && (forall i: nat :: Live(l.bars, i) ==> BarOk(l.assigns, l.bars[i].value))
    && (forall i :: 0 <= i < BARS ==>
          Sum(l.maps, MappingOn(i)) == if Live(l.bars, i) then l.bars[i].value.pins else 0)
    && (forall m: nat :: Live(l.maps, m) ==> MappingOk(l.bars, l.maps[m].value))
  }

  ghost predicate BuffersOk(l: Ledger) {
    && (forall j: nat :: Live(l.buffers, j) ==> BufferOk(l.assigns, l.buffers[j].value))
    && (forall j :: 0 <= j < BUFFERS ==>
          Sum(l.subs, SubOn(j)) == if Live(l.buffers, j) && l.buffers[j].value.state != Ready then 1 else 0)
    && (forall k: nat :: Live(l.subs, k) ==> SubmissionOk(l.assigns, l.buffers, l.subs[k].value))
  }

  /** The frames of registered buffers are allocated and belong to one buffer each. */
  ghost predicate FramesOk(buffers: Registry<Buffer>, free: set<nat>) {
    && (forall j: nat :: Live(buffers, j) ==> SpanOf(buffers[j].value) !! free)
    && (forall j: nat, j': nat :: Live(buffers, j) && Live(buffers, j') && j < j' ==>
          SpanOf(buffers[j].value) !! SpanOf(buffers[j'].value))
  }

  ghost predicate Inv(l: Ledger) {
    && Shape(l)
    && AssignmentsOk(l.assigns)
    && (forall a :: 0 <= a < ASSIGNMENTS ==> Balanced(l, a))
    && BarsOk(l)
    && BuffersOk(l)
    && (forall q: nat :: Live(l.irqs, q) ==> IrqOk(l.assigns, l.irqs[q].value))
    && (forall r: nat :: Live(l.recs, r) ==> RecoveryOk(l, l.recs[r].value))
    && FramesOk(l.buffers, l.free)
  }

  // -------------------------------------------------- how updates move the sums

  lemma MappingUpdate(s: Registry<Mapping>, m: nat, x: Option<Mapping>)
    requires m < |s|
    ensures forall i :: Sum(s[m := x], MappingOn(i)) + MappingOn(i)(s[m]) == Sum(s, MappingOn(i)) + MappingOn(i)(x)
  {
    forall i: nat { SumUpdate(s, m, x, MappingOn(i)); }
  }

  lemma SubUpdate(s: Registry<Submission>, k: nat, x: Option<Submission>)
    requires k < |s|
    ensures forall a :: Sum(s[k := x], SubOf(a)) + SubOf(a)(s[k]) == Sum(s, SubOf(a)) + SubOf(a)(x)
    ensures forall j :: Sum(s[k := x], SubOn(j)) + SubOn(j)(s[k]) == Sum(s, SubOn(j)) + SubOn(j)(x)
    ensures forall a :: Sum(s[k := x], ActiveSub(a)) + ActiveSub(a)(s[k]) == Sum(s, ActiveSub(a)) + ActiveSub(a)(x)
  {
    forall a: nat { SumUpdate(s, k, x, SubOf(a)); }
    forall a: nat { SumUpdate(s, k, x, SubOn(a)); }
    forall a: nat { SumUpdate(s, k, x, ActiveSub(a)); }
  }

  // ---------------------------------------------- validity checks that always pass

  lemma BarAlwaysValid(l: Ledger, i: nat)
    requires Inv(l) && Live(l.bars, i)
    ensures BarValid(l, i)
    ensures l.bars[i].value.pins <= l.assigns[l.bars[i].value.parent].value.pins
    ensures l.assigns[l.bars[i].value.parent].value.kids > 0
  {
    var a := l.bars[i].value.parent;
    SumAtLeast(l.bars, i, BarPin(a));
    SumAtLeast(l.bars, i, BarKid(a));
    assert Balanced(l, a);
  }

  lemma MappingAlwaysValid(l: Ledger, m: nat)
    requires Inv(l) && Live(l.maps, m)
    ensures MappingValid(l, m)
    ensures l.bars[l.maps[m].value.bar].value.pins > 0
  {
    var i := l.maps[m].value.bar;
    BarAlwaysValid(l, i);
    SumAtLeast(l.maps, m, MappingOn(i));
  }

  /** The exception: a buffer is invalid when a failed removal left part of its
      mapping, or when it belongs to the kernel process. */
  predicate Intact(b: Buffer) {
    !b.kernel && (b.mapped == 0 || b.mapped == b.pages)
  }

  lemma BufferValidIffIntact(l: Ledger, j: nat)
    requires Inv(l) && Live(l.buffers, j)
    ensures BufferValid(l, j) <==> Intact(l.buffers[j].value)
    ensures l.buffers[j].value.held ==> l.assigns[l.buffers[j].value.parent].value.pins > 0
    ensures l.assigns[l.buffers[j].value.parent].value.kids > 0
  {
    var a := l.buffers[j].value.parent;
    SumAtLeast(l.buffers, j, BufferPin(a));
    SumAtLeast(l.buffers, j, BufferKid(a));
    assert Balanced(l, a);
  }

  lemma SubmissionAlwaysValid(l: Ledger, k: nat)
    requires Inv(l) && Live(l.subs, k)
    ensures SubmissionValid(l, k)
    ensures BufferValid(l, l.subs[k].value.buffer) && l.buffers[l.subs[k].value.buffer].value.state != Ready
    ensures l.assigns[l.subs[k].value.parent].value.gate && BarPins(l, l.subs[k].value.parent) == 0
  {
    var a := l.subs[k].value.parent;
    SumAtLeast(l.subs, k, SubOf(a));
    assert Balanced(l, a);
    BufferValidIffIntact(l, l.subs[k].value.buffer);
  }

  lemma IrqAlwaysValid(l: Ledger, q: nat)
    requires Inv(l) && Live(l.irqs, q)
    ensures IrqValid(l, q)
    ensures l.irqs[q].value.held ==> l.assigns[l.irqs[q].value.parent].value.pins > 0
    ensures l.assigns[l.irqs[q].value.parent].value.kids > 0
  {
    var a := l.irqs[q].value.parent;
    SumAtLeast(l.irqs, q, IrqPin(a));
    SumAtLeast(l.irqs, q, IrqKid(a));
    assert Balanced(l, a);
  }

  lemma RecoveryAlwaysValid(l: Ledger, r: nat)
    requires Inv(l) && Live(l.recs, r)
    ensures RecoveryValid(l, r)
  {
  }
}
