/** How each kind of update, to one or two registries at a time, keeps the ledger invariant. */
module PciEdits {
  import opened Slots
  import opened PciLedger
  import opened PciRecovery
  import opened PciInvariant
  import IrqEvents

  // -------------------------------------------------------------- transitions

  /** How one assignment may change in a step that is not part of a recovery: a
      quarantined one stays so, with its owner, and takes no new pin or gate;
      exposure persists; and only an unexposed quiescing one becomes available. */
  predicate Transition(x: Assignment, x': Assignment) {
    && (x.exposed ==> x'.exposed)
    && (x.state == Quarantined ==>
          x'.state == Quarantined && x'.owner == x.owner && x'.rid == x.rid && x'.pins <= x.pins &&
            (x'.gate ==> x.gate))
    && (x.state != Available && x'.state == Available ==> x.state == Quiescing && !x.exposed)
  }

  ghost predicate Tame(l: Ledger, l': Ledger) {
    && l'.recs == l.recs && l'.serial == l.serial && l'.flights == l.flights
    && (forall c :: 0 <= c < ASSIGNMENTS ==> Transition(At(l.assigns, c), At(l'.assigns, c)))
  }

  lemma TameChains(l: Ledger, l1: Ledger, l2: Ledger)
    requires Tame(l, l1) && Tame(l1, l2)
    requires forall c :: 0 <= c < ASSIGNMENTS ==> At(l2.assigns, c).state == At(l1.assigns, c).state
    ensures Tame(l, l2)
  {
  }

  // ------------------------------------------------------------ edit patterns

  /** Only the counters and the gate of assignment `a` may change. */
  ghost predicate CountersOnly(l: Ledger, l': Ledger, a: nat) {
    && a < ASSIGNMENTS && Live(l.assigns, a)
    && Live(l'.assigns, a)
    && l'.assigns == l.assigns[a := l'.assigns[a]]
    && var x, x' := l.assigns[a].value, l'.assigns[a].value;
       && x' == x.(pins := x'.pins, kids := x'.kids, gate := x'.gate) && AssignmentValid(x')
       && (x'.pins > x.pins || (x'.gate && !x.gate) ==> x.state == Assigned)
  }

  lemma FacesKeepParents(l: Ledger, l': Ledger, a: nat)
    requires AssignmentsOk(l.assigns) && CountersOnly(l, l', a)
    ensures AssignmentsOk(l'.assigns)
    ensures l'.recs == l.recs && l'.serial == l.serial && l'.flights == l.flights ==> Tame(l, l')
    ensures forall c :: 0 <= c < ASSIGNMENTS && c != a ==> At(l'.assigns, c) == At(l.assigns, c)
    ensures forall c, prid, owner :: ParentOk(l.assigns, c, prid, owner) ==> ParentOk(l'.assigns, c, prid, owner)
    ensures forall c :: 0 <= c < ASSIGNMENTS ==>
      At(l'.assigns, c).state == At(l.assigns, c).state && At(l'.assigns, c).exposed == At(l.assigns, c).exposed
  {
  }

  function PinsOf(b: Option<Bar>): nat {
    if b.Some? then b.value.pins else 0
  }

  /** Slot `i` of the BARs and slot `m` of the mappings change together, and
      assignment `a` with them. */
  ghost predicate BarEdit(l: Ledger, l': Ledger, a: nat, i: nat, m: nat) {
    && CountersOnly(l, l', a) && Shape(l) && Shape(l')
    && i < BARS && m < MAPPINGS
    && l' == l.(assigns := l'.assigns, bars := l'.bars, maps := l'.maps, nextRid := l'.nextRid)
    && l'.bars == l.bars[i := l'.bars[i]] && l'.maps == l.maps[m := l'.maps[m]]
    && var b, b' := l.bars[i], l'.bars[i];
       var x, x' := l.assigns[a].value, l'.assigns[a].value;
       && (b.Some? ==> b.value.parent == a)
       && (b'.Some? ==> b'.value.parent == a && BarOk(l.assigns, b'.value))
       && (b.Some? && b'.Some? ==> b'.value == b.value.(pins := b'.value.pins, refs := b'.value.refs))
       && x'.gate == x.gate
       && x'.pins + PinsOf(b) == x.pins + PinsOf(b')
       && x'.kids + (if b.Some? then 1 else 0) == x.kids + (if b'.Some? then 1 else 0)
       && (PinsOf(b') > PinsOf(b) ==> !x.gate && x.state == Assigned)
       && (l.maps[m].Some? && l.maps[m] != l'.maps[m] ==> l.maps[m].value.bar == i)
       && (l'.maps[m].Some? && l.maps[m] != l'.maps[m] ==>
         l'.maps[m].value.bar == i && MappingOk(l'.bars, l'.maps[m].value))
       && PinsOf(b') + MappingOn(i)(l.maps[m]) == PinsOf(b) + MappingOn(i)(l'.maps[m])
  }

  lemma BarEditBalanced(l: Ledger, l': Ledger, a: nat, i: nat, m: nat, c: nat)
    requires BarEdit(l, l', a, i, m) && c < ASSIGNMENTS && Balanced(l, c)
    ensures Balanced(l', c)
    ensures At(l.assigns, c).state != Assigned ==> Sum(l'.bars, BarPin(c)) <= Sum(l.bars, BarPin(c))
  {
    var b, b' := l.bars[i], l'.bars[i];
    SumUpdate(l.bars, i, b', BarPin(c));
    SumUpdate(l.bars, i, b', BarKid(c));
    if c != a {
      assert At(l'.assigns, c) == At(l.assigns, c);
      assert BarPin(c)(b) == BarPin(c)(b') == 0 && BarKid(c)(b) == BarKid(c)(b') == 0;
    } else {
      assert BarPin(c)(b) == PinsOf(b) && BarPin(c)(b') == PinsOf(b');
    }
  }

  lemma BarEditBars(l: Ledger, l': Ledger, a: nat, i: nat, m: nat)
    requires BarsOk(l) && BarEdit(l, l', a, i, m)
    requires forall c, prid, owner :: ParentOk(l.assigns, c, prid, owner) ==> ParentOk(l'.assigns, c, prid, owner)
    ensures BarsOk(l')
  {
    MappingUpdate(l.maps, m, l'.maps[m]);
    forall n: nat | Live(l'.maps, n) ensures MappingOk(l'.bars, l'.maps[n].value) {
      if l'.maps[n] == l.maps[n] {
        SumAtLeast(l'.maps, n, MappingOn(i));
      }
    }
  }

  lemma BarEditRecovery(l: Ledger, l': Ledger, a: nat, i: nat, m: nat, r: Recovery)
    requires BarEdit(l, l', a, i, m) && RecoveryOk(l, r) && Balanced(l, r.parent)
    ensures RecoveryOk(l', r)
  {
    BarEditBalanced(l, l', a, i, m, r.parent);
  }

  lemma BarEditKeepsInv(l: Ledger, l': Ledger, a: nat, i: nat, m: nat)
    requires Inv(l) && BarEdit(l, l', a, i, m)
    ensures Inv(l') && Tame(l, l')
  {
    hide BarsOk, FramesOk;
    FacesKeepParents(l, l', a);
    BarEditBars(l, l', a, i, m);
    forall c | 0 <= c < ASSIGNMENTS ensures Balanced(l', c) {
      BarEditBalanced(l, l', a, i, m, c);
    }
    forall r: nat | Live(l'.recs, r) ensures RecoveryOk(l', l'.recs[r].value) {
      BarEditRecovery(l, l', a, i, m, l.recs[r].value);
    }
  }

  // -------------------------------------------------------------- DMA buffers

  /** Slot `j` of the buffers changes while no submission uses it. */
  ghost predicate BufferEdit(l: Ledger, l': Ledger, a: nat, j: nat) {
    && CountersOnly(l, l', a) && Shape(l) && Shape(l')
    && j < BUFFERS
    && l' == l.(assigns := l'.assigns, buffers := l'.buffers, nextRid := l'.nextRid, free := l'.free,
      zeroed := l'.zeroed)
    && l'.buffers == l.buffers[j := l'.buffers[j]]
    && var b, b' := l.buffers[j], l'.buffers[j];
       var x, x' := l.assigns[a].value, l'.assigns[a].value;
       && (b.Some? ==> b.value.parent == a && b.value.state == Ready)
       && (b'.Some? ==> b'.value.parent == a && b'.value.state == Ready && BufferOk(l.assigns, b'.value))
       && x'.gate == x.gate && x'.pins == x.pins
       && x'.kids + (if b.Some? then 1 else 0) == x.kids + (if b'.Some? then 1 else 0)
       && (b.Some? && b'.Some? ==>
         l'.free == l.free && b'.value == b.value.(mapped := b'.value.mapped, refs := b'.value.refs))
       && (b.None? && b'.Some? ==> SpanOf(b'.value) <= l.free && l'.free == l.free - SpanOf(b'.value))
       && (b.Some? && b'.None? ==> l'.free == l.free + SpanOf(b.value))
       && (b.None? && b'.None? ==> l'.free == l.free)
  }

  lemma BufferEditBalanced(l: Ledger, l': Ledger, a: nat, j: nat, c: nat)
    requires BufferEdit(l, l', a, j) && c < ASSIGNMENTS && Balanced(l, c)
    requires l.buffers[j].Some? ==> BufferOk(l.assigns, l.buffers[j].value)
    ensures Balanced(l', c)
  {
    var b, b' := l.buffers[j], l'.buffers[j];
    SumUpdate(l.buffers, j, b', BufferPin(c));
    SumUpdate(l.buffers, j, b', BufferKid(c));
    if c != a {
      assert At(l'.assigns, c) == At(l.assigns, c);
    }
  }

  lemma BufferEditFrames(l: Ledger, l': Ledger, a: nat, j: nat)
    requires BufferEdit(l, l', a, j) && FramesOk(l.buffers, l.free)
    ensures FramesOk(l'.buffers, l'.free)
  {
  }

  lemma BufferEditBuffers(l: Ledger, l': Ledger, a: nat, j: nat)
    requires BuffersOk(l) && BufferEdit(l, l', a, j)
    requires forall c, prid, owner :: ParentOk(l.assigns, c, prid, owner) ==> ParentOk(l'.assigns, c, prid, owner)
    requires forall c :: 0 <= c < ASSIGNMENTS ==> At(l'.assigns, c).state == At(l.assigns, c).state
    ensures BuffersOk(l')
  {
    forall k: nat | Live(l'.subs, k) ensures SubmissionOk(l'.assigns, l'.buffers, l'.subs[k].value) {
      SumAtLeast(l.subs, k, SubOn(l.subs[k].value.buffer));
    }
  }

  lemma BufferEditKeepsInv(l: Ledger, l': Ledger, a: nat, j: nat)
    requires Inv(l) && BufferEdit(l, l', a, j)
    ensures Inv(l') && Tame(l, l')
  {
    FacesKeepParents(l, l', a);
    BufferEditBuffers(l, l', a, j);
    BufferEditFrames(l, l', a, j);
    forall c | 0 <= c < ASSIGNMENTS ensures Balanced(l', c) {
      BufferEditBalanced(l, l', a, j, c);
    }
    forall r: nat | Live(l'.recs, r) ensures RecoveryOk(l', l'.recs[r].value) {
      assert RecoveryOk(l, l.recs[r].value);
    }
  }

  /** Slot `k` of the submissions and the buffer `j` it uses change together. */
  ghost predicate SubmissionEdit(l: Ledger, l': Ledger, a: nat, j: nat, k: nat) {
    && CountersOnly(l, l', a) && Shape(l) && Shape(l')
    && Live(l.buffers, j) && Live(l'.buffers, j) && k < SUBMISSIONS
    && l' == l.(assigns := l'.assigns, buffers := l'.buffers, subs := l'.subs, zeroed := l'.zeroed)
    && l'.buffers == l.buffers[j := l'.buffers[j]] && l'.subs == l.subs[k := l'.subs[k]]
    && var b, b' := l.buffers[j].value, l'.buffers[j].value;
       var s, s' := l.subs[k], l'.subs[k];
       var x, x' := l.assigns[a].value, l'.assigns[a].value;
       && b.parent == a && b' == b.(state := b'.state, held := b'.held, refs := b'.refs) && BufferOk(l.assigns, b')
       && (s.Some? ==> s.value.buffer == j && s.value.parent == a)
       && (s'.Some? ==> s'.value.buffer == j && s'.value.parent == a && SubmissionOk(l.assigns, l'.buffers, s'.value))
       && (s.Some? <==> b.state != Ready) && (s'.Some? <==> b'.state != Ready)
       && x.gate == s.Some? && x'.gate == s'.Some?
       && (x'.gate && !x.gate ==> Sum(l.bars, BarPin(a)) == 0)
       && x'.kids == x.kids
       && x'.pins + (if b.state != Ready then 1 else 0) == x.pins + (if b'.state != Ready then 1 else 0)
       && (ActiveSub(a)(s') > ActiveSub(a)(s) || x'.pins > x.pins ==> x.state == Assigned)
  }

  lemma SubmissionEditBalanced(l: Ledger, l': Ledger, a: nat, j: nat, k: nat, c: nat)
    requires SubmissionEdit(l, l', a, j, k) && c < ASSIGNMENTS && Balanced(l, c)
    requires BufferOk(l.assigns, l.buffers[j].value)
    ensures Balanced(l', c)
    ensures At(l.assigns, c).state != Assigned ==> Sum(l'.subs, ActiveSub(c)) <= Sum(l.subs, ActiveSub(c))
  {
    var b, b' := l.buffers[j], l'.buffers[j];
    SumUpdate(l.buffers, j, b', BufferPin(c));
    SumUpdate(l.buffers, j, b', BufferKid(c));
    SumUpdate(l.subs, k, l'.subs[k], SubOf(c));
    SumUpdate(l.subs, k, l'.subs[k], ActiveSub(c));
    if c != a {
      assert At(l'.assigns, c) == At(l.assigns, c);
    } else {
      assert BufferKid(c)(b) == BufferKid(c)(b') == 1;
    }
  }

  lemma SubmissionEditBuffers(l: Ledger, l': Ledger, a: nat, j: nat, k: nat)
    requires BuffersOk(l) && SubmissionEdit(l, l', a, j, k)
    requires forall c, prid, owner :: ParentOk(l.assigns, c, prid, owner) ==> ParentOk(l'.assigns, c, prid, owner)
    requires forall c :: 0 <= c < ASSIGNMENTS ==> At(l'.assigns, c).state == At(l.assigns, c).state
    ensures BuffersOk(l')
  {
    SubUpdate(l.subs, k, l'.subs[k]);
    forall n: nat | Live(l'.subs, n) ensures SubmissionOk(l'.assigns, l'.buffers, l'.subs[n].value) {
      if n != k {
        SumAtLeast(l.subs, n, SubOn(j));
        if l.subs[k].Some? {
          if n < k { SumPair(l.subs, n, k, SubOn(j)); } else { SumPair(l.subs, k, n, SubOn(j)); }
        }
      }
    }
  }

  lemma SubmissionEditRecovery(l: Ledger, l': Ledger, a: nat, j: nat, k: nat, r: Recovery)
    requires SubmissionEdit(l, l', a, j, k) && RecoveryOk(l, r) && Balanced(l, r.parent)
    requires BufferOk(l.assigns, l.buffers[j].value)
    ensures RecoveryOk(l', r)
  {
    SubmissionEditBalanced(l, l', a, j, k, r.parent);
  }

  lemma SubmissionEditKeepsInv(l: Ledger, l': Ledger, a: nat, j: nat, k: nat)
    requires Inv(l) && SubmissionEdit(l, l', a, j, k)
    ensures Inv(l') && Tame(l, l')
  {
    FacesKeepParents(l, l', a);
    SubmissionEditBuffers(l, l', a, j, k);
    forall c | 0 <= c < ASSIGNMENTS ensures Balanced(l', c) {
      SubmissionEditBalanced(l, l', a, j, k, c);
    }
    forall r: nat | Live(l'.recs, r) ensures RecoveryOk(l', l'.recs[r].value) {
      SubmissionEditRecovery(l, l', a, j, k, l.recs[r].value);
    }
  }

  // ------------------------------------------------------------- interrupts

  ghost predicate IrqEdit(l: Ledger, l': Ledger, a: nat, q: nat) {
    && CountersOnly(l, l', a) && Shape(l) && Shape(l')
    && q < IRQS
    && l' == l.(assigns := l'.assigns, irqs := l'.irqs, nextRid := l'.nextRid)
    && l'.irqs == l.irqs[q := l'.irqs[q]]
    && var e, e' := l.irqs[q], l'.irqs[q];
       var x, x' := l.assigns[a].value, l'.assigns[a].value;
       && (e.Some? ==> e.value.parent == a)
       && (e'.Some? ==> e'.value.parent == a && IrqOk(l.assigns, e'.value))
       && x'.gate == x.gate
       && x'.pins + IrqPin(a)(e) == x.pins + IrqPin(a)(e')
       && x'.kids + IrqKid(a)(e) == x.kids + IrqKid(a)(e')
       && (IrqPin(a)(e') > IrqPin(a)(e) ==> x.state == Assigned)
  }

  lemma IrqEditBalanced(l: Ledger, l': Ledger, a: nat, q: nat, c: nat)
    requires IrqEdit(l, l', a, q) && c < ASSIGNMENTS && Balanced(l, c)
    ensures Balanced(l', c)
    ensures At(l.assigns, c).state != Assigned ==> Sum(l'.irqs, IrqPin(c)) <= Sum(l.irqs, IrqPin(c))
  {
    SumUpdate(l.irqs, q, l'.irqs[q], IrqPin(c));
    SumUpdate(l.irqs, q, l'.irqs[q], IrqKid(c));
    if c != a {
      assert At(l'.assigns, c) == At(l.assigns, c);
    }
  }

  lemma IrqEditRecovery(l: Ledger, l': Ledger, a: nat, q: nat, r: Recovery)
    requires IrqEdit(l, l', a, q) && RecoveryOk(l, r) && Balanced(l, r.parent)
    ensures RecoveryOk(l', r)
  {
    IrqEditBalanced(l, l', a, q, r.parent);
  }

  lemma IrqEditKeepsInv(l: Ledger, l': Ledger, a: nat, q: nat)
    requires Inv(l) && IrqEdit(l, l', a, q)
    ensures Inv(l') && Tame(l, l')
  {
    FacesKeepParents(l, l', a);
    forall c | 0 <= c < ASSIGNMENTS ensures Balanced(l', c) {
      IrqEditBalanced(l, l', a, q, c);
    }
    forall r: nat | Live(l'.recs, r) ensures RecoveryOk(l', l'.recs[r].value) {
      IrqEditRecovery(l, l', a, q, l.recs[r].value);
    }
  }

  // ------------------------------------------------------- assignments alone

  /** Slot `a` of the assignments changes and nothing else. */
  ghost predicate AssignmentEdit(l: Ledger, l': Ledger, a: nat) {
    && a < ASSIGNMENTS && Shape(l) && Shape(l')
    && l' == l.(assigns := l'.assigns, nextRid := l'.nextRid)
    && l'.assigns == l.assigns[a := l'.assigns[a]]
    && (l'.assigns[a].Some? ==> AssignmentValid(l'.assigns[a].value))
    && (l'.assigns[a].Some? ==>
          forall b: nat :: Live(l.assigns, b) && b != a ==> l.assigns[b].value.device != l'.assigns[a].value.device)
    && var x, x' := At(l.assigns, a), At(l'.assigns, a);
       && x'.pins == x.pins && x'.kids == x.kids && x'.gate == x.gate
       && (x.kids > 0 ==> x'.owner == x.owner && x'.rid == x.rid)
       && (x.gate ==> x'.state == x.state || x'.state == Quarantined)
       && (Sum(l.recs, RecoveryOf(a)) > 0 ==> x' == x.(refs := x'.refs))
  }

  lemma AssignmentEditBuffer(l: Ledger, l': Ledger, a: nat, j: nat)
    requires AssignmentEdit(l, l', a) && BuffersOk(l) && Live(l.buffers, j) && Balanced(l, a)
    ensures BufferOk(l'.assigns, l.buffers[j].value)
  {
    var b := l.buffers[j].value;
    if b.parent == a {
      SumAtLeast(l.buffers, j, BufferKid(a));
      if b.state != Ready {
        var k := SumPositive(l.subs, SubOn(j));
        SumAtLeast(l.subs, k, SubOf(a));
      }
    }
  }

  lemma AssignmentEditBuffers(l: Ledger, l': Ledger, a: nat)
    requires AssignmentEdit(l, l', a) && BuffersOk(l) && Balanced(l, a)
    ensures BuffersOk(l')
  {
    forall j: nat | Live(l'.buffers, j) ensures BufferOk(l'.assigns, l'.buffers[j].value) {
      AssignmentEditBuffer(l, l', a, j);
    }
    forall k: nat | Live(l'.subs, k) ensures SubmissionOk(l'.assigns, l'.buffers, l'.subs[k].value) {
      AssignmentEditBuffer(l, l', a, l.subs[k].value.buffer);
    }
  }

  lemma AssignmentEditBars(l: Ledger, l': Ledger, a: nat)
    requires AssignmentEdit(l, l', a) && BarsOk(l) && Balanced(l, a)
    ensures BarsOk(l')
  {
    forall i: nat | Live(l'.bars, i) ensures BarOk(l'.assigns, l'.bars[i].value) {
      SumAtLeast(l.bars, i, BarKid(a));
    }
  }

  lemma AssignmentEditIrq(l: Ledger, l': Ledger, a: nat, q: nat)
    requires AssignmentEdit(l, l', a) && Live(l.irqs, q) && IrqOk(l.assigns, l.irqs[q].value) && Balanced(l, a)
    ensures IrqOk(l'.assigns, l'.irqs[q].value)
  {
    SumAtLeast(l.irqs, q, IrqKid(a));
  }

  lemma AssignmentEditRecovery(l: Ledger, l': Ledger, a: nat, r: nat)
    requires AssignmentEdit(l, l', a) && Live(l.recs, r) && RecoveryOk(l, l.recs[r].value)
    ensures RecoveryOk(l', l'.recs[r].value)
  {
    SumAtLeast(l.recs, r, RecoveryOf(a));
  }

  lemma AssignmentEditKeepsInv(l: Ledger, l': Ledger, a: nat)
    requires Inv(l) && AssignmentEdit(l, l', a)
    ensures Inv(l')
  {
    hide BarsOk, BuffersOk, FramesOk, IrqOk, RecoveryOk;
    assert Balanced(l, a);
    AssignmentEditBars(l, l', a);
    AssignmentEditBuffers(l, l', a);
    forall c | 0 <= c < ASSIGNMENTS ensures Balanced(l', c) {
      assert Balanced(l, c);
    }
    forall q: nat | Live(l'.irqs, q) ensures IrqOk(l'.assigns, l'.irqs[q].value) {
      AssignmentEditIrq(l, l', a, q);
    }
    forall r: nat | Live(l'.recs, r) ensures RecoveryOk(l', l'.recs[r].value) {
      AssignmentEditRecovery(l, l', a, r);
    }
  }

  // -------------------------------------------------------- recoveries alone

  ghost predicate RecoveryEdit(l: Ledger, l': Ledger, r: nat) {
    && r < RECOVERIES && Shape(l) && Shape(l')
    && l' == l.(recs := l'.recs, serial := l'.serial, flights := l'.flights)
    && l'.recs == l.recs[r := l'.recs[r]]
    && (l'.recs[r].Some? ==> RecoveryOk(l, l'.recs[r].value))
    && (l'.recs[r].Some? && l.recs[r].Some? ==> l'.recs[r].value.parent == l.recs[r].value.parent)
    && (l'.recs[r].Some? && l.recs[r].None? ==> Sum(l.recs, RecoveryOf(l'.recs[r].value.parent)) == 0)
  }

  lemma RecoveryEditKeepsInv(l: Ledger, l': Ledger, r: nat)
    requires Inv(l) && RecoveryEdit(l, l', r)
    ensures Inv(l')
  {
    forall c | 0 <= c < ASSIGNMENTS ensures Balanced(l', c) {
      assert Balanced(l, c);
      SumUpdate(l.recs, r, l'.recs[r], RecoveryOf(c));
    }
    forall n: nat | Live(l'.recs, n) ensures RecoveryOk(l', l'.recs[n].value) {
      if n != r {
        assert RecoveryOk(l, l.recs[n].value);
      }
    }
  }
}
