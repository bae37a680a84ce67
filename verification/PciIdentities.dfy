/**
 What a record was made for never changes while it is registered, and no step
 but the allocator's own loses or invents a frame.
 */
module PciIdentities {
  import opened FrameSpans
  import opened Slots
  import IrqEvents
  import opened PciLedger
  import opened PciRecovery
  import opened PciInvariant
  import opened PciEdits
  import opened PciOperations
  import opened PciEffects
  import opened PciSweeps
  import opened PciRecoverySafety
  import opened PciRuns

  // -------------------------------------------------------------- what stays

  predicate SameAssignment(x: Assignment, x': Assignment) {
    x'.device == x.device && x'.rid == x.rid
  }

  predicate SameBar(b: Bar, b': Bar) {
    b' == b.(pins := b'.pins, refs := b'.refs)
  }

  predicate SameMapping(m: Mapping, m': Mapping) {
    m' == m.(mapped := m'.mapped)
  }

  predicate SameBuffer(b: Buffer, b': Buffer) {
    b' == b.(refs := b'.refs, mapped := b'.mapped, state := b'.state, held := b'.held)
  }

  predicate SameSubmission(s: Submission, s': Submission) {
    s' == s.(state := s'.state)
  }

  predicate SameIrq(x: Irq, x': Irq) {
    x' == x.(refs := x'.refs, held := x'.held, events := x'.events)
  }

  /** Every record that is in its slot before and after is the same object. */
  ghost predicate Identities(l: Ledger, l': Ledger) {
    && (forall a: nat :: Live(l.assigns, a) && Live(l'.assigns, a) ==>
          SameAssignment(l.assigns[a].value, l'.assigns[a].value))
    && (forall i: nat :: Live(l.bars, i) && Live(l'.bars, i) ==> SameBar(l.bars[i].value, l'.bars[i].value))
    && (forall m: nat :: Live(l.maps, m) && Live(l'.maps, m) ==> SameMapping(l.maps[m].value, l'.maps[m].value))
    && (forall j: nat :: Live(l.buffers, j) && Live(l'.buffers, j) ==>
          SameBuffer(l.buffers[j].value, l'.buffers[j].value))
    && (forall k: nat :: Live(l.subs, k) && Live(l'.subs, k) ==> SameSubmission(l.subs[k].value, l'.subs[k].value))
    && (forall q: nat :: Live(l.irqs, q) && Live(l'.irqs, q) ==> SameIrq(l.irqs[q].value, l'.irqs[q].value))
  }

  /** A step that makes no object and touches no frame. */
  ghost predicate Shrinks(l: Ledger, l': Ledger) {
    && Identities(l, l')
    && (forall a: nat :: Live(l'.assigns, a) ==> Live(l.assigns, a))
    && (forall i: nat :: Live(l'.bars, i) ==> Live(l.bars, i))
    && (forall m: nat :: Live(l'.maps, m) ==> Live(l.maps, m))
    && (forall j: nat :: Live(l'.buffers, j) <==> Live(l.buffers, j))
    && (forall k: nat :: Live(l'.subs, k) ==> Live(l.subs, k))
    && (forall q: nat :: Live(l'.irqs, q) ==> Live(l.irqs, q))
    && l'.free == l.free
  }

  lemma ShrinksChains(l: Ledger, l1: Ledger, l2: Ledger)
    requires Shrinks(l, l1) && Shrinks(l1, l2)
    ensures Shrinks(l, l2)
  {
  }

  /** The frames the allocator and the buffers have between them. */
  ghost function Frames(l: Ledger): set<nat> {
    l.free + BufferFrames(l.buffers)
  }

  lemma ShrinksFrames(l: Ledger, l': Ledger)
    requires Shrinks(l, l')
    ensures Frames(l') == Frames(l)
  {
    forall f ensures f in BufferFrames(l'.buffers) <==> f in BufferFrames(l.buffers) {
      if f in BufferFrames(l'.buffers) {
        var j: nat :| Live(l'.buffers, j) && f in SpanOf(l'.buffers[j].value);
        assert Live(l.buffers, j) && f in SpanOf(l.buffers[j].value);
      }
      if f in BufferFrames(l.buffers) {
        var j: nat :| Live(l.buffers, j) && f in SpanOf(l.buffers[j].value);
        assert Live(l'.buffers, j) && f in SpanOf(l'.buffers[j].value);
      }
    }
    assert BufferFrames(l'.buffers) == BufferFrames(l.buffers);
  }

  // ---------------------------------------------------------- single operations

  /** The record of one assignment changes, without becoming another device's. */
  lemma PutShrinks(l: Ledger, a: nat, x: Assignment)
    requires Live(l.assigns, a) && SameAssignment(l.assigns[a].value, x)
    ensures Shrinks(l, Put(l, a, x))
  {
  }

  lemma SelfShrinks(l: Ledger)
    ensures Shrinks(l, l)
  {
  }

  /** Pins, the gate and the state are not part of an assignment's identity. */
  lemma CountersShrink(l: Ledger, a: nat, owner: nat)
    ensures ChildRelease(l, a, owner).Some? ==> Shrinks(l, ChildRelease(l, a, owner).value)
    ensures AccessAcquire(l, a, owner).Some? ==> Shrinks(l, AccessAcquire(l, a, owner).value)
    ensures AccessRelease(l, a, owner).Some? ==> Shrinks(l, AccessRelease(l, a, owner).value)
    ensures GateRelease(l, a, owner).Some? ==> Shrinks(l, GateRelease(l, a, owner).value)
    ensures ForceQuarantine(l, a, owner).Some? ==> Shrinks(l, ForceQuarantine(l, a, owner).value)
    ensures CompleteQuarantine(l, a, owner).Some? ==> Shrinks(l, CompleteQuarantine(l, a, owner).value)
  {
    hide Shrinks;
    if Live(l.assigns, a) {
      var x := l.assigns[a].value;
      PutShrinks(l, a, x.(kids := if x.kids == 0 then 0 else x.kids - 1));
      PutShrinks(l, a, x.(pins := x.pins + 1));
      PutShrinks(l, a, x.(pins := if x.pins == 0 then 0 else x.pins - 1));
      PutShrinks(l, a, x.(gate := false));
      PutShrinks(l, a, x.(state := Quarantined));
      PutShrinks(l, a, x.(owner := 0, exposed := false, state := Available));
    }
  }

  lemma DestroyAssignmentShrinks(l: Ledger, a: nat)
    ensures Shrinks(l, DestroyAssignment(l, a).0)
  {
  }

  lemma AssignmentShrinks(l: Ledger, call: AssignmentCall)
    requires !call.OpCreateAssignment?
    ensures Shrinks(l, AssignmentOp(l, call).0)
  {
    hide Shrinks, AssignmentValid;
    SelfShrinks(l);
    if call.OpDestroyAssignment? {
      DestroyAssignmentShrinks(l, call.a);
    } else if Live(l.assigns, call.a) {
      var l' := AssignmentOp(l, call).0;
      if l' != l {
        PutShrinks(l, call.a, l'.assigns[call.a].value);
      }
    }
  }

  lemma DestroyBarShrinks(l: Ledger, i: nat)
    ensures Shrinks(l, DestroyBar(l, i).0)
  {
    hide Shrinks;
    SelfShrinks(l);
    if BarValid(l, i) {
      var l1 := l.(bars := l.bars[i := None]);
      assert Shrinks(l, l1) by {
        BarGone(l, i);
      }
      CountersShrink(l1, l.bars[i].value.parent, l.bars[i].value.owner);
      if ChildRelease(l1, l.bars[i].value.parent, l.bars[i].value.owner).Some? {
        ShrinksChains(l, l1, ChildRelease(l1, l.bars[i].value.parent, l.bars[i].value.owner).value);
      }
    }
  }

  lemma BarGone(l: Ledger, i: nat)
    requires Live(l.bars, i)
    ensures Shrinks(l, l.(bars := l.bars[i := None]))
  {
  }

  lemma BarPut(l: Ledger, i: nat, b: Bar)
    requires Live(l.bars, i) && SameBar(l.bars[i].value, b)
    ensures Shrinks(l, PutBar(l, i, b))
  {
  }

  lemma BarAccessShrinks(l: Ledger, i: nat, p: Process, handleOk: bool, owner: nat)
    ensures BarAcquire(l, i, p, handleOk).Some? ==> Shrinks(l, BarAcquire(l, i, p, handleOk).value)
    ensures BarRelease(l, i, owner).Some? ==> Shrinks(l, BarRelease(l, i, owner).value)
  {
    hide Shrinks;
    if Live(l.bars, i) {
      var b := l.bars[i].value;
      CountersShrink(l, b.parent, b.owner);
      CountersShrink(l, b.parent, owner);
      if BarAcquire(l, i, p, handleOk).Some? {
        var l1 := AccessAcquire(l, b.parent, b.owner).value;
        BarPut(l1, i, b.(pins := b.pins + 1));
        ShrinksChains(l, l1, PutBar(l1, i, b.(pins := b.pins + 1)));
      }
      if BarRelease(l, i, owner).Some? {
        var l1 := AccessRelease(l, b.parent, owner).value;
        BarPut(l1, i, b.(pins := b.pins - 1));
        ShrinksChains(l, l1, PutBar(l1, i, b.(pins := b.pins - 1)));
      }
    }
  }

  lemma PortShrinks(l: Ledger, i: nat, p: Process, handleOk: bool, offset: nat, width: nat)
    ensures Shrinks(l, PortAccess(l, i, p, handleOk, offset, width).0)
  {
    hide Shrinks, BarAcquire, BarRelease, BarValid, PortWindow;
    SelfShrinks(l);
    BarAccessShrinks(l, i, p, handleOk, p.id);
    if BarAcquire(l, i, p, handleOk).Some? {
      var l1 := BarAcquire(l, i, p, handleOk).value;
      BarAccessShrinks(l1, i, p, handleOk, p.id);
      if BarRelease(l1, i, p.id).Some? {
        ShrinksChains(l, l1, BarRelease(l1, i, p.id).value);
      }
    }
  }

  lemma MappingPut(l: Ledger, m: nat, x: Option<Mapping>)
    requires Live(l.maps, m) && (x.Some? ==> SameMapping(l.maps[m].value, x.value))
    ensures Shrinks(l, l.(maps := l.maps[m := x]))
  {
  }

  lemma UnmapShrinks(l: Ledger, m: nat, unmaps: nat)
    ensures Shrinks(l, UnmapMmio(l, m, unmaps).0)
  {
    hide Shrinks, BarRelease;
    SelfShrinks(l);
    if MappingValid(l, m) {
      var x := l.maps[m].value;
      var l1 := l.(maps := l.maps[m := None]);
      MappingPut(l, m, None);
      BarAccessShrinks(l1, x.bar, Process(0, false, false), false, x.owner);
      if unmaps < x.mapped {
        MappingPut(l, m, Some(x.(mapped := x.mapped - unmaps)));
      } else if BarRelease(l1, x.bar, x.owner).Some? {
        ShrinksChains(l, l1, BarRelease(l1, x.bar, x.owner).value);
      }
    }
  }

  lemma BarShrinks(l: Ledger, call: BarCall)
    requires !call.OpCreateBar? && !call.OpMapMmio?
    ensures Shrinks(l, BarOp(l, call).0)
  {
    hide Shrinks, DestroyBar, PortAccess, UnmapMmio;
    SelfShrinks(l);
    match call
    case OpDestroyBar(i) => DestroyBarShrinks(l, i);
    case OpPortAccess(i, p, handleOk, offset, width) => PortShrinks(l, i, p, handleOk, offset, width);
    case OpUnmapMmio(m, unmaps) => UnmapShrinks(l, m, unmaps);
    case OpBarReferences(i, refs) => if Live(l.bars, i) { BarPut(l, i, l.bars[i].value.(refs := refs)); }
  }

  lemma BufferPut(l: Ledger, j: nat, b: Buffer, zeroed: set<nat>)
    requires Live(l.buffers, j) && SameBuffer(l.buffers[j].value, b)
    ensures Shrinks(l, PutBuffer(l, j, b).(zeroed := zeroed)) && Shrinks(l, PutBuffer(l, j, b))
  {
  }

  lemma BufferShrinks(l: Ledger, call: BufferCall)
    requires call.OpMapBuffer? || call.OpUnmapBuffer? || call.OpForceUnmapBuffer? || call.OpBufferReferences?
    ensures Shrinks(l, BufferOp(l, call).0)
  {
    hide Shrinks, AssignmentValid;
    SelfShrinks(l);
    var l' := BufferOp(l, call).0;
    if l' != l {
      BufferPut(l, call.j, l'.buffers[call.j].value, l'.zeroed);
    }
  }

  lemma WriteShrinks(l: Ledger, frames: set<nat>)
    ensures Shrinks(l, l.(zeroed := l.zeroed - frames))
  {
  }

  lemma SubmissionGone(l: Ledger, k: nat)
    requires Live(l.subs, k)
    ensures Shrinks(l, l.(subs := l.subs[k := None]))
  {
  }

  lemma CloseShrinks(l: Ledger, k: nat, s: Submission)
    requires Live(l.subs, k)
    ensures Shrinks(l, CloseSubmission(l, k, s).0)
  {
    hide Shrinks;
    SelfShrinks(l);
    CountersShrink(l, s.parent, s.owner);
    if GateRelease(l, s.parent, s.owner).Some? {
      var l1 := GateRelease(l, s.parent, s.owner).value;
      SubmissionGone(l1, k);
      ShrinksChains(l, l1, l1.(subs := l1.subs[k := None]));
    }
  }

  lemma CompleteShrinks(l: Ledger, k: nat, p: Process, handleOk: bool)
    ensures Shrinks(l, CompleteSubmission(l, k, p, handleOk).0)
  {
    hide Shrinks, SubmissionValid, CloseSubmission, BufferAuthorized, AccessRelease;
    SelfShrinks(l);
    if CompleteSubmission(l, k, p, handleOk).0 != l {
      ValidIsLive(l, k);
      var s := l.subs[k].value;
      AuthorizedIsLive(l, s.buffer, p, handleOk);
      var b := l.buffers[s.buffer].value;
      CountersShrink(l, b.parent, b.owner);
      ReleaseKeepsRest(l, b.parent, b.owner);
      var l0 := AccessRelease(l, b.parent, b.owner).value;
      BufferPut(l0, s.buffer, b.(held := false, state := Ready), l0.zeroed);
      var l1 := PutBuffer(l0, s.buffer, b.(held := false, state := Ready));
      ShrinksChains(l, l0, l1);
      CloseShrinks(l1, k, s);
      ShrinksChains(l, l1, CloseSubmission(l1, k, s).0);
    }
  }

  lemma ReleaseKeepsRest(l: Ledger, a: nat, owner: nat)
    ensures AccessRelease(l, a, owner).Some? ==>
      AccessRelease(l, a, owner).value == l.(assigns := AccessRelease(l, a, owner).value.assigns)
  {
  }

  lemma ValidIsLive(l: Ledger, k: nat)
    ensures SubmissionValid(l, k) ==> Live(l.subs, k)
  {
  }

  lemma AuthorizedIsLive(l: Ledger, j: nat, p: Process, handleOk: bool)
    ensures BufferAuthorized(l, j, p, handleOk) ==> Live(l.buffers, j)
  {
  }

  lemma QuarantineShrinks(l: Ledger, k: nat)
    ensures Shrinks(l, QuarantineSubmission(l, k).0)
  {
    hide AssignmentValid, BarPins;
  }

  lemma ResetShrinks(l: Ledger, k: nat, zeroOk: bool)
    ensures Shrinks(l, ResetSubmission(l, k, zeroOk).0)
  {
    hide AssignmentValid, BarPins;
  }

  lemma IrqPut(l: Ledger, q: nat, x: Option<Irq>)
    requires Live(l.irqs, q) && (x.Some? ==> SameIrq(l.irqs[q].value, x.value))
    ensures Shrinks(l, l.(irqs := l.irqs[q := x]))
  {
  }

  lemma DisarmShrinks(l: Ledger, q: nat, owner: nat)
    ensures Shrinks(l, ForceDisarmIrq(l, q, owner).0)
  {
    hide Shrinks, AccessRelease;
    SelfShrinks(l);
    if ForceDisarmIrq(l, q, owner).0 != l {
      var x := l.irqs[q].value;
      CountersShrink(l, x.parent, owner);
      ReleaseKeepsRest(l, x.parent, owner);
      var l1 := AccessRelease(l, x.parent, owner).value;
      var y := x.(held := false, events := IrqEvents.Disarm(x.events));
      IrqPut(l1, q, Some(y));
      ShrinksChains(l, l1, PutIrq(l1, q, y));
    }
  }

  lemma DestroyIrqShrinks(l: Ledger, q: nat, endpointIdle: bool)
    ensures Shrinks(l, DestroyIrq(l, q, endpointIdle).0)
  {
    hide Shrinks, ChildRelease;
    SelfShrinks(l);
    if DestroyIrq(l, q, endpointIdle).0 != l {
      var x := l.irqs[q].value;
      var l1 := l.(irqs := l.irqs[q := None]);
      IrqPut(l, q, None);
      CountersShrink(l1, x.parent, x.owner);
      if ChildRelease(l1, x.parent, x.owner).Some? {
        ShrinksChains(l, l1, ChildRelease(l1, x.parent, x.owner).value);
      }
    }
  }

  lemma ArmShrinks(l: Ledger, q: nat, p: Process, handleOk: bool)
    ensures Shrinks(l, ArmIrq(l, q, p, handleOk).0)
  {
    hide Shrinks;
    SelfShrinks(l);
    if ArmIrq(l, q, p, handleOk).0 != l {
      var x := l.irqs[q].value;
      CountersShrink(l, x.parent, x.owner);
      var l1 := AccessAcquire(l, x.parent, x.owner).value;
      var y := x.(held := true, events := IrqEvents.Arm(x.events));
      IrqPut(l1, q, Some(y));
      ShrinksChains(l, l1, PutIrq(l1, q, y));
    }
  }

  lemma IrqShrinks(l: Ledger, call: IrqCall)
    requires !call.OpCreateIrq?
    ensures Shrinks(l, IrqOp(l, call).0)
  {
    hide Shrinks, ForceDisarmIrq, DestroyIrq, ArmIrq, IrqValid;
    SelfShrinks(l);
    match call
    case OpDestroyIrq(q, endpointIdle) => DestroyIrqShrinks(l, q, endpointIdle);
    case OpArmIrq(q, p, handleOk) => ArmShrinks(l, q, p, handleOk);
    case OpDisarmIrq(q, p, handleOk) => DisarmShrinks(l, q, p.id);
    case OpForceDisarmIrq(q, owner) => DisarmShrinks(l, q, owner);
    case _ =>
      EventShrinks(l, call);
  }

  lemma EventShrinks(l: Ledger, call: IrqCall)
    requires call.OpSignalIrq? || call.OpAcknowledgeIrq? || call.OpRecoverIrqStorm? || call.OpTakeIrqEvent? ||
      call.OpCloseIrqEvents? || call.OpIrqReferences?
    ensures Shrinks(l, IrqOp(l, call).0)
  {
    hide Shrinks;
    SelfShrinks(l);
    var l' := IrqOp(l, call).0;
    if l' != l {
      IrqPut(l, call.q, l'.irqs[call.q]);
    }
  }

  // -------------------------------------------------------------------- recovery

  lemma QuarantineBufferShrinks(l: Ledger, j: nat, owner: nat)
    ensures QuarantineBuffer(l, j, owner).Some? ==> Shrinks(l, QuarantineBuffer(l, j, owner).value)
  {
    hide AssignmentValid;
  }

  lemma ResetBufferShrinks(l: Ledger, j: nat, owner: nat, zeroOk: bool)
    ensures ResetBuffer(l, j, owner, zeroOk).Some? ==> Shrinks(l, ResetBuffer(l, j, owner, zeroOk).value)
  {
    hide AssignmentValid;
  }

  lemma ForceUnmapShrinks(l: Ledger, j: nat, owner: nat, unmaps: nat)
    ensures Shrinks(l, ForceUnmapBuffer(l, j, owner, unmaps).0)
  {
    BufferShrinks(l, OpForceUnmapBuffer(j, owner, unmaps));
  }

  lemma VisitShrinks(l: Ledger, pass: Pass, i: nat, a: nat, owner: nat, faults: Faults, zeroOk: bool)
    requires i < Capacity(l, pass)
    ensures Shrinks(l, Visit(l, pass, i, a, owner, faults, zeroOk).0)
  {
    hide Shrinks, ForceDisarmIrq, UnmapMmio, ForceUnmapBuffer, QuarantineSubmission, ResetSubmission, QuarantineBuffer,
      ResetBuffer, IrqValid, MappingValid, BufferValid, SubmissionValid;
    SelfShrinks(l);
    match pass
    case DisarmIrqs => DisarmShrinks(l, i, owner);
    case UnmapMappings => if l.maps[i].Some? { UnmapShrinks(l, i, Removals(faults, i, l.maps[i].value.mapped)); }
    case UnmapBuffers =>
      if l.buffers[i].Some? { ForceUnmapShrinks(l, i, owner, Removals(faults, i, l.buffers[i].value.mapped)); }
    case QuarantineSubs => QuarantineShrinks(l, i);
    case QuarantineBuffers => QuarantineBufferShrinks(l, i, owner);
    case ResetSubs => ResetShrinks(l, i, zeroOk);
    case ResetBuffers => ResetBufferShrinks(l, i, owner, zeroOk);
  }

  lemma {:induction false} SweepShrinks(l: Ledger, pass: Pass, i: nat, a: nat, owner: nat, faults: Faults, zeroOk: bool)
    requires i <= Capacity(l, pass)
    ensures Shrinks(l, Sweep(l, pass, i, a, owner, faults, zeroOk).0)
    decreases Capacity(l, pass) - i
  {
    hide Shrinks, Visit;
    if i == Capacity(l, pass) {
      SelfShrinks(l);
    } else {
      var (l1, r) := Visit(l, pass, i, a, owner, faults, zeroOk);
      VisitShrinks(l, pass, i, a, owner, faults, zeroOk);
      if r == Done {
        SameSize(l, pass, i, a, owner, faults, zeroOk);
        SweepShrinks(l1, pass, i + 1, a, owner, faults, zeroOk);
        ShrinksChains(l, l1, Sweep(l1, pass, i + 1, a, owner, faults, zeroOk).0);
      }
    }
  }

  lemma SameSize(l: Ledger, pass: Pass, i: nat, a: nat, owner: nat, faults: Faults, zeroOk: bool)
    requires i < Capacity(l, pass)
    ensures Capacity(Visit(l, pass, i, a, owner, faults, zeroOk).0, pass) == Capacity(l, pass)
  {
    hide IrqValid, MappingValid, BufferValid, SubmissionValid, AssignmentValid;
  }

  lemma {:induction false} DisarmBoundShrinks(l: Ledger, bound: seq<nat>, a: nat, owner: nat)
    ensures Shrinks(l, DisarmBound(l, bound, a, owner).0)
    decreases |bound|
  {
    hide Shrinks, ForceDisarmIrq;
    if bound == [] {
      SelfShrinks(l);
    } else if !Live(l.irqs, bound[0]) || l.irqs[bound[0]].value.parent != a {
      DisarmBoundShrinks(l, bound[1..], a, owner);
    } else {
      DisarmShrinks(l, bound[0], owner);
      var l1 := ForceDisarmIrq(l, bound[0], owner).0;
      DisarmBoundShrinks(l1, bound[1..], a, owner);
      ShrinksChains(l, l1, DisarmBound(l1, bound[1..], a, owner).0);
    }
  }

  /** Recovery records, serials and resets in flight are not objects of the device. */
  lemma RecordsShrink(l: Ledger, l': Ledger)
    requires l' == l.(recs := l'.recs, serial := l'.serial, flights := l'.flights)
    ensures Shrinks(l, l')
  {
  }

  lemma QuiesceDmaShrinks(l: Ledger, slot: nat, a: nat, owner: nat, env: Surroundings)
    ensures Shrinks(l, QuiesceDma(l, slot, a, owner, env).0)
  {
    hide Shrinks, Sweep;
    var (l1, r1) := Sweep(l, QuarantineSubs, 0, a, owner, map[], false);
    SweepShrinks(l, QuarantineSubs, 0, a, owner, map[], false);
    if r1 == Done {
      var l2 := Sweep(l1, QuarantineBuffers, 0, a, owner, map[], false).0;
      SweepShrinks(l1, QuarantineBuffers, 0, a, owner, map[], false);
      ShrinksChains(l, l1, l2);
      if Live(l2.recs, slot) {
        var l3 := PutRecovery(l2, slot, l2.recs[slot].value.(state := Quiesced));
        RecordsShrink(l2, l3);
        ShrinksChains(l, l2, l3);
      }
    }
  }

  lemma QuiesceShrinks(l: Ledger, slot: nat, a: nat, owner: nat, env: Surroundings)
    requires Live(l.recs, slot)
    ensures Shrinks(l, Quiesce(l, slot, a, owner, env).0)
  {
    hide Shrinks, Sweep, DisarmBound, QuiesceDma;
    DisarmBoundShrinks(l, env.bound, a, owner);
    var l1 := DisarmBound(l, env.bound, a, owner).0;
    SweepShrinks(l1, DisarmIrqs, 0, a, owner, map[], false);
    var l2 := Sweep(l1, DisarmIrqs, 0, a, owner, map[], false).0;
    ShrinksChains(l, l1, l2);
    SweepShrinks(l2, UnmapMappings, 0, a, owner, env.mmioFaults, false);
    var l3 := Sweep(l2, UnmapMappings, 0, a, owner, env.mmioFaults, false).0;
    ShrinksChains(l, l2, l3);
    SweepShrinks(l3, UnmapBuffers, 0, a, owner, env.dmaFaults, false);
    var l4 := Sweep(l3, UnmapBuffers, 0, a, owner, env.dmaFaults, false).0;
    ShrinksChains(l, l3, l4);
    QuiesceDmaShrinks(l4, slot, a, owner, env);
    ShrinksChains(l, l4, QuiesceDma(l4, slot, a, owner, env).0);
  }

  lemma BeginShrinks(l: Ledger, slot: nat, a: nat, p: Process, env: Surroundings)
    ensures Shrinks(l, BeginRecovery(l, slot, a, p, env).0)
  {
    hide Shrinks, Quiesce, ForceQuarantine;
    SelfShrinks(l);
    CountersShrink(l, a, p.id);
    if BeginRecovery(l, slot, a, p, env).0 != l {
      var l1 := ForceQuarantine(l, a, p.id).value;
      var x := Recovery(a, l.assigns[a].value.rid, p.id, env.busMaster, l.assigns[a].value.exposed, false, false,
                        FailedQuarantined, l.serial, 0);
      QuarantineKeepsRecords(l, a, p.id);
      var l2 := PutRecovery(l1, slot, x).(serial := l1.serial + 1);
      RecordsShrink(l1, l2);
      ShrinksChains(l, l1, l2);
      QuiesceShrinks(l2, slot, a, p.id, env);
      ShrinksChains(l, l2, Quiesce(l2, slot, a, p.id, env).0);
    }
  }

  lemma QuarantineKeepsRecords(l: Ledger, a: nat, owner: nat)
    ensures ForceQuarantine(l, a, owner).Some? ==> ForceQuarantine(l, a, owner).value.recs == l.recs
  {
  }

  lemma CompleteDmaShrinks(l: Ledger, r: nat, zeroOk: bool)
    requires Live(l.recs, r)
    ensures Shrinks(l, CompleteDma(l, r, zeroOk).0)
  {
    hide Shrinks, Sweep;
    var x := l.recs[r].value;
    SweepShrinks(l, ResetSubs, 0, x.parent, x.owner, map[], zeroOk);
    var l1 := Sweep(l, ResetSubs, 0, x.parent, x.owner, map[], zeroOk).0;
    SweepShrinks(l1, ResetBuffers, 0, x.parent, x.owner, map[], zeroOk);
    var l2 := Sweep(l1, ResetBuffers, 0, x.parent, x.owner, map[], zeroOk).0;
    ShrinksChains(l, l1, l2);
    var l3 := Certify(l2, r, x.parent).0;
    RecordsShrink(l2, l3);
    ShrinksChains(l, l2, l3);
  }

  lemma FinishShrinks(l: Ledger, f: nat, outcome: ResetOutcome, zeroOk: bool)
    ensures Shrinks(l, FinishReset(l, f, outcome, zeroOk).0)
  {
    hide Shrinks, CompleteDma, RecoveryValid;
    SelfShrinks(l);
    if f < |l.flights| {
      var r := l.flights[f].slot;
      var l0 := l.(flights := l.flights[..f] + l.flights[f + 1..]);
      RecordsShrink(l, l0);
      RecoveryIsLive(l0, r);
      if RecoveryValid(l0, r) {
        RecordsShrink(l, PutRecovery(l0, r, l0.recs[r].value.(attempted := true, state := FailedQuarantined)));
        var l1 :=
          PutRecovery(l0, r,
            l0.recs[r].value.(attempted := true, completed := true, resetSerial := l.flights[f].serial));
        RecordsShrink(l, l1);
        CompleteDmaShrinks(l1, r, zeroOk);
        var l2 := CompleteDma(l1, r, zeroOk).0;
        ShrinksChains(l, l1, l2);
        if Live(l2.recs, r) {
          var l3 := PutRecovery(l2, r, l2.recs[r].value.(state := FailedQuarantined));
          RecordsShrink(l2, l3);
          ShrinksChains(l, l2, l3);
        }
      }
    }
  }

  lemma RecoveryIsLive(l: Ledger, r: nat)
    ensures RecoveryValid(l, r) ==> Live(l.recs, r)
  {
  }

  lemma RecoveryShrinks(l: Ledger, call: RecoveryCall)
    ensures Shrinks(l, RecoveryOp(l, call).0)
  {
    hide Shrinks, BeginRecovery, FinishReset, CompleteDma, CompleteQuarantine, RecoveryValid;
    SelfShrinks(l);
    match call
    case OpBeginRecovery(slot, a, p, env) => BeginShrinks(l, slot, a, p, env);
    case OpCompleteWithoutReset(r, commandUnchanged, zeroOk) =>
      RecoveryIsLive(l, r);
      if RecoveryValid(l, r) {
        CompleteDmaShrinks(l, r, zeroOk);
      }
    case OpStartReset(r, supported) => RecordsShrink(l, StartReset(l, r, supported).0);
    case OpFinishReset(f, outcome, zeroOk) => FinishShrinks(l, f, outcome, zeroOk);
    case OpCompleteAssignment(r) =>
      RecoveryIsLive(l, r);
      if RecoveryValid(l, r) {
        var x := l.recs[r].value;
        CountersShrink(l, x.parent, x.owner);
        if CompleteQuarantine(l, x.parent, x.owner).Some? {
          var l1 := CompleteQuarantine(l, x.parent, x.owner).value;
          ReleaseKeepsRecords(l, x.parent, x.owner);
          RecordsShrink(l1, l1.(recs := l1.recs[r := None]));
          ShrinksChains(l, l1, l1.(recs := l1.recs[r := None]));
        }
      }
  }

  lemma ReleaseKeepsRecords(l: Ledger, a: nat, owner: nat)
    ensures CompleteQuarantine(l, a, owner).Some? ==> CompleteQuarantine(l, a, owner).value.recs == l.recs
  {
  }

  // --------------------------------------------------------------------- creation

  /** Devices keep their place and identity. */
  ghost predicate SameDevices(s: Registry<Assignment>, s': Registry<Assignment>) {
    && |s'| == |s|
    && (forall a: nat :: Live(s, a) <==> Live(s', a))
    && (forall a: nat :: Live(s, a) ==> SameAssignment(s[a].value, s'[a].value))
  }

  lemma DevicesStay(l: Ledger, i: nat, p: Process, handleOk: bool, offset: nat, size: nat, pagesMapped: nat)
    ensures SameDevices(l.assigns, MapMmio(l, i, p, handleOk, offset, size, pagesMapped).0.assigns)
  {
    hide Shrinks, BarAcquire, BarRelease;
    AccessKeepsDevices(l, i, p, handleOk, p.id);
    if BarAcquire(l, i, p, handleOk).Some? {
      AccessKeepsDevices(BarAcquire(l, i, p, handleOk).value, i, p, handleOk, p.id);
    }
  }

  lemma AccessKeepsDevices(l: Ledger, i: nat, p: Process, handleOk: bool, owner: nat)
    ensures SameDevices(l.assigns, l.assigns)
    ensures BarAcquire(l, i, p, handleOk).Some? ==> SameDevices(l.assigns, BarAcquire(l, i, p, handleOk).value.assigns)
    ensures BarRelease(l, i, owner).Some? ==> SameDevices(l.assigns, BarRelease(l, i, owner).value.assigns)
  {
    hide AssignmentValid;
  }

  lemma SubmitKeepsDevices(l: Ledger, a: nat, p: Process, assignmentOk: bool, j: nat, bufferOk: bool, offset: nat,
                           size: nat, direction: Direction)
    ensures SameDevices(l.assigns,
                        BeginSubmission(l, a, p, assignmentOk, j, bufferOk, offset, size, direction).0.assigns)
  {
    hide AssignmentValid, BarPins;
  }

  lemma ChildKeepsDevices(s: Registry<Assignment>, a: nat, x: Assignment)
    requires Live(s, a) && SameAssignment(s[a].value, x)
    ensures SameDevices(s, s[a := Some(x)])
  {
  }

  lemma CreateAssignmentKeeps(l: Ledger, device: nat, resourceOk: bool)
    ensures var l' := CreateAssignment(l, device, resourceOk).0;
            Identities(l, l') && Frames(l') == Frames(l)
  {
  }

  /** A new BAR, of an index the device had no BAR for. */
  lemma CreateBarKeeps(l: Ledger, a: nat, p: Process, handleOk: bool, index: nat, probe: Probe, resourceOk: bool,
                       insertOk: bool)
    requires Inv(l)
    ensures var l' := CreateBar(l, a, p, handleOk, index, probe, resourceOk, insertOk).0;
            Identities(l, l') && Frames(l') == Frames(l) && (DistinctBars(l) ==> DistinctBars(l'))
  {
    hide Inv, CreateBar, BarTaken;
    CreateBarExact(l, a, p, handleOk, index, probe, resourceOk, insertOk);
    var (l', r) := CreateBar(l, a, p, handleOk, index, probe, resourceOk, insertOk);
    if r == Done {
      ChildKeepsDevices(l.assigns, a, l.assigns[a].value.(kids := l.assigns[a].value.kids + 1));
      BarIndexFree(l, a, index);
    }
  }

  /** No two BAR records of one device are for the same register. */
  ghost predicate DistinctBars(l: Ledger) {
    forall i: nat, j: nat ::
      Live(l.bars, i) && Live(l.bars, j) && i < j && l.bars[i].value.parent == l.bars[j].value.parent ==>
      l.bars[i].value.index != l.bars[j].value.index
  }

  lemma BarIndexFree(l: Ledger, a: nat, index: nat)
    requires !BarTaken(l.bars, a, index)
    ensures forall i: nat :: Live(l.bars, i) && l.bars[i].value.parent == a ==> l.bars[i].value.index != index
  {
  }

  lemma MapKeeps(l: Ledger, i: nat, p: Process, handleOk: bool, offset: nat, size: nat, pagesMapped: nat)
    requires Inv(l)
    ensures var l' := MapMmio(l, i, p, handleOk, offset, size, pagesMapped).0;
            Identities(l, l') && Frames(l') == Frames(l) && (DistinctBars(l) ==> DistinctBars(l'))
  {
    hide Inv, MapMmio, UnmapMmio, Window;
    MapMmioExact(l, i, p, handleOk, offset, size, pagesMapped);
    DevicesStay(l, i, p, handleOk, offset, size, pagesMapped);
  }

  lemma CreateBufferKeeps(l: Ledger, a: nat, p: Process, handleOk: bool, pages: nat, base: nat, resourceOk: bool,
                          zeroOk: bool, insertOk: bool)
    requires Inv(l)
    ensures var l' := CreateBuffer(l, a, p, handleOk, pages, base, resourceOk, zeroOk, insertOk).0;
            Identities(l, l') && Frames(l') == Frames(l)
  {
    hide Inv, CreateBuffer, Span, Identities, Frames, SameDevices;
    CreateBufferExact(l, a, p, handleOk, pages, base, resourceOk, zeroOk, insertOk);
    var (l', r) := CreateBuffer(l, a, p, handleOk, pages, base, resourceOk, zeroOk, insertOk);
    if r == Done {
      ChildKeepsDevices(l.assigns, a, l.assigns[a].value.(kids := l.assigns[a].value.kids + 1));
      var j: nat :| && j < |l.buffers| && l.buffers[j].None? && |l'.buffers| == |l.buffers|
                    && l'.buffers == l.buffers[j := l'.buffers[j]] && l'.buffers[j].Some?
                    && l'.buffers[j].value.base == base && l'.buffers[j].value.pages == pages;
      CreatedKeeps(l, l', j);
    } else {
      UncreatedKeeps(l, l');
    }
  }

  lemma CreatedKeeps(l: Ledger, l': Ledger, j: nat)
    requires j < |l.buffers| == |l'.buffers| && l.buffers[j].None? && l'.buffers[j].Some?
    requires l'.buffers == l.buffers[j := l'.buffers[j]] && SameDevices(l.assigns, l'.assigns)
    requires SpanOf(l'.buffers[j].value) <= l.free && l'.free == l.free - SpanOf(l'.buffers[j].value)
    requires l' == l.(assigns := l'.assigns, buffers := l'.buffers, free := l'.free, nextRid := l'.nextRid,
                      zeroed := l'.zeroed)
    ensures Identities(l, l') && Frames(l') == Frames(l)
  {
    hide SpanOf, Frames;
    CreatedFrames(l, l', j);
  }

  lemma CreatedFrames(l: Ledger, l': Ledger, j: nat)
    requires j < |l.buffers| == |l'.buffers| && l.buffers[j].None? && l'.buffers[j].Some?
    requires l'.buffers == l.buffers[j := l'.buffers[j]]
    requires SpanOf(l'.buffers[j].value) <= l.free && l'.free == l.free - SpanOf(l'.buffers[j].value)
    ensures Frames(l') == Frames(l)
  {
    hide SpanOf;
    AddedFrames(l.buffers, l'.buffers, j);
    assert Frames(l') == Frames(l);
  }

  lemma UncreatedKeeps(l: Ledger, l': Ledger)
    requires l' == l.(nextRid := l'.nextRid, zeroed := l'.zeroed)
    ensures Identities(l, l') && Frames(l') == Frames(l)
  {
  }

  lemma AddedFrames(s: Registry<Buffer>, s': Registry<Buffer>, j: nat)
    requires j < |s| == |s'| && s[j].None? && s'[j].Some? && s' == s[j := s'[j]]
    ensures BufferFrames(s') == BufferFrames(s) + SpanOf(s'[j].value)
  {
    forall f ensures f in BufferFrames(s') <==> f in BufferFrames(s) || f in SpanOf(s'[j].value) {
      if f in BufferFrames(s') {
        var n: nat :| Live(s', n) && f in SpanOf(s'[n].value);
        assert n == j || (Live(s, n) && f in SpanOf(s[n].value));
      }
      if f in BufferFrames(s) {
        var n: nat :| Live(s, n) && f in SpanOf(s[n].value);
        assert Live(s', n) && f in SpanOf(s'[n].value);
      }
      if f in SpanOf(s'[j].value) {
        assert Live(s', j);
      }
    }
  }

  lemma DestroyBufferKeeps(l: Ledger, j: nat)
    requires Inv(l)
    ensures var l' := DestroyBuffer(l, j).0;
            Identities(l, l') && Frames(l') == Frames(l)
  {
    hide Inv, DestroyBuffer, Span, Identities, Frames, SameDevices;
    DestroyBufferExact(l, j);
    DestroyKeepsDevices(l, j);
    var (l', r) := DestroyBuffer(l, j);
    if r == Done {
      DestroyedKeeps(l, l', j);
    } else {
      SelfShrinks(l);
      ShrinksMeans(l, l);
    }
  }

  lemma DestroyedKeeps(l: Ledger, l': Ledger, j: nat)
    requires Live(l.buffers, j) && l'.buffers == l.buffers[j := None] && SameDevices(l.assigns, l'.assigns)
    requires l'.free == l.free + SpanOf(l.buffers[j].value)
    requires l' == l.(assigns := l'.assigns, buffers := l'.buffers, free := l'.free)
    ensures Identities(l, l') && Frames(l') == Frames(l)
  {
    hide SpanOf, Frames;
    DestroyedFrames(l, l', j);
  }

  lemma DestroyedFrames(l: Ledger, l': Ledger, j: nat)
    requires Live(l.buffers, j) && l'.buffers == l.buffers[j := None]
    requires l'.free == l.free + SpanOf(l.buffers[j].value)
    ensures Frames(l') == Frames(l)
  {
    hide SpanOf;
    AddedFrames(l'.buffers, l.buffers, j);
    assert Frames(l') == Frames(l);
  }

  lemma DestroyKeepsDevices(l: Ledger, j: nat)
    ensures SameDevices(l.assigns, DestroyBuffer(l, j).0.assigns)
  {
    hide AssignmentValid;
  }

  lemma SubmitKeeps(l: Ledger, a: nat, p: Process, assignmentOk: bool, j: nat, bufferOk: bool, offset: nat, size: nat,
                    direction: Direction)
    requires Inv(l)
    ensures var l' := BeginSubmission(l, a, p, assignmentOk, j, bufferOk, offset, size, direction).0;
            Identities(l, l') && Frames(l') == Frames(l)
  {
    hide Inv, BeginSubmission, CompleteSubmission, Span, ByteOf, Authorized;
    BeginSubmissionExact(l, a, p, assignmentOk, j, bufferOk, offset, size, direction);
    SubmitKeepsDevices(l, a, p, assignmentOk, j, bufferOk, offset, size, direction);
    var (l', r) := BeginSubmission(l, a, p, assignmentOk, j, bufferOk, offset, size, direction);
    if r == Done {
      var k: nat :| && k < |l.subs| && l.subs[k].None? && |l'.subs| == |l.subs|
                    && l'.subs == l.subs[k := l'.subs[k]] && l'.subs[k].Some?
                    && l'.buffers == l.buffers[j := Some(l.buffers[j].value.(held := true, state := DeviceActive))]
                    && l' == l.(assigns := l'.assigns, buffers := l'.buffers, subs := l'.subs, zeroed := l'.zeroed);
      SubmittedKeeps(l, l', j, k);
    }
  }

  lemma SubmittedKeeps(l: Ledger, l': Ledger, j: nat, k: nat)
    requires Live(l.buffers, j) && k < |l.subs| && l.subs[k].None? && |l'.subs| == |l.subs|
    requires l'.subs == l.subs[k := l'.subs[k]] && SameDevices(l.assigns, l'.assigns)
    requires l'.buffers == l.buffers[j := Some(l.buffers[j].value.(held := true, state := DeviceActive))]
    requires l' == l.(assigns := l'.assigns, buffers := l'.buffers, subs := l'.subs, zeroed := l'.zeroed)
    ensures Identities(l, l') && Frames(l') == Frames(l)
  {
    hide Span;
    SameSpans(l.buffers, l'.buffers, j, l.buffers[j].value.(held := true, state := DeviceActive));
  }

  lemma SameSpans(s: Registry<Buffer>, s': Registry<Buffer>, j: nat, b: Buffer)
    requires Live(s, j) && SameBuffer(s[j].value, b) && s' == s[j := Some(b)]
    ensures BufferFrames(s') == BufferFrames(s)
  {
    var gone := s[j := None];
    AddedFrames(gone, s, j);
    AddedFrames(gone, s', j);
  }

  lemma CreateIrqKeeps(l: Ledger, a: nat, p: Process, handleOk: bool, resourceOk: bool, buildOk: bool)
    requires Inv(l)
    ensures var l' := CreateIrq(l, a, p, handleOk, resourceOk, buildOk).0;
            Identities(l, l') && Frames(l') == Frames(l)
  {
    hide Inv, CreateIrq;
    CreateIrqExact(l, a, p, handleOk, resourceOk, buildOk);
    var (l', r) := CreateIrq(l, a, p, handleOk, resourceOk, buildOk);
    if r == Done {
      ChildKeepsDevices(l.assigns, a, l.assigns[a].value.(kids := l.assigns[a].value.kids + 1));
    }
  }

  // ------------------------------------------------------------------- whole runs

  /** Every step: a record that stays in its slot stays the object it was made as. */
  lemma StepKeepsIdentities(l: Ledger, op: Op)
    requires Inv(l)
    ensures Identities(l, Apply(l, op).0)
  {
    hide Inv, Identities, Shrinks, AssignmentOp, BarOp, BufferOp, IrqOp, RecoveryOp;
    match op
    case OnAssignment(call) => AssignmentKeeps(l, call);
    case OnBar(call) => BarKeeps(l, call);
    case OnBuffer(call) => BufferKeeps(l, call);
    case OnIrq(call) => IrqKeeps(l, call);
    case OnRecovery(call) => RecoveryShrinks(l, call); ShrinksMeans(l, RecoveryOp(l, call).0);
  }

  lemma ShrinksMeans(l: Ledger, l': Ledger)
    requires Shrinks(l, l')
    ensures Identities(l, l') && Frames(l') == Frames(l) && (DistinctBars(l) ==> DistinctBars(l'))
  {
    ShrinksFrames(l, l');
  }

  lemma AssignmentKeeps(l: Ledger, call: AssignmentCall)
    ensures var l' := AssignmentOp(l, call).0;
            Identities(l, l') && Frames(l') == Frames(l) && l'.bars == l.bars
  {
    if call.OpCreateAssignment? {
      CreateAssignmentKeeps(l, call.device, call.resourceOk);
    } else {
      AssignmentShrinks(l, call);
      ShrinksMeans(l, AssignmentOp(l, call).0);
    }
    hide Identities, Frames, Shrinks, AssignmentValid;
  }

  lemma BarKeeps(l: Ledger, call: BarCall)
    requires Inv(l)
    ensures var l' := BarOp(l, call).0;
            Identities(l, l') && Frames(l') == Frames(l) && (DistinctBars(l) ==> DistinctBars(l'))
  {
    hide Inv, Identities, Shrinks, Frames, DistinctBars, CreateBar, MapMmio, DestroyBar, PortAccess, UnmapMmio;
    match call
    case OpCreateBar(a, p, handleOk, index, probe, resourceOk, insertOk) =>
      CreateBarKeeps(l, a, p, handleOk, index, probe, resourceOk, insertOk);
    case OpMapMmio(i, p, handleOk, offset, size, pagesMapped) => MapKeeps(l, i, p, handleOk, offset, size, pagesMapped);
    case _ => BarShrinks(l, call); ShrinksMeans(l, BarOp(l, call).0);
  }

  lemma BufferKeeps(l: Ledger, call: BufferCall)
    requires Inv(l)
    ensures var l' := BufferOp(l, call).0;
            Identities(l, l') && (!call.OpFrames? ==> Frames(l') == Frames(l))
  {
    hide Inv, Identities, Shrinks, Frames, CreateBuffer, DestroyBuffer, BeginSubmission, CompleteSubmission,
      QuarantineSubmission, MapBuffer, UnmapBuffer, ForceUnmapBuffer, BufferFrames;
    match call
    case OpCreateBuffer(a, p, handleOk, pages, base, resourceOk, zeroOk, insertOk) =>
      CreateBufferKeeps(l, a, p, handleOk, pages, base, resourceOk, zeroOk, insertOk);
    case OpDestroyBuffer(j) => DestroyBufferKeeps(l, j);
    case OpBeginSubmission(a, p, assignmentOk, j, bufferOk, offset, size, direction) =>
      SubmitKeeps(l, a, p, assignmentOk, j, bufferOk, offset, size, direction);
    case OpCompleteSubmission(k, p, handleOk) =>
      CompleteShrinks(l, k, p, handleOk);
      ShrinksMeans(l, CompleteSubmission(l, k, p, handleOk).0);
    case OpQuarantineSubmission(k) =>
      QuarantineShrinks(l, k);
      ShrinksMeans(l, QuarantineSubmission(l, k).0);
    case OpFrames(taken, given) => FreeUnread(l, (l.free - taken) + (given - BufferFrames(l.buffers)));
    case OpWrite(frames) =>
      WriteShrinks(l, frames);
      ShrinksMeans(l, l.(zeroed := l.zeroed - frames));
    case _ => BufferShrinks(l, call); ShrinksMeans(l, BufferOp(l, call).0);
  }

  lemma FreeUnread(l: Ledger, free: set<nat>)
    ensures Identities(l, l.(free := free))
  {
  }

  lemma IrqKeeps(l: Ledger, call: IrqCall)
    requires Inv(l)
    ensures var l' := IrqOp(l, call).0;
            Identities(l, l') && Frames(l') == Frames(l)
  {
    hide Inv, Identities, Shrinks, Frames;
    if call.OpCreateIrq? {
      CreateIrqKeeps(l, call.a, call.p, call.handleOk, call.resourceOk, call.buildOk);
    } else {
      IrqShrinks(l, call);
      ShrinksMeans(l, IrqOp(l, call).0);
    }
  }

  /** Every step but the allocator's own: no frame is lost or invented between the
      allocator and the buffers, whatever rolls back. */
  lemma FramesConserved(l: Ledger, op: Op)
    requires Inv(l) && !(op.OnBuffer? && op.buffer.OpFrames?)
    ensures Frames(Apply(l, op).0) == Frames(l)
  {
    hide Inv, Identities, Shrinks, Frames, AssignmentOp, BarOp, BufferOp, IrqOp, RecoveryOp;
    match op
    case OnAssignment(call) => AssignmentKeeps(l, call);
    case OnBar(call) => BarKeeps(l, call);
    case OnBuffer(call) => BufferKeeps(l, call);
    case OnIrq(call) => IrqKeeps(l, call);
    case OnRecovery(call) => RecoveryShrinks(l, call); ShrinksMeans(l, RecoveryOp(l, call).0);
  }

  lemma StepKeepsDistinct(l: Ledger, op: Op)
    requires Inv(l) && DistinctBars(l)
    ensures DistinctBars(Apply(l, op).0)
  {
    hide Inv, Identities, Shrinks, Frames, DistinctBars, AssignmentOp, BarOp, BufferOp, IrqOp, RecoveryOp;
    match op
    case OnAssignment(call) => AssignmentKeeps(l, call); DistinctUnread(l, AssignmentOp(l, call).0);
    case OnBar(call) => BarKeeps(l, call);
    case OnBuffer(call) => BufferKeepsBars(l, call); DistinctUnread(l, BufferOp(l, call).0);
    case OnIrq(call) => IrqKeepsBars(l, call); DistinctUnread(l, IrqOp(l, call).0);
    case OnRecovery(call) => RecoveryShrinks(l, call); ShrinksMeans(l, RecoveryOp(l, call).0);
  }

  lemma DistinctUnread(l: Ledger, l': Ledger)
    requires l'.bars == l.bars && DistinctBars(l)
    ensures DistinctBars(l')
  {
  }

  lemma BufferKeepsBars(l: Ledger, call: BufferCall)
    ensures BufferOp(l, call).0.bars == l.bars
  {
    hide AssignmentValid, BarPins, BufferFrames, Span;
  }

  lemma IrqKeepsBars(l: Ledger, call: IrqCall)
    ensures IrqOp(l, call).0.bars == l.bars
  {
    hide AssignmentValid;
  }

  /** In every reachable state a device has at most one BAR record for each register. */
  lemma {:induction false} BarsStayDistinct(l: Ledger, ops: seq<Op>)
    requires Inv(l) && DistinctBars(l)
    ensures DistinctBars(Run(l, ops))
    decreases |ops|
  {
    hide Inv, DistinctBars, Apply;
    if ops != [] {
      StepSound(l, ops[0]);
      StepKeepsDistinct(l, ops[0]);
      BarsStayDistinct(Apply(l, ops[0]).0, ops[1..]);
    }
  }

  lemma OneBarPerRegister(ops: seq<Op>)
    ensures DistinctBars(Run(Boot, ops))
  {
    hide Inv, Run, Apply;
    BootInv();
    assert DistinctBars(Boot) by {
      hide Blank;
    }
    BarsStayDistinct(Boot, ops);
  }

  // ------------------------------------------------------------- mapped windows

  /** The mapping shows nothing but its own BAR. */
  predicate Inside(l: Ledger, m: nat)
    requires Live(l.maps, m)
  {
    var x := l.maps[m].value;
    && Live(l.bars, x.bar)
    && var b := l.bars[x.bar].value;
       b.bounded && b.base <= x.base && x.base + x.pages * PAGE <= b.base + b.size
  }

  ghost predicate MappingsInside(l: Ledger) {
    forall m: nat :: Live(l.maps, m) ==> Inside(l, m)
  }

  /** Only a mapping call adds a mapping. */
  lemma OnlyMapsMap(l: Ledger, op: Op)
    requires Inv(l) && !(op.OnBar? && op.bar.OpMapMmio?)
    ensures forall m: nat :: Live(Apply(l, op).0.maps, m) ==> Live(l.maps, m)
  {
    hide Inv, Identities, Frames, AssignmentOp, BarOp, BufferOp, IrqOp, RecoveryOp;
    match op
    case OnAssignment(call) => AssignmentKeepsMaps(l, call);
    case OnBar(call) => BarKeepsMaps(l, call);
    case OnBuffer(call) => BufferKeepsMaps(l, call);
    case OnIrq(call) => IrqKeepsMaps(l, call);
    case OnRecovery(call) => RecoveryShrinks(l, call);
  }

  lemma AssignmentKeepsMaps(l: Ledger, call: AssignmentCall)
    ensures AssignmentOp(l, call).0.maps == l.maps
  {
    hide AssignmentValid;
  }

  lemma BarKeepsMaps(l: Ledger, call: BarCall)
    requires Inv(l) && !call.OpMapMmio?
    ensures forall m: nat :: Live(BarOp(l, call).0.maps, m) ==> Live(l.maps, m)
  {
    hide Inv, CreateBar, MapMmio, DestroyBar, PortAccess, UnmapMmio;
    match call
    case OpCreateBar(a, p, handleOk, index, probe, resourceOk, insertOk) =>
      CreateBarExact(l, a, p, handleOk, index, probe, resourceOk, insertOk);
    case _ => BarShrinks(l, call);
  }

  lemma BufferKeepsMaps(l: Ledger, call: BufferCall)
    ensures BufferOp(l, call).0.maps == l.maps
  {
    hide AssignmentValid, BarPins, BufferFrames, Span;
  }

  lemma IrqKeepsMaps(l: Ledger, call: IrqCall)
    ensures IrqOp(l, call).0.maps == l.maps
  {
    hide AssignmentValid;
  }

  lemma MapIsInside(l: Ledger, i: nat, p: Process, handleOk: bool, offset: nat, size: nat, pagesMapped: nat)
    requires Inv(l)
    ensures var l' := MapMmio(l, i, p, handleOk, offset, size, pagesMapped).0;
            forall m: nat :: Live(l'.maps, m) && !Live(l.maps, m) ==> Inside(l', m)
  {
    hide Inv, MapMmio, UnmapMmio, WholePages;
    MapMmioExact(l, i, p, handleOk, offset, size, pagesMapped);
  }

  lemma StepKeepsInside(l: Ledger, op: Op)
    requires Inv(l) && MappingsInside(l)
    ensures MappingsInside(Apply(l, op).0)
  {
    hide Inv, MappingsInside, Apply;
    StepSound(l, op);
    StepKeepsIdentities(l, op);
    var l' := Apply(l, op).0;
    if op.OnBar? && op.bar.OpMapMmio? {
      var c := op.bar;
      MapApplied(l, c.i, c.p, c.handleOk, c.offset, c.size, c.pagesMapped);
      MapIsInside(l, c.i, c.p, c.handleOk, c.offset, c.size, c.pagesMapped);
    } else {
      OnlyMapsMap(l, op);
    }
    StaysInside(l, l');
  }

  lemma MapApplied(l: Ledger, i: nat, p: Process, handleOk: bool, offset: nat, size: nat, pagesMapped: nat)
    ensures Apply(l, OnBar(OpMapMmio(i, p, handleOk, offset, size, pagesMapped))) ==
      MapMmio(l, i, p, handleOk, offset, size, pagesMapped)
  {
  }

  lemma StaysInside(l: Ledger, l': Ledger)
    requires Inv(l) && Inv(l') && MappingsInside(l) && Identities(l, l')
    requires forall m: nat :: Live(l'.maps, m) && !Live(l.maps, m) ==> Inside(l', m)
    ensures MappingsInside(l')
  {
    hide Inv;
    forall m: nat | Live(l'.maps, m) ensures Inside(l', m) {
      if Live(l.maps, m) {
        assert Inside(l, m) && SameMapping(l.maps[m].value, l'.maps[m].value);
        MappingAlwaysValid(l', m);
        assert SameBar(l.bars[l.maps[m].value.bar].value, l'.bars[l.maps[m].value.bar].value);
      }
    }
  }

  lemma {:induction false} RunKeepsInside(l: Ledger, ops: seq<Op>)
    requires Inv(l) && MappingsInside(l)
    ensures MappingsInside(Run(l, ops))
    decreases |ops|
  {
    hide Inv, MappingsInside, Apply;
    if ops != [] {
      StepSound(l, ops[0]);
      StepKeepsInside(l, ops[0]);
      RunKeepsInside(Apply(l, ops[0]).0, ops[1..]);
    }
  }

  /** Over every run: a process's mapping never reaches outside the BAR it was made for. */
  lemma MappingsStayInside(ops: seq<Op>)
    ensures MappingsInside(Run(Boot, ops))
  {
    hide Inv, Run, Apply;
    BootInv();
    assert MappingsInside(Boot) by {
      hide Blank;
    }
    RunKeepsInside(Boot, ops);
  }
}
