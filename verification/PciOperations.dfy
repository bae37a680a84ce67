/** Every operation keeps the ledger's invariant and never reaches a kernel halt. */
module PciOperations {
  import opened FrameSpans
  import opened Slots
  import opened PciLedger
  import opened PciRecovery
  import opened PciInvariant
  import opened PciEdits
  import IrqEvents

  ghost predicate Safe(l: Ledger, step: (Ledger, Result)) {
    Inv(l) ==> Inv(step.0) && Tame(l, step.0) && step.1 != Halt
  }

  /** Any update of one assignment record that the edit pattern allows. */
  lemma AssignmentStep(l: Ledger, a: nat, x: Assignment)
    requires Inv(l) && Live(l.assigns, a) && AssignmentValid(x)
    requires var y := l.assigns[a].value;
             && x == y.(refs := x.refs, owner := x.owner, state := x.state, exposed := x.exposed,
               supervised := x.supervised)
             && (y.kids > 0 ==> x.owner == y.owner)
             && (y.gate ==> x.state == y.state || x.state == Quarantined)
             && (Sum(l.recs, RecoveryOf(a)) > 0 ==> x == y.(refs := x.refs))
             && Transition(y, x)
    ensures Inv(Put(l, a, x)) && Tame(l, Put(l, a, x))
  {
    AssignmentEditKeepsInv(l, Put(l, a, x), a);
  }

  /** No recovery holds an assignment that is not quarantined. */
  lemma NoRecovery(l: Ledger, a: nat)
    requires Inv(l) && At(l.assigns, a).state != Quarantined
    ensures Sum(l.recs, RecoveryOf(a)) == 0
  {
    forall r | 0 <= r < |l.recs| ensures RecoveryOf(a)(l.recs[r]) == 0 {
      assert Live(l.recs, r) ==> RecoveryOk(l, l.recs[r].value);
    }
    SumZero(l.recs, RecoveryOf(a));
  }

  // ------------------------------------------------------------- assignments

  lemma CreateAssignmentSafe(l: Ledger, device: nat, resourceOk: bool)
    ensures Safe(l, CreateAssignment(l, device, resourceOk))
  {
    var step := CreateAssignment(l, device, resourceOk);
    var slot := Empty(l.assigns);
    if Inv(l) && step.1 == Done {
      NoRecovery(l, slot);
      AssignmentEditKeepsInv(l, step.0, slot);
    }
  }

  lemma DestroyAssignmentSafe(l: Ledger, a: nat)
    ensures Safe(l, DestroyAssignment(l, a))
  {
    if Inv(l) && DestroyAssignment(l, a).1 == Done {
      NoRecovery(l, a);
      AssignmentEditKeepsInv(l, DestroyAssignment(l, a).0, a);
    }
  }

  lemma ClaimSafe(l: Ledger, a: nat, p: Process, supervised: bool, insertOk: bool)
    ensures Safe(l, Claim(l, a, p, supervised, insertOk))
  {
    if Inv(l) && Claim(l, a, p, supervised, insertOk).1 == Done {
      NoRecovery(l, a);
      AssignmentStep(l, a, l.assigns[a].value.(refs := 1, owner := p.id, supervised := supervised, state := Assigned));
    }
  }

  lemma ExposureSafe(l: Ledger, a: nat, owner: nat)
    ensures Safe(l, MarkExposed(l, a, owner))
    ensures Safe(l, NoteInherited(l, a, owner))
  {
    if Inv(l) && NoteInherited(l, a, owner).1 == Done {
      NoRecovery(l, a);
      AssignmentStep(l, a, l.assigns[a].value.(exposed := true));
    }
  }

  lemma ReleaseSafe(l: Ledger, a: nat, owner: nat)
    ensures Safe(l, BeginQuiesce(l, a, owner))
    ensures Safe(l, CompleteRelease(l, a, owner))
  {
    if Inv(l) && BeginQuiesce(l, a, owner).1 == Done {
      NoRecovery(l, a);
      AssignmentStep(l, a, l.assigns[a].value.(state := Quiescing));
    }
    if Inv(l) && CompleteRelease(l, a, owner).1 == Done {
      NoRecovery(l, a);
      AssignmentStep(l, a, l.assigns[a].value.(owner := 0, state := Available));
    }
  }

  lemma QuarantineSafe(l: Ledger, a: nat, owner: nat)
    ensures Safe(l, Quarantine(l, a, owner))
    ensures Inv(l) && ForceQuarantine(l, a, owner).Some? ==>
      Inv(ForceQuarantine(l, a, owner).value) && Tame(l, ForceQuarantine(l, a, owner).value)
  {
    if Inv(l) && Owned(l, a, owner) && l.assigns[a].value.state != Available {
      if l.assigns[a].value.state != Quarantined {
        NoRecovery(l, a);
      }
      AssignmentStep(l, a, l.assigns[a].value.(state := Quarantined));
    }
  }

  /** Capabilities naming the resource come and go. */
  lemma ReferenceSafe(l: Ledger, a: nat, refs: nat)
    requires Live(l.assigns, a)
    ensures Safe(l, (Put(l, a, l.assigns[a].value.(refs := refs)), Done))
  {
    if Inv(l) {
      AssignmentStep(l, a, l.assigns[a].value.(refs := refs));
    }
  }

  /** A constructor that fails after taking its child pin leaves the books as they were. */
  lemma UndoSafe(l: Ledger, l1: Ledger, a: nat, p: Process, handleOk: bool, rid: nat, zeroed: set<nat>)
    requires Inv(l) && ChildAcquire(l, a, p, handleOk) == Some(l1)
    ensures UndoChild(l1.(nextRid := rid, zeroed := zeroed), a, p.id) == (l.(nextRid := rid, zeroed := zeroed), Refused)
    ensures Inv(l.(nextRid := rid, zeroed := zeroed))
  {
    var l2 := l1.(nextRid := rid, zeroed := zeroed);
    assert ChildRelease(l2, a, p.id).value.assigns == l.assigns;
    OtherFieldsSafe(l, rid, zeroed);
  }

  lemma OtherFieldsSafe(l: Ledger, rid: nat, zeroed: set<nat>)
    requires Inv(l)
    ensures Inv(l.(nextRid := rid, zeroed := zeroed))
  {
    var l' := l.(nextRid := rid, zeroed := zeroed);
    forall c | 0 <= c < ASSIGNMENTS ensures Balanced(l', c) {
      assert Balanced(l, c);
    }
    forall r: nat | Live(l'.recs, r) ensures RecoveryOk(l', l'.recs[r].value) {
      assert RecoveryOk(l, l.recs[r].value);
    }
  }

  // --------------------------------------------------------------------- BARs

  lemma CreateBarSafe(l: Ledger, a: nat, p: Process, handleOk: bool, index: nat, probe: Probe, resourceOk: bool,
      insertOk: bool)
    ensures Safe(l, CreateBar(l, a, p, handleOk, index, probe, resourceOk, insertOk))
  {
    var step := CreateBar(l, a, p, handleOk, index, probe, resourceOk, insertOk);
    var acquired := ChildAcquire(l, a, p, handleOk);
    if Inv(l) && acquired.Some? {
      UndoSafe(l, acquired.value, a, p, handleOk, l.nextRid, l.zeroed);
      UndoSafe(l, acquired.value, a, p, handleOk, NextRid(l.nextRid), l.zeroed);
      if step.1 == Done {
        BarEditKeepsInv(l, step.0, a, Empty(l.bars), 0);
      }
    }
  }

  lemma DestroyBarSafe(l: Ledger, i: nat)
    ensures Safe(l, DestroyBar(l, i))
  {
    if Inv(l) && Live(l.bars, i) {
      BarAlwaysValid(l, i);
      if l.bars[i].value.pins == 0 && l.bars[i].value.refs == 0 {
        BarEditKeepsInv(l, DestroyBar(l, i).0, l.bars[i].value.parent, i, 0);
      }
    }
  }

  /** A child pin, an access pin or the gate that is taken and given back leaves the
      ledger unchanged. */
  lemma PinRoundTrips(l: Ledger, a: nat, p: Process, handleOk: bool)
    ensures ChildAcquire(l, a, p, handleOk).Some? ==>
      ChildRelease(ChildAcquire(l, a, p, handleOk).value, a, p.id) == Some(l)
    ensures AccessAcquire(l, a, p.id).Some? ==> AccessRelease(AccessAcquire(l, a, p.id).value, a, p.id) == Some(l)
    ensures GateAcquire(l, a, p.id).Some? ==> GateRelease(GateAcquire(l, a, p.id).value, a, p.id) == Some(l)
  {
    if Live(l.assigns, a) {
      var x := l.assigns[a].value;
      var up, pin, gate := Some(x.(kids := x.kids + 1)), Some(x.(pins := x.pins + 1)), Some(x.(gate := true));
      assert l.assigns[a := up][a := Some(x)] == l.assigns;
      assert l.assigns[a := pin][a := Some(x)] == l.assigns;
      assert l.assigns[a := gate][a := Some(x)] == l.assigns;
    }
  }

  /** Whoever holds a pin or the gate can give it back, in every state: this is why the
      halts that guard the give-backs are unreachable. */
  lemma HoldersCanGiveBack(l: Ledger, i: nat, j: nat, q: nat, k: nat)
    requires Inv(l)
    ensures Live(l.bars, i) ==>
      var b := l.bars[i].value;
      ChildRelease(l, b.parent, b.owner).Some? && (b.pins > 0 ==> AccessRelease(l, b.parent, b.owner).Some?)
    ensures Live(l.buffers, j) ==>
      var b := l.buffers[j].value;
      ChildRelease(l, b.parent, b.owner).Some? && (b.held ==> AccessRelease(l, b.parent, b.owner).Some?)
    ensures Live(l.irqs, q) ==>
      var x := l.irqs[q].value;
      ChildRelease(l, x.parent, x.owner).Some? && (x.held ==> AccessRelease(l, x.parent, x.owner).Some?)
    ensures Live(l.subs, k) ==> GateRelease(l, l.subs[k].value.parent, l.subs[k].value.owner).Some?
  {
    if Live(l.bars, i) {
      BarAlwaysValid(l, i);
      NotAvailable(l, l.bars[i].value.parent);
    }
    if Live(l.buffers, j) {
      BufferValidIffIntact(l, j);
      assert BufferOk(l.assigns, l.buffers[j].value);
      NotAvailable(l, l.buffers[j].value.parent);
    }
    if Live(l.irqs, q) {
      IrqAlwaysValid(l, q);
      NotAvailable(l, l.irqs[q].value.parent);
    }
    if Live(l.subs, k) {
      SubmissionAlwaysValid(l, k);
    }
  }

  lemma NotAvailable(l: Ledger, a: nat)
    requires Inv(l) && Live(l.assigns, a) && l.assigns[a].value.kids > 0
    ensures l.assigns[a].value.state != Available && AssignmentValid(l.assigns[a].value)
  {
  }

  /** An access that is taken and given back leaves the ledger unchanged. */
  lemma BarAcquireRelease(l: Ledger, i: nat, p: Process, handleOk: bool)
    requires Inv(l) && BarAcquire(l, i, p, handleOk).Some?
    ensures BarRelease(BarAcquire(l, i, p, handleOk).value, i, p.id) == Some(l)
  {
    var l1 := BarAcquire(l, i, p, handleOk).value;
    assert BarValid(l1, i);
    var l2 := BarRelease(l1, i, p.id).value;
    assert l2.assigns == l.assigns && l2.bars == l.bars;
  }

  lemma PortAccessSafe(l: Ledger, i: nat, p: Process, handleOk: bool, offset: nat, width: nat)
    ensures Safe(l, PortAccess(l, i, p, handleOk, offset, width))
    ensures Inv(l) ==> PortAccess(l, i, p, handleOk, offset, width).0 == l
  {
    if Inv(l) && BarAcquire(l, i, p, handleOk).Some? {
      BarAcquireRelease(l, i, p, handleOk);
    }
  }

  lemma MapMmioSafe(l: Ledger, i: nat, p: Process, handleOk: bool, offset: nat, size: nat, pagesMapped: nat)
    ensures Safe(l, MapMmio(l, i, p, handleOk, offset, size, pagesMapped))
  {
    if Inv(l) && BarAcquire(l, i, p, handleOk).Some? {
      BarAcquireRelease(l, i, p, handleOk);
      var step := MapMmio(l, i, p, handleOk, offset, size, pagesMapped);
      if step.1 == Done {
        BarEditKeepsInv(l, step.0, l.bars[i].value.parent, i, Empty(l.maps));
      }
    }
  }

  lemma UnmapMmioSafe(l: Ledger, m: nat, unmaps: nat)
    ensures Safe(l, UnmapMmio(l, m, unmaps))
  {
    hide BarsOk, BuffersOk, FramesOk, RecoveryOk, IrqOk, Balanced, BarEdit, BarRelease, BarValid;
    if Inv(l) && Live(l.maps, m) {
      MappingAlwaysValid(l, m);
      var x := l.maps[m].value;
      BarIsLive(l, x.bar);
      var a := l.bars[x.bar].value.parent;
      if unmaps < x.mapped {
        UnmapPart(l, m, unmaps);
        BarEditKeepsInv(l, UnmapMmio(l, m, unmaps).0, a, x.bar, m);
      } else {
        UnmapAll(l, m);
        BarEditKeepsInv(l, UnmapMmio(l, m, unmaps).0, a, x.bar, m);
      }
    }
  }

  lemma BarIsLive(l: Ledger, i: nat)
    requires BarValid(l, i)
    ensures Live(l.bars, i)
  {
  }

  lemma UnmapPart(l: Ledger, m: nat, unmaps: nat)
    requires Inv(l) && Live(l.maps, m) && MappingValid(l, m) && unmaps < l.maps[m].value.mapped
    ensures var x := l.maps[m].value;
            BarEdit(l, l.(maps := l.maps[m := Some(x.(mapped := x.mapped - unmaps))]), l.bars[x.bar].value.parent,
                    x.bar, m)
  {
    hide BuffersOk, FramesOk, RecoveryOk, IrqOk, Balanced;
  }

  lemma UnmapAll(l: Ledger, m: nat)
    requires Inv(l) && Live(l.maps, m) && MappingValid(l, m)
    ensures var x := l.maps[m].value;
            var r := BarRelease(l.(maps := l.maps[m := None]), x.bar, x.owner);
            r.Some? && BarEdit(l, r.value, l.bars[x.bar].value.parent, x.bar, m)
  {
    hide BuffersOk, FramesOk, RecoveryOk, IrqOk, Balanced;
    MappingAlwaysValid(l, m);
    BarAlwaysValid(l, l.maps[m].value.bar);
  }

  // ------------------------------------------------------------- DMA buffers

  lemma CreateBufferSafe(l: Ledger, a: nat, p: Process, handleOk: bool, pages: nat, base: nat, resourceOk: bool,
                         zeroOk: bool, insertOk: bool)
    ensures Safe(l, CreateBuffer(l, a, p, handleOk, pages, base, resourceOk, zeroOk, insertOk))
  {
    var step := CreateBuffer(l, a, p, handleOk, pages, base, resourceOk, zeroOk, insertOk);
    var acquired := ChildAcquire(l, a, p, handleOk);
    if Inv(l) && acquired.Some? {
      UndoSafe(l, acquired.value, a, p, handleOk, l.nextRid, l.zeroed);
      UndoSafe(l, acquired.value, a, p, handleOk, NextRid(l.nextRid), l.zeroed);
      UndoSafe(l, acquired.value, a, p, handleOk, NextRid(l.nextRid), l.zeroed + Span(base, pages));
      if step.1 == Done {
        BufferEditKeepsInv(l, step.0, a, Empty(l.buffers));
      }
    }
  }

  lemma MapBufferSafe(l: Ledger, j: nat, p: Process, handleOk: bool, pagesMapped: nat)
    ensures Safe(l, MapBuffer(l, j, p, handleOk, pagesMapped))
  {
    var step := MapBuffer(l, j, p, handleOk, pagesMapped);
    if Inv(l) && step.1 == Done {
      BufferEditKeepsInv(l, step.0, l.buffers[j].value.parent, j);
    }
  }

  lemma UnmapBufferSafe(l: Ledger, j: nat, owner: nat, unmaps: nat)
    ensures Safe(l, ForceUnmapBuffer(l, j, owner, unmaps))
  {
    if Inv(l) && BufferValid(l, j) && l.buffers[j].value.owner == owner {
      var step := ForceUnmapBuffer(l, j, owner, unmaps);
      if l.buffers[j].value.state == Ready {
        BufferEditKeepsInv(l, step.0, l.buffers[j].value.parent, j);
      } else {
        assert step.0.buffers == l.buffers;
      }
    }
  }

  lemma DestroyBufferSafe(l: Ledger, j: nat)
    ensures Safe(l, DestroyBuffer(l, j))
  {
    if Inv(l) && Live(l.buffers, j) {
      BufferValidIffIntact(l, j);
      var step := DestroyBuffer(l, j);
      if step.1 != Refused {
        BufferEditKeepsInv(l, step.0, l.buffers[j].value.parent, j);
      }
    }
  }

  // --------------------------------------------------------- DMA submissions

  lemma BeginSubmissionSafe(l: Ledger, a: nat, p: Process, assignmentOk: bool, j: nat, bufferOk: bool,
                            offset: nat, size: nat, direction: Direction)
    ensures Safe(l, BeginSubmission(l, a, p, assignmentOk, j, bufferOk, offset, size, direction))
  {
    var step := BeginSubmission(l, a, p, assignmentOk, j, bufferOk, offset, size, direction);
    if Inv(l) && GateAcquire(l, a, p.id).Some? {
      var l1 := GateAcquire(l, a, p.id).value;
      assert GateRelease(l1, a, p.id).value.assigns == l.assigns;
      if step.1 == Done {
        assert DeviceBegin(l1, j, p, bufferOk).Some?;
        SubmissionEditKeepsInv(l, step.0, a, j, Empty(l.subs));
      }
    }
  }

  lemma CompleteSubmissionSafe(l: Ledger, k: nat, p: Process, handleOk: bool)
    ensures Safe(l, CompleteSubmission(l, k, p, handleOk))
  {
    hide BarsOk, FramesOk, RecoveryOk, IrqOk;
    var step := CompleteSubmission(l, k, p, handleOk);
    if Inv(l) && step.1 != Refused {
      SubmissionAlwaysValid(l, k);
      SubmissionEditKeepsInv(l, step.0, l.subs[k].value.parent, l.subs[k].value.buffer, k);
    }
  }

  lemma QuarantineSubmissionSafe(l: Ledger, k: nat)
    ensures Safe(l, QuarantineSubmission(l, k))
  {
    var step := QuarantineSubmission(l, k);
    if Inv(l) && step.1 == Done && l.subs[k].value.state == Active {
      var s := l.subs[k].value;
      QuarantineSafe(l, s.parent, s.owner);
      var l1 := ForceQuarantine(l, s.parent, s.owner).value;
      SubmissionAlwaysValid(l1, k);
      SubmissionEditKeepsInv(l1, step.0, s.parent, s.buffer, k);
      TameChains(l, l1, step.0);
    }
  }

  lemma ResetSubmissionSafe(l: Ledger, k: nat, zeroOk: bool)
    ensures Safe(l, ResetSubmission(l, k, zeroOk))
  {
    hide BarsOk, FramesOk, RecoveryOk, IrqOk;
    var step := ResetSubmission(l, k, zeroOk);
    if Inv(l) && step.1 != Refused {
      SubmissionAlwaysValid(l, k);
      SubmissionEditKeepsInv(l, step.0, l.subs[k].value.parent, l.subs[k].value.buffer, k);
    }
  }

  // --------------------------------------------------------------- interrupts

  lemma CreateIrqSafe(l: Ledger, a: nat, p: Process, handleOk: bool, resourceOk: bool, buildOk: bool)
    ensures Safe(l, CreateIrq(l, a, p, handleOk, resourceOk, buildOk))
  {
    var step := CreateIrq(l, a, p, handleOk, resourceOk, buildOk);
    var acquired := ChildAcquire(l, a, p, handleOk);
    if Inv(l) && acquired.Some? {
      UndoSafe(l, acquired.value, a, p, handleOk, l.nextRid, l.zeroed);
      UndoSafe(l, acquired.value, a, p, handleOk, NextRid(l.nextRid), l.zeroed);
      if step.1 == Done {
        IrqEditKeepsInv(l, step.0, a, Empty(l.irqs));
      }
    }
  }

  lemma DestroyIrqSafe(l: Ledger, q: nat, endpointIdle: bool)
    ensures Safe(l, DestroyIrq(l, q, endpointIdle))
  {
    if Inv(l) && Live(l.irqs, q) {
      IrqAlwaysValid(l, q);
      var step := DestroyIrq(l, q, endpointIdle);
      if step.1 != Refused {
        IrqEditKeepsInv(l, step.0, l.irqs[q].value.parent, q);
      }
    }
  }

  lemma ArmIrqSafe(l: Ledger, q: nat, p: Process, handleOk: bool)
    ensures Safe(l, ArmIrq(l, q, p, handleOk))
  {
    var step := ArmIrq(l, q, p, handleOk);
    if Inv(l) && step.1 == Done {
      IrqEvents.ApplyKeepsWf(l.irqs[q].value.events, IrqEvents.OnArm);
      IrqEditKeepsInv(l, step.0, l.irqs[q].value.parent, q);
    }
  }

  lemma ForceDisarmIrqSafe(l: Ledger, q: nat, owner: nat)
    ensures Safe(l, ForceDisarmIrq(l, q, owner))
  {
    if Inv(l) && Live(l.irqs, q) {
      IrqAlwaysValid(l, q);
      var step := ForceDisarmIrq(l, q, owner);
      if step.0 != l {
        IrqEvents.ApplyKeepsWf(l.irqs[q].value.events, IrqEvents.OnDisarm);
        IrqEditKeepsInv(l, step.0, l.irqs[q].value.parent, q);
      }
    }
  }

  /** Delivery, acknowledgement, storm recovery and receipt change only the event state. */
  lemma IrqEventSafe(l: Ledger, q: nat, e: IrqEvents.Event)
    requires Inv(l) && Live(l.irqs, q) && !e.OnArm? && !e.OnDisarm?
    ensures Safe(l, (PutIrq(l, q, l.irqs[q].value.(events := IrqEvents.Apply(l.irqs[q].value.events, e))), Done))
  {
    var x := l.irqs[q].value;
    IrqAlwaysValid(l, q);
    IrqEvents.ApplyKeepsWf(x.events, e);
    IrqEditKeepsInv(l, PutIrq(l, q, x.(events := IrqEvents.Apply(x.events, e))), x.parent, q);
  }

  lemma DeliverySafe(l: Ledger, q: nat, p: Process, handleOk: bool, accepted: bool, sequence: nat)
    ensures Safe(l, SignalIrq(l, q, accepted))
    ensures Safe(l, AcknowledgeIrq(l, q, p, handleOk, sequence))
    ensures Safe(l, RecoverIrqStorm(l, q, p, handleOk))
    ensures Safe(l, TakeIrqEvent(l, q))
    ensures Safe(l, CloseIrqEvents(l, q))
  {
    hide BarsOk, BuffersOk, FramesOk, RecoveryOk, Balanced;
    if Inv(l) && Live(l.irqs, q) {
      IrqEventSafe(l, q, IrqEvents.OnSignal(accepted));
      IrqEventSafe(l, q, IrqEvents.OnAcknowledge(sequence));
      IrqEventSafe(l, q, IrqEvents.OnRecoverStorm);
      IrqEventSafe(l, q, IrqEvents.OnTake);
      IrqEventSafe(l, q, IrqEvents.OnClose);
    }
  }
}
