/**
 Every run of the device-lifetime ledger: the books stay balanced, no kernel
 halt is reached, and a device that may have mastered the bus is reused only
 after a recovery whose reset completed.
 */
module PciRuns {
  import opened Slots
  import opened PciLedger
  import opened PciRecovery
  import opened PciInvariant
  import opened PciEdits
  import opened PciOperations
  import opened PciSweeps
  import opened PciRecoverySafety
  import IrqEvents

  /* One public call, with what its surroundings answer. The reference calls change
     how many capabilities name a resource, `OpFrames` lets the rest of the kernel
     take free frames and give back frames no buffer owns, and `OpWrite` lets it
     write to memory. */

  datatype AssignmentCall =
    | OpCreateAssignment(device: nat, resourceOk: bool)
    | OpDestroyAssignment(a: nat)
    | OpClaim(a: nat, p: Process, supervised: bool, insertOk: bool)
    | OpMarkExposed(a: nat, owner: nat)
    | OpNoteInherited(a: nat, owner: nat)
    | OpBeginQuiesce(a: nat, owner: nat)
    | OpCompleteRelease(a: nat, owner: nat)
    | OpQuarantine(a: nat, owner: nat)
    | OpForceQuarantine(a: nat, owner: nat)
    | OpReferences(a: nat, refs: nat)

  datatype BarCall =
    | OpCreateBar(a: nat, p: Process, handleOk: bool, index: nat, probe: Probe, resourceOk: bool, insertOk: bool)
    | OpDestroyBar(i: nat)
    | OpPortAccess(i: nat, p: Process, handleOk: bool, offset: nat, width: nat)
    | OpMapMmio(i: nat, p: Process, handleOk: bool, offset: nat, size: nat, pagesMapped: nat)
    | OpUnmapMmio(m: nat, unmaps: nat)
    | OpBarReferences(i: nat, refs: nat)

  datatype BufferCall =
    | OpCreateBuffer(a: nat, p: Process, handleOk: bool, pages: nat, base: nat, resourceOk: bool, zeroOk: bool,
        insertOk: bool)
    | OpMapBuffer(j: nat, p: Process, handleOk: bool, pagesMapped: nat)
    | OpUnmapBuffer(j: nat, p: Process, handleOk: bool, unmaps: nat)
    | OpForceUnmapBuffer(j: nat, owner: nat, unmaps: nat)
    | OpDestroyBuffer(j: nat)
    | OpBufferReferences(j: nat, refs: nat)
    | OpBeginSubmission(a: nat, p: Process, assignmentOk: bool, j: nat, bufferOk: bool, offset: nat, size: nat,
        direction: Direction)
    | OpCompleteSubmission(k: nat, p: Process, handleOk: bool)
    | OpQuarantineSubmission(k: nat)
    | OpFrames(taken: set<nat>, given: set<nat>)
    | OpWrite(frames: set<nat>)

  datatype IrqCall =
    | OpCreateIrq(a: nat, p: Process, handleOk: bool, resourceOk: bool, buildOk: bool)
    | OpDestroyIrq(q: nat, endpointIdle: bool)
    | OpArmIrq(q: nat, p: Process, handleOk: bool)
    | OpDisarmIrq(q: nat, p: Process, handleOk: bool)
    | OpForceDisarmIrq(q: nat, owner: nat)
    | OpSignalIrq(q: nat, accepted: bool)
    | OpAcknowledgeIrq(q: nat, p: Process, handleOk: bool, sequence: nat)
    | OpRecoverIrqStorm(q: nat, p: Process, handleOk: bool)
    | OpTakeIrqEvent(q: nat)
    | OpCloseIrqEvents(q: nat)
    | OpIrqReferences(q: nat, refs: nat)

  datatype RecoveryCall =
    | OpBeginRecovery(slot: nat, a: nat, p: Process, env: Surroundings)
    | OpCompleteWithoutReset(r: nat, commandUnchanged: bool, zeroOk: bool)
    | OpStartReset(r: nat, supported: bool)
    | OpFinishReset(f: nat, outcome: ResetOutcome, zeroOk: bool)
    | OpCompleteAssignment(r: nat)

  datatype Op =
    | OnAssignment(assignment: AssignmentCall)
    | OnBar(bar: BarCall)
    | OnBuffer(buffer: BufferCall)
    | OnIrq(irq: IrqCall)
    | OnRecovery(recovery: RecoveryCall)

  /** Frames that belong to a registered buffer. */
  function BufferFrames(s: Registry<Buffer>): (frames: set<nat>)
    ensures forall f :: f in frames <==> exists j: nat :: Live(s, j) && f in SpanOf(s[j].value)
  {
    if s == [] then {}
    else
      var rest := BufferFrames(s[1..]);
      var frames := (if s[0].Some? then SpanOf(s[0].value) else {}) + rest;
      assert forall f :: f in frames <==> exists j: nat :: Live(s, j) && f in SpanOf(s[j].value) by {
        forall f | f in frames ensures exists j: nat :: Live(s, j) && f in SpanOf(s[j].value) {
          if s[0].Some? && f in SpanOf(s[0].value) {
            assert Live(s, 0);
          } else {
            var j: nat :| Live(s[1..], j) && f in SpanOf(s[1..][j].value);
            assert Live(s, j + 1);
          }
        }
        forall j: nat, f | Live(s, j) && f in SpanOf(s[j].value) ensures f in frames {
          assert j > 0 ==> Live(s[1..], j - 1) && s[1..][j - 1] == s[j];
        }
      }
      frames
  }

  function AssignmentOp(l: Ledger, op: AssignmentCall): (Ledger, Result) {
    match op
    case OpCreateAssignment(device, resourceOk) => CreateAssignment(l, device, resourceOk)
    case OpDestroyAssignment(a) => DestroyAssignment(l, a)
    case OpClaim(a, p, supervised, insertOk) => Claim(l, a, p, supervised, insertOk)
    case OpMarkExposed(a, owner) => MarkExposed(l, a, owner)
    case OpNoteInherited(a, owner) => NoteInherited(l, a, owner)
    case OpBeginQuiesce(a, owner) => BeginQuiesce(l, a, owner)
    case OpCompleteRelease(a, owner) => CompleteRelease(l, a, owner)
    case OpQuarantine(a, owner) => Quarantine(l, a, owner)
    case OpForceQuarantine(a, owner) =>
      (match ForceQuarantine(l, a, owner) case None => (l, Refused) case Some(l1) => (l1, Done))
    case OpReferences(a, refs) =>
      if Live(l.assigns, a) then (Put(l, a, l.assigns[a].value.(refs := refs)), Done) else (l, Refused)
  }

  function BarOp(l: Ledger, op: BarCall): (Ledger, Result) {
    match op
    case OpCreateBar(a, p, handleOk, index, probe, resourceOk, insertOk) =>
      CreateBar(l, a, p, handleOk, index, probe, resourceOk, insertOk)
    case OpDestroyBar(i) => DestroyBar(l, i)
    case OpPortAccess(i, p, handleOk, offset, width) => PortAccess(l, i, p, handleOk, offset, width)
    case OpMapMmio(i, p, handleOk, offset, size, pagesMapped) => MapMmio(l, i, p, handleOk, offset, size, pagesMapped)
    case OpUnmapMmio(m, unmaps) => UnmapMmio(l, m, unmaps)
    case OpBarReferences(i, refs) =>
      if Live(l.bars, i) then (PutBar(l, i, l.bars[i].value.(refs := refs)), Done) else (l, Refused)
  }

  function BufferOp(l: Ledger, op: BufferCall): (Ledger, Result) {
    match op
    case OpCreateBuffer(a, p, handleOk, pages, base, resourceOk, zeroOk, insertOk) =>
      CreateBuffer(l, a, p, handleOk, pages, base, resourceOk, zeroOk, insertOk)
    case OpMapBuffer(j, p, handleOk, pagesMapped) => MapBuffer(l, j, p, handleOk, pagesMapped)
    case OpUnmapBuffer(j, p, handleOk, unmaps) => UnmapBuffer(l, j, p, handleOk, unmaps)
    case OpForceUnmapBuffer(j, owner, unmaps) => ForceUnmapBuffer(l, j, owner, unmaps)
    case OpDestroyBuffer(j) => DestroyBuffer(l, j)
    case OpBufferReferences(j, refs) =>
      if Live(l.buffers, j) then (PutBuffer(l, j, l.buffers[j].value.(refs := refs)), Done) else (l, Refused)
    case OpBeginSubmission(a, p, assignmentOk, j, bufferOk, offset, size, direction) =>
      BeginSubmission(l, a, p, assignmentOk, j, bufferOk, offset, size, direction)
    case OpCompleteSubmission(k, p, handleOk) => CompleteSubmission(l, k, p, handleOk)
    case OpQuarantineSubmission(k) => QuarantineSubmission(l, k)
    case OpFrames(taken, given) => (l.(free := (l.free - taken) + (given - BufferFrames(l.buffers))), Done)
    case OpWrite(frames) => (l.(zeroed := l.zeroed - frames), Done)
  }

  function IrqOp(l: Ledger, op: IrqCall): (Ledger, Result) {
    match op
    case OpCreateIrq(a, p, handleOk, resourceOk, buildOk) => CreateIrq(l, a, p, handleOk, resourceOk, buildOk)
    case OpDestroyIrq(q, endpointIdle) => DestroyIrq(l, q, endpointIdle)
    case OpArmIrq(q, p, handleOk) => ArmIrq(l, q, p, handleOk)
    case OpDisarmIrq(q, p, handleOk) => DisarmIrq(l, q, p, handleOk)
    case OpForceDisarmIrq(q, owner) => ForceDisarmIrq(l, q, owner)
    case OpSignalIrq(q, accepted) => SignalIrq(l, q, accepted)
    case OpAcknowledgeIrq(q, p, handleOk, sequence) => AcknowledgeIrq(l, q, p, handleOk, sequence)
    case OpRecoverIrqStorm(q, p, handleOk) => RecoverIrqStorm(l, q, p, handleOk)
    case OpTakeIrqEvent(q) => TakeIrqEvent(l, q)
    case OpCloseIrqEvents(q) => CloseIrqEvents(l, q)
    case OpIrqReferences(q, refs) =>
      if Live(l.irqs, q) then (PutIrq(l, q, l.irqs[q].value.(refs := refs)), Done) else (l, Refused)
  }

  function RecoveryOp(l: Ledger, op: RecoveryCall): (Ledger, Result) {
    match op
    case OpBeginRecovery(slot, a, p, env) => BeginRecovery(l, slot, a, p, env)
    case OpCompleteWithoutReset(r, commandUnchanged, zeroOk) => CompleteWithoutReset(l, r, commandUnchanged, zeroOk)
    case OpStartReset(r, supported) => StartReset(l, r, supported)
    case OpFinishReset(f, outcome, zeroOk) => FinishReset(l, f, outcome, zeroOk)
    case OpCompleteAssignment(r) => CompleteAssignment(l, r)
  }

  function Apply(l: Ledger, op: Op): (Ledger, Result) {
    match op
    case OnAssignment(call) => AssignmentOp(l, call)
    case OnBar(call) => BarOp(l, call)
    case OnBuffer(call) => BufferOp(l, call)
    case OnIrq(call) => IrqOp(l, call)
    case OnRecovery(call) => RecoveryOp(l, call)
  }

  // ------------------------------------------------------------ one step at a time

  lemma AssignmentOpSafe(l: Ledger, op: AssignmentCall)
    ensures Safe(l, AssignmentOp(l, op))
  {
    hide Safe, Inv, CreateAssignment, DestroyAssignment, Claim, MarkExposed, NoteInherited, BeginQuiesce,
      CompleteRelease, Quarantine;
    match op
    case OpCreateAssignment(device, resourceOk) => CreateAssignmentSafe(l, device, resourceOk);
    case OpDestroyAssignment(a) => DestroyAssignmentSafe(l, a);
    case OpClaim(a, p, supervised, insertOk) => ClaimSafe(l, a, p, supervised, insertOk);
    case OpMarkExposed(a, owner) => ExposureSafe(l, a, owner);
    case OpNoteInherited(a, owner) => ExposureSafe(l, a, owner);
    case OpBeginQuiesce(a, owner) => ReleaseSafe(l, a, owner);
    case OpCompleteRelease(a, owner) => ReleaseSafe(l, a, owner);
    case OpQuarantine(a, owner) => QuarantineSafe(l, a, owner);
    case OpForceQuarantine(a, owner) => ForceQuarantineSafe(l, a, owner); StillSafe(l);
    case OpReferences(a, refs) => if Live(l.assigns, a) { ReferenceSafe(l, a, refs); } else { StillSafe(l); }
  }

  lemma ForceQuarantineSafe(l: Ledger, a: nat, owner: nat)
    ensures ForceQuarantine(l, a, owner).Some? ==> Safe(l, (ForceQuarantine(l, a, owner).value, Done))
  {
    hide Inv;
    QuarantineSafe(l, a, owner);
  }

  lemma StillSafe(l: Ledger)
    ensures Safe(l, (l, Refused))
  {
  }

  lemma BarReferencesSafe(l: Ledger, i: nat, refs: nat)
    requires Live(l.bars, i)
    ensures Safe(l, (PutBar(l, i, l.bars[i].value.(refs := refs)), Done))
  {
    if Inv(l) {
      BarAlwaysValid(l, i);
      BarEditKeepsInv(l, PutBar(l, i, l.bars[i].value.(refs := refs)), l.bars[i].value.parent, i, 0);
    }
  }

  lemma BarOpSafe(l: Ledger, op: BarCall)
    ensures Safe(l, BarOp(l, op))
  {
    hide Safe, Inv, CreateBar, DestroyBar, PortAccess, MapMmio, UnmapMmio;
    match op
    case OpCreateBar(a, p, handleOk, index, probe, resourceOk, insertOk) =>
      CreateBarSafe(l, a, p, handleOk, index, probe, resourceOk, insertOk);
    case OpDestroyBar(i) => DestroyBarSafe(l, i);
    case OpPortAccess(i, p, handleOk, offset, width) => PortAccessSafe(l, i, p, handleOk, offset, width);
    case OpMapMmio(i, p, handleOk, offset, size, pagesMapped) =>
      MapMmioSafe(l, i, p, handleOk, offset, size, pagesMapped);
    case OpUnmapMmio(m, unmaps) => UnmapMmioSafe(l, m, unmaps);
    case OpBarReferences(i, refs) => if Live(l.bars, i) { BarReferencesSafe(l, i, refs); } else { StillSafe(l); }
  }

  lemma BufferReferencesSafe(l: Ledger, j: nat, refs: nat)
    requires Live(l.buffers, j)
    ensures Safe(l, (PutBuffer(l, j, l.buffers[j].value.(refs := refs)), Done))
  {
    if Inv(l) {
      var b := l.buffers[j].value;
      BufferValidIffIntact(l, j);
      var l' := PutBuffer(l, j, b.(refs := refs));
      if b.state == Ready {
        BufferEditKeepsInv(l, l', b.parent, j);
      } else {
        var k := BusyBufferHasSubmission(l, j);
        SubmissionAlwaysValid(l, k);
        assert l'.subs == l.subs[k := l'.subs[k]];
        SubmissionEditKeepsInv(l, l', b.parent, j, k);
      }
    }
  }

  lemma FrameOpsSafe(l: Ledger, taken: set<nat>, given: set<nat>, written: set<nat>)
    ensures Safe(l, (l.(free := (l.free - taken) + (given - BufferFrames(l.buffers))), Done))
    ensures Safe(l, (l.(zeroed := l.zeroed - written), Done))
  {
    if Inv(l) {
      OtherFieldsSafe(l, l.nextRid, l.zeroed - written);
      assert l.(nextRid := l.nextRid, zeroed := l.zeroed - written) == l.(zeroed := l.zeroed - written);
      var l' := l.(free := (l.free - taken) + (given - BufferFrames(l.buffers)));
      forall c | 0 <= c < ASSIGNMENTS ensures Balanced(l', c) {
        assert Balanced(l, c);
      }
      forall r: nat | Live(l'.recs, r) ensures RecoveryOk(l', l'.recs[r].value) {
        assert RecoveryOk(l, l.recs[r].value);
      }
      forall j: nat | Live(l'.buffers, j) ensures SpanOf(l'.buffers[j].value) !! l'.free {
        assert SpanOf(l.buffers[j].value) !! l.free;
      }
    }
  }

  lemma BufferOpSafe(l: Ledger, op: BufferCall)
    ensures Safe(l, BufferOp(l, op))
  {
    hide Safe, Inv, CreateBuffer, MapBuffer, ForceUnmapBuffer, DestroyBuffer, BeginSubmission, CompleteSubmission,
      QuarantineSubmission;
    match op
    case OpCreateBuffer(a, p, handleOk, pages, base, resourceOk, zeroOk, insertOk) =>
      CreateBufferSafe(l, a, p, handleOk, pages, base, resourceOk, zeroOk, insertOk);
    case OpMapBuffer(j, p, handleOk, pagesMapped) => MapBufferSafe(l, j, p, handleOk, pagesMapped);
    case OpUnmapBuffer(j, p, handleOk, unmaps) => UnmapBufferSafe(l, j, p.id, unmaps); StillSafe(l);
    case OpForceUnmapBuffer(j, owner, unmaps) => UnmapBufferSafe(l, j, owner, unmaps);
    case OpDestroyBuffer(j) => DestroyBufferSafe(l, j);
    case OpBufferReferences(j, refs) =>
      if Live(l.buffers, j) { BufferReferencesSafe(l, j, refs); } else { StillSafe(l); }
    case OpBeginSubmission(a, p, assignmentOk, j, bufferOk, offset, size, direction) =>
      BeginSubmissionSafe(l, a, p, assignmentOk, j, bufferOk, offset, size, direction);
    case OpCompleteSubmission(k, p, handleOk) => CompleteSubmissionSafe(l, k, p, handleOk);
    case OpQuarantineSubmission(k) => QuarantineSubmissionSafe(l, k);
    case OpFrames(taken, given) => FrameOpsSafe(l, taken, given, {});
    case OpWrite(frames) => FrameOpsSafe(l, {}, {}, frames);
  }

  lemma IrqReferencesSafe(l: Ledger, q: nat, refs: nat)
    requires Live(l.irqs, q)
    ensures Safe(l, (PutIrq(l, q, l.irqs[q].value.(refs := refs)), Done))
  {
    if Inv(l) {
      IrqAlwaysValid(l, q);
      IrqEditKeepsInv(l, PutIrq(l, q, l.irqs[q].value.(refs := refs)), l.irqs[q].value.parent, q);
    }
  }

  lemma IrqOpSafe(l: Ledger, op: IrqCall)
    ensures Safe(l, IrqOp(l, op))
  {
    hide Safe, Inv, CreateIrq, DestroyIrq, ArmIrq, ForceDisarmIrq, SignalIrq, AcknowledgeIrq, RecoverIrqStorm,
      TakeIrqEvent, CloseIrqEvents;
    match op
    case OpCreateIrq(a, p, handleOk, resourceOk, buildOk) => CreateIrqSafe(l, a, p, handleOk, resourceOk, buildOk);
    case OpDestroyIrq(q, endpointIdle) => DestroyIrqSafe(l, q, endpointIdle);
    case OpArmIrq(q, p, handleOk) => ArmIrqSafe(l, q, p, handleOk);
    case OpDisarmIrq(q, p, handleOk) => ForceDisarmIrqSafe(l, q, p.id); StillSafe(l);
    case OpForceDisarmIrq(q, owner) => ForceDisarmIrqSafe(l, q, owner);
    case OpSignalIrq(q, accepted) => DeliverySafe(l, q, Process(0, false, false), false, accepted, 0);
    case OpAcknowledgeIrq(q, p, handleOk, sequence) => DeliverySafe(l, q, p, handleOk, false, sequence);
    case OpRecoverIrqStorm(q, p, handleOk) => DeliverySafe(l, q, p, handleOk, false, 0);
    case OpTakeIrqEvent(q) => DeliverySafe(l, q, Process(0, false, false), false, false, 0);
    case OpCloseIrqEvents(q) => DeliverySafe(l, q, Process(0, false, false), false, false, 0);
    case OpIrqReferences(q, refs) => if Live(l.irqs, q) { IrqReferencesSafe(l, q, refs); } else { StillSafe(l); }
  }

  /** The step closes recovery `r` for a device that is DMA-safe, and after a
      completed reset if one was required. It removes that record and touches
      only its assignment. */
  ghost predicate Closes(l: Ledger, l': Ledger, op: Op, r: nat) {
    && op == OnRecovery(OpCompleteAssignment(r)) && Live(l.recs, r) && l.recs[r].value.state == DmaSafe
    && (ResetRequired(l.recs[r].value) ==> l.recs[r].value.completed)
    && (At(l.assigns, l.recs[r].value.parent).exposed ==> l.recs[r].value.exposed)
    && l'.recs == l.recs[r := None]
    && (forall c :: 0 <= c < ASSIGNMENTS && c != l.recs[r].value.parent ==> At(l'.assigns, c) == At(l.assigns, c))
  }

  /** Every operation, in every reachable state: the invariant holds afterwards,
      no halt is reached, and each record and assignment moves as allowed unless
      this is the step that closes its recovery. */
  lemma StepSound(l: Ledger, op: Op)
    requires Inv(l)
    ensures var (l', res) := Apply(l, op);
            Inv(l') && res != Halt && (Orderly(l, l') || exists r: nat :: Closes(l, l', op, r))
  {
    hide Inv, Orderly, Closes, AssignmentOp, BarOp, BufferOp, IrqOp, RecoveryOp;
    match op
    case OnAssignment(call) => AssignmentOpSafe(l, call); SafeOrderly(l, AssignmentOp(l, call));
    case OnBar(call) => BarOpSafe(l, call); SafeOrderly(l, BarOp(l, call));
    case OnBuffer(call) => BufferOpSafe(l, call); SafeOrderly(l, BufferOp(l, call));
    case OnIrq(call) => IrqOpSafe(l, call); SafeOrderly(l, IrqOp(l, call));
    case OnRecovery(call) => RecoveryOpSound(l, call);
  }

  lemma SafeOrderly(l: Ledger, step: (Ledger, Result))
    requires Inv(l) && Safe(l, step)
    ensures Inv(step.0) && step.1 != Halt && Orderly(l, step.0)
  {
    hide Inv;
    TameOrderly(l, step.0);
  }

  lemma RecoveryOpSound(l: Ledger, call: RecoveryCall)
    requires Inv(l)
    ensures var (l', res) := RecoveryOp(l, call);
            Inv(l') && res != Halt && (Orderly(l, l') || exists r: nat :: Closes(l, l', OnRecovery(call), r))
  {
    hide Inv, BeginRecovery, CompleteWithoutReset, StartReset, FinishReset;
    match call
    case OpBeginRecovery(slot, a, p, env) => BeginRecoverySound(l, slot, a, p, env);
    case OpCompleteWithoutReset(r, commandUnchanged, zeroOk) =>
      CompleteWithoutResetSound(l, r, commandUnchanged, zeroOk);
    case OpStartReset(r, supported) => StartResetSound(l, r, supported);
    case OpFinishReset(f, outcome, zeroOk) => FinishResetSound(l, f, outcome, zeroOk);
    case OpCompleteAssignment(r) =>
      CompleteAssignmentSound(l, r);
      if CompleteAssignment(l, r).1 == Done {
        assert Closes(l, CompleteAssignment(l, r).0, OnRecovery(call), r);
      }
  }

  // ---------------------------------------------------------------------- runs

  const Boot: Ledger := Ledger(
    Blank(ASSIGNMENTS), Blank(BARS), Blank(MAPPINGS), Blank(BUFFERS),
    Blank(SUBMISSIONS), Blank(IRQS), Blank(RECOVERIES), 1, {}, {}, 1, [])

  function Run(l: Ledger, ops: seq<Op>): Ledger
    decreases |ops|
  {
    if ops == [] then l else Run(Apply(l, ops[0]).0, ops[1..])
  }

  ghost predicate Vacant<T(!new)>(s: Registry<T>) {
    forall i :: 0 <= i < |s| ==> s[i].None?
  }

  lemma VacantInv(l: Ledger)
    requires Shape(l) && Vacant(l.assigns) && Vacant(l.bars) && Vacant(l.maps) && Vacant(l.buffers) && Vacant(l.subs)
    requires Vacant(l.irqs) && Vacant(l.recs)
    ensures Inv(l)
  {
    forall a | 0 <= a < ASSIGNMENTS ensures Balanced(l, a) {
      SumZero(l.bars, BarPin(a)); SumZero(l.bars, BarKid(a));
      SumZero(l.buffers, BufferPin(a)); SumZero(l.buffers, BufferKid(a));
      SumZero(l.irqs, IrqPin(a)); SumZero(l.irqs, IrqKid(a));
      SumZero(l.subs, SubOf(a)); SumZero(l.recs, RecoveryOf(a));
    }
    forall i | 0 <= i < BARS ensures Sum(l.maps, MappingOn(i)) == 0 {
      SumZero(l.maps, MappingOn(i));
    }
    forall j | 0 <= j < BUFFERS ensures Sum(l.subs, SubOn(j)) == 0 {
      SumZero(l.subs, SubOn(j));
    }
  }

  lemma BootInv()
    ensures Inv(Boot)
  {
    hide Inv, Blank;
    VacantInv(Boot);
  }

  lemma {:induction false} RunKeepsInv(l: Ledger, ops: seq<Op>)
    requires Inv(l)
    ensures Inv(Run(l, ops))
    decreases |ops|
  {
    hide Inv, Apply;
    if ops != [] {
      StepSound(l, ops[0]);
      RunKeepsInv(Apply(l, ops[0]).0, ops[1..]);
    }
  }

  /** Whole runs from boot: the counters of every assignment agree with the
      registries, and no operation of the run reaches a kernel halt. */
  lemma RunFromBoot(ops: seq<Op>, next: Op)
    ensures Inv(Run(Boot, ops))
    ensures Apply(Run(Boot, ops), next).1 != Halt
  {
    hide Inv, Apply;
    BootInv();
    RunKeepsInv(Boot, ops);
    StepSound(Run(Boot, ops), next);
  }

  /** Conservation over whole runs: an assignment's access count is the sum of its
      BARs' access counts and the pins of its DMA buffers and interrupts, its child
      count is the number of its registered objects, and a BAR's access count is the
      number of its live mappings. */
  lemma PinsConserved(ops: seq<Op>, a: nat)
    requires a < ASSIGNMENTS
    ensures var l := Run(Boot, ops);
            && At(l.assigns, a).pins == Sum(l.bars, BarPin(a)) + Sum(l.buffers, BufferPin(a)) + Sum(l.irqs, IrqPin(a))
            && At(l.assigns, a).kids == Sum(l.bars, BarKid(a)) + Sum(l.buffers, BufferKid(a)) + Sum(l.irqs, IrqKid(a))
            && (forall i: nat :: Live(l.bars, i) ==> l.bars[i].value.pins == Sum(l.maps, MappingOn(i)))
  {
    hide Apply, Run;
    BootInv();
    RunKeepsInv(Boot, ops);
    assert Balanced(Run(Boot, ops), a);
  }

  /** The DMA gate is set exactly when one registered submission holds it. */
  lemma GateIffOneSubmission(l: Ledger, a: nat)
    requires Inv(l) && a < ASSIGNMENTS
    ensures At(l.assigns, a).gate <==> exists k: nat :: Live(l.subs, k) && l.subs[k].value.parent == a
    ensures forall k: nat, n: nat ::
      Live(l.subs, k) && Live(l.subs, n) && l.subs[k].value.parent == a == l.subs[n].value.parent ==> k == n
  {
    assert Balanced(l, a);
    if At(l.assigns, a).gate {
      var k := SumPositive(l.subs, SubOf(a));
      assert Live(l.subs, k);
    }
    forall k: nat, n: nat | Live(l.subs, k) && Live(l.subs, n) && l.subs[k].value.parent == a == l.subs[n].value.parent
      ensures k == n && At(l.assigns, a).gate
    {
      SumAtLeast(l.subs, k, SubOf(a));
      if k < n {
        SumPair(l.subs, k, n, SubOf(a));
      } else if n < k {
        SumPair(l.subs, n, k, SubOf(a));
      }
    }
  }

  /** While a submission lives, no BAR access of its assignment is live, its buffer
      has no CPU mapping, its bytes lie inside the buffer, and the buffer's frames
      stay allocated and belong to no other buffer. */
  lemma DmaExcludesCpu(l: Ledger, k: nat)
    requires Inv(l) && Live(l.subs, k)
    ensures var s := l.subs[k].value;
            && (forall i: nat :: Live(l.bars, i) && l.bars[i].value.parent == s.parent ==> l.bars[i].value.pins == 0)
            && Live(l.buffers, s.buffer)
            && var b := l.buffers[s.buffer].value;
               && b.mapped == 0 && b.held
               && b.base * PAGE <= s.base && s.base + s.size <= (b.base + b.pages) * PAGE
               && SpanOf(b) !! l.free
               && (forall j: nat :: Live(l.buffers, j) && j != s.buffer ==> SpanOf(l.buffers[j].value) !! SpanOf(b))
  {
    SubmissionAlwaysValid(l, k);
    forall i: nat | Live(l.bars, i) && l.bars[i].value.parent == l.subs[k].value.parent
      ensures l.bars[i].value.pins == 0 {
      SumAtLeast(l.bars, i, BarPin(l.subs[k].value.parent));
    }
    assert BufferOk(l.assigns, l.buffers[l.subs[k].value.buffer].value);
  }

  /** Some step of the run closes a recovery of assignment `a` that required, and
      had, a completed reset. */
  ghost predicate ReusedAfterReset(l: Ledger, ops: seq<Op>, a: nat)
    decreases |ops|
  {
    ops != [] &&
    var l' := Apply(l, ops[0]).0;
    || (exists r: nat :: Closes(l, l', ops[0], r) && l.recs[r].value.parent == a && l.recs[r].value.completed)
    || ReusedAfterReset(l', ops[1..], a)
  }

  /** A device whose current incarnation is marked bus-master-exposed becomes
      available again only through a recovery whose reset completed. */
  lemma {:induction false} ExposedReusedOnlyAfterReset(l: Ledger, ops: seq<Op>, a: nat)
    requires Inv(l) && a < ASSIGNMENTS && At(l.assigns, a).exposed
    requires At(Run(l, ops).assigns, a).state == Available
    ensures ReusedAfterReset(l, ops, a)
    decreases |ops|
  {
    hide Inv, Apply;
    if ops == [] {
      ExposedNotAvailable(l, a);
    } else {
      StepSound(l, ops[0]);
      var l' := Apply(l, ops[0]).0;
      if At(l'.assigns, a).exposed {
        ExposedReusedOnlyAfterReset(l', ops[1..], a);
      } else {
        var r: nat :| Closes(l, l', ops[0], r);
        assert l.recs[r].value.parent == a;
      }
    }
  }

  lemma ExposedNotAvailable(l: Ledger, a: nat)
    requires Inv(l) && At(l.assigns, a).exposed
    ensures At(l.assigns, a).state != Available
  {
  }

  /** The same for a device found bus-mastering when its recovery began: while
      the record lives the assignment stays quarantined. */
  lemma {:induction false} BusMasterReusedOnlyAfterReset(l: Ledger, ops: seq<Op>, r: nat)
    requires Inv(l) && Live(l.recs, r) && l.recs[r].value.busMaster
    requires At(Run(l, ops).assigns, l.recs[r].value.parent).state == Available
    ensures ReusedAfterReset(l, ops, l.recs[r].value.parent)
    decreases |ops|
  {
    hide Inv, Apply;
    RecordHolds(l, r);
    if ops != [] {
      StepSound(l, ops[0]);
      var l' := Apply(l, ops[0]).0;
      if Live(l'.recs, r) {
        BusMasterReusedOnlyAfterReset(l', ops[1..], r);
      } else {
        assert Closes(l, l', ops[0], r);
      }
    }
  }

  lemma RecordHolds(l: Ledger, r: nat)
    requires Inv(l) && Live(l.recs, r)
    ensures l.recs[r].value.parent < ASSIGNMENTS
    ensures At(l.assigns, l.recs[r].value.parent).state == Quarantined
  {
  }

  /** A failed recovery is never left: its assignment stays quarantined for the
      rest of every run. */
  lemma {:induction false} FailedIsForever(l: Ledger, ops: seq<Op>, r: nat)
    requires Inv(l) && Live(l.recs, r) && l.recs[r].value.state == FailedQuarantined
    ensures var l' := Run(l, ops);
            && Live(l'.recs, r) && l'.recs[r].value.state == FailedQuarantined
            && l'.recs[r].value.parent == l.recs[r].value.parent
            && At(l'.assigns, l.recs[r].value.parent).state == Quarantined
    decreases |ops|
  {
    hide Inv, Apply;
    RecordHolds(l, r);
    if ops != [] {
      StepSound(l, ops[0]);
      FailedIsForever(Apply(l, ops[0]).0, ops[1..], r);
    }
  }

  /** While an assignment is quarantined no step gives it a new access pin, child
      pin holder's gate, or owner; only closing its recovery ends the quarantine. */
  lemma QuarantineAdmitsNothing(l: Ledger, op: Op, a: nat)
    requires Inv(l) && a < ASSIGNMENTS && At(l.assigns, a).state == Quarantined
    ensures var x, x' := At(l.assigns, a), At(Apply(l, op).0.assigns, a);
            || (x'.state == Quarantined && x'.owner == x.owner && x'.pins <= x.pins && (x'.gate ==> x.gate))
            || (exists r: nat :: Closes(l, Apply(l, op).0, op, r) && l.recs[r].value.parent == a)
  {
    hide Inv, Apply;
    StepSound(l, op);
  }
}
