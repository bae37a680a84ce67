/**
 When a wait times out: only a poll does it, never before the timeout has elapsed,
 and a poll does it however late it comes, for 2^63 ticks after the deadline.
 */
module IpcTimeouts {
  import opened Slots
  import opened IpcModel
  import opened IpcInvariant
  import opened IpcTimers
  import opened IpcCalls
  import opened IpcRuns

  // ------------------------------------------------- what does not time out a wait

  /** Thread `t` has no timed-out wait that it did not have before. */
  predicate Quiet(s: Sys, s': Sys, t: nat) {
    Waiting(s', t, TimedOut) ==> Waiting(s, t, TimedOut) && s'.threads[t].value.wait == s.threads[t].value.wait
  }

  lemma ReceiveQuiet(s: Sys, e: nat, op: nat, t: nat)
    ensures Quiet(s, ReceiveLocked(s, e, op).0, t)
  {
    hide MoveUp, Reserved;
    if Live(s.endpoints, e) {
      var x := s.endpoints[e].value;
      if x.mail.Some? && x.staged.Some? && x.sender.Some? {
        MoveUpQuiet(s, e, op, t);
      }
    }
  }

  lemma MoveUpQuiet(s: Sys, e: nat, op: nat, t: nat)
    requires Live(s.endpoints, e) && s.endpoints[e].value.mail.Some? && s.endpoints[e].value.staged.Some?
    requires s.endpoints[e].value.sender.Some?
    ensures Quiet(s, MoveUp(s, e, op).0, t)
  {
    hide Matches, Schedulable;
  }

  lemma LeaveQuiet(s: Sys, u: nat, c: Call, content: Option<Stamped>, t: nat)
    ensures Quiet(s, Leave(s, u, c, content).0, t)
  {
  }

  lemma FinishQuiet(s: Sys, u: nat, c: Call, result: WaitResult, content: Option<Stamped>, t: nat)
    requires result != TimedOut
    ensures Quiet(s, FinishAndLeave(s, u, c, result, content).0, t)
  {
    hide Leave;
    var s1 := TryComplete(s, u, c.kind, c.endpoint, c.id, result);
    if s1.Some? {
      LeaveQuiet(s1.value, u, c, content, t);
    }
  }

  lemma WaitLoopQuiet(s: Sys, u: nat, c: Call, park: Park, t: nat)
    ensures Quiet(s, WaitLoop(s, u, c, park).0, t)
  {
    hide Leave, FinishAndLeave, ReceiveLocked, Reserved, Matches;
    var (s1, r) := ReceiveLocked(s, c.endpoint, c.op);
    ReceiveQuiet(s, c.endpoint, c.op, t);
    LeaveQuiet(s, u, c, None, t);
    FinishQuiet(s, u, c, Cancelled, None, t);
    if Live(s.endpoints, c.endpoint) {
      FinishQuiet(s1, u, c, if r == Done then Completed else Cancelled,
                  if r == Done then s.endpoints[c.endpoint].value.mail else None, t);
    }
  }

  lemma BeginQuiet(s: Sys, u: nat, kind: Kind, e: nat, st: Option<Stamped>, timeout: Option<nat>, op: nat, park: Park,
      t: nat)
    requires Live(s.endpoints, e)
    ensures Quiet(s, Begin(s, u, kind, e, st, timeout, op, park).0, t)
  {
    hide WaitLoop, FinishAndLeave;
    var s1 := Reserve(s, u, kind, e, st, timeout.Some?, op);
    if s1.Some? {
      var c := s1.value.threads[u].value.call.value;
      WaitLoopQuiet(s1.value, u, c, park, t);
      FinishQuiet(s1.value, u, c.(timed := false), Cancelled, None, t);
      if timeout.Some? && Register(s1.value, u, e, kind, c.id, timeout.value).Some? {
        WaitLoopQuiet(Register(s1.value, u, e, kind, c.id, timeout.value).value, u, c, park, t);
      }
    }
  }

  lemma SendQuiet(s: Sys, e: nat, st: Stamped, t: nat)
    ensures Quiet(s, SendLocked(s, e, st).0, t)
  {
  }

  lemma BlockingQuiet(s: Sys, resolved: Option<nat>, m: Message, timeout: Option<nat>, park: Park, t: nat)
    ensures Quiet(s, SendBlocking(s, resolved, m, timeout, park).0, t)
    ensures Quiet(s, ReceiveBlocking(s, resolved, timeout, park).0, t)
  {
    hide SendLocked, ReceiveLocked, Begin;
    if s.current.Some? && resolved.Some? && Live(s.endpoints, resolved.value) {
      var op := s.nextOp;
      var s0 := s.(nextOp := op + 1);
      SendQuiet(s0, resolved.value, Stamped(op, m), t);
      ReceiveQuiet(s0, resolved.value, op, t);
      BeginQuiet(s0, s.current.value, Send, resolved.value, Some(Stamped(op, m)), timeout, op, park, t);
      BeginQuiet(s0, s.current.value, Receive, resolved.value, None, timeout, op, park, t);
    }
  }

  lemma CloseQuiet(s: Sys, e: nat, t: nat)
    ensures Quiet(s, Close(s, e).0, t)
  {
    hide CloseSeat, Reserved;
    if Live(s.endpoints, e) {
      SeatQuiet(Discard(s, e), e, Receive, t);
      var s2 := CloseSeat(Discard(s, e), e, Receive).0;
      if Live(s2.endpoints, e) {
        SeatQuiet(s2, e, Send, t);
      }
    }
  }

  lemma SeatQuiet(s: Sys, e: nat, kind: Kind, t: nat)
    requires Live(s.endpoints, e)
    ensures Quiet(s, CloseSeat(s, e, kind).0, t)
  {
    hide Schedulable;
  }

  lemma TryQuiet(s: Sys, resolved: Option<nat>, m: Message, t: nat)
    ensures Quiet(s, TrySend(s, resolved, m).0, t) && Quiet(s, TryReceive(s, resolved).0, t)
  {
    hide SendLocked, ReceiveLocked;
    if resolved.Some? {
      SendQuiet(s.(nextOp := s.nextOp + 1), resolved.value, Stamped(s.nextOp, m), t);
      ReceiveQuiet(s.(nextOp := s.nextOp + 1), resolved.value, s.nextOp, t);
    }
  }

  lemma LifeQuiet(s: Sys, op: Op, t: nat)
    requires op.OpAbort? || op.OpCreateEndpoint? || op.OpDestroyEndpoint? || op.OpSpawn? || op.OpSwitch? ||
      op.OpReap? || op.OpElapse?
    ensures Quiet(s, Apply(s, op).0, t)
  {
    hide TrySend, TryReceive, SendBlocking, ReceiveBlocking, WaitLoop, PollAll, Close;
  }

  /** Nothing but a poll times out a wait. */
  lemma OnlyPollsTimeOut(s: Sys, op: Op, t: nat)
    requires op != OpPoll
    ensures Quiet(s, Apply(s, op).0, t)
  {
    hide Quiet, TrySend, TryReceive, SendBlocking, ReceiveBlocking, WaitLoop, PollAll, Abort, Close;
    match op
    case OpTrySend(resolved, m) => TryQuiet(s, resolved, m, t);
    case OpTryReceive(resolved) => TryQuiet(s, resolved, Message([]), t);
    case OpSendBlocking(resolved, m, timeout, park) => BlockingQuiet(s, resolved, m, timeout, park, t);
    case OpReceiveBlocking(resolved, timeout, park) => BlockingQuiet(s, resolved, Message([]), timeout, park, t);
    case OpResume(park) => ResumeQuiet(s, park, t);
    case OpClose(e) => CloseQuiet(s, e, t);
    case _ => LifeQuiet(s, op, t);
  }

  lemma ResumeQuiet(s: Sys, park: Park, t: nat)
    ensures Quiet(s, Resume(s, park).0, t)
  {
    hide WaitLoop;
    if s.current.Some? && Live(s.threads, s.current.value) && s.threads[s.current.value].value.call.Some? {
      WaitLoopQuiet(s, s.current.value, s.threads[s.current.value].value.call.value, park, t);
    }
  }

  // ---------------------------------------------------------------- whole runs

  /** The timeout of thread `t` has elapsed. */
  ghost predicate Overdue(s: Sys, t: nat) {
    exists i: nat ::
      Live(s.timed, i) && s.timed[i].value.thread == t &&
        Elapsed(s.time, s.timed[i].value.start + s.timed[i].value.ticks)
  }

  /** Over every run, for every start, timeout and lag: a pending wait times out in a
      step exactly when the step is a poll and the wait's timeout has elapsed. */
  lemma TimesOutIff(ops: seq<Op>, op: Op, t: nat)
    requires Waiting(Run(Boot, ops), t, Pending)
    ensures var s := Run(Boot, ops);
            Waiting(Apply(s, op).0, t, TimedOut) <==> op == OpPoll && Overdue(s, t)
  {
    hide Apply, Run, PollAll, Overdue, Inv;
    RunFromBoot(ops, op);
    var s := Run(Boot, ops);
    PollStep(s);
    if op == OpPoll {
      PollTimesOutIff(s, t);
    } else {
      OnlyPollsTimeOut(s, op, t);
    }
  }

  lemma PollTimesOutIff(s: Sys, t: nat)
    requires Inv(s) && Waiting(s, t, Pending)
    ensures Waiting(PollAll(s).0, t, TimedOut) <==> Overdue(s, t)
  {
    hide Inv, PollAll, Elapsed;
    PollSafe(s);
    assert Fate(s, PollAll(s).0, 0, t);
    if DueFrom(s, 0, t) {
      var i: nat :| Live(s.timed, i) && s.timed[i].value.thread == t && DueNow(s, s.timed[i].value);
      assert Overdue(s, t);
    }
    if Overdue(s, t) {
      var i: nat :|
        Live(s.timed, i) && s.timed[i].value.thread == t &&
          Elapsed(s.time, s.timed[i].value.start + s.timed[i].value.ticks);
      assert DueNow(s, s.timed[i].value);
      assert DueFrom(s, 0, t);
    }
  }

  lemma PollStep(s: Sys)
    ensures Apply(s, OpPoll) == PollAll(s)
  {
  }

  /** Never early, and never missed by a poll that comes at the deadline or up to
      2^63 - 1 ticks after it. */
  lemma TimeoutWindow(ops: seq<Op>, i: nat)
    requires Live(Run(Boot, ops).timed, i) && Waiting(Run(Boot, ops), Run(Boot, ops).timed[i].value.thread, Pending)
    ensures var s := Run(Boot, ops);
            var x := s.timed[i].value;
            var deadline := x.start + x.ticks;
            && (s.time < deadline ==> Waiting(PollAll(s).0, x.thread, Pending))
            && (deadline <= s.time < deadline + HALF ==> Waiting(PollAll(s).0, x.thread, TimedOut))
  {
    hide Apply, Run, PollAll, Linked;
    RunFromBoot(ops, OpPoll);
    var s := Run(Boot, ops);
    var t := s.timed[i].value.thread;
    PollSafe(s);
    assert Fate(s, PollAll(s).0, 0, t);
    if DueNow(s, s.timed[i].value) {
      assert DueFrom(s, 0, t);
    }
    if DueFrom(s, 0, t) {
      var j: nat :| Live(s.timed, j) && s.timed[j].value.thread == t && DueNow(s, s.timed[j].value);
      assert j == i;
    }
  }
}
