/** A wait is settled once: whatever happens afterwards, its result stands. */
module IpcResults {
  import opened Slots
  import opened IpcModel
  import opened IpcInvariant
  import opened IpcTimers
  import opened IpcCalls
  import opened IpcRuns

  /** A wait that has its final result keeps it until its call returns or is aborted. */
  ghost predicate ResultsKept(s: Sys, s': Sys) {
    forall t: nat ::
      Live(s.threads, t) && s.threads[t].value.wait.Some? && s.threads[t].value.wait.value.result != Pending ==>
      Live(s'.threads, t) && (s'.threads[t].value.wait.None? || s'.threads[t].value.wait == s.threads[t].value.wait)
  }

  lemma ProgressResults(s: Sys, s': Sys, e: nat)
    requires Progress(s, s', e)
    ensures ResultsKept(s, s')
  {
  }

  lemma LeftResults(s: Sys, s1: Sys, t: nat, state: ThreadState)
    requires ResultsKept(s, s1) && Parked(s1, t)
    ensures ResultsKept(s, Left(s1, t, state))
  {
  }

  lemma WaitLoopResults(s: Sys, t: nat, park: Park)
    requires Inv(s) && Parked(s, t) && s.current == Some(t)
    ensures ResultsKept(s, WaitLoop(s, t, s.threads[t].value.call.value, park).0)
  {
    hide Linked, TableOk, FinishAndLeave, Leave, ReceiveLocked, Left, Progress;
    var c := s.threads[t].value.call.value;
    ThreadHere(s, t);
    AlwaysReserved(s, c.endpoint, c.kind);
    EndpointHere(s, c.endpoint);
    if !Waiting(s, t, Pending) {
      LeaveEffect(s, t, None);
      LeftResults(s, s, t, Running);
    } else if c.kind == Receive && s.endpoints[c.endpoint].value.mail.Some? {
      var (s1, r) := ReceiveLocked(s, c.endpoint, c.op);
      ReceiveLockedSafe(s, c.endpoint, c.op);
      ReceiveKeepsCall(s, t);
      if r == Done {
        ProgressResults(s, s1, c.endpoint);
      }
      FinishEffect(s1, t, if r == Done then Completed
        else Cancelled, if r == Done then s.endpoints[c.endpoint].value.mail else None);
      LeftResults(s, s1, t, Running);
    } else if park == Fails {
      FinishEffect(s, t, Cancelled, None);
      LeftResults(s, s, t, Running);
    }
  }

  /** Taking a seat changes only the thread that takes it, which had no wait. */
  lemma ReserveResults(s: Sys, s1: Sys, t: nat, kind: Kind, e: nat, st: Option<Stamped>, timed: bool, op: nat, s': Sys)
    requires Live(s.endpoints, e) && Reserve(s, t, kind, e, st, timed, op).Some?
    requires s1 == Reserve(s, t, kind, e, st, timed, op).value.(timed := s1.timed) && ResultsKept(s1, s')
    ensures ResultsKept(s, s')
  {
    forall u: nat | Live(s.threads, u) && s.threads[u].value.wait.Some? &&
      s.threads[u].value.wait.value.result != Pending
      ensures Live(s'.threads, u) &&
        (s'.threads[u].value.wait.None? || s'.threads[u].value.wait == s.threads[u].value.wait)
    {
      assert u != t && s1.threads[u] == s.threads[u];
    }
  }

  lemma BeginResults(s: Sys, t: nat, kind: Kind, e: nat, st: Option<Stamped>, timeout: Option<nat>, op: nat, park: Park)
    requires Inv(s) && Admissible(s, kind, e, st) && TimeoutOk(timeout)
    ensures ResultsKept(s, Begin(s, t, kind, e, st, timeout, op, park).0)
  {
    hide Linked, EntriesOk, Reserve, WaitLoop, Register, FinishAndLeave, ResultsKept, OthersEntered;
    var reserved := Reserve(s, t, kind, e, st, timeout.Some?, op);
    var s' := Begin(s, t, kind, e, st, timeout, op, park).0;
    if reserved.None? {
      NothingResults(s, s');
    } else {
      var s1 := reserved.value;
      ReserveLinked(s, t, kind, e, st, timeout.Some?, op);
      ReserveTable(s, t, kind, e, st, timeout.Some?, op);
      ReserveFacts(s, t, kind, e, st, timeout.Some?, op);
      if timeout.None? {
        UntimedInv(s1, t);
        WaitLoopResults(s1, t, park);
        ReserveResults(s, s1, t, kind, e, st, timeout.Some?, op, s');
      } else {
        TableHasRoom(s, e, kind);
        RegisterSucceeds(s1, t, e, kind, timeout.value);
        RegisterInv(s1, t, timeout.value);
        var s2 := Register(s1, t, e, kind, s1.threads[t].value.call.value.id, timeout.value).value;
        RegisterFacts(s1, t, e, kind, s1.threads[t].value.call.value.id, timeout.value);
        ParkedStays(s1, s2, t);
        WaitLoopResults(s2, t, park);
        ReserveResults(s, s2, t, kind, e, st, timeout.Some?, op, s');
      }
    }
  }

  lemma NothingResults(s: Sys, s': Sys)
    requires s'.threads == s.threads
    ensures ResultsKept(s, s')
  {
  }

  lemma ParkedStays(s: Sys, s': Sys, t: nat)
    requires Parked(s, t) && s' == s.(timed := s'.timed)
    ensures Parked(s', t)
  {
  }

  lemma PollResults(s: Sys)
    requires Inv(s)
    ensures ResultsKept(s, PollAll(s).0)
  {
    hide Linked, TableOk, PollAll;
    PollSafe(s);
    var s' := PollAll(s).0;
    forall t: nat | Live(s.threads, t) && s.threads[t].value.wait.Some? &&
      s.threads[t].value.wait.value.result != Pending
      ensures Live(s'.threads, t) && s'.threads[t].value.wait == s.threads[t].value.wait
    {
      assert Fate(s, s', 0, t);
    }
  }

  lemma SendBlockingResults(s: Sys, resolved: Option<nat>, m: Message, timeout: Option<nat>, park: Park)
    requires Inv(s)
    ensures ResultsKept(s, SendBlocking(s, resolved, m, timeout, park).0)
  {
    hide Linked, TableOk, SendLocked, Begin;
    var s0 := s.(nextOp := s.nextOp + 1);
    HistoryIgnored(s, s0);
    if resolved.Some? && Live(s.endpoints, resolved.value) {
      SendResults(s0, resolved.value, Stamped(s.nextOp, m));
      if s.current.Some? && Admissible(s0, Send, resolved.value, Some(Stamped(s.nextOp, m))) && TimeoutOk(timeout) {
        BeginResults(s0, s.current.value, Send, resolved.value, Some(Stamped(s.nextOp, m)), timeout, s.nextOp, park);
      }
    }
  }

  lemma ReceiveBlockingResults(s: Sys, resolved: Option<nat>, timeout: Option<nat>, park: Park)
    requires Inv(s)
    ensures ResultsKept(s, ReceiveBlocking(s, resolved, timeout, park).0)
  {
    hide Linked, TableOk, ReceiveLocked, Begin;
    var s0 := s.(nextOp := s.nextOp + 1);
    HistoryIgnored(s, s0);
    if resolved.Some? && Live(s.endpoints, resolved.value) {
      ReceiveResults(s0, resolved.value, s.nextOp);
      if s.current.Some? && Admissible(s0, Receive, resolved.value, None) && TimeoutOk(timeout) {
        BeginResults(s0, s.current.value, Receive, resolved.value, None, timeout, s.nextOp, park);
      }
    }
  }

  lemma TryResults(s: Sys, resolved: Option<nat>, m: Message)
    requires Inv(s)
    ensures ResultsKept(s, TrySend(s, resolved, m).0) && ResultsKept(s, TryReceive(s, resolved).0)
  {
    hide Linked, TableOk, SendLocked, ReceiveLocked;
    var s0 := s.(nextOp := s.nextOp + 1);
    HistoryIgnored(s, s0);
    if resolved.Some? {
      SendResults(s0, resolved.value, Stamped(s.nextOp, m));
      ReceiveResults(s0, resolved.value, s.nextOp);
    }
  }

  lemma EndResults(s: Sys, t: nat, e: nat)
    requires Inv(s)
    ensures ResultsKept(s, Abort(s, t).0) && ResultsKept(s, Close(s, e).0)
  {
    hide Linked, TableOk, Abort, Close, Progress, Left;
    AbortSafe(s, t);
    if Abort(s, t).1 == Done {
      LeftResults(s, s, t, Dead);
    }
    CloseSafe(s, e);
    if Close(s, e).1 == Done {
      ProgressResults(s, Close(s, e).0, e);
    }
  }

  lemma LifeResults(s: Sys, op: Op)
    requires op.OpCreateEndpoint? || op.OpDestroyEndpoint? || op.OpSpawn? || op.OpSwitch? || op.OpReap?
    ensures ResultsKept(s, Apply(s, op).0)
  {
    hide TrySend, TryReceive, SendBlocking, ReceiveBlocking, Resume, PollAll, Abort, Close;
  }

  /** Each wait gets at most one final result: no step replaces one, so a committed
      send is never turned into a timeout or a closed peer. */
  lemma ResultsAreFinal(s: Sys, op: Op)
    requires Inv(s)
    ensures ResultsKept(s, Apply(s, op).0)
  {
    hide Linked, TableOk, ResultsKept, TrySend, TryReceive, SendBlocking, ReceiveBlocking, WaitLoop, PollAll, Abort,
      Close;
    match op
    case OpTrySend(resolved, m) => TryResults(s, resolved, m);
    case OpTryReceive(resolved) => TryResults(s, resolved, Message([]));
    case OpSendBlocking(resolved, m, timeout, park) => SendBlockingResults(s, resolved, m, timeout, park);
    case OpReceiveBlocking(resolved, timeout, park) => ReceiveBlockingResults(s, resolved, timeout, park);
    case OpResume(park) =>
      if s.current.Some? && Live(s.threads, s.current.value) && s.threads[s.current.value].value.call.Some? {
        ThreadHere(s, s.current.value);
        WaitLoopResults(s, s.current.value, park);
      } else {
        NothingResults(s, Apply(s, op).0);
      }
    case OpElapse(ticks) => NothingResults(s, Elapse(s, ticks).0);
    case OpPoll => PollResults(s);
    case OpAbort(t) => EndResults(s, t, 0);
    case OpClose(e) => EndResults(s, 0, e);
    case _ => LifeResults(s, op);
  }

  lemma SendResults(s: Sys, e: nat, st: Stamped)
    requires Inv(s)
    ensures ResultsKept(s, SendLocked(s, e, st).0)
  {
    hide Linked, TableOk, SendLocked, Progress;
    SendLockedSafe(s, e, st);
    if SendLocked(s, e, st).1 == Done {
      ProgressResults(s, SendLocked(s, e, st).0, e);
    }
  }

  lemma ReceiveResults(s: Sys, e: nat, op: nat)
    requires Inv(s)
    ensures ResultsKept(s, ReceiveLocked(s, e, op).0)
  {
    hide Linked, TableOk, ReceiveLocked, Progress;
    ReceiveLockedSafe(s, e, op);
    if ReceiveLocked(s, e, op).1 == Done {
      ProgressResults(s, ReceiveLocked(s, e, op).0, e);
    }
  }
}
