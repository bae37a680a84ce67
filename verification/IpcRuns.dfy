/**
 Every run of the message-passing system keeps the invariant and reaches no halt:
 no wakeup is lost, and every wait gets one final result.
 */
module IpcRuns {
  import opened Slots
  import opened IpcModel
  import opened IpcInvariant
  import opened IpcTimers
  import opened IpcCalls

  lemma SendSafe(s: Sys, e: nat, st: Stamped)
    requires Inv(s)
    ensures SendLocked(s, e, st).1 != Halt && Inv(SendLocked(s, e, st).0)
  {
    hide SendLocked, Linked, TableOk, Progress;
    SendLockedSafe(s, e, st);
    if SendLocked(s, e, st).1 == Done {
      ProgressInv(s, SendLocked(s, e, st).0, e);
    }
  }

  lemma ReceiveSafe(s: Sys, e: nat, op: nat)
    requires Inv(s)
    ensures ReceiveLocked(s, e, op).1 != Halt && Inv(ReceiveLocked(s, e, op).0)
    ensures ReceiveNow(s, e, op).1 == Done && Inv(ReceiveNow(s, e, op).0)
  {
    hide ReceiveLocked, Linked, TableOk, Progress;
    ReceiveLockedSafe(s, e, op);
    if ReceiveLocked(s, e, op).1 == Done {
      ProgressInv(s, ReceiveLocked(s, e, op).0, e);
    }
    HistoryIgnored(ReceiveLocked(s, e, op).0, ReceiveNow(s, e, op).0);
  }

  lemma TrySendSafe(s: Sys, resolved: Option<nat>, m: Message)
    requires Inv(s)
    ensures TrySend(s, resolved, m).1 != Halt && Inv(TrySend(s, resolved, m).0)
  {
    hide SendLocked, Inv;
    var s0 := s.(nextOp := s.nextOp + 1);
    HistoryIgnored(s, s0);
    var s' := TrySend(s, resolved, m).0;
    if resolved.Some? && ValidMessage(m) {
      SendSafe(s0, resolved.value, Stamped(s.nextOp, m));
      HistoryIgnored(SendLocked(s0, resolved.value, Stamped(s.nextOp, m)).0, s');
    } else {
      HistoryIgnored(s0, s');
    }
  }

  lemma SendBlockingSafe(s: Sys, resolved: Option<nat>, m: Message, timeout: Option<nat>, park: Park)
    requires Inv(s)
    ensures SendBlocking(s, resolved, m, timeout, park).1 != Halt && Inv(SendBlocking(s, resolved, m, timeout, park).0)
  {
    hide SendLocked, Begin, Inv;
    var s0 := s.(nextOp := s.nextOp + 1);
    HistoryIgnored(s, s0);
    HistoryIgnored(s0, Answer(s0, s.nextOp, NotSent));
    if resolved.Some? && ValidMessage(m) && TimeoutOk(timeout) && Live(s.endpoints, resolved.value) &&
       !s.endpoints[resolved.value].value.closed
    {
      var st := Stamped(s.nextOp, m);
      SendSafe(s0, resolved.value, st);
      var (s1, r) := SendLocked(s0, resolved.value, st);
      HistoryIgnored(s1, Answer(s1, s.nextOp, if r == Done then Sent else NotSent));
      if s.current.Some? && s.endpoints[resolved.value].value.mail.Some? {
        BeginSafe(s0, s.current.value, Send, resolved.value, Some(st), timeout, s.nextOp, park);
      }
    }
  }

  lemma ReceiveBlockingSafe(s: Sys, resolved: Option<nat>, timeout: Option<nat>, park: Park)
    requires Inv(s)
    ensures ReceiveBlocking(s, resolved, timeout, park).1 != Halt && Inv(ReceiveBlocking(s, resolved, timeout, park).0)
  {
    hide ReceiveNow, Begin, Inv;
    var s0 := s.(nextOp := s.nextOp + 1);
    HistoryIgnored(s, s0);
    HistoryIgnored(s0, Answer(s0, s.nextOp, GotNothing));
    if resolved.Some? && TimeoutOk(timeout) && Live(s.endpoints, resolved.value) &&
      !s.endpoints[resolved.value].value.closed {
      ReceiveSafe(s0, resolved.value, s.nextOp);
      if s.current.Some? && s.endpoints[resolved.value].value.mail.None? {
        BeginSafe(s0, s.current.value, Receive, resolved.value, None, timeout, s.nextOp, park);
      }
    }
  }

  lemma ResumeSafe(s: Sys, park: Park)
    requires Inv(s)
    ensures Resume(s, park).1 != Halt && Inv(Resume(s, park).0)
  {
    hide WaitLoop;
    if s.current.Some? && Live(s.threads, s.current.value) && s.threads[s.current.value].value.call.Some? {
      ThreadHere(s, s.current.value);
      WaitLoopSafe(s, s.current.value, park);
    }
  }

  /** Abort takes the thread out of its wait whole; a committed mailbox message
      stays. It is refused only for a thread that does not wait or that runs. */
  lemma AbortSafe(s: Sys, t: nat)
    requires Inv(s)
    ensures var (s', r) := Abort(s, t);
            && r == (if Live(s.threads, t) && s.current != Some(t) &&
              s.threads[t].value.wait.Some? then Done else Refused)
            && Inv(s')
            && (if r == Done then Parked(s, t) && s' == Left(s, t, Dead) else s' == s)
  {
    if Live(s.threads, t) && s.current != Some(t) && s.threads[t].value.wait.Some? {
      ThreadHere(s, t);
      var w := s.threads[t].value.wait.value;
      AlwaysReserved(s, w.endpoint, w.kind);
      LeftInv(s, t, Dead);
    }
  }

  lemma CloseInv(s: Sys, e: nat)
    requires Inv(s)
    ensures Close(s, e).1 != Halt && Inv(Close(s, e).0)
  {
    hide Linked, TableOk, Close, Progress;
    CloseSafe(s, e);
    if Close(s, e).1 == Done {
      ProgressInv(s, Close(s, e).0, e);
    }
  }

  // -------------------------------------------------------------- lifetimes

  lemma CreateEndpointSafe(s: Sys)
    requires Inv(s)
    ensures Inv(CreateEndpoint(s).0)
  {
    var s' := CreateEndpoint(s).0;
    forall t: nat | Live(s'.threads, t) ensures ThreadOk(s', t) && Entered(s', t) {
      assert ThreadOk(s, t) && Entered(s, t);
    }
    forall e: nat | Live(s'.endpoints, e) ensures EndpointOk(s', e) {
      assert Live(s.endpoints, e) ==> EndpointOk(s, e);
    }
    forall i: nat | Live(s'.timed, i) ensures TimedOk(s', s'.timed[i].value) && Punctual(s', s'.timed[i].value) {
      assert TimedOk(s, s.timed[i].value) && Punctual(s, s.timed[i].value);
    }
  }

  lemma DestroyEndpointSafe(s: Sys, e: nat, unreferenced: bool)
    requires Inv(s)
    ensures Inv(DestroyEndpoint(s, e, unreferenced).0)
  {
    var s' := DestroyEndpoint(s, e, unreferenced).0;
    forall t: nat | Live(s'.threads, t) ensures ThreadOk(s', t) && Entered(s', t) {
      assert ThreadOk(s, t) && Entered(s, t);
    }
    forall f: nat | Live(s'.endpoints, f) ensures EndpointOk(s', f) {
      assert EndpointOk(s, f);
    }
    forall i: nat | Live(s'.timed, i) ensures TimedOk(s', s'.timed[i].value) && Punctual(s', s'.timed[i].value) {
      assert TimedOk(s, s.timed[i].value) && Punctual(s, s.timed[i].value);
      assert ThreadOk(s, s.timed[i].value.thread);
    }
  }

  predicate Rescheduled(s: Sys, s': Sys, t: nat)
    requires Live(s'.threads, t)
  {
    var x' := s'.threads[t].value;
    && (x'.state == Running <==> s'.current == Some(t))
    && (if Live(s.threads, t) && s.threads[t].value.wait.Some?
        then x' == s.threads[t].value.(state := x'.state) && x'.state != Dead &&
             (x'.state == Blocked ==> s.threads[t].value.state == Blocked)
        else x'.wait.None? && x'.call.None? && x'.state != Blocked)
  }

  /** Threads without a wait come, go and change state freely. */
  lemma IdleThreads(s: Sys, s': Sys)
    requires Inv(s) && s' == s.(threads := s'.threads, current := s'.current, nextThread := s'.nextThread)
    requires |s'.threads| == THREADS && (s'.current.Some? ==> Live(s'.threads, s'.current.value))
    requires forall t: nat :: Live(s'.threads, t) ==> Rescheduled(s, s', t)
    requires forall t: nat :: Live(s.threads, t) && s.threads[t].value.wait.Some? ==> Live(s'.threads, t)
    ensures Inv(s')
  {
    forall t: nat | Live(s'.threads, t) ensures ThreadOk(s', t) && Entered(s', t) {
      assert Live(s.threads, t) ==> ThreadOk(s, t) && Entered(s, t);
      assert Rescheduled(s, s', t);
    }
    forall e: nat | Live(s'.endpoints, e) ensures EndpointOk(s', e) {
      assert EndpointOk(s, e);
    }
    forall i: nat | Live(s'.timed, i) ensures TimedOk(s', s'.timed[i].value) && Punctual(s', s'.timed[i].value) {
      assert TimedOk(s, s.timed[i].value) && Punctual(s, s.timed[i].value);
    }
  }

  lemma SpawnSafe(s: Sys)
    requires Inv(s)
    ensures Spawn(s).1 != Halt && Inv(Spawn(s).0)
  {
    AllThreads(s);
    hide Inv;
    if Spawn(s).1 == Done {
      var s' := Spawn(s).0;
      forall u: nat | Live(s'.threads, u) ensures Rescheduled(s, s', u) {
        assert Live(s.threads, u) ==> ThreadOk(s, u);
      }
      IdleThreads(s, s');
    }
  }

  lemma SwitchSafe(s: Sys, t: nat)
    requires Inv(s)
    ensures Switch(s, t).1 != Halt && Inv(Switch(s, t).0)
  {
    AllThreads(s);
    hide Inv;
    if Switch(s, t).1 == Done {
      var s' := Switch(s, t).0;
      forall u: nat | Live(s'.threads, u) ensures Rescheduled(s, s', u) {
        assert Live(s.threads, u) ==> ThreadOk(s, u);
      }
      IdleThreads(s, s');
    }
  }

  lemma ReapSafe(s: Sys, t: nat)
    requires Inv(s)
    ensures Reap(s, t).1 != Halt && Inv(Reap(s, t).0)
  {
    AllThreads(s);
    hide Inv;
    if Reap(s, t).1 == Done {
      var s' := Reap(s, t).0;
      forall u: nat | Live(s'.threads, u) ensures Rescheduled(s, s', u) {
        assert Live(s.threads, u) ==> ThreadOk(s, u);
      }
      IdleThreads(s, s');
    }
  }

  lemma AllThreads(s: Sys)
    requires Inv(s)
    ensures forall t: nat :: Live(s.threads, t) ==> ThreadOk(s, t)
    ensures |s.threads| == THREADS && (s.current.Some? ==> Live(s.threads, s.current.value))
  {
  }

  // ------------------------------------------------------------------- runs

  lemma StepSafe(s: Sys, op: Op)
    requires Inv(s)
    ensures Apply(s, op).1 != Halt && Inv(Apply(s, op).0)
  {
    hide Inv, TrySend, ReceiveNow, SendBlocking, ReceiveBlocking, Resume, Elapse, PollAll, Abort, Close, CreateEndpoint,
      DestroyEndpoint, Spawn,
      Switch, Reap;
    match op
    case OpTrySend(resolved, m) => TrySendSafe(s, resolved, m);
    case OpTryReceive(resolved) =>
      var s0 := s.(nextOp := s.nextOp + 1);
      HistoryIgnored(s, s0);
      HistoryIgnored(s0, Answer(s0, s.nextOp, GotNothing));
      if resolved.Some? {
        ReceiveSafe(s0, resolved.value, s.nextOp);
      }
    case OpSendBlocking(resolved, m, timeout, park) => SendBlockingSafe(s, resolved, m, timeout, park);
    case OpReceiveBlocking(resolved, timeout, park) => ReceiveBlockingSafe(s, resolved, timeout, park);
    case OpResume(park) => ResumeSafe(s, park);
    case OpElapse(ticks) => ElapseSafe(s, ticks);
    case OpPoll => PollSafe(s);
    case OpAbort(t) => AbortSafe(s, t);
    case OpClose(e) => CloseInv(s, e);
    case OpCreateEndpoint => CreateEndpointSafe(s); CreateNoHalt(s);
    case OpDestroyEndpoint(e, unreferenced) =>
      DestroyEndpointSafe(s, e, unreferenced); DestroyNoHalt(s, e, unreferenced);
    case OpSpawn => SpawnSafe(s);
    case OpSwitch(t) => SwitchSafe(s, t);
    case OpReap(t) => ReapSafe(s, t);
  }

  lemma CreateNoHalt(s: Sys)
    ensures CreateEndpoint(s).1 != Halt
  {
  }

  lemma DestroyNoHalt(s: Sys, e: nat, unreferenced: bool)
    ensures DestroyEndpoint(s, e, unreferenced).1 != Halt
  {
  }

  lemma BootInv()
    ensures Inv(Boot)
  {
    hide Blank;
  }

  lemma {:induction false} RunKeepsInv(s: Sys, ops: seq<Op>)
    requires Inv(s)
    ensures Inv(Run(s, ops))
    decreases |ops|
  {
    hide Inv, Apply;
    if ops != [] {
      StepSafe(s, ops[0]);
      RunKeepsInv(Apply(s, ops[0]).0, ops[1..]);
    }
  }

  lemma RunFromBoot(ops: seq<Op>, next: Op)
    ensures Inv(Run(Boot, ops))
    ensures Apply(Run(Boot, ops), next).1 != Halt
  {
    hide Inv, Apply;
    BootInv();
    RunKeepsInv(Boot, ops);
    StepSafe(Run(Boot, ops), next);
  }

  /** In every reachable state the timed-wait table and the timed waits correspond
      one to one, and a timed wait that is still pending was not due at the last poll,
      unless two polls were more than 2^63 ticks apart. */
  lemma TimerTableIsExact(ops: seq<Op>, t: nat)
    requires Live(Run(Boot, ops).threads, t)
    ensures var s := Run(Boot, ops);
            var x := s.threads[t].value;
            && (x.wait.Some? && x.call.Some? && x.call.value.timed <==>
              exists i: nat :: Live(s.timed, i) && s.timed[i].value.thread == t)
            && (forall i: nat, j: nat ::
                  Live(s.timed, i) && Live(s.timed, j) && s.timed[i].value.thread == t == s.timed[j].value.thread ==>
                  i == j)
            && (forall i: nat ::
                  Live(s.timed, i) && s.timed[i].value.thread == t && Waiting(s, t, Pending) && !s.late ==>
                  s.polled < s.timed[i].value.start + s.timed[i].value.ticks)
  {
    hide Apply, Linked, Run;
    BootInv();
    RunKeepsInv(Boot, ops);
    var s := Run(Boot, ops);
    assert Entered(s, t);
    var x := s.threads[t].value;
    if x.wait.Some? && x.call.Some? && x.call.value.timed {
      var i :| 0 <= i < |s.timed| && Names(s.timed[i], t, x.wait.value.endpoint, x.wait.value.kind, x.wait.value.id);
      assert Live(s.timed, i);
    }
    forall i: nat | Live(s.timed, i) && s.timed[i].value.thread == t
      ensures x.wait.Some? && x.call.Some? && x.call.value.timed && Punctual(s, s.timed[i].value)
    {
      assert TimedOk(s, s.timed[i].value);
    }
  }
}
