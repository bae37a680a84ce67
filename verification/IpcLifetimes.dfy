/**
 The life of a call, over every run: it takes only from the endpoint it named, it times
 out exactly when its own timeout has elapsed, and it ends answered or aborted.
 */
module IpcLifetimes {
  import opened Slots
  import opened IpcModel
  import opened IpcInvariant
  import opened IpcTimers
  import opened IpcCalls
  import opened IpcRuns
  import opened IpcTimeouts
  import opened IpcTruth
  import opened IpcFlow

  // ------------------------------------------------------------------ a call starts

  /** Thread `t` is inside call `n` at `e`, and its timer, if any, is the timeout asked for. */
  ghost predicate Waits(s: Sys, t: nat, kind: Kind, e: nat, timeout: Option<nat>, n: nat, now: nat) {
    exists c ::
      Calling(s, t, c) && c == Call(kind, e, c.id, timeout.Some?, n) && Alarm(s, t, timeout, now)
  }

  /** Every timer of the thread is `timeout` ticks from `now`. */
  ghost predicate Alarm(s: Sys, t: nat, timeout: Option<nat>, now: nat) {
    forall x :: Entry(s, t, x) ==> timeout == Some(x.ticks) && x.start == now
  }

  ghost predicate NoStart(s: Sys, s': Sys) {
    forall t: nat, c :: Calling(s', t, c) ==> Calling(s, t, c)
  }

  /** The call is over at once, or its thread waits in it. */
  ghost predicate Begins(s: Sys, s': Sys, t: nat, kind: Kind, e: nat, timeout: Option<nat>, n: nat) {
    (n in s'.replies && NoStart(s, s')) || Waits(s', t, kind, e, timeout, n, s.time)
  }

  lemma ReserveFlows(s: Sys, t: nat, kind: Kind, e: nat, st: Option<Stamped>, timed: bool, op: nat)
    requires Live(s.endpoints, e) && Reserve(s, t, kind, e, st, timed, op).Some?
    ensures var s1 := Reserve(s, t, kind, e, st, timed, op).value;
            && Flow(s, s1, Reach(Some(e), op, Some(t)), None)
            && Calling(s1, t, Call(kind, e, s.nextWait, timed, op))
            && s1.timed == s.timed && s1.time == s.time && Live(s1.endpoints, e)
  {
    var s1 := Reserve(s, t, kind, e, st, timed, op).value;
    forall u: nat, x ensures Entry(s1, u, x) == Entry(s, u, x) {
    }
  }

  lemma NoEntries(s: Sys, t: nat)
    requires Inv(s) && Live(s.threads, t) && s.threads[t].value.call.None?
    ensures forall x :: !Entry(s, t, x)
  {
    hide Linked;
  }

  lemma RegisterFlows(s: Sys, t: nat, e: nat, kind: Kind, id: nat, ticks: nat, r: Reach)
    requires Live(s.endpoints, e) && Register(s, t, e, kind, id, ticks).Some?
    ensures var s' := Register(s, t, e, kind, id, ticks).value;
            && Flow(s, s', r, Some(t)) && s'.threads == s.threads
            && forall x :: Entry(s', t, x) ==> Entry(s, t, x) || (x.start == s.time && x.ticks == ticks)
  {
    hide Matches, Duplicate;
    var s' := Register(s, t, e, kind, id, ticks).value;
    forall u: nat, x ensures Entry(s, u, x) ==> Entry(s', u, x) {
      if Entry(s, u, x) {
        var i: nat :| Live(s.timed, i) && s.timed[i].value == x;
        assert Live(s'.timed, i) && s'.timed[i].value == x;
      }
    }
  }

  /** A thread that was in no call had none to lose. */
  lemma NoneLost(s: Sys, s': Sys, r: Reach, t: nat)
    requires Flow(s, s', r, Some(t)) && forall c :: !Calling(s, t, c)
    ensures Flow(s, s', r, None)
  {
    hide Calling, TakesAt, Entry, Ids;
  }

  lemma NoneStarts(s: Sys, s': Sys, r: Reach, but: Option<nat>)
    requires Flow(s, s', r.(starter := None), but)
    ensures NoStart(s, s')
  {
    hide Calling, TakesAt, Entry, Ids;
  }

  /** A call that may start does not have to. */
  lemma Allows(s: Sys, s': Sys, r: Reach, but: Option<nat>)
    requires Flow(s, s', r.(starter := None), but)
    ensures Flow(s, s', r, but)
  {
    hide Calling, TakesAt, Entry, Ids;
  }

  /** The call just started goes on, or is answered. */
  lemma StartedWaits(s: Sys, s1: Sys, s': Sys, t: nat, c: Call, timeout: Option<nat>)
    requires Flow(s, s1, Reach(Some(c.endpoint), c.op, Some(t)), Some(t)) && forall d :: !Calling(s, t, d)
    requires Calling(s1, t, c) && c.timed == timeout.Some? && Alarm(s1, t, timeout, s.time)
    requires Settles(s1, s', t, c, Reach(Some(c.endpoint), c.op, None))
    ensures Flow(s, s', Reach(Some(c.endpoint), c.op, Some(t)), None)
    ensures Begins(s, s', t, c.kind, c.endpoint, timeout, c.op)
  {
    hide Flow, Calling, Entry;
    var r := Reach(Some(c.endpoint), c.op, Some(t));
    Allows(s1, s', r, Some(t));
    FlowChains(s, s1, s', r, Some(t));
    NoneLost(s, s', r, t);
    if !Over(s', t, c) {
      assert Goes(s1, s', t, c);
      assert Alarm(s', t, timeout, s.time);
    } else {
      OverAtOnce(s, s', r, t);
    }
  }

  lemma OverAtOnce(s: Sys, s': Sys, r: Reach, t: nat)
    requires Flow(s, s', r, None) && r.starter == Some(t) && forall c :: !Calling(s', t, c)
    ensures NoStart(s, s')
  {
    hide Calling, TakesAt, Entry, Ids;
  }

  lemma BeginStarts(s: Sys, t: nat, kind: Kind, e: nat, st: Option<Stamped>, timeout: Option<nat>, op: nat, park: Park)
    requires Inv(s) && Admissible(s, kind, e, st) && TimeoutOk(timeout)
    ensures var s' := Begin(s, t, kind, e, st, timeout, op, park).0;
            && Flow(s, s', Reach(Some(e), op, Some(t)), None)
            && Begins(s, s', t, kind, e, timeout, op)
  {
    hide Linked, TableOk, WaitLoop, Reserve, Register, FinishAndLeave, Flow, Settles, Waits, Entry;
    var s', r := Begin(s, t, kind, e, st, timeout, op, park).0, Reach(Some(e), op, Some(t));
    var reserved := Reserve(s, t, kind, e, st, timeout.Some?, op);
    if reserved.None? {
      SameFlows(s, s', r, None);
      SameFlows(s, s', r.(starter := None), None);
      NoneStarts(s, s', r, None);
    } else {
      var s1, c := reserved.value, Call(kind, e, s.nextWait, timeout.Some?, op);
      ReserveFlows(s, t, kind, e, st, timeout.Some?, op);
      ReserveIdle(s, t, kind, e, st, timeout.Some?, op);
      Widens(s, s1, r, Some(t));
      if timeout.None? {
        WaitLoopSettles(s1, t, c, park);
        StartedWaits(s, s1, s', t, c, timeout);
      } else {
        ReserveLinked(s, t, kind, e, st, timeout.Some?, op);
        ReserveTable(s, t, kind, e, st, timeout.Some?, op);
        ReserveFacts(s, t, kind, e, st, timeout.Some?, op);
        EntriesOf(s);
        TableHasRoom(s, e, kind);
        RegisterSucceeds(s1, t, e, kind, timeout.value);
        RegisterFlows(s1, t, e, kind, c.id, timeout.value, r);
        var s2 := Register(s1, t, e, kind, c.id, timeout.value).value;
        FlowChains(s, s1, s2, r, Some(t));
        WaitLoopSettles(s2, t, c, park);
        StartedWaits(s, s2, s', t, c, timeout);
      }
    }
  }

  lemma EntriesOf(s: Sys)
    requires TableOk(s)
    ensures EntriesOk(s)
  {
    hide EntriesOk;
  }

  lemma ReserveIdle(s: Sys, t: nat, kind: Kind, e: nat, st: Option<Stamped>, timed: bool, op: nat)
    requires Inv(s) && Live(s.endpoints, e) && Reserve(s, t, kind, e, st, timed, op).Some?
    ensures var s1 := Reserve(s, t, kind, e, st, timed, op).value;
            && (forall c :: !Calling(s, t, c)) && (forall x :: !Entry(s1, t, x))
  {
    hide Inv;
    NoEntries(s, t);
    forall x ensures !Entry(Reserve(s, t, kind, e, st, timed, op).value, t, x) {
      assert !Entry(s, t, x);
    }
  }

  // ------------------------------------------------------------------------ one step

  /** The call that a step runs. */
  function Runs(s: Sys, op: Op): Reach {
    if IsCall(op) then Reach(op.resolved, s.nextOp, s.current)
    else if op.OpResume? && InCall(s) then Reach(Some(CurrentCall(s).endpoint), CurrentCall(s).op, None)
    else Reach(None, s.nextOp, None)
  }

  /** Whose call a step may end. */
  function Ender(s: Sys, op: Op): Option<nat> {
    if op.OpResume? then s.current else if op.OpAbort? then Some(op.t) else None
  }

  predicate InCall(s: Sys) {
    s.current.Some? && Live(s.threads, s.current.value) && s.threads[s.current.value].value.call.Some?
  }

  function CurrentCall(s: Sys): Call
    requires InCall(s)
  {
    s.threads[s.current.value].value.call.value
  }

  /** An endpoint that is there before and after a step is the same one. */
  ghost predicate IdsStay(s: Sys, s': Sys) {
    forall e: nat ::
      Live(s'.endpoints, e) && Live(s.endpoints, e) ==> s.endpoints[e].value.id == s'.endpoints[e].value.id
  }

  /** A call that the step issues is answered, or waits with the timeout it asked for. */
  ghost predicate Issues(s: Sys, s': Sys, op: Op) {
    IsCall(op) && s'.nextOp > s.nextOp ==>
      (s.nextOp in s'.replies && NoStart(s, s')) ||
      (op.OpSendBlocking? && s.current.Some? && op.resolved.Some? &&
       Waits(s', s.current.value, Send, op.resolved.value, op.timeout, s.nextOp, s.time)) ||
      (op.OpReceiveBlocking? && s.current.Some? && op.resolved.Some? &&
       Waits(s', s.current.value, Receive, op.resolved.value, op.timeout, s.nextOp, s.time))
  }

  ghost predicate StepOk(s: Sys, s': Sys, op: Op) {
    && Moves(s, s', Runs(s, op), Ender(s, op))
    && IdsStay(s, s') && (op.OpCreateEndpoint? || Ids(s, s')) && Issues(s, s', op)
    && (op.OpAbort? ==> s' == s || forall c :: !Calling(s', op.t, c))
    && (op.OpResume? && InCall(s) ==>
          Over(s', s.current.value, CurrentCall(s)) || Goes(s, s', s.current.value, CurrentCall(s)))
  }

  lemma NumberedFlows(s: Sys, s': Sys, r: Reach, but: Option<nat>)
    requires Flow(IpcTruth.Numbering(s), s', r, but)
    ensures Flow(s, s', r, but)
  {
    hide Flow;
    SameFlows(s, Numbering(s), r, but);
    FlowChains(s, Numbering(s), s', r, but);
  }

  /** A call that is over at once. */
  lemma AtOnce(s: Sys, s': Sys, resolved: Option<nat>)
    requires Flow(Numbering(s), s', Reach(resolved, s.nextOp, None), None)
    ensures Moves(s, s', Reach(resolved, s.nextOp, s.current), None) && IdsStay(s, s') && Ids(s, s') && NoStart(s, s')
  {
    hide Flow, Moves, IdsStay, NoStart;
    NumberedFlows(s, s', Reach(resolved, s.nextOp, None), None);
    NoneStarts(s, s', Reach(resolved, s.nextOp, s.current), None);
    Allows(s, s', Reach(resolved, s.nextOp, s.current), None);
    FlowMoves(s, s', Reach(resolved, s.nextOp, s.current), None);
  }

  /** A call that waits, or was about to. */
  lemma Later(s: Sys, s': Sys, resolved: Option<nat>, kind: Kind, timeout: Option<nat>)
    requires s.current.Some? && resolved.Some?
    requires Flow(Numbering(s), s', Reach(resolved, s.nextOp, s.current), None)
    requires Begins(Numbering(s), s', s.current.value, kind, resolved.value, timeout, s.nextOp)
    ensures Moves(s, s', Reach(resolved, s.nextOp, s.current), None) && IdsStay(s, s') && Ids(s, s')
    ensures Begins(s, s', s.current.value, kind, resolved.value, timeout, s.nextOp)
  {
    hide Flow, Moves, IdsStay, Waits;
    NumberedFlows(s, s', Reach(resolved, s.nextOp, s.current), None);
    FlowMoves(s, s', Reach(resolved, s.nextOp, s.current), None);
  }

  lemma FlowMoves(s: Sys, s': Sys, r: Reach, but: Option<nat>)
    requires Flow(s, s', r, but)
    ensures Moves(s, s', r, but) && IdsStay(s, s') && Ids(s, s')
  {
    hide Moves;
  }

  /** A send that is over at once. */
  lemma SendFlows(s: Sys, e: nat, st: Stamped, n: nat, reply: Reply)
    ensures Flow(s, Answer(SendLocked(s, e, st).0, n, reply), Reach(Some(e), n, None), None)
  {
    hide Flow, Calm, SendLocked;
    var r := Reach(Some(e), n, None);
    var s1 := SendLocked(s, e, st).0;
    SendCalm(s, e, st);
    CalmFlows(s, s1, r, None);
    SameFlows(s1, Answer(s1, n, reply), r, None);
    FlowChains(s, s1, Answer(s1, n, reply), r, None);
  }

  /** A receive that is over at once. */
  lemma ReceiveNowFlows(s: Sys, e: nat, n: nat)
    requires ReceiveNow(s, e, n).1 != Halt
    ensures Flow(s, ReceiveNow(s, e, n).0, Reach(Some(e), n, None), None) && n in ReceiveNow(s, e, n).0.replies
  {
    hide Flow, Calm, ReceiveLocked;
    var r := Reach(Some(e), n, None);
    var s1 := ReceiveLocked(s, e, n).0;
    ReceiveFlows(s, e, n, r);
    SameFlows(s1, ReceiveNow(s, e, n).0, r, None);
    FlowChains(s, s1, ReceiveNow(s, e, n).0, r, None);
  }

  lemma TrySendOk(s: Sys, resolved: Option<nat>, m: Message)
    requires TrySend(s, resolved, m).1 != Halt
    ensures StepOk(s, TrySend(s, resolved, m).0, OpTrySend(resolved, m))
  {
    hide Flow, Moves, Calm, SendLocked, IdsStay;
    var n, s0, s' := s.nextOp, Numbering(s), TrySend(s, resolved, m).0;
    if resolved.Some? && ValidMessage(m) {
      SendFlows(s0, resolved.value, Stamped(n, m), n, Sent);
      SendFlows(s0, resolved.value, Stamped(n, m), n, NotSent);
    } else {
      SameFlows(s0, s', Reach(resolved, n, None), None);
    }
    AtOnce(s, s', resolved);
  }

  lemma TryReceiveOk(s: Sys, resolved: Option<nat>)
    requires TryReceive(s, resolved).1 != Halt
    ensures StepOk(s, TryReceive(s, resolved).0, OpTryReceive(resolved))
  {
    hide Flow, Moves, Calm, ReceiveNow, IdsStay;
    var n, s0, s' := s.nextOp, Numbering(s), TryReceive(s, resolved).0;
    if resolved.Some? {
      ReceiveNowFlows(s0, resolved.value, n);
    } else {
      SameFlows(s0, s', Reach(resolved, n, None), None);
    }
    AtOnce(s, s', resolved);
  }

  lemma NothingOk(s: Sys, op: Op)
    requires IsCall(op)
    ensures StepOk(s, s, op)
  {
    SameFlows(s, s, Runs(s, op), None);
  }

  lemma SendBlockingOk(s: Sys, resolved: Option<nat>, m: Message, timeout: Option<nat>, park: Park)
    requires Inv(s) && SendBlocking(s, resolved, m, timeout, park).1 != Halt
    ensures StepOk(s, SendBlocking(s, resolved, m, timeout, park).0, OpSendBlocking(resolved, m, timeout, park))
  {
    hide Inv, Flow, Moves, Calm, SendLocked, IdsStay, Ids, NoStart, Begin, Waits, CanCall;
    var n, s0, s' := s.nextOp, Numbering(s), SendBlocking(s, resolved, m, timeout, park).0;
    if s.current.None? || !CanCall(s, s.current.value) {
      NothingOk(s, OpSendBlocking(resolved, m, timeout, park));
    } else {
      var st := Stamped(n, m);
      if !ValidMessage(m) || !TimeoutOk(timeout) || resolved.None? || !Live(s.endpoints, resolved.value) ||
         s.endpoints[resolved.value].value.closed
      {
        SameFlows(s0, s', Reach(resolved, n, None), None);
        AtOnce(s, s', resolved);
      } else if s.endpoints[resolved.value].value.mail.None? {
        SendFlows(s0, resolved.value, st, n, Sent);
        SendFlows(s0, resolved.value, st, n, NotSent);
        AtOnce(s, s', resolved);
      } else {
        HistoryIgnored(s, s0);
        BeginStarts(s0, s.current.value, Send, resolved.value, Some(st), timeout, n, park);
        Later(s, s', resolved, Send, timeout);
      }
    }
  }

  lemma ReceiveBlockingOk(s: Sys, resolved: Option<nat>, timeout: Option<nat>, park: Park)
    requires Inv(s) && ReceiveBlocking(s, resolved, timeout, park).1 != Halt
    ensures StepOk(s, ReceiveBlocking(s, resolved, timeout, park).0, OpReceiveBlocking(resolved, timeout, park))
  {
    hide Inv, Flow, Moves, Calm, ReceiveNow, IdsStay, Ids, NoStart, Begin, Waits, CanCall;
    var n, s0, s' := s.nextOp, Numbering(s), ReceiveBlocking(s, resolved, timeout, park).0;
    if s.current.None? || !CanCall(s, s.current.value) {
      NothingOk(s, OpReceiveBlocking(resolved, timeout, park));
    } else {
      if !TimeoutOk(timeout) || resolved.None? || !Live(s.endpoints, resolved.value) ||
        s.endpoints[resolved.value].value.closed
      {
        SameFlows(s0, s', Reach(resolved, n, None), None);
        AtOnce(s, s', resolved);
      } else if s.endpoints[resolved.value].value.mail.Some? {
        ReceiveNowFlows(s0, resolved.value, n);
        AtOnce(s, s', resolved);
      } else {
        HistoryIgnored(s, s0);
        BeginStarts(s0, s.current.value, Receive, resolved.value, None, timeout, n, park);
        Later(s, s', resolved, Receive, timeout);
      }
    }
  }

  lemma ResumeOk(s: Sys, park: Park)
    ensures StepOk(s, Resume(s, park).0, OpResume(park))
  {
    hide Flow, Moves, WaitLoop, Goes, Over;
    var op := OpResume(park);
    if InCall(s) {
      var c, t := CurrentCall(s), s.current.value;
      WaitLoopSettles(s, t, c, park);
      FlowMoves(s, Resume(s, park).0, Runs(s, op), Some(t));
      assert Calling(s, t, c);
    } else {
      SameFlows(s, s, Runs(s, op), s.current);
      FlowMoves(s, s, Runs(s, op), s.current);
    }
  }

  lemma ExpireCalm(s: Sys, x: Timed)
    requires Live(s.endpoints, x.endpoint)
    ensures Calm(s, Expire(s, x).0)
  {
    hide Calm, Matches, Schedulable;
    AlwaysCalm(s);
    TryCompleteCalm(s, x.thread, x.kind, x.endpoint, x.id, TimedOut);
    var s1 := TryComplete(s, x.thread, x.kind, x.endpoint, x.id, TimedOut);
    if s1.Some? {
      EndpointCalm(s1.value, x.endpoint, s1.value.endpoints[x.endpoint].value.(staged := None));
      var s2 := if x.kind == Send
        then PutEndpoint(s1.value, x.endpoint, s1.value.endpoints[x.endpoint].value.(staged := None)) else s1.value;
      AlwaysCalm(s1.value);
      CalmChains(s, s1.value, s2);
      MakeReadyCalm(s2, x.thread);
      if MakeReady(s2, x.thread).Some? {
        CalmChains(s, s2, MakeReady(s2, x.thread).value);
      }
    }
  }

  lemma {:induction false} PollCalm(s: Sys, i: nat)
    requires i <= |s.timed|
    ensures Calm(s, PollFrom(s, i).0)
    decreases |s.timed| - i
  {
    hide Calm, PollSlot;
    AlwaysCalm(s);
    if i < |s.timed| {
      PollSlotCalm(s, i);
      var (s1, r) := PollSlot(s, i);
      if r == Done {
        PollCalm(s1, i + 1);
        CalmChains(s, s1, PollFrom(s1, i + 1).0);
      }
    }
  }

  lemma PollSlotCalm(s: Sys, i: nat)
    requires i < |s.timed|
    ensures Calm(s, PollSlot(s, i).0) && |PollSlot(s, i).0.timed| == |s.timed|
  {
    hide Expire, Matches, Reserved;
    AlwaysCalm(s);
    if s.timed[i].Some? && Live(s.endpoints, s.timed[i].value.endpoint) {
      ExpireCalm(s, s.timed[i].value);
    }
  }

  lemma CloseSeatCalm(s: Sys, e: nat, kind: Kind)
    requires Live(s.endpoints, e)
    ensures Calm(s, CloseSeat(s, e, kind).0)
  {
    hide Calm, Matches, Schedulable;
    AlwaysCalm(s);
    if SeatAt(s.endpoints[e].value, kind).Some? {
      var seat := SeatAt(s.endpoints[e].value, kind).value;
      TryCompleteCalm(s, seat.thread, kind, e, seat.id, PeerClosed);
      var s1 := if Waiting(s, seat.thread, Pending) then TryComplete(s, seat.thread, kind, e, seat.id, PeerClosed)
        else Some(s);
      if s1.Some? {
        MakeReadyCalm(s1.value, seat.thread);
        if MakeReady(s1.value, seat.thread).Some? {
          CalmChains(s, s1.value, MakeReady(s1.value, seat.thread).value);
        }
      }
    }
  }

  lemma DiscardCalm(s: Sys, e: nat)
    requires Live(s.endpoints, e)
    ensures Calm(s, Discard(s, e))
  {
  }

  lemma CloseCalm(s: Sys, e: nat)
    ensures Calm(s, Close(s, e).0)
  {
    hide Calm, Reserved, CloseSeat;
    AlwaysCalm(s);
    if Live(s.endpoints, e) {
      var s1 := Discard(s, e);
      DiscardCalm(s, e);
      CloseSeatCalm(s1, e, Receive);
      var s2 := CloseSeat(s1, e, Receive).0;
      CalmChains(s, s1, s2);
      if Live(s2.endpoints, e) {
        CloseSeatCalm(s2, e, Send);
        CalmChains(s, s2, CloseSeat(s2, e, Send).0);
      }
    }
  }

  lemma AbortFlows(s: Sys, t: nat)
    ensures Flow(s, Abort(s, t).0, Reach(None, s.nextOp, None), Some(t))
    ensures Abort(s, t).0 == s || forall c :: !Calling(Abort(s, t).0, t, c)
  {
    hide Flow, Reserved, Unregister, Matches;
    SameFlows(s, s, Reach(None, s.nextOp, None), Some(t));
    if Abort(s, t).1 == Done {
      var w := s.threads[t].value.wait.value;
      var gone := Unregister(s, t, w.endpoint, w.kind, w.id);
      var s1 := if gone.Some? then gone.value else s;
      if gone.Some? {
        UnregisterFlows(s, t, w.endpoint, w.kind, w.id, Reach(None, s.nextOp, None));
        UnregisterSame(s, t, w.endpoint, w.kind, w.id);
      }
      var y := s1.threads[t].value.(wait := None, call := None, state := Dead);
      var s2 := PutThread(s1, t, y);
      QuitFlows(s1, t, y, Reach(None, s.nextOp, None));
      FlowChains(s, s1, s2, Reach(None, s.nextOp, None), Some(t));
      VacateFlows(s2, w.endpoint, w.kind, Reach(None, s.nextOp, None), Some(t));
      FlowChains(s, s2, Vacate(s2, w.endpoint, w.kind), Reach(None, s.nextOp, None), Some(t));
    }
  }

  lemma SpawnCalm(s: Sys)
    ensures Calm(s, Spawn(s).0)
  {
  }

  lemma SwitchCalm(s: Sys, t: nat)
    ensures Calm(s, Switch(s, t).0)
  {
  }

  lemma ReapCalm(s: Sys, t: nat)
    ensures Calm(s, Reap(s, t).0)
  {
  }

  lemma DestroyCalm(s: Sys, e: nat, unreferenced: bool)
    ensures Calm(s, DestroyEndpoint(s, e, unreferenced).0)
  {
  }

  lemma CreateOk(s: Sys)
    ensures StepOk(s, CreateEndpoint(s).0, OpCreateEndpoint)
  {
    hide Entry;
    var s' := CreateEndpoint(s).0;
    forall t: nat, x ensures Entry(s', t, x) == Entry(s, t, x) {
      SameEntries(s, s', t, x);
    }
  }

  lemma SameEntries(s: Sys, s': Sys, t: nat, x: Timed)
    requires s'.timed == s.timed
    ensures Entry(s', t, x) == Entry(s, t, x)
  {
  }

  lemma CalmOk(s: Sys, s': Sys, op: Op)
    requires Calm(s, s') && !IsCall(op) && !op.OpResume? && !op.OpAbort?
    ensures StepOk(s, s', op)
  {
    hide Calm, Moves, Flow;
    CalmFlows(s, s', Reach(None, s.nextOp, None), None);
    FlowMoves(s, s', Reach(None, s.nextOp, None), None);
  }

  lemma StepIsOk(s: Sys, op: Op)
    requires Inv(s)
    ensures StepOk(s, Apply(s, op).0, op)
  {
    hide Inv, StepOk, Calm, TrySend, TryReceive, SendBlocking, ReceiveBlocking, Resume, PollFrom, Abort, Close,
      CreateEndpoint, DestroyEndpoint, Spawn, Switch, Reap;
    StepSafe(s, op);
    match op
    case OpTrySend(resolved, m) => TrySendOk(s, resolved, m);
    case OpTryReceive(resolved) => TryReceiveOk(s, resolved);
    case OpSendBlocking(resolved, m, timeout, park) => SendBlockingOk(s, resolved, m, timeout, park);
    case OpReceiveBlocking(resolved, timeout, park) => ReceiveBlockingOk(s, resolved, timeout, park);
    case OpResume(park) => ResumeOk(s, park);
    case OpPoll =>
      PollCalm(NotePoll(s), 0);
      NoteCalm(s);
      CalmChains(s, NotePoll(s), PollAll(s).0);
      CalmOk(s, PollAll(s).0, op);
    case OpAbort(t) => AbortOk(s, t);
    case OpClose(e) =>
      CloseCalm(s, e);
      CalmOk(s, Close(s, e).0, op);
    case OpElapse(ticks) => ElapseCalm(s, ticks); CalmOk(s, Elapse(s, ticks).0, op);
    case OpCreateEndpoint => CreateOk(s);
    case OpDestroyEndpoint(e, unreferenced) =>
      DestroyCalm(s, e, unreferenced); CalmOk(s, DestroyEndpoint(s, e, unreferenced).0, op);
    case OpSpawn => SpawnCalm(s); CalmOk(s, Spawn(s).0, op);
    case OpSwitch(t) => SwitchCalm(s, t); CalmOk(s, Switch(s, t).0, op);
    case OpReap(t) => ReapCalm(s, t); CalmOk(s, Reap(s, t).0, op);
  }

  lemma ElapseCalm(s: Sys, ticks: nat)
    ensures Calm(s, Elapse(s, ticks).0)
  {
  }

  lemma NoteCalm(s: Sys)
    ensures Calm(s, NotePoll(s))
  {
  }

  lemma AbortOk(s: Sys, t: nat)
    ensures StepOk(s, Abort(s, t).0, OpAbort(t))
  {
    hide Flow, Moves, Abort;
    AbortFlows(s, t);
    FlowMoves(s, Abort(s, t).0, Reach(None, s.nextOp, None), Some(t));
  }

  // ---------------------------------------------------------------------- whole runs

  /** Every call that takes or waits carries a number that has been issued. */
  ghost predicate Counted(s: Sys) {
    && (forall id: nat, k: nat :: TakesAt(s, id, k) ==> k < s.nextOp)
    && (forall t: nat, c :: Calling(s, t, c) ==> c.op < s.nextOp)
  }

  /** What the two kinds of step bookkeeping say together. */
  lemma StepFacts(s: Sys, op: Op)
    requires Inv(s)
    ensures Inv(Apply(s, op).0) && StepOk(s, Apply(s, op).0, op)
    ensures s.nextOp <= Apply(s, op).0.nextOp <= s.nextOp + 1
    ensures IsCall(op) && Apply(s, op).0.nextOp == s.nextOp ==> Apply(s, op).0 == s
    ensures InCall(s) ==> Calling(s, s.current.value, CurrentCall(s))
  {
    hide Inv, StepOk, Apply;
    StepSafe(s, op);
    StepIsOk(s, op);
    StepReplies(s, op);
  }

  lemma StepCounted(s: Sys, op: Op)
    requires Inv(s) && Counted(s)
    ensures Counted(Apply(s, op).0)
  {
    hide Inv, Apply, Calling, TakesAt, Entry, Issues, Goes;
    StepFacts(s, op);
  }

  lemma {:induction false} RunCounted(s: Sys, ops: seq<Op>)
    requires Inv(s) && Counted(s)
    ensures Inv(Run(s, ops)) && Counted(Run(s, ops))
    decreases |ops|
  {
    hide Inv, Counted, Apply;
    if ops != [] {
      StepSafe(s, ops[0]);
      StepCounted(s, ops[0]);
      RunCounted(Apply(s, ops[0]).0, ops[1..]);
    }
  }

  lemma BootCounted()
    ensures Counted(Boot)
  {
    forall t: nat ensures !Live(Boot.threads, t) {
    }
  }

  lemma FromBoot(ops: seq<Op>)
    ensures Inv(Run(Boot, ops)) && Counted(Run(Boot, ops))
  {
    hide Inv, Counted, Run;
    BootInv();
    BootCounted();
    RunCounted(Boot, ops);
  }

  // A receive takes only from the endpoint it named.

  function HomeOf(s: Sys, resolved: Option<nat>): Option<nat> {
    if resolved.Some? && Live(s.endpoints, resolved.value) then Some(s.endpoints[resolved.value].value.id) else None
  }

  /** Call `n` takes, and waits, only at `home`. */
  ghost predicate Pinned(s: Sys, n: nat, home: Option<nat>) {
    && n < s.nextOp
    && (forall id: nat :: TakesAt(s, id, n) ==> home == Some(id))
    && (forall t: nat, c :: Calling(s, t, c) && c.op == n ==>
          Live(s.endpoints, c.endpoint) && home == HomeOf(s, Some(c.endpoint)))
  }

  lemma CallSite(s: Sys, t: nat, c: Call)
    requires Inv(s) && Calling(s, t, c)
    ensures Live(s.endpoints, c.endpoint)
  {
    hide TableOk, EndpointOk;
    assert ThreadOk(s, t);
  }

  lemma StepPinned(s: Sys, op: Op, n: nat, home: Option<nat>)
    requires Inv(s) && Pinned(s, n, home)
    ensures Pinned(Apply(s, op).0, n, home)
  {
    hide Inv, Apply, Calling, TakesAt, Entry, Issues, Goes;
    StepFacts(s, op);
    var s' := Apply(s, op).0;
    forall t: nat, c | Calling(s', t, c) && c.op == n
      ensures Live(s'.endpoints, c.endpoint) && home == HomeOf(s', Some(c.endpoint))
    {
      CallSite(s', t, c);
    }
  }

  lemma {:induction false} RunPinned(s: Sys, ops: seq<Op>, n: nat, home: Option<nat>)
    requires Inv(s) && Pinned(s, n, home)
    ensures Pinned(Run(s, ops), n, home)
    decreases |ops|
  {
    hide Inv, Pinned, Apply;
    if ops != [] {
      StepSafe(s, ops[0]);
      StepPinned(s, ops[0], n, home);
      RunPinned(Apply(s, ops[0]).0, ops[1..], n, home);
    }
  }

  /** Over every run: whatever a call ever takes, it takes from the endpoint that it
      named when it was issued, in the incarnation it named. */
  lemma TakesFromNamed(before: seq<Op>, op: Op, more: seq<Op>, id: nat)
    requires IsCall(op) && Apply(Run(Boot, before), op).0.nextOp > Run(Boot, before).nextOp
    requires TakesAt(Run(Apply(Run(Boot, before), op).0, more), id, Run(Boot, before).nextOp)
    ensures HomeOf(Run(Boot, before), op.resolved) == Some(id)
  {
    hide Inv, Apply, Run, Calling, TakesAt, Entry, Issues, Goes;
    FromBoot(before);
    var s := Run(Boot, before);
    StepFacts(s, op);
    var s', home := Apply(s, op).0, HomeOf(s, op.resolved);
    forall t: nat, c | Calling(s', t, c) && c.op == s.nextOp
      ensures Live(s'.endpoints, c.endpoint) && home == HomeOf(s', Some(c.endpoint))
    {
      CallSite(s', t, c);
    }
    RunPinned(s', more, s.nextOp, home);
  }

  // A call times out exactly when the timeout it asked for has elapsed.

  /** Only thread `t` waits in call `n`, and its timer is `timeout` ticks from `now`. */
  ghost predicate Asked(s: Sys, n: nat, t: nat, timeout: Option<nat>, now: nat) {
    && n < s.nextOp
    && forall u: nat, c :: Calling(s, u, c) && c.op == n ==>
         u == t && c.timed == timeout.Some? && Alarm(s, t, timeout, now)
  }

  lemma StepAsked(s: Sys, op: Op, n: nat, t: nat, timeout: Option<nat>, now: nat)
    requires Inv(s) && Asked(s, n, t, timeout, now)
    ensures Asked(Apply(s, op).0, n, t, timeout, now)
  {
    hide Inv, Apply, TakesAt, Entry, Issues, Ids, IdsStay;
    StepFacts(s, op);
    var s' := Apply(s, op).0;
    forall u: nat, c | Calling(s', u, c) && c.op == n
      ensures u == t && c.timed == timeout.Some? && Alarm(s', t, timeout, now)
    {
      assert Calling(s, u, c);
    }
  }

  lemma {:induction false} RunAsked(s: Sys, ops: seq<Op>, n: nat, t: nat, timeout: Option<nat>, now: nat)
    requires Inv(s) && Asked(s, n, t, timeout, now)
    ensures Inv(Run(s, ops)) && Asked(Run(s, ops), n, t, timeout, now)
    decreases |ops|
  {
    hide Inv, Asked, Apply;
    if ops != [] {
      StepSafe(s, ops[0]);
      StepAsked(s, ops[0], n, t, timeout, now);
      RunAsked(Apply(s, ops[0]).0, ops[1..], n, t, timeout, now);
    }
  }

  predicate IsBlocking(op: Op) {
    op.OpSendBlocking? || op.OpReceiveBlocking?
  }

  lemma IssueAsked(s: Sys, op: Op)
    requires Inv(s) && Counted(s) && IsBlocking(op) && Apply(s, op).0.nextOp > s.nextOp
    ensures s.current.Some?
    ensures Inv(Apply(s, op).0) && Asked(Apply(s, op).0, s.nextOp, s.current.value, op.timeout, s.time)
  {
    hide Inv, Apply, TakesAt, Entry, Ids, IdsStay;
    NeedsThread(s, op);
    StepFacts(s, op);
  }

  lemma NeedsThread(s: Sys, op: Op)
    requires IsBlocking(op) && Apply(s, op).0.nextOp > s.nextOp
    ensures s.current.Some?
  {
    hide CanCall, SendLocked, ReceiveNow, Begin;
  }

  /** What the timer of a pending wait says decides whether it is overdue. */
  lemma AlarmDecides(s: Sys, t: nat, c: Call, timeout: Option<nat>, now: nat)
    requires Inv(s) && Calling(s, t, c) && c.timed == timeout.Some? && Alarm(s, t, timeout, now)
    ensures Overdue(s, t) <==> timeout.Some? && Elapsed(s.time, now + timeout.value)
  {
    hide EndpointOk, Elapsed;
    assert ThreadOk(s, t);
    forall i: nat | Live(s.timed, i) && s.timed[i].value.thread == t
      ensures timeout == Some(s.timed[i].value.ticks) && s.timed[i].value.start == now
    {
      assert Entry(s, t, s.timed[i].value);
    }
    if c.timed {
      assert Entered(s, t);
      var w := s.threads[t].value.wait.value;
      var i :| 0 <= i < |s.timed| && Names(s.timed[i], t, w.endpoint, w.kind, w.id);
      assert Live(s.timed, i);
    }
  }

  /** Over every run: while a call issued with `timeout` waits and has no result, a poll
      times it out exactly when that many ticks have passed since it was issued; without a
      timeout it never times out. Only the thread that issued the call waits in it. */
  lemma TimesOutAsAsked(before: seq<Op>, op: Op, more: seq<Op>, t: nat, c: Call)
    requires IsBlocking(op) && Apply(Run(Boot, before), op).0.nextOp > Run(Boot, before).nextOp
    requires var s2 := Run(Apply(Run(Boot, before), op).0, more);
             Calling(s2, t, c) && c.op == Run(Boot, before).nextOp && Waiting(s2, t, Pending)
    ensures var s := Run(Boot, before);
            var s2 := Run(Apply(s, op).0, more);
            && s.current == Some(t)
            && (Waiting(PollAll(s2).0, t, TimedOut) <==>
                op.timeout.Some? && Elapsed(s2.time, s.time + op.timeout.value))
  {
    hide Inv, Apply, Run, Elapsed, Overdue, PollAll;
    FromBoot(before);
    var s := Run(Boot, before);
    IssueAsked(s, op);
    var s1 := Apply(s, op).0;
    RunAsked(s1, more, s.nextOp, s.current.value, op.timeout, s.time);
    var s2 := Run(s1, more);
    AlarmDecides(s2, t, c, op.timeout, s.time);
    PollTimesOutIff(s2, t);
  }

  // Every call is answered, goes on or was aborted.

  /** Some thread is inside call `n`. */
  ghost predicate GoesOn(s: Sys, n: nat) {
    exists t: nat, c :: Calling(s, t, c) && c.op == n
  }

  /** In the run from `s`, the thread inside call `n` is aborted. */
  ghost predicate AbortedIn(s: Sys, ops: seq<Op>, n: nat)
    decreases |ops|
  {
    ops != [] &&
    ((ops[0].OpAbort? && exists c :: Calling(s, ops[0].t, c) && c.op == n) ||
      AbortedIn(Apply(s, ops[0]).0, ops[1..], n))
  }

  lemma StepGoesOn(s: Sys, op: Op, n: nat)
    requires Inv(s) && GoesOn(s, n)
    ensures n in Apply(s, op).0.replies || GoesOn(Apply(s, op).0, n) || AbortedIn(s, [op], n)
  {
    hide Inv, Apply, TakesAt, Entry, Issues, Ids, IdsStay;
    StepFacts(s, op);
    var t: nat, c :| Calling(s, t, c) && c.op == n;
    var s' := Apply(s, op).0;
    if Ender(s, op) != Some(t) {
      assert Calling(s', t, c);
    }
  }

  lemma RepliesStay(s: Sys, op: Op, n: nat)
    requires Inv(s) && n in s.replies
    ensures n in Apply(s, op).0.replies
  {
    hide Inv, Apply, Calling, TakesAt, Entry, Issues, Ids, IdsStay, Goes, Over;
    StepFacts(s, op);
  }

  lemma {:induction false} RunGoesOn(s: Sys, ops: seq<Op>, n: nat)
    requires Inv(s) && (n in s.replies || GoesOn(s, n))
    ensures n in Run(s, ops).replies || GoesOn(Run(s, ops), n) || AbortedIn(s, ops, n)
    decreases |ops|
  {
    hide Inv, GoesOn, Apply;
    if ops != [] {
      var op, s' := ops[0], Apply(s, ops[0]).0;
      StepSafe(s, op);
      if n in s.replies {
        RepliesStay(s, op, n);
        RunGoesOn(s', ops[1..], n);
      } else {
        StepGoesOn(s, op, n);
        if n in s'.replies || GoesOn(s', n) {
          RunGoesOn(s', ops[1..], n);
        }
      }
    }
  }

  /** Over every run: a call that was issued has been answered, is still going on, or its
      thread was aborted inside it. */
  lemma CallsAreAccountedFor(before: seq<Op>, op: Op, more: seq<Op>)
    requires IsCall(op) && Apply(Run(Boot, before), op).0.nextOp > Run(Boot, before).nextOp
    ensures var s := Run(Boot, before);
            var s1 := Apply(s, op).0;
            s.nextOp in Run(s1, more).replies || GoesOn(Run(s1, more), s.nextOp) || AbortedIn(s1, more, s.nextOp)
  {
    hide Inv, Apply, Run, TakesAt, Entry, Ids, IdsStay;
    FromBoot(before);
    var s := Run(Boot, before);
    StepFacts(s, op);
    RunGoesOn(Apply(s, op).0, more, s.nextOp);
  }
}
