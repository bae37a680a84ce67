/**
 When a call succeeds: what the caller of a send or a receive gets, decided by the
 endpoint it names and by nothing else.
 */
module IpcOutcomes {
  import opened Slots
  import opened IpcModel
  import opened IpcInvariant
  import opened IpcTimers
  import opened IpcCalls
  import opened IpcRuns
  import opened IpcFlow
  import opened IpcTruth
  import opened IpcLifetimes

  // ------------------------------------------------------------- one message moves

  predicate Open(s: Sys, e: nat) {
    Live(s.endpoints, e) && !s.endpoints[e].value.closed
  }

  /** There is room for a message, and no receiver that has already given up. */
  predicate Room(s: Sys, e: nat) {
    && Open(s, e) && s.endpoints[e].value.mail.None?
    && (s.endpoints[e].value.receiver.Some? ==> Waiting(s, s.endpoints[e].value.receiver.value.thread, Pending))
  }

  /** There is a message, and nobody else has the right to it. */
  predicate HasMail(s: Sys, e: nat) {
    && Open(s, e) && s.endpoints[e].value.mail.Some?
    && (s.endpoints[e].value.receiver.Some? ==>
          s.current == Some(s.endpoints[e].value.receiver.value.thread) &&
          Waiting(s, s.endpoints[e].value.receiver.value.thread, Pending))
  }

  /** A send succeeds exactly when there is room, and then the message is in the mailbox
      and a blocked receiver is awake. */
  lemma SendIff(s: Sys, e: nat, st: Stamped)
    requires Inv(s)
    ensures var (s', r) := SendLocked(s, e, st);
            && (r == Done <==> ValidMessage(st.message) && Room(s, e))
            && (r == Done ==>
                  && Live(s'.endpoints, e) && s'.endpoints[e].value == s.endpoints[e].value.(mail := Some(st))
                  && (s.endpoints[e].value.receiver.Some? ==>
                        Live(s'.threads, s.endpoints[e].value.receiver.value.thread) &&
                        s'.threads[s.endpoints[e].value.receiver.value.thread].value.state != Blocked))
  {
    hide Linked, TableOk;
    if Live(s.endpoints, e) {
      Seated(s, e, Receive);
      if s.endpoints[e].value.receiver.Some? {
        WakeEffect(s, s.endpoints[e].value.receiver.value.thread);
      }
    }
  }

  /** A receive succeeds exactly when there is a message for it, and then the staged
      message, if any, is in the mailbox and its sender's wait is completed. */
  lemma ReceiveIff(s: Sys, e: nat, n: nat)
    requires Inv(s)
    ensures var (s', r) := ReceiveLocked(s, e, n);
            && r != Halt && (r == Done <==> HasMail(s, e))
            && (r == Done ==>
                  var x := s.endpoints[e].value;
                  && Live(s'.endpoints, e) && s'.endpoints[e].value == x.(mail := x.staged, staged := None)
                  && (x.staged.Some? ==> x.sender.Some? && Waiting(s', x.sender.value.thread, Completed)))
  {
    hide Linked, TableOk, MoveUp, Progress;
    ReceiveLockedSafe(s, e, n);
    if Live(s.endpoints, e) {
      Seated(s, e, Receive);
      Seated(s, e, Send);
      EndpointHere(s, e);
      var x := s.endpoints[e].value;
      if x.mail.Some? && x.staged.Some? && (x.receiver.Some? ==> s.current == Some(x.receiver.value.thread)) {
        MoveUpSafe(s, e, n);
      }
    }
  }

  // ---------------------------------------------------------------- calls at once

  /** What the next call is told. */
  predicate Told(s: Sys, s': Sys, reply: Reply) {
    s'.replies == s.replies[s.nextOp := reply]
  }

  /** A send that does not wait succeeds exactly when there is room. */
  lemma TrySendReply(s: Sys, resolved: Option<nat>, m: Message)
    requires Inv(s)
    ensures Told(s, TrySend(s, resolved, m).0,
                 if ValidMessage(m) && resolved.Some? && Room(s, resolved.value) then Sent else NotSent)
  {
    hide Inv, SendLocked;
    var s0 := Numbering(s);
    HistoryIgnored(s, s0);
    if resolved.Some? {
      SendIff(s0, resolved.value, Stamped(s.nextOp, m));
      SendSilent(s0, resolved.value, Stamped(s.nextOp, m));
      SendSafe(s0, resolved.value, Stamped(s.nextOp, m));
      assert Room(s0, resolved.value) == Room(s, resolved.value);
    }
  }

  /** A receive that does not wait returns exactly the message that is there for it. */
  lemma TryReceiveReply(s: Sys, resolved: Option<nat>)
    requires Inv(s)
    ensures Told(s, TryReceive(s, resolved).0,
                 if resolved.Some? && HasMail(s, resolved.value) then Got(s.endpoints[resolved.value].value.mail)
                 else GotNothing)
  {
    hide Inv, ReceiveLocked;
    var s0 := Numbering(s);
    HistoryIgnored(s, s0);
    if resolved.Some? {
      ReceiveIff(s0, resolved.value, s.nextOp);
      ReceiveSilent(s0, resolved.value, s.nextOp);
      assert HasMail(s0, resolved.value) == HasMail(s, resolved.value);
    }
  }

  // ------------------------------------------------------------- calls that may wait

  /** The seat of that kind is free, and a wait can still be numbered. */
  predicate SeatFree(s: Sys, e: nat, kind: Kind)
    requires Live(s.endpoints, e)
  {
    SeatAt(s.endpoints[e].value, kind).None? && s.nextWait != 0
  }

  /** The thread is inside call `n` at `e` with no result yet, and blocked if parking blocked it. */
  predicate Parks(s: Sys, s': Sys, t: nat, kind: Kind, e: nat, n: nat, park: Park) {
    && s'.replies == s.replies
    && Live(s'.threads, t) && s'.threads[t].value.call.Some? && Waiting(s', t, Pending)
    && s'.threads[t].value.state == (if park == Blocks then Blocked else Running)
    && var c := s'.threads[t].value.call.value;
       c.kind == kind && c.endpoint == e && c.op == n
  }

  /** A turn of the wait loop with nothing to take. */
  lemma TurnParks(s: Sys, t: nat, park: Park)
    requires Inv(s) && Parked(s, t) && s.current == Some(t) && Waiting(s, t, Pending)
    requires var c := s.threads[t].value.call.value;
             c.kind == Receive ==> s.endpoints[c.endpoint].value.mail.None?
    ensures var c := s.threads[t].value.call.value;
            var s' := WaitLoop(s, t, c, park).0;
            if park == Fails then s'.replies == s.replies[c.op := if c.kind == Send then NotSent else GotNothing]
            else Parks(s, s', t, c.kind, c.endpoint, c.op, park)
  {
    hide Linked, TableOk, FinishAndLeave, Leave, ReceiveLocked, Left;
    var c := s.threads[t].value.call.value;
    ThreadHere(s, t);
    AlwaysReserved(s, c.endpoint, c.kind);
    EndpointHere(s, c.endpoint);
    FinishEffect(s, t, Cancelled, None);
    LeftReplies(s, t);
  }

  lemma LeftReplies(s: Sys, t: nat)
    requires Parked(s, t)
    ensures Left(s, t, Running).replies == s.replies
  {
  }

  /** A call that gets as far as waiting parks, unless its seat is taken or parking fails. */
  lemma BeginOutcome(s: Sys, t: nat, kind: Kind, e: nat, st: Option<Stamped>, timeout: Option<nat>, n: nat, park: Park)
    requires Inv(s) && Admissible(s, kind, e, st) && TimeoutOk(timeout) && CanCall(s, t)
    ensures var s' := Begin(s, t, kind, e, st, timeout, n, park).0;
            if SeatFree(s, e, kind) && park != Fails then Parks(s, s', t, kind, e, n, park)
            else s'.replies == s.replies[n := if kind == Send then NotSent else GotNothing]
  {
    hide Linked, TableOk, EntriesOk, WaitLoop, Reserve, Register, FinishAndLeave, Parks;
    ReserveIff(s, t, kind, e, st, timeout.Some?, n);
    var reserved := Reserve(s, t, kind, e, st, timeout.Some?, n);
    if reserved.Some? {
      var s1 := reserved.value;
      ReserveLinked(s, t, kind, e, st, timeout.Some?, n);
      ReserveTable(s, t, kind, e, st, timeout.Some?, n);
      ReserveFacts(s, t, kind, e, st, timeout.Some?, n);
      if timeout.None? {
        UntimedInv(s1, t);
        TurnParks(s1, t, park);
        SameParks(s, s1, t, kind, e, n, park, WaitLoop(s1, t, s1.threads[t].value.call.value, park).0);
      } else {
        EntriesOf(s);
        TableHasRoom(s, e, kind);
        RegisterSucceeds(s1, t, e, kind, timeout.value);
        RegisterInv(s1, t, timeout.value);
        var s2 := Register(s1, t, e, kind, s1.threads[t].value.call.value.id, timeout.value).value;
        RegisterFacts(s1, t, e, kind, s1.threads[t].value.call.value.id, timeout.value);
        TurnParks(s2, t, park);
        SameParks(s, s2, t, kind, e, n, park, WaitLoop(s2, t, s1.threads[t].value.call.value, park).0);
      }
    }
  }

  lemma SameParks(s: Sys, s1: Sys, t: nat, kind: Kind, e: nat, n: nat, park: Park, s': Sys)
    requires s1.replies == s.replies
    ensures Parks(s1, s', t, kind, e, n, park) == Parks(s, s', t, kind, e, n, park)
  {
  }

  lemma ReserveIff(s: Sys, t: nat, kind: Kind, e: nat, st: Option<Stamped>, timed: bool, n: nat)
    requires Inv(s) && Admissible(s, kind, e, st) && CanCall(s, t)
    ensures var r := Reserve(s, t, kind, e, st, timed, n);
            && (r.Some? <==> SeatFree(s, e, kind))
            && (r.Some? ==>
                  && r.value.replies == s.replies && r.value.current == Some(t) && Live(r.value.endpoints, e)
                  && r.value.endpoints[e].value.mail == s.endpoints[e].value.mail)
  {
    hide TableOk;
    assert EndpointOk(s, e);
    assert ThreadOk(s, t);
  }

  /** A blocking send: refused for a bad message, timeout or endpoint; sent when there is
      room; waiting when the mailbox is full and nobody else waits to send. */
  lemma SendBlockingOutcome(s: Sys, resolved: Option<nat>, m: Message, timeout: Option<nat>, park: Park)
    requires Inv(s) && s.current.Some? && CanCall(s, s.current.value)
    ensures var s' := SendBlocking(s, resolved, m, timeout, park).0;
            if !ValidMessage(m) || !TimeoutOk(timeout) || resolved.None? || !Open(s, resolved.value) then
              Told(s, s', NotSent)
            else
              var e := resolved.value;
              if s.endpoints[e].value.mail.None? then Told(s, s', if Room(s, e) then Sent else NotSent)
              else if SeatFree(s, e, Send) && park != Fails then
                Parks(s, s', s.current.value, Send, e, s.nextOp, park)
              else Told(s, s', NotSent)
  {
    hide Inv, SendLocked, Begin, CanCall, Parks;
    var s0 := Numbering(s);
    HistoryIgnored(s, s0);
    if resolved.Some? && Open(s, resolved.value) && ValidMessage(m) && TimeoutOk(timeout) {
      var e, st := resolved.value, Stamped(s.nextOp, m);
      assert Room(s0, e) == Room(s, e);
      SendIff(s0, e, st);
      SendSilent(s0, e, st);
      SendSafe(s0, e, st);
      if s.endpoints[e].value.mail.Some? {
        StillCalls(s, s0, s.current.value);
        BeginOutcome(s0, s.current.value, Send, e, Some(st), timeout, s.nextOp, park);
        SameParks(s, s0, s.current.value, Send, e, s.nextOp, park,
                  Begin(s0, s.current.value, Send, e, Some(st), timeout, s.nextOp, park).0);
      }
    }
  }

  lemma StillCalls(s: Sys, s': Sys, t: nat)
    requires s' == s.(nextOp := s'.nextOp)
    ensures CanCall(s', t) == CanCall(s, t)
  {
  }

  /** A blocking receive: refused for a bad timeout or endpoint; it returns the message
      that is there for it, and waits when there is none and nobody else waits for one. */
  lemma ReceiveBlockingOutcome(s: Sys, resolved: Option<nat>, timeout: Option<nat>, park: Park)
    requires Inv(s) && s.current.Some? && CanCall(s, s.current.value)
    ensures var s' := ReceiveBlocking(s, resolved, timeout, park).0;
            if !TimeoutOk(timeout) || resolved.None? || !Open(s, resolved.value) then Told(s, s', GotNothing)
            else
              var e := resolved.value;
              if s.endpoints[e].value.mail.Some? then
                Told(s, s', if s.endpoints[e].value.receiver.None? then Got(s.endpoints[e].value.mail) else GotNothing)
              else if SeatFree(s, e, Receive) && park != Fails then
                Parks(s, s', s.current.value, Receive, e, s.nextOp, park)
              else Told(s, s', GotNothing)
  {
    hide Inv, ReceiveLocked, Begin, CanCall, Parks;
    var s0 := Numbering(s);
    HistoryIgnored(s, s0);
    if resolved.Some? && Open(s, resolved.value) && TimeoutOk(timeout) {
      var e := resolved.value;
      assert HasMail(s0, e) == HasMail(s, e);
      ReceiveIff(s0, e, s.nextOp);
      ReceiveSilent(s0, e, s.nextOp);
      NotReceiver(s, s.current.value, e);
      if s.endpoints[e].value.mail.None? {
        StillCalls(s, s0, s.current.value);
        BeginOutcome(s0, s.current.value, Receive, e, None, timeout, s.nextOp, park);
        SameParks(s, s0, s.current.value, Receive, e, s.nextOp, park,
                  Begin(s0, s.current.value, Receive, e, None, timeout, s.nextOp, park).0);
      }
    }
  }

  /** A thread that is in no call sits in no seat. */
  lemma NotReceiver(s: Sys, t: nat, e: nat)
    requires Inv(s) && CanCall(s, t) && Live(s.endpoints, e)
    ensures s.endpoints[e].value.receiver.Some? ==> s.endpoints[e].value.receiver.value.thread != t
  {
    hide TableOk;
    assert EndpointOk(s, e);
    assert ThreadOk(s, t);
  }

  /** A resumed call: it returns what its wait result calls for, takes the message that
      has come, or parks again. */
  lemma ResumeOutcome(s: Sys, park: Park)
    requires Inv(s) && InCall(s)
    ensures var s' := Resume(s, park).0;
            var c, t := CurrentCall(s), s.current.value;
            && Live(s.endpoints, c.endpoint)
            && (if !Waiting(s, t, Pending) then
                  s'.replies == s.replies[c.op := if c.kind == Receive then GotNothing
                                                  else if Waiting(s, t, Completed) then Sent else NotSent]
                else if c.kind == Receive && s.endpoints[c.endpoint].value.mail.Some? then
                  s'.replies == s.replies[c.op := Got(s.endpoints[c.endpoint].value.mail)]
                else if park == Fails then
                  s'.replies == s.replies[c.op := if c.kind == Send then NotSent else GotNothing]
                else Parks(s, s', t, c.kind, c.endpoint, c.op, park))
  {
    hide Linked, TableOk, FinishAndLeave, Leave, ReceiveLocked, Left, Parks;
    var c, t := CurrentCall(s), s.current.value;
    ThreadHere(s, t);
    AlwaysReserved(s, c.endpoint, c.kind);
    EndpointHere(s, c.endpoint);
    LeftReplies(s, t);
    if !Waiting(s, t, Pending) {
      LeaveEffect(s, t, None);
    } else if c.kind == Receive && s.endpoints[c.endpoint].value.mail.Some? {
      var (s1, r) := ReceiveLocked(s, c.endpoint, c.op);
      ReceiveKeepsCall(s, t);
      ReceiveIff(s, c.endpoint, c.op);
      ReceiveSilent(s, c.endpoint, c.op);
      FinishEffect(s1, t, Completed, s.endpoints[c.endpoint].value.mail);
      LeftReplies(s1, t);
    } else {
      TurnParks(s, t, park);
    }
  }
}
