/** Every step keeps the history, hence every run does. */
module IpcExactlyOnce {
  import opened Slots
  import opened IpcModel
  import opened IpcInvariant
  import opened IpcTimers
  import opened IpcCalls
  import opened IpcHistory
  import opened IpcRuns

  // --------------------------------------------------------- send and receive

  /** The number of a call that has just started. */
  ghost predicate Newest(s: Sys, op: nat) {
    && op + 1 == s.nextOp && Mine(s, op, {}) && !Accepted(s.logs, op)
    && (forall st :: !TakenBy(s.logs, op, st))
  }

  lemma NewestIsLast(s: Sys, op: nat, id: nat)
    requires LogsOk(s) && Newest(s, op) && id in s.logs
    ensures forall i :: 0 <= i < |s.logs[id].accepted| ==> s.logs[id].accepted[i].op < op
  {
    forall i | 0 <= i < |s.logs[id].accepted| ensures s.logs[id].accepted[i].op < op {
      assert HasOp(s.logs[id].accepted, s.logs[id].accepted[i].op);
      assert Accepted(s.logs, s.logs[id].accepted[i].op);
    }
  }

  lemma StartCall(s: Sys)
    requires History(s)
    ensures var s0 := s.(nextOp := s.nextOp + 1);
            History(s0) && Newest(s0, s.nextOp)
  {
    var s0 := s.(nextOp := s.nextOp + 1);
    forall e: nat | Live(s0.endpoints, e) ensures BoxOk(s0, e) {
      assert BoxOk(s, e);
    }
    forall u: nat | Live(s0.threads, u) ensures CallOk(s0, u) && !Uses(s0, u, s.nextOp) {
      assert CallOk(s, u);
    }
    forall u: nat, v: nat | Live(s0.threads, u) && Live(s0.threads, v) && u < v ensures !SameCall(s0, u, v) {
      assert !SameCall(s, u, v);
    }
    forall id | id in s0.logs && Outstanding(s0.logs[id]) != [] ensures Homed(s0, id) {
      assert Homed(s, id);
    }
    forall o | o in s0.replies ensures ReplyOk(s0, o) && o != s.nextOp {
      assert ReplyOk(s, o);
    }
  }

  lemma WakeKeeps(s: Sys, t: nat, but: set<nat>)
    requires HistoryBut(s, but) && Live(s.threads, t)
    ensures HistoryBut(PutThread(s, t, Woken(s.threads[t].value)), but)
  {
    ThreadsMove(s, PutThread(s, t, Woken(s.threads[t].value)), but);
  }

  lemma SendHistory(s: Sys, e: nat, st: Stamped)
    requires Linked(s) && History(s) && Newest(s, st.op)
    ensures var (s', r) := SendLocked(s, e, st);
            && History(s') && Mine(s', st.op, {})
            && (Accepted(s'.logs, st.op) <==> r == Done)
            && (forall x :: !TakenBy(s'.logs, st.op, x))
  {
    hide Linked, HistoryBut, CallOk, BoxOk;
    var (s', r) := SendLocked(s, e, st);
    SendLockedSafe(s, e, st);
    if r == Done {
      BoxFacts(s, e, {});
      NewestIsLast(s, st.op, s.endpoints[e].value.id);
      if s.endpoints[e].value.receiver.None? {
        AcceptKeeps(s, e, st, {});
      } else {
        var t := s.endpoints[e].value.receiver.value.thread;
        Seated(s, e, Receive);
        WakeEffect(s, t);
        var s1 := PutThread(s, t, Woken(s.threads[t].value));
        WakeKeeps(s, t, {});
        assert Mine(s1, st.op, {}) by {
          forall u: nat | Live(s1.threads, u) ensures !Uses(s1, u, st.op) {
            assert !Uses(s, u, st.op);
          }
        }
        AcceptKeeps(s1, e, st, {});
      }
      assert Mine(s', st.op, {}) by {
        forall u: nat | Live(s'.threads, u) ensures !Uses(s', u, st.op) {
          assert !Uses(s, u, st.op);
        }
      }
    }
  }

  lemma BoxFacts(s: Sys, e: nat, but: set<nat>)
    requires HistoryBut(s, but) && Live(s.endpoints, e)
    ensures LogsOk(s) && BoxOk(s, e) && s.endpoints[e].value.id in s.logs
  {
  }

  /** The sender's wait is completed, the receiver gets the mailbox message, and the
      staged one enters the mailbox: three pieces of one step. */
  lemma MoveUpHistory(s: Sys, e: nat, op: nat, but: set<nat>)
    requires Linked(s) && HistoryBut(s, but) && Mine(s, op, but) && Live(s.endpoints, e) && !s.endpoints[e].value.closed
    requires var x := s.endpoints[e].value;
             x.mail.Some? && x.staged.Some? && x.sender.Some? && x.sender.value.thread !in but
    requires s.endpoints[e].value.receiver.Some? ==> s.current == Some(s.endpoints[e].value.receiver.value.thread)
    ensures var (s', r) := MoveUp(s, e, op);
            && HistoryBut(s', but)
            && (Accepted(s'.logs, op) <==> Accepted(s.logs, op))
            && (forall o, x :: TakenBy(s'.logs, o, x) <==>
                  TakenBy(s.logs, o, x) || (o == op && x == s.endpoints[e].value.mail.value))
  {
    hide Linked, HistoryBut, MoveUp;
    var x := s.endpoints[e].value;
    var t := x.sender.value.thread;
    MoveUpSafe(s, e, op);
    BoxFacts(s, e, but);
    CallFacts(s, t, but);
    Seated(s, e, Send);
    EndpointHere(s, e);
    var s2 := PutEndpoint(PutThread(s, t, Settled(s.threads[t].value, Completed)), e, x.(staged := None));
    SenderDone(s, s2, e, but);
    MineStays(s, s2, op, but, but + {t});
    DeliverKeeps(s2, e, op, but + {t});
    var s3 := Deliver(s2, e, op);
    assert s3.logs[x.id].accepted == s.logs[x.id].accepted;
    StagedIsMine(s, s3, e, but);
    AcceptKeeps(s3, e, x.staged.value, but + {t});
    var s4 := Accept(s3, e, x.staged.value);
    Narrow(s4, t, but, but + {t});
    MoveUpParts(s, e, op, s4);
  }

  /** First piece: the sender's wait is completed and its place is empty. */
  lemma SenderDone(s: Sys, s2: Sys, e: nat, but: set<nat>)
    requires HistoryBut(s, but) && Live(s.endpoints, e) && s.endpoints[e].value.sender.Some?
    requires var t := s.endpoints[e].value.sender.value.thread;
             && Live(s.threads, t) && s.threads[t].value.wait.Some?
             && s2 == PutEndpoint(PutThread(s, t, Settled(s.threads[t].value, Completed)), e,
               s.endpoints[e].value.(staged := None))
    ensures HistoryBut(s2, but + {s.endpoints[e].value.sender.value.thread})
  {
    hide HistoryBut;
    var t := s.endpoints[e].value.sender.value.thread;
    var s1 := PutThread(s, t, Settled(s.threads[t].value, Completed));
    Widen(s, but, but + {t});
    ThreadsMove(s, s1, but + {t});
    BoxUnstaged(s1, s2, e, but + {t});
  }

  lemma CallFacts(s: Sys, t: nat, but: set<nat>)
    requires HistoryBut(s, but) && Live(s.threads, t) && t !in but
    ensures CallOk(s, t)
  {
  }

  lemma Widen(s: Sys, but: set<nat>, wider: set<nat>)
    requires HistoryBut(s, but) && but <= wider
    ensures HistoryBut(s, wider)
  {
  }

  lemma Narrow(s: Sys, t: nat, but: set<nat>, wider: set<nat>)
    requires HistoryBut(s, wider) && wider == but + {t} && Live(s.threads, t) && CallOk(s, t)
    ensures HistoryBut(s, but)
  {
  }

  lemma BoxUnstaged(s: Sys, s': Sys, e: nat, but: set<nat>)
    requires HistoryBut(s, but) && Live(s.endpoints, e) &&
      s' == PutEndpoint(s, e, s.endpoints[e].value.(staged := None))
    ensures HistoryBut(s', but)
  {
    assert BoxOk(s, e);
    SeatMoves(s, s', e, but);
  }

  lemma MineStays(s: Sys, s': Sys, op: nat, but: set<nat>, wider: set<nat>)
    requires Mine(s, op, but) && but <= wider && s'.nextOp == s.nextOp && s'.replies == s.replies
    requires forall u: nat :: Live(s'.threads, u) ==>
      Live(s.threads, u) && s'.threads[u].value.call == s.threads[u].value.call
    ensures Mine(s', op, but) && Mine(s', op, wider)
  {
    forall u: nat | Live(s'.threads, u) && u !in but ensures !Uses(s', u, op) {
      assert !Uses(s, u, op);
    }
  }

  /** Only its sender holds the number of a staged message, which nobody has accepted. */
  lemma StagedIsMine(s: Sys, s': Sys, e: nat, but: set<nat>)
    requires HistoryBut(s, but) && Live(s.endpoints, e) && s.endpoints[e].value.staged.Some?
    requires s.endpoints[e].value.sender.Some? && s.endpoints[e].value.sender.value.thread !in but
    requires Live(s.threads, s.endpoints[e].value.sender.value.thread)
    requires s'.nextOp == s.nextOp && s'.replies == s.replies
    requires forall u: nat :: Live(s'.threads, u) ==>
      Live(s.threads, u) && s'.threads[u].value.call == s.threads[u].value.call
    ensures Mine(s', s.endpoints[e].value.staged.value.op, but + {s.endpoints[e].value.sender.value.thread})
  {
    var t := s.endpoints[e].value.sender.value.thread;
    assert BoxOk(s, e) && CallOk(s, t);
    forall u: nat | Live(s'.threads, u) && u !in but + {t} ensures !Uses(s', u, s.endpoints[e].value.staged.value.op) {
      assert if u < t then !SameCall(s, u, t) else !SameCall(s, t, u);
    }
  }

  lemma MoveUpParts(s: Sys, e: nat, op: nat, s4: Sys)
    requires Linked(s) && Live(s.endpoints, e)
    requires var x := s.endpoints[e].value; x.mail.Some? && x.staged.Some? && x.sender.Some?
    requires s.endpoints[e].value.receiver.Some? ==> s.current == Some(s.endpoints[e].value.receiver.value.thread)
    requires var x := s.endpoints[e].value;
             var t := x.sender.value.thread;
             && Live(s.threads, t) && s.threads[t].value.wait.Some? && s.threads[t].value.wait.value.result == Pending
             && s4 == Accept(Deliver(PutEndpoint(PutThread(s, t, Settled(s.threads[t].value, Completed)), e,
               x.(staged := None)), e, op),
                             e, x.staged.value)
    ensures s4 == MoveUp(s, e, op).0
  {
    var x := s.endpoints[e].value;
    var t := x.sender.value.thread;
    Seated(s, e, Send);
    EndpointHere(s, e);
    CompleteEffect(s, t, Send, e, x.sender.value.id, Completed);
    var s' := MoveUp(s, e, op).0;
    assert s4.endpoints == s'.endpoints;
    assert s4.logs == s'.logs;
    assert s4.threads == s'.threads;
  }

  /** A receive takes the mailbox message or nothing. `but` is at most the receiving
      thread itself. */
  lemma ReceiveHistory(s: Sys, e: nat, op: nat, but: set<nat>)
    requires Linked(s) && HistoryBut(s, but) && Mine(s, op, but)
    requires Live(s.endpoints, e) && s.endpoints[e].value.sender.Some? ==>
      s.endpoints[e].value.sender.value.thread !in but
    ensures var (s', r) := ReceiveLocked(s, e, op);
            && HistoryBut(s', but)
            && (Accepted(s'.logs, op) <==> Accepted(s.logs, op))
            && (r != Done ==> s' == s)
            && (r == Done ==>
                  && Live(s.endpoints, e) && s.endpoints[e].value.mail.Some?
                  && (forall o, x :: TakenBy(s'.logs, o, x) <==>
                        TakenBy(s.logs, o, x) || (o == op && x == s.endpoints[e].value.mail.value)))
  {
    hide Linked, HistoryBut, MoveUp;
    ReceiveLockedSafe(s, e, op);
    if ReceiveLocked(s, e, op).1 == Done {
      if s.endpoints[e].value.staged.Some? {
        MoveUpHistory(s, e, op, but);
      } else {
        DeliverKeeps(s, e, op, but);
      }
    }
  }

  lemma ReceiveNowHistory(s: Sys, e: nat, op: nat)
    requires Linked(s) && History(s) && Newest(s, op)
    ensures History(ReceiveNow(s, e, op).0)
  {
    hide Linked, HistoryBut, ReceiveLocked;
    var (s1, r) := ReceiveLocked(s, e, op);
    ReceiveHistory(s, e, op, {});
    ReceiveLockedSafe(s, e, op);
    if r == Done {
      ProgressCalls(s, s1, e);
    }
    KeepsReplies(s, e, op);
    MineStays(s, s1, op, {}, {});
    AnswerKeeps(s1, op, if r == Done then Got(s.endpoints[e].value.mail) else GotNothing);
  }

  lemma ProgressCalls(s: Sys, s': Sys, e: nat)
    requires Progress(s, s', e)
    ensures forall u: nat :: Live(s'.threads, u) ==>
      Live(s.threads, u) && s'.threads[u].value.call == s.threads[u].value.call
    ensures s'.nextOp == s.nextOp
  {
  }

  // ------------------------------------------------------------ leaving a call

  lemma LeftBox(s: Sys, t: nat, state: ThreadState, f: nat)
    requires Parked(s, t) && Live(s.endpoints, f) && BoxOk(s, f) && EndpointOk(s, f)
    ensures Live(Left(s, t, state).endpoints, f) && BoxOk(Left(s, t, state), f)
  {
    BoxStays(s, Left(s, t, state), f);
  }

  lemma LeftBoxes(s: Sys, t: nat, state: ThreadState, but: set<nat>)
    requires Linked(s) && Parked(s, t) && HistoryBut(s, but)
    ensures forall f: nat :: Live(Left(s, t, state).endpoints, f) ==> BoxOk(Left(s, t, state), f)
  {
    hide BoxOk, EndpointOk, ThreadOk, CallOk, LogsOk, ReplyOk;
    forall f: nat | Live(Left(s, t, state).endpoints, f) ensures BoxOk(Left(s, t, state), f) {
      assert Live(s.endpoints, f);
      LeftBox(s, t, state, f);
    }
  }

  lemma LeftHistory(s: Sys, t: nat, state: ThreadState, but: set<nat>)
    requires Linked(s) && Parked(s, t) && HistoryBut(s, but) && but <= {t}
    ensures History(Left(s, t, state))
    ensures s.threads[t].value.call.value.op < s.nextOp && s.threads[t].value.call.value.op !in s.replies ==>
      Mine(Left(s, t, state), s.threads[t].value.call.value.op, {})
  {
    hide Linked, BoxOk, LogsOk, CallOk, ReplyOk;
    var s' := Left(s, t, state);
    LeftBoxes(s, t, state, but);
    LeavingKeeps(s, s', s.threads[t].value.wait.value.endpoint, t, but);
    assert but - {t} == {};
    forall u: nat | Live(s'.threads, u) ensures !Uses(s', u, s.threads[t].value.call.value.op) {
      assert u < t ==> !SameCall(s, u, t);
      assert t < u ==> !SameCall(s, t, u);
    }
  }

  /** Leaving a parked call: the reply tells the truth about it. */
  lemma LeaveHistory(s: Sys, t: nat, reply: Reply, but: set<nat>)
    requires Linked(s) && Parked(s, t) && HistoryBut(s, but) && but <= {t} && reply != Got(None)
    requires var op := s.threads[t].value.call.value.op;
             && op < s.nextOp && op !in s.replies
             && (reply == Sent <==> Accepted(s.logs, op))
             && (forall st :: reply == Got(Some(st)) <==> TakenBy(s.logs, op, st))
    ensures History(Answer(Left(s, t, Running), s.threads[t].value.call.value.op, reply))
  {
    hide Linked, HistoryBut;
    LeftHistory(s, t, Running, but);
    AnswerKeeps(Left(s, t, Running), s.threads[t].value.call.value.op, reply);
  }

  lemma WaitLoopHistory(s: Sys, t: nat, park: Park)
    requires Inv(s) && Parked(s, t) && s.current == Some(t) && History(s)
    ensures History(WaitLoop(s, t, s.threads[t].value.call.value, park).0)
  {
    hide Linked, TableOk, HistoryBut, FinishAndLeave, Leave, ReceiveLocked, Left;
    var c := s.threads[t].value.call.value;
    ThreadHere(s, t);
    AlwaysReserved(s, c.endpoint, c.kind);
    EndpointHere(s, c.endpoint);
    CallFacts(s, t, {});
    if !Waiting(s, t, Pending) {
      LeaveEffect(s, t, None);
      LeaveHistory(s, t, if c.kind == Send then if Waiting(s, t, Completed) then Sent else NotSent else GotNothing, {});
    } else if c.kind == Receive && s.endpoints[c.endpoint].value.mail.Some? {
      ReceiveLockedSafe(s, c.endpoint, c.op);
      TakeHistory(s, t);
    } else {
      match park
      case Blocks => BlockHistory(s, t);
      case Idles =>
      case Fails =>
        FinishEffect(s, t, Cancelled, None);
        LeaveHistory(s, t, if c.kind == Send then NotSent else GotNothing, {});
    }
  }

  lemma BlockHistory(s: Sys, t: nat)
    requires History(s) && Live(s.threads, t)
    ensures History(PutThread(s, t, s.threads[t].value.(state := Blocked)).(current := None))
  {
    ThreadsMove(s, PutThread(s, t, s.threads[t].value.(state := Blocked)).(current := None), {});
  }

  /** The resumed receiver takes the message that is waiting for it. */
  lemma TakeHistory(s: Sys, t: nat)
    requires Inv(s) && Parked(s, t) && s.current == Some(t) && History(s) && Waiting(s, t, Pending) && CallOk(s, t)
    requires s.threads[t].value.call.value.kind == Receive
    ensures var c := s.threads[t].value.call.value;
            var (s1, r) := ReceiveLocked(s, c.endpoint, c.op);
            History(FinishAndLeave(s1, t, c, if r == Done then Completed else Cancelled,
                                   if r == Done then s.endpoints[c.endpoint].value.mail else None).0)
  {
    hide Linked, TableOk, HistoryBut, FinishAndLeave, ReceiveLocked, Left;
    var c := s.threads[t].value.call.value;
    var (s1, r) := ReceiveLocked(s, c.endpoint, c.op);
    ReceiveKeepsCall(s, t);
    ReceiveLockedSafe(s, c.endpoint, c.op);
    EndpointHere(s, c.endpoint);
    Widen(s, {}, {t});
    OwnCall(s, t);
    ReceiveHistory(s, c.endpoint, c.op, {t});
    var content := if r == Done then s.endpoints[c.endpoint].value.mail else None;
    FinishEffect(s1, t, if r == Done then Completed else Cancelled, content);
    if r == Done {
      ProgressCalls(s, s1, c.endpoint);
      KeepsReplies(s, c.endpoint, c.op);
    }
    LeaveHistory(s1, t, if r == Done then Got(content) else GotNothing, {t});
  }

  lemma KeepsReplies(s: Sys, e: nat, op: nat)
    ensures ReceiveLocked(s, e, op).0.replies == s.replies
  {
  }

  lemma OwnCall(s: Sys, t: nat)
    requires History(s) && Live(s.threads, t) && s.threads[t].value.call.Some? && CallOk(s, t)
    ensures Mine(s, s.threads[t].value.call.value.op, {t})
  {
    forall u: nat | Live(s.threads, u) && u !in {t} ensures !Uses(s, u, s.threads[t].value.call.value.op) {
      assert u < t ==> !SameCall(s, u, t);
      assert t < u ==> !SameCall(s, t, u);
    }
  }

  // ----------------------------------------------------------- starting to wait

  lemma ReserveHistory(s: Sys, t: nat, kind: Kind, e: nat, st: Option<Stamped>, timed: bool, op: nat)
    requires Linked(s) && History(s) && Newest(s, op) && Live(s.endpoints, e)
    requires kind == Send ==> st.Some? && st.value.op == op
    requires Reserve(s, t, kind, e, st, timed, op).Some?
    ensures History(Reserve(s, t, kind, e, st, timed, op).value)
  {
    hide Linked, BoxOk, CallOk;
    var s1 := Reserve(s, t, kind, e, st, timed, op).value;
    ReserveBoxes(s, t, kind, e, st, timed, op);
    ReserveCalls(s, s1, t, op);
    HomesStay(s, s1, e);
    forall o | o in s1.replies ensures ReplyOk(s1, o) {
      assert ReplyOk(s, o);
    }
  }

  lemma ReserveBoxes(s: Sys, t: nat, kind: Kind, e: nat, st: Option<Stamped>, timed: bool, op: nat)
    requires Linked(s) && History(s) && Newest(s, op) && Live(s.endpoints, e)
    requires kind == Send ==> st.Some? && st.value.op == op
    requires Reserve(s, t, kind, e, st, timed, op).Some?
    ensures var s1 := Reserve(s, t, kind, e, st, timed, op).value;
            forall f: nat :: Live(s1.endpoints, f) ==> BoxOk(s1, f)
  {
    hide BoxOk, EndpointOk, ThreadOk, CallOk, LogsOk, ReplyOk;
    var s1 := Reserve(s, t, kind, e, st, timed, op).value;
    forall f: nat | Live(s1.endpoints, f) ensures BoxOk(s1, f) {
      assert Live(s.endpoints, f);
      ReserveBox(s, t, kind, e, st, timed, op, f);
    }
  }

  lemma ReserveBox(s: Sys, t: nat, kind: Kind, e: nat, st: Option<Stamped>, timed: bool, op: nat, f: nat)
    requires LogsOk(s) && Newest(s, op) && Live(s.endpoints, e) && Live(s.endpoints, f) && BoxOk(s, f) &&
      EndpointOk(s, f)
    requires kind == Send ==> st.Some? && st.value.op == op
    requires Reserve(s, t, kind, e, st, timed, op).Some?
    ensures BoxOk(Reserve(s, t, kind, e, st, timed, op).value, f)
  {
    var s1 := Reserve(s, t, kind, e, st, timed, op).value;
    if f == e && kind == Send {
      NewestIsLast(s, op, s.endpoints[e].value.id);
    } else {
      BoxStays(s, s1, f);
    }
  }

  lemma ReserveCalls(s: Sys, s1: Sys, t: nat, op: nat)
    requires History(s) && Newest(s, op) && Live(s.threads, t) && Live(s1.threads, t)
    requires |s1.threads| == |s.threads| && s1.threads == s.threads[t := s1.threads[t]]
    requires s1.logs == s.logs && s1.replies == s.replies && s1.nextOp == s.nextOp
    requires var x := s1.threads[t].value;
             x.call.Some? && x.call.value.op == op && x.wait.Some? && x.wait.value.result != Completed
    ensures forall u: nat :: Live(s1.threads, u) ==> CallOk(s1, u)
    ensures forall u: nat, v: nat :: Live(s1.threads, u) && Live(s1.threads, v) && u < v ==> !SameCall(s1, u, v)
  {
    forall u: nat | Live(s1.threads, u) ensures CallOk(s1, u) {
      assert u != t ==> CallOk(s, u);
    }
    forall u: nat, v: nat | Live(s1.threads, u) && Live(s1.threads, v) && u < v ensures !SameCall(s1, u, v) {
      assert !SameCall(s, u, v);
      assert u != t ==> !Uses(s, u, op);
      assert v != t ==> !Uses(s, v, op);
    }
  }

  lemma BeginHistory(s: Sys, t: nat, kind: Kind, e: nat, st: Option<Stamped>, timeout: Option<nat>, op: nat, park: Park)
    requires Inv(s) && History(s) && Newest(s, op) && Admissible(s, kind, e, st) && TimeoutOk(timeout)
    requires kind == Send ==> st.value.op == op
    ensures History(Begin(s, t, kind, e, st, timeout, op, park).0)
  {
    assert EntriesOk(s);
    hide Linked, TableOk, EntriesOk, HistoryBut, WaitLoop, Reserve, Register, FinishAndLeave;
    var reserved := Reserve(s, t, kind, e, st, timeout.Some?, op);
    if reserved.None? {
      AnswerKeeps(s, op, if kind == Send then NotSent else GotNothing);
    } else {
      var s1 := reserved.value;
      ReserveLinked(s, t, kind, e, st, timeout.Some?, op);
      ReserveTable(s, t, kind, e, st, timeout.Some?, op);
      ReserveFacts(s, t, kind, e, st, timeout.Some?, op);
      ReserveHistory(s, t, kind, e, st, timeout.Some?, op);
      if timeout.None? {
        UntimedInv(s1, t);
        WaitLoopHistory(s1, t, park);
      } else {
        TableHasRoom(s, e, kind);
        RegisterSucceeds(s1, t, e, kind, timeout.value);
        RegisterInv(s1, t, timeout.value);
        var s2 := Register(s1, t, e, kind, s1.threads[t].value.call.value.id, timeout.value).value;
        RegisterFacts(s1, t, e, kind, s1.threads[t].value.call.value.id, timeout.value);
        TableUnread(s1, s2);
        WaitLoopHistory(s2, t, park);
      }
    }
  }

  lemma TableUnread(s: Sys, s': Sys)
    requires History(s) && s' == s.(timed := s'.timed, time := s'.time, polled := s'.polled, late := s'.late)
    ensures History(s')
  {
    ThreadsMove(s, s', {});
  }

  // ------------------------------------------------------ time, abort and close

  lemma ExpiredHistory(s: Sys, x: Timed)
    requires Linked(s) && TimedOk(s, x) && Waiting(s, x.thread, Pending) && History(s)
    ensures History(Expired(s, x))
  {
    hide Linked, HistoryBut;
    var s1 := PutThread(s, x.thread, Settled(s.threads[x.thread].value, TimedOut));
    ThreadsMove(s, s1, {});
    var s2 := Expired(s, x);
    if x.kind == Send {
      BoxUnstaged(s1, s2, x.endpoint, {});
    } else {
      assert s2.endpoints == s1.endpoints;
    }
  }

  lemma {:induction false} PollHistory(s: Sys, i: nat)
    requires Polled(s, i) && i <= |s.timed| && History(s)
    ensures History(PollFrom(s, i).0)
    decreases |s.timed| - i
  {
    hide PollSlot, HistoryBut;
    if i < |s.timed| {
      PollSlotSafe(s, i);
      if s.timed[i].Some? && DueNow(s, s.timed[i].value) {
        assert Live(s.timed, i);
        ExpiredHistory(s, s.timed[i].value);
      }
      PollHistory(PollSlot(s, i).0, i + 1);
    }
  }

  lemma PollAllHistory(s: Sys)
    requires Inv(s) && History(s)
    ensures History(PollAll(s).0)
  {
    hide HistoryBut;
    var s0 := NotePoll(s);
    PollStarts(s, s0);
    TableUnread(s, s0);
    PollHistory(s0, 0);
  }

  lemma CloseHistory(s: Sys, e: nat)
    requires Linked(s) && History(s)
    ensures History(Close(s, e).0)
  {
    hide Linked, HistoryBut, Close;
    CloseSafe(s, e);
    if Close(s, e).1 == Done {
      DiscardKeeps(s, e, {});
      ClosedCalls(s, Close(s, e).0, e);
      ThreadsMove(Discard(s, e), Close(s, e).0, {});
    }
  }

  lemma ClosedCalls(s: Sys, s': Sys, e: nat)
    requires Live(s.endpoints, e) && ClosedBy(s, s', e)
    ensures SameCalls(Discard(s, e), s', {})
  {
  }

  lemma AbortHistory(s: Sys, t: nat)
    requires Inv(s) && History(s)
    ensures History(Abort(s, t).0)
  {
    hide HistoryBut, Abort, Left;
    AbortSafe(s, t);
    if Abort(s, t).1 == Done {
      LeftHistory(s, t, Dead, {});
    }
  }

  // ------------------------------------------------------------------ lifetimes

  lemma CreateBoxes(s: Sys)
    requires History(s) && s.nextEndpoint < U64 && CreateEndpoint(s).1 == Done
    ensures var s' := CreateEndpoint(s).0;
            && s.nextEndpoint !in s.logs && LogsOk(s')
            && (forall e: nat :: Live(s'.endpoints, e) ==> BoxOk(s', e))
            && (forall id :: Homed(s, id) ==> Homed(s', id))
  {
    hide CallOk, ReplyOk, BoxOk, LogsFine;
    var s' := CreateEndpoint(s).0;
    CreateLogs(s);
    forall e: nat | Live(s'.endpoints, e) ensures BoxOk(s', e) {
      CreateBox(s, e);
    }
    forall id | Homed(s, id) ensures Homed(s', id) {
      var f: nat :| Live(s.endpoints, f) && s.endpoints[f].value.id == id;
      assert Live(s'.endpoints, f) && s'.endpoints[f].value.id == id;
    }
  }

  lemma CreateLogs(s: Sys)
    requires LogsOk(s) && s.nextEndpoint < U64 && CreateEndpoint(s).1 == Done
    ensures s.nextEndpoint !in s.logs && LogsOk(CreateEndpoint(s).0)
  {
  }

  lemma CreateBox(s: Sys, e: nat)
    requires CreateEndpoint(s).1 == Done && s.nextEndpoint !in s.logs && Live(CreateEndpoint(s).0.endpoints, e)
    requires Live(s.endpoints, e) ==> BoxOk(s, e)
    ensures BoxOk(CreateEndpoint(s).0, e)
  {
  }

  lemma CreateHistory(s: Sys)
    requires History(s) && s.nextEndpoint < U64
    ensures History(CreateEndpoint(s).0)
  {
    var s' := CreateEndpoint(s).0;
    if CreateEndpoint(s).1 == Done {
      CreateBoxes(s);
      NewLog(s.logs, s'.logs, s.nextEndpoint);
      CreateIds(s);
      hide BoxOk, LogsOk;
      forall u: nat | Live(s'.threads, u) ensures CallOk(s', u) {
        assert CallOk(s, u);
      }
      forall u: nat, v: nat | Live(s'.threads, u) && Live(s'.threads, v) && u < v ensures !SameCall(s', u, v) {
        assert !SameCall(s, u, v);
      }
      forall id | id in s'.logs && Outstanding(s'.logs[id]) != [] ensures Homed(s', id) {
        assert Homed(s, id);
      }
      forall o | o in s'.replies ensures ReplyOk(s', o) {
        assert ReplyOk(s, o);
      }
    }
  }

  lemma CreateIds(s: Sys)
    requires History(s) && CreateEndpoint(s).1 == Done && s.nextEndpoint !in s.logs
    ensures var s' := CreateEndpoint(s).0;
            && (forall id :: id in s'.logs ==> LogOk(s'.logs[id]))
            && (forall e: nat, f: nat :: Live(s'.endpoints, e) && Live(s'.endpoints, f) && e < f ==>
                  s'.endpoints[e].value.id != s'.endpoints[f].value.id)
  {
    var s' := CreateEndpoint(s).0;
    forall e: nat | Live(s.endpoints, e) ensures s.endpoints[e].value.id != s.nextEndpoint {
      assert BoxOk(s, e);
    }
  }

  lemma NewLog(logs: map<nat, Log>, logs': map<nat, Log>, id: nat)
    requires id !in logs && logs' == logs[id := Log([], [], [])]
    ensures forall o :: Accepted(logs', o) <==> Accepted(logs, o)
    ensures forall o, x :: TakenBy(logs', o, x) <==> TakenBy(logs, o, x)
  {
    forall o ensures Accepted(logs', o) <==> Accepted(logs, o) {
      if Accepted(logs, o) {
        var k :| k in logs && HasOp(logs[k].accepted, o);
        assert k in logs' && HasOp(logs'[k].accepted, o);
      }
    }
    forall o, x ensures TakenBy(logs', o, x) <==> TakenBy(logs, o, x) {
      if TakenBy(logs, o, x) {
        var k :| k in logs && Delivery(o, x) in logs[k].delivered;
        assert k in logs' && Delivery(o, x) in logs'[k].delivered;
      }
    }
  }

  lemma DestroyHistory(s: Sys, e: nat, unreferenced: bool)
    requires History(s)
    ensures History(DestroyEndpoint(s, e, unreferenced).0)
  {
    var s' := DestroyEndpoint(s, e, unreferenced).0;
    if DestroyEndpoint(s, e, unreferenced).1 == Done {
      assert BoxOk(s, e);
      forall f: nat | Live(s'.endpoints, f) ensures BoxOk(s', f) {
        assert BoxOk(s, f);
      }
      forall u: nat | Live(s'.threads, u) ensures CallOk(s', u) {
        assert CallOk(s, u);
      }
      forall u: nat, v: nat | Live(s'.threads, u) && Live(s'.threads, v) && u < v ensures !SameCall(s', u, v) {
        assert !SameCall(s, u, v);
      }
      forall id | id in s'.logs && Outstanding(s'.logs[id]) != [] ensures Homed(s', id) {
        assert Homed(s, id);
        var f: nat :| Live(s.endpoints, f) && s.endpoints[f].value.id == id;
        assert Live(s'.endpoints, f) && s'.endpoints[f].value.id == id;
      }
      forall o | o in s'.replies ensures ReplyOk(s', o) {
        assert ReplyOk(s, o);
      }
    }
  }

  /** Threads outside any call come, go and are rescheduled. */
  lemma IdleHistory(s: Sys, s': Sys)
    requires History(s) && s' == s.(threads := s'.threads, current := s'.current, nextThread := s'.nextThread)
    requires forall u: nat :: Live(s'.threads, u) && s'.threads[u].value.call.Some? ==>
               && Live(s.threads, u) && s'.threads[u].value.call == s.threads[u].value.call
               && s'.threads[u].value.wait == s.threads[u].value.wait
    requires forall u: nat :: Live(s.threads, u) && s.threads[u].value.call.Some? ==>
               Live(s'.threads, u) && s'.threads[u].value.call == s.threads[u].value.call
    ensures History(s')
  {
    forall e: nat | Live(s'.endpoints, e) ensures BoxOk(s', e) {
      assert BoxOk(s, e);
    }
    forall u: nat | Live(s'.threads, u) ensures CallOk(s', u) {
      assert Live(s.threads, u) ==> CallOk(s, u);
    }
    forall u: nat, v: nat | Live(s'.threads, u) && Live(s'.threads, v) && u < v ensures !SameCall(s', u, v) {
      assert Live(s.threads, u) && Live(s.threads, v) ==> !SameCall(s, u, v);
    }
    forall id | id in s'.logs && Outstanding(s'.logs[id]) != [] ensures Homed(s', id) {
      assert Homed(s, id);
    }
    forall o | o in s'.replies ensures ReplyOk(s', o) {
      assert ReplyOk(s, o);
    }
  }

  lemma SpawnHistory(s: Sys)
    requires History(s)
    ensures History(Spawn(s).0)
  {
    hide HistoryBut;
    if Spawn(s).1 == Done { IdleHistory(s, Spawn(s).0); }
  }

  lemma SwitchHistory(s: Sys, t: nat)
    requires History(s)
    ensures History(Switch(s, t).0)
  {
    hide HistoryBut;
    if Switch(s, t).1 == Done { IdleHistory(s, Switch(s, t).0); }
  }

  lemma ReapHistory(s: Sys, t: nat)
    requires History(s)
    ensures History(Reap(s, t).0)
  {
    hide HistoryBut;
    if Reap(s, t).1 == Done { IdleHistory(s, Reap(s, t).0); }
  }

  // ------------------------------------------------------------------------ runs

  lemma TrySendHistory(s: Sys, resolved: Option<nat>, m: Message)
    requires Linked(s) && History(s)
    ensures History(TrySend(s, resolved, m).0)
  {
    hide Linked, HistoryBut, SendLocked;
    var s0 := s.(nextOp := s.nextOp + 1);
    LinkedStarts(s, s0);
    StartCall(s);
    if !ValidMessage(m) || resolved.None? {
      AnswerKeeps(s0, s.nextOp, NotSent);
    } else {
      SendLockedSafe(s0, resolved.value, Stamped(s.nextOp, m));
      SendAndAnswer(s0, resolved.value, Stamped(s.nextOp, m));
    }
  }

  lemma LinkedStarts(s: Sys, s0: Sys)
    requires Linked(s) && s0 == s.(nextOp := s.nextOp + 1)
    ensures Linked(s0)
  {
    forall t: nat | Live(s0.threads, t) ensures ThreadOk(s0, t) {
      assert ThreadOk(s, t);
    }
    forall e: nat | Live(s0.endpoints, e) ensures EndpointOk(s0, e) {
      assert EndpointOk(s, e);
    }
  }

  lemma SendAndAnswer(s: Sys, e: nat, st: Stamped)
    requires Linked(s) && History(s) && Newest(s, st.op)
    ensures var (s1, r) := SendLocked(s, e, st);
            History(Answer(s1, st.op, if r == Done then Sent else NotSent))
  {
    hide Linked, HistoryBut, SendLocked;
    SendHistory(s, e, st);
    var (s1, r) := SendLocked(s, e, st);
    AnswerKeeps(s1, st.op, if r == Done then Sent else NotSent);
  }

  lemma TryReceiveHistory(s: Sys, resolved: Option<nat>)
    requires Linked(s) && History(s)
    ensures History(TryReceive(s, resolved).0)
  {
    hide Linked, HistoryBut, ReceiveNow;
    var s0 := s.(nextOp := s.nextOp + 1);
    LinkedStarts(s, s0);
    StartCall(s);
    if resolved.None? {
      AnswerKeeps(s0, s.nextOp, GotNothing);
    } else {
      ReceiveNowHistory(s0, resolved.value, s.nextOp);
    }
  }

  lemma SendBlockingHistory(s: Sys, resolved: Option<nat>, m: Message, timeout: Option<nat>, park: Park)
    requires Inv(s) && History(s)
    ensures History(SendBlocking(s, resolved, m, timeout, park).0)
  {
    hide Linked, TableOk, HistoryBut, SendLocked, Begin;
    var s0 := s.(nextOp := s.nextOp + 1);
    HistoryIgnored(s, s0);
    StartCall(s);
    SendLockedSafe(s0, if resolved.Some? then resolved.value else 0, Stamped(s.nextOp, m));
    AnswerKeeps(s0, s.nextOp, NotSent);
    if resolved.Some? && ValidMessage(m) && TimeoutOk(timeout) && Live(s.endpoints, resolved.value) &&
       !s.endpoints[resolved.value].value.closed && s.current.Some?
    {
      SendAndAnswer(s0, resolved.value, Stamped(s.nextOp, m));
      if s.endpoints[resolved.value].value.mail.Some? {
        BeginHistory(s0, s.current.value, Send, resolved.value, Some(Stamped(s.nextOp, m)), timeout, s.nextOp, park);
      }
    }
  }

  lemma ReceiveBlockingHistory(s: Sys, resolved: Option<nat>, timeout: Option<nat>, park: Park)
    requires Inv(s) && History(s)
    ensures History(ReceiveBlocking(s, resolved, timeout, park).0)
  {
    hide Linked, TableOk, HistoryBut, ReceiveNow, Begin;
    var s0 := s.(nextOp := s.nextOp + 1);
    HistoryIgnored(s, s0);
    StartCall(s);
    AnswerKeeps(s0, s.nextOp, GotNothing);
    if resolved.Some? && TimeoutOk(timeout) && Live(s.endpoints, resolved.value) &&
      !s.endpoints[resolved.value].value.closed &&
       s.current.Some?
    {
      ReceiveNowHistory(s0, resolved.value, s.nextOp);
      if s.endpoints[resolved.value].value.mail.None? {
        BeginHistory(s0, s.current.value, Receive, resolved.value, None, timeout, s.nextOp, park);
      }
    }
  }

  lemma ResumeHistory(s: Sys, park: Park)
    requires Inv(s) && History(s)
    ensures History(Resume(s, park).0)
  {
    hide WaitLoop, HistoryBut;
    if s.current.Some? && Live(s.threads, s.current.value) && s.threads[s.current.value].value.call.Some? {
      ThreadHere(s, s.current.value);
      WaitLoopHistory(s, s.current.value, park);
    }
  }

  lemma StepHistory(s: Sys, op: Op)
    requires Inv(s) && History(s)
    ensures History(Apply(s, op).0)
  {
    assert Linked(s) && s.nextEndpoint < U64;
    hide Linked, TableOk, HistoryBut, TrySend, TryReceive, SendBlocking, ReceiveBlocking, Resume, PollAll, Abort, Close,
      CreateEndpoint,
      DestroyEndpoint, Spawn, Switch, Reap;
    match op
    case OpTrySend(resolved, m) => TrySendHistory(s, resolved, m);
    case OpTryReceive(resolved) => TryReceiveHistory(s, resolved);
    case OpSendBlocking(resolved, m, timeout, park) => SendBlockingHistory(s, resolved, m, timeout, park);
    case OpReceiveBlocking(resolved, timeout, park) => ReceiveBlockingHistory(s, resolved, timeout, park);
    case OpResume(park) => ResumeHistory(s, park);
    case OpElapse(ticks) => TableUnread(s, Elapse(s, ticks).0);
    case OpPoll => PollAllHistory(s);
    case OpAbort(t) => AbortHistory(s, t);
    case OpClose(e) => CloseHistory(s, e);
    case OpCreateEndpoint => CreateHistory(s);
    case OpDestroyEndpoint(e, unreferenced) => DestroyHistory(s, e, unreferenced);
    case OpSpawn => SpawnHistory(s);
    case OpSwitch(t) => SwitchHistory(s, t);
    case OpReap(t) => ReapHistory(s, t);
  }

  lemma {:induction false} RunKeepsHistory(s: Sys, ops: seq<Op>)
    requires Inv(s) && History(s)
    ensures Inv(Run(s, ops)) && History(Run(s, ops))
    decreases |ops|
  {
    hide Inv, HistoryBut, Apply;
    if ops != [] {
      StepSafe(s, ops[0]);
      StepHistory(s, ops[0]);
      RunKeepsHistory(Apply(s, ops[0]).0, ops[1..]);
    }
  }

  lemma BootHistory()
    ensures Inv(Boot) && History(Boot)
  {
    BootInv();
    hide Blank, Inv;
  }

  function Messages(delivered: seq<Delivery>): seq<Stamped> {
    seq(|delivered|, i requires 0 <= i < |delivered| => delivered[i].stamped)
  }

  /** The mailbox of endpoint incarnation `id` holds `box`; one that is gone holds nothing. */
  ghost predicate InBox(s: Sys, id: nat, box: Option<Stamped>) {
    && (box.Some? ==>
          exists e: nat :: Live(s.endpoints, e) && s.endpoints[e].value.id == id && s.endpoints[e].value.mail == box)
    && (box.None? ==>
          forall e: nat :: Live(s.endpoints, e) && s.endpoints[e].value.id == id ==> s.endpoints[e].value.mail.None?)
  }

  /** Over every run, for every endpoint that ever existed: what its receivers got,
      then what its close discarded, then what its mailbox holds is exactly what was
      accepted, in the order the send calls were made; nothing is lost, duplicated
      or overtaken. */
  lemma ExactlyOnceInOrder(ops: seq<Op>, id: nat)
    requires id in Run(Boot, ops).logs
    ensures var s := Run(Boot, ops);
            var log := s.logs[id];
            && (forall i, j :: 0 <= i < j < |log.accepted| ==> log.accepted[i].op < log.accepted[j].op)
            && (exists box: Option<Stamped> ::
                  log.accepted == Messages(log.delivered) + log.discarded + AsSeq(box) && InBox(s, id, box))
  {
    hide Run, InBox, Messages, HistoryBut, Inv;
    BootHistory();
    RunKeepsHistory(Boot, ops);
    var s := Run(Boot, ops);
    LogHere(s, id);
    LogSplits(s.logs[id]);
    var box := WhatIsLeft(s, id);
    assert InBox(s, id, box);
  }

  lemma LogHere(s: Sys, id: nat)
    requires History(s) && id in s.logs
    ensures LogOk(s.logs[id])
  {
  }

  lemma LogSplits(log: Log)
    requires LogOk(log)
    ensures log.accepted == Messages(log.delivered) + log.discarded + Outstanding(log)
  {
  }

  lemma WhatIsLeft(s: Sys, id: nat) returns (box: Option<Stamped>)
    requires History(s) && id in s.logs
    ensures Outstanding(s.logs[id]) == AsSeq(box) && InBox(s, id, box)
  {
    hide LogsOk, CallOk, SameCall, ReplyOk, LogOk, Outstanding;
    if Outstanding(s.logs[id]) == [] {
      box := None;
      forall e: nat | Live(s.endpoints, e) && s.endpoints[e].value.id == id ensures s.endpoints[e].value.mail.None? {
        assert BoxOk(s, e);
      }
    } else {
      assert Homed(s, id);
      var e: nat :| Live(s.endpoints, e) && s.endpoints[e].value.id == id;
      assert BoxOk(s, e);
      box := s.endpoints[e].value.mail;
    }
  }

  /** A call that returned told the truth: a send reports success exactly when its
      message entered a mailbox, and it entered at most one; a receive returns
      exactly the message it consumed, and a failed one consumed nothing. */
  lemma RepliesAreTrue(ops: seq<Op>, op: nat)
    requires op in Run(Boot, ops).replies
    ensures var s := Run(Boot, ops);
            && (s.replies[op] == Sent <==> Accepted(s.logs, op))
            && (forall a, b ::
                  a in s.logs && b in s.logs && HasOp(s.logs[a].accepted, op) && HasOp(s.logs[b].accepted, op) ==>
                  a == b)
            && (forall st :: s.replies[op] == Got(Some(st)) <==> TakenBy(s.logs, op, st))
  {
    BootHistory();
    RunKeepsHistory(Boot, ops);
    assert ReplyOk(Run(Boot, ops), op);
  }

  /** A blocked thread always waits for something that has not happened yet. */
  lemma NoLostWakeup(ops: seq<Op>, t: nat)
    requires Live(Run(Boot, ops).threads, t) && Run(Boot, ops).threads[t].value.state == Blocked
    ensures var s := Run(Boot, ops);
            var w := s.threads[t].value.wait;
            && w.Some? && w.value.result == Pending && Live(s.endpoints, w.value.endpoint)
            && var x := s.endpoints[w.value.endpoint].value;
               && !x.closed
               && (if w.value.kind == Receive then x.mail.None? else x.mail.Some? && x.staged.Some?)
  {
    BootInv();
    RunKeepsInv(Boot, ops);
    var s := Run(Boot, ops);
    ThreadHere(s, t);
    EndpointHere(s, s.threads[t].value.wait.value.endpoint);
  }
}
