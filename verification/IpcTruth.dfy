/**
 Messages are true, over every run: whatever is said under the number of a send, at
 any endpoint and in any reply, is the message that send was given.
 */
module IpcTruth {
  import opened Slots
  import opened IpcModel
  import opened IpcContent

  // ------------------------------------------------------------ numbers and replies

  /** Receive call `n` returned `st`. */
  predicate Replied(s: Sys, n: nat, st: Stamped) {
    n in s.replies && s.replies[n] == Got(Some(st))
  }

  ghost predicate InMail(s: Sys, st: Stamped) {
    exists e: nat :: Live(s.endpoints, e) && s.endpoints[e].value.mail == Some(st)
  }

  /** No call is numbered and none is answered. */
  predicate Silent(s: Sys, s': Sys) {
    s'.nextOp == s.nextOp && s'.replies == s.replies
  }

  /** No call is numbered, and a receive returns nothing but `content`. */
  ghost predicate Returns(s: Sys, s': Sys, content: Option<Stamped>) {
    && s'.nextOp == s.nextOp
    && forall n: nat, st :: Replied(s', n, st) ==> Replied(s, n, st) || content == Some(st)
  }

  /** No call is numbered, and a receive returns nothing but what was in a mailbox. */
  ghost predicate Answers(s: Sys, s': Sys) {
    && s'.nextOp == s.nextOp
    && forall n: nat, st :: Replied(s', n, st) ==> Replied(s, n, st) || InMail(s, st)
  }

  lemma SilentAnswers(s: Sys, s': Sys)
    requires Silent(s, s')
    ensures Answers(s, s')
  {
  }

  lemma ReturnsAnswers(s: Sys, s1: Sys, s': Sys, content: Option<Stamped>)
    requires Silent(s, s1) && Returns(s1, s', content) && (content.Some? ==> InMail(s, content.value))
    ensures Answers(s, s')
  {
    hide InMail;
  }

  lemma ReplyReturns(s: Sys, n: nat, r: Reply, content: Option<Stamped>)
    requires r.Got? ==> r.content == content
    ensures Returns(s, Answer(s, n, r), content)
  {
  }

  lemma SendSilent(s: Sys, e: nat, st: Stamped)
    ensures Silent(s, SendLocked(s, e, st).0)
  {
    hide Reserved, Schedulable;
  }

  lemma MoveUpSilent(s: Sys, e: nat, op: nat)
    requires Live(s.endpoints, e) && s.endpoints[e].value.mail.Some? && s.endpoints[e].value.staged.Some?
    requires s.endpoints[e].value.sender.Some?
    ensures Silent(s, MoveUp(s, e, op).0)
  {
    hide Schedulable, Matches;
  }

  lemma ReceiveSilent(s: Sys, e: nat, op: nat)
    ensures Silent(s, ReceiveLocked(s, e, op).0)
    ensures ReceiveLocked(s, e, op).1 == Done ==> Live(s.endpoints, e)
  {
    hide Reserved, MoveUp;
    if Live(s.endpoints, e) && s.endpoints[e].value.mail.Some? && s.endpoints[e].value.staged.Some? &&
      s.endpoints[e].value.sender.Some? {
      MoveUpSilent(s, e, op);
    }
  }

  lemma EndSilent(s: Sys, t: nat, c: Call)
    ensures EndReservation(s, t, c).Some? ==> Silent(s, EndReservation(s, t, c).value)
  {
    hide Reserved, Matches;
  }

  lemma LeaveReturns(s: Sys, t: nat, c: Call, content: Option<Stamped>)
    ensures Returns(s, Leave(s, t, c, content).0, content)
  {
    hide EndReservation;
    EndSilent(s, t, c);
  }

  lemma FinishReturns(s: Sys, t: nat, c: Call, result: WaitResult, content: Option<Stamped>)
    ensures Returns(s, FinishAndLeave(s, t, c, result, content).0, content)
  {
    hide Leave, Matches, Schedulable;
    if TryComplete(s, t, c.kind, c.endpoint, c.id, result).Some? {
      LeaveReturns(TryComplete(s, t, c.kind, c.endpoint, c.id, result).value, t, c, content);
    }
  }

  lemma WaitLoopAnswers(s: Sys, t: nat, c: Call, park: Park)
    ensures Answers(s, WaitLoop(s, t, c, park).0)
  {
    hide Answers, Returns, InMail, Leave, FinishAndLeave, ReceiveLocked, Matches, Reserved;
    SilentAnswers(s, s);
    LeaveReturns(s, t, c, None);
    ReturnsAnswers(s, s, Leave(s, t, c, None).0, None);
    FinishReturns(s, t, c, Cancelled, None);
    ReturnsAnswers(s, s, FinishAndLeave(s, t, c, Cancelled, None).0, None);
    if Live(s.threads, t) {
      SilentAnswers(s, ParkNow(s, t, c, Blocks).0);
    }
    if Live(s.endpoints, c.endpoint) && s.endpoints[c.endpoint].value.mail.Some? {
      var s1 := ReceiveLocked(s, c.endpoint, c.op).0;
      ReceiveSilent(s, c.endpoint, c.op);
      SilentAnswers(s, s1);
      var mail := s.endpoints[c.endpoint].value.mail;
      Posted(s, c.endpoint);
      FinishReturns(s1, t, c, Completed, mail);
      ReturnsAnswers(s, s1, FinishAndLeave(s1, t, c, Completed, mail).0, mail);
      FinishReturns(s1, t, c, Cancelled, None);
      ReturnsAnswers(s, s1, FinishAndLeave(s1, t, c, Cancelled, None).0, None);
    }
  }

  lemma Posted(s: Sys, e: nat)
    requires Live(s.endpoints, e) && s.endpoints[e].value.mail.Some?
    ensures InMail(s, s.endpoints[e].value.mail.value)
  {
  }

  /** `s1` still has the mail of `s`, and nothing was answered between. */
  predicate Between(s: Sys, s1: Sys) {
    && Silent(s, s1) && |s1.endpoints| == |s.endpoints|
    && forall e :: 0 <= e < |s.endpoints| && s1.endpoints[e].Some? ==>
         s.endpoints[e].Some? && s1.endpoints[e].value.mail == s.endpoints[e].value.mail
  }

  lemma AnswersThrough(s: Sys, s1: Sys, s': Sys)
    requires Between(s, s1) && Answers(s1, s')
    ensures Answers(s, s')
  {
    forall n: nat, st | Replied(s', n, st) ensures Replied(s, n, st) || InMail(s, st) {
      if InMail(s1, st) {
        var e: nat :| Live(s1.endpoints, e) && s1.endpoints[e].value.mail == Some(st);
        assert Live(s.endpoints, e) && s.endpoints[e].value.mail == Some(st);
      }
    }
  }

  lemma ReserveBetween(s: Sys, t: nat, kind: Kind, e: nat, st: Option<Stamped>, timed: bool, op: nat)
    requires Live(s.endpoints, e) && Reserve(s, t, kind, e, st, timed, op).Some?
    ensures var s1 := Reserve(s, t, kind, e, st, timed, op).value;
            && Between(s, s1) && Live(s1.endpoints, e)
            && Live(s1.threads, t) && s1.threads[t].value.call.Some?
  {
  }

  lemma RegisterBetween(s: Sys, t: nat, e: nat, kind: Kind, id: nat, ticks: nat)
    requires Live(s.endpoints, e) && Register(s, t, e, kind, id, ticks).Some?
    ensures Between(s, Register(s, t, e, kind, id, ticks).value)
  {
    hide Matches, Duplicate;
  }

  lemma BeginAnswers(s: Sys, t: nat, kind: Kind, e: nat, st: Option<Stamped>, timeout: Option<nat>, op: nat, park: Park)
    requires Live(s.endpoints, e)
    ensures Answers(s, Begin(s, t, kind, e, st, timeout, op, park).0)
  {
    hide Answers, Returns, InMail, Between, WaitLoop, FinishAndLeave, Reserve, Register;
    var s1 := Reserve(s, t, kind, e, st, timeout.Some?, op);
    if s1.Some? {
      ReserveBetween(s, t, kind, e, st, timeout.Some?, op);
      var c := s1.value.threads[t].value.call.value;
      WaitLoopAnswers(s1.value, t, c, park);
      AnswersThrough(s, s1.value, WaitLoop(s1.value, t, c, park).0);
      var undone := FinishAndLeave(s1.value, t, c.(timed := false), Cancelled, None).0;
      FinishReturns(s1.value, t, c.(timed := false), Cancelled, None);
      ReturnsAnswers(s1.value, s1.value, undone, None);
      AnswersThrough(s, s1.value, undone);
      if timeout.Some? && Register(s1.value, t, e, kind, c.id, timeout.value).Some? {
        var s2 := Register(s1.value, t, e, kind, c.id, timeout.value).value;
        RegisterBetween(s1.value, t, e, kind, c.id, timeout.value);
        WaitLoopAnswers(s2, t, c, park);
        AnswersThrough(s1.value, s2, WaitLoop(s2, t, c, park).0);
        AnswersThrough(s, s1.value, WaitLoop(s2, t, c, park).0);
      }
    } else {
      var reply := if kind == Send then NotSent else GotNothing;
      ReplyReturns(s, op, reply, None);
      ReturnsAnswers(s, s, Answer(s, op, reply), None);
    }
  }

  lemma ReceiveNowAnswers(s: Sys, e: nat, n: nat)
    ensures Answers(s, ReceiveNow(s, e, n).0)
  {
    hide Answers, Returns, InMail, ReceiveLocked;
    ReceiveSilent(s, e, n);
    var (s1, r) := ReceiveLocked(s, e, n);
    SilentAnswers(s, s1);
    ReplyReturns(s1, n, GotNothing, None);
    ReturnsAnswers(s, s1, Answer(s1, n, GotNothing), None);
    if r == Done {
      var mail := s.endpoints[e].value.mail;
      if mail.Some? {
        Posted(s, e);
      }
      ReplyReturns(s1, n, Got(mail), mail);
      ReturnsAnswers(s, s1, Answer(s1, n, Got(mail)), mail);
    }
  }

  lemma SendNowAnswers(s: Sys, e: nat, st: Stamped, n: nat, r: Reply)
    requires !r.Got?
    ensures Answers(s, SendLocked(s, e, st).0) && Answers(s, Answer(SendLocked(s, e, st).0, n, r))
  {
    hide Answers, Returns, InMail, SendLocked;
    SendSilent(s, e, st);
    var s1 := SendLocked(s, e, st).0;
    SilentAnswers(s, s1);
    ReplyReturns(s1, n, r, None);
    ReturnsAnswers(s, s1, Answer(s1, n, r), None);
  }

  // ----------------------------------------------------------------------- one step

  /** At most one call is numbered, with the next number. A receive returns only what was
      in a mailbox. */
  ghost predicate Replies(s: Sys, s': Sys) {
    && s.nextOp <= s'.nextOp <= s.nextOp + 1
    && forall n: nat, st :: Replied(s', n, st) ==> Replied(s, n, st) || InMail(s, st)
  }

  function Numbering(s: Sys): Sys {
    s.(nextOp := s.nextOp + 1)
  }

  lemma OldCall(s: Sys, s': Sys)
    requires Answers(s, s')
    ensures Replies(s, s')
  {
  }

  lemma NewCall(s: Sys, s': Sys)
    requires Answers(Numbering(s), s')
    ensures Replies(s, s') && s'.nextOp == s.nextOp + 1
  {
    forall n: nat, st | Replied(s', n, st) ensures Replied(s, n, st) || InMail(s, st) {
      assert Replied(Numbering(s), n, st) == Replied(s, n, st) && InMail(Numbering(s), st) == InMail(s, st);
    }
  }

  lemma NoReply(s: Sys, n: nat, r: Reply)
    requires !r.Got?
    ensures Answers(s, Answer(s, n, r))
  {
  }

  lemma TryReplies(s: Sys, resolved: Option<nat>, m: Message)
    ensures Replies(s, TrySend(s, resolved, m).0) && TrySend(s, resolved, m).0.nextOp == s.nextOp + 1
    ensures Replies(s, TryReceive(s, resolved).0) && TryReceive(s, resolved).0.nextOp == s.nextOp + 1
  {
    hide SendLocked, ReceiveNow, Replies, Answers;
    var n, s0 := s.nextOp, Numbering(s);
    NoReply(s0, n, NotSent);
    NoReply(s0, n, GotNothing);
    if resolved.Some? {
      SendNowAnswers(s0, resolved.value, Stamped(n, m), n, Sent);
      SendNowAnswers(s0, resolved.value, Stamped(n, m), n, NotSent);
      ReceiveNowAnswers(s0, resolved.value, n);
    }
    NewCall(s, TrySend(s, resolved, m).0);
    NewCall(s, TryReceive(s, resolved).0);
  }

  lemma BlockingReplies(s: Sys, resolved: Option<nat>, m: Message, timeout: Option<nat>, park: Park)
    requires s.current.Some? && CanCall(s, s.current.value)
    ensures var s' := SendBlocking(s, resolved, m, timeout, park).0; Replies(s, s') && s'.nextOp == s.nextOp + 1
    ensures var s' := ReceiveBlocking(s, resolved, timeout, park).0; Replies(s, s') && s'.nextOp == s.nextOp + 1
  {
    hide SendLocked, ReceiveNow, Begin, Replies, Answers, CanCall;
    var n, s0 := s.nextOp, Numbering(s);
    NoReply(s0, n, NotSent);
    NoReply(s0, n, GotNothing);
    if resolved.Some? && Live(s.endpoints, resolved.value) {
      SendNowAnswers(s0, resolved.value, Stamped(n, m), n, Sent);
      SendNowAnswers(s0, resolved.value, Stamped(n, m), n, NotSent);
      ReceiveNowAnswers(s0, resolved.value, n);
      BeginAnswers(s0, s.current.value, Send, resolved.value, Some(Stamped(n, m)), timeout, n, park);
      BeginAnswers(s0, s.current.value, Receive, resolved.value, None, timeout, n, park);
    }
    NewCall(s, SendBlocking(s, resolved, m, timeout, park).0);
    NewCall(s, ReceiveBlocking(s, resolved, timeout, park).0);
  }

  lemma ExpireSilent(s: Sys, x: Timed)
    requires Live(s.endpoints, x.endpoint)
    ensures Silent(s, Expire(s, x).0) && |Expire(s, x).0.timed| == |s.timed|
  {
    hide Matches, Schedulable;
  }

  lemma PollSlotSilent(s: Sys, i: nat)
    requires i < |s.timed|
    ensures Silent(s, PollSlot(s, i).0) && |PollSlot(s, i).0.timed| == |s.timed|
  {
    hide Expire, Matches, Reserved;
    if s.timed[i].Some? && Live(s.endpoints, s.timed[i].value.endpoint) {
      ExpireSilent(s, s.timed[i].value);
    }
  }

  lemma {:induction false} PollSilent(s: Sys, i: nat)
    requires i <= |s.timed|
    ensures Silent(s, PollFrom(s, i).0)
    decreases |s.timed| - i
  {
    hide PollSlot;
    if i < |s.timed| {
      PollSlotSilent(s, i);
      var (s1, r) := PollSlot(s, i);
      if r == Done {
        PollSilent(s1, i + 1);
      }
    }
  }

  lemma AbortSilent(s: Sys, t: nat)
    ensures Silent(s, Abort(s, t).0)
  {
    hide Reserved;
  }

  lemma CloseSeatSilent(s: Sys, e: nat, kind: Kind)
    requires Live(s.endpoints, e)
    ensures Silent(s, CloseSeat(s, e, kind).0)
  {
    hide Matches, Schedulable;
  }

  lemma CloseSilent(s: Sys, e: nat)
    ensures Silent(s, Close(s, e).0)
  {
    hide Reserved, CloseSeat;
    if Live(s.endpoints, e) {
      var s1 := Discard(s, e);
      CloseSeatSilent(s1, e, Receive);
      var s2 := CloseSeat(s1, e, Receive).0;
      if Live(s2.endpoints, e) {
        CloseSeatSilent(s2, e, Send);
      }
    }
  }

  predicate IsCall(op: Op) {
    op.OpTrySend? || op.OpTryReceive? || op.OpSendBlocking? || op.OpReceiveBlocking?
  }

  lemma OtherSilent(s: Sys, op: Op)
    requires !IsCall(op) && !op.OpResume?
    ensures Silent(s, Apply(s, op).0)
  {
    hide PollFrom, Abort, Close;
    match op
    case OpPoll => PollSilent(NotePoll(s), 0);
    case OpAbort(t) => AbortSilent(s, t);
    case OpClose(e) => CloseSilent(s, e);
    case _ =>
  }

  lemma StepReplies(s: Sys, op: Op)
    ensures Replies(s, Apply(s, op).0)
    ensures IsCall(op) && Apply(s, op).0.nextOp == s.nextOp ==> Apply(s, op).0 == s
  {
    hide Replies, Answers, TrySend, TryReceive, WaitLoop, CanCall;
    SilentAnswers(s, s);
    match op
    case OpTrySend(resolved, m) => TryReplies(s, resolved, m);
    case OpTryReceive(resolved) => TryReplies(s, resolved, Message([]));
    case OpSendBlocking(resolved, m, timeout, park) => BlockingStep(s, resolved, m, timeout, park);
    case OpReceiveBlocking(resolved, timeout, park) => BlockingStep(s, resolved, Message([]), timeout, park);
    case OpResume(park) =>
      if s.current.Some? && Live(s.threads, s.current.value) && s.threads[s.current.value].value.call.Some? {
        WaitLoopAnswers(s, s.current.value, s.threads[s.current.value].value.call.value, park);
      }
      OldCall(s, Apply(s, op).0);
    case _ =>
      OtherSilent(s, op);
      SilentAnswers(s, Apply(s, op).0);
      OldCall(s, Apply(s, op).0);
  }

  lemma BlockingStep(s: Sys, resolved: Option<nat>, m: Message, timeout: Option<nat>, park: Park)
    ensures var s' := SendBlocking(s, resolved, m, timeout, park).0;
            Replies(s, s') && (s'.nextOp == s.nextOp ==> s' == s)
    ensures var s' := ReceiveBlocking(s, resolved, timeout, park).0;
            Replies(s, s') && (s'.nextOp == s.nextOp ==> s' == s)
  {
    hide Replies, Answers, SendLocked, ReceiveNow, Begin, CanCall;
    if s.current.Some? && CanCall(s, s.current.value) {
      BlockingReplies(s, resolved, m, timeout, park);
    } else {
      SilentAnswers(s, s);
      OldCall(s, s);
    }
  }

  // --------------------------------------------------------------------- whole runs

  predicate IsSend(op: Op) {
    op.OpTrySend? || op.OpSendBlocking?
  }

  /** Some receive returned it. */
  ghost predicate Returned(s: Sys, st: Stamped) {
    exists n: nat :: Replied(s, n, st)
  }

  /** Every message in the system carries a number that has been issued. */
  ghost predicate Numbered(s: Sys) {
    && (forall id: nat, st :: IsAt(s, id, st) ==> st.op < s.nextOp)
    && (forall st :: Returned(s, st) ==> st.op < s.nextOp)
  }

  /** Whatever is said under number `n` is the message `m`, and only at endpoint `home`. */
  ghost predicate Says(s: Sys, n: nat, m: Message, home: Option<nat>) {
    && (forall id: nat, st :: IsAt(s, id, st) && st.op == n ==> st.message == m && home == Some(id))
    && (forall st :: Returned(s, st) && st.op == n ==> st.message == m)
  }

  lemma MailIsAt(s: Sys, st: Stamped)
    requires InMail(s, st)
    ensures exists id: nat :: IsAt(s, id, st)
  {
    var e: nat :| Live(s.endpoints, e) && s.endpoints[e].value.mail == Some(st);
    assert Boxed(s.endpoints[e].value, st);
    assert IsAt(s, s.endpoints[e].value.id, st);
  }

  lemma ReturnedWas(s: Sys, s': Sys, st: Stamped)
    requires Replies(s, s') && Returned(s', st)
    ensures Returned(s, st) || exists id: nat :: IsAt(s, id, st)
  {
    hide IsAt, InMail;
    var n: nat :| Replied(s', n, st);
    if InMail(s, st) {
      MailIsAt(s, st);
    }
  }

  lemma StepNumbered(s: Sys, op: Op)
    requires Numbered(s)
    ensures Numbered(Apply(s, op).0)
  {
    hide IsAt, Returned, InMail, Apply;
    StepMoves(s, op);
    StepReplies(s, op);
    var s' := Apply(s, op).0;
    forall st | Returned(s', st) ensures st.op < s'.nextOp {
      ReturnedWas(s, s', st);
    }
    forall id: nat, st | IsAt(s', id, st) ensures st.op < s'.nextOp {
    }
  }

  /** A later step cannot change what an earlier number says. */
  lemma StepSays(s: Sys, op: Op, n: nat, m: Message, home: Option<nat>)
    requires Says(s, n, m, home) && n < s.nextOp
    ensures Says(Apply(s, op).0, n, m, home) && n < Apply(s, op).0.nextOp
  {
    hide IsAt, Returned, InMail, Apply;
    StepMoves(s, op);
    StepReplies(s, op);
    var s' := Apply(s, op).0;
    forall st | Returned(s', st) && st.op == n ensures st.message == m {
      ReturnedWas(s, s', st);
    }
  }

  lemma {:induction false} RunSays(s: Sys, ops: seq<Op>, n: nat, m: Message, home: Option<nat>)
    requires Says(s, n, m, home) && n < s.nextOp
    ensures Says(Run(s, ops), n, m, home)
    decreases |ops|
  {
    hide Says, Apply;
    if ops != [] {
      StepSays(s, ops[0], n, m, home);
      RunSays(Apply(s, ops[0]).0, ops[1..], n, m, home);
    }
  }

  lemma {:induction false} RunNumbered(s: Sys, ops: seq<Op>)
    requires Numbered(s)
    ensures Numbered(Run(s, ops))
    decreases |ops|
  {
    hide Numbered, Apply;
    if ops != [] {
      StepNumbered(s, ops[0]);
      RunNumbered(Apply(s, ops[0]).0, ops[1..]);
    }
  }

  lemma BootNumbered()
    ensures Numbered(Boot)
  {
    forall id: nat, st ensures !IsAt(Boot, id, st) {
      assert id !in Boot.logs;
      forall e: nat ensures !Live(Boot.endpoints, e) {
      }
    }
    forall st ensures !Returned(Boot, st) {
    }
  }

  /** Messages are true, over every run: when a call sends `m`, then whatever any endpoint
      ever accepts, holds, stages, delivers or discards under the number of that call, and
      whatever any receive ever returns under it, is `m`; and it is found only at the
      endpoint the call named. */
  lemma MessagesAreTrue(before: seq<Op>, op: Op, more: seq<Op>)
    requires IsSend(op)
    requires Apply(Run(Boot, before), op).0.nextOp > Run(Boot, before).nextOp
    ensures var s := Run(Boot, before);
            Says(Run(Apply(s, op).0, more), s.nextOp, op.m,
                 if Extra(s, op).Some? then Some(Target(s, op)) else None)
  {
    hide IsAt, Returned, InMail, Apply, Run;
    BootNumbered();
    RunNumbered(Boot, before);
    var s := Run(Boot, before);
    var home := if Extra(s, op).Some? then Some(Target(s, op)) else None;
    StepMoves(s, op);
    StepReplies(s, op);
    var s' := Apply(s, op).0;
    forall st ensures Returned(s', st) ==> st.op < s.nextOp {
      if Returned(s', st) {
        ReturnedWas(s, s', st);
      }
    }
    assert Says(s', s.nextOp, op.m, home);
    RunSays(s', more, s.nextOp, op.m, home);
  }
}
