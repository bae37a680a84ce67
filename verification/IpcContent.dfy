/**
 What a message says and where it goes: a send puts exactly its own message, and
 only at the endpoint it was sent to; nothing ever changes it on the way.
 */
module IpcContent {
  import opened Slots
  import opened IpcModel
  import opened IpcInvariant
  import opened IpcTimers
  import opened IpcCalls
  import opened IpcRuns

  // ------------------------------------------------------------- where a message is

  predicate Logged(log: Log, st: Stamped) {
    || st in log.accepted || st in log.discarded
    || exists i :: 0 <= i < |log.delivered| && log.delivered[i].stamped == st
  }

  predicate Boxed(x: Endpoint, st: Stamped) {
    x.mail == Some(st) || x.staged == Some(st)
  }

  /** The stamped message is, or once was, at endpoint incarnation `id`: in its history,
      in its mailbox or staged behind it. */
  ghost predicate IsAt(s: Sys, id: nat, st: Stamped) {
    || (id in s.logs && Logged(s.logs[id], st))
    || exists e: nat :: Live(s.endpoints, e) && s.endpoints[e].value.id == id && Boxed(s.endpoints[e].value, st)
  }

  // ------------------------------------------------------------- how messages move

  /** Nothing is at an endpoint in `s'` that was not there in `s`, except `extra` at `home`. */
  ghost predicate NoneNew(s: Sys, s': Sys, home: nat, extra: Option<Stamped>) {
    forall id, st :: IsAt(s', id, st) ==> IsAt(s, id, st) || (id == home && extra == Some(st))
  }

  lemma NoneNewChains(s: Sys, s1: Sys, s2: Sys, home: nat, extra: Option<Stamped>)
    requires NoneNew(s, s1, home, extra) && NoneNew(s1, s2, home, extra)
    ensures NoneNew(s, s2, home, extra)
  {
    hide IsAt;
  }

  lemma Loosen(s: Sys, s': Sys, home: nat, extra: Option<Stamped>)
    requires NoneNew(s, s', home, None)
    ensures NoneNew(s, s', home, extra)
  {
    hide IsAt;
  }

  /** Messages live in endpoints and their histories only. */
  lemma SameBoxes(s: Sys, s': Sys, home: nat)
    requires s'.endpoints == s.endpoints && s'.logs == s.logs
    ensures NoneNew(s, s', home, None)
  {
  }

  /** One endpoint and its history change; what is at it afterwards was there or is extra. */
  lemma OneBox(s: Sys, s': Sys, e: nat, extra: Option<Stamped>)
    requires Live(s.endpoints, e) && Live(s'.endpoints, e) && s'.endpoints == s.endpoints[e := s'.endpoints[e]]
    requires s'.endpoints[e].value.id == s.endpoints[e].value.id
    requires s'.logs == s.logs ||
      s'.logs == s.logs[s.endpoints[e].value.id := LogOf(s', s.endpoints[e].value.id)]
    requires forall st :: Boxed(s'.endpoints[e].value, st) ==> Boxed(s.endpoints[e].value, st) || extra == Some(st)
    requires forall st :: Logged(LogOf(s', s.endpoints[e].value.id), st) ==>
      Logged(LogOf(s, s.endpoints[e].value.id), st) || Boxed(s.endpoints[e].value, st) || extra == Some(st)
    ensures NoneNew(s, s', s.endpoints[e].value.id, extra)
  {
    hide Logged, Boxed;
    var home := s.endpoints[e].value.id;
    forall id, st | IsAt(s', id, st) ensures IsAt(s, id, st) || (id == home && extra == Some(st)) {
      if f: nat :| Live(s'.endpoints, f) && s'.endpoints[f].value.id == id && Boxed(s'.endpoints[f].value, st) {
        assert Live(s.endpoints, f);
      } else {
        assert Logged(s'.logs[id], st);
        if id == home {
          assert LogOf(s', home) == s'.logs[home];
          NothingLogged(st);
          assert Boxed(s.endpoints[e].value, st) ==> IsAt(s, id, st);
        }
      }
    }
  }

  lemma NothingLogged(st: Stamped)
    ensures !Logged(Log([], [], []), st)
  {
  }

  lemma AcceptMoves(s: Sys, e: nat, st: Stamped)
    requires Live(s.endpoints, e)
    ensures NoneNew(s, Accept(s, e, st), s.endpoints[e].value.id, Some(st))
  {
    hide NoneNew;
    OneBox(s, Accept(s, e, st), e, Some(st));
  }

  lemma DeliverMoves(s: Sys, e: nat, op: nat)
    requires Live(s.endpoints, e) && s.endpoints[e].value.mail.Some?
    ensures NoneNew(s, Deliver(s, e, op), s.endpoints[e].value.id, None)
  {
    hide NoneNew;
    var s' := Deliver(s, e, op);
    var log := LogOf(s, s.endpoints[e].value.id);
    forall st | Logged(LogOf(s', s.endpoints[e].value.id), st)
      ensures Logged(log, st) || Boxed(s.endpoints[e].value, st)
    {
      var log' := LogOf(s', s.endpoints[e].value.id);
      if i :| 0 <= i < |log'.delivered| && log'.delivered[i].stamped == st {
        assert i < |log.delivered| ==> log.delivered[i].stamped == st;
      }
    }
    OneBox(s, s', e, None);
  }

  lemma DiscardMoves(s: Sys, e: nat)
    requires Live(s.endpoints, e)
    ensures NoneNew(s, Discard(s, e), s.endpoints[e].value.id, None)
  {
    hide NoneNew;
    OneBox(s, Discard(s, e), e, None);
  }

  /** The endpoint's record changes without a new message. */
  lemma RecordMoves(s: Sys, e: nat, x: Endpoint, extra: Option<Stamped>)
    requires Live(s.endpoints, e) && x.id == s.endpoints[e].value.id
    requires forall st :: Boxed(x, st) ==> Boxed(s.endpoints[e].value, st) || extra == Some(st)
    ensures NoneNew(s, PutEndpoint(s, e, x), s.endpoints[e].value.id, extra)
  {
    hide NoneNew, Boxed;
    OneBox(s, PutEndpoint(s, e, x), e, extra);
  }

  // -------------------------------------------------------------------- operations

  lemma ReadyMoves(s: Sys, t: nat, home: nat)
    ensures MakeReady(s, t).Some? ==>
      && NoneNew(s, MakeReady(s, t).value, home, None)
      && MakeReady(s, t).value.endpoints == s.endpoints && MakeReady(s, t).value.logs == s.logs
  {
    hide NoneNew;
    if MakeReady(s, t).Some? {
      SameBoxes(s, MakeReady(s, t).value, home);
    }
  }

  lemma CompleteMoves(s: Sys, t: nat, kind: Kind, e: nat, id: nat, result: WaitResult, home: nat)
    ensures TryComplete(s, t, kind, e, id, result).Some? ==>
      var s1 := TryComplete(s, t, kind, e, id, result).value;
      NoneNew(s, s1, home, None) && s1.endpoints == s.endpoints && s1.logs == s.logs
  {
    hide NoneNew, Matches, Schedulable;
    if TryComplete(s, t, kind, e, id, result).Some? {
      SameBoxes(s, TryComplete(s, t, kind, e, id, result).value, home);
    }
  }

  lemma SelfMoves(s: Sys, home: nat, extra: Option<Stamped>)
    ensures NoneNew(s, s, home, extra)
  {
  }

  lemma SendMoves(s: Sys, e: nat, st: Stamped)
    requires Live(s.endpoints, e)
    ensures NoneNew(s, SendLocked(s, e, st).0, s.endpoints[e].value.id, Some(st))
  {
    hide NoneNew, Reserved, MakeReady, Accept;
    var home := s.endpoints[e].value.id;
    SelfMoves(s, home, Some(st));
    AcceptMoves(s, e, st);
    var receiver := s.endpoints[e].value.receiver;
    if receiver.Some? && MakeReady(s, receiver.value.thread).Some? {
      var s1 := MakeReady(s, receiver.value.thread).value;
      ReadyMoves(s, receiver.value.thread, home);
      Loosen(s, s1, home, Some(st));
      AcceptMoves(s1, e, st);
      NoneNewChains(s, s1, Accept(s1, e, st), home, Some(st));
    }
  }

  lemma MoveUpMoves(s: Sys, e: nat, op: nat)
    requires Live(s.endpoints, e) && s.endpoints[e].value.mail.Some? && s.endpoints[e].value.staged.Some?
    requires s.endpoints[e].value.sender.Some?
    ensures NoneNew(s, MoveUp(s, e, op).0, s.endpoints[e].value.id, None)
  {
    hide NoneNew, MakeReady, TryComplete;
    var x := s.endpoints[e].value;
    SelfMoves(s, x.id, None);
    ReadyMoves(s, x.sender.value.thread, x.id);
    if MakeReady(s, x.sender.value.thread).Some? {
      var s1 := MakeReady(s, x.sender.value.thread).value;
      CompleteMoves(s1, x.sender.value.thread, Send, e, x.sender.value.id, Completed, x.id);
      if TryComplete(s1, x.sender.value.thread, Send, e, x.sender.value.id, Completed).Some? {
        var s2 := TryComplete(s1, x.sender.value.thread, Send, e, x.sender.value.id, Completed).value;
        NoneNewChains(s, s1, s2, x.id, None);
        PromoteMoves(s2, e, op);
        NoneNewChains(s, s2, MoveUp(s, e, op).0, x.id, None);
      }
    }
  }

  /** Delivering the mailbox and promoting the staged message. */
  lemma PromoteMoves(s: Sys, e: nat, op: nat)
    requires Live(s.endpoints, e) && s.endpoints[e].value.mail.Some? && s.endpoints[e].value.staged.Some?
    ensures var s3 := Accept(Deliver(s, e, op), e, s.endpoints[e].value.staged.value);
            NoneNew(s, PutEndpoint(s3, e, s3.endpoints[e].value.(staged := None)), s.endpoints[e].value.id, None)
  {
    var x := s.endpoints[e].value;
    var st := x.staged.value;
    var s1 := Deliver(s, e, op);
    DeliverMoves(s, e, op);
    Loosen(s, s1, x.id, Some(st));
    var s3 := Accept(s1, e, st);
    AcceptMoves(s1, e, st);
    NoneNewChains(s, s1, s3, x.id, Some(st));
    var s4 := PutEndpoint(s3, e, s3.endpoints[e].value.(staged := None));
    RecordMoves(s3, e, s3.endpoints[e].value.(staged := None), None);
    Loosen(s3, s4, x.id, Some(st));
    NoneNewChains(s, s3, s4, x.id, Some(st));
    assert Boxed(x, st);
    assert IsAt(s, x.id, st);
    hide IsAt, Boxed;
  }

  lemma ReceiveMoves(s: Sys, e: nat, op: nat, home: nat)
    ensures NoneNew(s, ReceiveLocked(s, e, op).0, home, None)
  {
    hide NoneNew, MoveUp, Deliver, Reserved;
    SelfMoves(s, home, None);
    if Live(s.endpoints, e) && s.endpoints[e].value.mail.Some? {
      DeliverMoves(s, e, op);
      Elsewhere(s, Deliver(s, e, op), s.endpoints[e].value.id, home);
      if s.endpoints[e].value.staged.Some? && s.endpoints[e].value.sender.Some? {
        MoveUpMoves(s, e, op);
        Elsewhere(s, MoveUp(s, e, op).0, s.endpoints[e].value.id, home);
      }
    }
  }

  /** With nothing extra, the place does not matter. */
  lemma Elsewhere(s: Sys, s': Sys, home: nat, other: nat)
    requires NoneNew(s, s', home, None)
    ensures NoneNew(s, s', other, None)
  {
    hide IsAt;
  }

  lemma EndMoves(s: Sys, t: nat, c: Call, home: nat)
    ensures EndReservation(s, t, c).Some? ==> NoneNew(s, EndReservation(s, t, c).value, home, None)
  {
    hide NoneNew, Matches, Reserved;
    if EndReservation(s, t, c).Some? {
      var s' := EndReservation(s, t, c).value;
      var x := s'.endpoints[c.endpoint].value;
      RecordMoves(s, c.endpoint, x, None);
      var s1 := PutEndpoint(s, c.endpoint, x);
      Elsewhere(s, s1, s.endpoints[c.endpoint].value.id, home);
      SameBoxes(s1, s', home);
      NoneNewChains(s, s1, s', home, None);
    }
  }

  lemma LeaveMoves(s: Sys, t: nat, c: Call, content: Option<Stamped>, home: nat)
    ensures NoneNew(s, Leave(s, t, c, content).0, home, None)
  {
    hide NoneNew, EndReservation;
    SelfMoves(s, home, None);
    EndMoves(s, t, c, home);
    if EndReservation(s, t, c).Some? {
      var s1 := EndReservation(s, t, c).value;
      var s' := Leave(s, t, c, content).0;
      if s' != s {
        SameBoxes(s1, s', home);
        NoneNewChains(s, s1, s', home, None);
      }
    }
  }

  lemma FinishMoves(s: Sys, t: nat, c: Call, result: WaitResult, content: Option<Stamped>, home: nat)
    ensures NoneNew(s, FinishAndLeave(s, t, c, result, content).0, home, None)
  {
    hide NoneNew, Leave, TryComplete;
    SelfMoves(s, home, None);
    CompleteMoves(s, t, c.kind, c.endpoint, c.id, result, home);
    if TryComplete(s, t, c.kind, c.endpoint, c.id, result).Some? {
      var s1 := TryComplete(s, t, c.kind, c.endpoint, c.id, result).value;
      LeaveMoves(s1, t, c, content, home);
      NoneNewChains(s, s1, Leave(s1, t, c, content).0, home, None);
    }
  }

  lemma WaitLoopMoves(s: Sys, t: nat, c: Call, park: Park, home: nat)
    ensures NoneNew(s, WaitLoop(s, t, c, park).0, home, None)
  {
    hide NoneNew, Leave, FinishAndLeave, ReceiveLocked, Matches, Reserved;
    SelfMoves(s, home, None);
    LeaveMoves(s, t, c, None, home);
    FinishMoves(s, t, c, Cancelled, None, home);
    if Live(s.endpoints, c.endpoint) {
      var (s1, r) := ReceiveLocked(s, c.endpoint, c.op);
      ReceiveMoves(s, c.endpoint, c.op, home);
      var result := if r == Done then Completed else Cancelled;
      var content := if r == Done then s.endpoints[c.endpoint].value.mail else None;
      FinishMoves(s1, t, c, result, content, home);
      NoneNewChains(s, s1, FinishAndLeave(s1, t, c, result, content).0, home, None);
    }
    if Live(s.threads, t) {
      SameBoxes(s, PutThread(s, t, s.threads[t].value.(state := Blocked)).(current := None), home);
    }
  }

  lemma ReserveMoves(s: Sys, t: nat, kind: Kind, e: nat, st: Option<Stamped>, timed: bool, op: nat)
    requires Live(s.endpoints, e) && Reserve(s, t, kind, e, st, timed, op).Some?
    ensures NoneNew(s, Reserve(s, t, kind, e, st, timed, op).value, s.endpoints[e].value.id,
                    if kind == Send then st else None)
  {
    hide NoneNew, CanCall;
    var s' := Reserve(s, t, kind, e, st, timed, op).value;
    var home := s.endpoints[e].value.id;
    var extra := if kind == Send then st else None;
    var x := s'.endpoints[e].value;
    RecordMoves(s, e, x, extra);
    var s1 := PutEndpoint(s, e, x);
    SameBoxes(s1, s', home);
    Loosen(s1, s', home, extra);
    NoneNewChains(s, s1, s', home, extra);
  }

  lemma BeginMoves(s: Sys, t: nat, kind: Kind, e: nat, st: Option<Stamped>, timeout: Option<nat>, op: nat, park: Park)
    requires Live(s.endpoints, e)
    ensures NoneNew(s, Begin(s, t, kind, e, st, timeout, op, park).0, s.endpoints[e].value.id,
                    if kind == Send then st else None)
  {
    hide NoneNew, WaitLoop, FinishAndLeave, Register;
    var home := s.endpoints[e].value.id;
    var extra := if kind == Send then st else None;
    var s1 := Reserve(s, t, kind, e, st, timeout.Some?, op);
    SameBoxes(s, Answer(s, op, if kind == Send then NotSent else GotNothing), home);
    Loosen(s, Answer(s, op, if kind == Send then NotSent else GotNothing), home, extra);
    if s1.Some? {
      ReserveMoves(s, t, kind, e, st, timeout.Some?, op);
      var c := s1.value.threads[t].value.call.value;
      ReserveCalls(s, t, kind, e, st, timeout.Some?, op);
      FromReserved(s, s1.value, s1.value, t, c, park, home, extra);
      FinishMoves(s1.value, t, c.(timed := false), Cancelled, None, home);
      Loosen(s1.value, FinishAndLeave(s1.value, t, c.(timed := false), Cancelled, None).0, home, extra);
      NoneNewChains(s, s1.value, FinishAndLeave(s1.value, t, c.(timed := false), Cancelled, None).0, home, extra);
      if timeout.Some? && Register(s1.value, t, e, kind, c.id, timeout.value).Some? {
        var s2 := Register(s1.value, t, e, kind, c.id, timeout.value).value;
        RegisterSame(s1.value, t, e, kind, c.id, timeout.value);
        FromReserved(s, s1.value, s2, t, c, park, home, extra);
      }
    }
  }

  lemma ReserveCalls(s: Sys, t: nat, kind: Kind, e: nat, st: Option<Stamped>, timed: bool, op: nat)
    requires Live(s.endpoints, e) && Reserve(s, t, kind, e, st, timed, op).Some?
    ensures var s1 := Reserve(s, t, kind, e, st, timed, op).value;
            Live(s1.endpoints, e) && Live(s1.threads, t) && s1.threads[t].value.call.Some?
  {
  }

  lemma RegisterSame(s: Sys, t: nat, e: nat, kind: Kind, id: nat, ticks: nat)
    requires Live(s.endpoints, e)
    ensures Register(s, t, e, kind, id, ticks).Some? ==>
      Register(s, t, e, kind, id, ticks).value == s.(timed := Register(s, t, e, kind, id, ticks).value.timed)
  {
  }

  lemma FromReserved(s: Sys, s1: Sys, s2: Sys, t: nat, c: Call, park: Park, home: nat, extra: Option<Stamped>)
    requires NoneNew(s, s1, home, extra) && s2 == s1.(timed := s2.timed)
    ensures NoneNew(s, WaitLoop(s2, t, c, park).0, home, extra)
  {
    hide NoneNew, WaitLoop;
    SameBoxes(s1, s2, home);
    WaitLoopMoves(s2, t, c, park, home);
    NoneNewChains(s1, s2, WaitLoop(s2, t, c, park).0, home, None);
    Loosen(s1, WaitLoop(s2, t, c, park).0, home, extra);
    NoneNewChains(s, s1, WaitLoop(s2, t, c, park).0, home, extra);
  }

  lemma ExpireMoves(s: Sys, x: Timed, home: nat)
    requires Live(s.endpoints, x.endpoint)
    ensures NoneNew(s, Expire(s, x).0, home, None) && Expire(s, x).0.timed == s.timed
  {
    hide NoneNew, MakeReady;
    SelfMoves(s, home, None);
    CompleteMoves(s, x.thread, x.kind, x.endpoint, x.id, TimedOut, home);
    if TryComplete(s, x.thread, x.kind, x.endpoint, x.id, TimedOut).Some? {
      var s1 := TryComplete(s, x.thread, x.kind, x.endpoint, x.id, TimedOut).value;
      var y := s1.endpoints[x.endpoint].value;
      var s2 := if x.kind == Send then PutEndpoint(s1, x.endpoint, y.(staged := None)) else s1;
      RecordMoves(s1, x.endpoint, y.(staged := None), None);
      Elsewhere(s1, PutEndpoint(s1, x.endpoint, y.(staged := None)), y.id, home);
      SelfMoves(s1, home, None);
      NoneNewChains(s, s1, s2, home, None);
      ReadyMoves(s2, x.thread, home);
      ReadyKeepsTable(s2, x.thread);
      if MakeReady(s2, x.thread).Some? {
        NoneNewChains(s, s2, MakeReady(s2, x.thread).value, home, None);
      }
    }
  }

  lemma ReadyKeepsTable(s: Sys, t: nat)
    ensures MakeReady(s, t).Some? ==> MakeReady(s, t).value.timed == s.timed
  {
  }

  lemma {:induction false} PollMoves(s: Sys, i: nat, home: nat)
    requires i <= |s.timed|
    ensures NoneNew(s, PollFrom(s, i).0, home, None)
    decreases |s.timed| - i
  {
    hide NoneNew, Expire, Matches, Reserved;
    SelfMoves(s, home, None);
    if i < |s.timed| {
      if s.timed[i].Some? && Live(s.endpoints, s.timed[i].value.endpoint) {
        ExpireMoves(s, s.timed[i].value, home);
      }
      var (s1, r) := PollSlot(s, i);
      if r == Done {
        PollMoves(s1, i + 1, home);
        NoneNewChains(s, s1, PollFrom(s1, i + 1).0, home, None);
      }
    }
  }

  lemma SeatMoves(s: Sys, e: nat, kind: Kind, home: nat)
    requires Live(s.endpoints, e)
    ensures NoneNew(s, CloseSeat(s, e, kind).0, home, None) && CloseSeat(s, e, kind).0.endpoints == s.endpoints
  {
    hide NoneNew, Matches, Schedulable;
    SameBoxes(s, CloseSeat(s, e, kind).0, home);
  }

  lemma CloseMoves(s: Sys, e: nat, home: nat)
    ensures NoneNew(s, Close(s, e).0, home, None)
  {
    hide NoneNew, CloseSeat, Discard, Reserved;
    SelfMoves(s, home, None);
    if Live(s.endpoints, e) {
      var s1 := Discard(s, e);
      DiscardMoves(s, e);
      Elsewhere(s, s1, s.endpoints[e].value.id, home);
      DiscardKeepsLive(s, e);
      SeatMoves(s1, e, Receive, home);
      var s2 := CloseSeat(s1, e, Receive).0;
      NoneNewChains(s, s1, s2, home, None);
      if Live(s2.endpoints, e) {
        SeatMoves(s2, e, Send, home);
        NoneNewChains(s, s2, CloseSeat(s2, e, Send).0, home, None);
      }
    }
  }

  lemma DiscardKeepsLive(s: Sys, e: nat)
    requires Live(s.endpoints, e)
    ensures Live(Discard(s, e).endpoints, e)
  {
  }

  lemma AbortMoves(s: Sys, t: nat, home: nat)
    ensures NoneNew(s, Abort(s, t).0, home, None)
  {
    hide NoneNew, Reserved;
    SelfMoves(s, home, None);
    var s' := Abort(s, t).0;
    if s' != s {
      var w := s.threads[t].value.wait.value;
      var x := s'.endpoints[w.endpoint].value;
      RecordMoves(s, w.endpoint, x, None);
      var s1 := PutEndpoint(s, w.endpoint, x);
      Elsewhere(s, s1, s.endpoints[w.endpoint].value.id, home);
      SameBoxes(s1, s', home);
      NoneNewChains(s, s1, s', home, None);
    }
  }

  /** A new endpoint has nothing in it, and one that goes takes what it had along. */
  lemma LifeMoves(s: Sys, op: Op, home: nat)
    requires op.OpCreateEndpoint? || op.OpDestroyEndpoint? || op.OpSpawn? || op.OpSwitch? || op.OpReap? || op.OpElapse?
    ensures NoneNew(s, Apply(s, op).0, home, None)
  {
    hide NoneNew, TrySend, TryReceive, SendBlocking, ReceiveBlocking, WaitLoop, PollAll, Abort, Close, Logged, Boxed;
    var s' := Apply(s, op).0;
    if op.OpCreateEndpoint? {
      CreateMoves(s, home);
    } else if op.OpDestroyEndpoint? {
      DestroyMoves(s, op.e, op.unreferenced, home);
    } else {
      SameBoxes(s, s', home);
    }
  }

  lemma CreateMoves(s: Sys, home: nat)
    ensures NoneNew(s, CreateEndpoint(s).0, home, None)
  {
    var s' := CreateEndpoint(s).0;
    forall id, st | IsAt(s', id, st) ensures IsAt(s, id, st) {
      if f: nat :| Live(s'.endpoints, f) && s'.endpoints[f].value.id == id && Boxed(s'.endpoints[f].value, st) {
        assert Live(s.endpoints, f) && s.endpoints[f] == s'.endpoints[f];
      }
    }
  }

  lemma DestroyMoves(s: Sys, e: nat, unreferenced: bool, home: nat)
    ensures NoneNew(s, DestroyEndpoint(s, e, unreferenced).0, home, None)
  {
    var s' := DestroyEndpoint(s, e, unreferenced).0;
    forall id, st | IsAt(s', id, st) ensures IsAt(s, id, st) {
      if f: nat :| Live(s'.endpoints, f) && s'.endpoints[f].value.id == id && Boxed(s'.endpoints[f].value, st) {
        assert Live(s.endpoints, f) && s.endpoints[f] == s'.endpoints[f];
      }
    }
  }

  // -------------------------------------------------------------------- every step

  /** What a step may add, and where: a send to a live endpoint its own message there. */
  function Extra(s: Sys, op: Op): Option<Stamped> {
    if (op.OpTrySend? || op.OpSendBlocking?) && op.resolved.Some? && Live(s.endpoints, op.resolved.value)
    then Some(Stamped(s.nextOp, op.m)) else None
  }

  function Target(s: Sys, op: Op): nat {
    if (op.OpTrySend? || op.OpSendBlocking?) && op.resolved.Some? && Live(s.endpoints, op.resolved.value)
    then s.endpoints[op.resolved.value].value.id else 0
  }

  lemma TrySendMoves(s: Sys, resolved: Option<nat>, m: Message)
    ensures NoneNew(s, TrySend(s, resolved, m).0, Target(s, OpTrySend(resolved, m)), Extra(s, OpTrySend(resolved, m)))
  {
    hide NoneNew, SendLocked;
    var op := OpTrySend(resolved, m);
    var home, extra := Target(s, op), Extra(s, op);
    var s0 := s.(nextOp := s.nextOp + 1);
    SameBoxes(s, s0, home);
    Loosen(s, s0, home, extra);
    SelfMoves(s0, home, extra);
    var s1 := if resolved.Some? then SendLocked(s0, resolved.value, Stamped(s.nextOp, m)).0 else s0;
    if resolved.Some? {
      if Live(s.endpoints, resolved.value) {
        SendMoves(s0, resolved.value, Stamped(s.nextOp, m));
      } else {
        SendNowhere(s0, resolved.value, Stamped(s.nextOp, m));
      }
    }
    NoneNewChains(s, s0, s1, home, extra);
    var s' := TrySend(s, resolved, m).0;
    var last := if ValidMessage(m) then s1 else s0;
    SameBoxes(last, s', home);
    Loosen(last, s', home, extra);
    NoneNewChains(s, last, s', home, extra);
  }

  lemma SendNowhere(s: Sys, e: nat, st: Stamped)
    requires !Live(s.endpoints, e)
    ensures SendLocked(s, e, st) == (s, Refused)
  {
  }

  lemma TryReceiveMoves(s: Sys, resolved: Option<nat>, home: nat)
    ensures NoneNew(s, TryReceive(s, resolved).0, home, None)
  {
    hide NoneNew, ReceiveLocked;
    var s0 := s.(nextOp := s.nextOp + 1);
    SameBoxes(s, s0, home);
    SelfMoves(s0, home, None);
    var s1 := if resolved.Some? then ReceiveLocked(s0, resolved.value, s.nextOp).0 else s0;
    if resolved.Some? {
      ReceiveMoves(s0, resolved.value, s.nextOp, home);
    }
    NoneNewChains(s, s0, s1, home, None);
    SameBoxes(s1, TryReceive(s, resolved).0, home);
    NoneNewChains(s, s1, TryReceive(s, resolved).0, home, None);
  }

  lemma SendBlockingMoves(s: Sys, resolved: Option<nat>, m: Message, timeout: Option<nat>, park: Park)
    ensures var op := OpSendBlocking(resolved, m, timeout, park);
            NoneNew(s, SendBlocking(s, resolved, m, timeout, park).0, Target(s, op), Extra(s, op))
  {
    hide NoneNew, SendLocked, Begin, CanCall;
    var op := OpSendBlocking(resolved, m, timeout, park);
    var home, extra := Target(s, op), Extra(s, op);
    var s' := SendBlocking(s, resolved, m, timeout, park).0;
    SelfMoves(s, home, extra);
    var s0 := s.(nextOp := s.nextOp + 1);
    SameBoxes(s, s0, home);
    Loosen(s, s0, home, extra);
    SameBoxes(s, Answer(s0, s.nextOp, NotSent), home);
    Loosen(s, Answer(s0, s.nextOp, NotSent), home, extra);
    if s.current.Some? && resolved.Some? && Live(s.endpoints, resolved.value) {
      var s1 := SendLocked(s0, resolved.value, Stamped(s.nextOp, m)).0;
      SendMoves(s0, resolved.value, Stamped(s.nextOp, m));
      NoneNewChains(s, s0, s1, home, extra);
      SameBoxes(s1, Answer(s1, s.nextOp, Sent), home);
      SameBoxes(s1, Answer(s1, s.nextOp, NotSent), home);
      Loosen(s1, Answer(s1, s.nextOp, Sent), home, extra);
      Loosen(s1, Answer(s1, s.nextOp, NotSent), home, extra);
      NoneNewChains(s, s1, Answer(s1, s.nextOp, Sent), home, extra);
      NoneNewChains(s, s1, Answer(s1, s.nextOp, NotSent), home, extra);
      var st := Some(Stamped(s.nextOp, m));
      BeginMoves(s0, s.current.value, Send, resolved.value, st, timeout, s.nextOp, park);
      NoneNewChains(s, s0, Begin(s0, s.current.value, Send, resolved.value, st, timeout, s.nextOp, park).0, home,
        extra);
    }
  }

  lemma ReceiveBlockingMoves(s: Sys, resolved: Option<nat>, timeout: Option<nat>, park: Park, home: nat)
    ensures NoneNew(s, ReceiveBlocking(s, resolved, timeout, park).0, home, None)
  {
    hide NoneNew, ReceiveLocked, Begin, CanCall;
    var op := s.nextOp;
    SelfMoves(s, home, None);
    var s0 := s.(nextOp := op + 1);
    SameBoxes(s, s0, home);
    SameBoxes(s, Answer(s0, op, GotNothing), home);
    if s.current.Some? && resolved.Some? && Live(s.endpoints, resolved.value) {
      var s1 := ReceiveLocked(s0, resolved.value, op).0;
      ReceiveMoves(s0, resolved.value, op, home);
      NoneNewChains(s, s0, s1, home, None);
      SameBoxes(s1, ReceiveNow(s0, resolved.value, op).0, home);
      NoneNewChains(s, s1, ReceiveNow(s0, resolved.value, op).0, home, None);
      var s2 := Begin(s0, s.current.value, Receive, resolved.value, None, timeout, op, park).0;
      BeginMoves(s0, s.current.value, Receive, resolved.value, None, timeout, op, park);
      Elsewhere(s0, s2, s.endpoints[resolved.value].value.id, home);
      NoneNewChains(s, s0, s2, home, None);
    }
  }

  lemma PollAllMoves(s: Sys, home: nat)
    ensures NoneNew(s, PollAll(s).0, home, None)
  {
    hide NoneNew, PollFrom;
    SameBoxes(s, NotePoll(s), home);
    PollMoves(NotePoll(s), 0, home);
    NoneNewChains(s, NotePoll(s), PollAll(s).0, home, None);
  }

  /** No step puts a message anywhere but a send its own, at the endpoint it names. */
  lemma StepMoves(s: Sys, op: Op)
    ensures NoneNew(s, Apply(s, op).0, Target(s, op), Extra(s, op))
  {
    hide NoneNew, TrySend, TryReceive, SendBlocking, ReceiveBlocking, WaitLoop, PollAll, Abort, Close;
    match op
    case OpTrySend(resolved, m) => TrySendMoves(s, resolved, m);
    case OpTryReceive(resolved) => TryReceiveMoves(s, resolved, 0);
    case OpSendBlocking(resolved, m, timeout, park) => SendBlockingMoves(s, resolved, m, timeout, park);
    case OpReceiveBlocking(resolved, timeout, park) => ReceiveBlockingMoves(s, resolved, timeout, park, 0);
    case OpResume(park) =>
      SelfMoves(s, 0, None);
      if s.current.Some? && Live(s.threads, s.current.value) && s.threads[s.current.value].value.call.Some? {
        WaitLoopMoves(s, s.current.value, s.threads[s.current.value].value.call.value, park, 0);
      }
    case OpPoll => PollAllMoves(s, 0);
    case OpAbort(t) => AbortMoves(s, t, 0);
    case OpClose(e) => CloseMoves(s, e, 0);
    case _ => LifeMoves(s, op, 0);
  }
}
