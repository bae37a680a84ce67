/**
 Blocking calls: taking and leaving a seat, the wait loop, abort, and the
 lifetimes of threads and endpoints. None of their halts can be reached.
 */
module IpcCalls {
  import opened Slots
  import opened IpcModel
  import opened IpcInvariant
  import opened IpcTimers

  // ----------------------------------------------------------- leaving a seat

  function Vacant(y: Endpoint, kind: Kind): Endpoint {
    if kind == Receive then y.(receiver := None) else y.(sender := None, staged := None)
  }

  function Without(timed: Registry<Timed>, n: nat): Registry<Timed>
    requires n <= |timed|
  {
    if n == |timed| then timed else timed[n := None]
  }

  /** The state once waiting thread `t` has let go of everything. */
  function Left(s: Sys, t: nat, state: ThreadState): Sys
    requires Live(s.threads, t) && s.threads[t].value.wait.Some? &&
      Live(s.endpoints, s.threads[t].value.wait.value.endpoint)
  {
    var x := s.threads[t].value;
    var w := x.wait.value;
    s.(threads := s.threads[t := Some(x.(wait := None, call := None, state := state))],
       endpoints := s.endpoints[w.endpoint := Some(Vacant(s.endpoints[w.endpoint].value, w.kind))],
       timed := Without(s.timed, Find(s.timed, 0, t, w.endpoint, w.kind, w.id)))
  }

  ghost predicate Parked(s: Sys, t: nat) {
    && Live(s.threads, t) && s.threads[t].value.wait.Some? && s.threads[t].value.call.Some?
    && WaitOk(s, t, s.threads[t].value.wait.value, s.threads[t].value.call.value)
  }

  lemma LeftLinked(s: Sys, t: nat, state: ThreadState)
    requires Linked(s) && Parked(s, t)
    requires if s.current == Some(t) then state == Running else state == Dead
    ensures Linked(Left(s, t, state))
  {
    var s' := Left(s, t, state);
    var e := s.threads[t].value.wait.value.endpoint;
    assert ThreadOk(s, t);
    forall u: nat | Live(s'.threads, u) ensures ThreadOk(s', u) {
      assert ThreadOk(s, u);
    }
    forall f: nat | Live(s'.endpoints, f) ensures EndpointOk(s', f) {
      assert EndpointOk(s, f);
    }
  }

  /** The entry of a timed wait is the one that leaving removes. */
  lemma FindsOwn(s: Sys, t: nat)
    requires Linked(s) && EntriesOk(s) && Parked(s, t)
    ensures var w := s.threads[t].value.wait.value;
            var n := Find(s.timed, 0, t, w.endpoint, w.kind, w.id);
            && (s.threads[t].value.call.value.timed <==> n < |s.timed|)
            && (forall i: nat :: Live(s.timed, i) && s.timed[i].value.thread == t ==> i == n)
  {
    var w := s.threads[t].value.wait.value;
    var n := Find(s.timed, 0, t, w.endpoint, w.kind, w.id);
    assert Entered(s, t);
    forall i: nat | Live(s.timed, i) && s.timed[i].value.thread == t
      ensures i == n && s.threads[t].value.call.value.timed
    {
      assert TimedOk(s, s.timed[i].value);
      assert Names(s.timed[i], t, w.endpoint, w.kind, w.id);
      assert n < |s.timed| && Live(s.timed, n);
    }
    if n < |s.timed| {
      assert Live(s.timed, n);
    }
  }

  lemma LeftTable(s: Sys, t: nat, state: ThreadState)
    requires Linked(s) && TableOk(s) && Parked(s, t)
    ensures TableOk(Left(s, t, state))
  {
    var s' := Left(s, t, state);
    FindsOwn(s, t);
    forall i: nat | Live(s'.timed, i) ensures TimedOk(s', s'.timed[i].value) && Punctual(s', s'.timed[i].value) {
      assert Live(s.timed, i);
      assert TimedOk(s, s.timed[i].value) && Punctual(s, s.timed[i].value);
    }
    forall u: nat | Live(s'.threads, u) ensures Entered(s', u) {
      assert Entered(s, u);
      if u != t && s.threads[u].value.wait.Some? && s.threads[u].value.call.Some? &&
        s.threads[u].value.call.value.timed {
        var y := s.threads[u].value.wait.value;
        var i :| 0 <= i < |s.timed| && Names(s.timed[i], u, y.endpoint, y.kind, y.id);
        assert Names(s'.timed[i], u, y.endpoint, y.kind, y.id);
      }
    }
  }

  lemma LeftInv(s: Sys, t: nat, state: ThreadState)
    requires Inv(s) && Parked(s, t)
    requires if s.current == Some(t) then state == Running else state == Dead
    ensures Inv(Left(s, t, state))
  {
    LeftLinked(s, t, state);
    LeftTable(s, t, state);
  }

  function WithResult(x: Thread, result: WaitResult): Thread
    requires x.wait.Some?
  {
    x.(wait := Some(x.wait.value.(result := result)))
  }

  /** Ending the reservation of the current thread, whose wait has a result. */
  lemma EndEffect(s: Sys, t: nat, result: WaitResult)
    requires Inv(s) && Parked(s, t) && s.current == Some(t) && result != Pending
    ensures EndReservation(PutThread(s, t, WithResult(s.threads[t].value, result)), t, s.threads[t].value.call.value) ==
      Some(Left(s, t, Running))
  {
    var x := s.threads[t].value;
    var c := x.call.value;
    var s1 := PutThread(s, t, WithResult(x, result));
    assert ThreadOk(s, t);
    FindsOwn(s, t);
    var s2 := if c.timed then Unregister(s1, t, c.endpoint, c.kind, c.id) else Some(s1);
    assert s2.Some? && s2.value.timed == Left(s, t, Running).timed;
    assert EndReservation(s1, t, c).value.threads == Left(s, t, Running).threads;
  }

  /** `Leave` and `FinishAndLeave` return from the call without a halt. */
  lemma LeaveEffect(s: Sys, t: nat, content: Option<Stamped>)
    requires Inv(s) && Parked(s, t) && s.current == Some(t) && !Waiting(s, t, Pending)
    ensures var c := s.threads[t].value.call.value;
            Leave(s, t, c, content) ==
              (Answer(Left(s, t, Running), c.op,
                      if c.kind == Send then if Waiting(s, t, Completed) then Sent else NotSent else GotNothing), Done)
  {
    var x := s.threads[t].value;
    EndEffect(s, t, x.wait.value.result);
    assert s.threads[t := Some(WithResult(x, x.wait.value.result))] == s.threads;
    assert EndpointOk(s, x.wait.value.endpoint);
  }

  lemma FinishEffect(s: Sys, t: nat, result: WaitResult, content: Option<Stamped>)
    requires Inv(s) && Parked(s, t) && s.current == Some(t) && Waiting(s, t, Pending) && result != Pending
    requires s.threads[t].value.wait.value.kind == Send ==> result != Completed
    ensures var c := s.threads[t].value.call.value;
            FinishAndLeave(s, t, c, result, content) ==
              (Answer(Left(s, t, Running), c.op,
                      if c.kind == Send then NotSent else if result == Completed then Got(content) else GotNothing),
                        Done)
  {
    assert ThreadOk(s, t);
    EndEffect(s, t, result);
  }

  // ------------------------------------------------------------ taking a seat

  /** What the entry checks of a blocking call have established. */
  predicate Admissible(s: Sys, kind: Kind, e: nat, st: Option<Stamped>) {
    && Live(s.endpoints, e) && !s.endpoints[e].value.closed
    && (if kind == Send then st.Some? && ValidMessage(st.value.message) && s.endpoints[e].value.mail.Some?
        else s.endpoints[e].value.mail.None?)
  }

  lemma ReserveLinked(s: Sys, t: nat, kind: Kind, e: nat, st: Option<Stamped>, timed: bool, op: nat)
    requires Linked(s) && Admissible(s, kind, e, st) && Reserve(s, t, kind, e, st, timed, op).Some?
    ensures var s1 := Reserve(s, t, kind, e, st, timed, op).value;
            Linked(s1) && Parked(s1, t) && s1.current == Some(t) && Waiting(s1, t, Pending)
  {
    hide ThreadOk, EndpointOk;
    var s1 := Reserve(s, t, kind, e, st, timed, op).value;
    forall u: nat | Live(s1.threads, u) ensures ThreadOk(s1, u) {
      ReserveThread(s, t, kind, e, st, timed, op, u);
    }
    forall f: nat | Live(s1.endpoints, f) ensures EndpointOk(s1, f) {
      ReserveEndpoint(s, t, kind, e, st, timed, op, f);
    }
  }

  lemma ReserveThread(s: Sys, t: nat, kind: Kind, e: nat, st: Option<Stamped>, timed: bool, op: nat, u: nat)
    requires Live(s.endpoints, e) && Reserve(s, t, kind, e, st, timed, op).Some? && s.nextWait < U64
    requires Live(s.threads, u) && ThreadOk(s, u)
    ensures ThreadOk(Reserve(s, t, kind, e, st, timed, op).value, u)
  {
  }

  lemma ReserveEndpoint(s: Sys, t: nat, kind: Kind, e: nat, st: Option<Stamped>, timed: bool, op: nat, f: nat)
    requires Admissible(s, kind, e, st) && Reserve(s, t, kind, e, st, timed, op).Some?
    requires Live(s.endpoints, f) && EndpointOk(s, f)
    ensures EndpointOk(Reserve(s, t, kind, e, st, timed, op).value, f)
  {
    hide EndpointOk, Reserve;
    if f != e {
      ReserveElsewhere(s, t, kind, e, st, timed, op, f);
    } else {
      ReserveHere(s, t, kind, e, st, timed, op);
    }
  }

  lemma ReserveElsewhere(s: Sys, t: nat, kind: Kind, e: nat, st: Option<Stamped>, timed: bool, op: nat, f: nat)
    requires Live(s.endpoints, e) && Reserve(s, t, kind, e, st, timed, op).Some?
    requires Live(s.endpoints, f) && EndpointOk(s, f) && f != e
    ensures EndpointOk(Reserve(s, t, kind, e, st, timed, op).value, f)
  {
  }

  lemma ReserveHere(s: Sys, t: nat, kind: Kind, e: nat, st: Option<Stamped>, timed: bool, op: nat)
    requires Admissible(s, kind, e, st) && Reserve(s, t, kind, e, st, timed, op).Some? && EndpointOk(s, e)
    ensures EndpointOk(Reserve(s, t, kind, e, st, timed, op).value, e)
  {
  }

  /** The table's entries are untouched by a new reservation. */
  ghost predicate OthersEntered(s: Sys, t: nat) {
    && (forall i: nat :: Live(s.timed, i) ==> TimedOk(s, s.timed[i].value) && Punctual(s, s.timed[i].value))
    && (forall i: nat, j: nat :: Live(s.timed, i) && Live(s.timed, j) && i < j ==>
      s.timed[i].value.thread != s.timed[j].value.thread)
    && (forall i: nat :: Live(s.timed, i) ==> s.timed[i].value.thread != t)
    && (forall u: nat :: Live(s.threads, u) && u != t ==> Entered(s, u))
  }

  lemma ReserveTable(s: Sys, t: nat, kind: Kind, e: nat, st: Option<Stamped>, timed: bool, op: nat)
    requires Linked(s) && TableOk(s) && Live(s.endpoints, e) && Reserve(s, t, kind, e, st, timed, op).Some?
    ensures OthersEntered(Reserve(s, t, kind, e, st, timed, op).value, t)
  {
    var s1 := Reserve(s, t, kind, e, st, timed, op).value;
    forall i: nat | Live(s1.timed, i) ensures TimedOk(s1, s1.timed[i].value) && Punctual(s1, s1.timed[i].value) {
      assert TimedOk(s, s.timed[i].value) && Punctual(s, s.timed[i].value);
    }
    forall u: nat | Live(s1.threads, u) && u != t ensures Entered(s1, u) {
      assert Entered(s, u);
    }
  }

  lemma UntimedInv(s: Sys, t: nat)
    requires Linked(s) && Parked(s, t) && OthersEntered(s, t) && !s.threads[t].value.call.value.timed
    ensures Inv(s)
  {
  }

  /** A timed reservation always finds a free entry: registration never fails. */
  lemma RegisterSucceeds(s: Sys, t: nat, e: nat, kind: Kind, ticks: nat)
    requires Linked(s) && Parked(s, t) && OthersEntered(s, t) && Empty(s.timed) < |s.timed| && TimeoutOk(Some(ticks))
    requires s.threads[t].value.wait.value.endpoint == e && s.threads[t].value.wait.value.kind == kind
    ensures Register(s, t, e, kind, s.threads[t].value.wait.value.id, ticks).Some?
  {
    var id := s.threads[t].value.wait.value.id;
    forall i | 0 <= i < |s.timed| && s.timed[i].Some?
      ensures s.timed[i].value.thread != t
      ensures !(s.timed[i].value.endpoint == e && s.timed[i].value.kind == kind && s.timed[i].value.id == id)
    {
      assert Live(s.timed, i);
      assert ThreadOk(s, s.timed[i].value.thread);
    }
  }

  lemma RegisterInv(s: Sys, t: nat, ticks: nat)
    requires Linked(s) && Parked(s, t) && OthersEntered(s, t) && s.threads[t].value.call.value.timed
    requires var w := s.threads[t].value.wait.value; Register(s, t, w.endpoint, w.kind, w.id, ticks).Some?
    ensures var w := s.threads[t].value.wait.value; Inv(Register(s, t, w.endpoint, w.kind, w.id, ticks).value)
  {
    hide Linked;
    var w := s.threads[t].value.wait.value;
    var s2 := Register(s, t, w.endpoint, w.kind, w.id, ticks).value;
    DeadlineWraps(s.time, ticks);
    TimedIrrelevant(s, s2);
    var slot := Empty(s.timed);
    forall i: nat | Live(s2.timed, i) ensures TimedOk(s2, s2.timed[i].value) && Punctual(s2, s2.timed[i].value) {
      assert i != slot ==> TimedOk(s, s.timed[i].value) && Punctual(s, s.timed[i].value);
    }
    forall u: nat | Live(s2.threads, u) ensures Entered(s2, u) {
      EntryAdded(s, s2, slot, t, u);
    }
  }

  lemma EntryAdded(s: Sys, s2: Sys, slot: nat, t: nat, u: nat)
    requires Live(s.threads, t) && s.threads[t].value.wait.Some? && Live(s.threads, u) && s2.threads == s.threads
    requires slot < |s.timed| && s.timed[slot].None? && |s2.timed| == |s.timed| &&
      s2.timed == s.timed[slot := s2.timed[slot]]
    requires var w := s.threads[t].value.wait.value; Names(s2.timed[slot], t, w.endpoint, w.kind, w.id)
    requires u != t ==> Entered(s, u)
    ensures Entered(s2, u)
  {
    var x := s.threads[u].value;
    if u != t && x.wait.Some? && x.call.Some? && x.call.value.timed {
      var i :| 0 <= i < |s.timed| && Names(s.timed[i], u, x.wait.value.endpoint, x.wait.value.kind, x.wait.value.id);
      assert Names(s2.timed[i], u, x.wait.value.endpoint, x.wait.value.kind, x.wait.value.id);
    }
  }

  lemma TimedIrrelevant(s: Sys, s': Sys)
    requires Linked(s) && s' == s.(timed := s'.timed) && |s'.timed| == |s.timed|
    ensures Linked(s')
  {
    forall t: nat | Live(s'.threads, t) ensures ThreadOk(s', t) {
      assert ThreadOk(s, t);
    }
    forall e: nat | Live(s'.endpoints, e) ensures EndpointOk(s', e) {
      assert EndpointOk(s, e);
    }
  }

  // ------------------------------------------------------------ the wait loop

  lemma BlockInv(s: Sys, t: nat)
    requires Inv(s) && Parked(s, t) && s.current == Some(t) && Waiting(s, t, Pending)
    requires var w := s.threads[t].value.wait.value; w.kind == Receive ==> s.endpoints[w.endpoint].value.mail.None?
    ensures Inv(PutThread(s, t, s.threads[t].value.(state := Blocked)).(current := None))
  {
    var s' := PutThread(s, t, s.threads[t].value.(state := Blocked)).(current := None);
    forall u: nat | Live(s'.threads, u) ensures ThreadOk(s', u) && Entered(s', u) {
      assert ThreadOk(s, u) && Entered(s, u);
    }
    forall e: nat | Live(s'.endpoints, e) ensures EndpointOk(s', e) {
      assert EndpointOk(s, e);
    }
    forall i: nat | Live(s'.timed, i) ensures TimedOk(s', s'.timed[i].value) && Punctual(s', s'.timed[i].value) {
      assert TimedOk(s, s.timed[i].value) && Punctual(s, s.timed[i].value);
    }
  }

  /** Every turn of the wait loop, whatever happened since the last: the halts are
      unreachable and the invariant is back when it returns or parks. */
  lemma WaitLoopSafe(s: Sys, t: nat, park: Park)
    requires Inv(s) && Parked(s, t) && s.current == Some(t)
    ensures var (s', r) := WaitLoop(s, t, s.threads[t].value.call.value, park);
            r == Done && Inv(s')
  {
    hide Linked, TableOk, FinishAndLeave, Leave, ReceiveLocked, Left;
    var c := s.threads[t].value.call.value;
    ThreadHere(s, t);
    AlwaysReserved(s, c.endpoint, c.kind);
    EndpointHere(s, c.endpoint);
    if !Waiting(s, t, Pending) {
      LeaveEffect(s, t, None);
      LeaveInv(s, t, Leave(s, t, c, None).0);
    } else if c.kind == Receive && s.endpoints[c.endpoint].value.mail.Some? {
      var (s1, r) := ReceiveLocked(s, c.endpoint, c.op);
      ReceiveKeepsCall(s, t);
      var content := if r == Done then s.endpoints[c.endpoint].value.mail else None;
      var result := if r == Done then Completed else Cancelled;
      FinishEffect(s1, t, result, content);
      LeaveInv(s1, t, FinishAndLeave(s1, t, c, result, content).0);
    } else {
      match park
      case Blocks => BlockInv(s, t);
      case Idles =>
      case Fails => FinishEffect(s, t, Cancelled, None); LeaveInv(s, t, FinishAndLeave(s, t, c, Cancelled, None).0);
    }
  }

  lemma LeaveInv(s: Sys, t: nat, s': Sys)
    requires Inv(s) && Parked(s, t) && s.current == Some(t)
    requires s' == Left(s, t, Running).(replies := s'.replies)
    ensures Inv(s')
  {
    LeftInv(s, t, Running);
    HistoryIgnored(Left(s, t, Running), s');
  }

  /** A receive from inside the wait loop leaves the receiver's own wait as it was. */
  lemma ReceiveKeepsCall(s: Sys, t: nat)
    requires Inv(s) && Parked(s, t) && s.current == Some(t) && Waiting(s, t, Pending)
    requires s.threads[t].value.wait.value.kind == Receive
    ensures var (s1, r) := ReceiveLocked(s, s.threads[t].value.call.value.endpoint, s.threads[t].value.call.value.op);
            && r != Halt && Inv(s1) && Parked(s1, t) && s1.current == Some(t) && Waiting(s1, t, Pending)
            && s1.threads[t].value == s.threads[t].value
  {
    var c := s.threads[t].value.call.value;
    var (s1, r) := ReceiveLocked(s, c.endpoint, c.op);
    ReceiveLockedSafe(s, c.endpoint, c.op);
    assert ThreadOk(s, t);
    if r == Done {
      ProgressInv(s, s1, c.endpoint);
      assert EndpointOk(s, c.endpoint);
      assert ThreadOk(s1, t);
    }
  }

  lemma BeginSafe(s: Sys, t: nat, kind: Kind, e: nat, st: Option<Stamped>, timeout: Option<nat>, op: nat, park: Park)
    requires Inv(s) && Admissible(s, kind, e, st) && TimeoutOk(timeout)
    ensures var (s', r) := Begin(s, t, kind, e, st, timeout, op, park);
            r == Done && Inv(s')
  {
    assert EntriesOk(s);
    hide Linked, TableOk, EntriesOk, WaitLoop, Reserve, Register, FinishAndLeave;
    var reserved := Reserve(s, t, kind, e, st, timeout.Some?, op);
    if reserved.None? {
      HistoryIgnored(s, Answer(s, op, if kind == Send then NotSent else GotNothing));
    } else {
      var s1 := reserved.value;
      ReserveLinked(s, t, kind, e, st, timeout.Some?, op);
      ReserveTable(s, t, kind, e, st, timeout.Some?, op);
      ReserveFacts(s, t, kind, e, st, timeout.Some?, op);
      if timeout.None? {
        UntimedInv(s1, t);
        WaitLoopSafe(s1, t, park);
      } else {
        TableHasRoom(s, e, kind);
        RegisterSucceeds(s1, t, e, kind, timeout.value);
        RegisterInv(s1, t, timeout.value);
        var s2 := Register(s1, t, e, kind, s1.threads[t].value.call.value.id, timeout.value).value;
        RegisterFacts(s1, t, e, kind, s1.threads[t].value.call.value.id, timeout.value);
        WaitLoopSafe(s2, t, park);
      }
    }
  }

  lemma ReserveFacts(s: Sys, t: nat, kind: Kind, e: nat, st: Option<Stamped>, timed: bool, op: nat)
    requires Live(s.endpoints, e) && Reserve(s, t, kind, e, st, timed, op).Some?
    ensures var s1 := Reserve(s, t, kind, e, st, timed, op).value;
            && SeatAt(s.endpoints[e].value, kind).None? && s1.timed == s.timed
            && Live(s1.threads, t) && s1.threads[t].value.wait == Some(Wait(kind, e, s.nextWait, Pending))
            && s1.threads[t].value.call == Some(Call(kind, e, s.nextWait, timed, op))
  {
  }

  lemma RegisterFacts(s: Sys, t: nat, e: nat, kind: Kind, id: nat, ticks: nat)
    requires Live(s.endpoints, e) && Register(s, t, e, kind, id, ticks).Some?
    ensures var s' := Register(s, t, e, kind, id, ticks).value;
            s' == s.(timed := s'.timed)
  {
  }
}
