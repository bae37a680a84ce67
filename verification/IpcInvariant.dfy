/**
 What threads, endpoints and the timed-wait table agree on between any two
 steps, and why each step keeps it without reaching a halt.
 */
module IpcInvariant {
  import opened Slots
  import opened IpcModel

  // ------------------------------------------------------------ the invariant

  /** A waiting thread and its endpoint name each other. */
  predicate WaitOk(s: Sys, t: nat, w: Wait, c: Call) {
    && c.kind == w.kind && c.endpoint == w.endpoint && c.id == w.id
    && w.id != 0 && (s.nextWait == 0 || w.id < s.nextWait)
    && Live(s.endpoints, w.endpoint)
    && SeatAt(s.endpoints[w.endpoint].value, w.kind) == Some(Seat(t, w.id))
    && (w.kind == Receive ==> w.result != Completed)
  }

  predicate ThreadOk(s: Sys, t: nat)
    requires Live(s.threads, t)
  {
    var x := s.threads[t].value;
    && (x.state == Running <==> s.current == Some(t))
    && (x.wait.Some? <==> x.call.Some?)
    && (x.state == Blocked ==> x.wait.Some? && x.wait.value.result == Pending)
    && (x.state == Dead ==> x.wait.None?)
    && (x.wait.Some? ==> WaitOk(s, t, x.wait.value, x.call.value))
  }

  /** No lost wakeup: a blocked receiver has an empty open mailbox; a staged
      message has a full open mailbox and a sender whose wait is pending. */
  predicate EndpointOk(s: Sys, e: nat)
    requires Live(s.endpoints, e)
  {
    var x := s.endpoints[e].value;
    && (x.receiver.Some? ==> Matches(s, x.receiver.value.thread, Receive, e, x.receiver.value.id))
    && (x.sender.Some? ==> Matches(s, x.sender.value.thread, Send, e, x.sender.value.id))
    && (x.staged.Some? <==> x.sender.Some? && Waiting(s, x.sender.value.thread, Pending))
    && (x.staged.Some? ==> x.mail.Some? && ValidMessage(x.staged.value.message))
    && (x.closed ==> x.mail.None? && (x.receiver.Some? ==> !Waiting(s, x.receiver.value.thread, Pending)))
    && (x.receiver.Some? && s.threads[x.receiver.value.thread].value.state == Blocked ==> x.mail.None?)
  }

  /** A timed entry belongs to a live timed wait. */
  predicate TimedOk(s: Sys, x: Timed) {
    && Matches(s, x.thread, x.kind, x.endpoint, x.id)
    && s.threads[x.thread].value.call.Some? && s.threads[x.thread].value.call.value.timed
    && s.threads[x.thread].value.id == x.threadId
    && Live(s.endpoints, x.endpoint) && s.endpoints[x.endpoint].value.id == x.endpointId
    && 0 < x.ticks <= TIMEOUT_MAX && x.deadline == (x.start + x.ticks) % U64
    && x.start <= s.time
  }

  /** A timed wait that is still pending was not due at the last poll, unless two
      polls were more than 2^63 ticks apart. */
  predicate Punctual(s: Sys, x: Timed) {
    Waiting(s, x.thread, Pending) && !s.late ==> s.polled < x.start + x.ticks
  }

  /** A timed wait has an entry. */
  ghost predicate Entered(s: Sys, t: nat)
    requires Live(s.threads, t)
  {
    var x := s.threads[t].value;
    x.wait.Some? && x.call.Some? && x.call.value.timed ==>
      exists i :: 0 <= i < |s.timed| && Names(s.timed[i], t, x.wait.value.endpoint, x.wait.value.kind, x.wait.value.id)
  }

  ghost predicate TableOk(s: Sys) {
    && EntriesOk(s)
    && (forall i: nat :: Live(s.timed, i) ==> Punctual(s, s.timed[i].value))
  }

  /** Entries and timed waits correspond one to one. */
  ghost predicate EntriesOk(s: Sys) {
    && (forall i: nat :: Live(s.timed, i) ==> TimedOk(s, s.timed[i].value))
    && (forall i: nat, j: nat :: Live(s.timed, i) && Live(s.timed, j) && i < j ==>
      s.timed[i].value.thread != s.timed[j].value.thread)
    && (forall t: nat :: Live(s.threads, t) ==> Entered(s, t))
  }

  ghost predicate Linked(s: Sys) {
    && |s.threads| == THREADS && |s.endpoints| == ENDPOINTS && |s.timed| == TIMED_WAITS
    && s.nextWait < U64 && s.nextEndpoint < U64 && s.polled <= s.time
    && (s.current.Some? ==> Live(s.threads, s.current.value))
    && (forall t: nat :: Live(s.threads, t) ==> ThreadOk(s, t))
    && (forall e: nat :: Live(s.endpoints, e) ==> EndpointOk(s, e))
  }

  ghost predicate Inv(s: Sys) {
    Linked(s) && TableOk(s)
  }

  // ---------------------------------------------- steps that move waits forward

  /** How a thread may change while it keeps its wait: it may be woken, and a
      pending result may become final. */
  predicate Advanced(x: Thread, x': Thread, e: nat) {
    && x' == x.(state := x'.state, wait := x'.wait)
    && (x' == x || (x.wait.Some? && x.wait.value.endpoint == e))
    && (x'.state == x.state || (x.state == Blocked && x'.state == Ready))
    && x'.wait.Some? == x.wait.Some?
    && (x.wait.Some? ==>
          var w, w' := x.wait.value, x'.wait.value;
          && w' == w.(result := w'.result)
          && (w'.result == w.result || w.result == Pending)
          && (x'.state == Blocked ==> w'.result == Pending)
          && (w.kind == Receive ==> w'.result != Completed || w.result == Completed))
  }

  /** Only endpoint `e` and the threads waiting at it change, and no seat. */
  ghost predicate Progress(s: Sys, s': Sys, e: nat) {
    && s'.current == s.current && s'.timed == s.timed && s'.nextWait == s.nextWait && s'.time == s.time
    && s'.polled == s.polled && s'.late == s.late
    && s'.nextThread == s.nextThread && s'.nextEndpoint == s.nextEndpoint && s'.nextOp == s.nextOp
    && |s'.threads| == |s.threads| && Live(s.endpoints, e) && Live(s'.endpoints, e)
    && s'.endpoints == s.endpoints[e := s'.endpoints[e]]
    && var x, x' := s.endpoints[e].value, s'.endpoints[e].value;
       && x'.id == x.id && x'.receiver == x.receiver && x'.sender == x.sender
       && (forall t: nat :: Live(s.threads, t) <==> Live(s'.threads, t))
       && (forall t: nat :: Live(s.threads, t) ==> Advanced(s.threads[t].value, s'.threads[t].value, e))
  }

  lemma ProgressLinked(s: Sys, s': Sys, e: nat)
    requires Linked(s) && Progress(s, s', e) && EndpointOk(s', e)
    ensures Linked(s')
  {
    forall t: nat | Live(s'.threads, t) ensures ThreadOk(s', t) {
      assert ThreadOk(s, t);
    }
    forall f: nat | Live(s'.endpoints, f) ensures EndpointOk(s', f) {
      if f != e {
        assert EndpointOk(s, f);
      }
    }
  }

  lemma ProgressEntries(s: Sys, s': Sys, e: nat)
    requires Linked(s) && EntriesOk(s) && Progress(s, s', e)
    ensures EntriesOk(s')
    ensures forall i: nat :: Live(s.timed, i) && Punctual(s, s.timed[i].value) ==> Punctual(s', s.timed[i].value)
  {
    forall i: nat | Live(s'.timed, i) ensures TimedOk(s', s'.timed[i].value) {
      assert TimedOk(s, s.timed[i].value);
    }
    forall t: nat | Live(s'.threads, t) ensures Entered(s', t) {
      assert Entered(s, t);
    }
  }

  lemma ProgressInv(s: Sys, s': Sys, e: nat)
    requires Inv(s) && Progress(s, s', e) && EndpointOk(s', e)
    ensures Inv(s')
  {
    ProgressLinked(s, s', e);
    ProgressEntries(s, s', e);
  }

  /** Logs, replies and call numbers are history. */
  lemma HistoryIgnored(s: Sys, s': Sys)
    requires Inv(s) && s' == s.(nextOp := s'.nextOp, logs := s'.logs, replies := s'.replies)
    ensures Inv(s')
  {
    forall t: nat | Live(s'.threads, t) ensures ThreadOk(s', t) && Entered(s', t) {
      assert ThreadOk(s, t) && Entered(s, t);
    }
    forall e: nat | Live(s'.endpoints, e) ensures EndpointOk(s', e) {
      assert EndpointOk(s, e);
    }
    forall i: nat | Live(s'.timed, i) ensures TimedOk(s', s'.timed[i].value) && Punctual(s', s'.timed[i].value) {
      assert TimedOk(s, s.timed[i].value) && Punctual(s, s.timed[i].value);
    }
  }

  /** The checks made on every path pass in every reachable state. */
  lemma AlwaysReserved(s: Sys, e: nat, kind: Kind)
    requires Linked(s) && Live(s.endpoints, e)
    ensures Reserved(s, e, kind)
  {
    assert EndpointOk(s, e);
    if SeatAt(s.endpoints[e].value, kind).Some? {
      assert ThreadOk(s, SeatAt(s.endpoints[e].value, kind).value.thread);
    }
  }

  // ------------------------------------------------------- the pieces of a step

  function Woken(x: Thread): Thread {
    if x.state == Blocked then x.(state := Ready) else x
  }

  function Settled(x: Thread, result: WaitResult): Thread
    requires x.wait.Some?
  {
    Woken(x.(wait := Some(x.wait.value.(result := result))))
  }

  lemma ThreadMoves(s: Sys, t: nat, x': Thread, e: nat)
    requires Live(s.threads, t) && Live(s.endpoints, e) && Advanced(s.threads[t].value, x', e)
    requires forall u: nat :: Live(s.threads, u) && s.threads[u].value.state == Blocked ==> Waiting(s, u, Pending)
    ensures Progress(s, PutThread(s, t, x'), e)
  {
  }

  lemma BoxMoves(s: Sys, e: nat, x': Endpoint, logs: map<nat, Log>)
    requires Live(s.endpoints, e)
    requires var x := s.endpoints[e].value; x'.id == x.id && x'.receiver == x.receiver && x'.sender == x.sender
    requires forall u: nat :: Live(s.threads, u) && s.threads[u].value.state == Blocked ==> Waiting(s, u, Pending)
    ensures Progress(s, PutEndpoint(s, e, x').(logs := logs), e)
  {
  }

  lemma ProgressChains(s: Sys, s1: Sys, s2: Sys, e: nat)
    requires Progress(s, s1, e) && Progress(s1, s2, e)
    ensures Progress(s, s2, e)
  {
  }

  lemma BlockedPending(s: Sys)
    requires Linked(s)
    ensures forall u: nat :: Live(s.threads, u) && s.threads[u].value.state == Blocked ==> Waiting(s, u, Pending)
  {
    forall u: nat | Live(s.threads, u) && s.threads[u].value.state == Blocked ensures Waiting(s, u, Pending) {
      assert ThreadOk(s, u);
    }
  }

  lemma WakeEffect(s: Sys, t: nat)
    requires Live(s.threads, t) && Schedulable(s, t)
    ensures MakeReady(s, t) == Some(PutThread(s, t, Woken(s.threads[t].value)))
  {
    assert s.threads[t := Some(s.threads[t].value)] == s.threads;
  }

  lemma CompleteEffect(s: Sys, t: nat, kind: Kind, e: nat, id: nat, result: WaitResult)
    requires Matches(s, t, kind, e, id) && Schedulable(s, t) && Waiting(s, t, Pending) && result != Pending
    ensures
      var s1 := TryComplete(s, t, kind, e, id, result);
      && s1.Some? && Live(s1.value.threads, t) && Schedulable(s1.value, t)
      && MakeReady(s1.value, t) == Some(PutThread(s, t, Settled(s.threads[t].value, result)))
    ensures
      var s1 := MakeReady(s, t);
      && s1.Some?
      && TryComplete(s1.value, t, kind, e, id, result) == Some(PutThread(s, t, Settled(s.threads[t].value, result)))
  {
    WakeEffect(s, t);
    var x := s.threads[t].value;
    var s1 := TryComplete(s, t, kind, e, id, result).value;
    WakeEffect(s1, t);
    var s2 := PutThread(s, t, Settled(x, result));
    assert MakeReady(s1, t).value.threads == s2.threads;
    var s3 := MakeReady(s, t).value;
    assert Matches(s3, t, kind, e, id) && Schedulable(s3, t);
    assert TryComplete(s3, t, kind, e, id, result).value.threads == s2.threads;
  }

  /** Waking one thread at `e`, perhaps settling its wait, and then changing the
      endpoint's message fields. */
  lemma ThreadThenBox(s: Sys, t: nat, x': Thread, e: nat, y': Endpoint, logs: map<nat, Log>)
    requires Linked(s) && Live(s.threads, t) && Live(s.endpoints, e) && Advanced(s.threads[t].value, x', e)
    requires var y := s.endpoints[e].value; y'.id == y.id && y'.receiver == y.receiver && y'.sender == y.sender
    ensures Progress(s, PutEndpoint(PutThread(s, t, x'), e, y').(logs := logs), e)
  {
    BlockedPending(s);
    ThreadMoves(s, t, x', e);
    BoxMoves(PutThread(s, t, x'), e, y', logs);
    ProgressChains(s, PutThread(s, t, x'), PutEndpoint(PutThread(s, t, x'), e, y').(logs := logs), e);
  }

  /** A seat's thread, with the facts about it. */
  lemma Seated(s: Sys, e: nat, kind: Kind)
    requires Linked(s) && Live(s.endpoints, e)
    ensures Reserved(s, e, kind)
    ensures var seat := SeatAt(s.endpoints[e].value, kind);
            seat.Some? ==>
              var t := seat.value.thread;
              && Matches(s, t, kind, e, seat.value.id) && Schedulable(s, t) && ThreadOk(s, t)
  {
    AlwaysReserved(s, e, kind);
    assert EndpointOk(s, e);
  }

  lemma SendLockedSafe(s: Sys, e: nat, st: Stamped)
    requires Linked(s)
    ensures var (s', r) := SendLocked(s, e, st);
            && r != Halt
            && (r == Refused ==> s' == s)
            && (r == Done ==>
                  && Live(s.endpoints, e) && Progress(s, s', e) && EndpointOk(s', e)
                  && s.endpoints[e].value.staged.None?)
  {
    hide Linked, Progress;
    var (s', r) := SendLocked(s, e, st);
    if r == Done {
      Seated(s, e, Receive);
      BlockedPending(s);
      var x := s.endpoints[e].value;
      BoxMoves(s, e, x.(mail := Some(st)), s'.logs);
      EndpointHere(s, e);
      if x.receiver.Some? {
        var t := x.receiver.value.thread;
        WakeEffect(s, t);
        ThreadThenBox(s, t, Woken(s.threads[t].value), e, x.(mail := Some(st)), s'.logs);
      }
    }
  }

  lemma EndpointHere(s: Sys, e: nat)
    requires Linked(s) && Live(s.endpoints, e)
    ensures EndpointOk(s, e)
  {
  }

  lemma MoveUpSafe(s: Sys, e: nat, op: nat)
    requires Linked(s) && Live(s.endpoints, e) && s.endpoints[e].value.staged.Some? && s.endpoints[e].value.mail.Some?
    requires s.endpoints[e].value.sender.Some?
    requires s.endpoints[e].value.receiver.Some? ==> s.current == Some(s.endpoints[e].value.receiver.value.thread)
    ensures var (s', r) := MoveUp(s, e, op);
            && r == Done && Progress(s, s', e) && EndpointOk(s', e)
            && var x := s.endpoints[e].value;
               var t := x.sender.value.thread;
               && Live(s.threads, t) && s.threads[t].value.wait.Some?
               && s' == PutEndpoint(PutThread(s, t, Settled(s.threads[t].value, Completed)), e,
                 x.(mail := x.staged, staged := None))
                         .(logs := s'.logs)
  {
    hide Linked, Progress;
    Seated(s, e, Send);
    Seated(s, e, Receive);
    EndpointHere(s, e);
    var x := s.endpoints[e].value;
    var t := x.sender.value.thread;
    CompleteEffect(s, t, Send, e, x.sender.value.id, Completed);
    var s' := MoveUp(s, e, op).0;
    ThreadThenBox(s, t, Settled(s.threads[t].value, Completed), e, x.(mail := x.staged, staged := None), s'.logs);
    assert s'.endpoints == s.endpoints[e := Some(x.(mail := x.staged, staged := None))];
  }

  lemma ReceiveLockedSafe(s: Sys, e: nat, op: nat)
    requires Linked(s)
    ensures var (s', r) := ReceiveLocked(s, e, op);
            && r != Halt
            && (r == Refused ==> s' == s)
            && (r == Done ==>
              Live(s.endpoints, e) && s.endpoints[e].value.mail.Some? && Progress(s, s', e) && EndpointOk(s', e))
  {
    hide Linked, Progress, MoveUp;
    if Live(s.endpoints, e) && s.endpoints[e].value.mail.Some? {
      Seated(s, e, Receive);
      Seated(s, e, Send);
      EndpointHere(s, e);
      var x := s.endpoints[e].value;
      if x.staged.None? {
        BlockedPending(s);
        BoxMoves(s, e, x.(mail := None), Deliver(s, e, op).logs);
      } else if x.receiver.Some? ==> s.current == Some(x.receiver.value.thread) {
        MoveUpSafe(s, e, op);
      }
    }
  }

  // ------------------------------------------------------------------- closing

  /** Closing settles one seat: whatever waits there has a result and is awake. */
  lemma CloseSeatEffect(s: Sys, e: nat, kind: Kind)
    requires Live(s.endpoints, e)
    requires var seat := SeatAt(s.endpoints[e].value, kind);
             seat.Some? ==> Matches(s, seat.value.thread, kind, e, seat.value.id) && Schedulable(s, seat.value.thread)
    ensures var (s', r) := CloseSeat(s, e, kind);
            && r == Done
            && (match SeatAt(s.endpoints[e].value, kind)
                case None => s' == s
                case Some(seat) => s' == PutThread(s, seat.thread, Released(s.threads[seat.thread].value)))
  {
    var seat := SeatAt(s.endpoints[e].value, kind);
    if seat.Some? {
      var t := seat.value.thread;
      if Waiting(s, t, Pending) {
        CompleteEffect(s, t, kind, e, seat.value.id, PeerClosed);
      } else {
        WakeEffect(s, t);
      }
    }
  }

  function Released(x: Thread): Thread
    requires x.wait.Some?
  {
    if x.wait.value.result == Pending then Settled(x, PeerClosed) else Woken(x)
  }

  /** What a close leaves: the endpoint empty and closed, its waiters settled. */
  ghost predicate ClosedBy(s: Sys, s': Sys, e: nat)
    requires Live(s.endpoints, e)
  {
    && Progress(s, s', e) && EndpointOk(s', e)
    && s' == Discard(s, e).(threads := s'.threads)
    && (forall t: nat :: Live(s.threads, t) && s.threads[t].value.wait.Some? ==>
          && s'.threads[t].value.wait.Some?
          && (if s.threads[t].value.wait.value.result != Pending || s.threads[t].value.wait.value.endpoint != e
              then s'.threads[t].value.wait == s.threads[t].value.wait
              else s'.threads[t].value.wait.value.result == PeerClosed))
  }

  predicate SeatedAt(x: Endpoint, t: nat) {
    (x.receiver.Some? && x.receiver.value.thread == t) || (x.sender.Some? && x.sender.value.thread == t)
  }

  /** Exactly the threads seated at `e` are released. */
  ghost predicate ReleasedAll(s: Sys, s': Sys, e: nat)
    requires Live(s.endpoints, e)
  {
    && s' == Discard(s, e).(threads := s'.threads) && |s'.threads| == |s.threads|
    && (forall t: nat :: Live(s.threads, t) <==> Live(s'.threads, t))
    && (forall t: nat :: Live(s.threads, t) ==>
          if SeatedAt(s.endpoints[e].value, t)
          then s.threads[t].value.wait.Some? && s'.threads[t].value == Released(s.threads[t].value)
          else s'.threads[t].value == s.threads[t].value)
  }

  lemma ReleasedIsClosed(s: Sys, s': Sys, e: nat)
    requires Linked(s) && Live(s.endpoints, e) && ReleasedAll(s, s', e)
    ensures ClosedBy(s, s', e)
  {
    EndpointHere(s, e);
    forall t: nat | Live(s.threads, t)
      ensures Advanced(s.threads[t].value, s'.threads[t].value, e)
      ensures s.threads[t].value.wait.Some? ==>
        && s'.threads[t].value.wait.Some?
        && (if s.threads[t].value.wait.value.result != Pending || s.threads[t].value.wait.value.endpoint != e
            then s'.threads[t].value.wait == s.threads[t].value.wait
            else s'.threads[t].value.wait.value.result == PeerClosed)
    {
      assert ThreadOk(s, t);
    }
  }

  lemma CloseSafe(s: Sys, e: nat)
    requires Linked(s)
    ensures var (s', r) := Close(s, e);
            && r == (if Live(s.endpoints, e) && !s.endpoints[e].value.closed then Done else Refused)
            && (if r == Done then ClosedBy(s, s', e) else s' == s)
  {
    hide Linked, CloseSeat, ClosedBy;
    if Live(s.endpoints, e) && !s.endpoints[e].value.closed {
      Seated(s, e, Receive);
      Seated(s, e, Send);
      EndpointHere(s, e);
      var s1 := Discard(s, e);
      CloseSeatEffect(s1, e, Receive);
      var s2 := CloseSeat(s1, e, Receive).0;
      CloseSeatEffect(s2, e, Send);
      var s3 := CloseSeat(s2, e, Send).0;
      ReleasedIsClosed(s, s3, e);
    }
  }
}
