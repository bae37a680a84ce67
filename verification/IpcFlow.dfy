/**
 What one step does to calls: which endpoint a receive takes from, which calls go on,
 and that a call that goes on keeps its endpoint and its timer.
 */
module IpcFlow {
  import opened Slots
  import opened IpcModel

  /** Thread `t` is inside call `c`. */
  predicate Calling(s: Sys, t: nat, c: Call) {
    Live(s.threads, t) && s.threads[t].value.call == Some(c)
  }

  /** Receive call `n` took a message of endpoint incarnation `id`. */
  predicate TakesAt(s: Sys, id: nat, n: nat) {
    id in s.logs && exists i :: 0 <= i < |s.logs[id].delivered| && s.logs[id].delivered[i].taker == n
  }

  /** The timed-wait table has this entry for thread `t`. */
  ghost predicate Entry(s: Sys, t: nat, x: Timed) {
    x.thread == t && exists i: nat :: Live(s.timed, i) && s.timed[i].value == x
  }

  /** What one call does: call `n` takes from endpoint `site`, and thread `starter` starts it. */
  datatype Reach = Reach(site: Option<nat>, n: nat, starter: Option<nat>)

  /** The call may take, and start if it is new, and thread `but` may end its call;
      nothing else starts, ends or takes, and no timer of another changes. */
  ghost predicate Moves(s: Sys, s': Sys, r: Reach, but: Option<nat>) {
    && (forall id: nat, k: nat :: TakesAt(s', id, k) ==> TakesAt(s, id, k) || (k == r.n && IsSite(s, r.site, id)))
    && (forall t: nat, c :: Calling(s', t, c) ==> Calling(s, t, c) || Starts(r, t, c))
    && (forall t: nat, c :: Calling(s, t, c) && but != Some(t) ==> Calling(s', t, c))
    && (forall t: nat, c, x :: Calling(s, t, c) && but != Some(t) ==> Entry(s', t, x) == Entry(s, t, x))
    && s.replies.Keys <= s'.replies.Keys
  }

  predicate Starts(r: Reach, t: nat, c: Call) {
    r.starter == Some(t) && c.op == r.n && r.site == Some(c.endpoint)
  }

  predicate IsSite(s: Sys, site: Option<nat>, id: nat) {
    site.Some? && Live(s.endpoints, site.value) && s.endpoints[site.value].value.id == id
  }

  /** No endpoint is new. */
  ghost predicate Ids(s: Sys, s': Sys) {
    forall e: nat ::
      Live(s'.endpoints, e) ==> Live(s.endpoints, e) && s.endpoints[e].value.id == s'.endpoints[e].value.id
  }

  ghost predicate Flow(s: Sys, s': Sys, r: Reach, but: Option<nat>) {
    Moves(s, s', r, but) && Ids(s, s')
  }

  lemma FlowChains(s: Sys, s1: Sys, s2: Sys, r: Reach, but: Option<nat>)
    requires Flow(s, s1, r, but) && Flow(s1, s2, r, but)
    ensures Flow(s, s2, r, but)
  {
    hide Calling, TakesAt, Entry;
    forall id: nat | IsSite(s1, r.site, id) ensures IsSite(s, r.site, id) {
    }
  }

  /** No call starts, ends, takes or is answered, and no timer changes. */
  ghost predicate Calm(s: Sys, s': Sys) {
    && (forall t: nat, c :: Calling(s', t, c) == Calling(s, t, c))
    && (forall id: nat, k: nat :: TakesAt(s', id, k) ==> TakesAt(s, id, k))
    && s'.timed == s.timed && s'.replies == s.replies
    && Ids(s, s')
  }

  lemma CalmFlows(s: Sys, s': Sys, r: Reach, but: Option<nat>)
    requires Calm(s, s')
    ensures Flow(s, s', r, but)
  {
    hide Calling, TakesAt;
    forall t: nat, x ensures Entry(s', t, x) == Entry(s, t, x) {
    }
  }

  lemma CalmChains(s: Sys, s1: Sys, s2: Sys)
    requires Calm(s, s1) && Calm(s1, s2)
    ensures Calm(s, s2)
  {
    hide Calling, TakesAt;
  }

  /** What is neither thread, endpoint, timer, history nor reply does not matter. */
  lemma SameFlows(s: Sys, s': Sys, r: Reach, but: Option<nat>)
    requires s'.threads == s.threads && s'.endpoints == s.endpoints && s'.timed == s.timed && s'.logs == s.logs
    requires s.replies.Keys <= s'.replies.Keys
    ensures Flow(s, s', r, but)
  {
    forall t: nat, x ensures Entry(s', t, x) == Entry(s, t, x) {
    }
  }

  // --------------------------------------------------------------- small steps

  lemma MakeReadyCalm(s: Sys, t: nat)
    ensures MakeReady(s, t).Some? ==> Calm(s, MakeReady(s, t).value)
  {
    hide Schedulable;
  }

  lemma TryCompleteCalm(s: Sys, t: nat, kind: Kind, e: nat, id: nat, result: WaitResult)
    ensures var r := TryComplete(s, t, kind, e, id, result); r.Some? ==> Calm(s, r.value)
  {
    hide Schedulable;
  }

  lemma AcceptCalm(s: Sys, e: nat, st: Stamped)
    requires Live(s.endpoints, e)
    ensures Calm(s, Accept(s, e, st))
  {
  }

  lemma EndpointCalm(s: Sys, e: nat, x: Endpoint)
    requires Live(s.endpoints, e) && x.id == s.endpoints[e].value.id
    ensures Calm(s, PutEndpoint(s, e, x))
  {
  }

  lemma DeliverFlows(s: Sys, e: nat, n: nat, r: Reach)
    requires r.site == Some(e) && r.n == n
    requires Live(s.endpoints, e) && s.endpoints[e].value.mail.Some?
    ensures Flow(s, Deliver(s, e, n), r, None)
  {
    var s' := Deliver(s, e, n);
    forall id: nat, k: nat | TakesAt(s', id, k) ensures TakesAt(s, id, k) || (k == n && IsSite(s, Some(e), id)) {
      var i :| 0 <= i < |s'.logs[id].delivered| && s'.logs[id].delivered[i].taker == k;
      if id == s.endpoints[e].value.id && i < |LogOf(s, id).delivered| {
        assert LogOf(s, id).delivered[i].taker == k;
      }
    }
    forall t: nat, x ensures Entry(s', t, x) == Entry(s, t, x) {
    }
  }

  lemma Widens(s: Sys, s': Sys, r: Reach, but: Option<nat>)
    requires Flow(s, s', r, None)
    ensures Flow(s, s', r, but)
  {
    hide Calling, TakesAt, Entry;
  }

  lemma SendCalm(s: Sys, e: nat, st: Stamped)
    ensures Calm(s, SendLocked(s, e, st).0)
  {
    hide Calm, Reserved, Schedulable;
    AlwaysCalm(s);
    if Live(s.endpoints, e) {
      AcceptCalm(s, e, st);
      if s.endpoints[e].value.receiver.Some? {
        var t := s.endpoints[e].value.receiver.value.thread;
        MakeReadyCalm(s, t);
        if MakeReady(s, t).Some? {
          AcceptCalm(MakeReady(s, t).value, e, st);
          CalmChains(s, MakeReady(s, t).value, Accept(MakeReady(s, t).value, e, st));
        }
      }
    }
  }

  lemma AlwaysCalm(s: Sys)
    ensures Calm(s, s)
  {
  }

  lemma MoveUpFlows(s: Sys, e: nat, n: nat, r: Reach)
    requires r.site == Some(e) && r.n == n
    requires Live(s.endpoints, e) && s.endpoints[e].value.mail.Some? && s.endpoints[e].value.staged.Some?
    requires s.endpoints[e].value.sender.Some?
    ensures Flow(s, MoveUp(s, e, n).0, r, None)
  {
    hide Flow, Calm, Matches, Schedulable;
    var x := s.endpoints[e].value;
    AlwaysCalm(s);
    CalmFlows(s, s, r, None);
    MakeReadyCalm(s, x.sender.value.thread);
    var s1 := MakeReady(s, x.sender.value.thread);
    if s1.Some? {
      CalmFlows(s, s1.value, r, None);
      TryCompleteCalm(s1.value, x.sender.value.thread, Send, e, x.sender.value.id, Completed);
      var s2 := TryComplete(s1.value, x.sender.value.thread, Send, e, x.sender.value.id, Completed);
      if s2.Some? {
        CalmFlows(s1.value, s2.value, r, None);
        FlowChains(s, s1.value, s2.value, r, None);
        MoveUpRest(s2.value, e, n, x.staged.value, r);
        FlowChains(s, s2.value, MoveUp(s, e, n).0, r, None);
      }
    }
  }

  lemma MoveUpRest(s: Sys, e: nat, n: nat, st: Stamped, r: Reach)
    requires r.site == Some(e) && r.n == n
    requires Live(s.endpoints, e) && s.endpoints[e].value.mail.Some?
    ensures var s3 := Accept(Deliver(s, e, n), e, st);
            Flow(s, PutEndpoint(s3, e, s3.endpoints[e].value.(staged := None)), r, None)
  {
    hide Flow, Calm;
    var s1 := Deliver(s, e, n);
    DeliverFlows(s, e, n, r);
    AcceptCalm(s1, e, st);
    var s3 := Accept(s1, e, st);
    EndpointCalm(s3, e, s3.endpoints[e].value.(staged := None));
    var s4 := PutEndpoint(s3, e, s3.endpoints[e].value.(staged := None));
    CalmChains(s1, s3, s4);
    CalmFlows(s1, s4, r, None);
    FlowChains(s, s1, s4, r, None);
  }

  lemma ReceiveFlows(s: Sys, e: nat, n: nat, r: Reach)
    requires r.site == Some(e) && r.n == n
    ensures Flow(s, ReceiveLocked(s, e, n).0, r, None)
  {
    hide Flow, Calm, Reserved, MoveUp, Deliver;
    AlwaysCalm(s);
    CalmFlows(s, s, r, None);
    if Live(s.endpoints, e) && s.endpoints[e].value.mail.Some? {
      DeliverFlows(s, e, n, r);
      if s.endpoints[e].value.staged.Some? && s.endpoints[e].value.sender.Some? {
        MoveUpFlows(s, e, n, r);
      }
    }
  }

  // --------------------------------------------------------------------- the end of a call

  lemma UnregisterKeeps(s: Sys, u: nat, e: nat, kind: Kind, id: nat, t: nat, x: Timed)
    requires Unregister(s, u, e, kind, id).Some? && t != u
    ensures Entry(Unregister(s, u, e, kind, id).value, t, x) == Entry(s, t, x)
  {
    var s' := Unregister(s, u, e, kind, id).value;
    if Entry(s, t, x) {
      var i: nat :| Live(s.timed, i) && s.timed[i].value == x;
      assert Live(s'.timed, i) && s'.timed[i].value == x;
    }
  }

  lemma UnregisterFlows(s: Sys, t: nat, e: nat, kind: Kind, id: nat, r: Reach)
    requires Unregister(s, t, e, kind, id).Some?
    ensures Flow(s, Unregister(s, t, e, kind, id).value, r, Some(t))
  {
    hide Entry;
    var s' := Unregister(s, t, e, kind, id).value;
    forall u: nat, c, x | Calling(s, u, c) && Some(t) != Some(u) ensures Entry(s', u, x) == Entry(s, u, x) {
      UnregisterKeeps(s, t, e, kind, id, u, x);
    }
  }

  /** A thread gives up its call. */
  lemma QuitFlows(s: Sys, t: nat, y: Thread, r: Reach)
    requires Live(s.threads, t) && y.call.None?
    ensures Flow(s, PutThread(s, t, y), r, Some(t))
  {
    var s' := PutThread(s, t, y);
    forall u: nat, x ensures Entry(s', u, x) == Entry(s, u, x) {
    }
  }

  lemma VacateFlows(s: Sys, e: nat, kind: Kind, r: Reach, but: Option<nat>)
    requires Live(s.endpoints, e)
    ensures Flow(s, Vacate(s, e, kind), r, but)
  {
    var x := s.endpoints[e].value;
    EndpointCalm(s, e, if kind == Receive then x.(receiver := None) else x.(sender := None, staged := None));
    CalmFlows(s, Vacate(s, e, kind), r, but);
  }

  lemma EndFlows(s: Sys, t: nat, c: Call, r: Reach)
    requires EndReservation(s, t, c).Some?
    ensures Flow(s, EndReservation(s, t, c).value, r, Some(t))
    ensures forall d :: !Calling(EndReservation(s, t, c).value, t, d)
  {
    hide Flow, Calm, Reserved, Unregister;
    AlwaysCalm(s);
    CalmFlows(s, s, r, Some(t));
    var s1 := if c.timed then Unregister(s, t, c.endpoint, c.kind, c.id).value else s;
    if c.timed {
      UnregisterFlows(s, t, c.endpoint, c.kind, c.id, r);
      UnregisterSame(s, t, c.endpoint, c.kind, c.id);
    }
    var s2 := PutThread(s1, t, s1.threads[t].value.(wait := None, call := None));
    QuitFlows(s1, t, s1.threads[t].value.(wait := None, call := None), r);
    FlowChains(s, s1, s2, r, Some(t));
    VacateFlows(s2, c.endpoint, c.kind, r, Some(t));
    FlowChains(s, s2, Vacate(s2, c.endpoint, c.kind), r, Some(t));
  }

  lemma UnregisterSame(s: Sys, t: nat, e: nat, kind: Kind, id: nat)
    requires Unregister(s, t, e, kind, id).Some?
    ensures var s' := Unregister(s, t, e, kind, id).value; s' == s.(timed := s'.timed)
  {
  }

  /** A call that returns is answered; one that does not return changes nothing. */
  ghost predicate Settles(s: Sys, s': Sys, t: nat, c: Call, r: Reach) {
    && Flow(s, s', r, Some(t))
    && (Over(s', t, c) || (Calling(s, t, c) ==> Goes(s, s', t, c)))
  }

  /** The call is answered, and the thread is in no other. */
  ghost predicate Over(s: Sys, t: nat, c: Call) {
    c.op in s.replies && forall d :: !Calling(s, t, d)
  }

  /** The call goes on, with the timers it had. */
  ghost predicate Goes(s: Sys, s': Sys, t: nat, c: Call) {
    Calling(s', t, c) && forall x :: Entry(s', t, x) == Entry(s, t, x)
  }

  lemma LeaveSettles(s: Sys, t: nat, c: Call, content: Option<Stamped>, r: Reach)
    ensures Settles(s, Leave(s, t, c, content).0, t, c, r)
  {
    hide Flow, Calm, EndReservation, Entry;
    AlwaysCalm(s);
    CalmFlows(s, s, r, Some(t));
    if EndReservation(s, t, c).Some? {
      EndFlows(s, t, c, r);
      var s1 := EndReservation(s, t, c).value;
      var s' := Leave(s, t, c, content).0;
      if s' != s {
        SameFlows(s1, s', r, Some(t));
        FlowChains(s, s1, s', r, Some(t));
        assert s'.threads == s1.threads;
        assert forall d :: Calling(s', t, d) ==> Calling(s1, t, d);
      }
    }
  }

  /** After a calm start, a call that returns has returned. */
  lemma SettlesLater(s: Sys, s1: Sys, s': Sys, t: nat, c: Call, r: Reach)
    requires Flow(s, s1, r, None) && Settles(s1, s', t, c, r)
    ensures Settles(s, s', t, c, r)
  {
    hide Entry, Calling, TakesAt, Ids;
    Widens(s, s1, r, Some(t));
    FlowChains(s, s1, s', r, Some(t));
  }

  lemma FinishSettles(s: Sys, t: nat, c: Call, result: WaitResult, content: Option<Stamped>, r: Reach)
    ensures Settles(s, FinishAndLeave(s, t, c, result, content).0, t, c, r)
  {
    hide Flow, Calm, Leave, Settles, Matches, Schedulable;
    NothingSettles(s, t, c, r);
    TryCompleteCalm(s, t, c.kind, c.endpoint, c.id, result);
    var s1 := TryComplete(s, t, c.kind, c.endpoint, c.id, result);
    if s1.Some? {
      CalmFlows(s, s1.value, r, None);
      LeaveSettles(s1.value, t, c, content, r);
      SettlesLater(s, s1.value, Leave(s1.value, t, c, content).0, t, c, r);
    }
  }

  lemma NothingSettles(s: Sys, t: nat, c: Call, r: Reach)
    ensures Settles(s, s, t, c, r)
  {
    AlwaysCalm(s);
    CalmFlows(s, s, r, Some(t));
  }

  lemma BlockFlows(s: Sys, t: nat, r: Reach)
    requires Live(s.threads, t)
    ensures Flow(s, PutThread(s, t, s.threads[t].value.(state := Blocked)).(current := None), r, None)
  {
    var s' := PutThread(s, t, s.threads[t].value.(state := Blocked)).(current := None);
    assert Calm(s, s');
    CalmFlows(s, s', r, None);
  }

  lemma WaitLoopSettles(s: Sys, t: nat, c: Call, park: Park)
    ensures Settles(s, WaitLoop(s, t, c, park).0, t, c, Reach(Some(c.endpoint), c.op, None))
  {
    hide Flow, Settles, Leave, FinishAndLeave, ReceiveLocked, Matches, Reserved;
    var r := Reach(Some(c.endpoint), c.op, None);
    NothingSettles(s, t, c, r);
    LeaveSettles(s, t, c, None, r);
    FinishSettles(s, t, c, Cancelled, None, r);
    if Live(s.threads, t) {
      BlockFlows(s, t, r);
      var s1 := ParkNow(s, t, c, Blocks).0;
      NothingSettles(s1, t, c, r);
      SettlesLater(s, s1, s1, t, c, r);
    }
    ReceiveFlows(s, c.endpoint, c.op, r);
    var s1 := ReceiveLocked(s, c.endpoint, c.op).0;
    NothingSettles(s1, t, c, r);
    SettlesLater(s, s1, s1, t, c, r);
    FinishSettles(s1, t, c, Cancelled, None, r);
    SettlesLater(s, s1, FinishAndLeave(s1, t, c, Cancelled, None).0, t, c, r);
    if Live(s.endpoints, c.endpoint) {
      var mail := s.endpoints[c.endpoint].value.mail;
      FinishSettles(s1, t, c, Completed, mail, r);
      SettlesLater(s, s1, FinishAndLeave(s1, t, c, Completed, mail).0, t, c, r);
    }
  }
}
