/**
 Exactly once and in order: what entered each mailbox, who received it, what a
 close threw away, and what every finished call returned.
 */
module IpcHistory {
  import opened Slots
  import opened IpcModel
  import opened IpcInvariant

  // ------------------------------------------------------------ the invariant

  /** Received and discarded messages are, in that order, a prefix of what was
      accepted; messages are accepted in the order their calls were made. */
  predicate LogOk(log: Log) {
    && |log.delivered| + |log.discarded| <= |log.accepted|
    && (forall i :: 0 <= i < |log.delivered| ==> log.delivered[i].stamped == log.accepted[i])
    && log.discarded == log.accepted[|log.delivered|..|log.delivered| + |log.discarded|]
    && (forall i, j :: 0 <= i < j < |log.accepted| ==> log.accepted[i].op < log.accepted[j].op)
  }

  function Outstanding(log: Log): seq<Stamped> {
    var gone := |log.delivered| + |log.discarded|;
    if gone <= |log.accepted| then log.accepted[gone..] else []
  }

  function AsSeq(mail: Option<Stamped>): seq<Stamped> {
    if mail.Some? then [mail.value] else []
  }

  predicate HasOp(messages: seq<Stamped>, op: nat) {
    exists i :: 0 <= i < |messages| && messages[i].op == op
  }

  /** Send call `op` entered some mailbox. */
  ghost predicate Accepted(logs: map<nat, Log>, op: nat) {
    exists id :: id in logs && HasOp(logs[id].accepted, op)
  }

  /** Receive call `op` took message `st`. */
  ghost predicate TakenBy(logs: map<nat, Log>, op: nat, st: Stamped) {
    exists id :: id in logs && Delivery(op, st) in logs[id].delivered
  }

  ghost predicate LogsOk(s: Sys) {
    LogsFine(s.logs, s.nextOp, s.nextEndpoint)
  }

  ghost predicate LogsFine(logs: map<nat, Log>, nextOp: nat, nextEndpoint: nat) {
    && (forall id :: id in logs ==> LogOk(logs[id]) && (nextEndpoint == 0 || id < nextEndpoint))
    && (forall id, i :: id in logs && 0 <= i < |logs[id].accepted| ==> logs[id].accepted[i].op < nextOp)
    && (forall id, i :: id in logs && 0 <= i < |logs[id].delivered| ==> logs[id].delivered[i].taker < nextOp)
    && (forall id, id', op ::
          id in logs && id' in logs && HasOp(logs[id].accepted, op) && HasOp(logs[id'].accepted, op) ==> id == id')
  }

  /** The mailbox holds exactly what is outstanding, and a staged message is
      younger than everything accepted before it. */
  predicate BoxOk(s: Sys, e: nat)
    requires Live(s.endpoints, e)
  {
    var x := s.endpoints[e].value;
    && x.id in s.logs && LogOk(s.logs[x.id])
    && Outstanding(s.logs[x.id]) == AsSeq(x.mail)
    && (!x.closed ==> s.logs[x.id].discarded == [])
    && (x.staged.Some? ==>
          && (forall i :: 0 <= i < |s.logs[x.id].accepted| ==> s.logs[x.id].accepted[i].op < x.staged.value.op)
          && x.sender.Some? && Live(s.threads, x.sender.value.thread)
          && s.threads[x.sender.value.thread].value.call.Some?
          && s.threads[x.sender.value.thread].value.call.value.op == x.staged.value.op)
  }

  /** A call in progress has no reply yet; a send has entered a mailbox exactly
      when its wait is completed, and a receive has taken nothing. */
  ghost predicate CallOk(s: Sys, t: nat)
    requires Live(s.threads, t)
  {
    var x := s.threads[t].value;
    x.call.Some? ==>
      var c := x.call.value;
      && x.wait.Some? && c.op < s.nextOp && c.op !in s.replies
      && (Accepted(s.logs, c.op) <==> c.kind == Send && x.wait.value.result == Completed)
      && (forall st :: !TakenBy(s.logs, c.op, st))
  }

  /** A finished send says it was sent exactly when its message entered the
      mailbox; a finished receive returns exactly the message it took. */
  ghost predicate ReplyOk(s: Sys, op: nat)
    requires op in s.replies
  {
    && op < s.nextOp
    && s.replies[op] != Got(None)
    && (s.replies[op] == Sent <==> Accepted(s.logs, op))
    && (forall st :: s.replies[op] == Got(Some(st)) <==> TakenBy(s.logs, op, st))
  }

  predicate SameCall(s: Sys, u: nat, v: nat)
    requires Live(s.threads, u) && Live(s.threads, v)
  {
    && s.threads[u].value.call.Some? && s.threads[v].value.call.Some?
    && s.threads[u].value.call.value.op == s.threads[v].value.call.value.op
  }

  ghost predicate Homed(s: Sys, id: nat) {
    exists e: nat :: Live(s.endpoints, e) && s.endpoints[e].value.id == id
  }

  /** All of it, except what it says about the calls of the threads in `but`. */
  ghost predicate HistoryBut(s: Sys, but: set<nat>) {
    && LogsOk(s)
    && (forall e: nat :: Live(s.endpoints, e) ==> BoxOk(s, e))
    && (forall e: nat, f: nat :: Live(s.endpoints, e) && Live(s.endpoints, f) && e < f ==>
      s.endpoints[e].value.id != s.endpoints[f].value.id)
    && (forall id :: id in s.logs && Outstanding(s.logs[id]) != [] ==> Homed(s, id))
    && (forall u: nat :: Live(s.threads, u) && u !in but ==> CallOk(s, u))
    && (forall u: nat, v: nat :: Live(s.threads, u) && Live(s.threads, v) && u < v ==> !SameCall(s, u, v))
    && (forall op :: op in s.replies ==> ReplyOk(s, op))
  }

  ghost predicate History(s: Sys) {
    HistoryBut(s, {})
  }

  // -------------------------------------------------- how the logs may change

  lemma AcceptLog(s: Sys, e: nat, st: Stamped)
    requires Live(s.endpoints, e) && s.endpoints[e].value.id in s.logs
    ensures var logs := Accept(s, e, st).logs;
            && (forall o :: Accepted(logs, o) <==> Accepted(s.logs, o) || o == st.op)
            && (forall o, x :: TakenBy(logs, o, x) <==> TakenBy(s.logs, o, x))
  {
    var id := s.endpoints[e].value.id;
    var logs := Accept(s, e, st).logs;
    assert logs[id].accepted == s.logs[id].accepted + [st];
    forall o ensures HasOp(logs[id].accepted, o) <==> HasOp(s.logs[id].accepted, o) || o == st.op {
      HasOpSnoc(s.logs[id].accepted, st, o);
    }
    forall o ensures Accepted(logs, o) <==> Accepted(s.logs, o) || o == st.op {
      if Accepted(s.logs, o) {
        var k :| k in s.logs && HasOp(s.logs[k].accepted, o);
        assert k in logs && HasOp(logs[k].accepted, o);
      }
      if o == st.op {
        assert id in logs && HasOp(logs[id].accepted, o);
      }
      if Accepted(logs, o) {
        var k :| k in logs && HasOp(logs[k].accepted, o);
        assert k != id ==> k in s.logs && HasOp(s.logs[k].accepted, o);
      }
    }
    forall o, x ensures TakenBy(logs, o, x) <==> TakenBy(s.logs, o, x) {
      if TakenBy(s.logs, o, x) {
        var k :| k in s.logs && Delivery(o, x) in s.logs[k].delivered;
        assert k in logs && Delivery(o, x) in logs[k].delivered;
      }
      if TakenBy(logs, o, x) {
        var k :| k in logs && Delivery(o, x) in logs[k].delivered;
        assert k in s.logs && Delivery(o, x) in s.logs[k].delivered;
      }
    }
  }

  lemma HasOpSnoc(messages: seq<Stamped>, st: Stamped, op: nat)
    ensures HasOp(messages + [st], op) <==> HasOp(messages, op) || op == st.op
  {
    if HasOp(messages, op) {
      var i :| 0 <= i < |messages| && messages[i].op == op;
      assert (messages + [st])[i].op == op;
    }
    if op == st.op {
      assert (messages + [st])[|messages|].op == op;
    }
  }

  lemma DeliverLog(s: Sys, e: nat, op: nat)
    requires Live(s.endpoints, e) && s.endpoints[e].value.id in s.logs && s.endpoints[e].value.mail.Some?
    ensures var logs := Deliver(s, e, op).logs;
            && (forall o :: Accepted(logs, o) <==> Accepted(s.logs, o))
            && (forall o, x :: TakenBy(logs, o, x) <==>
              TakenBy(s.logs, o, x) || (o == op && x == s.endpoints[e].value.mail.value))
  {
    var id := s.endpoints[e].value.id;
    var logs := Deliver(s, e, op).logs;
    forall o ensures Accepted(logs, o) <==> Accepted(s.logs, o) {
      if Accepted(s.logs, o) {
        var k :| k in s.logs && HasOp(s.logs[k].accepted, o);
        assert k in logs && HasOp(logs[k].accepted, o);
      }
      if Accepted(logs, o) {
        var k :| k in logs && HasOp(logs[k].accepted, o);
        assert k in s.logs && HasOp(s.logs[k].accepted, o);
      }
    }
    forall o, x ensures TakenBy(logs, o, x) <==>
      TakenBy(s.logs, o, x) || (o == op && x == s.endpoints[e].value.mail.value) {
      if TakenBy(s.logs, o, x) {
        var k :| k in s.logs && Delivery(o, x) in s.logs[k].delivered;
        assert k in logs && Delivery(o, x) in logs[k].delivered;
      }
      if o == op && x == s.endpoints[e].value.mail.value {
        assert id in logs && Delivery(o, x) in logs[id].delivered;
      }
      if TakenBy(logs, o, x) {
        var k :| k in logs && Delivery(o, x) in logs[k].delivered;
        assert k != id ==> k in s.logs && Delivery(o, x) in s.logs[k].delivered;
        assert k == id ==>
          Delivery(o, x) in s.logs[id].delivered || Delivery(o, x) == Delivery(op, s.endpoints[e].value.mail.value);
      }
    }
  }

  // --------------------------------------------------------- keeping history

  predicate Uses(s: Sys, u: nat, op: nat)
    requires Live(s.threads, u)
  {
    s.threads[u].value.call.Some? && s.threads[u].value.call.value.op == op
  }

  /** A call number that is in nobody else's hands. */
  ghost predicate Mine(s: Sys, op: nat, but: set<nat>) {
    op < s.nextOp && Unheld(s, op, but)
  }

  ghost predicate Unheld(s: Sys, op: nat, but: set<nat>) {
    && op !in s.replies
    && (forall u: nat :: Live(s.threads, u) && u !in but ==> !Uses(s, u, op))
  }

  /** A box is as it was when its log is and its sender keeps its call. */
  lemma BoxStays(s: Sys, s': Sys, f: nat)
    requires Live(s.endpoints, f) && Live(s'.endpoints, f) && BoxOk(s, f) && s'.logs == s.logs
    requires var x, x' := s.endpoints[f].value, s'.endpoints[f].value;
             && x'.id == x.id && x'.mail == x.mail && x'.closed == x.closed
             && (x'.staged.Some? ==>
                   && x'.staged == x.staged && x'.sender == x.sender && Live(s'.threads, x.sender.value.thread)
                   && s'.threads[x.sender.value.thread].value.call == s.threads[x.sender.value.thread].value.call)
    ensures BoxOk(s', f)
  {
  }

  /** Threads may move as long as the calls, and which sends are completed, stay. */
  ghost predicate SameCalls(s: Sys, s': Sys, but: set<nat>) {
    && (forall u: nat :: Live(s.threads, u) <==> Live(s'.threads, u))
    && (forall u: nat :: Live(s.threads, u) ==>
          var x, x' := s.threads[u].value, s'.threads[u].value;
          && x'.call == x.call && x'.wait.Some? == x.wait.Some?
          && (u !in but && x.wait.Some? ==> (x'.wait.value.result == Completed <==> x.wait.value.result == Completed)))
  }

  lemma ThreadsMove(s: Sys, s': Sys, but: set<nat>)
    requires HistoryBut(s, but) && SameCalls(s, s', but)
    requires s'.endpoints == s.endpoints && s'.logs == s.logs && s'.replies == s.replies && s'.nextOp == s.nextOp
    requires s'.nextEndpoint == s.nextEndpoint
    ensures HistoryBut(s', but)
  {
    hide LogsFine;
    forall e: nat | Live(s'.endpoints, e) ensures BoxOk(s', e) {
      BoxStays(s, s', e);
    }
    forall u: nat | Live(s'.threads, u) && u !in but ensures CallOk(s', u) {
      assert CallOk(s, u);
    }
    forall u: nat, v: nat | Live(s'.threads, u) && Live(s'.threads, v) && u < v ensures !SameCall(s', u, v) {
      assert !SameCall(s, u, v);
    }
    forall id | id in s'.logs && Outstanding(s'.logs[id]) != [] ensures Homed(s', id) {
      assert Homed(s, id);
    }
    forall op | op in s'.replies ensures ReplyOk(s', op) {
      assert ReplyOk(s, op);
    }
  }

  /** The log of one endpoint grows, with its mailbox, while call `op` acts. */
  ghost predicate Grows(s: Sys, s': Sys, e: nat, op: nat) {
    && Live(s.endpoints, e) && Live(s'.endpoints, e) && s.endpoints[e].value.id in s.logs
    && s'.threads == s.threads && s'.replies == s.replies && s'.nextOp == s.nextOp && s'.nextEndpoint == s.nextEndpoint
    && s'.endpoints == s.endpoints[e := s'.endpoints[e]] && s'.endpoints[e].value.id == s.endpoints[e].value.id
    && s'.logs == s.logs[s.endpoints[e].value.id := LogOf(s', s.endpoints[e].value.id)]
    && (forall o :: o != op ==> (Accepted(s'.logs, o) <==> Accepted(s.logs, o)))
    && (forall o, x :: o != op ==> (TakenBy(s'.logs, o, x) <==> TakenBy(s.logs, o, x)))
  }

  lemma GrowthKeeps(s: Sys, s': Sys, e: nat, op: nat, but: set<nat>)
    requires HistoryBut(s, but) && Grows(s, s', e, op) && Unheld(s, op, but)
    requires LogsOk(s') && BoxOk(s', e)
    ensures HistoryBut(s', but)
  {
    hide BoxOk;
    BoxesStay(s, s', e);
    HomesStay(s, s', e);
    HomesKept(s, s', e);
    forall u: nat | Live(s'.threads, u) && u !in but ensures CallOk(s', u) {
      assert CallOk(s, u) && !Uses(s, u, op);
    }
    forall u: nat, v: nat | Live(s'.threads, u) && Live(s'.threads, v) && u < v ensures !SameCall(s', u, v) {
      assert !SameCall(s, u, v);
    }
    forall o | o in s'.replies ensures ReplyOk(s', o) {
      assert ReplyOk(s, o);
    }
  }

  /** The boxes of the other endpoints, and what is still to be received from them. */
  lemma BoxesStay(s: Sys, s': Sys, e: nat)
    requires Live(s.endpoints, e) && Live(s'.endpoints, e) && s'.threads == s.threads
    requires s'.endpoints == s.endpoints[e := s'.endpoints[e]] && s'.endpoints[e].value.id == s.endpoints[e].value.id
    requires s'.logs == s.logs[s.endpoints[e].value.id := LogOf(s', s.endpoints[e].value.id)]
    requires forall f: nat :: Live(s.endpoints, f) ==> BoxOk(s, f)
    requires forall f: nat, g: nat :: Live(s.endpoints, f) && Live(s.endpoints, g) && f < g ==>
               s.endpoints[f].value.id != s.endpoints[g].value.id
    requires BoxOk(s', e)
    ensures forall f: nat :: Live(s'.endpoints, f) ==> BoxOk(s', f)
    ensures forall f: nat, g: nat :: Live(s'.endpoints, f) && Live(s'.endpoints, g) && f < g ==>
              s'.endpoints[f].value.id != s'.endpoints[g].value.id
  {
    forall f: nat | Live(s'.endpoints, f) ensures BoxOk(s', f) {
      assert Live(s.endpoints, f);
      assert BoxOk(s, f);
      if f != e {
        assert s.endpoints[f].value.id != s.endpoints[e].value.id;
      }
    }
  }

  lemma HomesKept(s: Sys, s': Sys, e: nat)
    requires LogsOk(s) && LogsOk(s') && Live(s'.endpoints, e) && Live(s.endpoints, e)
    requires s'.endpoints[e].value.id == s.endpoints[e].value.id
    requires s'.logs == s.logs[s.endpoints[e].value.id := LogOf(s', s.endpoints[e].value.id)]
    requires forall id :: Homed(s, id) ==> Homed(s', id)
    requires forall id :: id in s.logs && Outstanding(s.logs[id]) != [] ==> Homed(s, id)
    ensures forall id :: id in s'.logs && Outstanding(s'.logs[id]) != [] ==> Homed(s', id)
  {
    forall k | k in s'.logs && Outstanding(s'.logs[k]) != [] ensures Homed(s', k) {
      if k == s.endpoints[e].value.id {
        assert Live(s'.endpoints, e);
      } else {
        assert Homed(s, k);
      }
    }
  }

  /** A message enters the mailbox. */
  lemma AcceptKeeps(s: Sys, e: nat, st: Stamped, but: set<nat>)
    requires HistoryBut(s, but) && Live(s.endpoints, e) && Mine(s, st.op, but) && !Accepted(s.logs, st.op)
    requires var x := s.endpoints[e].value;
             && !x.closed && x.mail.None? && x.staged.None?
             && (forall i :: 0 <= i < |LogOf(s, x.id).accepted| ==> LogOf(s, x.id).accepted[i].op < st.op)
    ensures HistoryBut(Accept(s, e, st), but)
    ensures forall o :: Accepted(Accept(s, e, st).logs, o) <==> Accepted(s.logs, o) || o == st.op
    ensures forall o, x :: TakenBy(Accept(s, e, st).logs, o, x) <==> TakenBy(s.logs, o, x)
  {
    hide LogsFine, LogOk;
    var s' := Accept(s, e, st);
    BoxHere(s, e, but);
    AcceptLog(s, e, st);
    AcceptLogsOk(s, e, st);
    GrowthKeeps(s, s', e, st.op, but);
  }

  lemma AcceptLogsOk(s: Sys, e: nat, st: Stamped)
    requires LogsOk(s) && Live(s.endpoints, e) && BoxOk(s, e) && st.op < s.nextOp && !Accepted(s.logs, st.op)
    requires var x := s.endpoints[e].value;
             && !x.closed && x.mail.None? && x.staged.None?
             && (forall i :: 0 <= i < |s.logs[x.id].accepted| ==> s.logs[x.id].accepted[i].op < st.op)
    ensures LogsOk(Accept(s, e, st)) && BoxOk(Accept(s, e, st), e)
  {
    var s' := Accept(s, e, st);
    var id := s.endpoints[e].value.id;
    AcceptedOnce(s.logs, s'.logs, id, st);
    hide HasOp;
    assert s'.logs[id].accepted == s.logs[id].accepted + [st];
    assert LogOk(s'.logs[id]);
  }

  /** One endpoint's log grows by a message that no log has. */
  lemma AcceptedOnce(logs: map<nat, Log>, logs': map<nat, Log>, id: nat, st: Stamped)
    requires id in logs && id in logs' && logs' == logs[id := logs'[id]] &&
      logs'[id].accepted == logs[id].accepted + [st]
    requires !Accepted(logs, st.op)
    requires forall a, b, op :: a in logs && b in logs && HasOp(logs[a].accepted, op) && HasOp(logs[b].accepted, op) ==>
      a == b
    ensures forall a, b, op ::
      a in logs' && b in logs' && HasOp(logs'[a].accepted, op) && HasOp(logs'[b].accepted, op) ==> a == b
  {
    forall a, b, op | a in logs' && b in logs' && HasOp(logs'[a].accepted, op) && HasOp(logs'[b].accepted, op)
      ensures a == b
    {
      HasOpSnoc(logs[id].accepted, st, op);
      assert op == st.op && a != id ==> Accepted(logs, op);
      assert op == st.op && b != id ==> Accepted(logs, op);
    }
  }

  /** Receive call `op` takes the mailbox message. */
  lemma DeliverKeeps(s: Sys, e: nat, op: nat, but: set<nat>)
    requires HistoryBut(s, but) && Live(s.endpoints, e) && Mine(s, op, but)
    requires !s.endpoints[e].value.closed && s.endpoints[e].value.mail.Some?
    ensures HistoryBut(Deliver(s, e, op), but)
    ensures forall o :: Accepted(Deliver(s, e, op).logs, o) <==> Accepted(s.logs, o)
    ensures forall o, x :: TakenBy(Deliver(s, e, op).logs, o, x) <==>
      TakenBy(s.logs, o, x) || (o == op && x == s.endpoints[e].value.mail.value)
  {
    hide LogsFine, LogOk;
    BoxHere(s, e, but);
    DeliverLog(s, e, op);
    DeliverLogsOk(s, e, op);
    GrowthKeeps(s, Deliver(s, e, op), e, op, but);
  }

  lemma BoxHere(s: Sys, e: nat, but: set<nat>)
    requires HistoryBut(s, but) && Live(s.endpoints, e)
    ensures LogsOk(s) && BoxOk(s, e)
  {
  }

  lemma DeliverLogsOk(s: Sys, e: nat, op: nat)
    requires LogsOk(s) && Live(s.endpoints, e) && BoxOk(s, e) && op < s.nextOp
    requires !s.endpoints[e].value.closed && s.endpoints[e].value.mail.Some?
    ensures LogsOk(Deliver(s, e, op)) && BoxOk(Deliver(s, e, op), e)
  {
    var s' := Deliver(s, e, op);
    var x := s.endpoints[e].value;
    var log, log' := s.logs[x.id], s'.logs[x.id];
    assert log.discarded == [] && log'.accepted == log.accepted && log'.discarded == [];
    assert x.mail.value == Outstanding(log)[0] == log.accepted[|log.delivered|];
    assert LogOk(log');
    assert Outstanding(log') == Outstanding(log)[1..] == [];
  }

  /** Staged messages may be dropped and seats may change hands, as long as what is
      staged still belongs to the sender's call. */
  ghost predicate SameMail(s: Sys, s': Sys, e: nat) {
    && Live(s.endpoints, e) && Live(s'.endpoints, e)
    && s'.endpoints == s.endpoints[e := s'.endpoints[e]]
    && s'.endpoints[e].value.id == s.endpoints[e].value.id && s'.endpoints[e].value.mail == s.endpoints[e].value.mail
    && s'.endpoints[e].value.closed == s.endpoints[e].value.closed
    && s'.logs == s.logs && s'.replies == s.replies && s'.nextOp == s.nextOp && s'.nextEndpoint == s.nextEndpoint
  }

  lemma SeatMoves(s: Sys, s': Sys, e: nat, but: set<nat>)
    requires HistoryBut(s, but) && SameMail(s, s', e) && BoxOk(s', e) && SameCalls(s, s', but)
    ensures HistoryBut(s', but)
  {
    hide LogsFine;
    SeatBoxes(s, s', e, but);
    forall u: nat | Live(s'.threads, u) && u !in but ensures CallOk(s', u) {
      assert CallOk(s, u);
    }
    forall u: nat, v: nat | Live(s'.threads, u) && Live(s'.threads, v) && u < v ensures !SameCall(s', u, v) {
      assert !SameCall(s, u, v);
    }
    HomesStay(s, s', e);
    forall o | o in s'.replies ensures ReplyOk(s', o) {
      assert ReplyOk(s, o);
    }
  }

  lemma SeatBoxes(s: Sys, s': Sys, e: nat, but: set<nat>)
    requires SameMail(s, s', e) && SameCalls(s, s', but)
    requires forall f: nat :: Live(s.endpoints, f) ==> BoxOk(s, f)
    requires BoxOk(s', e)
    ensures forall f: nat :: Live(s'.endpoints, f) ==> BoxOk(s', f)
  {
    forall f: nat | Live(s'.endpoints, f) ensures BoxOk(s', f) {
      if f != e {
        BoxStays(s, s', f);
      }
    }
  }

  lemma HomesStay(s: Sys, s': Sys, e: nat)
    requires Live(s.endpoints, e) && Live(s'.endpoints, e) && s'.endpoints == s.endpoints[e := s'.endpoints[e]]
    requires s'.endpoints[e].value.id == s.endpoints[e].value.id
    ensures forall id :: Homed(s, id) ==> Homed(s', id)
  {
    forall id | Homed(s, id) ensures Homed(s', id) {
      var f: nat :| Live(s.endpoints, f) && s.endpoints[f].value.id == id;
      assert Live(s'.endpoints, f) && s'.endpoints[f].value.id == id;
    }
  }

  /** Thread `t` drops its call and its seat at `e`. */
  lemma LeavingKeeps(s: Sys, s': Sys, e: nat, t: nat, but: set<nat>)
    requires HistoryBut(s, but) && SameMail(s, s', e) && Live(s.threads, t) && Live(s'.threads, t)
    requires |s'.threads| == |s.threads| && s'.threads == s.threads[t := s'.threads[t]] &&
      s'.threads[t].value.call.None?
    requires forall f: nat :: Live(s'.endpoints, f) ==> BoxOk(s', f)
    ensures HistoryBut(s', but - {t})
  {
    hide BoxOk, LogsFine;
    forall u: nat | Live(s'.threads, u) && u !in but - {t} ensures CallOk(s', u) {
      assert u != t ==> CallOk(s, u);
    }
    forall u: nat, v: nat | Live(s'.threads, u) && Live(s'.threads, v) && u < v ensures !SameCall(s', u, v) {
      assert !SameCall(s, u, v);
    }
    HomesStay(s, s', e);
    forall o | o in s'.replies ensures ReplyOk(s', o) {
      assert ReplyOk(s, o);
    }
  }

  /** The call returns with the truth about itself. */
  lemma AnswerKeeps(s: Sys, op: nat, reply: Reply)
    requires History(s) && Mine(s, op, {})
    requires reply != Got(None)
    requires reply == Sent <==> Accepted(s.logs, op)
    requires forall st :: reply == Got(Some(st)) <==> TakenBy(s.logs, op, st)
    ensures History(Answer(s, op, reply))
  {
    hide LogsFine;
    var s' := Answer(s, op, reply);
    forall e: nat | Live(s'.endpoints, e) ensures BoxOk(s', e) {
      assert BoxOk(s, e);
    }
    forall u: nat | Live(s'.threads, u) ensures CallOk(s', u) {
      assert CallOk(s, u) && !Uses(s, u, op);
    }
    forall u: nat, v: nat | Live(s'.threads, u) && Live(s'.threads, v) && u < v ensures !SameCall(s', u, v) {
      assert !SameCall(s, u, v);
    }
    forall id | id in s'.logs && Outstanding(s'.logs[id]) != [] ensures Homed(s', id) {
      assert Homed(s, id);
    }
    forall o | o in s'.replies ensures ReplyOk(s', o) {
      assert o != op ==> ReplyOk(s, o);
    }
  }

  /** A close throws the mailbox away. */
  lemma DiscardKeeps(s: Sys, e: nat, but: set<nat>)
    requires HistoryBut(s, but) && Live(s.endpoints, e) && !s.endpoints[e].value.closed
    ensures HistoryBut(Discard(s, e), but)
    ensures forall o :: Accepted(Discard(s, e).logs, o) <==> Accepted(s.logs, o)
    ensures forall o, x :: TakenBy(Discard(s, e).logs, o, x) <==> TakenBy(s.logs, o, x)
  {
    hide LogsFine, LogOk;
    var s' := Discard(s, e);
    BoxHere(s, e, but);
    DiscardLogsOk(s, e);
    SameLogs(s.logs, s'.logs);
    NextIsUnheld(s, but);
    GrowthKeeps(s, s', e, s.nextOp, but);
  }

  lemma NextIsUnheld(s: Sys, but: set<nat>)
    requires HistoryBut(s, but)
    ensures Unheld(s, s.nextOp, but)
  {
    hide LogsFine, BoxOk;
    forall u: nat | Live(s.threads, u) && u !in but ensures !Uses(s, u, s.nextOp) {
      assert CallOk(s, u);
    }
    assert s.nextOp in s.replies ==> ReplyOk(s, s.nextOp);
  }

  lemma DiscardLogsOk(s: Sys, e: nat)
    requires LogsOk(s) && Live(s.endpoints, e) && BoxOk(s, e) && !s.endpoints[e].value.closed
    ensures LogsOk(Discard(s, e)) && BoxOk(Discard(s, e), e)
  {
    var s' := Discard(s, e);
    var x := s.endpoints[e].value;
    var log, log' := s.logs[x.id], s'.logs[x.id];
    assert log'.discarded == Outstanding(log);
    assert LogOk(log') && Outstanding(log') == [];
  }

  lemma SameLogs(logs: map<nat, Log>, logs': map<nat, Log>)
    requires logs'.Keys == logs.Keys
    requires forall id :: id in logs ==>
      logs'[id].accepted == logs[id].accepted && logs'[id].delivered == logs[id].delivered
    ensures forall o :: Accepted(logs', o) <==> Accepted(logs, o)
    ensures forall o, x :: TakenBy(logs', o, x) <==> TakenBy(logs, o, x)
  {
    forall o ensures Accepted(logs', o) <==> Accepted(logs, o) {
      if Accepted(logs, o) {
        var k :| k in logs && HasOp(logs[k].accepted, o);
        assert k in logs' && HasOp(logs'[k].accepted, o);
      }
    }
    forall o, x ensures TakenBy(logs', o, x) <==> TakenBy(logs, o, x) {
      if TakenBy(logs, o, x) {
        var k :| k in logs && Delivery(o, x) in logs[k].delivered;
        assert k in logs' && Delivery(o, x) in logs'[k].delivered;
      }
    }
  }
}
