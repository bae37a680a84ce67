/**
 The message system as the kernel keeps it: endpoint and thread fields and the
 timed-wait table, updated in place. Each stretch of kernel code is proved to
 make the step of the corresponding function.
 */
module IpcKernel {
  import opened Slots
  import opened IpcModel
  import opened IpcInvariant
  import opened IpcTimers
  import opened IpcCalls

  predicate Took(step: Option<Sys>, was: Sys, now: Sys, ok: bool) {
    ok == step.Some? && now == (if ok then step.value else was)
  }

  class Ipc {
    var threads: Registry<Thread>
    var current: Option<nat>
    var endpoints: Registry<Endpoint>
    var timed: Registry<Timed>
    var nextWait: nat
    var nextEndpoint: nat
    var nextThread: nat
    var time: nat
    var polled: nat
    var late: bool
    var nextOp: nat
    var logs: map<nat, Log>
    var replies: map<nat, Reply>

    function View(): Sys
      reads this
    {
      Sys(threads, current, endpoints, timed, nextWait, nextEndpoint, nextThread, time, polled, late, nextOp, logs,
        replies)
    }

    // ------------------------------------------------------------ primitives

    method WakeUp(t: nat) returns (ok: bool)
      modifies `threads
      ensures Took(MakeReady(old(View()), t), old(View()), View(), ok)
    {
      if !Live(threads, t) || !Schedulable(View(), t) {
        return false;
      }
      if threads[t].value.state == Blocked {
        threads := threads[t := Some(threads[t].value.(state := Ready))];
      }
      return true;
    }

    method Settle(t: nat, kind: Kind, e: nat, id: nat, result: WaitResult) returns (ok: bool)
      modifies `threads
      ensures Took(TryComplete(old(View()), t, kind, e, id, result), old(View()), View(), ok)
    {
      ok := result != Pending && Matches(View(), t, kind, e, id) && threads[t].value.wait.value.result == Pending &&
        Schedulable(View(), t);
      if ok {
        threads := threads[t := Some(threads[t].value.(wait := Some(threads[t].value.wait.value.(result := result))))];
      }
    }

    method SetEndpoint(e: nat, x: Endpoint)
      requires e < |endpoints|
      modifies `endpoints
      ensures View() == PutEndpoint(old(View()), e, x)
    {
      endpoints := endpoints[e := Some(x)];
    }

    // ------------------------------------------------------- send and receive

    /** The message goes into the mailbox before the waiting receiver is woken; the
        kernel's rollback for a receiver that cannot be woken is unreachable. */
    method Deposit(e: nat, st: Stamped) returns (r: Outcome)
      modifies `threads, `endpoints, `logs
      ensures (View(), r) == SendLocked(old(View()), e, st)
    {
      if !Live(endpoints, e) || !ValidMessage(st.message) || endpoints[e].value.closed ||
        endpoints[e].value.mail.Some? ||
         !Reserved(View(), e, Receive)
      {
        return Refused;
      }
      var receiver := endpoints[e].value.receiver;
      if receiver.Some? && !Waiting(View(), receiver.value.thread, Pending) {
        return Refused;
      }
      var before := endpoints[e].value;
      SetEndpoint(e, before.(mail := Some(st)));
      if receiver.Some? {
        var ok := WakeUp(receiver.value.thread);
        assert ok;
      }
      logs := logs[before.id := LogOf(View(), before.id).(accepted := LogOf(View(), before.id).accepted + [st])];
      return Done;
    }

    method Collect(e: nat, op: nat) returns (r: Outcome)
      modifies `threads, `endpoints, `logs
      ensures (View(), r) == ReceiveLocked(old(View()), e, op)
    {
      if !Live(endpoints, e) || endpoints[e].value.closed || !Reserved(View(), e, Receive) ||
        !Reserved(View(), e, Send) {
        return Refused;
      }
      var x := endpoints[e].value;
      if x.receiver.Some? &&
        (current != Some(x.receiver.value.thread) || !Waiting(View(), x.receiver.value.thread, Pending)) {
        return Refused;
      }
      if x.mail.None? {
        return Refused;
      }
      var pending := x.sender.Some? && Waiting(View(), x.sender.value.thread, Pending);
      if x.staged.Some? != pending {
        return Refused;
      }
      if x.staged.Some? {
        r := CollectStaged(e, op);
      } else {
        Take(e, op);
        return Done;
      }
    }

    method Take(e: nat, op: nat)
      requires Live(endpoints, e) && endpoints[e].value.mail.Some?
      modifies `endpoints, `logs
      ensures View() == Deliver(old(View()), e, op)
    {
      var x := endpoints[e].value;
      var log := LogOf(View(), x.id);
      logs := logs[x.id := log.(delivered := log.delivered + [Delivery(op, x.mail.value)])];
      endpoints := endpoints[e := Some(x.(mail := None))];
    }

    method CollectStaged(e: nat, op: nat) returns (r: Outcome)
      requires Live(endpoints, e) && endpoints[e].value.mail.Some? && endpoints[e].value.staged.Some?
      requires endpoints[e].value.sender.Some?
      modifies `threads, `endpoints, `logs
      ensures (View(), r) == MoveUp(old(View()), e, op)
    {
      var x := endpoints[e].value;
      var ok := WakeUp(x.sender.value.thread);
      if !ok {
        return Refused;
      }
      ok := Settle(x.sender.value.thread, Send, e, x.sender.value.id, Completed);
      if !ok {
        return Halt;
      }
      Take(e, op);
      var log := LogOf(View(), x.id);
      logs := logs[x.id := log.(accepted := log.accepted + [x.staged.value])];
      SetEndpoint(e, endpoints[e].value.(mail := x.staged, staged := None));
      assert endpoints == MoveUp(old(View()), e, op).0.endpoints;
      return Done;
    }

    // ----------------------------------------------------------- timed waits

    /** One scan both finds the first empty slot and rules out a duplicate. */
    method Enter(t: nat, e: nat, kind: Kind, id: nat, ticks: nat) returns (ok: bool)
      requires Live(endpoints, e)
      modifies `timed
      ensures Took(Register(old(View()), t, e, kind, id, ticks), old(View()), View(), ok)
    {
      if ticks == 0 || ticks > TIMEOUT_MAX || !Matches(View(), t, kind, e, id) {
        return false;
      }
      var empty := |timed|;
      var i := 0;
      while i < |timed|
        invariant 0 <= i <= |timed|
        invariant if empty == |timed| then EmptyFrom(timed, 0) == EmptyFrom(timed, i)
          else empty == EmptyFrom(timed, 0) && empty < |timed|
        invariant !Duplicate(timed[..i], t, e, kind, id)
        invariant timed == old(timed)
      {
        assert timed[..i + 1] == timed[..i] + [timed[i]];
        if timed[i].None? {
          if empty == |timed| {
            empty := i;
          }
        } else if timed[i].value.thread == t ||
                  (timed[i].value.endpoint == e && timed[i].value.kind == kind && timed[i].value.id == id) {
          return false;
        }
        i := i + 1;
      }
      assert timed[..|timed|] == timed;
      if empty == |timed| {
        return false;
      }
      timed := timed[empty := Some(Timed(t, threads[t].value.id, e, endpoints[e].value.id, kind, id,
                                         (time % U64 + ticks) % U64, time, ticks))];
      return true;
    }

    method Remove(t: nat, e: nat, kind: Kind, id: nat) returns (ok: bool)
      modifies `timed
      ensures Took(Unregister(old(View()), t, e, kind, id), old(View()), View(), ok)
    {
      var i := 0;
      while i < |timed|
        invariant 0 <= i <= |timed| && timed == old(timed)
        invariant Find(timed, 0, t, e, kind, id) == Find(timed, i, t, e, kind, id)
      {
        if Names(timed[i], t, e, kind, id) {
          timed := timed[i := None];
          return true;
        }
        i := i + 1;
      }
      return false;
    }

    /** `ipc_timeout_poll` at the current tick count, whenever it is called. */
    method Poll() returns (r: Outcome)
      modifies `threads, `endpoints, `polled, `late
      ensures (View(), r) == PollAll(old(View()))
    {
      late := late || time > polled + HALF;
      polled := time;
      var i := 0;
      while i < |timed|
        invariant 0 <= i <= |timed|
        invariant PollAll(old(View())) == PollFrom(View(), i)
      {
        if timed[i].Some? {
          r := PollEntry(i);
          if r != Done {
            return;
          }
        }
        i := i + 1;
      }
      return Done;
    }

    method PollEntry(i: nat) returns (r: Outcome)
      requires Live(timed, i)
      modifies `threads, `endpoints
      ensures (View(), r) == PollSlot(old(View()), i)
    {
      var x := timed[i].value;
      if !Live(threads, x.thread) || !Live(endpoints, x.endpoint) || threads[x.thread].value.id != x.threadId ||
         endpoints[x.endpoint].value.id != x.endpointId || !Matches(View(), x.thread, x.kind, x.endpoint, x.id) ||
         !Reserved(View(), x.endpoint, x.kind)
      {
        return Halt;
      }
      if !Waiting(View(), x.thread, Pending) || !Reached(time % U64, x.deadline) {
        return Done;
      }
      if x.kind == Send && endpoints[x.endpoint].value.staged.None? {
        return Halt;
      }
      var ok := Settle(x.thread, x.kind, x.endpoint, x.id, TimedOut);
      if !ok {
        return Halt;
      }
      if x.kind == Send {
        SetEndpoint(x.endpoint, endpoints[x.endpoint].value.(staged := None));
      }
      ok := WakeUp(x.thread);
      return if ok then Done else Halt;
    }

    // ---------------------------------------------------------- blocking calls

    method Return(op: nat, reply: Reply)
      modifies `replies
      ensures View() == Answer(old(View()), op, reply)
    {
      replies := replies[op := reply];
    }

    method Release(t: nat, c: Call) returns (ok: bool)
      modifies `threads, `endpoints, `timed
      ensures ok == EndReservation(old(View()), t, c).Some?
      ensures ok ==> View() == EndReservation(old(View()), t, c).value
    {
      if !Live(endpoints, c.endpoint) || !Matches(View(), t, c.kind, c.endpoint, c.id) ||
        !Reserved(View(), c.endpoint, c.kind) {
        return false;
      }
      if c.timed {
        ok := Remove(t, c.endpoint, c.kind, c.id);
        if !ok {
          return false;
        }
      }
      if current != Some(t) || threads[t].value.state != Running || Waiting(View(), t, Pending) {
        return false;
      }
      threads := threads[t := Some(threads[t].value.(wait := None, call := None))];
      var x := endpoints[c.endpoint].value;
      if c.kind == Receive {
        SetEndpoint(c.endpoint, x.(receiver := None));
      } else {
        SetEndpoint(c.endpoint, x.(sender := None, staged := None));
      }
      return true;
    }

    method Finish(t: nat, c: Call, content: Option<Stamped>) returns (r: Outcome)
      requires Leave(View(), t, c, content).1 == Done
      modifies `threads, `endpoints, `timed, `replies
      ensures (View(), r) == Leave(old(View()), t, c, content)
    {
      if !Live(endpoints, c.endpoint) {
        return Halt;
      }
      var done := Waiting(View(), t, Completed);
      if c.kind == Send && done && endpoints[c.endpoint].value.staged.Some? {
        return Halt;
      }
      var ok := Release(t, c);
      if !ok {
        return Halt;
      }
      if c.kind == Send {
        Return(c.op, if done then Sent else NotSent);
      } else {
        Return(c.op, if done then Got(content) else GotNothing);
      }
      return Done;
    }

    method SettleAndFinish(t: nat, c: Call, result: WaitResult, content: Option<Stamped>) returns (r: Outcome)
      requires FinishAndLeave(View(), t, c, result, content).1 == Done
      modifies `threads, `endpoints, `timed, `replies
      ensures (View(), r) == FinishAndLeave(old(View()), t, c, result, content)
    {
      hide Leave;
      var ok := Settle(t, c.kind, c.endpoint, c.id, result);
      r := Finish(t, c, content);
    }

    /** One turn of the wait loop, up to giving up the processor or returning. */
    method Turn(t: nat, park: Park) returns (r: Outcome)
      requires Inv(View()) && Parked(View(), t) && current == Some(t)
      modifies this
      ensures (View(), r) == WaitLoop(old(View()), t, old(threads[t].value.call.value), park)
    {
      hide Linked, TableOk, Leave, FinishAndLeave, ReceiveLocked;
      var c := threads[t].value.call.value;
      ThreadHere(View(), t);
      AlwaysReserved(View(), c.endpoint, c.kind);
      EndpointHere(View(), c.endpoint);
      if !Waiting(View(), t, Pending) {
        LeaveEffect(View(), t, None);
        r := Finish(t, c, None);
      } else if c.kind == Receive && endpoints[c.endpoint].value.mail.Some? {
        var content := endpoints[c.endpoint].value.mail;
        ReceiveKeepsCall(View(), t);
        r := Collect(c.endpoint, c.op);
        FinishEffect(View(), t, if r == Done then Completed else Cancelled, if r == Done then content else None);
        r := SettleAndFinish(t, c, if r == Done then Completed else Cancelled, if r == Done then content else None);
      } else {
        match park {
          case Blocks =>
            threads := threads[t := Some(threads[t].value.(state := Blocked))];
            current := None;
            r := Done;
          case Idles =>
            r := Done;
          case Fails =>
            FinishEffect(View(), t, Cancelled, None);
            r := SettleAndFinish(t, c, Cancelled, None);
        }
      }
    }

    method Continue(park: Park) returns (r: Outcome)
      requires Inv(View())
      modifies this
      ensures (View(), r) == Resume(old(View()), park)
    {
      if current.None? || !Live(threads, current.value) || threads[current.value].value.call.None? {
        return Refused;
      }
      ThreadHere(View(), current.value);
      hide Inv;
      r := Turn(current.value, park);
    }

    method TakeSeat(t: nat, kind: Kind, e: nat, st: Option<Stamped>, isTimed: bool, op: nat) returns (ok: bool)
      requires Live(endpoints, e)
      modifies `threads, `endpoints, `nextWait
      ensures Took(Reserve(old(View()), t, kind, e, st, isTimed, op), old(View()), View(), ok)
    {
      var x := endpoints[e].value;
      if SeatAt(x, kind).Some? || (kind == Send && x.staged.Some?) || !CanCall(View(), t) ||
        threads[t].value.wait.Some? ||
         nextWait == 0
      {
        return false;
      }
      var id := nextWait;
      nextWait := (id + 1) % U64;
      threads := threads[t := Some(threads[t].value.(wait := Some(Wait(kind, e, id, Pending)),
                                                     call := Some(Call(kind, e, id, isTimed, op))))];
      if kind == Receive {
        SetEndpoint(e, x.(receiver := Some(Seat(t, id))));
      } else {
        SetEndpoint(e, x.(sender := Some(Seat(t, id)), staged := st));
      }
      return true;
    }

    /** Reserve, register the timeout, and enter the wait loop. The kernel's exit for
        a full timed-wait table is never taken. */
    method StartWait(t: nat, kind: Kind, e: nat, st: Option<Stamped>, timeout: Option<nat>, op: nat,
        park: Park) returns (r: Outcome)
      requires Inv(View()) && Admissible(View(), kind, e, st) && TimeoutOk(timeout)
      modifies this
      ensures (View(), r) == Begin(old(View()), t, kind, e, st, timeout, op, park)
    {
      hide Linked, EntriesOk, Reserve, Register, WaitLoop;
      ghost var s := View();
      var ok := TakeSeat(t, kind, e, st, timeout.Some?, op);
      if !ok {
        Return(op, if kind == Send then NotSent else GotNothing);
        return Done;
      }
      ReserveLinked(s, t, kind, e, st, timeout.Some?, op);
      ReserveTable(s, t, kind, e, st, timeout.Some?, op);
      ReserveFacts(s, t, kind, e, st, timeout.Some?, op);
      if timeout.Some? {
        TableHasRoom(s, e, kind);
        RegisterSucceeds(View(), t, e, kind, timeout.value);
        RegisterInv(View(), t, timeout.value);
        RegisterFacts(View(), t, e, kind, threads[t].value.call.value.id, timeout.value);
        ok := Enter(t, e, kind, threads[t].value.call.value.id, timeout.value);
      } else {
        UntimedInv(View(), t);
      }
      r := Turn(t, park);
    }

    method BlockingSend(resolved: Option<nat>, m: Message, timeout: Option<nat>, park: Park) returns (r: Outcome)
      requires Inv(View())
      modifies this
      ensures (View(), r) == SendBlocking(old(View()), resolved, m, timeout, park)
    {
      hide Inv, SendLocked, Begin;
      if current.None? || !CanCall(View(), current.value) {
        return Refused;
      }
      var op := nextOp;
      nextOp := op + 1;
      HistoryIgnored(old(View()), View());
      if !ValidMessage(m) || !TimeoutOk(timeout) || resolved.None? || !Live(endpoints, resolved.value) ||
         endpoints[resolved.value].value.closed
      {
        Return(op, NotSent);
        return Done;
      }
      if endpoints[resolved.value].value.mail.None? {
        r := Deposit(resolved.value, Stamped(op, m));
        if r != Halt {
          Return(op, if r == Done then Sent else NotSent);
          r := Done;
        }
      } else {
        r := StartWait(current.value, Send, resolved.value, Some(Stamped(op, m)), timeout, op, park);
      }
    }

    method BlockingReceive(resolved: Option<nat>, timeout: Option<nat>, park: Park) returns (r: Outcome)
      requires Inv(View())
      modifies this
      ensures (View(), r) == ReceiveBlocking(old(View()), resolved, timeout, park)
    {
      hide Inv, ReceiveLocked, Begin;
      if current.None? || !CanCall(View(), current.value) {
        return Refused;
      }
      var op := nextOp;
      nextOp := op + 1;
      HistoryIgnored(old(View()), View());
      if !TimeoutOk(timeout) || resolved.None? || !Live(endpoints, resolved.value) ||
        endpoints[resolved.value].value.closed {
        Return(op, GotNothing);
        return Done;
      }
      var content := endpoints[resolved.value].value.mail;
      if content.Some? {
        r := Collect(resolved.value, op);
        if r != Halt {
          Return(op, if r == Done then Got(content) else GotNothing);
          r := Done;
        }
      } else {
        r := StartWait(current.value, Receive, resolved.value, None, timeout, op, park);
      }
    }

    // ------------------------------------------------------------ abort and close

    method AbortWait(t: nat) returns (r: Outcome)
      modifies `threads, `endpoints, `timed
      ensures (View(), r) == Abort(old(View()), t)
    {
      if current == Some(t) || !Live(threads, t) || threads[t].value.wait.None? ||
         (threads[t].value.state != Blocked && threads[t].value.state != Ready)
      {
        return Refused;
      }
      var w := threads[t].value.wait.value;
      if !Live(endpoints, w.endpoint) || !Reserved(View(), w.endpoint, w.kind) ||
        SeatAt(endpoints[w.endpoint].value, w.kind).None? ||
         SeatAt(endpoints[w.endpoint].value, w.kind).value.thread != t
      {
        return Refused;
      }
      var ignored := Remove(t, w.endpoint, w.kind, w.id);
      threads := threads[t := Some(threads[t].value.(wait := None, call := None, state := Dead))];
      var x := endpoints[w.endpoint].value;
      if w.kind == Receive {
        SetEndpoint(w.endpoint, x.(receiver := None));
      } else {
        SetEndpoint(w.endpoint, x.(sender := None, staged := None));
      }
      return Done;
    }

    method ReleaseSeat(e: nat, kind: Kind) returns (r: Outcome)
      requires Live(endpoints, e)
      modifies `threads
      ensures (View(), r) == CloseSeat(old(View()), e, kind)
    {
      var seat := SeatAt(endpoints[e].value, kind);
      if seat.None? {
        return Done;
      }
      if Waiting(View(), seat.value.thread, Pending) {
        var ok := Settle(seat.value.thread, kind, e, seat.value.id, PeerClosed);
        if !ok {
          return Halt;
        }
      }
      var ok := WakeUp(seat.value.thread);
      return if ok then Done else Halt;
    }

    method CloseEndpoint(e: nat) returns (r: Outcome)
      modifies `threads, `endpoints, `logs
      ensures (View(), r) == Close(old(View()), e)
    {
      if !Live(endpoints, e) || endpoints[e].value.closed || !Reserved(View(), e, Receive) ||
        !Reserved(View(), e, Send) {
        return Refused;
      }
      var x := endpoints[e].value;
      if x.staged.Some? != (x.sender.Some? && Waiting(View(), x.sender.value.thread, Pending)) {
        return Refused;
      }
      var log := LogOf(View(), x.id);
      logs := logs[x.id := log.(discarded := log.discarded + if x.mail.Some? then [x.mail.value] else [])];
      SetEndpoint(e, x.(closed := true, staged := None, mail := None));
      r := ReleaseSeat(e, Receive);
      if r != Done {
        return Halt;
      }
      r := ReleaseSeat(e, Send);
    }
  }
}
