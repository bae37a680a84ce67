/**
 Synchronous message passing (kernel/ipc.c, kernel/endpoint.c): endpoints with a
 one-message mailbox, one waiting receiver and one waiting sender whose message
 is staged, timed waits, abort and close.

 A blocking call is split where the thread gives up the processor: one step
 reserves the endpoint and parks, a later step resumes the same call. Every
 function is one stretch of kernel code that runs with interrupts disabled.
 Capability lookups are parameters. Every send and receive call gets a number,
 and the log of each endpoint records what entered its mailbox, who received
 it, and what a close threw away; both are history.
 */
module IpcModel {
  import opened Slots

  const ENDPOINTS: nat := 256
  const TIMED_WAITS: nat := 512
  const THREADS: nat := 512
  const MAX_WORDS: nat := 4
  const U64: nat := 0x1_0000_0000_0000_0000
  const HALF: nat := 0x8000_0000_0000_0000
  const TIMEOUT_MAX: nat := 0x7FFF_FFFF_FFFF_FFFF

  // -------------------------------------------------------------- data model

  datatype Kind = Receive | Send

  datatype WaitResult = Pending | Completed | Cancelled | PeerClosed | TimedOut

  datatype Wait = Wait(kind: Kind, endpoint: nat, id: nat, result: WaitResult)

  datatype ThreadState = Running | Ready | Blocked | Dead

  /** The locals of a blocking call that has parked. */
  datatype Call = Call(kind: Kind, endpoint: nat, id: nat, timed: bool, op: nat)

  datatype Thread = Thread(id: nat, state: ThreadState, wait: Option<Wait>, call: Option<Call>)

  datatype Message = Message(words: seq<nat>)

  datatype Stamped = Stamped(op: nat, message: Message)

  datatype Seat = Seat(thread: nat, id: nat)

  datatype Endpoint = Endpoint(
    id: nat, mail: Option<Stamped>, receiver: Option<Seat>, sender: Option<Seat>, staged: Option<Stamped>, closed: bool)

  datatype Timed = Timed(
    thread: nat, threadId: nat, endpoint: nat, endpointId: nat, kind: Kind, id: nat, deadline: nat, start: nat,
      ticks: nat)

  datatype Delivery = Delivery(taker: nat, stamped: Stamped)

  datatype Log = Log(accepted: seq<Stamped>, delivered: seq<Delivery>, discarded: seq<Stamped>)

  /** What a finished call returned; a receive that succeeded returns the
      contents of its message buffer, which holds nothing if it was never filled. */
  datatype Reply = Sent | NotSent | Got(content: Option<Stamped>) | GotNothing

  datatype Sys = Sys(
    threads: Registry<Thread>,
    current: Option<nat>,
    endpoints: Registry<Endpoint>,
    timed: Registry<Timed>,
    nextWait: nat,
    nextEndpoint: nat,
    nextThread: nat,
    time: nat,
    polled: nat,
    late: bool,
    nextOp: nat,
    logs: map<nat, Log>,
    replies: map<nat, Reply>)

  datatype Outcome = Done | Refused | Halt

  // ----------------------------------------------------------------- threads

  predicate Matches(s: Sys, t: nat, kind: Kind, e: nat, id: nat) {
    && id != 0 && Live(s.threads, t) && s.threads[t].value.wait.Some?
    && var w := s.threads[t].value.wait.value;
       w.kind == kind && w.endpoint == e && w.id == id
  }

  predicate Schedulable(s: Sys, t: nat)
    requires Live(s.threads, t)
  {
    match s.threads[t].value.state
    case Running => s.current == Some(t)
    case Ready => true
    case Blocked => true
    case Dead => false
  }

  function PutThread(s: Sys, t: nat, x: Thread): Sys
    requires t < |s.threads|
  {
    s.(threads := s.threads[t := Some(x)])
  }

  /** `ipc_make_ready`. */
  function MakeReady(s: Sys, t: nat): Option<Sys> {
    if !Live(s.threads, t) || !Schedulable(s, t) then None
    else if s.threads[t].value.state == Blocked then Some(PutThread(s, t, s.threads[t].value.(state := Ready)))
    else Some(s)
  }

  /** `thread_wait_try_complete`: a pending wait gets its one terminal result. */
  function TryComplete(s: Sys, t: nat, kind: Kind, e: nat, id: nat, result: WaitResult): Option<Sys> {
    if result == Pending || !Matches(s, t, kind, e, id) || s.threads[t].value.wait.value.result != Pending ||
      !Schedulable(s, t)
    then None
    else
      var x := s.threads[t].value;
      Some(PutThread(s, t, x.(wait := Some(x.wait.value.(result := result)))))
  }

  predicate Waiting(s: Sys, t: nat, result: WaitResult) {
    Live(s.threads, t) && s.threads[t].value.wait.Some? && s.threads[t].value.wait.value.result == result
  }

  // --------------------------------------------------------------- endpoints

  predicate ValidMessage(m: Message) {
    0 < |m.words| <= MAX_WORDS
  }

  function SeatAt(x: Endpoint, kind: Kind): Option<Seat> {
    if kind == Receive then x.receiver else x.sender
  }

  /** `ipc_reservation_valid`. */
  predicate Reserved(s: Sys, e: nat, kind: Kind)
    requires Live(s.endpoints, e)
  {
    match SeatAt(s.endpoints[e].value, kind)
    case None => true
    case Some(seat) => Matches(s, seat.thread, kind, e, seat.id) && Schedulable(s, seat.thread)
  }

  function PutEndpoint(s: Sys, e: nat, x: Endpoint): Sys
    requires e < |s.endpoints|
  {
    s.(endpoints := s.endpoints[e := Some(x)])
  }

  function LogOf(s: Sys, id: nat): Log {
    if id in s.logs then s.logs[id] else Log([], [], [])
  }

  /** A message enters the empty mailbox. */
  function Accept(s: Sys, e: nat, st: Stamped): Sys
    requires Live(s.endpoints, e)
  {
    var x := s.endpoints[e].value;
    var log := LogOf(s, x.id);
    PutEndpoint(s, e, x.(mail := Some(st))).(logs := s.logs[x.id := log.(accepted := log.accepted + [st])])
  }

  /** The mailbox message goes to receive call `op`. */
  function Deliver(s: Sys, e: nat, op: nat): Sys
    requires Live(s.endpoints, e) && s.endpoints[e].value.mail.Some?
  {
    var x := s.endpoints[e].value;
    var log := LogOf(s, x.id);
    PutEndpoint(s, e, x.(mail := None))
      .(logs := s.logs[x.id := log.(delivered := log.delivered + [Delivery(op, x.mail.value)])])
  }

  /** `ipc_send_locked`. Waking a receiver is a hint: it still has to consume. */
  function SendLocked(s: Sys, e: nat, st: Stamped): (Sys, Outcome) {
    if !Live(s.endpoints, e) || !ValidMessage(st.message) || s.endpoints[e].value.closed ||
      s.endpoints[e].value.mail.Some? ||
       !Reserved(s, e, Receive)
    then (s, Refused)
    else
      match s.endpoints[e].value.receiver
      case None => (Accept(s, e, st), Done)
      case Some(seat) =>
        if !Waiting(s, seat.thread, Pending) then (s, Refused)
        else
          match MakeReady(s, seat.thread)
          case None => (s, Refused)
          case Some(s1) => (Accept(s1, e, st), Done)
  }

  /** `ipc_receive_locked` for receive call `op` running on thread `current`. A
      staged message moves up into the mailbox, which completes its sender. */
  function ReceiveLocked(s: Sys, e: nat, op: nat): (Sys, Outcome) {
    if !Live(s.endpoints, e) || s.endpoints[e].value.closed || !Reserved(s, e, Receive) ||
      !Reserved(s, e, Send) then (s, Refused)
    else
      var x := s.endpoints[e].value;
      if x.receiver.Some? &&
        (s.current != Some(x.receiver.value.thread) || !Waiting(s, x.receiver.value.thread, Pending)) then
        (s, Refused)
      else if x.mail.None? then (s, Refused)
      else if x.staged.None? then
        if x.sender.Some? && Waiting(s, x.sender.value.thread, Pending) then (s, Refused) else (Deliver(s, e, op), Done)
      else if x.sender.None? || !Waiting(s, x.sender.value.thread, Pending) then (s, Refused)
      else MoveUp(s, e, op)
  }

  function MoveUp(s: Sys, e: nat, op: nat): (Sys, Outcome)
    requires Live(s.endpoints, e) && s.endpoints[e].value.mail.Some? && s.endpoints[e].value.staged.Some?
    requires s.endpoints[e].value.sender.Some?
  {
    var x := s.endpoints[e].value;
    match MakeReady(s, x.sender.value.thread)
    case None => (s, Refused)
    case Some(s1) =>
      match TryComplete(s1, x.sender.value.thread, Send, e, x.sender.value.id, Completed)
      case None => (s1, Halt)
      case Some(s2) =>
        var s3 := Accept(Deliver(s2, e, op), e, x.staged.value);
        (PutEndpoint(s3, e, s3.endpoints[e].value.(staged := None)), Done)
  }

  // ------------------------------------------------------------- timed waits

  predicate Reached(now: nat, deadline: nat) {
    (now - deadline) % U64 < HALF
  }

  predicate Duplicate(timed: Registry<Timed>, t: nat, e: nat, kind: Kind, id: nat) {
    exists i :: 0 <= i < |timed| && timed[i].Some? &&
      (timed[i].value.thread == t ||
        (timed[i].value.endpoint == e && timed[i].value.kind == kind && timed[i].value.id == id))
  }

  function Register(s: Sys, t: nat, e: nat, kind: Kind, id: nat, ticks: nat): Option<Sys>
    requires Live(s.endpoints, e)
  {
    var slot := Empty(s.timed);
    if ticks == 0 || ticks > TIMEOUT_MAX || !Matches(s, t, kind, e, id) || Duplicate(s.timed, t, e, kind, id) ||
      slot == |s.timed|
    then None
    else
      var x := Timed(t, s.threads[t].value.id, e, s.endpoints[e].value.id, kind, id, (s.time % U64 + ticks) % U64,
        s.time, ticks);
      Some(s.(timed := s.timed[slot := Some(x)]))
  }

  predicate Names(x: Option<Timed>, t: nat, e: nat, kind: Kind, id: nat) {
    x.Some? && x.value.thread == t && x.value.endpoint == e && x.value.kind == kind && x.value.id == id
  }

  /** First slot from `i` that belongs to the wait, or the capacity. */
  function Find(timed: Registry<Timed>, i: nat, t: nat, e: nat, kind: Kind, id: nat): (n: nat)
    requires i <= |timed|
    ensures i <= n <= |timed|
    ensures n < |timed| ==> Names(timed[n], t, e, kind, id)
    ensures forall j :: i <= j < n ==> !Names(timed[j], t, e, kind, id)
    decreases |timed| - i
  {
    if i == |timed| || Names(timed[i], t, e, kind, id) then i else Find(timed, i + 1, t, e, kind, id)
  }

  function Unregister(s: Sys, t: nat, e: nat, kind: Kind, id: nat): Option<Sys> {
    var n := Find(s.timed, 0, t, e, kind, id);
    if n == |s.timed| then None else Some(s.(timed := s.timed[n := None]))
  }

  /** What a timer tick does to one slot of the table. */
  function PollSlot(s: Sys, i: nat): (Sys, Outcome)
    requires i < |s.timed|
  {
    if s.timed[i].None? then (s, Done)
    else
      var x := s.timed[i].value;
      if !Live(s.threads, x.thread) || !Live(s.endpoints, x.endpoint) || s.threads[x.thread].value.id != x.threadId ||
         s.endpoints[x.endpoint].value.id != x.endpointId || !Matches(s, x.thread, x.kind, x.endpoint, x.id) ||
         !Reserved(s, x.endpoint, x.kind)
      then (s, Halt)
      else if !Waiting(s, x.thread, Pending) || !Reached(s.time % U64, x.deadline) then (s, Done)
      else if x.kind == Send && s.endpoints[x.endpoint].value.staged.None? then (s, Halt)
      else Expire(s, x)
  }

  function Expire(s: Sys, x: Timed): (Sys, Outcome)
    requires Live(s.endpoints, x.endpoint)
  {
    match TryComplete(s, x.thread, x.kind, x.endpoint, x.id, TimedOut)
    case None => (s, Halt)
    case Some(s1) =>
      var s2 := if x.kind == Send then PutEndpoint(s1, x.endpoint, s1.endpoints[x.endpoint].value.(staged := None))
        else s1;
      match MakeReady(s2, x.thread)
      case None => (s2, Halt)
      case Some(s3) => (s3, Done)
  }

  function PollFrom(s: Sys, i: nat): (Sys, Outcome)
    requires i <= |s.timed|
    decreases |s.timed| - i
  {
    if i == |s.timed| then (s, Done)
    else
      var (s1, r) := PollSlot(s, i);
      if r != Done then (s1, r) else PollFrom(s1, i + 1)
  }

  /** History: when the last poll was, and whether two polls ever were more than 2^63 ticks apart. */
  function NotePoll(s: Sys): Sys {
    s.(polled := s.time, late := s.late || s.time > s.polled + HALF)
  }

  /** `ipc_timeout_poll` at the current tick count. */
  function PollAll(s: Sys): (Sys, Outcome) {
    PollFrom(NotePoll(s), 0)
  }

  /** Ticks pass; the timer interrupt polls after each, but any number may pass between two polls. */
  function Elapse(s: Sys, ticks: nat): (Sys, Outcome) {
    (s.(time := s.time + ticks), Done)
  }

  // ------------------------------------------------------------------- calls

  function Answer(s: Sys, op: nat, reply: Reply): Sys {
    s.(replies := s.replies[op := reply])
  }

  function TrySend(s: Sys, resolved: Option<nat>, m: Message): (Sys, Outcome) {
    var op := s.nextOp;
    var s0 := s.(nextOp := op + 1);
    if !ValidMessage(m) || resolved.None? then (Answer(s0, op, NotSent), Done)
    else
      var (s1, r) := SendLocked(s0, resolved.value, Stamped(op, m));
      if r == Halt then (s1, Halt) else (Answer(s1, op, if r == Done then Sent else NotSent), Done)
  }

  function TryReceive(s: Sys, resolved: Option<nat>): (Sys, Outcome) {
    var op := s.nextOp;
    var s0 := s.(nextOp := op + 1);
    if resolved.None? then (Answer(s0, op, GotNothing), Done) else ReceiveNow(s0, resolved.value, op)
  }

  function ReceiveNow(s: Sys, e: nat, op: nat): (Sys, Outcome) {
    var (s1, r) := ReceiveLocked(s, e, op);
    if r == Halt then (s1, Halt)
    else (Answer(s1, op, if r == Done then Got(s.endpoints[e].value.mail) else GotNothing), Done)
  }

  /** What the scheduler does with a thread that asks to wait. */
  datatype Park = Blocks | Idles | Fails

  /** `ipc_end_reservation`; none when one of its checks would halt. */
  function EndReservation(s: Sys, t: nat, c: Call): Option<Sys> {
    if !Live(s.endpoints, c.endpoint) || !Matches(s, t, c.kind, c.endpoint, c.id) ||
      !Reserved(s, c.endpoint, c.kind) then None
    else
      match (if c.timed then Unregister(s, t, c.endpoint, c.kind, c.id) else Some(s))
      case None => None
      case Some(s1) =>
        if s1.current != Some(t) || !Matches(s1, t, c.kind, c.endpoint, c.id) || s1.threads[t].value.state != Running ||
           Waiting(s1, t, Pending)
        then None
        else
          var s2 := PutThread(s1, t, s1.threads[t].value.(wait := None, call := None));
          Some(Vacate(s2, c.endpoint, c.kind))
  }

  function Vacate(s: Sys, e: nat, kind: Kind): Sys
    requires Live(s.endpoints, e)
  {
    var x := s.endpoints[e].value;
    PutEndpoint(s, e, if kind == Receive then x.(receiver := None) else x.(sender := None, staged := None))
  }

  /** The call returns: `content` is what its message buffer holds. */
  function Leave(s: Sys, t: nat, c: Call, content: Option<Stamped>): (Sys, Outcome) {
    if !Live(s.endpoints, c.endpoint) then (s, Halt)
    else if c.kind == Send && Waiting(s, t, Completed) && s.endpoints[c.endpoint].value.staged.Some? then (s, Halt)
    else
      var reply :=
        if Waiting(s, t, Completed) then if c.kind == Send then Sent else Got(content)
        else if c.kind == Send then NotSent else GotNothing;
      match EndReservation(s, t, c)
      case None => (s, Halt)
      case Some(s1) => (Answer(s1, c.op, reply), Done)
  }

  function FinishAndLeave(s: Sys, t: nat, c: Call, result: WaitResult, content: Option<Stamped>): (Sys, Outcome) {
    match TryComplete(s, t, c.kind, c.endpoint, c.id, result)
    case None => (s, Halt)
    case Some(s1) => Leave(s1, t, c, content)
  }

  /** `scheduler_wait_current` from inside the wait loop. */
  function ParkNow(s: Sys, t: nat, c: Call, park: Park): (Sys, Outcome) {
    match park
    case Blocks =>
      if !Live(s.threads, t) then (s, Halt)
      else (PutThread(s, t, s.threads[t].value.(state := Blocked)).(current := None), Done)
    case Idles => (s, Done)
    case Fails => FinishAndLeave(s, t, c, Cancelled, None)
  }

  /** One turn of the wait loop. */
  function WaitLoop(s: Sys, t: nat, c: Call, park: Park): (Sys, Outcome) {
    if !Live(s.endpoints, c.endpoint) || !Matches(s, t, c.kind, c.endpoint, c.id) ||
      !Reserved(s, c.endpoint, c.kind) then (s, Halt)
    else if !Waiting(s, t, Pending) then Leave(s, t, c, None)
    else if c.kind == Receive && s.endpoints[c.endpoint].value.mail.Some? then
      var (s1, r) := ReceiveLocked(s, c.endpoint, c.op);
      if r == Halt then (s1, Halt)
      else FinishAndLeave(s1, t, c, if r == Done then Completed else Cancelled,
                          if r == Done then s.endpoints[c.endpoint].value.mail else None)
    else if c.kind == Send && s.endpoints[c.endpoint].value.staged.None? then (s, Halt)
    else ParkNow(s, t, c, park)
  }

  predicate TimeoutOk(timeout: Option<nat>) {
    timeout.Some? ==> 0 < timeout.value <= TIMEOUT_MAX
  }

  /** The current thread, if it may start a call. */
  predicate CanCall(s: Sys, t: nat) {
    s.current == Some(t) && Live(s.threads, t) && s.threads[t].value.state == Running && s.threads[t].value.call.None?
  }

  /** Take the endpoint's seat of this kind: `thread_wait_begin` and the reverse link. */
  function Reserve(s: Sys, t: nat, kind: Kind, e: nat, st: Option<Stamped>, timed: bool, op: nat): Option<Sys>
    requires Live(s.endpoints, e)
  {
    var x := s.endpoints[e].value;
    if SeatAt(x, kind).Some? || (kind == Send && x.staged.Some?) || !CanCall(s, t) || s.threads[t].value.wait.Some? ||
       s.nextWait == 0
    then None
    else
      var id := s.nextWait;
      var y := s.threads[t].value.(wait := Some(Wait(kind, e, id, Pending)),
        call := Some(Call(kind, e, id, timed, op)));
      var x1 := if kind == Receive then x.(receiver := Some(Seat(t, id)))
        else x.(sender := Some(Seat(t, id)), staged := st);
      Some(PutEndpoint(PutThread(s, t, y), e, x1).(nextWait := (id + 1) % U64))
  }

  function Begin(s: Sys, t: nat, kind: Kind, e: nat, st: Option<Stamped>, timeout: Option<nat>, op: nat,
      park: Park): (Sys, Outcome)
    requires Live(s.endpoints, e)
  {
    match Reserve(s, t, kind, e, st, timeout.Some?, op)
    case None => (Answer(s, op, if kind == Send then NotSent else GotNothing), Done)
    case Some(s1) =>
      var c := s1.threads[t].value.call.value;
      if timeout.None? then WaitLoop(s1, t, c, park)
      else
        match Register(s1, t, e, kind, c.id, timeout.value)
        case None => FinishAndLeave(s1, t, c.(timed := false), Cancelled, None)
        case Some(s2) => WaitLoop(s2, t, c, park)
  }

  function SendBlocking(s: Sys, resolved: Option<nat>, m: Message, timeout: Option<nat>, park: Park): (Sys, Outcome) {
    if s.current.None? || !CanCall(s, s.current.value) then (s, Refused)
    else
      var op := s.nextOp;
      var s0 := s.(nextOp := op + 1);
      if !ValidMessage(m) || !TimeoutOk(timeout) || resolved.None? || !Live(s.endpoints, resolved.value) ||
         s.endpoints[resolved.value].value.closed
      then (Answer(s0, op, NotSent), Done)
      else if s.endpoints[resolved.value].value.mail.None? then
        var (s1, r) := SendLocked(s0, resolved.value, Stamped(op, m));
        if r == Halt then (s1, Halt) else (Answer(s1, op, if r == Done then Sent else NotSent), Done)
      else Begin(s0, s.current.value, Send, resolved.value, Some(Stamped(op, m)), timeout, op, park)
  }

  function ReceiveBlocking(s: Sys, resolved: Option<nat>, timeout: Option<nat>, park: Park): (Sys, Outcome) {
    if s.current.None? || !CanCall(s, s.current.value) then (s, Refused)
    else
      var op := s.nextOp;
      var s0 := s.(nextOp := op + 1);
      if !TimeoutOk(timeout) || resolved.None? || !Live(s.endpoints, resolved.value) ||
        s.endpoints[resolved.value].value.closed
      then (Answer(s0, op, GotNothing), Done)
      else if s.endpoints[resolved.value].value.mail.Some? then ReceiveNow(s0, resolved.value, op)
      else Begin(s0, s.current.value, Receive, resolved.value, None, timeout, op, park)
  }

  /** The current thread continues the blocking call it parked in. */
  function Resume(s: Sys, park: Park): (Sys, Outcome) {
    if s.current.None? || !Live(s.threads, s.current.value) ||
      s.threads[s.current.value].value.call.None? then (s, Refused)
    else WaitLoop(s, s.current.value, s.threads[s.current.value].value.call.value, park)
  }

  // -------------------------------------------------- abort, close, lifetimes

  /** `ipc_abort_thread_wait` on the way to terminating the thread. */
  function Abort(s: Sys, t: nat): (Sys, Outcome) {
    if s.current == Some(t) || !Live(s.threads, t) || s.threads[t].value.wait.None? ||
       (s.threads[t].value.state != Blocked && s.threads[t].value.state != Ready)
    then (s, Refused)
    else
      var w := s.threads[t].value.wait.value;
      if !Live(s.endpoints, w.endpoint) || !Reserved(s, w.endpoint, w.kind) ||
        SeatAt(s.endpoints[w.endpoint].value, w.kind).None? ||
         SeatAt(s.endpoints[w.endpoint].value, w.kind).value.thread != t
      then (s, Refused)
      else
        var s1 := match Unregister(s, t, w.endpoint, w.kind, w.id) case None => s case Some(s1) => s1;
        var s2 := PutThread(s1, t, s1.threads[t].value.(wait := None, call := None, state := Dead));
        (Vacate(s2, w.endpoint, w.kind), Done)
  }

  /** Give a waiter PEER_CLOSED unless it already has its result, and wake it. */
  function CloseSeat(s: Sys, e: nat, kind: Kind): (Sys, Outcome)
    requires Live(s.endpoints, e)
  {
    match SeatAt(s.endpoints[e].value, kind)
    case None => (s, Done)
    case Some(seat) =>
      match (if Waiting(s, seat.thread, Pending) then TryComplete(s, seat.thread, kind, e, seat.id, PeerClosed)
        else Some(s))
      case None => (s, Halt)
      case Some(s1) => (match MakeReady(s1, seat.thread) case None => (s1, Halt) case Some(s2) => (s2, Done))
  }

  function Discard(s: Sys, e: nat): Sys
    requires Live(s.endpoints, e)
  {
    var x := s.endpoints[e].value;
    var log := LogOf(s, x.id);
    var lost := if x.mail.Some? then [x.mail.value] else [];
    PutEndpoint(s, e, x.(closed := true, staged := None, mail := None))
      .(logs := s.logs[x.id := log.(discarded := log.discarded + lost)])
  }

  function Close(s: Sys, e: nat): (Sys, Outcome) {
    if !Live(s.endpoints, e) || s.endpoints[e].value.closed || !Reserved(s, e, Receive) ||
      !Reserved(s, e, Send) then (s, Refused)
    else
      var x := s.endpoints[e].value;
      var pending := x.sender.Some? && Waiting(s, x.sender.value.thread, Pending);
      if x.staged.Some? != pending then (s, Refused)
      else
        var (s2, r2) := CloseSeat(Discard(s, e), e, Receive);
        if r2 != Done || !Live(s2.endpoints, e) then (s2, Halt) else CloseSeat(s2, e, Send)
  }

  function CreateEndpoint(s: Sys): (Sys, Outcome) {
    var slot := Empty(s.endpoints);
    if slot == |s.endpoints| || s.nextEndpoint == 0 then (s, Refused)
    else
      (PutEndpoint(s, slot, Endpoint(s.nextEndpoint, None, None, None, None, false))
         .(nextEndpoint := (s.nextEndpoint + 1) % U64, logs := s.logs[s.nextEndpoint := Log([], [], [])]), Done)
  }

  /** `unreferenced`: no capability names the endpoint any more. */
  function DestroyEndpoint(s: Sys, e: nat, unreferenced: bool): (Sys, Outcome) {
    if !Live(s.endpoints, e) || !unreferenced || s.endpoints[e].value.mail.Some? ||
      s.endpoints[e].value.receiver.Some? ||
       s.endpoints[e].value.sender.Some? || s.endpoints[e].value.staged.Some?
    then (s, Refused)
    else (s.(endpoints := s.endpoints[e := None]), Done)
  }

  function Spawn(s: Sys): (Sys, Outcome) {
    var slot := Empty(s.threads);
    if slot == |s.threads| then (s, Refused)
    else (PutThread(s, slot, Thread(s.nextThread, Ready, None, None)).(nextThread := s.nextThread + 1), Done)
  }

  /** The scheduler runs ready thread `t`; a thread it preempts becomes ready. */
  function Switch(s: Sys, t: nat): (Sys, Outcome) {
    if !Live(s.threads, t) || s.threads[t].value.state != Ready then (s, Refused)
    else
      var s1 :=
        if s.current.Some? && Live(s.threads, s.current.value) then
          PutThread(s, s.current.value, s.threads[s.current.value].value.(state := Ready))
        else s;
      if !Live(s1.threads, t) then (s, Halt)
        else (PutThread(s1, t, s1.threads[t].value.(state := Running)).(current := Some(t)), Done)
  }

  /** A thread's storage is released once nothing waits through it: the current
      thread exits, or a terminated one is reaped. */
  function Reap(s: Sys, t: nat): (Sys, Outcome) {
    if !Live(s.threads, t) || s.threads[t].value.wait.Some? || s.threads[t].value.call.Some? ||
      s.threads[t].value.state == Blocked ||
       s.threads[t].value.state == Ready
    then (s, Refused)
    else (s.(threads := s.threads[t := None], current := if s.current == Some(t) then None else s.current), Done)
  }

  // -------------------------------------------------------------------- runs

  datatype Op =
    | OpTrySend(resolved: Option<nat>, m: Message)
    | OpTryReceive(resolved: Option<nat>)
    | OpSendBlocking(resolved: Option<nat>, m: Message, timeout: Option<nat>, park: Park)
    | OpReceiveBlocking(resolved: Option<nat>, timeout: Option<nat>, park: Park)
    | OpResume(park: Park)
    | OpElapse(ticks: nat)
    | OpPoll
    | OpAbort(t: nat)
    | OpClose(e: nat)
    | OpCreateEndpoint
    | OpDestroyEndpoint(e: nat, unreferenced: bool)
    | OpSpawn
    | OpSwitch(t: nat)
    | OpReap(t: nat)

  function Apply(s: Sys, op: Op): (Sys, Outcome) {
    match op
    case OpTrySend(resolved, m) => TrySend(s, resolved, m)
    case OpTryReceive(resolved) => TryReceive(s, resolved)
    case OpSendBlocking(resolved, m, timeout, park) => SendBlocking(s, resolved, m, timeout, park)
    case OpReceiveBlocking(resolved, timeout, park) => ReceiveBlocking(s, resolved, timeout, park)
    case OpResume(park) => Resume(s, park)
    case OpElapse(ticks) => Elapse(s, ticks)
    case OpPoll => PollAll(s)
    case OpAbort(t) => Abort(s, t)
    case OpClose(e) => Close(s, e)
    case OpCreateEndpoint => CreateEndpoint(s)
    case OpDestroyEndpoint(e, unreferenced) => DestroyEndpoint(s, e, unreferenced)
    case OpSpawn => Spawn(s)
    case OpSwitch(t) => Switch(s, t)
    case OpReap(t) => Reap(s, t)
  }

  const Boot: Sys := Sys(Blank(THREADS), None, Blank(ENDPOINTS), Blank(TIMED_WAITS), 1, 1, 1, 0, 0, false, 0, map[],
    map[])

  function Run(s: Sys, ops: seq<Op>): Sys
    decreases |ops|
  {
    if ops == [] then s else Run(Apply(s, ops[0]).0, ops[1..])
  }
}
