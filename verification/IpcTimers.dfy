/**
 Timed waits: deadlines survive the wrap of the 64-bit tick counter, a poll expires
 exactly the waits that have elapsed, and the table never overflows.
 */
module IpcTimers {
  import opened Slots
  import opened IpcModel
  import opened IpcInvariant

  // ----------------------------------------------------------------- deadlines

  lemma {:induction false} ModShift(k: int, r: int)
    ensures (k * U64 + r) % U64 == r % U64
    decreases if k < 0 then -k else k
  {
    if k > 0 {
      ModShift(k - 1, r);
      assert k * U64 + r == ((k - 1) * U64 + r) + U64;
    } else if k < 0 {
      ModShift(k + 1, r);
      assert k * U64 + r == ((k + 1) * U64 + r) - U64;
    }
  }

  /** The signed difference of the wrapped counters is the difference of the true
      times, up to the wrap. */
  lemma WrappedDifference(a: nat, b: nat)
    ensures (a % U64 - b % U64) % U64 == (a - b) % U64
  {
    var k := a / U64 - b / U64;
    assert a - b == k * U64 + (a % U64 - b % U64);
    ModShift(k, a % U64 - b % U64);
  }

  /** What the wrapped comparison means for the true times: the deadline has passed,
      by less than half a turn of the counter beyond whole turns. */
  predicate Elapsed(now: nat, deadline: nat) {
    now >= deadline && (now - deadline) % U64 < HALF
  }

  /** For every start, every allowed timeout and every later time, across any wrap:
      the comparison of the wrapped counters is true exactly when the wait has elapsed. */
  lemma ReachedExact(start: nat, ticks: nat, now: nat)
    requires 0 < ticks <= TIMEOUT_MAX && start <= now
    ensures Reached(now % U64, (start + ticks) % U64) <==> Elapsed(now, start + ticks)
  {
    WrappedDifference(now, start + ticks);
    var d := now - (start + ticks);
    if d < 0 {
      ModShift(-1, d + U64);
      assert -1 * U64 + (d + U64) == d;
    }
  }

  /** In particular it is never reached before the deadline, and is reached from it
      on for 2^63 ticks. */
  lemma ReachedIff(start: nat, ticks: nat, now: nat)
    requires 0 < ticks <= TIMEOUT_MAX && start <= now < start + ticks + HALF
    ensures Reached(now % U64, (start + ticks) % U64) <==> now >= start + ticks
  {
    ReachedExact(start, ticks, now);
  }

  /** The bound is exact: one half turn after the deadline it no longer counts as reached. */
  lemma ReachedLapses(start: nat, ticks: nat)
    ensures !Reached((start + ticks + HALF) % U64, (start + ticks) % U64)
  {
    WrappedDifference(start + ticks + HALF, start + ticks);
  }

  lemma DeadlineWraps(time: nat, ticks: nat)
    ensures (time % U64 + ticks) % U64 == (time + ticks) % U64
  {
    ModShift(time / U64, time % U64 + ticks);
    assert time + ticks == time / U64 * U64 + (time % U64 + ticks);
  }

  // ---------------------------------------------------------------- timer tick

  /** Slots before `i` have been polled at the current time. */
  ghost predicate Polled(s: Sys, i: nat) {
    && Linked(s) && EntriesOk(s)
    && (forall j: nat :: Live(s.timed, j) && j < i ==> Punctual(s, s.timed[j].value))
    && s.polled == s.time
    && (forall j: nat :: Live(s.timed, j) ==> InReach(s, s.timed[j].value))
  }

  /** A pending wait is less than half a turn past its deadline, unless polls were late. */
  predicate InReach(s: Sys, x: Timed) {
    Waiting(s, x.thread, Pending) && !s.late ==> s.time < x.start + x.ticks + HALF
  }

  predicate DueNow(s: Sys, x: Timed) {
    Waiting(s, x.thread, Pending) && Elapsed(s.time, x.start + x.ticks)
  }

  function Unstaged(y: Endpoint, kind: Kind): Endpoint {
    if kind == Send then y.(staged := None) else y
  }

  function Expired(s: Sys, x: Timed): Sys
    requires Live(s.threads, x.thread) && s.threads[x.thread].value.wait.Some? && Live(s.endpoints, x.endpoint)
  {
    PutEndpoint(PutThread(s, x.thread, Settled(s.threads[x.thread].value, TimedOut)), x.endpoint,
                Unstaged(s.endpoints[x.endpoint].value, x.kind))
  }

  lemma ExpireEffect(s: Sys, x: Timed)
    requires Linked(s) && TimedOk(s, x) && Waiting(s, x.thread, Pending)
    ensures Expire(s, x) == (Expired(s, x), Done)
    ensures Progress(s, Expired(s, x), x.endpoint) && EndpointOk(Expired(s, x), x.endpoint)
  {
    hide Linked, Progress;
    ThreadHere(s, x.thread);
    Seated(s, x.endpoint, x.kind);
    EndpointHere(s, x.endpoint);
    CompleteEffect(s, x.thread, x.kind, x.endpoint, x.id, TimedOut);
    var y := s.endpoints[x.endpoint].value;
    ThreadThenBox(s, x.thread, Settled(s.threads[x.thread].value, TimedOut), x.endpoint, Unstaged(y, x.kind), s.logs);
    var s1 := TryComplete(s, x.thread, x.kind, x.endpoint, x.id, TimedOut).value;
    var s2 := if x.kind == Send then PutEndpoint(s1, x.endpoint, s1.endpoints[x.endpoint].value.(staged := None))
      else s1;
    WakeEffect(s2, x.thread);
    assert Expire(s, x).0.threads == Expired(s, x).threads;
    assert Expire(s, x).0.endpoints == Expired(s, x).endpoints;
  }

  lemma ThreadHere(s: Sys, t: nat)
    requires Linked(s) && Live(s.threads, t)
    ensures ThreadOk(s, t)
  {
  }

  /** One slot: its halts are unreachable, and it expires its wait exactly when due. */
  lemma PollSlotSafe(s: Sys, i: nat)
    requires Polled(s, i) && i < |s.timed|
    ensures var (s', r) := PollSlot(s, i);
            && r == Done && Polled(s', i + 1) && s'.timed == s.timed && s'.time == s.time
            && s' == (if s.timed[i].Some? && DueNow(s, s.timed[i].value) then Expired(s, s.timed[i].value) else s)
  {
    hide Polled, Linked, EntriesOk;
    if s.timed[i].Some? && DueNow(s, s.timed[i].value) {
      var x := s.timed[i].value;
      EntryHere(s, i);
      ReachedExact(x.start, x.ticks, s.time);
      ExpireEffect(s, x);
      ExpireKeepsPolled(s, x, i);
    } else {
      NotDue(s, i);
      if s.timed[i].Some? {
        EntryHere(s, i);
        var x := s.timed[i].value;
        if Waiting(s, x.thread, Pending) {
          ReachedExact(x.start, x.ticks, s.time);
        }
      }
    }
  }

  lemma EntryHere(s: Sys, i: nat)
    requires Polled(s, i) && i < |s.timed| && s.timed[i].Some?
    ensures var x := s.timed[i].value;
            && Linked(s) && TimedOk(s, x) && Reserved(s, x.endpoint, x.kind) && EndpointOk(s, x.endpoint) &&
              ThreadOk(s, x.thread)
  {
    assert Live(s.timed, i);
    AlwaysReserved(s, s.timed[i].value.endpoint, s.timed[i].value.kind);
  }

  lemma NotDue(s: Sys, i: nat)
    requires Polled(s, i) && i < |s.timed| && (s.timed[i].Some? ==> !DueNow(s, s.timed[i].value))
    ensures Polled(s, i + 1)
  {
    hide Linked, EntriesOk;
    if s.timed[i].Some? {
      assert Live(s.timed, i) && InReach(s, s.timed[i].value);
    }
  }

  lemma ExpireKeepsPolled(s: Sys, x: Timed, i: nat)
    requires Polled(s, i) && i < |s.timed| && s.timed[i] == Some(x) && TimedOk(s, x)
    requires Progress(s, Expired(s, x), x.endpoint) && EndpointOk(Expired(s, x), x.endpoint)
    ensures Polled(Expired(s, x), i + 1)
  {
    var s' := Expired(s, x);
    ProgressLinked(s, s', x.endpoint);
    ProgressEntries(s, s', x.endpoint);
    forall j: nat | Live(s.timed, j) ensures InReach(s', s.timed[j].value) {
      assert TimedOk(s, s.timed[j].value) && InReach(s, s.timed[j].value);
    }
  }

  ghost predicate DueFrom(s: Sys, i: nat, t: nat) {
    exists j: nat :: i <= j && Live(s.timed, j) && s.timed[j].value.thread == t && DueNow(s, s.timed[j].value)
  }

  /** The fate of thread `t` over the slots from `i` on. */
  ghost predicate Fate(s: Sys, s': Sys, i: nat, t: nat)
    requires Live(s.threads, t)
  {
    && Live(s'.threads, t)
    && s'.threads[t].value ==
       (if DueFrom(s, i, t) &&
         s.threads[t].value.wait.Some? then Settled(s.threads[t].value, TimedOut) else s.threads[t].value)
  }

  lemma FateStep(s: Sys, s1: Sys, s': Sys, i: nat, t: nat)
    requires Polled(s, i) && i < |s.timed| && Live(s.threads, t) && (s1, Done) == PollSlot(s, i)
    requires s1.timed == s.timed && s1.time == s.time
    requires s1 == (if s.timed[i].Some? && DueNow(s, s.timed[i].value) then Expired(s, s.timed[i].value) else s)
    requires Live(s1.threads, t) && Fate(s1, s', i + 1, t)
    ensures Fate(s, s', i, t)
  {
    if s.timed[i].Some? && DueNow(s, s.timed[i].value) && s.timed[i].value.thread == t {
      assert DueFrom(s, i, t);
      assert !Waiting(s1, t, Pending);
    } else {
      assert s1.threads[t] == s.threads[t];
      if DueFrom(s, i, t) {
        var j: nat :| i <= j && Live(s.timed, j) && s.timed[j].value.thread == t && DueNow(s, s.timed[j].value);
        assert DueNow(s1, s1.timed[j].value);
        assert DueFrom(s1, i + 1, t);
      }
      if DueFrom(s1, i + 1, t) {
        var j: nat :| i + 1 <= j && Live(s1.timed, j) && s1.timed[j].value.thread == t && DueNow(s1, s1.timed[j].value);
        assert DueNow(s, s.timed[j].value);
      }
    }
  }

  lemma {:induction false} PollFromSafe(s: Sys, i: nat)
    requires Polled(s, i) && i <= |s.timed|
    ensures var (s', r) := PollFrom(s, i);
            && r == Done && Polled(s', |s'.timed|) && s'.timed == s.timed && s'.time == s.time
            && (forall t: nat :: Live(s.threads, t) ==> Fate(s, s', i, t))
    decreases |s.timed| - i
  {
    hide Polled, PollSlot, Fate;
    if i == |s.timed| {
      forall t: nat | Live(s.threads, t) ensures Fate(s, s, i, t) {
        FateNow(s, i, t);
      }
    } else {
      PollSlotSafe(s, i);
      var s1 := PollSlot(s, i).0;
      PollFromSafe(s1, i + 1);
      var s' := PollFrom(s1, i + 1).0;
      forall t: nat | Live(s.threads, t) ensures Fate(s, s', i, t) {
        assert Live(s1.threads, t);
        FateStep(s, s1, s', i, t);
      }
    }
  }

  lemma FateNow(s: Sys, i: nat, t: nat)
    requires Live(s.threads, t) && i == |s.timed|
    ensures Fate(s, s, i, t)
  {
  }

  /** A poll never halts, however late it comes. It times out exactly the pending
      waits that have elapsed, and changes no other thread. */
  lemma PollSafe(s: Sys)
    requires Inv(s)
    ensures var (s', r) := PollAll(s);
            && r == Done && Inv(s') && s'.time == s.time && s'.timed == s.timed
            && (forall t: nat :: Live(s.threads, t) ==> Fate(s, s', 0, t))
  {
    hide Fate;
    var s0 := NotePoll(s);
    PollStarts(s, s0);
    PollFromSafe(s0, 0);
    forall t: nat | Live(s.threads, t) ensures Fate(s, PollAll(s).0, 0, t) {
      SameFate(s, s0, PollAll(s).0, t);
    }
  }

  lemma SameFate(s: Sys, s0: Sys, s': Sys, t: nat)
    requires s0 == NotePoll(s) && Live(s.threads, t) && Fate(s0, s', 0, t)
    ensures Fate(s, s', 0, t)
  {
    if DueFrom(s, 0, t) {
      var j: nat :| Live(s.timed, j) && s.timed[j].value.thread == t && DueNow(s, s.timed[j].value);
      assert DueNow(s0, s0.timed[j].value);
      assert DueFrom(s0, 0, t);
    }
    if DueFrom(s0, 0, t) {
      var j: nat :| Live(s0.timed, j) && s0.timed[j].value.thread == t && DueNow(s0, s0.timed[j].value);
      assert DueNow(s, s.timed[j].value);
    }
  }

  /** Threads and endpoints do not read the clock. */
  lemma ClockUnread(s: Sys, s0: Sys)
    requires Linked(s) && EntriesOk(s) && s0 == s.(time := s0.time, polled := s0.polled, late := s0.late)
    requires s.time <= s0.time && s0.polled <= s0.time
    ensures Linked(s0) && EntriesOk(s0)
  {
    forall t: nat | Live(s0.threads, t) ensures ThreadOk(s0, t) && Entered(s0, t) {
      assert ThreadOk(s, t) && Entered(s, t);
    }
    forall e: nat | Live(s0.endpoints, e) ensures EndpointOk(s0, e) {
      assert EndpointOk(s, e);
    }
    forall i: nat | Live(s0.timed, i) ensures TimedOk(s0, s0.timed[i].value) {
      assert TimedOk(s, s.timed[i].value);
    }
  }

  lemma PollStarts(s: Sys, s0: Sys)
    requires Inv(s) && s0 == NotePoll(s)
    ensures Polled(s0, 0)
  {
    ClockUnread(s, s0);
    hide Linked, EntriesOk;
    forall i: nat | Live(s0.timed, i) ensures InReach(s0, s0.timed[i].value) {
      assert Punctual(s, s.timed[i].value);
    }
  }

  lemma ElapseSafe(s: Sys, ticks: nat)
    requires Inv(s)
    ensures Inv(Elapse(s, ticks).0) && Elapse(s, ticks).1 == Done
  {
    var s0 := Elapse(s, ticks).0;
    ClockUnread(s, s0);
    hide Linked, EntriesOk;
    forall i: nat | Live(s0.timed, i) ensures Punctual(s0, s0.timed[i].value) {
      assert Punctual(s, s.timed[i].value);
    }
  }

  // --------------------------------------------------------- room in the table

  function Key(e: nat, kind: Kind): nat {
    2 * e + if kind == Send then 1 else 0
  }

  function Keys(timed: Registry<Timed>): (keys: seq<nat>)
    requires forall i :: 0 <= i < |timed| ==> timed[i].Some?
    ensures |keys| == |timed|
    ensures forall i :: 0 <= i < |timed| ==> keys[i] == Key(timed[i].value.endpoint, timed[i].value.kind)
  {
    seq(|timed|, i requires 0 <= i < |timed| => Key(timed[i].value.endpoint, timed[i].value.kind))
  }

  /** An entry holds its endpoint's seat of its kind. */
  lemma EntryAt(s: Sys, i: nat)
    requires Linked(s) && EntriesOk(s) && Live(s.timed, i)
    ensures |s.endpoints| == ENDPOINTS && |s.timed| == TIMED_WAITS
    ensures var x := s.timed[i].value;
            Live(s.endpoints, x.endpoint) && SeatAt(s.endpoints[x.endpoint].value, x.kind) == Some(Seat(x.thread, x.id))
  {
    assert TimedOk(s, s.timed[i].value);
    assert ThreadOk(s, s.timed[i].value.thread);
  }

  /** 512 slots for 256 endpoints with two seats each: while one seat is free there
      is room for one more entry. */
  lemma TableHasRoom(s: Sys, e: nat, kind: Kind)
    requires Linked(s) && EntriesOk(s) && Live(s.endpoints, e) && SeatAt(s.endpoints[e].value, kind).None?
    ensures Empty(s.timed) < |s.timed|
  {
    assert |s.endpoints| == ENDPOINTS && |s.timed| == TIMED_WAITS;
    hide Linked, TimedOk;
    if Empty(s.timed) == |s.timed| {
      var keys := Keys(s.timed);
      forall i | 0 <= i < |keys| ensures keys[i] < TIMED_WAITS && keys[i] != Key(e, kind) {
        assert Live(s.timed, i);
        EntryAt(s, i);
      }
      forall i, j | 0 <= i < j < |keys| ensures keys[i] != keys[j] {
        assert Live(s.timed, i) && Live(s.timed, j);
        EntryAt(s, i);
        EntryAt(s, j);
      }
      Pigeonhole(keys, TIMED_WAITS, Key(e, kind));
    }
  }
}
