/**
 Delivery state of one PCI interrupt resource (kernel/pci_irq_resource.c).

 A resource owns a one-slot event mailbox. A hardware signal is turned into at
 most one mailbox event, after which the source stays masked until the owner
 has taken the event and acknowledged its sequence number. Signals that arrive
 meanwhile are counted, and too many of them put the resource in STORMED.
 */
module IrqEvents {
  import opened Slots

  const U64_MAX: nat := 0xFFFF_FFFF_FFFF_FFFF
  const U32_MAX: nat := 0xFFFF_FFFF
  const STORM_THRESHOLD: nat := 8

  datatype Phase = Disarmed | Armed | Pending | Stormed

  /** `delivered` lists every sequence number whose event entered the mailbox
      and `dropped` counts the deliveries a disarm threw away; both are history
      kept for the proofs. The kernel's own counters are the `nat` fields. */
  datatype Irq = Irq(
    phase: Phase,
    masked: bool,
    pending: nat,
    next: nat,
    deliveredCount: nat,
    acknowledgedCount: nat,
    suppressedCount: nat,
    suppressedSinceAck: nat,
    recoveryCount: nat,
    open: bool,
    mail: Option<nat>,
    delivered: seq<nat>,
    dropped: nat)

  const Fresh: Irq := Irq(Disarmed, true, 0, 1, 0, 0, 0, 0, 0, true, None, [], 0)

  /** Saturating increment of a 64-bit counter. */
  function Increment(value: nat): nat {
    if value != U64_MAX then value + 1 else value
  }

  function Arm(q: Irq): Irq {
    if q.phase != Disarmed then q
    else q.(masked := false, suppressedSinceAck := 0, phase := Armed)
  }

  function Disarm(q: Irq): Irq {
    if q.phase == Disarmed then q
    else q.(mail := None, pending := 0, suppressedSinceAck := 0, masked := true, phase := Disarmed,
            dropped := q.dropped + if q.pending != 0 then 1 else 0)
  }

  /** A send succeeds only on an open, empty mailbox; `accepted` is the rest of
      what the IPC layer decides. */
  predicate Sends(q: Irq, accepted: bool) {
    accepted && q.open && q.mail.None?
  }

  function Signal(q: Irq, accepted: bool): Irq {
    if q.phase == Pending || q.phase == Stormed then
      var since := if q.suppressedSinceAck != U32_MAX then q.suppressedSinceAck + 1 else q.suppressedSinceAck;
      q.(suppressedCount := Increment(q.suppressedCount), suppressedSinceAck := since, masked := true,
         phase := if since >= STORM_THRESHOLD then Stormed else q.phase)
    else if q.phase != Armed || q.masked || q.pending != 0 || q.next == 0 then q
    else
      var q1 := q.(next := if q.next == U64_MAX then 0 else q.next + 1, masked := true);
      if Sends(q, accepted) then
        q1.(pending := q.next, phase := Pending, mail := Some(q.next),
            deliveredCount := Increment(q.deliveredCount), delivered := q.delivered + [q.next])
      else
        q1.(pending := 0, phase := Stormed)
  }

  predicate CanAcknowledge(q: Irq, sequence: nat) {
    sequence != 0 && (q.phase == Pending || q.phase == Stormed) && q.pending == sequence && q.mail.None?
  }

  function Acknowledge(q: Irq, sequence: nat): Irq {
    if !CanAcknowledge(q, sequence) then q
    else
      var q1 := q.(pending := 0, acknowledgedCount := Increment(q.acknowledgedCount));
      if q.phase == Pending then q1.(phase := Armed, masked := false, suppressedSinceAck := 0) else q1
  }

  predicate CanRecoverStorm(q: Irq) {
    q.phase == Stormed && q.pending == 0 && q.mail.None?
  }

  function RecoverStorm(q: Irq): Irq {
    if !CanRecoverStorm(q) then q
    else q.(suppressedSinceAck := 0, masked := false, phase := Armed, recoveryCount := Increment(q.recoveryCount))
  }

  /** The owner receives the event. */
  function Take(q: Irq): Irq {
    q.(mail := None)
  }

  /** The event endpoint is closed, which empties its mailbox. */
  function Close(q: Irq): Irq {
    q.(mail := None, open := false)
  }

  // ---------------------------------------------------------------- invariant

  /** Sequence numbers are issued from 1 and end at 2^64-1; zero means exhausted. */
  function Issued(q: Irq): nat {
    if q.next == 0 then U64_MAX else q.next - 1
  }

  ghost predicate Wf(q: Irq) {
    && q.next <= U64_MAX
    && (q.phase == Disarmed ==> q.masked && q.pending == 0)
    && (q.phase == Armed ==> !q.masked && q.pending == 0 && q.mail.None? && q.suppressedSinceAck == 0)
    && (q.phase == Pending ==> q.masked && q.pending != 0 && q.suppressedSinceAck < STORM_THRESHOLD)
    && (q.phase == Stormed ==> q.masked)
    && (q.mail.Some? ==> q.open && q.mail.value == q.pending && q.pending != 0)
    && Increasing(q.delivered, Issued(q))
    && (q.pending != 0 ==> q.delivered != [] && q.delivered[|q.delivered| - 1] == q.pending)
    && q.deliveredCount == |q.delivered|
    && q.deliveredCount == q.acknowledgedCount + q.dropped + (if q.pending != 0 then 1 else 0)
  }

  /** Strictly increasing, starting at 1 or later and ending at `bound` or earlier. */
  ghost predicate Increasing(s: seq<nat>, bound: nat) {
    && (forall i, j :: 0 <= i < j < |s| ==> s[i] < s[j])
    && (forall i :: 0 <= i < |s| ==> i < s[i] <= bound)
  }

  datatype Event =
    | OnArm
    | OnDisarm
    | OnSignal(accepted: bool)
    | OnAcknowledge(sequence: nat)
    | OnRecoverStorm
    | OnTake
    | OnClose

  function Apply(q: Irq, e: Event): Irq {
    match e
    case OnArm => Arm(q)
    case OnDisarm => Disarm(q)
    case OnSignal(accepted) => Signal(q, accepted)
    case OnAcknowledge(sequence) => Acknowledge(q, sequence)
    case OnRecoverStorm => RecoverStorm(q)
    case OnTake => Take(q)
    case OnClose => Close(q)
  }

  function Run(q: Irq, es: seq<Event>): Irq
    decreases |es|
  {
    if es == [] then q else Run(Apply(q, es[0]), es[1..])
  }

  /** Every event keeps the invariant and only ever appends to the delivery log. */
  lemma ApplyKeepsWf(q: Irq, e: Event)
    requires Wf(q)
    ensures Wf(Apply(q, e))
    ensures q.delivered <= Apply(q, e).delivered
  {
    if e.OnSignal? && q.phase == Armed && q.next != 0 {
      var d := q.delivered;
      if d != [] {
        assert |d| <= d[|d| - 1] <= Issued(q);
      }
      assert |d| < q.next;
      assert Increasing(d, q.next);
    }
  }

  /** Every run from a new resource: the delivered sequence numbers strictly
      increase; each delivery is acknowledged, dropped by a disarm, or the single
      pending one; the mailbox holds the pending event or nothing; and an ARMED
      resource has an empty mailbox and no suppressed signals. The counters never
      saturate, since the sequence numbers run out first. */
  lemma {:induction false} RunFromFresh(es: seq<Event>)
    ensures var q := Run(Fresh, es);
            && Increasing(q.delivered, U64_MAX)
            && q.deliveredCount == |q.delivered| == q.acknowledgedCount + q.dropped + (if q.pending != 0 then 1 else 0)
            && (q.mail.Some? ==> q.delivered != [] && q.mail.value == q.pending == q.delivered[|q.delivered| - 1])
            && (q.phase == Armed ==> q.mail.None? && q.suppressedSinceAck == 0 && !q.masked)
            && (!q.masked ==> q.phase == Armed)
  {
    RunKeepsWf(Fresh, es);
  }

  lemma {:induction false} RunKeepsWf(q: Irq, es: seq<Event>)
    requires Wf(q)
    ensures Wf(Run(q, es))
    ensures q.delivered <= Run(q, es).delivered
    decreases |es|
  {
    if es != [] {
      ApplyKeepsWf(q, es[0]);
      RunKeepsWf(Apply(q, es[0]), es[1..]);
    }
  }

  /** Back-pressure: two deliveries are always separated by an acknowledgement
      or a disarm that dropped the first one. */
  lemma {:induction false} OneOutstandingDelivery(q: Irq, es: seq<Event>)
    requires Wf(q)
    ensures var q' := Run(q, es);
            |q'.delivered| - |q.delivered| <=
              (q'.acknowledgedCount - q.acknowledgedCount) + (q'.dropped - q.dropped) + 1
  {
    RunKeepsWf(q, es);
  }

  /** An acknowledgement counts once: the number it was for is never accepted again,
      whatever happens to the resource afterwards. */
  lemma {:induction false} AcknowledgedOnce(q: Irq, sequence: nat, es: seq<Event>)
    requires Wf(q) && CanAcknowledge(q, sequence)
    ensures !CanAcknowledge(Run(Acknowledge(q, sequence), es), sequence)
  {
    ApplyKeepsWf(q, OnAcknowledge(sequence));
    RunKeepsPast(Acknowledge(q, sequence), es, sequence);
  }

  /** The number has been issued and is not pending. */
  predicate Past(q: Irq, sequence: nat) {
    sequence <= Issued(q) && q.pending != sequence
  }

  lemma {:induction false} RunKeepsPast(q: Irq, es: seq<Event>, sequence: nat)
    requires Wf(q) && sequence != 0 && Past(q, sequence)
    ensures Past(Run(q, es), sequence)
    decreases |es|
  {
    hide Wf, Increasing;
    if es != [] {
      ApplyKeepsWf(q, es[0]);
      ApplyKeepsPast(q, es[0], sequence);
      RunKeepsPast(Apply(q, es[0]), es[1..], sequence);
    }
  }

  lemma ApplyKeepsPast(q: Irq, e: Event, sequence: nat)
    requires Wf(q) && sequence != 0 && Past(q, sequence)
    ensures Past(Apply(q, e), sequence)
  {
    hide Increasing;
  }

  // --------------------------------------------------------------------- bursts

  /** A signal is delivered exactly when the resource is armed, has numbers left and its
      mailbox takes the event. If only the mailbox is in the way, the resource storms. */
  lemma SignalDelivers(q: Irq, accepted: bool)
    requires Wf(q)
    ensures var q' := Signal(q, accepted);
            if q.phase == Armed && q.next != 0 && accepted && q.open then
              q'.phase == Pending && q'.delivered == q.delivered + [q.next] && q'.mail == Some(q.next)
            else
              && q'.delivered == q.delivered && q'.mail == q.mail
              && (q.phase == Armed && q.next != 0 ==> q'.phase == Stormed && q'.pending == 0)
  {
    hide Increasing;
  }

  /** A signal for each flag, in order; the flag is what the mailbox would say to it. */
  function Burst(q: Irq, flags: seq<bool>): Irq {
    if flags == [] then q else Signal(Burst(q, flags[..|flags| - 1]), flags[|flags| - 1])
  }

  /** However many signals arrive before the owner has dealt with the first, one event is
      delivered; with the eighth that finds it unacknowledged, and not before, the resource
      storms. */
  lemma {:induction false} BurstCollapses(q: Irq, flags: seq<bool>)
    requires Wf(q) && q.phase == Armed && q.open && q.next != 0 && flags != [] && flags[0]
    ensures var q', k := Burst(q, flags), |flags| - 1;
            && q' == Signal(q, true).(suppressedCount := q'.suppressedCount, phase := q'.phase,
                                      suppressedSinceAck := if k < U32_MAX then k else U32_MAX)
            && q'.phase == (if k < STORM_THRESHOLD then Pending else Stormed)
            && (q.suppressedCount + k <= U64_MAX ==> q'.suppressedCount == q.suppressedCount + k)
    decreases |flags|
  {
    hide Increasing;
    if |flags| == 1 {
      assert Burst(q, flags[..0]) == q;
    } else {
      BurstCollapses(q, flags[..|flags| - 1]);
    }
  }

  /** What it takes to get going again: take the event, acknowledge its number, and after
      a storm recover from it. The resource is then armed and open, as before the burst. */
  lemma {:induction false} BurstSettles(q: Irq, flags: seq<bool>)
    requires Wf(q) && q.phase == Armed && q.open && q.next != 0 && flags != [] && flags[0]
    ensures var q1 := Acknowledge(Take(Burst(q, flags)), q.next);
            var stormed := |flags| > STORM_THRESHOLD;
            var q' := if stormed then RecoverStorm(q1) else q1;
            && (stormed ==> q1.phase == Stormed && q1.masked && CanRecoverStorm(q1))
            && q' == q.(next := if q.next == U64_MAX then 0 else q.next + 1,
                        deliveredCount := Increment(q.deliveredCount),
                        acknowledgedCount := Increment(q.acknowledgedCount),
                        suppressedCount := q'.suppressedCount,
                        recoveryCount := if stormed then Increment(q.recoveryCount) else q.recoveryCount,
                        delivered := q.delivered + [q.next])
  {
    hide Increasing, Burst;
    BurstCollapses(q, flags);
  }

  // ------------------------------------------------------------ imperative form

  /** The resource record as the kernel updates it, field by field. */
  class Resource {
    var phase: Phase
    var masked: bool
    var pending: nat
    var next: nat
    var deliveredCount: nat
    var acknowledgedCount: nat
    var suppressedCount: nat
    var suppressedSinceAck: nat
    var recoveryCount: nat
    var open: bool
    var mail: Option<nat>
    ghost var delivered: seq<nat>
    ghost var dropped: nat

    ghost function Value(): Irq
      reads this
    {
      Irq(phase, masked, pending, next, deliveredCount, acknowledgedCount, suppressedCount, suppressedSinceAck,
          recoveryCount, open, mail, delivered, dropped)
    }

    constructor ()
      ensures Value() == Fresh
    {
      phase, masked, pending, next := Disarmed, true, 0, 1;
      deliveredCount, acknowledgedCount, suppressedCount, suppressedSinceAck, recoveryCount := 0, 0, 0, 0, 0;
      open, mail := true, None;
      delivered, dropped := [], 0;
    }

    method ArmDelivery() returns (armed: bool)
      modifies this
      ensures Value() == Arm(old(Value())) && armed == (old(phase) == Disarmed)
    {
      armed := phase == Disarmed;
      if armed {
        masked := false;
        suppressedSinceAck := 0;
        phase := Armed;
      }
    }

    method DisarmDelivery()
      modifies this
      ensures Value() == Disarm(old(Value()))
    {
      if phase == Disarmed {
        return;
      }
      if mail.Some? {
        mail := None;
      }
      if pending != 0 {
        dropped := dropped + 1;
      }
      pending := 0;
      suppressedSinceAck := 0;
      masked := true;
      phase := Disarmed;
    }

    method SignalSource(accepted: bool) returns (sent: bool)
      modifies this
      ensures Value() == Signal(old(Value()), accepted)
      ensures sent <==> |delivered| > |old(delivered)|
    {
      if phase == Pending || phase == Stormed {
        Suppress();
        return false;
      }
      if phase != Armed || masked || pending != 0 {
        return false;
      }
      var sequence := next;
      if sequence == 0 {
        return false;
      }
      next := if sequence == U64_MAX then 0 else sequence + 1;
      masked := true;
      sent := accepted && open && mail.None?;
      if sent {
        pending, phase := sequence, Pending;
        mail := Some(sequence);
        delivered := delivered + [sequence];
        deliveredCount := Increment(deliveredCount);
      } else {
        pending, phase := 0, Stormed;
      }
    }

    /** A signal that finds the previous one unacknowledged is only counted. */
    method Suppress()
      requires phase == Pending || phase == Stormed
      modifies `suppressedCount, `suppressedSinceAck, `phase, `masked
      ensures forall accepted :: Value() == Signal(old(Value()), accepted)
    {
      suppressedCount := Increment(suppressedCount);
      if suppressedSinceAck != U32_MAX {
        suppressedSinceAck := suppressedSinceAck + 1;
      }
      if suppressedSinceAck >= STORM_THRESHOLD {
        phase := Stormed;
      }
      masked := true;
    }

    method AcknowledgeEvent(sequence: nat) returns (acknowledged: bool)
      modifies this
      ensures Value() == Acknowledge(old(Value()), sequence)
      ensures acknowledged == CanAcknowledge(old(Value()), sequence)
    {
      acknowledged := sequence != 0 && (phase == Pending || phase == Stormed) && pending == sequence && mail.None?;
      if acknowledged {
        pending := 0;
        if acknowledgedCount != U64_MAX {
          acknowledgedCount := acknowledgedCount + 1;
        }
        if phase == Pending {
          phase := Armed;
          masked := false;
          suppressedSinceAck := 0;
        }
      }
    }
  }
}
