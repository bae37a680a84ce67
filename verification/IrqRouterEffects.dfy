/**
 What each routing call does, told by the resource or the vector it names: when it
 succeeds, what becomes of that binding, its entry and its resource, and that nothing
 else changes.
 */
module IrqRouterEffects {
  import opened Slots
  import opened IrqRouter
  import IrqEvents

  predicate BoundAt(s: Router, i: nat, q: nat) {
    Live(s.bindings, i) && s.bindings[i].value.irq == q
  }

  predicate Bound(s: Router, q: nat) {
    exists i :: 0 <= i < |s.bindings| && BoundTo(s.bindings[i], q)
  }

  /** Only binding `i`, its entry and its resource may differ. */
  predicate OnlyBinding(s: Router, s': Router, i: nat)
    requires Live(s.bindings, i)
  {
    var b := s.bindings[i].value;
    && |s'.bindings| == |s.bindings| &&
      (forall j :: 0 <= j < |s.bindings| && j != i ==> s'.bindings[j] == s.bindings[j])
    && s'.pins.Keys == s.pins.Keys && (forall g :: g in s.pins && g != b.lease.gsi ==> s'.pins[g] == s.pins[g])
    && s'.resources.Keys == s.resources.Keys
    && (forall q :: q in s.resources && q != b.irq ==> s'.resources[q] == s.resources[q])
  }

  /** Binding `i` and its entry have that mask, and its resource those events. */
  predicate Drives(s: Router, s': Router, i: nat, masked: bool, events: IrqEvents.Irq)
    requires Live(s.bindings, i)
  {
    var b := s.bindings[i].value;
    && OnlyBinding(s, s', i)
    && b.lease.gsi in s.pins && b.irq in s.resources
    && s'.bindings[i] == Some(b.(masked := masked))
    && s'.pins[b.lease.gsi] == s.pins[b.lease.gsi].(masked := masked)
    && s'.resources[b.irq] == s.resources[b.irq].(events := events)
  }

  // ------------------------------------------------------------------ lookups

  lemma FindIs(s: Router, i: nat, q: nat, base: map<nat, Entry>)
    requires Inv(s, base) && BoundAt(s, i, q)
    ensures Find(s.bindings, q, 0) == i && BindingOk(s, s.bindings[i].value)
  {
    assert BoundTo(s.bindings[i], q);
  }

  lemma FindVectorIs(s: Router, i: nat, vector: nat, base: map<nat, Entry>)
    requires Inv(s, base) && Live(s.bindings, i) && s.bindings[i].value.vector == vector
    ensures FindVector(s.bindings, vector, 0) == i && BindingOk(s, s.bindings[i].value)
  {
    assert OnVector(s.bindings[i], vector);
  }

  /** A call that names a resource with no binding is refused. */
  lemma UnboundRefused(s: Router, q: nat, authorized: bool, sequence: nat, owner: nat)
    requires !Bound(s, q)
    ensures Unbind(s, q, authorized) == Arm(s, q, authorized) == RecoverStorm(s, q, authorized) == (s, Refused)
    ensures Acknowledge(s, q, authorized, sequence) == Disarm(s, q, owner) == ForceUnbind(s, q, owner) == (s, Refused)
  {
    assert Find(s.bindings, q, 0) == |s.bindings|;
  }

  // ------------------------------------------------------------- an interrupt

  /** An interrupt on a bound vector masks its source and passes the signal on to the
      resource of that binding; on any other vector nothing happens. */
  lemma HandleExact(s: Router, vector: nat, active: bool, accepted: bool, base: map<nat, Entry>)
    requires Inv(s, base)
    ensures var (s', r) := HandleVector(s, vector, active, accepted);
            && (r == Done <==> exists i: nat :: Live(s.bindings, i) && s.bindings[i].value.vector == vector)
            && (r != Done ==> s' == s)
            && forall i: nat ::
                 Live(s.bindings, i) && s.bindings[i].value.vector == vector ==>
                 var q := s.bindings[i].value.irq;
                 && q in s.resources
                 && Drives(s, s', i, true,
                           if active then IrqEvents.Signal(s.resources[q].events, accepted) else s.resources[q].events)
  {
    hide Inv;
    var (s', r) := HandleVector(s, vector, active, accepted);
    forall i: nat | Live(s.bindings, i) && s.bindings[i].value.vector == vector
      ensures
        var q := s.bindings[i].value.irq;
        && r == Done && q in s.resources
        && Drives(s, s', i, true,
                  if active then IrqEvents.Signal(s.resources[q].events, accepted) else s.resources[q].events)
    {
      FindVectorIs(s, i, vector, base);
    }
    if r == Done {
      assert Live(s.bindings, FindVector(s.bindings, vector, 0));
    }
  }

  // -------------------------------------------------------------- driving a source

  /** Arming works exactly on a disarmed resource, and opens its source. */
  lemma ArmExact(s: Router, q: nat, authorized: bool, i: nat, base: map<nat, Entry>)
    requires Inv(s, base) && BoundAt(s, i, q)
    ensures var (s', r) := Arm(s, q, authorized);
            && q in s.resources
            && (r == Done <==> authorized && s.resources[q].events.phase == IrqEvents.Disarmed)
            && (r != Done ==> s' == s)
            && (r == Done ==> Drives(s, s', i, false, IrqEvents.Arm(s.resources[q].events)))
  {
    hide Inv;
    FindIs(s, i, q, base);
  }

  /** An acknowledgement works exactly for the pending event once it has been taken. The
      source opens if that was all, and stays masked in a storm. */
  lemma AcknowledgeExact(s: Router, q: nat, authorized: bool, sequence: nat, i: nat, base: map<nat, Entry>)
    requires Inv(s, base) && BoundAt(s, i, q)
    ensures var (s', r) := Acknowledge(s, q, authorized, sequence);
            && q in s.resources
            && (r == Done <==> authorized && IrqEvents.CanAcknowledge(s.resources[q].events, sequence))
            && (r != Done ==> s' == s)
            && (r == Done ==>
                  Drives(s, s', i, s.resources[q].events.phase == IrqEvents.Stormed,
                         IrqEvents.Acknowledge(s.resources[q].events, sequence)))
  {
    hide Inv;
    FindIs(s, i, q, base);
    Unchanged(s, i);
  }

  lemma Unchanged(s: Router, i: nat)
    requires Live(s.bindings, i) && s.bindings[i].value.lease.gsi in s.pins
    requires s.pins[s.bindings[i].value.lease.gsi].masked == s.bindings[i].value.masked
    ensures Masking(s, i, s.bindings[i].value.masked) == s
  {
    var b := s.bindings[i].value;
    assert s.bindings[i := Some(b)] == s.bindings;
    assert s.pins[b.lease.gsi := s.pins[b.lease.gsi]] == s.pins;
  }

  /** A storm ends exactly when its event has been dealt with, and the source opens. */
  lemma RecoverStormExact(s: Router, q: nat, authorized: bool, i: nat, base: map<nat, Entry>)
    requires Inv(s, base) && BoundAt(s, i, q)
    ensures var (s', r) := RecoverStorm(s, q, authorized);
            && q in s.resources
            && (r == Done <==> authorized && IrqEvents.CanRecoverStorm(s.resources[q].events))
            && (r != Done ==> s' == s)
            && (r == Done ==> Drives(s, s', i, false, IrqEvents.RecoverStorm(s.resources[q].events)))
  {
    hide Inv;
    FindIs(s, i, q, base);
  }

  /** The owner can always disarm, and nobody else; the source is masked afterwards. */
  lemma DisarmExact(s: Router, q: nat, owner: nat, i: nat, base: map<nat, Entry>)
    requires Inv(s, base) && BoundAt(s, i, q)
    ensures var (s', r) := Disarm(s, q, owner);
            && q in s.resources
            && (r == Done <==> s.resources[q].owner == owner)
            && (r != Done ==> s' == s)
            && (r == Done ==> Drives(s, s', i, true, IrqEvents.Disarm(s.resources[q].events)))
  {
    hide Inv;
    FindIs(s, i, q, base);
  }

  // ---------------------------------------------------------- binding and unbinding

  /** The binding is gone, its entry is what the lease saved apart from the hardware's
      own bit, and its resource has those events. */
  predicate Drops(s: Router, s': Router, i: nat, events: IrqEvents.Irq)
    requires Live(s.bindings, i)
  {
    var b := s.bindings[i].value;
    && OnlyBinding(s, s', i)
    && b.lease.gsi in s.pins && b.irq in s.resources
    && s'.bindings[i].None?
    && s'.pins[b.lease.gsi] == b.lease.saved.(busy := s.pins[b.lease.gsi].busy)
    && s'.resources[b.irq] == s.resources[b.irq].(events := events)
  }

  /** Unbinding works exactly on a disarmed resource. */
  lemma UnbindExact(s: Router, q: nat, authorized: bool, i: nat, base: map<nat, Entry>)
    requires Inv(s, base) && BoundAt(s, i, q)
    ensures var (s', r) := Unbind(s, q, authorized);
            && q in s.resources
            && (r == Done <==> authorized && s.resources[q].events.phase == IrqEvents.Disarmed)
            && (r != Done ==> s' == s)
            && (r == Done ==> Drops(s, s', i, s.resources[q].events))
  {
    hide Inv;
    FindIs(s, i, q, base);
  }

  /** The owner can always unbind by force, whatever the resource is doing. */
  lemma ForceUnbindExact(s: Router, q: nat, owner: nat, i: nat, base: map<nat, Entry>)
    requires Inv(s, base) && BoundAt(s, i, q)
    ensures var (s', r) := ForceUnbind(s, q, owner);
            && q in s.resources
            && (r == Done <==> s.resources[q].owner == owner)
            && (r != Done ==> s' == s)
            && (r == Done ==> Drops(s, s', i, IrqEvents.Disarm(s.resources[q].events)))
  {
    hide Inv;
    FindIs(s, i, q, base);
  }

  /** Binding works exactly when the resource is disarmed and unbound and the entry is
      idle, masked and not leased. The new binding names the resource and its owner, has a
      vector of its own, and remembers the entry it replaced. */
  lemma BindExact(s: Router, q: nat, authorized: bool, gsi: nat, route: nat, high: nat, base: map<nat, Entry>)
    requires Inv(s, base)
    ensures var (s', r) := Bind(s, q, authorized, gsi, route, high);
            && (r == Done <==>
                  && authorized && q in s.resources && s.resources[q].events.phase == IrqEvents.Disarmed
                  && !Bound(s, q) && !GsiInUse(s.bindings, gsi) && Empty(s.bindings) < |s.bindings|
                  && gsi in s.pins && s.pins[gsi].masked && !s.pins[gsi].busy)
            && (r != Done ==> s' == s)
            && (r == Done ==> Adds(s, s', q, gsi, route, high))
  {
    hide GsiInUse;
    var n := Find(s.bindings, q, 0);
    assert n < |s.bindings| ==> BoundTo(s.bindings[n], q);
    if Empty(s.bindings) < |s.bindings| {
      FreeSlotFreeVector(s.bindings);
    }
    if Bind(s, q, authorized, gsi, route, high).1 == Done {
      var v := FreeVector(s.bindings, VECTOR_FIRST);
      forall i | 0 <= i < |s.bindings| ensures !OnVector(s.bindings[i], v) {
      }
    }
  }

  ghost predicate Adds(s: Router, s': Router, q: nat, gsi: nat, route: nat, high: nat) {
    var slot := Empty(s.bindings);
    && slot < |s.bindings| && Live(s'.bindings, slot) && s'.bindings == s.bindings[slot := s'.bindings[slot]]
    && gsi in s.pins && q in s.resources
    && s'.pins == s.pins[gsi := Entry(route, true, high, s.pins[gsi].busy)] && s'.resources == s.resources
    && var b := s'.bindings[slot].value;
       && b == Binding(q, s.resources[q].id, s.resources[q].owner, Lease(gsi, b.vector, s.pins[gsi], route, high),
                       b.vector, true)
       && VECTOR_FIRST <= b.vector <= VECTOR_LAST
       && forall i :: 0 <= i < |s.bindings| ==> !OnVector(s.bindings[i], b.vector)
  }

  /** Binding and then unbinding puts everything back. */
  lemma BindThenUnbind(s: Router, q: nat, gsi: nat, route: nat, high: nat, base: map<nat, Entry>)
    requires Inv(s, base) && Bind(s, q, true, gsi, route, high).1 == Done
    ensures Unbind(Bind(s, q, true, gsi, route, high).0, q, true) == (s, Done)
  {
    hide Inv, GsiInUse, Find, FreeVector;
    var s1 := Bind(s, q, true, gsi, route, high).0;
    BindExact(s, q, true, gsi, route, high, base);
    BindInv(s, q, true, gsi, route, high, base);
    var slot := Empty(s.bindings);
    UnbindExact(s1, q, true, slot, base);
    var s2 := Unbind(s1, q, true).0;
    assert s2.bindings == s.bindings;
    assert s2.pins == s.pins;
    assert s2.resources == s.resources;
  }

  // ------------------------------------------------------------------- a whole cycle

  /** The signal, taken and acknowledged: one interrupt on an open source puts the next
      sequence number in the owner's mailbox behind a masked source; once the owner has
      taken it and acknowledged it, the source is open again and only the counters of
      that resource differ. */
  lemma InterruptCycle(s: Router, i: nat, q: nat, base: map<nat, Entry>)
    requires Inv(s, base) && BoundAt(s, i, q) && !s.bindings[i].value.masked && q in s.resources
    requires var x := s.resources[q].events; IrqEvents.Wf(x) && x.open && x.next != 0
    ensures var x := s.resources[q].events;
            var s1 := HandleVector(s, s.bindings[i].value.vector, true, true).0;
            var s2 := Apply(s1, OpTake(q)).0;
            var (s3, r) := Acknowledge(s2, q, true, x.next);
            && q in s1.resources && s1.resources[q].events.mail == Some(x.next)
            && BoundAt(s1, i, q) && s1.bindings[i].value.masked
            && r == Done
            && s3 == SetEvents(s, q, x.(next := if x.next == IrqEvents.U64_MAX then 0 else x.next + 1,
                                        deliveredCount := IrqEvents.Increment(x.deliveredCount),
                                        acknowledgedCount := IrqEvents.Increment(x.acknowledgedCount),
                                        delivered := x.delivered + [x.next]))
  {
    hide Inv, GsiInUse, Find, FindVector, HandleVector, Acknowledge, IrqEvents.Signal, IrqEvents.Acknowledge,
      IrqEvents.Wf;
    var b, x := s.bindings[i].value, s.resources[q].events;
    FindIs(s, i, q, base);
    HandleExact(s, b.vector, true, true, base);
    HandleInv(s, b.vector, true, true, base);
    EventCycle(x);
    var s1 := HandleVector(s, b.vector, true, true).0;
    assert Drives(s, s1, i, true, IrqEvents.Signal(x, true));
    TakeInv(s1, q, base);
    var s2 := Apply(s1, OpTake(q)).0;
    AcknowledgeExact(s2, q, true, x.next, i, base);
    var s3 := Acknowledge(s2, q, true, x.next).0;
    assert s3.bindings == s.bindings;
    assert s3.pins == s.pins;
    var y := IrqEvents.Acknowledge(IrqEvents.Take(IrqEvents.Signal(x, true)), x.next);
    assert s3.resources == s.resources[q := s.resources[q].(events := y)];
  }

  /** The same cycle for the resource alone. */
  lemma EventCycle(x: IrqEvents.Irq)
    requires IrqEvents.Wf(x) && x.phase == IrqEvents.Armed && x.open && x.next != 0
    ensures var x1 := IrqEvents.Signal(x, true);
            var x2 := IrqEvents.Take(x1);
            && x1.mail == Some(x.next) && x2.phase == IrqEvents.Pending && IrqEvents.CanAcknowledge(x2, x.next)
            && IrqEvents.Acknowledge(x2, x.next) ==
               x.(next := if x.next == IrqEvents.U64_MAX then 0 else x.next + 1,
                  deliveredCount := IrqEvents.Increment(x.deliveredCount),
                  acknowledgedCount := IrqEvents.Increment(x.acknowledgedCount),
                  delivered := x.delivered + [x.next])
  {
    hide IrqEvents.Increasing;
  }
}
