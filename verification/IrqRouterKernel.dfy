/** The router's binding table and redirection entries, updated in place. */
module IrqRouterKernel {
  import opened Slots
  import opened IrqRouter
  import IrqEvents

  class Table {
    var bindings: Registry<Binding>
    var pins: map<nat, Entry>
    var resources: map<nat, Resource>

    function View(): Router
      reads this
    {
      Router(bindings, pins, resources)
    }

    method FindIrq(q: nat) returns (i: nat)
      ensures i == Find(bindings, q, 0)
    {
      i := 0;
      while i < |bindings|
        invariant 0 <= i <= |bindings| && Find(bindings, q, 0) == Find(bindings, q, i)
      {
        if BoundTo(bindings[i], q) {
          return;
        }
        i := i + 1;
      }
    }

    method FindOnVector(vector: nat) returns (i: nat)
      ensures i == FindVector(bindings, vector, 0)
    {
      i := 0;
      while i < |bindings|
        invariant 0 <= i <= |bindings| && FindVector(bindings, vector, 0) == FindVector(bindings, vector, i)
      {
        if OnVector(bindings[i], vector) {
          return;
        }
        i := i + 1;
      }
    }

    method UsesGsi(gsi: nat) returns (used: bool)
      ensures used == GsiInUse(bindings, gsi)
    {
      var i := 0;
      while i < |bindings|
        invariant 0 <= i <= |bindings|
        invariant forall j :: 0 <= j < i && bindings[j].Some? ==> bindings[j].value.lease.gsi != gsi
      {
        if bindings[i].Some? && bindings[i].value.lease.gsi == gsi {
          return true;
        }
        i := i + 1;
      }
      return false;
    }

    /** One lookup for each vector until one is unused. */
    method AllocateVector() returns (vector: nat)
      ensures vector == FreeVector(bindings, VECTOR_FIRST)
    {
      var v := VECTOR_FIRST;
      while v <= VECTOR_LAST
        invariant VECTOR_FIRST <= v <= VECTOR_LAST + 1 && FreeVector(bindings, VECTOR_FIRST) == FreeVector(bindings, v)
      {
        var i := FindOnVector(v);
        if i == |bindings| {
          return v;
        }
        v := v + 1;
      }
      return 0;
    }

    method BindSource(q: nat, authorized: bool, gsi: nat, route: nat, high: nat) returns (r: Result)
      modifies `bindings, `pins
      ensures (View(), r) == Bind(old(View()), q, authorized, gsi, route, high)
    {
      if q !in resources || !authorized || resources[q].events.phase != IrqEvents.Disarmed {
        return Refused;
      }
      var bound := FindIrq(q);
      var used := UsesGsi(gsi);
      if bound < |bindings| || used {
        return Refused;
      }
      var vector := AllocateVector();
      var slot := FindEmpty(bindings);
      if vector == 0 || slot >= |bindings| || gsi !in pins || !pins[gsi].masked || pins[gsi].busy {
        return Refused;
      }
      var lease := Lease(gsi, vector, pins[gsi], route, high);
      pins := pins[gsi := Entry(route, true, high, pins[gsi].busy)];
      bindings := bindings[slot := Some(Binding(q, resources[q].id, resources[q].owner, lease, vector, true))];
      return Done;
    }

    method Mask(i: nat, masked: bool)
      requires Live(bindings, i) && bindings[i].value.lease.gsi in pins
      modifies `bindings, `pins
      ensures View() == Masking(old(View()), i, masked)
    {
      pins := SetMask(pins, bindings[i].value.lease, masked);
      bindings := bindings[i := Some(bindings[i].value.(masked := masked))];
    }

    /** `pci_irq_router_handle_vector`. */
    method Interrupt(vector: nat, active: bool, accepted: bool) returns (r: Result)
      modifies this
      ensures (View(), r) == HandleVector(old(View()), vector, active, accepted)
    {
      if !(VECTOR_FIRST <= vector <= VECTOR_LAST) {
        return Refused;
      }
      var i := FindOnVector(vector);
      if i == |bindings| || !BindingValid(View(), bindings[i].value) {
        return Refused;
      }
      var q := bindings[i].value.irq;
      Mask(i, true);
      if active {
        resources := resources[q := resources[q].(events := IrqEvents.Signal(resources[q].events, accepted))];
      }
      return Done;
    }

    method ArmSource(q: nat, authorized: bool) returns (r: Result)
      modifies this
      ensures (View(), r) == Arm(old(View()), q, authorized)
    {
      var i := FindIrq(q);
      if i == |bindings| || !BindingValid(View(), bindings[i].value) || !bindings[i].value.masked || !authorized ||
         resources[q].events.phase != IrqEvents.Disarmed
      {
        return Refused;
      }
      resources := resources[q := resources[q].(events := IrqEvents.Arm(resources[q].events))];
      Mask(i, false);
      return Done;
    }

    method Release(i: nat) returns (r: Result)
      requires Live(bindings, i)
      modifies `bindings, `pins
      ensures (View(), r) == ReleaseBinding(old(View()), i)
    {
      var b := bindings[i].value;
      if !BindingValid(View(), b) || !b.masked || resources[b.irq].events.phase != IrqEvents.Disarmed {
        return Refused;
      }
      pins := Restore(pins, b.lease);
      bindings := bindings[i := None];
      return Done;
    }

    /** `force_disarm_locked` in the router: mask first, then disarm. */
    method QuiesceOne(i: nat, owner: nat, ghost base: map<nat, Entry>) returns (ok: bool)
      requires Inv(View(), base) && Live(bindings, i)
      modifies this
      ensures Inv(View(), base)
      ensures ok == (old(bindings[i].value.owner) == owner)
      ensures View() == if ok then ForceDisarm(old(View()), i, owner).0 else old(View())
    {
      hide Inv, GsiInUse;
      BindingHere(View(), i, base);
      var b := bindings[i].value;
      if b.owner != owner {
        return false;
      }
      ForceDisarmInv(View(), i, owner, base);
      Mask(i, true);
      resources := resources[b.irq := resources[b.irq].(events := IrqEvents.Disarm(resources[b.irq].events))];
      assert View() == ForceDisarm(old(View()), i, owner).0;
      return true;
    }

    /** `pci_irq_router_force_quiesce_assignment`. It succeeds exactly when every binding
        of the device belongs to that owner; then each of them is masked and its
        resource disarmed, `count` says how many there were, and every other binding,
        its resource and its entry are as they were. */
    method QuiesceDevice(device: nat, owner: nat, ghost base: map<nat, Entry>) returns (ok: bool, count: nat)
      requires Inv(View(), base)
      modifies this
      ensures Inv(View(), base)
      ensures ok <==> forall j: nat :: Live(old(bindings), j) ==> OwnedIf(old(View()), j, device, owner)
      ensures exists n: nat ::
        n <= |old(bindings)| && (ok ==> n == |old(bindings)|) && Quieted(old(View()), View(), device, n)
      ensures ok ==> count == Sum(old(bindings), OfDevice(old(resources), device))
    {
      hide Inv, Sum;
      ghost var was := View();
      QuietedNone(was, device, base);
      count := 0;
      var i: nat := 0;
      SumZero(bindings[..0], OfDevice(resources, device));
      while i < |bindings|
        invariant i <= |bindings| == |was.bindings| && Inv(View(), base) && Quieted(was, View(), device, i)
        invariant forall j: nat :: j < i && Live(was.bindings, j) ==> OwnedIf(was, j, device, owner)
        invariant count == Sum(was.bindings[..i], OfDevice(was.resources, device))
      {
        SumSnoc(was.bindings, i, OfDevice(was.resources, device));
        assert Turned(was, View(), i, device, i);
        assert Live(bindings, i) <==> Live(was.bindings, i);
        if bindings[i].Some? {
          BindingHere(View(), i, base);
          if resources[bindings[i].value.irq].device == device {
            ghost var s := View();
            ok := QuiesceOne(i, owner, base);
            if !ok {
              return;
            }
            QuietedTurn(was, s, View(), i, owner, device, base);
            count := count + 1;
          } else {
            QuietedSkip(was, View(), i, device);
          }
        } else {
          QuietedSkip(was, View(), i, device);
        }
        i := i + 1;
      }
      assert was.bindings[..i] == was.bindings;
      ok := true;
    }
  }

  /** One for a binding of the device. */
  function OfDevice(resources: map<nat, Resource>, device: nat): Option<Binding> -> nat {
    (b: Option<Binding>) => if b.Some? && b.value.irq in resources &&
      resources[b.value.irq].device == device then 1 else 0
  }

  predicate OwnedIf(s: Router, j: nat, device: nat, owner: nat)
    requires Live(s.bindings, j)
  {
    OfDevice(s.resources, device)(s.bindings[j]) == 1 ==> s.bindings[j].value.owner == owner
  }

  /** What became of binding `j` when the pass has visited `n` slots: quiet if it is
      among them and the device's, and otherwise as it was, with its resource and its entry. */
  predicate Turned(s: Router, s': Router, j: nat, device: nat, n: nat) {
    Live(s.bindings, j) ==>
      && Live(s'.bindings, j)
      && var b, b' := s.bindings[j].value, s'.bindings[j].value;
         && b.irq in s.resources && b.irq in s'.resources && b.lease.gsi in s.pins && b.lease.gsi in s'.pins
         && if j < n && s.resources[b.irq].device == device then
              && b' == b.(masked := true) && s'.pins[b.lease.gsi].masked
              && s'.resources[b.irq] == s.resources[b.irq].(events := IrqEvents.Disarm(s.resources[b.irq].events))
            else
              b' == b && s'.resources[b.irq] == s.resources[b.irq] && s'.pins[b.lease.gsi] == s.pins[b.lease.gsi]
  }

  /** The pass has visited the first `n` slots. */
  ghost predicate Quieted(s: Router, s': Router, device: nat, n: nat) {
    && |s'.bindings| == |s.bindings|
    && (forall j: nat :: Live(s'.bindings, j) ==> Live(s.bindings, j))
    && (forall j: nat :: Turned(s, s', j, device, n))
  }

  lemma BindingHere(s: Router, i: nat, base: map<nat, Entry>)
    requires Inv(s, base) && Live(s.bindings, i)
    ensures BindingValid(s, s.bindings[i].value)
  {
    assert BindingOk(s, s.bindings[i].value);
  }

  lemma QuietedNone(s: Router, device: nat, base: map<nat, Entry>)
    requires Inv(s, base)
    ensures Quieted(s, s, device, 0)
  {
    hide Inv;
    forall j: nat ensures Turned(s, s, j, device, 0) {
      if Live(s.bindings, j) {
        BindingHere(s, j, base);
      }
    }
  }

  lemma QuietedSkip(was: Router, s: Router, i: nat, device: nat)
    requires Quieted(was, s, device, i) && i < |s.bindings|
    requires Live(s.bindings, i) ==>
      s.bindings[i].value.irq in s.resources && s.resources[s.bindings[i].value.irq].device != device
    ensures Quieted(was, s, device, i + 1)
  {
    var n: nat := i + 1;
    forall j: nat ensures Turned(was, s, j, device, n) {
      assert Turned(was, s, j, device, i);
    }
  }

  lemma QuietedTurn(was: Router, s: Router, s': Router, i: nat, owner: nat, device: nat, base: map<nat, Entry>)
    requires Quieted(was, s, device, i) && Inv(s, base) && Live(s.bindings, i) && s.bindings[i].value.irq in s.resources
    requires s.resources[s.bindings[i].value.irq].device == device && ForceDisarm(s, i, owner) == (s', Done)
    ensures Quieted(was, s', device, i + 1)
  {
    hide GsiInUse;
    var n: nat := i + 1;
    forall j: nat ensures Turned(was, s', j, device, n) {
      assert Turned(was, s, j, device, i);
      if Live(was.bindings, j) && j != i {
        assert Apart(s.bindings[j].value, s.bindings[i].value);
      }
    }
  }
}
