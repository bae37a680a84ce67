/**
 Routing of PCI interrupts (kernel/pci_irq_router.c and the lease functions of
 kernel/interrupt_controller.c): bindings lease IOAPIC redirection entries and
 mask them until the owner has dealt with each interrupt.
 */
module IrqRouter {
  import opened Slots
  import IrqEvents

  const VECTOR_FIRST: nat := 0x22
  const VECTOR_LAST: nat := 0x2F
  const BINDINGS: nat := 14

  // -------------------------------------------------------------- data model

  /** A redirection entry: routing bits with the vector, mask bit, destination, and
      the delivery status and remote IRR bits, which only the hardware changes. */
  datatype Entry = Entry(route: nat, masked: bool, high: nat, busy: bool)

  datatype Lease = Lease(gsi: nat, vector: nat, saved: Entry, route: nat, high: nat)

  datatype Binding = Binding(irq: nat, id: nat, owner: nat, lease: Lease, vector: nat, masked: bool)

  datatype Resource = Resource(id: nat, owner: nat, device: nat, events: IrqEvents.Irq)

  datatype Router = Router(bindings: Registry<Binding>, pins: map<nat, Entry>, resources: map<nat, Resource>)

  datatype Result = Done | Refused | Halt

  // ------------------------------------------------------------------ lookups

  predicate BoundTo(b: Option<Binding>, q: nat) {
    b.Some? && b.value.irq == q
  }

  predicate OnVector(b: Option<Binding>, vector: nat) {
    b.Some? && b.value.vector == vector
  }

  /** First binding from `i` with the resource, or the capacity. */
  function Find(bindings: Registry<Binding>, q: nat, i: nat): (n: nat)
    requires i <= |bindings|
    ensures i <= n <= |bindings|
    ensures n < |bindings| ==> BoundTo(bindings[n], q)
    ensures forall j :: i <= j < n ==> !BoundTo(bindings[j], q)
    decreases |bindings| - i
  {
    if i == |bindings| || BoundTo(bindings[i], q) then i else Find(bindings, q, i + 1)
  }

  function FindVector(bindings: Registry<Binding>, vector: nat, i: nat): (n: nat)
    requires i <= |bindings|
    ensures i <= n <= |bindings|
    ensures n < |bindings| ==> OnVector(bindings[n], vector)
    ensures forall j :: i <= j < n ==> !OnVector(bindings[j], vector)
    decreases |bindings| - i
  {
    if i == |bindings| || OnVector(bindings[i], vector) then i else FindVector(bindings, vector, i + 1)
  }

  predicate GsiInUse(bindings: Registry<Binding>, gsi: nat) {
    exists i :: 0 <= i < |bindings| && bindings[i].Some? && bindings[i].value.lease.gsi == gsi
  }

  /** First vector from `vector` that no binding uses, or zero. */
  function FreeVector(bindings: Registry<Binding>, vector: nat): (v: nat)
    requires 0 < vector
    ensures v != 0 ==> vector <= v <= VECTOR_LAST && FindVector(bindings, v, 0) == |bindings|
    ensures v == 0 ==> forall w :: vector <= w <= VECTOR_LAST ==> FindVector(bindings, w, 0) < |bindings|
    decreases VECTOR_LAST + 1 - vector
  {
    if vector > VECTOR_LAST then 0
    else if FindVector(bindings, vector, 0) == |bindings| then vector
    else FreeVector(bindings, vector + 1)
  }

  // ------------------------------------------------------------------- leases

  /** `lease_current_locked`: the entry is still the one the lease wrote. */
  predicate Current(pins: map<nat, Entry>, l: Lease) {
    l.gsi in pins && pins[l.gsi].route == l.route && pins[l.gsi].high == l.high
  }

  function SetMask(pins: map<nat, Entry>, l: Lease, masked: bool): map<nat, Entry>
    requires l.gsi in pins
  {
    pins[l.gsi := pins[l.gsi].(masked := masked)]
  }

  /** Put the saved routing, destination and mask back. */
  function Restore(pins: map<nat, Entry>, l: Lease): map<nat, Entry>
    requires l.gsi in pins
  {
    pins[l.gsi := l.saved.(busy := pins[l.gsi].busy)]
  }

  predicate BindingValid(s: Router, b: Binding) {
    && VECTOR_FIRST <= b.vector <= VECTOR_LAST && b.lease.vector == b.vector
    && b.irq in s.resources && s.resources[b.irq].id == b.id && s.resources[b.irq].owner == b.owner
    && Current(s.pins, b.lease) && s.pins[b.lease.gsi].masked == b.masked
  }

  // --------------------------------------------------------------- operations

  function PutBinding(s: Router, i: nat, b: Binding): Router
    requires i < |s.bindings|
  {
    s.(bindings := s.bindings[i := Some(b)])
  }

  function SetEvents(s: Router, q: nat, events: IrqEvents.Irq): Router
    requires q in s.resources
  {
    s.(resources := s.resources[q := s.resources[q].(events := events)])
  }

  /** Change the mask in the entry and in the binding together. */
  function Masking(s: Router, i: nat, masked: bool): Router
    requires Live(s.bindings, i) && s.bindings[i].value.lease.gsi in s.pins
  {
    var b := s.bindings[i].value;
    PutBinding(s, i, b.(masked := masked)).(pins := SetMask(s.pins, b.lease, masked))
  }

  /** `authorized` covers the capability and the device's interrupt pin; the route
      to use is what the firmware tables give for its interrupt line. */
  function Bind(s: Router, q: nat, authorized: bool, gsi: nat, route: nat, high: nat): (Router, Result) {
    if q !in s.resources || !authorized || s.resources[q].events.phase != IrqEvents.Disarmed ||
      Find(s.bindings, q, 0) < |s.bindings| ||
       GsiInUse(s.bindings, gsi)
    then (s, Refused)
    else
      var vector := FreeVector(s.bindings, VECTOR_FIRST);
      var slot := Empty(s.bindings);
      if vector == 0 || slot == |s.bindings| || gsi !in s.pins || !s.pins[gsi].masked ||
        s.pins[gsi].busy then (s, Refused)
      else
        var lease := Lease(gsi, vector, s.pins[gsi], route, high);
        var x := s.resources[q];
        (PutBinding(s, slot, Binding(q, x.id, x.owner, lease, vector, true))
           .(pins := s.pins[gsi := Entry(route, true, high, s.pins[gsi].busy)]), Done)
  }

  function ReleaseBinding(s: Router, i: nat): (Router, Result)
    requires Live(s.bindings, i)
  {
    var b := s.bindings[i].value;
    if !BindingValid(s, b) || !b.masked || s.resources[b.irq].events.phase != IrqEvents.Disarmed then (s, Refused)
    else (s.(bindings := s.bindings[i := None], pins := Restore(s.pins, b.lease)), Done)
  }

  function Unbind(s: Router, q: nat, authorized: bool): (Router, Result) {
    var i := Find(s.bindings, q, 0);
    if i == |s.bindings| || !authorized then (s, Refused) else ReleaseBinding(s, i)
  }

  /** After the resource has become ARMED, open its source. */
  function OpenSource(s: Router, i: nat): (Router, Result)
    requires Live(s.bindings, i)
  {
    var b := s.bindings[i].value;
    if Current(s.pins, b.lease) then (Masking(s, i, false), Done)
    else if b.irq !in s.resources then (s, Halt)
    else (SetEvents(s, b.irq, IrqEvents.Disarm(s.resources[b.irq].events)), Refused)
  }

  function Arm(s: Router, q: nat, authorized: bool): (Router, Result) {
    var i := Find(s.bindings, q, 0);
    if i == |s.bindings| || !BindingValid(s, s.bindings[i].value) || !s.bindings[i].value.masked || !authorized ||
       s.resources[q].events.phase != IrqEvents.Disarmed
    then (s, Refused)
    else OpenSource(SetEvents(s, q, IrqEvents.Arm(s.resources[q].events)), i)
  }

  function Acknowledge(s: Router, q: nat, authorized: bool, sequence: nat): (Router, Result) {
    var i := Find(s.bindings, q, 0);
    if i == |s.bindings| || !BindingValid(s, s.bindings[i].value) || !s.bindings[i].value.masked || !authorized ||
       !IrqEvents.CanAcknowledge(s.resources[q].events, sequence)
    then (s, Refused)
    else
      var s1 := SetEvents(s, q, IrqEvents.Acknowledge(s.resources[q].events, sequence));
      if s1.resources[q].events.phase == IrqEvents.Armed then OpenSource(s1, i) else (s1, Done)
  }

  function RecoverStorm(s: Router, q: nat, authorized: bool): (Router, Result) {
    var i := Find(s.bindings, q, 0);
    if i == |s.bindings| || !BindingValid(s, s.bindings[i].value) || !s.bindings[i].value.masked || !authorized ||
       !IrqEvents.CanRecoverStorm(s.resources[q].events)
    then (s, Refused)
    else OpenSource(SetEvents(s, q, IrqEvents.RecoverStorm(s.resources[q].events)), i)
  }

  /** Close the source, then disarm the resource. */
  function ForceDisarm(s: Router, i: nat, owner: nat): (Router, Result)
    requires Live(s.bindings, i)
  {
    var b := s.bindings[i].value;
    if !BindingValid(s, b) || b.owner != owner then (s, Refused)
    else (SetEvents(Masking(s, i, true), b.irq, IrqEvents.Disarm(s.resources[b.irq].events)), Done)
  }

  function Disarm(s: Router, q: nat, owner: nat): (Router, Result) {
    var i := Find(s.bindings, q, 0);
    if i == |s.bindings| then (s, Refused) else ForceDisarm(s, i, owner)
  }

  function ForceUnbind(s: Router, q: nat, owner: nat): (Router, Result) {
    var i := Find(s.bindings, q, 0);
    if i == |s.bindings| || !BindingValid(s, s.bindings[i].value) ||
      s.bindings[i].value.owner != owner then (s, Refused)
    else
      var s1 := if s.resources[q].events.phase != IrqEvents.Disarmed then ForceDisarm(s, i, owner).0 else s;
      if !Live(s1.bindings, i) then (s1, Refused) else ReleaseBinding(s1, i)
  }

  /** An interrupt arrives: mask first, then tell the resource. `active`: its
      device is still assigned, so the resource takes the signal. */
  function HandleVector(s: Router, vector: nat, active: bool, accepted: bool): (Router, Result) {
    var i := FindVector(s.bindings, vector, 0);
    if !(VECTOR_FIRST <= vector <= VECTOR_LAST) || i == |s.bindings| ||
      !BindingValid(s, s.bindings[i].value) then (s, Refused)
    else
      var s1 := Masking(s, i, true);
      var q := s.bindings[i].value.irq;
      (if active then SetEvents(s1, q, IrqEvents.Signal(s1.resources[q].events, accepted)) else s1, Done)
  }

  datatype Op =
    | OpBind(q: nat, authorized: bool, gsi: nat, route: nat, high: nat)
    | OpUnbind(q: nat, authorized: bool)
    | OpArm(q: nat, authorized: bool)
    | OpAcknowledge(q: nat, authorized: bool, sequence: nat)
    | OpRecoverStorm(q: nat, authorized: bool)
    | OpDisarm(q: nat, owner: nat)
    | OpForceUnbind(q: nat, owner: nat)
    | OpHandleVector(vector: nat, active: bool, accepted: bool)
    | OpTake(q: nat)
    | OpHardware(gsi: nat, busy: bool)
    | OpCreate(q: nat, id: nat, owner: nat, device: nat)
    | OpDestroy(q: nat)

  /** Resources outside the router: the owner takes its event, the hardware's status
      bits change, and unbound resources come and go. */
  function Apply(s: Router, op: Op): (Router, Result) {
    match op
    case OpBind(q, authorized, gsi, route, high) => Bind(s, q, authorized, gsi, route, high)
    case OpUnbind(q, authorized) => Unbind(s, q, authorized)
    case OpArm(q, authorized) => Arm(s, q, authorized)
    case OpAcknowledge(q, authorized, sequence) => Acknowledge(s, q, authorized, sequence)
    case OpRecoverStorm(q, authorized) => RecoverStorm(s, q, authorized)
    case OpDisarm(q, owner) => Disarm(s, q, owner)
    case OpForceUnbind(q, owner) => ForceUnbind(s, q, owner)
    case OpHandleVector(vector, active, accepted) => HandleVector(s, vector, active, accepted)
    case OpTake(q) =>
      if q in s.resources then (SetEvents(s, q, IrqEvents.Take(s.resources[q].events)), Done) else (s, Refused)
    case OpHardware(gsi, busy) =>
      if gsi in s.pins then (s.(pins := s.pins[gsi := s.pins[gsi].(busy := busy)]), Done) else (s, Refused)
    case OpCreate(q, id, owner, device) =>
      if q in s.resources then (s, Refused)
      else (s.(resources := s.resources[q := Resource(id, owner, device, IrqEvents.Fresh)]), Done)
    case OpDestroy(q) =>
      if q !in s.resources || Find(s.bindings, q, 0) < |s.bindings| ||
        s.resources[q].events.phase != IrqEvents.Disarmed then (s, Refused)
      else (s.(resources := s.resources - {q}), Done)
  }

  // ------------------------------------------------------------ the invariant

  /** A binding holds its entry, and an open source means an armed resource. */
  predicate BindingOk(s: Router, b: Binding) {
    && BindingValid(s, b)
    && b.lease.saved.masked
    && (!b.masked ==> s.resources[b.irq].events.phase == IrqEvents.Armed)
  }

  predicate Apart(b: Binding, c: Binding) {
    b.irq != c.irq && b.vector != c.vector && b.lease.gsi != c.lease.gsi
  }

  /** What an entry is apart from the hardware's own status bits. */
  predicate Same(e: Entry, f: Entry) {
    e.route == f.route && e.masked == f.masked && e.high == f.high
  }

  /** `base` is what the entries were before any binding: a leased entry is saved
      in its lease, and every other is in place. */
  ghost predicate Inv(s: Router, base: map<nat, Entry>) {
    && |s.bindings| == BINDINGS
    && (forall i: nat :: Live(s.bindings, i) ==> BindingOk(s, s.bindings[i].value))
    && (forall i: nat, j: nat :: Live(s.bindings, i) && Live(s.bindings, j) && i < j ==>
      Apart(s.bindings[i].value, s.bindings[j].value))
    && s.pins.Keys == base.Keys
    && (forall i: nat :: Live(s.bindings, i) ==>
      Same(s.bindings[i].value.lease.saved, base[s.bindings[i].value.lease.gsi]))
    && (forall gsi :: gsi in s.pins && !GsiInUse(s.bindings, gsi) ==> Same(s.pins[gsi], base[gsi]))
  }

  // ------------------------------------------------------------------- vectors

  /** As many bindings as vectors: a free slot means a free vector. */
  lemma FreeSlotFreeVector(bindings: Registry<Binding>)
    requires |bindings| == BINDINGS && Empty(bindings) < BINDINGS
    ensures FreeVector(bindings, VECTOR_FIRST) != 0
  {
    if FreeVector(bindings, VECTOR_FIRST) == 0 {
      var owners := seq(BINDINGS, v requires 0 <= v < BINDINGS => FindVector(bindings, VECTOR_FIRST + v, 0));
      forall i | 0 <= i < |owners| ensures owners[i] < BINDINGS && owners[i] != Empty(bindings) {
        assert FindVector(bindings, VECTOR_FIRST + i, 0) < |bindings|;
      }
      forall i, j | 0 <= i < j < |owners| ensures owners[i] != owners[j] {
        assert FindVector(bindings, VECTOR_FIRST + i, 0) < |bindings| &&
          FindVector(bindings, VECTOR_FIRST + j, 0) < |bindings|;
      }
      Pigeonhole(owners, BINDINGS, Empty(bindings));
    }
  }

  // --------------------------------------------------------------------- steps

  /** Nothing that another binding relies on has changed. */
  predicate Spared(s: Router, s': Router, b: Binding) {
    && b.lease.gsi in s.pins && b.lease.gsi in s'.pins && Same(s'.pins[b.lease.gsi], s.pins[b.lease.gsi])
    && b.irq in s.resources && b.irq in s'.resources && s'.resources[b.irq].id == s.resources[b.irq].id
    && s'.resources[b.irq].owner == s.resources[b.irq].owner
    && (s.resources[b.irq].events.phase == IrqEvents.Armed ==> s'.resources[b.irq].events.phase == IrqEvents.Armed)
  }

  /** One binding changes, with its own entry and resource. */
  lemma Edited(s: Router, s': Router, i: nat, base: map<nat, Entry>)
    requires Inv(s, base) && i < BINDINGS && |s'.bindings| == BINDINGS && s'.bindings == s.bindings[i := s'.bindings[i]]
    requires s'.pins.Keys == s.pins.Keys
    requires forall j: nat :: Live(s.bindings, j) && j != i ==> Spared(s, s', s.bindings[j].value)
    requires s'.bindings[i].Some? ==>
               && BindingOk(s', s'.bindings[i].value)
               && Same(s'.bindings[i].value.lease.saved, base[s'.bindings[i].value.lease.gsi])
               && (forall j: nat :: Live(s.bindings, j) && j != i ==> Apart(s.bindings[j].value, s'.bindings[i].value))
    requires forall gsi :: gsi in s'.pins && !GsiInUse(s'.bindings, gsi) ==> Same(s'.pins[gsi], base[gsi])
    ensures Inv(s', base)
  {
    hide GsiInUse;
    forall j: nat | Live(s'.bindings, j) && j != i ensures BindingOk(s', s'.bindings[j].value) {
      assert BindingOk(s, s.bindings[j].value) && Spared(s, s', s.bindings[j].value);
    }
  }

  /** Same leases, same entries in use. */
  lemma UseStays(bindings: Registry<Binding>, bindings': Registry<Binding>, i: nat)
    requires Live(bindings, i) && |bindings'| == |bindings| && bindings' == bindings[i := bindings'[i]]
    requires bindings'[i].Some? && bindings'[i].value.lease.gsi == bindings[i].value.lease.gsi
    ensures forall gsi :: GsiInUse(bindings', gsi) <==> GsiInUse(bindings, gsi)
  {
    forall gsi ensures GsiInUse(bindings', gsi) <==> GsiInUse(bindings, gsi) {
      if GsiInUse(bindings, gsi) {
        var j :| 0 <= j < |bindings| && bindings[j].Some? && bindings[j].value.lease.gsi == gsi;
        assert bindings'[j].Some? && bindings'[j].value.lease.gsi == gsi;
      }
      if GsiInUse(bindings', gsi) {
        var j :| 0 <= j < |bindings'| && bindings'[j].Some? && bindings'[j].value.lease.gsi == gsi;
        assert bindings[j].Some? && bindings[j].value.lease.gsi == gsi;
      }
    }
  }

  /** Binding `i` changes its mask, and its resource its events. */
  lemma Driven(s: Router, i: nat, masked: bool, events: IrqEvents.Irq, base: map<nat, Entry>)
    requires Inv(s, base) && Live(s.bindings, i)
    requires !masked ==> events.phase == IrqEvents.Armed
    ensures var q := s.bindings[i].value.irq;
            && s.bindings[i].value.lease.gsi in s.pins && q in s.resources
            && Inv(SetEvents(Masking(s, i, masked), q, events), base)
  {
    var b := s.bindings[i].value;
    assert BindingOk(s, b);
    var s' := SetEvents(Masking(s, i, masked), b.irq, events);
    UseStays(s.bindings, s'.bindings, i);
    forall gsi | gsi in s'.pins && !GsiInUse(s'.bindings, gsi) ensures Same(s'.pins[gsi], base[gsi]) {
      assert s.bindings[i].Some? && s.bindings[i].value.lease.gsi == b.lease.gsi;
      assert GsiInUse(s.bindings, b.lease.gsi);
    }
    forall j: nat | Live(s.bindings, j) && j != i
      ensures Spared(s, s', s.bindings[j].value) && Apart(s.bindings[j].value, s'.bindings[i].value)
    {
      assert BindingOk(s, s.bindings[j].value);
      assert if i < j then Apart(b, s.bindings[j].value) else Apart(s.bindings[j].value, b);
    }
    Edited(s, s', i, base);
  }

  /** The same, with the mask left as it is. */
  lemma Informed(s: Router, i: nat, events: IrqEvents.Irq, base: map<nat, Entry>)
    requires Inv(s, base) && Live(s.bindings, i)
    requires s.bindings[i].value.masked || events.phase == IrqEvents.Armed
    ensures s.bindings[i].value.irq in s.resources && Inv(SetEvents(s, s.bindings[i].value.irq, events), base)
  {
    var b := s.bindings[i].value;
    assert BindingOk(s, b);
    Driven(s, i, b.masked, events, base);
    assert Masking(s, i, b.masked).bindings == s.bindings && Masking(s, i, b.masked).pins == s.pins;
  }

  lemma BindInv(s: Router, q: nat, authorized: bool, gsi: nat, route: nat, high: nat, base: map<nat, Entry>)
    requires Inv(s, base)
    ensures Inv(Bind(s, q, authorized, gsi, route, high).0, base)
  {
    var (s', r) := Bind(s, q, authorized, gsi, route, high);
    if r == Done {
      var slot := Empty(s.bindings);
      assert s'.bindings[slot].Some? && s'.bindings[slot].value.lease.gsi == gsi;
      BindUse(s.bindings, s'.bindings, slot, gsi);
      forall j: nat | Live(s.bindings, j) && j != slot
        ensures Spared(s, s', s.bindings[j].value) && Apart(s.bindings[j].value, s'.bindings[slot].value)
      {
        assert BindingOk(s, s.bindings[j].value);
        assert s.bindings[j].Some? && s.bindings[j].value.lease.gsi != gsi;
        assert !BoundTo(s.bindings[j], q);
        assert !OnVector(s.bindings[j], s'.bindings[slot].value.vector);
      }
      Edited(s, s', slot, base);
    }
  }

  lemma BindUse(bindings: Registry<Binding>, bindings': Registry<Binding>, slot: nat, gsi: nat)
    requires slot < |bindings| && bindings[slot].None? && |bindings'| == |bindings| &&
      bindings' == bindings[slot := bindings'[slot]]
    requires bindings'[slot].Some? && bindings'[slot].value.lease.gsi == gsi
    ensures forall g :: GsiInUse(bindings', g) <==> GsiInUse(bindings, g) || g == gsi
  {
    forall g ensures GsiInUse(bindings', g) <==> GsiInUse(bindings, g) || g == gsi {
      if GsiInUse(bindings, g) {
        var j :| 0 <= j < |bindings| && bindings[j].Some? && bindings[j].value.lease.gsi == g;
        assert bindings'[j].Some? && bindings'[j].value.lease.gsi == g;
      }
      if GsiInUse(bindings', g) {
        var j :| 0 <= j < |bindings'| && bindings'[j].Some? && bindings'[j].value.lease.gsi == g;
        assert j != slot ==> bindings[j].Some? && bindings[j].value.lease.gsi == g;
      }
    }
  }

  /** Releasing a binding puts its redirection entry back as it was. */
  lemma ReleaseInv(s: Router, i: nat, base: map<nat, Entry>)
    requires Inv(s, base) && Live(s.bindings, i)
    ensures var (s', r) := ReleaseBinding(s, i);
            && Inv(s', base)
            && (r == Done ==>
                  && s.bindings[i].value.lease.gsi in s'.pins
                  && Same(s'.pins[s.bindings[i].value.lease.gsi], s.bindings[i].value.lease.saved))
            && (forall gsi :: gsi in s.pins && gsi != s.bindings[i].value.lease.gsi ==>
              gsi in s'.pins && s'.pins[gsi] == s.pins[gsi])
  {
    var (s', r) := ReleaseBinding(s, i);
    var b := s.bindings[i].value;
    assert BindingOk(s, b);
    if r == Done {
      ReleaseUse(s.bindings, i);
      forall gsi | gsi in s'.pins && !GsiInUse(s'.bindings, gsi) ensures Same(s'.pins[gsi], base[gsi]) {
        assert gsi != b.lease.gsi ==> !GsiInUse(s.bindings, gsi);
      }
      forall j: nat | Live(s.bindings, j) && j != i ensures Spared(s, s', s.bindings[j].value) {
        assert BindingOk(s, s.bindings[j].value);
        assert if i < j then Apart(b, s.bindings[j].value) else Apart(s.bindings[j].value, b);
      }
      Edited(s, s', i, base);
    }
  }

  lemma ReleaseUse(bindings: Registry<Binding>, i: nat)
    requires Live(bindings, i)
    ensures forall gsi :: GsiInUse(bindings, gsi) && gsi != bindings[i].value.lease.gsi ==>
      GsiInUse(bindings[i := None], gsi)
  {
    forall gsi | GsiInUse(bindings, gsi) && gsi != bindings[i].value.lease.gsi
      ensures GsiInUse(bindings[i := None], gsi) {
      var j :| 0 <= j < |bindings| && bindings[j].Some? && bindings[j].value.lease.gsi == gsi;
      assert bindings[i := None][j].Some? && bindings[i := None][j].value.lease.gsi == gsi;
    }
  }

  lemma ResourceLives(s: Router, s': Router, q: nat, base: map<nat, Entry>)
    requires Inv(s, base) && s' == s.(resources := s'.resources) && Find(s.bindings, q, 0) == |s.bindings|
    requires forall k :: k != q ==>
      (k in s'.resources <==> k in s.resources) && (k in s.resources ==> s'.resources[k] == s.resources[k])
    ensures Inv(s', base)
  {
    hide GsiInUse;
    forall j: nat | Live(s'.bindings, j) ensures BindingOk(s', s'.bindings[j].value) {
      assert BindingOk(s, s.bindings[j].value);
      assert !BoundTo(s.bindings[j], q);
    }
  }

  lemma HardwareInv(s: Router, gsi: nat, busy: bool, base: map<nat, Entry>)
    requires Inv(s, base) && gsi in s.pins
    ensures Inv(s.(pins := s.pins[gsi := s.pins[gsi].(busy := busy)]), base)
  {
    hide GsiInUse;
    var s' := s.(pins := s.pins[gsi := s.pins[gsi].(busy := busy)]);
    forall j: nat | Live(s'.bindings, j) ensures BindingOk(s', s'.bindings[j].value) {
      assert BindingOk(s, s.bindings[j].value);
    }
  }

  /** Opening the source of a resource that has just been armed always works. */
  lemma OpenInv(s: Router, i: nat, events: IrqEvents.Irq, base: map<nat, Entry>)
    requires Inv(s, base) && Live(s.bindings, i) && events.phase == IrqEvents.Armed &&
      s.bindings[i].value.irq in s.resources
    ensures var s1 := SetEvents(s, s.bindings[i].value.irq, events);
            OpenSource(s1, i).1 == Done && Inv(OpenSource(s1, i).0, base)
  {
    assert BindingOk(s, s.bindings[i].value);
    Driven(s, i, false, events, base);
  }

  lemma StepInv(s: Router, op: Op, base: map<nat, Entry>)
    requires Inv(s, base)
    ensures Apply(s, op).1 != Halt && Inv(Apply(s, op).0, base)
  {
    hide GsiInUse, Inv;
    match op
    case OpBind(q, authorized, gsi, route, high) =>
      BindInv(s, q, authorized, gsi, route, high, base); BindNoHalt(s, q, authorized, gsi, route, high);
    case OpUnbind(q, authorized) =>
      var i := Find(s.bindings, q, 0);
      if i < |s.bindings| { ReleaseInv(s, i, base); }
    case OpArm(q, authorized) =>
      if Apply(s, op) != (s,
        Refused) { OpenInv(s, Find(s.bindings, q, 0), IrqEvents.Arm(s.resources[q].events), base); }
    case OpAcknowledge(q, authorized, sequence) =>
      if Apply(s, op) != (s, Refused) {
        var i := Find(s.bindings, q, 0);
        var events := IrqEvents.Acknowledge(s.resources[q].events, sequence);
        if events.phase == IrqEvents.Armed { OpenInv(s, i, events, base); } else { Informed(s, i, events, base); }
      }
    case OpRecoverStorm(q, authorized) =>
      if Apply(s, op) != (s,
        Refused) { OpenInv(s, Find(s.bindings, q, 0), IrqEvents.RecoverStorm(s.resources[q].events), base); }
    case OpDisarm(q, owner) =>
      var i := Find(s.bindings, q, 0);
      if i < |s.bindings| { ForceDisarmInv(s, i, owner, base); }
    case OpForceUnbind(q, owner) => ForceUnbindInv(s, q, owner, base);
    case OpHandleVector(vector, active, accepted) => HandleInv(s, vector, active, accepted, base);
    case OpTake(q) => TakeInv(s, q, base);
    case OpHardware(gsi, busy) => if gsi in s.pins { HardwareInv(s, gsi, busy, base); }
    case OpCreate(q, id, owner, device) => CreateInv(s, q, id, owner, device, base);
    case OpDestroy(q) =>
      if Apply(s, op).1 == Done { ResourceLives(s, Apply(s, op).0, q, base); }
  }

  lemma BindNoHalt(s: Router, q: nat, authorized: bool, gsi: nat, route: nat, high: nat)
    ensures Bind(s, q, authorized, gsi, route, high).1 != Halt
  {
  }

  lemma ForceDisarmInv(s: Router, i: nat, owner: nat, base: map<nat, Entry>)
    requires Inv(s, base) && Live(s.bindings, i)
    ensures ForceDisarm(s, i, owner).1 != Halt && Inv(ForceDisarm(s, i, owner).0, base)
  {
    var b := s.bindings[i].value;
    assert BindingOk(s, b);
    Driven(s, i, true, IrqEvents.Disarm(s.resources[b.irq].events), base);
  }

  lemma ForceUnbindInv(s: Router, q: nat, owner: nat, base: map<nat, Entry>)
    requires Inv(s, base)
    ensures ForceUnbind(s, q, owner).1 != Halt && Inv(ForceUnbind(s, q, owner).0, base)
  {
    hide Inv, GsiInUse;
    var i := Find(s.bindings, q, 0);
    if i < |s.bindings| && BindingValid(s, s.bindings[i].value) && s.bindings[i].value.owner == owner {
      ForceDisarmInv(s, i, owner, base);
      var s1 := if s.resources[q].events.phase != IrqEvents.Disarmed then ForceDisarm(s, i, owner).0 else s;
      if Live(s1.bindings, i) {
        ReleaseInv(s1, i, base);
      }
    }
  }

  lemma HandleInv(s: Router, vector: nat, active: bool, accepted: bool, base: map<nat, Entry>)
    requires Inv(s, base)
    ensures HandleVector(s, vector, active, accepted).1 != Halt &&
      Inv(HandleVector(s, vector, active, accepted).0, base)
  {
    hide GsiInUse, Inv;
    var i := FindVector(s.bindings, vector, 0);
    if i < |s.bindings| && BindingValid(s, s.bindings[i].value) {
      var q := s.bindings[i].value.irq;
      Driven(s, i, true, IrqEvents.Signal(s.resources[q].events, accepted), base);
      Driven(s, i, true, s.resources[q].events, base);
      assert s.resources[q := s.resources[q]] == s.resources;
    }
  }

  lemma TakeInv(s: Router, q: nat, base: map<nat, Entry>)
    requires Inv(s, base)
    ensures Inv(Apply(s, OpTake(q)).0, base)
  {
    if q in s.resources {
      var i := Find(s.bindings, q, 0);
      if i < |s.bindings| {
        assert BindingOk(s, s.bindings[i].value);
        Informed(s, i, IrqEvents.Take(s.resources[q].events), base);
      } else {
        ResourceLives(s, Apply(s, OpTake(q)).0, q, base);
      }
    }
  }

  lemma CreateInv(s: Router, q: nat, id: nat, owner: nat, device: nat, base: map<nat, Entry>)
    requires Inv(s, base)
    ensures Inv(Apply(s, OpCreate(q, id, owner, device)).0, base)
  {
    if q !in s.resources {
      var n := Find(s.bindings, q, 0);
      assert n < |s.bindings| ==> Live(s.bindings, n);
      ResourceLives(s, Apply(s, OpCreate(q, id, owner, device)).0, q, base);
    }
  }

  // ---------------------------------------------------------------------- runs

  function Run(s: Router, ops: seq<Op>): Router
    decreases |ops|
  {
    if ops == [] then s else Run(Apply(s, ops[0]).0, ops[1..])
  }

  lemma {:induction false} RunInv(s: Router, ops: seq<Op>, base: map<nat, Entry>)
    requires Inv(s, base)
    ensures Inv(Run(s, ops), base)
    decreases |ops|
  {
    hide Inv, Apply;
    if ops != [] {
      StepInv(s, ops[0], base);
      RunInv(Apply(s, ops[0]).0, ops[1..], base);
    }
  }

  /** Every run that starts with no bindings: an open source has an armed resource,
      bindings have distinct vectors, entries and resources, and every entry that is
      not leased is exactly what it was at the start, whatever was bound, masked,
      unmasked and unbound meanwhile. */
  lemma RouterIsSafe(pins: map<nat, Entry>, ops: seq<Op>, next: Op)
    ensures var s := Run(Router(Blank(BINDINGS), pins, map[]), ops);
            && Apply(s, next).1 != Halt
            && s.pins.Keys == pins.Keys
            && (forall i: nat :: Live(s.bindings, i) ==>
                  var b := s.bindings[i].value;
                  && b.lease.gsi in s.pins && b.irq in s.resources
                  && (!s.pins[b.lease.gsi].masked ==> s.resources[b.irq].events.phase == IrqEvents.Armed))
            && (forall i: nat, j: nat :: Live(s.bindings, i) && Live(s.bindings, j) && i < j ==>
              Apart(s.bindings[i].value, s.bindings[j].value))
            && (forall gsi :: gsi in s.pins && !GsiInUse(s.bindings, gsi) ==> Same(s.pins[gsi], pins[gsi]))
  {
    hide Blank, GsiInUse, Apply;
    var s0 := Router(Blank(BINDINGS), pins, map[]);
    assert Inv(s0, pins);
    RunInv(s0, ops, pins);
    var s := Run(s0, ops);
    StepInv(s, next, pins);
  }
}
