/**
 Capability tables (kernel/capability.c): slots in many tables name objects, the
 objects count the slots that name them, and each slot index has one issuer of
 generations for the whole boot.
 */
module Capabilities {
  import opened Slots

  const TABLES: nat := 256
  const CAPACITY: nat := 64
  const GENERATION_MAX: nat := 0xFFFF_FFFF
  const HANDLE_SHIFT: nat := 0x1_0000_0000
  const U64: nat := 0x1_0000_0000_0000_0000

  type Rights = bv64
  const RIGHT_ALL: Rights := 0x7F

  // -------------------------------------------------------------- data model

  datatype Kind = ThreadObject | AddressSpaceObject | EndpointObject | DeviceResourceObject

  /** Objects of one kind are told apart by where they are stored. */
  datatype Key = Key(kind: Kind, address: nat)

  /** `id` is never reused; `grantable` is false once the object is dead or closed. */
  datatype Object = Object(id: nat, refs: nat, grantable: bool)

  datatype Grant = Grant(key: Key, id: nat, rights: Rights)

  datatype Slot = Slot(generation: nat, grant: Option<Grant>)

  /** `serial` numbers the incarnations of tables and is history. */
  datatype Table = Table(slots: seq<Slot>, count: nat, serial: nat)

  datatype Issue = Issue(generation: nat, index: nat)

  datatype Origin = Origin(serial: nat, grant: Grant)

  /** `issued` records every handle ever issued, and is history. */
  datatype Caps = Caps(
    objects: map<Key, Object>,
    tables: Registry<Table>,
    issuers: seq<nat>,
    nextId: map<Kind, nat>,
    nextSerial: nat,
    issued: map<Issue, Origin>)

  // ----------------------------------------------------------------- handles

  function Encode(generation: nat, index: nat): nat {
    generation * HANDLE_SHIFT + index
  }

  function Generation(handle: nat): nat {
    handle / HANDLE_SHIFT
  }

  function Index(handle: nat): nat {
    handle % HANDLE_SHIFT
  }

  // ------------------------------------------------------------------ checks

  predicate RightsOk(rights: Rights) {
    rights != 0 && rights & !RIGHT_ALL == 0
  }

  /** `slot_refs`: the slot names a registered object that counts it. */
  predicate SlotGood(s: Caps, slot: Slot) {
    && slot.grant.Some? && slot.generation != 0
    && var g := slot.grant.value;
       RightsOk(g.rights) && g.key in s.objects && s.objects[g.key].refs != 0 && s.objects[g.key].id == g.id
  }

  function Occupied(): Slot -> nat {
    (slot: Slot) => if slot.grant.Some? then 1 else 0
  }

  function Naming(key: Key): Slot -> nat {
    (slot: Slot) => if slot.grant.Some? && slot.grant.value.key == key then 1 else 0
  }

  predicate TableValid(s: Caps, a: nat) {
    && Live(s.tables, a)
    && var t := s.tables[a].value;
       && t.count <= CAPACITY
       && (forall i :: 0 <= i < |t.slots| && t.slots[i].grant.Some? ==> SlotGood(s, t.slots[i]))
       && Sum(t.slots, Occupied()) == t.count
  }

  // ----------------------------------------------------------------- objects

  /** `address` is where the new object is stored. */
  function CreateObject(s: Caps, key: Key): Option<Caps> {
    if key in s.objects || key.kind !in s.nextId || s.nextId[key.kind] == 0 then None
    else
      var id := s.nextId[key.kind];
      Some(s.(objects := s.objects[key := Object(id, 0, true)], nextId := s.nextId[key.kind := (id + 1) % U64]))
  }

  function DestroyObject(s: Caps, key: Key): Option<Caps> {
    if key !in s.objects || s.objects[key].refs != 0 then None else Some(s.(objects := s.objects - {key}))
  }

  function RetireObject(s: Caps, key: Key): Option<Caps> {
    if key !in s.objects then None else Some(s.(objects := s.objects[key := s.objects[key].(grantable := false)]))
  }

  // ------------------------------------------------------------------ tables

  function NoSlots(n: nat): (r: seq<Slot>)
    ensures |r| == n
    ensures forall i :: 0 <= i < n ==> r[i] == Slot(0, None)
  {
    if n == 0 then [] else [Slot(0, None)] + NoSlots(n - 1)
  }

  function InitTable(s: Caps): Option<Caps> {
    var a := Empty(s.tables);
    if a == |s.tables| then None
    else Some(s.(tables := s.tables[a := Some(Table(NoSlots(CAPACITY), 0, s.nextSerial))],
      nextSerial := s.nextSerial + 1))
  }

  function DestroyTable(s: Caps, a: nat): Option<Caps> {
    if !TableValid(s, a) || s.tables[a].value.count != 0 then None else Some(s.(tables := s.tables[a := None]))
  }

  /** First free slot from `i` whose index can still issue a generation. */
  function Eligible(t: Table, issuers: seq<nat>, i: nat): (n: nat)
    requires i <= |t.slots| == |issuers|
    ensures i <= n <= |t.slots|
    ensures n < |t.slots| ==> t.slots[n].grant.None? && 0 < issuers[n] <= GENERATION_MAX
    ensures forall j :: i <= j < n ==> t.slots[j].grant.Some? || issuers[j] == 0 || issuers[j] > GENERATION_MAX
    decreases |t.slots| - i
  {
    if i == |t.slots| ||
      (t.slots[i].grant.None? && 0 < issuers[i] <= GENERATION_MAX) then i else Eligible(t, issuers, i + 1)
  }

  predicate Grantable(s: Caps, a: nat, key: Key, rights: Rights) {
    && TableValid(s, a) && RightsOk(rights) && s.tables[a].value.count != CAPACITY
    && key in s.objects && s.objects[key].grantable && s.objects[key].refs != U64 - 1
  }

  /** The new state and the handle. */
  function Insert(s: Caps, a: nat, key: Key, rights: Rights): Option<(Caps, nat)>
    requires |s.issuers| == CAPACITY && (Live(s.tables, a) ==> |s.tables[a].value.slots| == CAPACITY)
  {
    if !Grantable(s, a, key, rights) then None
    else
      var t := s.tables[a].value;
      var i := Eligible(t, s.issuers, 0);
      if i == CAPACITY then None
      else
        var grant := Grant(key, s.objects[key].id, rights);
        var t1 := t.(slots := t.slots[i := Slot(s.issuers[i], Some(grant))], count := t.count + 1);
        var x := s.objects[key];
        Some((s.(objects := s.objects[key := x.(refs := x.refs + 1)],
                 tables := s.tables[a := Some(t1)],
                 issuers := s.issuers[i := s.issuers[i] + 1],
                 issued := s.issued[Issue(s.issuers[i], i) := Origin(t.serial, grant)]),
              Encode(s.issuers[i], i)))
  }

  /** `resolve_slot`: the index of the slot the handle names in table `a`. */
  function Resolve(s: Caps, a: nat, handle: nat): Option<nat> {
    if !Live(s.tables, a) || handle == 0 || Index(handle) >= |s.tables[a].value.slots| ||
      Generation(handle) == 0 then None
    else
      var slot := s.tables[a].value.slots[Index(handle)];
      if slot.generation != Generation(handle) || !SlotGood(s, slot) then None else Some(Index(handle))
  }

  /** `capability_lookup_rights`. */
  function Lookup(s: Caps, a: nat, handle: nat, kind: Kind, required: Rights): Option<Key> {
    var i := Resolve(s, a, handle);
    if i.None? || required & !RIGHT_ALL != 0 then None
    else
      var g := s.tables[a].value.slots[i.value].grant;
      if g.None? || g.value.key.kind != kind || g.value.rights & required != required then None else Some(g.value.key)
  }

  /** `delete_slot`: give the pin back and clear everything but the generation. */
  function DeleteSlot(s: Caps, a: nat, i: nat): Caps
    requires Live(s.tables, a) && i < |s.tables[a].value.slots| && SlotGood(s, s.tables[a].value.slots[i])
    requires s.tables[a].value.count > 0
  {
    var t := s.tables[a].value;
    var key := t.slots[i].grant.value.key;
    var x := s.objects[key];
    s.(objects := s.objects[key := x.(refs := x.refs - 1)],
       tables := s.tables[a := Some(t.(slots := t.slots[i := t.slots[i].(grant := None)], count := t.count - 1))])
  }

  function Revoke(s: Caps, a: nat, handle: nat): Option<Caps> {
    var i := Resolve(s, a, handle);
    if !TableValid(s, a) || i.None? || s.tables[a].value.count == 0 then None else Some(DeleteSlot(s, a, i.value))
  }

  predicate Selected(slot: Slot, only: Option<Key>) {
    slot.grant.Some? && (only.None? || slot.grant.value.key == only.value)
  }

  /** The check that precedes a bulk deletion: every object has at least as many
      references as slots of this table name it. */
  predicate Affordable(s: Caps, a: nat, only: Option<Key>)
    requires Live(s.tables, a)
  {
    var t := s.tables[a].value;
    forall i :: 0 <= i < |t.slots| && Selected(t.slots[i], only) ==>
      SlotGood(s, t.slots[i]) &&
        Sum(t.slots, Naming(t.slots[i].grant.value.key)) <= s.objects[t.slots[i].grant.value.key].refs
  }

  /** Delete the selected slots from `i` on. The second component is false if an
      object ran out of references on the way. */
  function DeleteFrom(s: Caps, a: nat, only: Option<Key>, i: nat): (Caps, bool)
    requires Live(s.tables, a) && i <= |s.tables[a].value.slots|
    decreases |s.tables[a].value.slots| - i
  {
    var t := s.tables[a].value;
    if i == |t.slots| then (s, true)
    else if !Selected(t.slots[i], only) then DeleteFrom(s, a, only, i + 1)
    else if !SlotGood(s, t.slots[i]) || t.count == 0 then (s, false)
    else DeleteFrom(DeleteSlot(s, a, i), a, only, i + 1)
  }

  /** `delete_selected`: all the slots, or those that name one object. */
  function DeleteSelected(s: Caps, a: nat, only: Option<Key>): (Caps, bool) {
    if !TableValid(s, a) || !Affordable(s, a, only) then (s, false) else DeleteFrom(s, a, only, 0)
  }
}
