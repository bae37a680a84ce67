/**
 In every reachable state each object's reference count is the number of slots
 that name it over all tables, and every handle is issued once.
 */
module CapabilityRuns {
  import opened Slots
  import opened Capabilities

  // ------------------------------------------------------------ the invariant

  function NamingIn(key: Key): Option<Table> -> nat {
    (t: Option<Table>) => if t.Some? then Sum(t.value.slots, Naming(key)) else 0
  }

  /** Slots over all tables that name the object. */
  function Refs(s: Caps, key: Key): nat {
    Sum(s.tables, NamingIn(key))
  }

  /** An occupied slot names a live object, and is the one its handle was issued for. */
  predicate SlotOk(s: Caps, t: Table, i: nat)
    requires i < |t.slots| && i < |s.issuers|
  {
    var slot := t.slots[i];
    && slot.generation < s.issuers[i]
    && (slot.grant.Some? ==>
          var g := slot.grant.value;
          && slot.generation != 0 && RightsOk(g.rights)
          && g.key in s.objects && s.objects[g.key].id == g.id
          && Issue(slot.generation, i) in s.issued && s.issued[Issue(slot.generation, i)] == Origin(t.serial, g))
  }

  predicate TableOk(s: Caps, t: Table) {
    && |t.slots| == CAPACITY && |s.issuers| == CAPACITY && t.serial < s.nextSerial
    && t.count == Sum(t.slots, Occupied())
    && (forall i :: 0 <= i < CAPACITY ==> SlotOk(s, t, i))
  }

  ghost predicate Inv(s: Caps) {
    && |s.tables| == TABLES && |s.issuers| == CAPACITY
    && (forall i :: 0 <= i < CAPACITY ==> 0 < s.issuers[i] <= GENERATION_MAX + 1)
    && (forall x :: x in s.issued ==> x.index < CAPACITY && 0 < x.generation < s.issuers[x.index])
    && (forall a: nat :: Live(s.tables, a) ==> TableOk(s, s.tables[a].value))
    && (forall a: nat, b: nat :: Live(s.tables, a) && Live(s.tables, b) && a < b ==>
      s.tables[a].value.serial != s.tables[b].value.serial)
    && (forall key :: key in s.objects ==> s.objects[key].refs == Refs(s, key))
  }

  // ---------------------------------------------------------------- counting

  /** One slot changes in one table: how every object's count moves. */
  lemma SlotChange(s: Caps, a: nat, i: nat, slot: Slot, t': Table, key: Key)
    requires Live(s.tables, a) && i < |s.tables[a].value.slots| && t'.slots == s.tables[a].value.slots[i := slot]
    ensures Sum(s.tables[a := Some(t')], NamingIn(key)) + Naming(key)(s.tables[a].value.slots[i]) == Refs(s,
      key) + Naming(key)(slot)
  {
    SumUpdate(s.tables[a].value.slots, i, slot, Naming(key));
    SumUpdate(s.tables, a, Some(t'), NamingIn(key));
  }

  lemma NamedIsCounted(s: Caps, a: nat, i: nat)
    requires Inv(s) && Live(s.tables, a) && i < CAPACITY && s.tables[a].value.slots[i].grant.Some?
    ensures SlotGood(s, s.tables[a].value.slots[i])
    ensures s.tables[a].value.count > 0
    ensures var key := s.tables[a].value.slots[i].grant.value.key;
            0 < Sum(s.tables[a].value.slots, Naming(key)) <= s.objects[key].refs
  {
    var t := s.tables[a].value;
    assert TableOk(s, t) && SlotOk(s, t, i);
    var key := t.slots[i].grant.value.key;
    SumAtLeast(t.slots, i, Naming(key));
    SumAtLeast(t.slots, i, Occupied());
    SumAtLeast(s.tables, a, NamingIn(key));
  }

  lemma {:induction false} OccupiedBound(slots: seq<Slot>)
    ensures Sum(slots, Occupied()) <= |slots|
  {
    if slots != [] {
      OccupiedBound(slots[1..]);
    }
  }

  /** The kernel's own validity check passes for every live table. */
  lemma TableAlwaysValid(s: Caps, a: nat)
    requires Inv(s) && Live(s.tables, a)
    ensures TableValid(s, a)
  {
    var t := s.tables[a].value;
    assert TableOk(s, t);
    OccupiedBound(t.slots);
    forall i | 0 <= i < |t.slots| && t.slots[i].grant.Some? ensures SlotGood(s, t.slots[i]) {
      NamedIsCounted(s, a, i);
    }
  }

  // ------------------------------------------------------------------ deletion

  lemma Bookkept(s: Caps, a: nat)
    requires Inv(s) && Live(s.tables, a)
    ensures |s.tables[a].value.slots| == CAPACITY
  {
    assert TableOk(s, s.tables[a].value);
  }

  lemma DeleteSlotInv(s: Caps, a: nat, i: nat)
    requires Inv(s) && Live(s.tables, a) && i < CAPACITY && s.tables[a].value.slots[i].grant.Some?
    requires SlotGood(s, s.tables[a].value.slots[i]) && s.tables[a].value.count > 0
    ensures Inv(DeleteSlot(s, a, i))
    ensures forall key ::
      Refs(DeleteSlot(s, a, i), key) == Refs(s, key) - if key == s.tables[a].value.slots[i].grant.value.key then 1
        else 0
  {
    hide TableOk, Refs;
    Bookkept(s, a);
    var t := s.tables[a].value;
    var s' := DeleteSlot(s, a, i);
    forall key ensures Refs(s', key) == Refs(s, key) - if key == t.slots[i].grant.value.key then 1 else 0 {
      DeleteSlotRefs(s, a, i, key);
    }
    forall b: nat | Live(s'.tables, b) ensures TableOk(s', s'.tables[b].value) {
      DeleteSlotTable(s, a, i, b);
    }
  }

  lemma DeleteSlotRefs(s: Caps, a: nat, i: nat, key: Key)
    requires Live(s.tables, a) && i < |s.tables[a].value.slots| && SlotGood(s, s.tables[a].value.slots[i]) &&
      s.tables[a].value.count > 0
    ensures Refs(DeleteSlot(s, a, i), key) == Refs(s, key) - if key == s.tables[a].value.slots[i].grant.value.key then 1
      else 0
  {
    var slot := s.tables[a].value.slots[i].(grant := None);
    SlotChange(s, a, i, slot, DeleteSlot(s, a, i).tables[a].value, key);
  }

  lemma DeleteSlotTable(s: Caps, a: nat, i: nat, b: nat)
    requires Live(s.tables, a) && i < |s.tables[a].value.slots| && SlotGood(s, s.tables[a].value.slots[i]) &&
      s.tables[a].value.count > 0
    requires Live(s.tables, b) && TableOk(s, s.tables[b].value)
    ensures TableOk(DeleteSlot(s, a, i), DeleteSlot(s, a, i).tables[b].value)
  {
    var s' := DeleteSlot(s, a, i);
    var t := s.tables[a].value;
    SumUpdate(t.slots, i, t.slots[i].(grant := None), Occupied());
    forall j | 0 <= j < CAPACITY ensures SlotOk(s', s'.tables[b].value, j) {
      assert SlotOk(s, s.tables[b].value, j);
    }
  }

  function Cleared(slots: seq<Slot>, only: Option<Key>): (r: seq<Slot>)
    ensures |r| == |slots|
    ensures forall i :: 0 <= i < |slots| ==>
      r[i] == if Selected(slots[i], only) then slots[i].(grant := None) else slots[i]
  {
    seq(|slots|, i requires 0 <= i < |slots| => if Selected(slots[i], only) then slots[i].(grant := None) else slots[i])
  }

  /** `s'` is `s` with the selected slots of table `a` from `i` on cleared, and
      nothing but reference counts changed elsewhere. */
  ghost predicate Swept(s: Caps, s': Caps, a: nat, only: Option<Key>, i: nat) {
    && Live(s.tables, a) && Live(s'.tables, a) && i <= |s.tables[a].value.slots|
    && s' == s.(objects := s'.objects, tables := s.tables[a := s'.tables[a]])
    && s'.tables[a].value.serial == s.tables[a].value.serial
    && s'.tables[a].value.slots == s.tables[a].value.slots[..i] + Cleared(s.tables[a].value.slots[i..], only)
    && s'.objects.Keys == s.objects.Keys
    && (forall key :: key in s.objects ==> s'.objects[key] == s.objects[key].(refs := s'.objects[key].refs))
  }

  lemma SweptSkip(s: Caps, s': Caps, a: nat, only: Option<Key>, i: nat)
    requires Swept(s, s', a, only, i + 1) && !Selected(s.tables[a].value.slots[i], only)
    ensures Swept(s, s', a, only, i)
  {
    hide Cleared;
    ClearedStep(s.tables[a].value.slots, s.tables[a].value.slots, only, i);
  }

  lemma SweptDelete(s: Caps, s': Caps, a: nat, only: Option<Key>, i: nat)
    requires Live(s.tables, a) && i < |s.tables[a].value.slots| && Selected(s.tables[a].value.slots[i], only)
    requires SlotGood(s, s.tables[a].value.slots[i]) && s.tables[a].value.count > 0
    requires Swept(DeleteSlot(s, a, i), s', a, only, i + 1)
    ensures Swept(s, s', a, only, i)
  {
    hide Cleared;
    ClearedStep(s.tables[a].value.slots, DeleteSlot(s, a, i).tables[a].value.slots, only, i);
  }

  lemma {:induction false} DeleteFromExact(s: Caps, a: nat, only: Option<Key>, i: nat)
    requires Inv(s) && Live(s.tables, a) && i <= CAPACITY && |s.tables[a].value.slots| == CAPACITY
    ensures var (s', ok) := DeleteFrom(s, a, only, i); ok && Inv(s') && Swept(s, s', a, only, i)
    decreases CAPACITY - i
  {
    hide Inv, SlotGood, Cleared, Swept, Refs;
    var t := s.tables[a].value;
    if i == CAPACITY {
      assert Swept(s, s, a, only, i) by {
        SweptNone(s, a, only, i);
      }
    } else if !Selected(t.slots[i], only) {
      DeleteFromExact(s, a, only, i + 1);
      SweptSkip(s, DeleteFrom(s, a, only, i).0, a, only, i);
    } else {
      NamedIsCounted(s, a, i);
      DeleteSlotInv(s, a, i);
      DeleteFromExact(DeleteSlot(s, a, i), a, only, i + 1);
      SweptDelete(s, DeleteFrom(s, a, only, i).0, a, only, i);
    }
  }

  lemma SweptNone(s: Caps, a: nat, only: Option<Key>, i: nat)
    requires Live(s.tables, a) && i == |s.tables[a].value.slots|
    ensures Swept(s, s, a, only, i)
  {
    hide Cleared;
    var slots := s.tables[a].value.slots;
    assert s.tables[a := s.tables[a]] == s.tables;
    assert slots[..i] + Cleared(slots[i..], only) == slots;
  }

  lemma ClearedStep(slots: seq<Slot>, slots': seq<Slot>, only: Option<Key>, i: nat)
    requires i < |slots|
    requires slots' == slots[i := if Selected(slots[i], only) then slots[i].(grant := None) else slots[i]]
    ensures slots'[..i + 1] + Cleared(slots'[i + 1..], only) == slots[..i] + Cleared(slots[i..], only)
  {
  }

  lemma {:induction false} ClearedNames(slots: seq<Slot>, only: Option<Key>, key: Key)
    ensures Sum(Cleared(slots, only), Naming(key)) == if only.None? ||
      only.value == key then 0 else Sum(slots, Naming(key))
  {
    if slots != [] {
      assert Cleared(slots, only)[1..] == Cleared(slots[1..], only);
      ClearedNames(slots[1..], only, key);
    }
  }

  /** Bulk deletion always succeeds on a live table; it clears exactly the selected
      slots, takes exactly their references away, and touches no other table. */
  lemma BulkDeleteExact(s: Caps, a: nat, only: Option<Key>)
    requires Inv(s) && Live(s.tables, a)
    ensures var (s', ok) := DeleteSelected(s, a, only);
            && ok && Inv(s') && Live(s'.tables, a)
            && s'.tables == s.tables[a := s'.tables[a]]
            && s'.tables[a].value.slots == Cleared(s.tables[a].value.slots, only)
            && s'.objects.Keys == s.objects.Keys
            && (forall key :: key in s.objects ==>
                  s'.objects[key].refs ==
                    s.objects[key].refs - if only.None? ||
                      only.value == key then Sum(s.tables[a].value.slots, Naming(key)) else 0)
  {
    hide Inv, SlotGood, Cleared;
    TableAlwaysValid(s, a);
    BulkAffordable(s, a, only);
    DeleteFromExact(s, a, only, 0);
    var t := s.tables[a].value;
    var s' := DeleteFrom(s, a, only, 0).0;
    assert t.slots[0..] == t.slots && t.slots[..0] == [] && [] + Cleared(t.slots, only) == Cleared(t.slots, only);
    forall key | key in s.objects
      ensures s'.objects[key].refs == s.objects[key].refs - if only.None? ||
        only.value == key then Sum(t.slots, Naming(key)) else 0
    {
      SumUpdate(s.tables, a, s'.tables[a], NamingIn(key));
      ClearedNames(t.slots, only, key);
      RefsCounted(s, key);
      RefsCounted(s', key);
      assert NamingIn(key)(s.tables[a]) == Sum(t.slots, Naming(key));
      assert NamingIn(key)(s'.tables[a]) == Sum(Cleared(t.slots, only), Naming(key));
    }
  }

  lemma BulkAffordable(s: Caps, a: nat, only: Option<Key>)
    requires Inv(s) && Live(s.tables, a)
    ensures Affordable(s, a, only) && |s.tables[a].value.slots| == CAPACITY
  {
    var t := s.tables[a].value;
    assert TableOk(s, t);
    forall i | 0 <= i < |t.slots| && Selected(t.slots[i], only)
      ensures SlotGood(s, t.slots[i]) &&
        Sum(t.slots, Naming(t.slots[i].grant.value.key)) <= s.objects[t.slots[i].grant.value.key].refs
    {
      NamedIsCounted(s, a, i);
    }
  }

  lemma RefsCounted(s: Caps, key: Key)
    requires Inv(s) && key in s.objects
    ensures s.objects[key].refs == Sum(s.tables, NamingIn(key))
  {
  }

  // ----------------------------------------------------------------- insertion

  lemma {:induction false} NamingBound(slots: seq<Slot>, key: Key)
    ensures Sum(slots, Naming(key)) <= |slots|
  {
    if slots != [] {
      NamingBound(slots[1..], key);
    }
  }

  lemma {:induction false} RefsBound(tables: Registry<Table>, key: Key)
    requires forall a: nat :: Live(tables, a) ==> |tables[a].value.slots| == CAPACITY
    ensures Sum(tables, NamingIn(key)) <= CAPACITY * |tables|
  {
    if tables != [] {
      assert Live(tables, 0) ==> |tables[0].value.slots| == CAPACITY;
      if tables[0].Some? {
        NamingBound(tables[0].value.slots, key);
      }
      forall a: nat | Live(tables[1..], a) ensures |tables[1..][a].value.slots| == CAPACITY {
        assert Live(tables, a + 1);
      }
      RefsBound(tables[1..], key);
    }
  }

  /** Exactly when a grant succeeds; the kernel's guard against overflowing the
      reference count never refuses. */
  lemma InsertSucceedsIff(s: Caps, a: nat, key: Key, rights: Rights)
    requires Inv(s) && (Live(s.tables, a) ==> |s.tables[a].value.slots| == CAPACITY)
    ensures Insert(s, a, key, rights).Some? <==>
      && Live(s.tables, a) && RightsOk(rights) && key in s.objects && s.objects[key].grantable
      && exists i :: 0 <= i < CAPACITY && s.tables[a].value.slots[i].grant.None? && s.issuers[i] <= GENERATION_MAX
  {
    if Live(s.tables, a) && key in s.objects {
      TableAlwaysValid(s, a);
      forall b: nat | Live(s.tables, b) ensures |s.tables[b].value.slots| == CAPACITY {
        assert TableOk(s, s.tables[b].value);
      }
      RefsBound(s.tables, key);
      var t := s.tables[a].value;
      if i :| 0 <= i < CAPACITY && t.slots[i].grant.None? && s.issuers[i] <= GENERATION_MAX {
        FreeNotFull(t.slots, i);
      }
    }
  }

  lemma {:induction false} FreeNotFull(slots: seq<Slot>, i: nat)
    requires i < |slots| && slots[i].grant.None?
    ensures Sum(slots, Occupied()) < |slots|
  {
    if i == 0 {
      OccupiedBound(slots[1..]);
    } else {
      FreeNotFull(slots[1..], i - 1);
    }
  }

  /** A grant keeps the books and returns a handle that was never issued before. */
  lemma InsertInv(s: Caps, a: nat, key: Key, rights: Rights)
    requires Inv(s) && (Live(s.tables, a) ==> |s.tables[a].value.slots| == CAPACITY)
    requires Insert(s, a, key, rights).Some?
    ensures var (s', handle) := Insert(s, a, key, rights).value;
            && Inv(s')
            && Issue(Generation(handle), Index(handle)) !in s.issued
            && Issue(Generation(handle), Index(handle)) in s'.issued
            && s'.issued[Issue(Generation(handle), Index(handle))] ==
               Origin(s.tables[a].value.serial, Grant(key, s.objects[key].id, rights))
            && 0 < handle < U64
  {
    hide TableOk, Refs, Sum, Eligible, Encode, Generation, Index;
    var (s', handle) := Insert(s, a, key, rights).value;
    var t := s.tables[a].value;
    var i := Eligible(t, s.issuers, 0);
    HandleRoundTrip(s.issuers[i], i);
    InsertBooks(s, a, key, rights);
    InsertTables(s, a, key, rights);
  }

  lemma HandleRoundTrip(generation: nat, index: nat)
    requires index < HANDLE_SHIFT
    ensures Generation(Encode(generation, index)) == generation && Index(Encode(generation, index)) == index
    ensures 0 < generation <= GENERATION_MAX ==> 0 < Encode(generation, index) < U64
  {
  }

  lemma InsertBooks(s: Caps, a: nat, key: Key, rights: Rights)
    requires Inv(s) && Live(s.tables, a) && |s.tables[a].value.slots| == CAPACITY && Insert(s, a, key, rights).Some?
    ensures var s' := Insert(s, a, key, rights).value.0;
            && (forall k :: k in s'.objects ==> s'.objects[k].refs == Refs(s', k))
            && s'.tables[a].value.count == Sum(s'.tables[a].value.slots, Occupied())
  {
    var s' := Insert(s, a, key, rights).value.0;
    var t := s.tables[a].value;
    assert TableOk(s, t);
    var i := Eligible(t, s.issuers, 0);
    SumUpdate(t.slots, i, s'.tables[a].value.slots[i], Occupied());
    forall k | k in s'.objects ensures s'.objects[k].refs == Refs(s', k) {
      SlotChange(s, a, i, s'.tables[a].value.slots[i], s'.tables[a].value, k);
    }
  }

  lemma InsertTables(s: Caps, a: nat, key: Key, rights: Rights)
    requires Inv(s) && Live(s.tables, a) && |s.tables[a].value.slots| == CAPACITY && Insert(s, a, key, rights).Some?
    requires var s' := Insert(s, a, key, rights).value.0;
             s'.tables[a].value.count == Sum(s'.tables[a].value.slots, Occupied())
    ensures var s' := Insert(s, a, key, rights).value.0;
            forall b: nat :: Live(s'.tables, b) ==> TableOk(s', s'.tables[b].value)
  {
    hide TableOk, Eligible, Sum, SlotGood;
    var s' := Insert(s, a, key, rights).value.0;
    forall b: nat | Live(s'.tables, b) ensures TableOk(s', s'.tables[b].value) {
      InsertTable(s, a, key, rights, b);
    }
  }

  lemma InsertTable(s: Caps, a: nat, key: Key, rights: Rights, b: nat)
    requires |s.issuers| == CAPACITY && Live(s.tables, a) && |s.tables[a].value.slots| == CAPACITY &&
      Insert(s, a, key, rights).Some?
    requires Live(s.tables, b) && TableOk(s, s.tables[b].value)
    requires forall x :: x in s.issued ==> x.index < CAPACITY && 0 < x.generation < s.issuers[x.index]
    requires var s' := Insert(s, a, key, rights).value.0;
             s'.tables[a].value.count == Sum(s'.tables[a].value.slots, Occupied())
    ensures var s' := Insert(s, a, key, rights).value.0;
            TableOk(s', s'.tables[b].value)
  {
    hide Eligible, Sum, SlotOk;
    var s' := Insert(s, a, key, rights).value.0;
    forall j | 0 <= j < CAPACITY ensures SlotOk(s', s'.tables[b].value, j) {
      InsertSlot(s, a, key, rights, b, j);
    }
  }

  lemma InsertSlot(s: Caps, a: nat, key: Key, rights: Rights, b: nat, j: nat)
    requires |s.issuers| == CAPACITY && Live(s.tables, a) && |s.tables[a].value.slots| == CAPACITY &&
      Insert(s, a, key, rights).Some?
    requires Live(s.tables, b) && j < |s.tables[b].value.slots| == CAPACITY && SlotOk(s, s.tables[b].value, j)
    requires forall x :: x in s.issued ==> x.index < CAPACITY && 0 < x.generation < s.issuers[x.index]
    ensures var s' := Insert(s, a, key, rights).value.0;
            SlotOk(s', s'.tables[b].value, j)
  {
    hide Eligible, Sum, SlotGood, TableValid;
  }

  // -------------------------------------------------------------------- lookup

  /** A handle works in the one table it was granted to, for the object, kind and
      rights of that grant, and for nothing else; and there it works as long as
      the grant has not been deleted. */
  lemma LookupExact(s: Caps, a: nat, handle: nat, kind: Kind, required: Rights)
    requires Inv(s)
    ensures Lookup(s, a, handle, kind, required).Some? <==>
      && Live(s.tables, a) && required & !RIGHT_ALL == 0
      && Index(handle) < |s.tables[a].value.slots|
      && var slot := s.tables[a].value.slots[Index(handle)];
         && slot.grant.Some? && slot.generation == Generation(handle)
         && slot.grant.value.key.kind == kind && slot.grant.value.rights & required == required
    ensures Lookup(s, a, handle, kind, required).Some? ==>
      var x := Issue(Generation(handle), Index(handle));
      && x in s.issued && s.issued[x].serial == s.tables[a].value.serial
      && s.issued[x].grant.key == Lookup(s, a, handle, kind, required).value
      && s.issued[x].grant.key.kind == kind && s.issued[x].grant.rights & required == required
      && s.issued[x].grant.key in s.objects && s.objects[s.issued[x].grant.key].id == s.issued[x].grant.id
  {
    if Live(s.tables, a) && Index(handle) < |s.tables[a].value.slots| {
      var t := s.tables[a].value;
      assert TableOk(s, t) && SlotOk(s, t, Index(handle));
      if t.slots[Index(handle)].grant.Some? {
        NamedIsCounted(s, a, Index(handle));
      }
    }
  }

  /** One handle, one table. */
  lemma HandleHasOneTable(s: Caps, a: nat, b: nat, handle: nat, kind: Kind, required: Rights)
    requires Inv(s) && Lookup(s, a, handle, kind, required).Some? && Lookup(s, b, handle, kind, required).Some?
    ensures a == b
  {
    LookupExact(s, a, handle, kind, required);
    LookupExact(s, b, handle, kind, required);
  }

  // ---------------------------------------------------------------------- runs

  datatype Op =
    | OpCreateObject(key: Key)
    | OpDestroyObject(key: Key)
    | OpRetireObject(key: Key)
    | OpInitTable
    | OpDestroyTable(a: nat)
    | OpInsert(a: nat, key: Key, rights: Rights)
    | OpRevoke(a: nat, handle: nat)
    | OpDelete(a: nat, only: Option<Key>)

  function OrElse(step: Option<Caps>, s: Caps): Caps {
    if step.Some? then step.value else s
  }

  ghost function Apply(s: Caps, op: Op): Caps {
    match op
    case OpCreateObject(key) => OrElse(CreateObject(s, key), s)
    case OpDestroyObject(key) => OrElse(DestroyObject(s, key), s)
    case OpRetireObject(key) => OrElse(RetireObject(s, key), s)
    case OpInitTable => OrElse(InitTable(s), s)
    case OpDestroyTable(a) => OrElse(DestroyTable(s, a), s)
    case OpInsert(a, key, rights) =>
      if |s.issuers| == CAPACITY && (Live(s.tables, a) ==> |s.tables[a].value.slots| == CAPACITY) &&
         Insert(s, a, key, rights).Some?
      then Insert(s, a, key, rights).value.0 else s
    case OpRevoke(a, handle) => OrElse(Revoke(s, a, handle), s)
    case OpDelete(a, only) => DeleteSelected(s, a, only).0
  }

  lemma ObjectOpsInv(s: Caps, key: Key)
    requires Inv(s)
    ensures Inv(OrElse(CreateObject(s, key), s)) && Inv(OrElse(DestroyObject(s, key), s)) &&
      Inv(OrElse(RetireObject(s, key), s))
  {
    if CreateObject(s, key).Some? {
      ObjectsMove(s, CreateObject(s, key).value, key);
    }
    if DestroyObject(s, key).Some? {
      ObjectsMove(s, DestroyObject(s, key).value, key);
    }
    if RetireObject(s, key).Some? {
      ObjectsMove(s, RetireObject(s, key).value, key);
    }
  }

  /** Only `key` changes among the objects, and if slots name it, it keeps its
      identity and its count. */
  lemma ObjectsMove(s: Caps, s': Caps, key: Key)
    requires Inv(s) && s' == s.(objects := s'.objects, nextId := s'.nextId)
    requires forall k :: k != key ==>
      (k in s'.objects <==> k in s.objects) && (k in s.objects ==> s'.objects[k] == s.objects[k])
    requires key in s'.objects ==> s'.objects[key].refs == if key in s.objects then s.objects[key].refs else 0
    requires key in s.objects && s.objects[key].refs != 0 ==> key in s'.objects
    requires key in s.objects && key in s'.objects ==> s'.objects[key].id == s.objects[key].id
    ensures Inv(s')
  {
    if key !in s.objects {
      Unnamed(s, key);
    }
    forall b: nat | Live(s'.tables, b) ensures TableOk(s', s'.tables[b].value) {
      assert TableOk(s, s.tables[b].value);
      forall j | 0 <= j < CAPACITY ensures SlotOk(s', s'.tables[b].value, j) {
        assert SlotOk(s, s.tables[b].value, j);
        if s.tables[b].value.slots[j].grant.Some? {
          NamedIsCounted(s, b, j);
        }
      }
    }
  }

  lemma Unnamed(s: Caps, key: Key)
    requires Inv(s) && key !in s.objects
    ensures Refs(s, key) == 0
  {
    forall a | 0 <= a < |s.tables| ensures NamingIn(key)(s.tables[a]) == 0 {
      if s.tables[a].Some? {
        assert Live(s.tables, a) && TableOk(s, s.tables[a].value);
        var slots := s.tables[a].value.slots;
        forall i | 0 <= i < |slots| ensures Naming(key)(slots[i]) == 0 {
          assert SlotOk(s, s.tables[a].value, i);
        }
        SumZero(slots, Naming(key));
      }
    }
    SumZero(s.tables, NamingIn(key));
  }

  lemma TableOpsInv(s: Caps, a: nat)
    requires Inv(s)
    ensures Inv(OrElse(InitTable(s), s)) && Inv(OrElse(DestroyTable(s, a), s))
  {
    hide NoSlots;
    if InitTable(s).Some? {
      var s' := InitTable(s).value;
      var b := Empty(s.tables);
      NothingNamed(s'.tables[b].value.slots);
      TablesMove(s, s', b);
    }
    if DestroyTable(s, a).Some? {
      EmptyTable(s, a);
      TablesMove(s, DestroyTable(s, a).value, a);
    }
  }

  lemma NothingNamed(slots: seq<Slot>)
    requires forall i :: 0 <= i < |slots| ==> slots[i].grant.None?
    ensures Sum(slots, Occupied()) == 0
    ensures forall key :: Sum(slots, Naming(key)) == 0
  {
    SumZero(slots, Occupied());
    forall key ensures Sum(slots, Naming(key)) == 0 {
      SumZero(slots, Naming(key));
    }
  }

  lemma EmptyTable(s: Caps, a: nat)
    requires TableValid(s, a) && s.tables[a].value.count == 0
    ensures forall key :: Sum(s.tables[a].value.slots, Naming(key)) == 0
  {
    var slots := s.tables[a].value.slots;
    forall i | 0 <= i < |slots| ensures slots[i].grant.None? {
      SumAtLeast(slots, i, Occupied());
    }
    NothingNamed(slots);
  }

  /** A table that names nothing comes or goes. */
  lemma TablesMove(s: Caps, s': Caps, a: nat)
    requires Inv(s) && a < TABLES && |s'.tables| == TABLES && s'.tables == s.tables[a := s'.tables[a]]
    requires s' == s.(tables := s'.tables, nextSerial := s'.nextSerial) && s.nextSerial <= s'.nextSerial
    requires forall key :: NamingIn(key)(s.tables[a]) == 0 && NamingIn(key)(s'.tables[a]) == 0
    requires s'.tables[a].Some? ==>
               var t := s'.tables[a].value;
               && |t.slots| == CAPACITY && t.serial == s.nextSerial < s'.nextSerial &&
                 t.count == Sum(t.slots, Occupied())
               && (forall i :: 0 <= i < CAPACITY ==> t.slots[i] == Slot(0, None))
    ensures Inv(s')
  {
    forall key | key in s'.objects ensures s'.objects[key].refs == Refs(s', key) {
      SumUpdate(s.tables, a, s'.tables[a], NamingIn(key));
    }
    forall b: nat | Live(s'.tables, b) ensures TableOk(s', s'.tables[b].value) {
      if b != a {
        assert TableOk(s, s.tables[b].value);
        forall j | 0 <= j < CAPACITY ensures SlotOk(s', s'.tables[b].value, j) {
          assert SlotOk(s, s.tables[b].value, j);
        }
      }
    }
    forall b: nat | Live(s.tables, b) ensures s.tables[b].value.serial < s.nextSerial {
      assert TableOk(s, s.tables[b].value);
    }
  }

  lemma RevokeInv(s: Caps, a: nat, handle: nat)
    requires Inv(s)
    ensures Inv(OrElse(Revoke(s, a, handle), s))
  {
    if Revoke(s, a, handle).Some? {
      assert TableOk(s, s.tables[a].value);
      DeleteSlotInv(s, a, Index(handle));
    }
  }

  lemma StepInv(s: Caps, op: Op)
    requires Inv(s)
    ensures Inv(Apply(s, op))
  {
    hide Inv, CreateObject, DestroyObject, RetireObject, InitTable, DestroyTable, Insert, Revoke, DeleteSelected;
    match op
    case OpCreateObject(key) => ObjectOpsInv(s, key);
    case OpDestroyObject(key) => ObjectOpsInv(s, key);
    case OpRetireObject(key) => ObjectOpsInv(s, key);
    case OpInitTable => TableOpsInv(s, 0);
    case OpDestroyTable(a) => TableOpsInv(s, a);
    case OpInsert(a, key, rights) => if Apply(s, op) != s { InsertInv(s, a, key, rights); }
    case OpRevoke(a, handle) => RevokeInv(s, a, handle);
    case OpDelete(a, only) =>
      if Live(s.tables, a) {
        BulkDeleteExact(s, a, only);
      } else {
        DeadTable(s, a, only);
      }
  }

  lemma DeadTable(s: Caps, a: nat, only: Option<Key>)
    requires !Live(s.tables, a)
    ensures DeleteSelected(s, a, only) == (s, false)
  {
  }

  const Boot: Caps := Caps(
    map[], Blank(TABLES), FirstGenerations(CAPACITY),
    map[ThreadObject := 1, AddressSpaceObject := 1, EndpointObject := 1, DeviceResourceObject := 1], 0, map[])

  function FirstGenerations(n: nat): (r: seq<nat>)
    ensures |r| == n && forall i :: 0 <= i < n ==> r[i] == 1
  {
    if n == 0 then [] else [1] + FirstGenerations(n - 1)
  }

  ghost function Run(s: Caps, ops: seq<Op>): Caps
    decreases |ops|
  {
    if ops == [] then s else Run(Apply(s, ops[0]), ops[1..])
  }

  lemma {:induction false} RunInv(s: Caps, ops: seq<Op>)
    requires Inv(s)
    ensures Inv(Run(s, ops))
    decreases |ops|
  {
    hide Inv, Apply;
    if ops != [] {
      StepInv(s, ops[0]);
      RunInv(Apply(s, ops[0]), ops[1..]);
    }
  }

  lemma RunFromBoot(ops: seq<Op>)
    ensures Inv(Run(Boot, ops))
  {
    hide Blank, FirstGenerations;
    assert Inv(Boot);
    RunInv(Boot, ops);
  }

  /** The handle was issued and no slot of any table carries it any more. */
  ghost predicate Spent(s: Caps, x: Issue) {
    && x in s.issued
    && (forall a: nat :: Live(s.tables, a) && x.index < |s.tables[a].value.slots| ==>
      !Carries(s.tables[a].value.slots[x.index], x))
  }

  predicate Carries(slot: Slot, x: Issue) {
    slot.grant.Some? && slot.generation == x.generation
  }

  lemma StepKeepsSpent(s: Caps, op: Op, x: Issue)
    requires Inv(s) && Spent(s, x)
    ensures Spent(Apply(s, op), x)
  {
    hide Inv, SlotGood, Sum;
    var s' := Apply(s, op);
    match op
    case OpInsert(a, key, rights) => InsertKeepsSpent(s, a, key, rights, x);
    case OpDelete(a, only) =>
      if Live(s.tables, a) {
        BulkDeleteExact(s, a, only);
        DeleteHistory(s, a, only);
      } else {
        DeadTable(s, a, only);
      }
    case OpInitTable => hide NoSlots;
    case _ =>
  }

  lemma InsertKeepsSpent(s: Caps, a: nat, key: Key, rights: Rights, x: Issue)
    requires Inv(s) && Spent(s, x)
    ensures Spent(Apply(s, OpInsert(a, key, rights)), x)
  {
    hide SlotGood, Sum;
    var s' := Apply(s, OpInsert(a, key, rights));
    if s' != s {
      assert TableOk(s, s.tables[a].value);
      assert x.generation < s.issuers[x.index];
    }
  }

  lemma DeleteHistory(s: Caps, a: nat, only: Option<Key>)
    requires Inv(s) && Live(s.tables, a)
    ensures DeleteSelected(s, a, only).0.issued == s.issued
  {
    TableAlwaysValid(s, a);
    BulkAffordable(s, a, only);
    DeleteFromExact(s, a, only, 0);
  }

  lemma {:induction false} RunKeepsSpent(s: Caps, ops: seq<Op>, x: Issue)
    requires Inv(s) && Spent(s, x)
    ensures Inv(Run(s, ops)) && Spent(Run(s, ops), x)
    decreases |ops|
  {
    hide Inv, Apply, Spent;
    if ops != [] {
      StepInv(s, ops[0]);
      StepKeepsSpent(s, ops[0], x);
      RunKeepsSpent(Apply(s, ops[0]), ops[1..], x);
    }
  }

  /** A deleted handle never resolves again: in no table, for no kind, in no later
      state of any run, however tables and objects are reused. */
  lemma DeletedHandleStaysDead(s: Caps, ops: seq<Op>, handle: nat, a: nat, kind: Kind, required: Rights)
    requires Inv(s) && Spent(s, Issue(Generation(handle), Index(handle)))
    ensures Lookup(Run(s, ops), a, handle, kind, required).None?
  {
    RunKeepsSpent(s, ops, Issue(Generation(handle), Index(handle)));
    LookupExact(Run(s, ops), a, handle, kind, required);
  }

  /** Deleting a grant spends its handle. */
  lemma RevokeSpends(s: Caps, a: nat, handle: nat)
    requires Inv(s) && Revoke(s, a, handle).Some?
    ensures Spent(Revoke(s, a, handle).value, Issue(Generation(handle), Index(handle)))
  {
    var s' := Revoke(s, a, handle).value;
    var x := Issue(Generation(handle), Index(handle));
    assert TableOk(s, s.tables[a].value) && SlotOk(s, s.tables[a].value, Index(handle));
    forall b: nat | Live(s'.tables, b) && x.index < |s'.tables[b].value.slots|
      ensures !Carries(s'.tables[b].value.slots[x.index], x) {
      assert TableOk(s, s.tables[b].value) && SlotOk(s, s.tables[b].value, x.index);
    }
  }

  /** So does removing it with the table's other grants, or with the other grants of its object. */
  lemma BulkSpends(s: Caps, a: nat, only: Option<Key>, i: nat)
    requires Inv(s) && Live(s.tables, a) && i < |s.tables[a].value.slots| && Selected(s.tables[a].value.slots[i], only)
    ensures Spent(DeleteSelected(s, a, only).0, Issue(s.tables[a].value.slots[i].generation, i))
  {
    hide DeleteSelected, SlotGood, Sum;
    BulkDeleteExact(s, a, only);
    DeleteHistory(s, a, only);
    var s' := DeleteSelected(s, a, only).0;
    var x := Issue(s.tables[a].value.slots[i].generation, i);
    assert TableOk(s, s.tables[a].value) && SlotOk(s, s.tables[a].value, i);
    forall b: nat | Live(s'.tables, b) && i < |s'.tables[b].value.slots|
      ensures !Carries(s'.tables[b].value.slots[i], x) {
      assert TableOk(s, s.tables[b].value) && SlotOk(s, s.tables[b].value, i);
    }
  }

  /** Slot `i` of table `a` still holds what it held. */
  predicate Holds(s: Caps, s': Caps, a: nat, i: nat) {
    && Live(s.tables, a) && i < |s.tables[a].value.slots|
    && Live(s'.tables, a) && i < |s'.tables[a].value.slots|
    && s'.tables[a].value.slots[i] == s.tables[a].value.slots[i]
  }

  /** There is no third way: whatever the step, a grant is still in its slot afterwards
      or its handle is spent, which is for good. */
  lemma GrantStaysOrIsSpent(s: Caps, op: Op, a: nat, i: nat)
    requires Inv(s) && Live(s.tables, a) && i < |s.tables[a].value.slots| && s.tables[a].value.slots[i].grant.Some?
    ensures Holds(s, Apply(s, op), a, i) || Spent(Apply(s, op), Issue(s.tables[a].value.slots[i].generation, i))
  {
    hide SlotGood, Sum, Spent, Inv, DeleteSelected;
    Bookkept(s, a);
    NamedIsCounted(s, a, i);
    match op
    case OpRevoke(b, handle) =>
      if Revoke(s, b, handle).Some? {
        RevokeSpends(s, b, handle);
      }
    case OpDelete(b, only) =>
      if !Live(s.tables, b) {
        DeadTable(s, b, only);
      } else {
        BulkDeleteExact(s, b, only);
        if b == a && Selected(s.tables[a].value.slots[i], only) {
          BulkSpends(s, a, only, i);
        }
      }
    case OpInitTable => hide NoSlots;
    case _ =>
  }

  /** Conservation over whole runs: a live object's reference count is the number of
      slots that name it over all tables, and every occupied slot names a live object,
      in the incarnation it was granted for. */
  lemma ReferencesConserved(ops: seq<Op>, key: Key)
    ensures var s := Run(Boot, ops);
            && (key in s.objects ==> s.objects[key].refs == Refs(s, key))
            && (key !in s.objects ==> Refs(s, key) == 0)
            && (forall a: nat, i: nat :: Live(s.tables, a) && i < |s.tables[a].value.slots| ==>
                  (s.tables[a].value.slots[i].grant.Some? ==>
                     var grant := s.tables[a].value.slots[i].grant.value;
                     grant.key in s.objects && s.objects[grant.key].id == grant.id))
  {
    hide Apply, Run;
    RunFromBoot(ops);
    var s := Run(Boot, ops);
    if key !in s.objects {
      Unnamed(s, key);
    }
    forall a: nat, i: nat | Live(s.tables, a) && i < |s.tables[a].value.slots| && s.tables[a].value.slots[i].grant.Some?
      ensures SlotGood(s, s.tables[a].value.slots[i])
    {
      assert TableOk(s, s.tables[a].value);
      NamedIsCounted(s, a, i);
    }
  }
}
