/**
 What a grant, a revocation and a lookup do, told by the handle: a handle means the
 grant it was issued for until it is deleted, and deleting undoes granting.
 */
module CapabilityEffects {
  import opened Slots
  import opened Capabilities
  import opened CapabilityRuns

  function IssueOf(handle: nat): Issue {
    Issue(Generation(handle), Index(handle))
  }

  /** The handle names this grant in table `a`. */
  predicate Names(s: Caps, a: nat, handle: nat, grant: Grant) {
    && Live(s.tables, a) && Index(handle) < |s.tables[a].value.slots|
    && s.tables[a].value.slots[Index(handle)] == Slot(Generation(handle), Some(grant))
  }

  /** Only slot `i` of table `a`, that table's count and the count of `key` may differ. */
  predicate OnlySlot(s: Caps, s': Caps, a: nat, i: nat, key: Key) {
    && Live(s.tables, a) && Live(s'.tables, a) && s'.tables == s.tables[a := s'.tables[a]]
    && |s'.tables[a].value.slots| == |s.tables[a].value.slots| && i < |s.tables[a].value.slots|
    && s'.tables[a].value.slots == s.tables[a].value.slots[i := s'.tables[a].value.slots[i]]
    && s'.tables[a].value.serial == s.tables[a].value.serial
    && key in s.objects && s'.objects.Keys == s.objects.Keys
    && s'.objects == s.objects[key := s.objects[key].(refs := s'.objects[key].refs)]
    && s'.nextId == s.nextId && s'.nextSerial == s.nextSerial
  }

  /** The storage that a grant to table `a` relies on is there. */
  predicate Works(s: Caps, a: nat) {
    |s.issuers| == CAPACITY && (Live(s.tables, a) ==> |s.tables[a].value.slots| == CAPACITY)
  }

  /** So it is in every reachable state. */
  lemma AlwaysWorks(s: Caps, a: nat)
    requires Inv(s)
    ensures Works(s, a)
  {
    if Live(s.tables, a) {
      Bookkept(s, a);
    }
  }

  // ------------------------------------------------------------------- one call

  /** A grant fills one slot that was free, under a handle that names it from then on,
      and adds one reference to the object named. */
  lemma InsertExact(s: Caps, a: nat, key: Key, rights: Rights)
    requires Inv(s) && Works(s, a) && Insert(s, a, key, rights).Some?
    ensures var (s', handle) := Insert(s, a, key, rights).value;
            && Index(handle) < CAPACITY && OnlySlot(s, s', a, Index(handle), key)
            && s.tables[a].value.slots[Index(handle)].grant.None?
            && Names(s', a, handle, Grant(key, s.objects[key].id, rights))
            && s'.objects[key].refs == s.objects[key].refs + 1
            && s'.tables[a].value.count == s.tables[a].value.count + 1
  {
    hide Inv, SlotGood, Sum, Eligible, Encode, Generation, Index;
    var i := Eligible(s.tables[a].value, s.issuers, 0);
    HandleRoundTrip(s.issuers[i], i);
  }

  /** Revocation works exactly for a handle that names a grant; it clears that slot, keeps
      its generation, and takes one reference from the object named. */
  lemma RevokeExact(s: Caps, a: nat, handle: nat)
    requires Inv(s)
    ensures var r := Revoke(s, a, handle);
            && (r.Some? <==> exists grant :: Names(s, a, handle, grant))
            && (r.Some? ==>
                  var s', i := r.value, Index(handle);
                  && Live(s.tables, a) && i < |s.tables[a].value.slots| && s.tables[a].value.slots[i].grant.Some?
                  && var key := s.tables[a].value.slots[i].grant.value.key;
                     && OnlySlot(s, s', a, i, key) && s'.issuers == s.issuers && s'.issued == s.issued
                     && s'.tables[a].value.slots[i] == Slot(Generation(handle), None)
                     && s'.objects[key].refs == s.objects[key].refs - 1
                     && s'.tables[a].value.count == s.tables[a].value.count - 1)
  {
    hide Inv, TableOk, Sum;
    if Live(s.tables, a) && Index(handle) < |s.tables[a].value.slots| {
      var slot := s.tables[a].value.slots[Index(handle)];
      TableAlwaysValid(s, a);
      if slot.grant.Some? {
        Bookkept(s, a);
        NamedIsCounted(s, a, Index(handle));
        Counted(s, a, Index(handle));
        if slot.generation == Generation(handle) {
          assert Names(s, a, handle, slot.grant.value);
        }
      }
    }
  }

  /** A table with a grant has a count, and the grant a generation. */
  lemma Counted(s: Caps, a: nat, i: nat)
    requires Inv(s) && Live(s.tables, a) && i < |s.tables[a].value.slots| && s.tables[a].value.slots[i].grant.Some?
    ensures s.tables[a].value.count > 0 && s.tables[a].value.slots[i].generation != 0
  {
    var t := s.tables[a].value;
    assert TableOk(s, t) && SlotOk(s, t, i);
    SumUpdate(t.slots, i, Slot(0, None), Occupied());
  }

  /** Revoking what was just granted undoes the grant: every object has the references and
      every table the grants it had. Only the spent handle stays. */
  lemma InsertThenRevoke(s: Caps, a: nat, key: Key, rights: Rights)
    requires Inv(s) && Works(s, a) && Insert(s, a, key, rights).Some?
    ensures var (s1, handle) := Insert(s, a, key, rights).value;
            var r := Revoke(s1, a, handle);
            && r.Some? && r.value.objects == s.objects
            && Live(s.tables, a) && Index(handle) < |s.tables[a].value.slots|
            && r.value.tables ==
               s.tables[a := Some(s.tables[a].value.(
                 slots := s.tables[a].value.slots[Index(handle) := Slot(Generation(handle), None)]))]
  {
    hide Inv, Insert, Revoke, Generation, Index, TableValid, Sum;
    var (s1, handle) := Insert(s, a, key, rights).value;
    InsertInv(s, a, key, rights);
    InsertExact(s, a, key, rights);
    RevokeExact(s1, a, handle);
    var s2 := Revoke(s1, a, handle).value;
    assert s2.objects == s.objects;
    assert s2.tables[a].value.slots ==
           s.tables[a].value.slots[Index(handle) := Slot(Generation(handle), None)];
  }

  /** An object can go exactly when no slot of any table names it. */
  lemma DestroyObjectIff(s: Caps, key: Key)
    requires Inv(s)
    ensures DestroyObject(s, key).Some? <==> key in s.objects && Refs(s, key) == 0
    ensures DestroyObject(s, key).Some? ==>
      forall a: nat, i: nat :: Live(s.tables, a) && i < |s.tables[a].value.slots| ==>
        Naming(key)(s.tables[a].value.slots[i]) == 0
  {
    hide Sum, Naming;
    if DestroyObject(s, key).Some? {
      forall a: nat, i: nat | Live(s.tables, a) && i < |s.tables[a].value.slots|
        ensures Naming(key)(s.tables[a].value.slots[i]) == 0
      {
        NamingSmall(key, s.tables[a].value.slots[i]);
        SlotChange(s, a, i, Slot(0, None), s.tables[a].value.(slots := s.tables[a].value.slots[i := Slot(0, None)]),
          key);
      }
    }
  }

  lemma NamingSmall(key: Key, slot: Slot)
    ensures Naming(key)(Slot(0, None)) == 0 && 0 <= Naming(key)(slot)
  {
  }

  /** A table can go exactly when it holds no grant. */
  lemma DestroyTableIff(s: Caps, a: nat)
    requires Inv(s)
    ensures DestroyTable(s, a).Some? <==>
      Live(s.tables, a) && forall i :: 0 <= i < |s.tables[a].value.slots| ==> s.tables[a].value.slots[i].grant.None?
  {
    hide Sum, TableValid;
    if Live(s.tables, a) {
      TableAlwaysValid(s, a);
      var t := s.tables[a].value;
      if forall i :: 0 <= i < |t.slots| ==> t.slots[i].grant.None? {
        assert TableOk(s, t);
        NothingNamed(t.slots);
      } else {
        var i :| 0 <= i < |t.slots| && t.slots[i].grant.Some?;
        Counted(s, a, i);
      }
    } else {
      DeadInvalid(s, a);
    }
  }

  lemma DeadInvalid(s: Caps, a: nat)
    requires !Live(s.tables, a)
    ensures !TableValid(s, a)
  {
  }

  /** A table can be made while one of the places is free, and holds no grant. */
  lemma InitTableExact(s: Caps)
    requires Inv(s)
    ensures InitTable(s).Some? <==> exists a: nat :: a < |s.tables| && !Live(s.tables, a)
    ensures InitTable(s).Some? ==>
      var s' := InitTable(s).value;
      exists a: nat ::
        && a < |s.tables| && !Live(s.tables, a) && Live(s'.tables, a) && s'.tables == s.tables[a := s'.tables[a]]
        && s'.objects == s.objects && s'.issuers == s.issuers && s'.issued == s.issued
        && |s'.tables[a].value.slots| == CAPACITY
        && forall i :: 0 <= i < CAPACITY ==> s'.tables[a].value.slots[i].grant.None?
  {
    hide Inv, Sum, NoSlots;
    var a := Empty(s.tables);
    assert a < |s.tables| ==> !Live(s.tables, a);
  }

  /** A retired object keeps its references and its handles keep working, but it is never
      granted again. */
  lemma RetireExact(s: Caps, key: Key, a: nat, rights: Rights)
    requires Inv(s) && key in s.objects && Works(s, a)
    ensures RetireObject(s, key).Some?
    ensures var s' := RetireObject(s, key).value;
            && s'.tables == s.tables && key in s'.objects && s'.objects[key].refs == s.objects[key].refs
            && Insert(s', a, key, rights).None?
            && forall b: nat, handle: nat, kind, required ::
                 Lookup(s', b, handle, kind, required) == Lookup(s, b, handle, kind, required)
  {
    hide Inv, Sum;
  }

  // -------------------------------------------------------------------- whole runs

  lemma NamesSlot(s: Caps, op: Op, a: nat, handle: nat, grant: Grant)
    requires Inv(s) && Names(s, a, handle, grant)
    ensures Names(Apply(s, op), a, handle, grant) || Spent(Apply(s, op), IssueOf(handle))
  {
    hide Inv, Apply, Spent, Generation, Index;
    GrantStaysOrIsSpent(s, op, a, Index(handle));
  }

  lemma {:induction false} RunNames(s: Caps, ops: seq<Op>, a: nat, handle: nat, grant: Grant)
    requires Inv(s) && Names(s, a, handle, grant)
    ensures Inv(Run(s, ops))
    ensures Names(Run(s, ops), a, handle, grant) || Spent(Run(s, ops), IssueOf(handle))
    decreases |ops|
  {
    hide Inv, Apply, Spent, Names, Generation, Index;
    if ops != [] {
      StepInv(s, ops[0]);
      NamesSlot(s, ops[0], a, handle, grant);
      if Names(Apply(s, ops[0]), a, handle, grant) {
        RunNames(Apply(s, ops[0]), ops[1..], a, handle, grant);
      } else {
        RunKeepsSpent(Apply(s, ops[0]), ops[1..], IssueOf(handle));
      }
    }
  }

  /** The handle finds this object in table `a`, for its kind and for any of these rights,
      and finds nothing anywhere else or for anything else. */
  ghost predicate Means(s: Caps, a: nat, handle: nat, key: Key, rights: Rights) {
    forall b: nat, kind, required :: Lookup(s, b, handle, kind, required) == Meant(a, key, rights, b, kind, required)
  }

  /** What a grant of these rights to table `a` answers to a lookup in table `b`. */
  function Meant(a: nat, key: Key, rights: Rights, b: nat, kind: Kind, required: Rights): Option<Key> {
    if b == a && kind == key.kind && required & !RIGHT_ALL == 0 && rights & required == required
    then Some(key) else None
  }

  ghost predicate FindsNothing(s: Caps, handle: nat) {
    forall b: nat, kind, required :: Lookup(s, b, handle, kind, required).None?
  }

  /** A handle means what it was granted for, over every run: until it is deleted, it
      finds the object it was granted for, in that incarnation, in the table it was granted
      to and for any of the rights granted, and finds nothing else; once deleted, it finds
      nothing. */
  lemma HandleMeansItsGrant(s: Caps, a: nat, key: Key, rights: Rights, ops: seq<Op>)
    requires Inv(s) && Works(s, a) && Insert(s, a, key, rights).Some?
    ensures var (s1, handle) := Insert(s, a, key, rights).value;
            var s2 := Run(s1, ops);
            if Spent(s2, IssueOf(handle)) then FindsNothing(s2, handle)
            else
              && Means(s2, a, handle, key, rights)
              && key in s.objects && key in s2.objects && s2.objects[key].id == s.objects[key].id
  {
    hide Inv, Insert, Run, Apply, Lookup, Spent, Names, Means, FindsNothing, OnlySlot, Generation, Index, TableValid,
      Sum;
    var (s1, handle) := Insert(s, a, key, rights).value;
    InsertInv(s, a, key, rights);
    InsertExact(s, a, key, rights);
    InsertKnows(s, a, key, rights);
    var grant := Grant(key, s.objects[key].id, rights);
    RunNames(s1, ops, a, handle, grant);
    if Spent(Run(s1, ops), IssueOf(handle)) {
      SpentFindsNothing(Run(s1, ops), handle);
    } else {
      NamesLive(Run(s1, ops), a, handle, grant);
      NamesLookup(Run(s1, ops), a, handle, grant);
    }
  }

  lemma InsertKnows(s: Caps, a: nat, key: Key, rights: Rights)
    requires Works(s, a) && Insert(s, a, key, rights).Some?
    ensures key in s.objects
  {
  }

  lemma SpentFindsNothing(s: Caps, handle: nat)
    requires Inv(s) && Spent(s, IssueOf(handle))
    ensures FindsNothing(s, handle)
  {
    hide Inv, Lookup, Generation, Index;
    forall b: nat, kind, required ensures Lookup(s, b, handle, kind, required).None? {
      LookupExact(s, b, handle, kind, required);
    }
  }

  lemma NamesLive(s: Caps, a: nat, handle: nat, grant: Grant)
    requires Inv(s) && Names(s, a, handle, grant)
    ensures grant.key in s.objects && s.objects[grant.key].id == grant.id
  {
    hide Generation, Index, Sum;
    assert TableOk(s, s.tables[a].value) && SlotOk(s, s.tables[a].value, Index(handle));
  }

  lemma NamesLookup(s: Caps, a: nat, handle: nat, grant: Grant)
    requires Inv(s) && Names(s, a, handle, grant)
    ensures Means(s, a, handle, grant.key, grant.rights)
  {
    hide Inv, Lookup, Names, Meant;
    forall b: nat, kind, required
      ensures Lookup(s, b, handle, kind, required) == Meant(a, grant.key, grant.rights, b, kind, required)
    {
      NamesLookupOne(s, a, handle, grant, b, kind, required);
    }
  }

  lemma NamesLookupOne(s: Caps, a: nat, handle: nat, grant: Grant, b: nat, kind: Kind, required: Rights)
    requires Inv(s) && Names(s, a, handle, grant)
    ensures Lookup(s, b, handle, kind, required) == Meant(a, grant.key, grant.rights, b, kind, required)
  {
    hide Lookup, Generation, Index, Sum;
    LookupExact(s, b, handle, kind, required);
    LookupExact(s, a, handle, kind, required);
    if Lookup(s, b, handle, kind, required).Some? {
      SameTable(s, a, b, handle, grant);
      NamesIssued(s, a, handle, grant);
    } else if b == a {
      NamesIssued(s, a, handle, grant);
    }
  }

  lemma NamesIssued(s: Caps, a: nat, handle: nat, grant: Grant)
    requires Inv(s) && Names(s, a, handle, grant)
    ensures IssueOf(handle) in s.issued && s.issued[IssueOf(handle)] == Origin(s.tables[a].value.serial, grant)
  {
    hide Generation, Index, Sum;
    assert TableOk(s, s.tables[a].value) && SlotOk(s, s.tables[a].value, Index(handle));
  }

  lemma SameTable(s: Caps, a: nat, b: nat, handle: nat, grant: Grant)
    requires Inv(s) && Names(s, a, handle, grant)
    requires Live(s.tables, b) && Index(handle) < |s.tables[b].value.slots|
    requires s.tables[b].value.slots[Index(handle)].grant.Some?
    requires s.tables[b].value.slots[Index(handle)].generation == Generation(handle)
    ensures a == b
  {
    hide Generation, Index, Sum;
    assert TableOk(s, s.tables[a].value) && SlotOk(s, s.tables[a].value, Index(handle));
    assert TableOk(s, s.tables[b].value) && SlotOk(s, s.tables[b].value, Index(handle));
  }

  // -------------------------------------------------------------- identities of objects

  /** Every identity in use or ever granted was handed out before the next one. */
  ghost predicate IdsOk(s: Caps) {
    && (forall kind :: kind in s.nextId ==> s.nextId[kind] < U64)
    && (forall key :: key in s.objects ==> Handed(s, key.kind, s.objects[key].id))
    && (forall x :: x in s.issued ==> Handed(s, s.issued[x].grant.key.kind, s.issued[x].grant.id))
  }

  predicate Handed(s: Caps, kind: Kind, id: nat) {
    kind in s.nextId && (s.nextId[kind] == 0 || id < s.nextId[kind])
  }

  lemma StepIds(s: Caps, op: Op)
    requires Inv(s) && IdsOk(s)
    ensures IdsOk(Apply(s, op))
  {
    hide Inv, SlotGood, Sum, TableValid, Eligible, DeleteSelected;
    match op
    case OpDelete(a, only) =>
      if Live(s.tables, a) {
        DeleteKeepsIds(s, a, only);
      } else {
        DeadTable(s, a, only);
      }
    case OpInitTable => hide NoSlots;
    case OpCreateObject(key) => CreateIds(s, key);
    case OpInsert(a, key, rights) => InsertIds(s, a, key, rights);
    case OpRevoke(a, handle) => RevokeExact(s, a, handle);
    case _ =>
  }

  lemma CreateIds(s: Caps, key: Key)
    requires IdsOk(s)
    ensures IdsOk(OrElse(CreateObject(s, key), s))
  {
  }

  lemma InsertIds(s: Caps, a: nat, key: Key, rights: Rights)
    requires IdsOk(s)
    ensures IdsOk(Apply(s, OpInsert(a, key, rights)))
  {
    hide Sum, Eligible;
  }

  lemma DeleteKeepsIds(s: Caps, a: nat, only: Option<Key>)
    requires Inv(s) && Live(s.tables, a)
    ensures var s' := DeleteSelected(s, a, only).0;
            && s'.issued == s.issued && s'.nextId == s.nextId && s'.objects.Keys == s.objects.Keys
            && forall key :: key in s.objects ==> s'.objects[key].id == s.objects[key].id
  {
    hide Inv, SlotGood, Sum, Affordable;
    DeleteHistory(s, a, only);
    TableAlwaysValid(s, a);
    BulkAffordable(s, a, only);
    DeleteFromIds(s, a, only, 0);
  }

  lemma {:induction false} DeleteFromIds(s: Caps, a: nat, only: Option<Key>, i: nat)
    requires Live(s.tables, a) && i <= |s.tables[a].value.slots|
    ensures var s' := DeleteFrom(s, a, only, i).0;
            && s'.nextId == s.nextId && s'.objects.Keys == s.objects.Keys
            && forall key :: key in s.objects ==> s'.objects[key].id == s.objects[key].id
    decreases |s.tables[a].value.slots| - i
  {
    hide SlotGood;
    var t := s.tables[a].value;
    if i < |t.slots| {
      if !Selected(t.slots[i], only) {
        DeleteFromIds(s, a, only, i + 1);
      } else if SlotGood(s, t.slots[i]) && t.count != 0 {
        OneKeepsIds(s, a, i);
        DeleteFromIds(DeleteSlot(s, a, i), a, only, i + 1);
      }
    }
  }

  lemma OneKeepsIds(s: Caps, a: nat, i: nat)
    requires Live(s.tables, a) && i < |s.tables[a].value.slots| && SlotGood(s, s.tables[a].value.slots[i])
    requires s.tables[a].value.count > 0
    ensures var s' := DeleteSlot(s, a, i);
            && s'.nextId == s.nextId && s'.objects.Keys == s.objects.Keys
            && forall key :: key in s.objects ==> s'.objects[key].id == s.objects[key].id
  {
  }

  lemma {:induction false} RunIds(s: Caps, ops: seq<Op>)
    requires Inv(s) && IdsOk(s)
    ensures Inv(Run(s, ops)) && IdsOk(Run(s, ops))
    decreases |ops|
  {
    hide Inv, IdsOk, Apply;
    if ops != [] {
      StepInv(s, ops[0]);
      StepIds(s, ops[0]);
      RunIds(Apply(s, ops[0]), ops[1..]);
    }
  }

  /** An object created where another one was is a new object: over every run, no handle
      ever issued was issued for its identity. */
  lemma CreatedIsNew(ops: seq<Op>, key: Key)
    requires CreateObject(Run(Boot, ops), key).Some?
    ensures var s := Run(Boot, ops);
            var s' := CreateObject(s, key).value;
            && key !in s.objects && key in s'.objects && s'.objects[key].refs == 0 && s'.objects[key].grantable
            && forall x :: x in s.issued && s.issued[x].grant.key.kind == key.kind ==>
                 s.issued[x].grant.id != s'.objects[key].id
  {
    hide Run, Inv;
    RunFromBoot([]);
    BootRun();
    assert IdsOk(Boot);
    RunIds(Boot, ops);
  }

  lemma BootRun()
    ensures Run(Boot, []) == Boot
  {
  }
}
