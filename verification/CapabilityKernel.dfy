/**
 The capability operations as the kernel runs them: scans over the slots of a
 table and updates in place.
 */
module CapabilityKernel {
  import opened Slots
  import opened Capabilities
  import opened CapabilityRuns

  class Capability {
    var objects: map<Key, Object>
    var tables: Registry<Table>
    var issuers: seq<nat>
    var nextId: map<Kind, nat>
    var nextSerial: nat
    var issued: map<Issue, Origin>

    function View(): Caps
      reads this
    {
      Caps(objects, tables, issuers, nextId, nextSerial, issued)
    }

    /** `table_valid`: one scan checks every slot and counts the occupied ones. */
    method CheckTable(a: nat) returns (ok: bool)
      ensures ok == TableValid(View(), a)
      ensures ok ==> Live(tables, a)
    {
      if !Live(tables, a) || tables[a].value.count > CAPACITY {
        return false;
      }
      var slots := tables[a].value.slots;
      var count := 0;
      var i := 0;
      while i < |slots|
        invariant 0 <= i <= |slots|
        invariant count == Sum(slots[..i], Occupied())
        invariant forall j :: 0 <= j < i && slots[j].grant.Some? ==> SlotGood(View(), slots[j])
      {
        SumSnoc(slots, i, Occupied());
        if slots[i].grant.Some? {
          if !SlotGood(View(), slots[i]) {
            return false;
          }
          count := count + 1;
        }
        i := i + 1;
      }
      assert slots[..|slots|] == slots;
      return count == tables[a].value.count;
    }

    /** `capability_insert`: the first free slot whose index has generations left. */
    method GrantTo(a: nat, key: Key, rights: Rights) returns (ok: bool, handle: nat)
      requires |issuers| == CAPACITY && (Live(tables, a) ==> |tables[a].value.slots| == CAPACITY)
      modifies `objects, `tables, `issuers, `issued
      ensures ok == Insert(old(View()), a, key, rights).Some?
      ensures if ok then (View(), handle) == Insert(old(View()), a, key, rights).value
              else View() == old(View()) && handle == 0
    {
      handle := 0;
      ok := CheckTable(a);
      if !ok || !RightsOk(rights) || tables[a].value.count == CAPACITY || key !in objects || !objects[key].grantable ||
         objects[key].refs == U64 - 1
      {
        return false, 0;
      }
      var t := tables[a].value;
      var i := 0;
      while i < CAPACITY
        invariant 0 <= i <= CAPACITY && View() == old(View())
        invariant Eligible(t, issuers, 0) == Eligible(t, issuers, i)
      {
        if t.slots[i].grant.None? && 0 < issuers[i] <= GENERATION_MAX {
          var generation := issuers[i];
          var grant := Grant(key, objects[key].id, rights);
          issuers := issuers[i := generation + 1];
          issued := issued[Issue(generation, i) := Origin(t.serial, grant)];
          objects := objects[key := objects[key].(refs := objects[key].refs + 1)];
          tables := tables[a := Some(t.(slots := t.slots[i := Slot(generation, Some(grant))], count := t.count + 1))];
          return true, Encode(generation, i);
        }
        i := i + 1;
      }
      return false, 0;
    }

    method Drop(a: nat, i: nat)
      requires Live(tables, a) && i < |tables[a].value.slots| && SlotGood(View(), tables[a].value.slots[i])
      requires tables[a].value.count > 0
      modifies `objects, `tables
      ensures View() == DeleteSlot(old(View()), a, i)
    {
      var t := tables[a].value;
      var key := t.slots[i].grant.value.key;
      objects := objects[key := objects[key].(refs := objects[key].refs - 1)];
      tables := tables[a := Some(t.(slots := t.slots[i := t.slots[i].(grant := None)], count := t.count - 1))];
    }

    method RevokeOne(a: nat, handle: nat) returns (ok: bool)
      requires Inv(View())
      modifies `objects, `tables
      ensures ok == Revoke(old(View()), a, handle).Some?
      ensures View() == OrElse(Revoke(old(View()), a, handle), old(View()))
    {
      ok := CheckTable(a);
      var i := Resolve(View(), a, handle);
      if !ok || i.None? {
        return false;
      }
      assert TableOk(View(), tables[a].value);
      NamedIsCounted(View(), a, i.value);
      Drop(a, i.value);
      return true;
    }

    method CountNaming(slots: seq<Slot>, key: Key) returns (count: nat)
      ensures count == Sum(slots, Naming(key))
    {
      count := 0;
      var j := 0;
      while j < |slots|
        invariant 0 <= j <= |slots|
        invariant count == Sum(slots[..j], Naming(key))
      {
        SumSnoc(slots, j, Naming(key));
        if slots[j].grant.Some? && slots[j].grant.value.key == key {
          count := count + 1;
        }
        j := j + 1;
      }
      assert slots[..|slots|] == slots;
    }

    /** The multiplicity check before a bulk deletion. */
    method CheckAffordable(a: nat, only: Option<Key>) returns (ok: bool)
      requires Live(tables, a)
      ensures ok == Affordable(View(), a, only)
    {
      var slots := tables[a].value.slots;
      var i := 0;
      while i < |slots|
        invariant 0 <= i <= |slots|
        invariant forall j :: 0 <= j < i && Selected(slots[j], only) ==>
                    SlotGood(View(), slots[j]) &&
                      Sum(slots, Naming(slots[j].grant.value.key)) <= objects[slots[j].grant.value.key].refs
      {
        if Selected(slots[i], only) {
          var matching := CountNaming(slots, slots[i].grant.value.key);
          if !SlotGood(View(), slots[i]) || objects[slots[i].grant.value.key].refs < matching {
            return false;
          }
        }
        i := i + 1;
      }
      return true;
    }

    method DropIfSelected(a: nat, i: nat, only: Option<Key>)
      requires Inv(View()) && Live(tables, a) && i < CAPACITY == |tables[a].value.slots|
      modifies `objects, `tables
      ensures Inv(View()) && Live(tables, a) && |tables[a].value.slots| == CAPACITY
      ensures DeleteFrom(old(View()), a, only, i) == DeleteFrom(View(), a, only, i + 1)
    {
      hide Inv;
      if Selected(tables[a].value.slots[i], only) {
        NamedIsCounted(View(), a, i);
        DeleteSlotInv(View(), a, i);
        Drop(a, i);
        Bookkept(View(), a);
      }
    }

    /** `delete_selected`: check the table and the multiplicities, then delete. */
    method DeleteMany(a: nat, only: Option<Key>) returns (ok: bool)
      requires Inv(View())
      modifies `objects, `tables
      ensures (View(), ok) == DeleteSelected(old(View()), a, only)
    {
      hide Inv, TableValid, Affordable, SlotGood;
      ok := CheckTable(a);
      if !ok {
        return;
      }
      ok := CheckAffordable(a, only);
      if !ok {
        return;
      }
      var i := 0;
      Bookkept(View(), a);
      while i < CAPACITY
        invariant 0 <= i <= CAPACITY && Inv(View()) && Live(tables, a) && |tables[a].value.slots| == CAPACITY
        invariant DeleteFrom(old(View()), a, only, 0) == DeleteFrom(View(), a, only, i)
      {
        DropIfSelected(a, i, only);
        i := i + 1;
      }
      return true;
    }
  }
}
