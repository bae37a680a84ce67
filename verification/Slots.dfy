/**
 Fixed-capacity object registries and weighted sums over them.

 The kernel keeps every object kind in an array of slots that holds object
 addresses; a live object is in exactly one slot. Here the slot index stands
 for the address, and the slot holds the object itself.
 */
module Slots {

  datatype Option<+T> = None | Some(value: T)

  type Registry<T> = seq<Option<T>>

  predicate Live<T>(r: Registry<T>, i: nat) {
    i < |r| && r[i].Some?
  }

  function Blank<T>(capacity: nat): (r: Registry<T>)
    ensures |r| == capacity
    ensures forall i :: 0 <= i < capacity ==> r[i].None?
  {
    if capacity == 0 then [] else [None] + Blank(capacity - 1)
  }

  /** First empty slot at or after `from`, or the capacity when there is none. */
  function EmptyFrom<T>(r: Registry<T>, from: nat): (i: nat)
    requires from <= |r|
    ensures from <= i <= |r|
    ensures i < |r| ==> r[i].None?
    ensures forall j :: from <= j < i ==> r[j].Some?
    decreases |r| - from
  {
    if from == |r| || r[from].None? then from else EmptyFrom(r, from + 1)
  }

  function Empty<T>(r: Registry<T>): (i: nat)
    ensures i <= |r|
    ensures i < |r| ==> r[i].None?
    ensures forall j :: 0 <= j < i ==> r[j].Some?
  {
    EmptyFrom(r, 0)
  }

  /** Sum of the weights of all elements. */
  function Sum<T>(s: seq<T>, w: T -> nat): nat {
    if s == [] then 0 else w(s[0]) + Sum(s[1..], w)
  }

  /** Replacing one element moves the sum by the difference of the two weights. */
  lemma {:induction false} SumUpdate<T>(s: seq<T>, i: nat, x: T, w: T -> nat)
    requires i < |s|
    ensures Sum(s[i := x], w) + w(s[i]) == Sum(s, w) + w(x)
  {
    if i == 0 {
      assert s[i := x][1..] == s[1..];
    } else {
      assert s[i := x][1..] == s[1..][i - 1 := x];
      SumUpdate(s[1..], i - 1, x, w);
    }
  }

  lemma {:induction false} SumAtLeast<T>(s: seq<T>, i: nat, w: T -> nat)
    requires i < |s|
    ensures w(s[i]) <= Sum(s, w)
  {
    if i > 0 {
      SumAtLeast(s[1..], i - 1, w);
    }
  }

  lemma {:induction false} SumPair<T>(s: seq<T>, i: nat, j: nat, w: T -> nat)
    requires i < j < |s|
    ensures w(s[i]) + w(s[j]) <= Sum(s, w)
  {
    if i == 0 {
      SumAtLeast(s[1..], j - 1, w);
    } else {
      SumPair(s[1..], i - 1, j - 1, w);
    }
  }

  lemma {:induction false} SumZero<T>(s: seq<T>, w: T -> nat)
    requires forall i :: 0 <= i < |s| ==> w(s[i]) == 0
    ensures Sum(s, w) == 0
  {
    if s != [] {
      forall i | 0 <= i < |s[1..]| ensures w(s[1..][i]) == 0 {
        assert s[1..][i] == s[i + 1];
      }
      SumZero(s[1..], w);
    }
  }

  /** A positive sum has a positive witness. */
  lemma {:induction false} SumPositive<T>(s: seq<T>, w: T -> nat) returns (i: nat)
    requires Sum(s, w) > 0
    ensures i < |s| && w(s[i]) > 0
  {
    if w(s[0]) > 0 {
      i := 0;
    } else {
      var j := SumPositive(s[1..], w);
      i := j + 1;
    }
  }

  lemma {:induction false} SumSame<T>(s: seq<T>, t: seq<T>, w: T -> nat, v: T -> nat)
    requires |s| == |t|
    requires forall i :: 0 <= i < |s| ==> w(s[i]) == v(t[i])
    ensures Sum(s, w) == Sum(t, v)
  {
    if s != [] {
      forall i | 0 <= i < |s[1..]| ensures w(s[1..][i]) == v(t[1..][i]) {
        assert s[1..][i] == s[i + 1] && t[1..][i] == t[i + 1];
      }
      SumSame(s[1..], t[1..], w, v);
    }
  }

  /** Splitting off the last element, for loops that scan upward. */
  lemma {:induction false} SumSnoc<T>(s: seq<T>, i: nat, w: T -> nat)
    requires i < |s|
    ensures Sum(s[..i + 1], w) == Sum(s[..i], w) + w(s[i])
  {
    if i == 0 {
      assert s[..1] == [s[0]];
      assert s[..0] == [];
      assert [s[0]][1..] == [];
    } else {
      assert s[..i + 1][1..] == s[1..][..i];
      assert s[..i][1..] == s[1..][..i - 1];
      SumSnoc(s[1..], i - 1, w);
    }
  }

  /** `object_storage_empty`: the scan finds exactly the first empty slot. */
  method FindEmpty<T>(r: Registry<T>) returns (i: nat)
    ensures i == Empty(r)
  {
    i := 0;
    while i < |r|
      invariant 0 <= i <= |r|
      invariant EmptyFrom(r, 0) == EmptyFrom(r, i)
    {
      if r[i].None? {
        return;
      }
      i := i + 1;
    }
  }

  // --------------------------------------------------------------- pigeonholes

  function Below(n: nat): (r: set<nat>)
    ensures forall v: nat :: v in r <==> v < n
    ensures |r| == n
  {
    if n == 0 then {} else Below(n - 1) + {n - 1}
  }

  lemma {:induction false} DistinctFit(keys: seq<nat>, bound: set<nat>)
    requires forall i :: 0 <= i < |keys| ==> keys[i] in bound
    requires forall i, j :: 0 <= i < j < |keys| ==> keys[i] != keys[j]
    ensures |keys| <= |bound|
  {
    if keys != [] {
      assert bound == (bound - {keys[0]}) + {keys[0]};
      DistinctFit(keys[1..], bound - {keys[0]});
    }
  }

  /** Distinct numbers below `n` that avoid one of them are fewer than `n`. */
  lemma Pigeonhole(keys: seq<nat>, n: nat, free: nat)
    requires forall i :: 0 <= i < |keys| ==> keys[i] < n && keys[i] != free
    requires forall i, j :: 0 <= i < j < |keys| ==> keys[i] != keys[j]
    requires free < n
    ensures |keys| < n
  {
    var room := Below(n) - {free};
    assert Below(n) == room + {free};
    DistinctFit(keys, room);
  }
}
