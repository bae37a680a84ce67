/**
 The physical frame allocator (kernel/pmm.c): a byte bitmap with a free count and
 a search hint, which stands for a set of free frames.
 */
module FrameAllocator {
  import opened FrameSpans
  import opened FrameBitmap
  import opened Slots

  const FRAME_SIZE: nat := 4096
  const FRAME_LIMIT: nat := 0x10_0000_0000_0000
  const FRAME_INVALID: nat := 0xFFFF_FFFF_FFFF_FFFF

  /** Physical frames from `first` up to, not including, `end`. */
  datatype Range = Range(first: nat, end: nat)

  function Frames(r: Range): set<nat> {
    if r.end <= r.first then {} else Span(r.first, r.end - r.first)
  }

  function ManagedSet(ranges: seq<Range>): set<nat> {
    if ranges == [] then {} else Frames(ranges[0]) + ManagedSet(ranges[1..])
  }

  lemma {:induction false} InManaged(ranges: seq<Range>, f: nat)
    ensures f in ManagedSet(ranges) <==> exists i :: 0 <= i < |ranges| && ranges[i].first <= f < ranges[i].end
  {
    if ranges != [] {
      InManaged(ranges[1..], f);
      if f in ManagedSet(ranges[1..]) {
        var i :| 0 <= i < |ranges[1..]| && ranges[1..][i].first <= f < ranges[1..][i].end;
        assert ranges[i + 1].first <= f < ranges[i + 1].end;
      }
      if i :| 0 <= i < |ranges| && ranges[i].first <= f < ranges[i].end {
        assert i > 0 ==> ranges[1..][i - 1] == ranges[i];
      }
    }
  }

  predicate FreeBit(bytes: seq<bv8>, base: nat, f: nat) {
    base <= f < base + 8 * |bytes| && !Used(bytes, f - base)
  }

  /** The frames whose bits are clear. */
  ghost function Clear(bytes: seq<bv8>, base: nat, bits: nat): set<nat> {
    set f | f in Span(base, bits) && FreeBit(bytes, base, f)
  }

  /** Where a scan that starts at `hint` and wraps at the end is after `k` steps,
      and how many steps it takes to reach an index. */
  function Scan(hint: nat, k: nat, bits: nat): (i: nat)
    requires hint < bits && k < bits
    ensures i < bits && Distance(hint, i, bits) == k
  {
    if hint + k < bits then hint + k else hint + k - bits
  }

  function Distance(hint: nat, i: nat, bits: nat): (k: nat)
    requires hint < bits && i < bits
    ensures k < bits
  {
    if i >= hint then i - hint else i + bits - hint
  }

  /** Where the next search starts: one step after what was taken. */
  function Following(i: int, bits: nat): (n: nat)
    requires 0 <= i < bits
    ensures n < bits && Distance(i, n, bits) == 1 % bits
  {
    if i + 1 >= bits then 0 else i + 1
  }

  predicate Owns(ownFirst: nat, ownPages: nat, f: nat) {
    ownFirst <= f < ownFirst + ownPages
  }

  /** Managed frames have bits; free frames are managed and do not hold the bitmap. */
  ghost predicate Coherent(ranges: seq<Range>, base: nat, bits: nat, ownFirst: nat, ownPages: nat, free: set<nat>) {
    && 0 < base && base + bits <= FRAME_LIMIT
    && ManagedSet(ranges) <= Span(base, bits)
    && free <= ManagedSet(ranges)
    && (forall f :: f in free ==> !Owns(ownFirst, ownPages, f))
  }

  /** A non-empty span of managed frames in use, none of which holds the bitmap. */
  ghost predicate InUse(ranges: seq<Range>, ownFirst: nat, ownPages: nat, free: set<nat>, first: nat, count: nat) {
    count > 0 && forall f :: f in Span(first, count) ==>
      f in ManagedSet(ranges) && !Owns(ownFirst, ownPages, f) && f !in free
  }

  lemma GivenBack(ranges: seq<Range>, base: nat, bits: nat, ownFirst: nat, ownPages: nat, free: set<nat>, first: nat,
      count: nat)
    requires Coherent(ranges, base, bits, ownFirst, ownPages, free) &&
      InUse(ranges, ownFirst, ownPages, free, first, count)
    ensures Coherent(ranges, base, bits, ownFirst, ownPages, free + Span(first, count))
    ensures |free + Span(first, count)| == |free| + count
    ensures base <= first && first + count <= base + bits && count > 0
  {
    hide ManagedSet;
    assert first in Span(first, count) && first + count - 1 in Span(first, count);
    SpanSize(first, count);
    Given(ranges, base, bits, ownFirst, ownPages, free, Span(first, count));
  }

  lemma InRange(ranges: seq<Range>, base: nat, bits: nat, ownFirst: nat, ownPages: nat, free: set<nat>)
    requires Coherent(ranges, base, bits, ownFirst, ownPages, free)
    ensures 0 < base && base + bits <= FRAME_LIMIT
    ensures forall f :: f in ManagedSet(ranges) ==> base <= f < base + bits
    ensures free <= ManagedSet(ranges) && free <= Span(base, bits)
  {
  }

  lemma Taken(ranges: seq<Range>, base: nat, bits: nat, ownFirst: nat, ownPages: nat, free: set<nat>, run: set<nat>)
    requires Coherent(ranges, base, bits, ownFirst, ownPages, free) && run <= free
    ensures Coherent(ranges, base, bits, ownFirst, ownPages, free - run)
    ensures |free - run| == |free| - |run|
  {
    hide ManagedSet, Span;
    assert free == (free - run) + run;
  }

  lemma Given(ranges: seq<Range>, base: nat, bits: nat, ownFirst: nat, ownPages: nat, free: set<nat>, run: set<nat>)
    requires Coherent(ranges, base, bits, ownFirst, ownPages, free) && run !! free && run <= ManagedSet(ranges)
    requires forall f :: f in run ==> !Owns(ownFirst, ownPages, f)
    ensures Coherent(ranges, base, bits, ownFirst, ownPages, free + run)
    ensures |free + run| == |free| + |run|
  {
    hide ManagedSet, Span;
  }

  // ------------------------------------------------------- from the memory map

  const CONVENTIONAL: nat := 7
  const MAX_RANGES: nat := 128
  const MIN_USABLE: nat := 0x10_0000
  const U64_MAX: nat := 0xFFFF_FFFF_FFFF_FFFF

  datatype Descriptor = Descriptor(kind: nat, start: nat, pages: nat)

  function Max(a: nat, b: nat): nat {
    if a < b then b else a
  }

  /** The whole frames of a descriptor that the allocator may own. */
  function Usable(d: Descriptor): (r: Option<Range>)
    ensures r.Some? ==> MIN_USABLE / FRAME_SIZE <= r.value.first < r.value.end <= FRAME_LIMIT
  {
    if d.kind != CONVENTIONAL || d.pages == 0 || d.pages > U64_MAX / FRAME_SIZE ||
      d.start > U64_MAX - d.pages * FRAME_SIZE ||
       d.start > U64_MAX - (FRAME_SIZE - 1)
    then None
    else
      var start := Max((d.start + FRAME_SIZE - 1) / FRAME_SIZE * FRAME_SIZE, MIN_USABLE);
      var end := (d.start + d.pages * FRAME_SIZE) / FRAME_SIZE * FRAME_SIZE;
      if end <= start then None else Some(Range(start / FRAME_SIZE, end / FRAME_SIZE))
  }

  /** Adjacent ranges are merged; past the capacity a range is dropped. */
  function Add(ranges: seq<Range>, r: Range): seq<Range> {
    if ranges != [] &&
      ranges[|ranges| - 1].end == r.first then ranges[|ranges| - 1 := Range(ranges[|ranges| - 1].first, r.end)]
    else if |ranges| >= MAX_RANGES then ranges
    else ranges + [r]
  }

  function Collect(ds: seq<Descriptor>): seq<Range> {
    if ds == [] then []
    else
      var d := Usable(ds[|ds| - 1]);
      if d.None? then Collect(ds[..|ds| - 1]) else Add(Collect(ds[..|ds| - 1]), d.value)
  }

  predicate Proper(ranges: seq<Range>) {
    |ranges| <= MAX_RANGES && forall i :: 0 <= i < |ranges| ==>
      MIN_USABLE / FRAME_SIZE <= ranges[i].first < ranges[i].end <= FRAME_LIMIT
  }

  lemma {:induction false} CollectProper(ds: seq<Descriptor>)
    ensures Proper(Collect(ds))
  {
    if ds != [] {
      CollectProper(ds[..|ds| - 1]);
    }
  }

  // ------------------------------------------------ which frames the map gives

  /** The descriptor is usable memory, its end can be represented, and the whole of frame
      `f` is in it, above the first MiB. */
  predicate Covers(d: Descriptor, f: nat) {
    && d.kind == CONVENTIONAL
    && d.pages <= U64_MAX / FRAME_SIZE && d.start + d.pages * FRAME_SIZE <= U64_MAX
    && d.start <= f * FRAME_SIZE && (f + 1) * FRAME_SIZE <= d.start + d.pages * FRAME_SIZE
    && MIN_USABLE <= f * FRAME_SIZE
  }

  lemma UsableCovers(d: Descriptor, f: nat)
    ensures Covers(d, f) <==> Usable(d).Some? && Usable(d).value.first <= f < Usable(d).value.end
  {
  }

  /** Descriptor `k` finds the range table full and does not continue its last range. */
  predicate Dropped(ds: seq<Descriptor>, k: nat)
    requires k < |ds|
  {
    var ranges, r := Collect(ds[..k]), Usable(ds[k]);
    r.Some? && |ranges| >= MAX_RANGES && ranges[|ranges| - 1].end != r.value.first
  }

  /** Some descriptor that is not dropped covers the frame. */
  ghost predicate Kept(ds: seq<Descriptor>, f: nat) {
    exists k :: 0 <= k < |ds| && Covers(ds[k], f) && !Dropped(ds, k)
  }

  lemma AddedManaged(ranges: seq<Range>, r: Range, f: nat)
    requires r.first < r.end && forall i :: 0 <= i < |ranges| ==> ranges[i].first < ranges[i].end
    ensures f in ManagedSet(Add(ranges, r)) <==>
      || f in ManagedSet(ranges)
      || (r.first <= f < r.end && !(|ranges| >= MAX_RANGES && ranges[|ranges| - 1].end != r.first))
  {
    hide ManagedSet;
    InManaged(ranges, f);
    InManaged(Add(ranges, r), f);
    var n, all := |ranges|, Add(ranges, r);
    if i :| 0 <= i < n && ranges[i].first <= f < ranges[i].end {
      assert all[i].first <= f < all[i].end;
    }
    if ranges != [] && ranges[n - 1].end == r.first {
      assert all[n - 1] == Range(ranges[n - 1].first, r.end);
      if j :| 0 <= j < |all| && all[j].first <= f < all[j].end {
        assert j != n - 1 ==> ranges[j] == all[j];
        assert j == n - 1 ==> ranges[n - 1].first <= f < ranges[n - 1].end || r.first <= f < r.end;
      }
    } else if n < MAX_RANGES {
      assert all[n] == r;
      if j :| 0 <= j < |all| && all[j].first <= f < all[j].end {
        assert j != n ==> ranges[j] == all[j];
      }
    }
  }

  /** Every memory map: a frame is managed exactly when a descriptor that is not dropped
      covers the whole of it. Merging adjoining descriptors loses nothing. */
  lemma {:induction false} ManagedIffKept(ds: seq<Descriptor>, f: nat)
    ensures f in ManagedSet(Collect(ds)) <==> Kept(ds, f)
  {
    hide ManagedSet, Covers;
    if ds == [] {
      NothingManaged(Collect(ds));
    } else {
      var n := |ds| - 1;
      var front := ds[..n];
      ManagedIffKept(front, f);
      UsableCovers(ds[n], f);
      CollectProper(front);
      if Usable(ds[n]).Some? {
        AddedManaged(Collect(front), Usable(ds[n]).value, f);
      }
      KeptSnoc(ds, f);
    }
  }

  lemma KeptSnoc(ds: seq<Descriptor>, f: nat)
    requires ds != []
    ensures Kept(ds, f) <==> Kept(ds[..|ds| - 1], f) || (Covers(ds[|ds| - 1], f) && !Dropped(ds, |ds| - 1))
  {
    hide Covers, Collect, Usable;
    var n := |ds| - 1;
    var front := ds[..n];
    forall k | 0 <= k < n ensures front[k] == ds[k] && front[..k] == ds[..k] {
    }
    if Kept(front, f) {
      var k :| 0 <= k < n && Covers(front[k], f) && !Dropped(front, k);
      assert Covers(ds[k], f) && !Dropped(ds, k);
    }
    if Kept(ds, f) {
      var k :| 0 <= k < |ds| && Covers(ds[k], f) && !Dropped(ds, k);
      assert k < n ==> Covers(front[k], f) && !Dropped(front, k);
    }
  }

  /** The usable parts of the descriptors, in order. */
  function Usables(ds: seq<Descriptor>): seq<Range> {
    if ds == [] then []
    else
      var front, d := Usables(ds[..|ds| - 1]), Usable(ds[|ds| - 1]);
      if d.None? then front else front + [d.value]
  }

  /** How many of them do not continue the one before. */
  function Runs(us: seq<Range>): nat {
    if us == [] then 0
    else Runs(us[..|us| - 1]) + if |us| > 1 && us[|us| - 2].end == us[|us| - 1].first then 0 else 1
  }

  /** While the map has at most as many runs as the table has room for, the table has
      exactly one range for each run, and nothing has been dropped. */
  lemma {:induction false} OneRangePerRun(ds: seq<Descriptor>)
    requires Runs(Usables(ds)) <= MAX_RANGES
    ensures |Collect(ds)| == Runs(Usables(ds))
    ensures Usables(ds) != [] ==>
      Collect(ds) != [] && Collect(ds)[|Collect(ds)| - 1].end == Usables(ds)[|Usables(ds)| - 1].end
    ensures forall k :: 0 <= k < |ds| ==> !Dropped(ds, k)
  {
    hide Usable;
    if ds != [] {
      var n := |ds| - 1;
      var front, d := ds[..n], Usable(ds[n]);
      if d.Some? {
        assert Usables(ds)[..|Usables(ds)| - 1] == Usables(front);
      }
      OneRangePerRun(front);
      forall k | 0 <= k < |ds| ensures !Dropped(ds, k) {
        if k < n {
          assert front[..k] == ds[..k];
          assert !Dropped(front, k);
        }
      }
    }
  }

  /** With more runs than that, something is dropped. */
  lemma {:induction false} TooManyRuns(ds: seq<Descriptor>)
    requires Runs(Usables(ds)) > MAX_RANGES
    ensures exists k :: 0 <= k < |ds| && Dropped(ds, k)
  {
    hide Usable;
    var n := |ds| - 1;
    var front, d := ds[..n], Usable(ds[n]);
    if d.Some? {
      assert Usables(ds)[..|Usables(ds)| - 1] == Usables(front);
    }
    if Runs(Usables(front)) > MAX_RANGES {
      TooManyRuns(front);
      var k :| 0 <= k < |front| && Dropped(front, k);
      assert front[..k] == ds[..k];
      assert Dropped(ds, k);
    } else {
      OneRangePerRun(front);
      assert Dropped(ds, n);
    }
  }

  /** A map with at most as many runs as the table has room for is managed completely:
      every frame that some descriptor covers, and no other. */
  lemma WholeMapManaged(ds: seq<Descriptor>, f: nat)
    requires Runs(Usables(ds)) <= MAX_RANGES
    ensures f in ManagedSet(Collect(ds)) <==> exists k :: 0 <= k < |ds| && Covers(ds[k], f)
  {
    hide ManagedSet, Covers, Collect;
    OneRangePerRun(ds);
    ManagedIffKept(ds, f);
    if k :| 0 <= k < |ds| && Covers(ds[k], f) {
      assert !Dropped(ds, k);
    }
  }

  function Lowest(ranges: seq<Range>): nat
    requires ranges != []
  {
    var last := ranges[|ranges| - 1].first;
    if |ranges| == 1 then last
    else
      var before := Lowest(ranges[..|ranges| - 1]);
      if last < before then last else before
  }

  function Highest(ranges: seq<Range>): nat
    requires ranges != []
  {
    var last := ranges[|ranges| - 1].end;
    if |ranges| == 1 then last else Max(Highest(ranges[..|ranges| - 1]), last)
  }

  /** The bounds are those of the managed frames. */
  lemma {:induction false} BoundsExact(ranges: seq<Range>)
    requires ranges != [] && Proper(ranges)
    ensures Lowest(ranges) in ManagedSet(ranges) && Highest(ranges) - 1 in ManagedSet(ranges)
    ensures forall f :: f in ManagedSet(ranges) ==> Lowest(ranges) <= f < Highest(ranges)
  {
    hide ManagedSet, Span;
    var n := |ranges| - 1;
    ManagedSnoc(ranges, n);
    assert ranges[..n + 1] == ranges;
    if n == 0 {
      NothingManaged(ranges[..0]);
    } else {
      BoundsExact(ranges[..n]);
    }
  }

  /** Pages for one bit per frame from the lowest to the highest. */
  function BitmapPages(ranges: seq<Range>): nat
    requires ranges != []
  {
    if Highest(ranges) <= Lowest(ranges) then 0
    else ((Highest(ranges) - Lowest(ranges) + 7) / 8 + FRAME_SIZE - 1) / FRAME_SIZE
  }

  /** Some range has that many pages. */
  predicate Roomy(ranges: seq<Range>, pages: nat) {
    exists i :: 0 <= i < |ranges| && ranges[i].end - ranges[i].first >= pages
  }

  function SizeSum(ranges: seq<Range>): nat {
    if ranges == [] then 0 else |Frames(ranges[0])| + SizeSum(ranges[1..])
  }

  predicate Disjoint(ranges: seq<Range>) {
    forall i, j :: 0 <= i < j < |ranges| ==> Frames(ranges[i]) !! Frames(ranges[j])
  }

  /** The page total counts every managed frame once exactly when no two ranges of
      the firmware's map overlap. */
  lemma {:induction false} TotalIffDisjoint(ranges: seq<Range>)
    ensures |ManagedSet(ranges)| <= SizeSum(ranges)
    ensures |ManagedSet(ranges)| == SizeSum(ranges) <==> Disjoint(ranges)
  {
    if ranges != [] {
      var a, b := Frames(ranges[0]), ManagedSet(ranges[1..]);
      TotalIffDisjoint(ranges[1..]);
      assert |a + b| == |a| + |b| - |a * b|;
      HeadDisjoint(ranges);
      if a * b == {} {
        assert |a * b| == 0;
      } else {
        var x :| x in a * b;
        assert |a * b| > 0;
      }
    }
  }

  const Overlapping: seq<Range> := [Range(0x100, 0x104), Range(0x101, 0x105)]

  /** The page total can be wrong: with two descriptors that overlap in three pages it
      counts eight pages where there are five frames. */
  lemma OverlapIsCountedTwice()
    ensures var ranges := Collect([Descriptor(CONVENTIONAL, 0x10_0000, 4), Descriptor(CONVENTIONAL, 0x10_1000, 4)]);
            !Disjoint(ranges) && SizeSum(ranges) == 8 && |ManagedSet(ranges)| == 5
  {
    hide Collect, Disjoint, SizeSum, ManagedSet, Span;
    OverlapCollected();
    OverlapSizes();
  }

  lemma OverlapCollected()
    ensures Collect([Descriptor(CONVENTIONAL, 0x10_0000, 4), Descriptor(CONVENTIONAL, 0x10_1000, 4)]) == Overlapping
  {
    hide Span;
    var d, e := Descriptor(CONVENTIONAL, 0x10_0000, 4), Descriptor(CONVENTIONAL, 0x10_1000, 4);
    assert Usable(d) == Some(Range(0x100, 0x104)) && Usable(e) == Some(Range(0x101, 0x105));
    assert [d, e][..1] == [d] && [d][..0] == [];
    assert Collect([d]) == [Range(0x100, 0x104)];
  }

  lemma OverlapSizes()
    ensures !Disjoint(Overlapping) && SizeSum(Overlapping) == 8 && |ManagedSet(Overlapping)| == 5
  {
    hide Span, ManagedSet;
    var x, y := Range(0x100, 0x104), Range(0x101, 0x105);
    assert 0x101 in Frames(Overlapping[0]) && 0x101 in Frames(Overlapping[1]);
    FramesSize(x);
    FramesSize(y);
    assert Overlapping[1..] == [y] && [y][1..] == [];
    forall f ensures f in ManagedSet(Overlapping) <==> f in Span(0x100, 5) {
      InManaged(Overlapping, f);
      assert Overlapping[0] == x && Overlapping[1] == y;
    }
    assert ManagedSet(Overlapping) == Span(0x100, 5);
    SpanSize(0x100, 5);
  }

  lemma HeadDisjoint(ranges: seq<Range>)
    requires ranges != []
    ensures Disjoint(ranges) <==> Disjoint(ranges[1..]) && Frames(ranges[0]) * ManagedSet(ranges[1..]) == {}
  {
    var rest := ranges[1..];
    if Disjoint(ranges) {
      forall i, j | 0 <= i < j < |rest| ensures Frames(rest[i]) !! Frames(rest[j]) {
        assert rest[i] == ranges[i + 1] && rest[j] == ranges[j + 1];
      }
      forall f | f in ManagedSet(rest) ensures f !in Frames(ranges[0]) {
        InManaged(rest, f);
        var i :| 0 <= i < |rest| && rest[i].first <= f < rest[i].end;
        assert rest[i] == ranges[i + 1] && Frames(ranges[0]) !! Frames(ranges[i + 1]);
      }
    }
    if Disjoint(rest) && Frames(ranges[0]) * ManagedSet(rest) == {} {
      forall i, j | 0 <= i < j < |ranges| ensures Frames(ranges[i]) !! Frames(ranges[j]) {
        assert ranges[j] == rest[j - 1];
        if i == 0 {
          forall f | f in Frames(ranges[j]) ensures f !in Frames(ranges[0]) {
            InManaged(rest, f);
            assert rest[j - 1].first <= f < rest[j - 1].end;
            assert f in ManagedSet(rest);
          }
        } else {
          assert ranges[i] == rest[i - 1];
        }
      }
    }
  }

  lemma {:induction false} ManagedSnoc(ranges: seq<Range>, i: nat)
    requires i < |ranges|
    ensures ManagedSet(ranges[..i + 1]) == ManagedSet(ranges[..i]) + Frames(ranges[i])
    ensures SizeSum(ranges[..i + 1]) == SizeSum(ranges[..i]) + |Frames(ranges[i])|
  {
    if i == 0 {
      assert ranges[..1][1..] == [] && ranges[..0] == [];
    } else {
      assert ranges[..i + 1][1..] == ranges[1..][..i] && ranges[..i][1..] == ranges[1..][..i - 1];
      ManagedSnoc(ranges[1..], i - 1);
    }
  }

  class Pmm {
    var bitmap: array<bv8>
    var ranges: seq<Range>
    var base: nat
    var bits: nat
    var ownFirst: nat
    var ownPages: nat
    var totalPages: nat
    var freePages: nat
    var hint: nat

    ghost function Free(): set<nat>
      reads this, bitmap
      requires bits <= 8 * bitmap.Length
    {
      Clear(bitmap[..], base, bits)
    }

    /** Frames that hold the bitmap itself. */
    predicate Own(f: nat)
      reads this
    {
      Owns(ownFirst, ownPages, f)
    }

    ghost predicate Valid()
      reads this, bitmap
    {
      && hint < bits <= 8 * bitmap.Length
      && Coherent(ranges, base, bits, ownFirst, ownPages, Free())
      && freePages == |Free()|
      && totalPages == |ManagedSet(ranges)|
    }

    /** `frame_managed`. */
    method IsManaged(f: nat) returns (managed: bool)
      ensures managed == (f in ManagedSet(ranges))
    {
      InManaged(ranges, f);
      var i := 0;
      while i < |ranges|
        invariant 0 <= i <= |ranges|
        invariant forall j :: 0 <= j < i ==> !(ranges[j].first <= f < ranges[j].end)
      {
        if ranges[i].first <= f < ranges[i].end {
          return true;
        }
        i := i + 1;
      }
      return false;
    }

    // ------------------------------------------------------------------- boot

    /** The first pass over the memory map. */
    method CollectRanges(ds: seq<Descriptor>) returns (collected: seq<Range>)
      ensures collected == Collect(ds)
      ensures forall f :: f in ManagedSet(collected) <==> Kept(ds, f)
    {
      hide ManagedSet, Usable, Kept;
      collected := [];
      var n := 0;
      while n < |ds|
        invariant 0 <= n <= |ds| && collected == Collect(ds[..n])
      {
        assert ds[..n + 1][..n] == ds[..n];
        var d := Usable(ds[n]);
        if d.Some? {
          collected := Add(collected, d.value);
        }
        n := n + 1;
      }
      assert ds[..|ds|] == ds;
      forall f ensures f in ManagedSet(collected) <==> Kept(ds, f) {
        ManagedIffKept(ds, f);
      }
    }

    /** Lowest and highest frame, and the number of pages. */
    method Measure(rs: seq<Range>) returns (lowest: nat, highest: nat, total: nat)
      requires rs != [] && Proper(rs)
      ensures 0 < lowest == Lowest(rs) < highest == Highest(rs) <= FRAME_LIMIT
      ensures forall i :: 0 <= i < |rs| ==> lowest <= rs[i].first && rs[i].end <= highest
      ensures total == SizeSum(rs)
    {
      hide Span, Frames, ManagedSet, SizeSum;
      lowest, highest, total := rs[0].first, rs[0].end, 0;
      var i := 0;
      NothingManaged(rs[..0]);
      while i < |rs|
        invariant 0 <= i <= |rs|
        invariant 0 < lowest <= rs[0].first && rs[0].end <= highest <= FRAME_LIMIT
        invariant if i == 0 then lowest == rs[0].first && highest == rs[0].end
                  else lowest == Lowest(rs[..i]) && highest == Highest(rs[..i])
        invariant forall j :: 0 <= j < i ==> lowest <= rs[j].first && rs[j].end <= highest
        invariant total == SizeSum(rs[..i])
      {
        ManagedSnoc(rs, i);
        FramesSize(rs[i]);
        assert rs[..i + 1][..i] == rs[..i];
        if rs[i].first < lowest {
          lowest := rs[i].first;
        }
        if rs[i].end > highest {
          highest := rs[i].end;
        }
        total := total + (rs[i].end - rs[i].first);
        i := i + 1;
      }
      assert rs[..|rs|] == rs;
    }

    /** The first range that can hold the bitmap itself. */
    method FindHome(rs: seq<Range>, pages: nat) returns (found: bool, home: nat)
      requires Proper(rs) && 0 < pages
      ensures found <==> Roomy(rs, pages)
      ensures found ==> Span(home, pages) <= ManagedSet(rs)
    {
      home := 0;
      var i := 0;
      while i < |rs|
        invariant 0 <= i <= |rs|
        invariant forall j :: 0 <= j < i ==> rs[j].end - rs[j].first < pages
      {
        if rs[i].end - rs[i].first >= pages {
          home := rs[i].first;
          forall f | f in Span(home, pages) ensures f in ManagedSet(rs) {
            InManaged(rs, f);
          }
          return true, home;
        }
        i := i + 1;
      }
      return false, 0;
    }

    /** Clear the bits of every managed frame. */
    method ClearManaged()
      requires bits <= 8 * bitmap.Length && Free() == {}
      requires forall i :: 0 <= i < |ranges| ==> base <= ranges[i].first < ranges[i].end <= base + bits
      modifies bitmap
      ensures Free() == ManagedSet(ranges)
    {
      hide Clear;
      var i := 0;
      while i < |ranges|
        invariant 0 <= i <= |ranges|
        invariant Free() == ManagedSet(ranges[..i])
      {
        ManagedSnoc(ranges, i);
        GiveRun(ranges[i].first - base, ranges[i].end - ranges[i].first);
        i := i + 1;
      }
      assert ranges[..|ranges|] == ranges;
    }

    /** `pmm_init`. It fails exactly when no range can hold the bitmap. Afterwards the
        free frames are the managed ones less the bitmap's own, and the free count
        is right exactly when the ranges do not overlap. */
    method Init(ds: seq<Descriptor>) returns (ok: bool)
      modifies this
      ensures ok <==> Collect(ds) != [] && Roomy(Collect(ds), BitmapPages(Collect(ds)))
      ensures ok ==> ranges == Collect(ds) && fresh(bitmap) && bits <= 8 * bitmap.Length
      ensures ok ==> Span(ownFirst, ownPages) <= ManagedSet(ranges)
      ensures ok ==> Free() == ManagedSet(ranges) - Span(ownFirst, ownPages)
      ensures ok ==> forall f :: f in Free() <==> Kept(ds, f) && f !in Span(ownFirst, ownPages)
      ensures ok ==> bitmap.Length == ownPages * FRAME_SIZE && (ownPages - 1) * FRAME_SIZE * 8 < bits
      ensures ok ==> (freePages == |Free()| <==> Disjoint(ranges))
      ensures ok && Disjoint(ranges) ==> Valid()
    {
      hide Clear, Span, ManagedSet, Coherent, Collect, Kept, Disjoint, SizeSum, Roomy, Lowest, Highest;
      var rs := CollectRanges(ds);
      CollectProper(ds);
      if rs == [] {
        return false;
      }
      var lowest, highest, total := Measure(rs);
      var pages := ((highest - lowest + 7) / 8 + FRAME_SIZE - 1) / FRAME_SIZE;
      var found, home := FindHome(rs, pages);
      if !found {
        return false;
      }
      ranges, base, bits := rs, lowest, highest - lowest;
      ownFirst, ownPages, hint := home, pages, 0;
      bitmap := new bv8[pages * FRAME_SIZE];
      FillBitmap();
      TotalIffDisjoint(rs);
      OwnCounted(rs, home, pages);
      totalPages, freePages := total, total - pages;
      ok := true;
      BootCoherent(rs, lowest, highest - lowest, home, pages);
    }

    /** `k_memset(…, 0xFF, …)`. */
    method ReserveAll()
      requires bits <= 8 * bitmap.Length
      modifies bitmap
      ensures Free() == {}
    {
      MarkAll(bitmap);
      forall f | f in Span(base, bits) ensures !FreeBit(bitmap[..], base, f) {
        assert Used(bitmap[..], f - base);
      }
    }

    method FillBitmap()
      requires bits <= 8 * bitmap.Length && Proper(ranges) && Span(ownFirst, ownPages) <= ManagedSet(ranges) &&
        0 < ownPages
      requires forall i :: 0 <= i < |ranges| ==> base <= ranges[i].first && ranges[i].end <= base + bits
      modifies bitmap
      ensures Free() == ManagedSet(ranges) - Span(ownFirst, ownPages)
    {
      hide Clear, Span, ManagedSet;
      ReserveAll();
      ClearManaged();
      OwnInside(ranges, base, bits, ownFirst, ownPages);
      TakeRun(ownFirst - base, ownPages);
    }

    // ------------------------------------------------------- bits and frames

    method IsFree(i: nat) returns (clear: bool)
      requires i < bits <= 8 * bitmap.Length
      ensures clear <==> base + i in Free()
    {
      clear := !Used(bitmap[..], i);
      assert FreeBit(bitmap[..], base, base + i) <==> clear;
    }

    method TakeRun(i: nat, count: nat)
      requires i + count <= bits <= 8 * bitmap.Length
      modifies bitmap
      ensures Free() == old(Free()) - Span(base + i, count)
    {
      ghost var was := bitmap[..];
      MarkRun(bitmap, i, count);
      ghost var now := bitmap[..];
      forall f | f in Span(base, bits)
        ensures FreeBit(now, base, f) <==> FreeBit(was, base, f) && f !in Span(base + i, count) {
        assert Used(now, f - base) <==> i <= f - base < i + count || Used(was, f - base);
      }
    }

    method GiveRun(i: nat, count: nat)
      requires i + count <= bits <= 8 * bitmap.Length
      modifies bitmap
      ensures Free() == old(Free()) + Span(base + i, count)
    {
      ghost var was := bitmap[..];
      UnmarkRun(bitmap, i, count);
      ghost var now := bitmap[..];
      forall f | f in Span(base, bits)
        ensures FreeBit(now, base, f) <==> FreeBit(was, base, f) || f in Span(base + i, count) {
        assert Used(now, f - base) <==> !(i <= f - base < i + count) && Used(was, f - base);
      }
    }

    // ------------------------------------------------------------- one frame

    /** The scan of `frame_alloc`: once around the bitmap from the hint. */
    method FindNext() returns (found: bool, index: nat)
      requires 0 < bits <= 8 * bitmap.Length && hint < bits && Free() <= Span(base, bits)
      ensures found <==> Free() != {}
      ensures found ==> index < bits && base + index in Free()
      ensures found ==> forall g :: g in Free() ==> Distance(hint, index, bits) <= Distance(hint, g - base, bits)
    {
      hide Clear;
      index := hint;
      var scanned := 0;
      while scanned < bits
        invariant 0 <= scanned <= bits && (scanned < bits ==> index == Scan(hint, scanned, bits))
        invariant forall k :: 0 <= k < scanned ==> base + Scan(hint, k, bits) !in Free()
      {
        var clear := IsFree(index);
        if clear {
          NearestFree(Free(), base, bits, hint, scanned);
          return true, index;
        }
        index := if index + 1 >= bits then 0 else index + 1;
        scanned := scanned + 1;
      }
      NearestFree(Free(), base, bits, hint, bits);
      return false, 0;
    }

    /** `frame_alloc`: next fit from the hint. It fails exactly when no frame is free. */
    method Alloc() returns (frame: nat)
      requires Valid()
      modifies this`freePages, this`hint, bitmap
      ensures Valid()
      ensures frame == FRAME_INVALID <==> old(Free()) == {}
      ensures frame == FRAME_INVALID ==> Free() == old(Free()) && hint == old(hint)
      ensures frame != FRAME_INVALID ==>
        && frame in old(Free()) && Free() == old(Free()) - {frame}
        && (forall g :: g in old(Free()) ==>
              g in Span(base, bits) && Distance(old(hint), frame - base, bits) <= Distance(old(hint), g - base, bits))
        && hint == Following(frame - base, bits)
    {
      hide Clear, Coherent, ManagedSet, Span;
      InRange(ranges, base, bits, ownFirst, ownPages, Free());
      if freePages == 0 {
        return FRAME_INVALID;
      }
      var found, index := FindNext();
      frame := base + index;
      assert Span(frame, 1) == {frame};
      Taken(ranges, base, bits, ownFirst, ownPages, Free(), {frame});
      TakeRun(index, 1);
      freePages := freePages - 1;
      hint := if index + 1 >= bits then 0 else index + 1;
    }

    // ------------------------------------------------------------------- runs

    /** `free_range_valid`: the whole span is checked before anything changes. */
    method Releasable(first: nat, count: nat) returns (ok: bool)
      requires Valid()
      ensures ok <==> InUse(ranges, ownFirst, ownPages, Free(), first, count)
    {
      hide Clear, Coherent, ManagedSet, Span;
      InRange(ranges, base, bits, ownFirst, ownPages, Free());
      if count == 0 {
        return false;
      }
      if first < base || first >= FRAME_LIMIT || count - 1 > FRAME_LIMIT - 1 - first || first - base >= bits ||
         count > bits - (first - base)
      {
        assert if first < base ||
          first >= base + bits then first in Span(first, count) else base + bits in Span(first, count);
        return false;
      }
      if freePages > totalPages || count > totalPages - freePages {
        TooMany(ManagedSet(ranges), Free(), first, count);
        return false;
      }
      ok := CheckEach(first, count);
    }

    method CheckEach(first: nat, count: nat) returns (ok: bool)
      requires base <= first && first + count <= base + bits && bits <= 8 * bitmap.Length
      ensures ok <==> forall f :: f in Span(first, count) ==> f in ManagedSet(ranges) && !Own(f) && f !in Free()
    {
      hide Clear, ManagedSet;
      var i := 0;
      while i < count
        invariant 0 <= i <= count
        invariant forall f :: f in Span(first, i) ==> f in ManagedSet(ranges) && !Own(f) && f !in Free()
      {
        var managed := IsManaged(first + i);
        var clear := IsFree(first + i - base);
        assert first + i in Span(first, count);
        if !managed || Own(first + i) || clear {
          return false;
        }
        i := i + 1;
      }
      return true;
    }

    /** `frame_free_range`: all of an allocated span, or nothing. */
    method FreeRange(first: nat, count: nat) returns (ok: bool)
      requires Valid()
      modifies this`freePages, this`hint, bitmap
      ensures Valid()
      ensures ok <==> old(InUse(ranges, ownFirst, ownPages, Free(), first, count))
      ensures Free() == if ok then old(Free()) + Span(first, count) else old(Free())
      ensures ok ==> hint == first - base
      ensures !ok ==> freePages == old(freePages) && hint == old(hint) && bitmap[..] == old(bitmap[..])
    {
      hide Clear, Coherent, ManagedSet, Span, InUse;
      ok := Releasable(first, count);
      if !ok {
        return;
      }
      GivenBack(ranges, base, bits, ownFirst, ownPages, Free(), first, count);
      var index := first - base;
      GiveRun(index, count);
      freePages := freePages + count;
      hint := index;
    }

    /** The search of `pmm_alloc_pages`: one pass that tracks the current run. */
    method FindRun(count: nat) returns (found: bool, start: nat)
      requires 0 < count && bits <= 8 * bitmap.Length && Free() <= Span(base, bits)
      ensures found <==> exists s: nat :: Span(s, count) <= Free()
      ensures found ==>
        && start + count <= bits && Span(base + start, count) <= Free()
        && (forall s: nat :: s < base + start ==> !(Span(s, count) <= Free()))
    {
      hide Clear;
      start := 0;
      var length := 0;
      var index := 0;
      while index < bits
        invariant 0 <= index <= bits && 0 <= length <= index && length < count
        invariant length > 0 ==> start + length == index
        invariant Span(base + index - length, length) <= Free()
        invariant length < index ==> base + index - length - 1 !in Free()
        invariant forall s: nat :: s + count <= base + index ==> !(Span(s, count) <= Free())
      {
        var clear := IsFree(index);
        NoRunEndsHere(Free(), base, index, length, count, clear);
        if !clear {
          length := 0;
        } else {
          if length == 0 {
            start := index;
          }
          length := length + 1;
          if length == count {
            assert base + index + 1 - length == base + start;
            NoneLower(Free(), base + start, count);
            return true, start;
          }
        }
        index := index + 1;
      }
      NoneBeyond(Free(), base, bits, count);
      return false, 0;
    }

    /** `pmm_alloc_pages`: the lowest run of `count` free frames, or zero exactly when
        there is none. */
    method AllocPages(count: nat) returns (physical: nat)
      requires Valid()
      modifies this`freePages, this`hint, bitmap
      ensures Valid()
      ensures physical == 0 <==> count == 0 || !exists s: nat :: Span(s, count) <= old(Free())
      ensures physical == 0 ==> Free() == old(Free()) && hint == old(hint)
      ensures physical != 0 ==>
        && physical % FRAME_SIZE == 0
        && var first := physical / FRAME_SIZE;
           && Span(first, count) <= old(Free())
           && Free() == old(Free()) - Span(first, count)
           && (forall s: nat :: s < first ==> !(Span(s, count) <= old(Free())))
           && hint == Following(first + count - 1 - base, bits)
    {
      hide Clear, Coherent, ManagedSet, Span;
      InRange(ranges, base, bits, ownFirst, ownPages, Free());
      if count == 0 {
        return 0;
      }
      if count > freePages || count > bits {
        RunFits(Free(), base, bits, count);
        return 0;
      }
      var found, start := FindRun(count);
      if !found {
        return 0;
      }
      var first := base + start;
      Taken(ranges, base, bits, ownFirst, ownPages, Free(), Span(first, count));
      SpanSize(first, count);
      TakeRun(start, count);
      freePages := freePages - count;
      hint := if start + count >= bits then 0 else start + count;
      return first * FRAME_SIZE;
    }
  }

  /** Extending the current run by one index: a run of `count` ends here only if
      the current one does. */
  lemma NoRunEndsHere(free: set<nat>, base: nat, index: nat, length: nat, count: nat, clear: bool)
    requires length <= index && length < count && clear == (base + index in free)
    requires Span(base + index - length, length) <= free
    requires length < index ==> base + index - length - 1 !in free
    requires index == length ==> forall f :: f in free ==> base <= f
    requires forall s: nat :: s + count <= base + index ==> !(Span(s, count) <= free)
    ensures clear ==> Span(base + index - length, length + 1) <= free
    ensures !clear || length + 1 < count ==> forall s: nat :: s + count <= base + index + 1 ==>
      !(Span(s, count) <= free)
    ensures forall s: nat :: s + count <= base + index ==> !(Span(s, count) <= free)
  {
    if !clear || length + 1 < count {
      forall s: nat | s + count <= base + index + 1 ensures !(Span(s, count) <= free) {
        if s + count == base + index + 1 {
          assert base + index in Span(s, count);
          if clear {
            assert base + index - length - 1 in Span(s, count);
          }
        }
      }
    }
  }

  lemma NoneLower(free: set<nat>, first: nat, count: nat)
    requires forall s: nat :: s + count <= first + count - 1 ==> !(Span(s, count) <= free)
    ensures forall s: nat :: s < first ==> !(Span(s, count) <= free)
  {
  }

  lemma NoneBeyond(free: set<nat>, base: nat, bits: nat, count: nat)
    requires free <= Span(base, bits) && count > 0
    requires forall s: nat :: s + count <= base + bits ==> !(Span(s, count) <= free)
    ensures !exists s: nat :: Span(s, count) <= free
  {
    forall s: nat ensures !(Span(s, count) <= free) {
      if s + count > base + bits {
        assert s + count - 1 in Span(s, count);
      }
    }
  }

  lemma RunFits(free: set<nat>, base: nat, bits: nat, count: nat)
    requires free <= Span(base, bits) && (count > |free| || count > bits)
    ensures !exists s: nat :: Span(s, count) <= free
  {
    SpanSize(base, bits);
    SubsetSize(free, Span(base, bits));
    forall s: nat ensures !(Span(s, count) <= free) {
      SpanSize(s, count);
      if Span(s, count) <= free {
        SubsetSize(Span(s, count), free);
      }
    }
  }

  lemma FramesSize(r: Range)
    requires r.first < r.end
    ensures |Frames(r)| == r.end - r.first
  {
    SpanSize(r.first, r.end - r.first);
  }

  lemma NothingManaged(rs: seq<Range>)
    requires rs == []
    ensures ManagedSet(rs) == {} && SizeSum(rs) == 0
  {
  }

  lemma BootCoherent(rs: seq<Range>, base: nat, bits: nat, home: nat, pages: nat)
    requires Proper(rs) && 0 < base && base + bits <= FRAME_LIMIT
    requires forall i :: 0 <= i < |rs| ==> base <= rs[i].first && rs[i].end <= base + bits
    ensures Coherent(rs, base, bits, home, pages, ManagedSet(rs) - Span(home, pages))
  {
    forall f | f in ManagedSet(rs) ensures f in Span(base, bits) {
      InManaged(rs, f);
    }
  }

  lemma OwnCounted(rs: seq<Range>, home: nat, pages: nat)
    requires Span(home, pages) <= ManagedSet(rs)
    ensures |ManagedSet(rs) - Span(home, pages)| == |ManagedSet(rs)| - pages
    ensures pages <= |ManagedSet(rs)|
  {
    SpanSize(home, pages);
    SubsetSize(Span(home, pages), ManagedSet(rs));
    assert ManagedSet(rs) == (ManagedSet(rs) - Span(home, pages)) + Span(home, pages);
  }

  lemma OwnInside(rs: seq<Range>, base: nat, bits: nat, home: nat, pages: nat)
    requires Span(home, pages) <= ManagedSet(rs) && 0 < pages
    requires forall i :: 0 <= i < |rs| ==> base <= rs[i].first && rs[i].end <= base + bits
    ensures base <= home && home + pages <= base + bits
  {
    assert home in Span(home, pages) && home + pages - 1 in Span(home, pages);
    InManaged(rs, home);
    InManaged(rs, home + pages - 1);
  }

  /** A span outside the free set cannot be longer than what is not free. */
  lemma TooMany(managed: set<nat>, free: set<nat>, first: nat, count: nat)
    requires free <= managed && (|free| > |managed| || count > |managed| - |free|)
    ensures exists f :: f in Span(first, count) && (f !in managed || f in free)
  {
    SubsetSize(free, managed);
    SpanSize(first, count);
    if forall f :: f in Span(first, count) ==> f in managed && f !in free {
      assert Span(first, count) !! free;
      SubsetSize(Span(first, count) + free, managed);
    }
  }

  /** After `scanned` steps over used frames, every free frame is that far away. */
  lemma NearestFree(free: set<nat>, base: nat, bits: nat, hint: nat, scanned: nat)
    requires hint < bits && scanned <= bits && free <= Span(base, bits)
    requires forall k :: 0 <= k < scanned ==> base + Scan(hint, k, bits) !in free
    ensures forall g :: g in free ==> scanned <= Distance(hint, g - base, bits)
    ensures scanned == bits ==> free == {}
  {
    forall g | g in free ensures scanned <= Distance(hint, g - base, bits) < bits {
      assert base + Scan(hint, Distance(hint, g - base, bits), bits) == g;
    }
  }
}
