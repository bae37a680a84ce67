/**
 Reading files from a FAT32 volume (kernel/fat32.c): the sector-by-sector walk
 along a cluster chain returns a slice of the flat file the chain stands for.
 */
module Fat32 {
  import opened Slots

  type Byte = x: nat | x < 256

  const CLUSTER_BAD: nat := 0x0FFF_FFF7
  const CLUSTER_EOC: nat := 0x0FFF_FFF8
  const ENTRY_MASK: nat := 0x1000_0000

  /** A probed volume over a block device; reads of the blocks in `failing` fail. */
  datatype Volume = Volume(
    blocks: seq<seq<Byte>>, failing: set<nat>,
    bytesPerSector: nat, sectorsPerCluster: nat, clusterBytes: nat, firstFat: nat, firstData: nat, clusterCount: nat)

  /** What probing a volume establishes. */
  predicate Geometry(v: Volume) {
    && v.bytesPerSector in {512, 1024, 2048, 4096}
    && 0 < v.sectorsPerCluster <= 128
    && 0 < v.clusterBytes == v.sectorsPerCluster * v.bytesPerSector
    && 0 < v.clusterCount <= 0x0FFF_FFF5
    && v.firstData + v.clusterCount * v.sectorsPerCluster <= |v.blocks|
    && (forall i :: 0 <= i < |v.blocks| ==> |v.blocks[i]| == v.bytesPerSector)
  }

  // ------------------------------------------------------------- block device

  function ReadBlock(v: Volume, lba: nat): Option<seq<Byte>> {
    if lba >= |v.blocks| || lba in v.failing then None else Some(v.blocks[lba])
  }

  // ---------------------------------------------------------------- the chain

  function Le32(bytes: seq<Byte>, i: nat): nat
    requires i + 4 <= |bytes|
  {
    var a: nat, b: nat, c: nat, d: nat := bytes[i], bytes[i + 1], bytes[i + 2], bytes[i + 3];
    a + 0x100 * b + 0x1_0000 * c + 0x100_0000 * d
  }

  /** `fat32_next_cluster`: the low 28 bits of the table entry. */
  function NextCluster(v: Volume, cluster: nat): Option<nat>
    requires Geometry(v)
  {
    if cluster < 2 then None
    else
      var offset := cluster * 4;
      var entry := offset % v.bytesPerSector;
      var block := ReadBlock(v, v.firstFat + offset / v.bytesPerSector);
      if entry + 4 > v.bytesPerSector || block.None? then None else Some(Le32(block.value, entry) % ENTRY_MASK)
  }

  /** A link to another data cluster; end of chain, free and bad marks are none. */
  function Follow(v: Volume, cluster: nat): Option<nat>
    requires Geometry(v)
  {
    var next := NextCluster(v, cluster);
    if next.None? || next.value >= CLUSTER_EOC || next.value == CLUSTER_BAD || next.value < 2 then None else next
  }

  /** The `k`-th cluster of the chain that starts at `first`. */
  function Nth(v: Volume, first: nat, k: nat): Option<nat>
    requires Geometry(v)
    decreases k
  {
    if k == 0 then Some(first)
    else
      var before := Nth(v, first, k - 1);
      if before.None? then None else Follow(v, before.value)
  }

  /** `cluster_to_lba`. */
  function ClusterLba(v: Volume, cluster: nat): Option<nat> {
    if cluster < 2 || cluster - 2 >= v.clusterCount ||
      v.firstData + (cluster - 2) * v.sectorsPerCluster >= |v.blocks| then None
    else Some(v.firstData + (cluster - 2) * v.sectorsPerCluster)
  }

  // ------------------------------------------------------------ the flat file

  /** Byte `i` of sector `sector` of the `k`-th cluster. */
  function SectorByte(v: Volume, first: nat, k: nat, sector: nat, i: nat): Option<Byte>
    requires Geometry(v) && i < v.bytesPerSector
  {
    var cluster := Nth(v, first, k);
    if cluster.None? || ClusterLba(v, cluster.value).None? then None
    else
      var block := ReadBlock(v, ClusterLba(v, cluster.value).value + sector);
      if block.None? then None else Some(block.value[i])
  }

  function Div(x: nat, d: nat): nat
    requires 0 < d
  {
    x / d
  }

  function Mod(x: nat, d: nat): (r: nat)
    requires 0 < d
    ensures r < d
  {
    x % d
  }

  /** Byte `p` of the file: the clusters of its chain laid end to end. */
  function FileByte(v: Volume, first: nat, p: nat): Option<Byte>
    requires Geometry(v)
  {
    var inside := Mod(p, v.clusterBytes);
    SectorByte(v, first, Div(p, v.clusterBytes), Div(inside, v.bytesPerSector), Mod(inside, v.bytesPerSector))
  }

  /** Everything the walk needs for the bytes from `offset` up to `offset + count`:
      no more clusters than the volume has, links to all of them, and readable sectors. */
  ghost predicate Readable(v: Volume, first: nat, offset: nat, count: nat)
    requires Geometry(v) && count > 0
  {
    var last := Div(offset + count - 1, v.clusterBytes);
    && last < v.clusterCount
    && Nth(v, first, last).Some?
    && (forall p :: offset <= p < offset + count ==> FileByte(v, first, p).Some?)
  }

  // ---------------------------------------------------------------- arithmetic

  lemma MulMono(a: nat, b: nat, d: nat)
    requires a <= b
    ensures a * d <= b * d
  {
  }

  function Times(q: nat, d: nat): nat {
    q * d
  }

  lemma TimesNext(q: nat, d: nat)
    ensures Times(0, d) == 0 && Times(q + 1, d) == Times(q, d) + d
  {
  }

  lemma Sizes(v: Volume)
    requires Geometry(v)
    ensures v.bytesPerSector > 0 && v.sectorsPerCluster > 0 && v.clusterBytes > 0
    ensures v.clusterBytes == Times(v.sectorsPerCluster, v.bytesPerSector)
  {
  }

  lemma MulStep(q: nat, q': nat, d: nat)
    ensures q < q' ==> q * d + d <= q' * d
  {
    if q < q' {
      MulMono(q + 1, q', d);
      assert (q + 1) * d == q * d + d;
    }
  }

  lemma QuotientUnique(q: nat, r: nat, q': nat, r': nat, d: nat)
    requires q * d + r == q' * d + r' && r < d && r' < d
    ensures q == q' && r == r'
  {
    MulStep(q, q', d);
    MulStep(q', q, d);
  }

  lemma DivMod(q: nat, r: nat, d: nat)
    requires r < d
    ensures Div(q * d + r, d) == q && Mod(q * d + r, d) == r
  {
    var x := q * d + r;
    Euclid(x, d);
    QuotientUnique(q, r, Div(x, d), Mod(x, d), d);
  }

  lemma Euclid(x: nat, d: nat)
    requires 0 < d
    ensures x == Div(x, d) * d + Mod(x, d)
  {
  }

  lemma {:induction false} NthPrefix(v: Volume, first: nat, k: nat, n: nat)
    requires Geometry(v) && k <= n && Nth(v, first, n).Some?
    ensures Nth(v, first, k).Some?
    decreases n
  {
    if k < n {
      NthPrefix(v, first, k, n - 1);
    }
  }

  /** Where the bytes of one sector are in the file. */
  lemma Position(v: Volume, first: nat, k: nat, sector: nat, i: nat)
    requires Geometry(v) && sector < v.sectorsPerCluster && i < v.bytesPerSector
    ensures FileByte(v, first, k * v.clusterBytes + sector * v.bytesPerSector + i) == SectorByte(v, first, k, sector, i)
    ensures sector * v.bytesPerSector + i < v.clusterBytes
  {
    var r := sector * v.bytesPerSector + i;
    MulStep(sector, v.sectorsPerCluster, v.bytesPerSector);
    DivMod(k, r, v.clusterBytes);
    DivMod(sector, i, v.bytesPerSector);
  }

  /** A chain of distinct clusters of the volume is no longer than the volume. */
  lemma AcyclicFits(v: Volume, first: nat, last: nat)
    requires Geometry(v) && Nth(v, first, last).Some?
    requires forall k :: 0 <= k <= last ==> Nth(v, first, k).Some? && 2 <= Nth(v, first, k).value < v.clusterCount + 2
    requires forall j, k :: 0 <= j < k <= last ==> Nth(v, first, j) != Nth(v, first, k)
    ensures last < v.clusterCount
  {
    hide Nth, Geometry, Below;
    var keys := seq(last + 1, k requires 0 <= k <= last => Nth(v, first, k).value - 2);
    if last >= v.clusterCount {
      DistinctFit(keys, Below(v.clusterCount));
    }
  }

  // ---------------------------------------------------------------- the reader

  datatype Entry = Entry(directory: bool, first: nat, size: nat)

  /** `got` bytes from `offset` on are in the buffer. */
  ghost predicate Holds(v: Volume, first: nat, offset: nat, bytes: seq<Byte>, got: nat)
    requires Geometry(v)
  {
    got <= |bytes| && forall i :: 0 <= i < got ==> FileByte(v, first, offset + i) == Some(bytes[i])
  }

  ghost predicate Missing(v: Volume, first: nat, offset: nat, count: nat)
    requires Geometry(v)
  {
    exists p :: offset <= p < offset + count && FileByte(v, first, p).None?
  }

  class Reader {
    const volume: Volume
    var sector: seq<Byte>

    /** Read one block into the shared sector buffer. */
    method Load(lba: nat) returns (ok: bool)
      modifies this`sector
      ensures ok <==> ReadBlock(volume, lba).Some?
      ensures ok ==> sector == ReadBlock(volume, lba).value
    {
      if lba >= |volume.blocks| || lba in volume.failing {
        return false;
      }
      sector := volume.blocks[lba];
      return true;
    }

    method Next(cluster: nat) returns (ok: bool, next: nat)
      requires Geometry(volume)
      modifies this`sector
      ensures ok <==> Follow(volume, cluster).Some?
      ensures ok ==> next == Follow(volume, cluster).value
    {
      if cluster < 2 {
        return false, 0;
      }
      var offset := cluster * 4;
      var entry := offset % volume.bytesPerSector;
      if entry + 4 > volume.bytesPerSector {
        return false, 0;
      }
      ok := Load(volume.firstFat + offset / volume.bytesPerSector);
      if !ok {
        return false, 0;
      }
      next := Le32(sector, entry) % ENTRY_MASK;
      ok := !(next >= CLUSTER_EOC || next == CLUSTER_BAD || next < 2);
    }

    /** Follow the chain to the cluster that holds the first wanted byte. */
    method SkipTo(first: nat, k: nat) returns (ok: bool, cluster: nat)
      requires Geometry(volume)
      modifies this`sector
      ensures ok <==> k <= volume.clusterCount && Nth(volume, first, k).Some?
      ensures ok ==> cluster == Nth(volume, first, k).value
    {
      cluster := first;
      var visited := 0;
      while visited < k
        invariant 0 <= visited <= k && visited <= volume.clusterCount
        invariant Nth(volume, first, visited) == Some(cluster)
      {
        if visited + 1 > volume.clusterCount {
          return false, 0;
        }
        ok, cluster := Next(cluster);
        if !ok {
          if Nth(volume, first, k).Some? {
            NthPrefix(volume, first, visited + 1, k);
          }
          return false, 0;
        }
        visited := visited + 1;
      }
      return true, cluster;
    }

    method Copy(buffer: array<Byte>, at: nat, start: nat, amount: nat)
      requires at + amount <= buffer.Length && start + amount <= |sector|
      modifies buffer
      ensures buffer[..] == old(buffer[..at]) + sector[start..start + amount] + old(buffer[at + amount..])
    {
      forall i | 0 <= i < amount {
        buffer[at + i] := sector[start + i];
      }
    }

    /** The part of one sector that is wanted. */
    method TakeSector(first: nat, k: nat, s: nat, start: nat, offset: nat, got: nat, amount: nat, buffer: array<Byte>)
      requires Geometry(volume) && s < volume.sectorsPerCluster && start + amount <= volume.bytesPerSector
      requires offset + got == k * volume.clusterBytes + s * volume.bytesPerSector + start &&
        got + amount <= buffer.Length
      requires Holds(volume, first, offset, buffer[..], got)
      requires |sector| == volume.bytesPerSector
      requires forall i :: 0 <= i < volume.bytesPerSector ==> SectorByte(volume, first, k, s, i) == Some(sector[i])
      modifies buffer
      ensures Holds(volume, first, offset, buffer[..], got + amount)
      ensures buffer[got + amount..] == old(buffer[got + amount..])
    {
      hide Geometry, FileByte, SectorByte;
      Copy(buffer, got, start, amount);
      forall i | 0 <= i < got + amount ensures FileByte(volume, first, offset + i) == Some(buffer[i]) {
        if i < got {
          assert buffer[i] == old(buffer[..])[i];
        } else {
          Position(volume, first, k, s, start + (i - got));
        }
      }
    }

    /** One sector, from byte `start` of it on. */
    method ReadSector(first: nat, k: nat, lba: nat, s: nat, ghost sectorAt: nat, start: nat, offset: nat, got: nat,
        count: nat,
                      buffer: array<Byte>)
      returns (ok: bool, got': nat)
      requires Geometry(volume) && Nth(volume, first, k).Some? &&
        ClusterLba(volume, Nth(volume, first, k).value) == Some(lba)
      requires s < volume.sectorsPerCluster && start < volume.bytesPerSector && got < count <= buffer.Length
      requires sectorAt == Times(k, volume.clusterBytes) + Times(s, volume.bytesPerSector) &&
        offset + got == sectorAt + start
      requires Holds(volume, first, offset, buffer[..], got)
      modifies this`sector, buffer
      ensures ok ==> got' == (if count - got < volume.bytesPerSector - start then count
        else got + volume.bytesPerSector - start)
      ensures ok ==> Holds(volume, first, offset, buffer[..], got')
      ensures !ok ==> Missing(volume, first, offset, count)
      ensures buffer[count..] == old(buffer[count..])
    {
      hide FileByte, Nth, ClusterLba, Missing, Geometry, Holds;
      SectorLoaded(volume, first, k, lba, s);
      ok := Load(lba + s);
      if !ok {
        Position(volume, first, k, s, start);
        Absent(volume, first, offset, count, offset + got);
        return false, got;
      }
      var amount := if count - got < volume.bytesPerSector - start then count - got else volume.bytesPerSector - start;
      TakeSector(first, k, s, start, offset, got, amount, buffer);
      return true, got + amount;
    }

    /** The inner loop: the wanted sectors of the `k`-th cluster. It stops early only
        at a byte of the request that cannot be read. */
    method TakeCluster(first: nat, k: nat, lba: nat, offset: nat, inside: nat, got: nat, count: nat,
        buffer: array<Byte>)
      returns (ok: bool, got': nat)
      requires Geometry(volume) && Nth(volume, first, k).Some? &&
        ClusterLba(volume, Nth(volume, first, k).value) == Some(lba)
      requires inside < volume.clusterBytes && offset + got == Times(k, volume.clusterBytes) + inside &&
        got < count <= buffer.Length
      requires Holds(volume, first, offset, buffer[..], got)
      modifies this`sector, buffer
      ensures ok ==> got < got' <= count && Holds(volume, first, offset, buffer[..], got')
      ensures ok ==> offset + got' <= Times(k + 1, volume.clusterBytes)
      ensures ok ==> got' == count || offset + got' == Times(k + 1, volume.clusterBytes)
      ensures !ok ==> Missing(volume, first, offset, count)
      ensures buffer[count..] == old(buffer[count..])
    {
      hide Geometry, FileByte, Nth, ClusterLba, Missing, Holds, Times;
      Sizes(volume);
      TimesNext(0, volume.bytesPerSector);
      TimesNext(k, volume.clusterBytes);
      got' := got;
      var skip: nat := inside;
      var s: nat := 0;
      var sectorStart: nat := 0;
      ghost var origin := Times(k, volume.clusterBytes);
      while s < volume.sectorsPerCluster && got' < count
        invariant 0 <= s <= volume.sectorsPerCluster && got <= got' <= count &&
          sectorStart == Times(s, volume.bytesPerSector)
        invariant skip > 0 ==> got' == got && skip == inside && sectorStart <= skip
        invariant skip == 0 && got' < count ==> offset + got' == origin + sectorStart
        invariant s > 0 && skip == 0 ==> got' > got
        invariant got' > got ==> offset + got' <= origin + sectorStart
        invariant Holds(volume, first, offset, buffer[..], got')
        invariant buffer[count..] == old(buffer[count..])
      {
        if skip < sectorStart + volume.bytesPerSector {
          var start := if skip > sectorStart then skip - sectorStart else 0;
          ok, got' := ReadSector(first, k, lba, s, origin + sectorStart, start, offset, got', count, buffer);
          if !ok {
            return false, got';
          }
          skip := 0;
        }
        TimesNext(s, volume.bytesPerSector);
        s := s + 1;
        sectorStart := sectorStart + volume.bytesPerSector;
      }
      TimesMono(s, volume.sectorsPerCluster, volume.bytesPerSector);
      return true, got';
    }

    /** `fat32_read_file`. On success the buffer starts with exactly the requested
        slice of the file, clamped to its end; it succeeds exactly when everything
        the slice needs is there. */
    method ReadFile(entry: Entry, offset: nat, buffer: array<Byte>, size: nat) returns (ok: bool, count: nat)
      requires Geometry(volume) && size <= buffer.Length
      modifies this`sector, buffer
      ensures ok ==> !entry.directory
      ensures ok ==> count == if offset >= entry.size then 0 else if size < entry.size - offset then size
        else entry.size - offset
      ensures ok ==> Holds(volume, entry.first, offset, buffer[..], count) && buffer[count..] == old(buffer[count..])
      ensures ok <==>
        && !entry.directory
        && (size == 0 || offset >= entry.size ||
            (entry.first >= 2 &&
             Readable(volume, entry.first, offset, if size < entry.size - offset then size else entry.size - offset)))
    {
      hide Geometry, FileByte, Nth, Missing, Times;
      if entry.directory {
        return false, 0;
      }
      if size == 0 || offset >= entry.size {
        return true, 0;
      }
      if entry.first < 2 {
        return false, 0;
      }
      var wanted := if size < entry.size - offset then size else entry.size - offset;
      ok := ReadSlice(entry.first, offset, wanted, buffer);
      return ok, if ok then wanted else 0;
    }

    method ReadSlice(first: nat, offset: nat, count: nat, buffer: array<Byte>) returns (ok: bool)
      requires Geometry(volume) && 0 < count <= buffer.Length
      modifies this`sector, buffer
      ensures ok <==> Readable(volume, first, offset, count)
      ensures ok ==> Holds(volume, first, offset, buffer[..], count) && buffer[count..] == old(buffer[count..])
    {
      hide Geometry, FileByte, Nth, ClusterLba, Missing, Times, Readable;
      Sizes(volume);
      var k: nat := Div(offset, volume.clusterBytes);
      var inside: nat := Mod(offset, volume.clusterBytes);
      EuclidTimes(offset, volume.clusterBytes);
      var cluster: nat;
      ok, cluster := SkipTo(first, k);
      if !ok {
        Unreachable(volume, first, offset, count, k);
        return false;
      }
      var got: nat := 0;
      while got < count
        invariant 0 <= got <= count && inside < volume.clusterBytes
        invariant k <= volume.clusterCount && Nth(volume, first, k) == Some(cluster)
        invariant got < count ==> offset + got == Times(k, volume.clusterBytes) + inside
        invariant got == count ==> k < volume.clusterCount && offset + count <= Times(k + 1, volume.clusterBytes)
        invariant Holds(volume, first, offset, buffer[..], got)
        invariant buffer[count..] == old(buffer[count..])
        decreases count - got
      {
        if k + 1 > volume.clusterCount {
          Unreachable(volume, first, offset, count, k);
          return false;
        }
        var lba := ClusterLba(volume, cluster);
        if lba.None? {
          Homeless(volume, first, offset, count, k, inside, got);
          return false;
        }
        ok, got := TakeCluster(first, k, lba.value, offset, inside, got, count, buffer);
        if !ok {
          Gap(volume, first, offset, count);
          return false;
        }
        if got < count {
          var next: nat;
          ok, next := Next(cluster);
          if !ok {
            NthNext(volume, first, k);
            Unreachable(volume, first, offset, count, k + 1);
            return false;
          }
          NthNext(volume, first, k);
          cluster := next;
          k := k + 1;
          inside := 0;
        }
      }
      Complete(volume, first, offset, count, k, buffer[..]);
      return true;
    }
  }

  lemma SectorLoaded(v: Volume, first: nat, k: nat, lba: nat, s: nat)
    requires Geometry(v) && Nth(v, first, k).Some? && ClusterLba(v, Nth(v, first, k).value) == Some(lba)
    ensures var block := ReadBlock(v, lba + s);
            && (block.Some? ==> |block.value| == v.bytesPerSector)
            && (forall i :: 0 <= i < v.bytesPerSector ==>
                  SectorByte(v, first, k, s, i) == if block.None? then None else Some(block.value[i]))
  {
  }

  lemma Absent(v: Volume, first: nat, offset: nat, count: nat, p: nat)
    requires Geometry(v) && offset <= p < offset + count && FileByte(v, first, p).None?
    ensures Missing(v, first, offset, count)
  {
  }

  lemma TimesMono(a: nat, b: nat, d: nat)
    requires a <= b
    ensures Times(a, d) <= Times(b, d)
  {
    MulMono(a, b, d);
  }

  lemma EuclidTimes(x: nat, d: nat)
    requires 0 < d
    ensures x == Times(Div(x, d), d) + Mod(x, d)
  {
    Euclid(x, d);
  }

  /** The quotient is at least `k` from `k * d` on, and at most `k` before `(k + 1) * d`. */
  lemma DivBounds(x: nat, k: nat, d: nat)
    requires 0 < d
    ensures Times(k, d) <= x ==> k <= Div(x, d)
    ensures x < Times(k + 1, d) ==> Div(x, d) <= k
  {
    Euclid(x, d);
    MulStep(Div(x, d), k, d);
    MulStep(k, Div(x, d), d);
    TimesNext(k, d);
  }

  lemma NthNext(v: Volume, first: nat, k: nat)
    requires Geometry(v) && Nth(v, first, k).Some?
    ensures Nth(v, first, k + 1) == Follow(v, Nth(v, first, k).value)
  {
  }

  lemma Unreachable(v: Volume, first: nat, offset: nat, count: nat, k: nat)
    requires Geometry(v) && count > 0 && Times(k, v.clusterBytes) < offset + count
    requires k >= v.clusterCount || Nth(v, first, k).None?
    ensures !Readable(v, first, offset, count)
  {
    hide Nth, FileByte, Times;
    DivBounds(offset + count - 1, k, v.clusterBytes);
    if Nth(v, first, Div(offset + count - 1, v.clusterBytes)).Some? {
      NthPrefix(v, first, k, Div(offset + count - 1, v.clusterBytes));
    }
  }

  lemma Homeless(v: Volume, first: nat, offset: nat, count: nat, k: nat, inside: nat, got: nat)
    requires Geometry(v) && got < count && inside < v.clusterBytes && offset + got == Times(k, v.clusterBytes) + inside
    requires Nth(v, first, k).Some? && ClusterLba(v, Nth(v, first, k).value).None?
    ensures !Readable(v, first, offset, count)
  {
    DivMod(k, inside, v.clusterBytes);
    assert FileByte(v, first, offset + got).None?;
  }

  lemma Gap(v: Volume, first: nat, offset: nat, count: nat)
    requires Geometry(v) && count > 0 && Missing(v, first, offset, count)
    ensures !Readable(v, first, offset, count)
  {
    hide FileByte, Nth;
  }

  lemma Complete(v: Volume, first: nat, offset: nat, count: nat, k: nat, bytes: seq<Byte>)
    requires Geometry(v) && 0 < count && k < v.clusterCount && offset + count <= Times(k + 1, v.clusterBytes)
    requires Nth(v, first, k).Some? && Holds(v, first, offset, bytes, count)
    ensures Readable(v, first, offset, count)
  {
    hide FileByte, Nth, Times;
    DivBounds(offset + count - 1, k, v.clusterBytes);
    NthPrefix(v, first, Div(offset + count - 1, v.clusterBytes), k);
    forall p | offset <= p < offset + count ensures FileByte(v, first, p).Some? {
      assert FileByte(v, first, offset + (p - offset)) == Some(bytes[p - offset]);
    }
  }

  // ------------------------------------------------------ well-formed volumes

  /** Every sector of every data cluster is inside the device. */
  lemma ClusterInside(v: Volume, cluster: nat, sector: nat)
    requires Geometry(v) && 2 <= cluster < v.clusterCount + 2 && sector < v.sectorsPerCluster
    ensures ClusterLba(v, cluster).Some? && ClusterLba(v, cluster).value + sector < |v.blocks|
  {
    MulStep(cluster - 2, v.clusterCount, v.sectorsPerCluster);
  }

  lemma InsideCluster(v: Volume, r: nat)
    requires Geometry(v) && r < v.clusterBytes
    ensures Div(r, v.bytesPerSector) < v.sectorsPerCluster
  {
    Euclid(r, v.bytesPerSector);
    if Div(r, v.bytesPerSector) >= v.sectorsPerCluster {
      MulMono(v.sectorsPerCluster, Div(r, v.bytesPerSector), v.bytesPerSector);
    }
  }

  /** On a chain of distinct clusters of the volume and a device whose reads work,
      every slice of the chain is readable: the guard against endless chains never
      rejects it. */
  lemma AcyclicChainIsReadable(v: Volume, first: nat, offset: nat, count: nat)
    requires Geometry(v) && count > 0 && v.failing == {}
    requires var last := Div(offset + count - 1, v.clusterBytes);
             && (forall k :: 0 <= k <= last ==>
               Nth(v, first, k).Some? && 2 <= Nth(v, first, k).value < v.clusterCount + 2)
             && (forall j, k :: 0 <= j < k <= last ==> Nth(v, first, j) != Nth(v, first, k))
    ensures Readable(v, first, offset, count)
  {
    hide Nth, Geometry;
    Sizes(v);
    var last := Div(offset + count - 1, v.clusterBytes);
    AcyclicFits(v, first, last);
    forall p | offset <= p < offset + count ensures FileByte(v, first, p).Some? {
      var k, r := Div(p, v.clusterBytes), Mod(p, v.clusterBytes);
      DivOrder(p, offset + count - 1, v.clusterBytes);
      InsideCluster(v, r);
      ClusterInside(v, Nth(v, first, k).value, Div(r, v.bytesPerSector));
    }
  }

  lemma DivOrder(x: nat, y: nat, d: nat)
    requires 0 < d && x <= y
    ensures Div(x, d) <= Div(y, d)
  {
    EuclidTimes(x, d);
    DivBounds(y, Div(x, d), d);
  }

  /** The boot sector fields that probing reads. */
  datatype BootSector = BootSector(
    signature: bool, named: bool, bytesPerSector: nat, sectorsPerCluster: nat, reserved: nat, fats: nat,
      rootEntries: nat,
    total16: nat, fat16: nat, total32: nat, fat32: nat, rootCluster: nat)

  predicate PowerOfTwo(n: nat) {
    n in {1, 2, 4, 8, 16, 32, 64, 128}
  }

  /** `fat32_probe` of a device with blocks of `blockSize` bytes. */
  function Probe(b: BootSector, blockSize: nat, blocks: seq<seq<Byte>>, failing: set<nat>): Option<Volume> {
    var total := if b.total16 != 0 then b.total16 else b.total32;
    var firstData := b.reserved + b.fats * b.fat32;
    if blockSize !in {512, 1024, 2048, 4096} || ReadLba0Fails(blocks, failing) || !b.signature ||
      b.bytesPerSector != blockSize ||
       !PowerOfTwo(b.sectorsPerCluster) || b.reserved == 0 || b.fats == 0 || b.fats > 2 || b.rootEntries != 0 ||
       b.fat16 != 0 || b.fat32 == 0 || total == 0 || total > |blocks| || firstData >= total
    then None
    else
      var clusters := Div(total - firstData, b.sectorsPerCluster);
      if clusters < 65525 || clusters > 0x0FFF_FFF5 || b.rootCluster < 2 || b.rootCluster - 2 >= clusters ||
        !b.named then None
      else
        Some(Volume(blocks, failing, blockSize, b.sectorsPerCluster, b.sectorsPerCluster * blockSize, b.reserved,
          firstData, clusters))
  }

  predicate ReadLba0Fails(blocks: seq<seq<Byte>>, failing: set<nat>) {
    |blocks| == 0 || 0 in failing
  }

  /** A volume that probing accepts has the geometry the reader relies on. */
  lemma ProbeGeometry(b: BootSector, blockSize: nat, blocks: seq<seq<Byte>>, failing: set<nat>)
    requires Probe(b, blockSize, blocks, failing).Some?
    requires forall i :: 0 <= i < |blocks| ==> |blocks[i]| == blockSize
    ensures Geometry(Probe(b, blockSize, blocks, failing).value)
  {
    var total := if b.total16 != 0 then b.total16 else b.total32;
    var firstData := b.reserved + b.fats * b.fat32;
    Euclid(total - firstData, b.sectorsPerCluster);
    MulMono(1, b.sectorsPerCluster, blockSize);
  }
}
