/**
 Where the bytes of a FAT32 volume are: data clusters tile the data area in order,
 a file is made of pieces of that area, and the allocation table is one flat array
 of 32-bit entries (Microsoft FAT32 File System Specification 1.03).
 */
module Fat32Layout {
  import opened Slots
  import opened Fat32

  // ---------------------------------------------------------------- data clusters

  /** Sector `lba` belongs to cluster `c`. */
  predicate InCluster(v: Volume, c: nat, lba: nat) {
    ClusterLba(v, c).Some? && ClusterLba(v, c).value <= lba < ClusterLba(v, c).value + v.sectorsPerCluster
  }

  /** Exactly the clusters 2 up to the cluster count plus one have a place; it is inside
      the device, and a lower cluster ends before a higher one begins. */
  lemma ClusterOrder(v: Volume, c: nat, d: nat)
    requires Geometry(v)
    ensures ClusterLba(v, c).Some? <==> 2 <= c < v.clusterCount + 2
    ensures ClusterLba(v, 2) == Some(v.firstData)
    ensures ClusterLba(v, c).Some? && ClusterLba(v, d).Some? && c < d ==>
      ClusterLba(v, c).value + v.sectorsPerCluster <= ClusterLba(v, d).value
    ensures ClusterLba(v, c).Some? && ClusterLba(v, c + 1).Some? ==>
      ClusterLba(v, c + 1).value == ClusterLba(v, c).value + v.sectorsPerCluster
    ensures ClusterLba(v, c).Some? ==>
      v.firstData <= ClusterLba(v, c).value <= v.firstData + Times(v.clusterCount,
        v.sectorsPerCluster) - v.sectorsPerCluster
  {
    if 2 <= c < v.clusterCount + 2 {
      MulStep(c - 2, v.clusterCount, v.sectorsPerCluster);
    }
    if 2 <= c < d {
      MulStep(c - 2, d - 2, v.sectorsPerCluster);
    }
    if 2 <= c {
      TimesNext(c - 2, v.sectorsPerCluster);
      assert c + 1 - 2 == (c - 2) + 1;
    }
  }

  /** No sector belongs to two clusters, and the clusters together are exactly the data area. */
  lemma ClustersTile(v: Volume, lba: nat)
    requires Geometry(v)
    ensures forall c: nat, d: nat :: InCluster(v, c, lba) && InCluster(v, d, lba) ==> c == d
    ensures (exists c: nat :: InCluster(v, c, lba)) <==>
      v.firstData <= lba < v.firstData + Times(v.clusterCount, v.sectorsPerCluster)
  {
    hide ClusterLba, Geometry, Times;
    forall c: nat, d: nat | InCluster(v, c, lba) && InCluster(v, d, lba) ensures c == d {
      ClusterOrder(v, c, d);
      ClusterOrder(v, d, c);
    }
    forall c: nat | InCluster(v, c, lba)
      ensures v.firstData <= lba < v.firstData + Times(v.clusterCount, v.sectorsPerCluster)
    {
      ClusterOrder(v, c, c);
    }
    if v.firstData <= lba < v.firstData + Times(v.clusterCount, v.sectorsPerCluster) {
      var c := Home(v, lba);
      assert InCluster(v, c, lba);
    }
  }

  lemma LessOfTimes(x: nat, y: nat, d: nat)
    ensures x * d < y * d ==> x < y
  {
    if y <= x {
      MulMono(y, x, d);
    }
  }

  lemma Home(v: Volume, lba: nat) returns (c: nat)
    requires Geometry(v) && v.firstData <= lba < v.firstData + Times(v.clusterCount, v.sectorsPerCluster)
    ensures InCluster(v, c, lba)
  {
    var q := Div(lba - v.firstData, v.sectorsPerCluster);
    Euclid(lba - v.firstData, v.sectorsPerCluster);
    LessOfTimes(q, v.clusterCount, v.sectorsPerCluster);
    ClusterOrder(v, q + 2, q + 2);
    c := q + 2;
    assert ClusterLba(v, c).value == v.firstData + q * v.sectorsPerCluster;
  }

  /** Byte `q` of the data area, all its sectors laid end to end. */
  function DataByte(v: Volume, q: nat): Option<Byte>
    requires Geometry(v)
  {
    var block := ReadBlock(v, v.firstData + Div(q, v.bytesPerSector));
    if block.None? then None else Some(block.value[Mod(q, v.bytesPerSector)])
  }

  /** A file is what its chain says: byte `p` is in the chain's cluster for `p`, at the
      same distance from the cluster's start as `p` has from a cluster boundary, and the
      cluster is where its number puts it in the data area. */
  lemma FileIsData(v: Volume, first: nat, p: nat)
    requires Geometry(v)
    ensures FileByte(v, first, p) ==
      match Nth(v, first, Div(p, v.clusterBytes))
      case None => None
      case Some(c) =>
        if 2 <= c < v.clusterCount + 2 then DataByte(v, Times(c - 2, v.clusterBytes) + Mod(p, v.clusterBytes)) else None
  {
    hide Nth;
    var cluster := Nth(v, first, Div(p, v.clusterBytes));
    if cluster.Some? {
      var c := cluster.value;
      ClusterOrder(v, c, c);
      if 2 <= c < v.clusterCount + 2 {
        Placed(v, c, Mod(p, v.clusterBytes));
      }
    }
  }

  /** Byte `inside` of cluster `c`, by sector and by byte. */
  lemma Placed(v: Volume, c: nat, inside: nat)
    requires Geometry(v) && 2 <= c && inside < v.clusterBytes
    ensures var q := Times(c - 2, v.clusterBytes) + inside;
            && Div(q, v.bytesPerSector) == (c - 2) * v.sectorsPerCluster + Div(inside, v.bytesPerSector)
            && Mod(q, v.bytesPerSector) == Mod(inside, v.bytesPerSector)
  {
    var bps, spc, n := v.bytesPerSector, v.sectorsPerCluster, c - 2;
    Euclid(inside, bps);
    var s, b := Div(inside, bps), Mod(inside, bps);
    assert Times(n, v.clusterBytes) == n * spc * bps by {
      Associates(n, spc, bps);
    }
    assert n * spc * bps + s * bps == (n * spc + s) * bps by {
      Distributes(n * spc, s, bps);
    }
    DivMod(n * spc + s, b, bps);
  }

  lemma Associates(n: nat, s: nat, b: nat)
    ensures n * (s * b) == n * s * b
  {
  }

  lemma Distributes(x: nat, y: nat, b: nat)
    ensures x * b + y * b == (x + y) * b
  {
  }

  // --------------------------------------------------------------- allocation table

  /** Byte `q` of the allocation table, its sectors laid end to end. */
  function TableByte(v: Volume, q: nat): Option<Byte>
    requires Geometry(v)
  {
    var block := ReadBlock(v, v.firstFat + Div(q, v.bytesPerSector));
    if block.None? then None else Some(block.value[Mod(q, v.bytesPerSector)])
  }

  /** The table is flat: the entry of cluster `c` is the little-endian number in bytes
      4c to 4c + 3, without its top four bits, and it never straddles two sectors. */
  lemma TableIsFlat(v: Volume, c: nat)
    requires Geometry(v)
    ensures var b0, b1, b2, b3 := TableByte(v, 4 * c), TableByte(v, 4 * c + 1), TableByte(v, 4 * c + 2),
      TableByte(v, 4 * c + 3);
            if c < 2 then NextCluster(v, c).None?
            else if b0.None? then b1.None? && b2.None? && b3.None? && NextCluster(v, c).None?
            else
              && b1.Some? && b2.Some? && b3.Some?
              && NextCluster(v, c) ==
                 Some((b0.value + 0x100 * b1.value + 0x1_0000 * b2.value + 0x100_0000 * b3.value) % 0x1000_0000)
  {
    hide Div, Mod;
    var bps := v.bytesPerSector;
    var s, e := Div(4 * c, bps), Mod(4 * c, bps);
    Aligned(4 * c, bps);
    EntryAt(v, c);
    SameSector(v, 4 * c, 1);
    SameSector(v, 4 * c, 2);
    SameSector(v, 4 * c, 3);
  }

  /** The entry of cluster `c`, by the division the table is laid out with. */
  lemma EntryAt(v: Volume, c: nat)
    requires Geometry(v) && Mod(4 * c, v.bytesPerSector) + 4 <= v.bytesPerSector
    ensures var block := ReadBlock(v, v.firstFat + Div(4 * c, v.bytesPerSector));
            NextCluster(v, c) ==
              if c < 2 || block.None? then None else Some(Le32(block.value, Mod(4 * c, v.bytesPerSector)) % ENTRY_MASK)
  {
  }

  /** Bytes that do not reach the end of a sector are in the sector they start in. */
  lemma SameSector(v: Volume, q: nat, n: nat)
    requires Geometry(v) && Mod(q, v.bytesPerSector) + n < v.bytesPerSector
    ensures Div(q + n, v.bytesPerSector) == Div(q, v.bytesPerSector)
    ensures Mod(q + n, v.bytesPerSector) == Mod(q, v.bytesPerSector) + n
  {
    Euclid(q, v.bytesPerSector);
    DivMod(Div(q, v.bytesPerSector), Mod(q, v.bytesPerSector) + n, v.bytesPerSector);
  }

  lemma Aligned(q: nat, bps: nat)
    requires q % 4 == 0 && bps in {512, 1024, 2048, 4096}
    ensures Mod(q, bps) + 4 <= bps
  {
  }

  /** The entry of cluster `c`, read off the flat table. */
  function TableEntry(v: Volume, c: nat): Option<nat>
    requires Geometry(v)
  {
    var b0, b1, b2, b3 := TableByte(v, 4 * c), TableByte(v, 4 * c + 1), TableByte(v, 4 * c + 2),
      TableByte(v, 4 * c + 3);
    if b0.None? || b1.None? || b2.None? || b3.None? then None
    else Some((b0.value + 0x100 * b1.value + 0x1_0000 * b2.value + 0x100_0000 * b3.value) % 0x1000_0000)
  }

  /** The table links these data clusters one after the other. */
  predicate Linked(v: Volume, cs: seq<nat>)
    requires Geometry(v)
  {
    && (forall i :: 0 <= i < |cs| ==> 2 <= cs[i] < v.clusterCount + 2)
    && (forall i :: 0 < i < |cs| ==> TableEntry(v, cs[i - 1]) == Some(cs[i]))
  }

  lemma {:induction false} ChainIsLinked(v: Volume, cs: seq<nat>, k: nat)
    requires Geometry(v) && Linked(v, cs) && k < |cs|
    ensures Nth(v, cs[0], k) == Some(cs[k])
    decreases k
  {
    hide TableByte, NextCluster;
    if k > 0 {
      ChainIsLinked(v, cs, k - 1);
      TableIsFlat(v, cs[k - 1]);
      assert TableEntry(v, cs[k - 1]) == Some(cs[k]);
    }
  }

  /** A file is what its directory entry and the table say: over the clusters that the
      table links, byte `p` of the file is byte `p` of those clusters laid end to end. */
  lemma FileFollowsTable(v: Volume, cs: seq<nat>, p: nat)
    requires Geometry(v) && Linked(v, cs) && Div(p, v.clusterBytes) < |cs|
    ensures FileByte(v, cs[0], p) ==
      DataByte(v, Times(cs[Div(p, v.clusterBytes)] - 2, v.clusterBytes) + Mod(p, v.clusterBytes))
  {
    hide Linked, Nth, FileByte, DataByte, Div, Mod, Times;
    ChainIsLinked(v, cs, Div(p, v.clusterBytes));
    LinkedAt(v, cs, Div(p, v.clusterBytes));
    FileIsData(v, cs[0], p);
  }

  lemma LinkedAt(v: Volume, cs: seq<nat>, k: nat)
    requires Geometry(v) && Linked(v, cs) && k < |cs|
    ensures 2 <= cs[k] < v.clusterCount + 2
  {
  }

  /** And it ends where the table ends it: a mark that is no data cluster, or a table
      sector that cannot be read, is the end of the chain. */
  lemma FollowIff(v: Volume, c: nat, next: nat)
    requires Geometry(v) && 2 <= c
    ensures Follow(v, c) == Some(next) <==> TableEntry(v, c) == Some(next) && 2 <= next < 0x0FFF_FFF7
  {
    hide TableByte, NextCluster;
    TableIsFlat(v, c);
  }

  // ----------------------------------------------------------------------- probing

  /** An accepted volume: the tables follow the reserved sectors, the data area follows
      the tables, and it holds as many whole clusters as fit in the sectors the boot
      sector declares, all of them on the device; enough of them to be FAT32. */
  lemma ProbeLayout(b: BootSector, blockSize: nat, blocks: seq<seq<Byte>>, failing: set<nat>)
    requires Probe(b, blockSize, blocks, failing).Some?
    ensures var v := Probe(b, blockSize, blocks, failing).value;
            var total := if b.total16 != 0 then b.total16 else b.total32;
            && v.blocks == blocks && v.failing == failing
            && v.bytesPerSector == blockSize && v.sectorsPerCluster == b.sectorsPerCluster
            && v.firstFat == b.reserved && v.firstData == v.firstFat + b.fats * b.fat32
            && v.firstData + Times(v.clusterCount, v.sectorsPerCluster) <= total <= |blocks|
            && total < v.firstData + Times(v.clusterCount + 1, v.sectorsPerCluster)
            && 65525 <= v.clusterCount <= 0x0FFF_FFF5
            && 2 <= b.rootCluster < v.clusterCount + 2
  {
    var total := if b.total16 != 0 then b.total16 else b.total32;
    var firstData := b.reserved + b.fats * b.fat32;
    Euclid(total - firstData, b.sectorsPerCluster);
    TimesNext(Div(total - firstData, b.sectorsPerCluster), b.sectorsPerCluster);
  }

  /** Every FAT32 layout is accepted: whatever the sizes of its parts, within the limits of
      the format, and whichever of the two fields holds the sector count, probing finds
      exactly that layout; sectors too few for another cluster are ignored. */
  lemma ProbeAccepts(b: BootSector, clusters: nat, slack: nat, blocks: seq<seq<Byte>>, failing: set<nat>)
    requires b.signature && b.named && b.rootEntries == 0 && b.fat16 == 0
    requires b.bytesPerSector in {512, 1024, 2048, 4096} && PowerOfTwo(b.sectorsPerCluster)
    requires b.reserved > 0 && 1 <= b.fats <= 2 && b.fat32 > 0
    requires 65525 <= clusters <= 0x0FFF_FFF5 && slack < b.sectorsPerCluster && 2 <= b.rootCluster < clusters + 2
    requires var total := b.reserved + b.fats * b.fat32 + Times(clusters, b.sectorsPerCluster) + slack;
             && total <= |blocks| && 0 !in failing
             && (b.total16 == total || (b.total16 == 0 && b.total32 == total))
    ensures var firstData := b.reserved + b.fats * b.fat32;
            Probe(b, b.bytesPerSector, blocks, failing) ==
              Some(Volume(blocks, failing, b.bytesPerSector, b.sectorsPerCluster,
                          b.sectorsPerCluster * b.bytesPerSector, b.reserved, firstData, clusters))
  {
    DivMod(clusters, slack, b.sectorsPerCluster);
    assert Times(clusters, b.sectorsPerCluster) > 0;
  }
}
