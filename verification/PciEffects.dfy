/**
 What each ledger operation answers and leaves behind, in terms of its arguments:
 when it succeeds, which record it makes or removes, and that nothing else moves.
 The validity checks inside the operations never decide, so they do not appear.
 */
module PciEffects {
  import opened FrameSpans
  import opened Slots
  import IrqEvents
  import opened PciLedger
  import opened PciInvariant
  import opened PciEdits
  import opened PciOperations

  // ------------------------------------------------------------- assignments

  /** One slot that was empty now holds `x`; the others are as they were. */
  predicate Added<T(==)>(s: Registry<T>, s': Registry<T>, slot: nat, x: T) {
    slot < |s| && s[slot].None? && s' == s[slot := Some(x)]
  }

  /** Only the record of assignment `a` may differ between the two ledgers. */
  predicate OnlyAssignment(l: Ledger, l': Ledger, a: nat) {
    && |l'.assigns| == |l.assigns| && a < |l.assigns|
    && l' == l.(assigns := l.assigns[a := l'.assigns[a]])
  }

  /** A claim succeeds on an available device that no capability names any more, and
      from then on exactly the claiming process may act on the device. */
  lemma ClaimExact(l: Ledger, a: nat, p: Process, supervised: bool, insertOk: bool)
    requires Inv(l)
    ensures var (l', r) := Claim(l, a, p, supervised, insertOk);
            && (r == Done <==>
                  && p.ready && p.id != 0 && p.kernel == supervised && insertOk
                  && Live(l.assigns, a) && l.assigns[a].value.state == Available && l.assigns[a].value.refs == 0)
            && (r != Done ==> l' == l)
            && (r == Done ==>
                  && OnlyAssignment(l, l', a)
                  && forall q: Process, handleOk ::
                       Authorized(l', a, q, handleOk) <==>
                         q.ready && handleOk && q.id == p.id && (q.kernel ==> supervised))
  {
    hide BarsOk, BuffersOk, FramesOk, RecoveryOk, IrqOk, Balanced;
  }

  /** Orderly release, both halves: it gives the device back exactly when its owner asks,
      the device was never exposed, and nothing of it is left; then nobody may act on it. */
  lemma ReleaseExact(l: Ledger, a: nat, owner: nat)
    requires Inv(l)
    ensures var (l1, r1) := BeginQuiesce(l, a, owner);
            var (l2, r2) := CompleteRelease(l1, a, owner);
            && (r1 == Done <==>
                  && InState(l, a, Assigned) && owner == l.assigns[a].value.owner && !l.assigns[a].value.exposed
                  && l.assigns[a].value.pins == 0 && !l.assigns[a].value.gate)
            && (r1 == Done ==>
                  && l1 == Put(l, a, l.assigns[a].value.(state := Quiescing))
                  && (r2 == Done <==> l.assigns[a].value.kids == 0 && l.assigns[a].value.refs == 0))
            && (r1 != Done ==> l1 == l) && (r2 != Done ==> l2 == l1)
            && (r1 == r2 == Done ==>
                  && OnlyAssignment(l, l2, a) && InState(l2, a, Available)
                  && l2.assigns[a].value.device == l.assigns[a].value.device
                  && forall q: Process, handleOk :: !Authorized(l2, a, q, handleOk))
  {
    hide BarsOk, BuffersOk, FramesOk, RecoveryOk, IrqOk, Balanced;
    if Live(l.assigns, a) {
      var l1 := BeginQuiesce(l, a, owner).0;
      var l2 := CompleteRelease(l1, a, owner).0;
      assert l2.assigns == l.assigns[a := l2.assigns[a]];
    }
  }

  /** A new assignment is for the device asked for, available and untouched, and there is
      no other for that device. */
  lemma CreateAssignmentExact(l: Ledger, device: nat, resourceOk: bool)
    requires Inv(l)
    ensures var (l', r) := CreateAssignment(l, device, resourceOk);
            && (r == Done <==>
                  && resourceOk && l.nextRid != 0 && !DeviceTaken(l.assigns, device)
                  && exists i :: 0 <= i < |l.assigns| && l.assigns[i].None?)
            && (r != Done ==> l' == l)
            && (r == Done ==>
                  exists slot: nat ::
                    && Added(l.assigns, l'.assigns, slot,
                             Assignment(device, l.nextRid, 0, 0, 0, 0, Available, false, false, false))
                    && l' == l.(assigns := l'.assigns, nextRid := NextRid(l.nextRid)))
  {
    hide BarsOk, BuffersOk, FramesOk, RecoveryOk, IrqOk, Balanced;
    var slot := Empty(l.assigns);
    var l' := CreateAssignment(l, device, resourceOk).0;
    if CreateAssignment(l, device, resourceOk).1 == Done {
      assert Added(l.assigns, l'.assigns, slot,
                   Assignment(device, l.nextRid, 0, 0, 0, 0, Available, false, false, false));
    }
  }

  // ----------------------------------------------------------- BAR resources

  /** A BAR record is made for the device, owner and index asked for, over exactly the
      window the device reports; its device gains one child. */
  lemma CreateBarExact(l: Ledger, a: nat, p: Process, handleOk: bool, index: nat, probe: Probe, resourceOk: bool,
                       insertOk: bool)
    requires Inv(l)
    ensures var (l', r) := CreateBar(l, a, p, handleOk, index, probe, resourceOk, insertOk);
            && (r == Done <==>
                  && Authorized(l, a, p, handleOk) && l.assigns[a].value.kids < CHILD_LIMIT
                  && index < BAR_INDEXES && !BarTaken(l.bars, a, index)
                  && !probe.Absent? && !(probe.Sized? && probe.size == 0)
                  && (exists i :: 0 <= i < |l.bars| && l.bars[i].None?)
                  && resourceOk && insertOk && l.nextRid != 0)
            && (r != Done ==> l' == l.(nextRid := l'.nextRid))
            && (r == Done ==>
                  exists slot: nat ::
                    && slot < |l.bars| && l.bars[slot].None? && |l'.bars| == |l.bars|
                    && l'.bars == l.bars[slot := l'.bars[slot]] && l'.bars[slot].Some?
                    && l' == l.(assigns := l'.assigns, bars := l'.bars, nextRid := NextRid(l.nextRid))
                    && l'.assigns == l.assigns[a := Some(l.assigns[a].value.(kids := l.assigns[a].value.kids + 1))]
                    && var b := l'.bars[slot].value;
                       && b.parent == a && b.owner == p.id && b.index == index && b.pins == 0 && b.refs == 1
                       && b.rid == l.nextRid
                       && b.base == probe.base && b.io == probe.io && b.bounded == probe.Sized?
                       && (probe.Sized? ==> b.size == probe.size))
  {
    hide BarsOk, BuffersOk, FramesOk, RecoveryOk, IrqOk, Balanced;
    if ChildAcquire(l, a, p, handleOk).Some? {
      var l1 := ChildAcquire(l, a, p, handleOk).value;
      UndoSafe(l, l1, a, p, handleOk, l1.nextRid, l1.zeroed);
      UndoSafe(l, l1, a, p, handleOk, NextRid(l1.nextRid), l1.zeroed);
      var slot := Empty(l.bars);
      var (l', r) := CreateBar(l, a, p, handleOk, index, probe, resourceOk, insertOk);
      if r == Done {
        assert l'.bars == l.bars[slot := l'.bars[slot]];
      }
    }
  }

  /** A port access goes through exactly when the owner asks for a port unit that lies
      inside the BAR and below the last port, no DMA is in flight on the device, and the
      counters have room. */
  lemma PortAccessExact(l: Ledger, i: nat, p: Process, handleOk: bool, offset: nat, width: nat)
    requires Inv(l)
    ensures PortAccess(l, i, p, handleOk, offset, width).0 == l
    ensures PortAccess(l, i, p, handleOk, offset, width).1 == Done <==>
      CanAccess(l, i, p, handleOk) && PortsFit(l.bars[i].value, offset, width)
    ensures forall k: nat ::
      Live(l.bars, i) && Live(l.subs, k) && l.subs[k].value.parent == l.bars[i].value.parent ==>
      PortAccess(l, i, p, handleOk, offset, width).1 == Refused
  {
    PortAccessSafe(l, i, p, handleOk, offset, width);
    AcquireExact(l, i, p, handleOk);
    if BarAcquire(l, i, p, handleOk).Some? {
      BarAcquireRelease(l, i, p, handleOk);
    }
    if Live(l.bars, i) {
      BarAlwaysValid(l, i);
      PortWindowFits(l.bars[i].value, offset, width);
      forall k: nat | Live(l.subs, k) && l.subs[k].value.parent == l.bars[i].value.parent
        ensures l.assigns[l.bars[i].value.parent].value.gate
      {
        SubmissionAlwaysValid(l, k);
      }
    }
  }

  /** One, two or four ports of a port BAR, at a multiple of that. */
  predicate PortsFit(b: Bar, offset: nat, width: nat) {
    && width in {1, 2, 4} && offset / width * width == offset
    && b.io && b.bounded && offset + width <= b.size && b.base + offset + width <= 0x1_0000
  }

  lemma PortWindowFits(b: Bar, offset: nat, width: nat)
    ensures PortWindow(b, offset, width) <==> PortsFit(b, offset, width)
  {
  }

  /** The caller owns the BAR on an assigned device, and the access has room and no DMA in its way. */
  predicate CanAccess(l: Ledger, i: nat, p: Process, handleOk: bool) {
    && p.ready && !p.kernel && handleOk && Live(l.bars, i)
    && var b := l.bars[i].value;
       && p.id == b.owner && b.bounded && b.pins < ACCESS_LIMIT && Live(l.assigns, b.parent)
       && var x := l.assigns[b.parent].value;
          x.state == Assigned && !x.gate && x.pins < ACCESS_LIMIT
  }

  lemma AcquireExact(l: Ledger, i: nat, p: Process, handleOk: bool)
    requires Inv(l)
    ensures BarAcquire(l, i, p, handleOk).Some? <==> CanAccess(l, i, p, handleOk)
  {
    hide BuffersOk, FramesOk, RecoveryOk, IrqOk, Balanced;
    if Live(l.bars, i) {
      BarAlwaysValid(l, i);
    }
  }

  /** Whole pages inside the BAR's own window, below the end of the address space. */
  predicate Fits(b: Bar, offset: nat, size: nat) {
    && !b.io && b.bounded && 0 < size && offset + size <= b.size && 0 < b.base + offset && b.base + offset + size <= U64
    && WholePages(offset) && WholePages(size) && WholePages(b.base + offset) && size <= 0xFFFF_FFFF * PAGE
  }

  predicate WholePages(n: nat) {
    n / PAGE * PAGE == n
  }

  lemma WindowFits(b: Bar, offset: nat, size: nat)
    ensures Window(b, offset, size) <==> Fits(b, offset, size)
    ensures Window(b, offset, size) ==> size / PAGE * PAGE == size && 0 < size / PAGE
  {
  }

  /** A mapping shows exactly the bytes asked for: its first byte is byte `offset` of the
      BAR's window, and it has as many bytes as asked for. */
  lemma MapMmioExact(l: Ledger, i: nat, p: Process, handleOk: bool, offset: nat, size: nat, pagesMapped: nat)
    requires Inv(l)
    ensures var (l', r) := MapMmio(l, i, p, handleOk, offset, size, pagesMapped);
            && (r == Done <==>
                  && CanAccess(l, i, p, handleOk) && Fits(l.bars[i].value, offset, size)
                  && (exists m :: 0 <= m < |l.maps| && l.maps[m].None?) && size <= pagesMapped * PAGE)
            && (r != Done ==> l' == l)
            && (r == Done ==>
                  exists m: nat ::
                    && m < |l.maps| && l.maps[m].None? && |l'.maps| == |l.maps|
                    && l'.maps == l.maps[m := l'.maps[m]] && l'.maps[m].Some?
                    && UnmapMmio(l', m, pagesMapped) == (l, Done)
                    && l'.bars == l.bars[i := Some(l.bars[i].value.(pins := l.bars[i].value.pins + 1))]
                    && l' == l.(assigns := l'.assigns, bars := l'.bars, maps := l'.maps)
                    && var x := l'.maps[m].value;
                       && x.bar == i && x.owner == p.id && x.base == l.bars[i].value.base + offset
                       && x.pages * PAGE == size && x.mapped == x.pages)
  {
    hide BuffersOk, FramesOk, RecoveryOk, IrqOk, Balanced, Window, Fits;
    AcquireExact(l, i, p, handleOk);
    if Live(l.bars, i) {
      BarAlwaysValid(l, i);
      WindowFits(l.bars[i].value, offset, size);
    }
    if BarAcquire(l, i, p, handleOk).Some? {
      BarAcquireRelease(l, i, p, handleOk);
      var (l', r) := MapMmio(l, i, p, handleOk, offset, size, pagesMapped);
      if r == Done {
        var m := Empty(l.maps);
        assert l'.maps == l.maps[m := l'.maps[m]];
        MapThenUnmap(l, i, p, handleOk, l', m, pagesMapped);
      }
    }
  }

  lemma MapThenUnmap(l: Ledger, i: nat, p: Process, handleOk: bool, l': Ledger, m: nat, unmaps: nat)
    requires Inv(l) && BarAcquire(l, i, p, handleOk).Some? && m < |l.maps| && l.maps[m].None?
    requires var l1 := BarAcquire(l, i, p, handleOk).value;
             |l'.maps| == |l.maps| && l'.maps[m].Some? && l' == l1.(maps := l.maps[m := l'.maps[m]])
    requires var x := l'.maps[m].value;
             x.bar == i && x.brid == l.bars[i].value.rid && x.owner == p.id && 0 < x.mapped <= x.pages &&
               x.mapped <= unmaps
    ensures UnmapMmio(l', m, unmaps) == (l, Done)
  {
    hide BuffersOk, FramesOk, RecoveryOk, IrqOk, Balanced;
    BarAcquireRelease(l, i, p, handleOk);
    var l1 := BarAcquire(l, i, p, handleOk).value;
    assert l.maps[m := l'.maps[m]][m := None] == l.maps;
    assert l'.(maps := l'.maps[m := None]) == l1;
    assert BarValid(l', i);
  }

  /** Removing pages from a mapping: all of them ends it and gives the access back, fewer
      leave exactly the pages that could not be removed. */
  lemma UnmapMmioExact(l: Ledger, m: nat, unmaps: nat)
    requires Inv(l) && Live(l.maps, m)
    ensures var (l', r) := UnmapMmio(l, m, unmaps);
            var x := l.maps[m].value;
            && Live(l.bars, x.bar)
            && (r == Done <==> x.mapped <= unmaps)
            && (r != Done ==> l' == l.(maps := l.maps[m := Some(x.(mapped := x.mapped - unmaps))]))
            && (r == Done ==>
                  && l'.maps == l.maps[m := None] && |l'.bars| == |l.bars|
                  && l'.bars == l.bars[x.bar := Some(l.bars[x.bar].value.(pins := l.bars[x.bar].value.pins - 1))]
                  && l' == l.(assigns := l'.assigns, bars := l'.bars, maps := l'.maps))
  {
    MappingAlwaysValid(l, m);
    BarAlwaysValid(l, l.maps[m].value.bar);
  }

  // ------------------------------------------------------------- DMA buffers

  /** A buffer is made over exactly the frames the allocator gave, which leave the free
      set and hold only zero bytes. */
  lemma CreateBufferExact(l: Ledger, a: nat, p: Process, handleOk: bool, pages: nat, base: nat, resourceOk: bool,
                          zeroOk: bool, insertOk: bool)
    requires Inv(l)
    ensures var (l', r) := CreateBuffer(l, a, p, handleOk, pages, base, resourceOk, zeroOk, insertOk);
            && (r == Done <==>
                  && Authorized(l, a, p, handleOk) && l.assigns[a].value.kids < CHILD_LIMIT
                  && 0 < pages <= BUFFER_MAX_PAGES && base != 0 && Span(base, pages) <= l.free
                  && (exists j :: 0 <= j < |l.buffers| && l.buffers[j].None?)
                  && resourceOk && zeroOk && insertOk && l.nextRid != 0)
            && (r != Done ==> l' == l.(nextRid := l'.nextRid, zeroed := l'.zeroed))
            && (r == Done ==>
                  && l'.free == l.free - Span(base, pages) && Span(base, pages) <= l'.zeroed
                  && l'.assigns == l.assigns[a := Some(l.assigns[a].value.(kids := l.assigns[a].value.kids + 1))]
                  && l' == l.(assigns := l'.assigns, buffers := l'.buffers, nextRid := l'.nextRid, zeroed := l'.zeroed,
                              free := l'.free)
                  && exists j: nat ::
                       && j < |l.buffers| && l.buffers[j].None? && |l'.buffers| == |l.buffers|
                       && l'.buffers == l.buffers[j := l'.buffers[j]] && l'.buffers[j].Some?
                       && var b := l'.buffers[j].value;
                          && b.parent == a && b.owner == p.id && b.kernel == p.kernel && b.base == base
                          && b.pages == pages && b.mapped == 0 && b.state == Ready && !b.held && b.refs == 1
                          && b.rid == l.nextRid)
  {
    hide BarsOk, BuffersOk, FramesOk, RecoveryOk, IrqOk, Balanced;
    if ChildAcquire(l, a, p, handleOk).Some? {
      var l1 := ChildAcquire(l, a, p, handleOk).value;
      UndoSafe(l, l1, a, p, handleOk, l1.nextRid, l1.zeroed);
      UndoSafe(l, l1, a, p, handleOk, NextRid(l1.nextRid), l1.zeroed);
      UndoSafe(l, l1, a, p, handleOk, NextRid(l1.nextRid), l1.zeroed + Span(base, pages));
      var j := Empty(l.buffers);
      var (l', r) := CreateBuffer(l, a, p, handleOk, pages, base, resourceOk, zeroOk, insertOk);
      if r == Done {
        assert l'.buffers == l.buffers[j := l'.buffers[j]];
      }
    }
  }

  /** The caller owns the buffer, which is whole, on an assigned device. */
  predicate CanUse(l: Ledger, j: nat, p: Process, handleOk: bool) {
    && p.ready && !p.kernel && handleOk && Live(l.buffers, j)
    && var b := l.buffers[j].value;
       && p.id == b.owner && Intact(b) && Live(l.assigns, b.parent) && l.assigns[b.parent].value.state == Assigned
  }

  lemma CanUseExact(l: Ledger, j: nat, p: Process, handleOk: bool)
    requires Inv(l)
    ensures BufferAuthorized(l, j, p, handleOk) <==> CanUse(l, j, p, handleOk)
  {
    hide BarsOk, FramesOk, RecoveryOk, IrqOk, Balanced;
    if Live(l.buffers, j) {
      BufferValidIffIntact(l, j);
    }
  }

  /** Mapping a buffer for its owner maps the whole of it or nothing, only while the CPU
      and the device are not using it, and unmapping all of it undoes that. */
  lemma MapBufferExact(l: Ledger, j: nat, p: Process, handleOk: bool, pagesMapped: nat)
    requires Inv(l)
    ensures var (l', r) := MapBuffer(l, j, p, handleOk, pagesMapped);
            && (r == Done <==>
                  && CanUse(l, j, p, handleOk) && l.buffers[j].value.state == Ready && l.buffers[j].value.mapped == 0
                  && l.buffers[j].value.pages <= pagesMapped)
            && (r != Done ==> l' == l)
            && (r == Done ==>
                  && l'.buffers == l.buffers[j := Some(l.buffers[j].value.(mapped := l.buffers[j].value.pages))]
                  && l' == l.(buffers := l'.buffers, zeroed := l.zeroed - SpanOf(l.buffers[j].value))
                  && UnmapBuffer(l', j, p, handleOk, pagesMapped) == (l.(zeroed := l'.zeroed), Done))
  {
    hide BarsOk, FramesOk, RecoveryOk, IrqOk, Balanced;
    CanUseExact(l, j, p, handleOk);
    if BufferAuthorized(l, j, p, handleOk) {
      var b := l.buffers[j].value;
      var up := Some(b.(mapped := b.pages));
      assert l.buffers[j := up][j := Some(b)] == l.buffers;
    }
  }

  /** Unmapping: all pages, or exactly those that could be removed, which tears the buffer. */
  lemma UnmapBufferExact(l: Ledger, j: nat, owner: nat, unmaps: nat)
    requires Inv(l) && Live(l.buffers, j)
    ensures var (l', r) := ForceUnmapBuffer(l, j, owner, unmaps);
            var b := l.buffers[j].value;
            && (r == Done <==> Intact(b) && b.owner == owner && b.mapped <= unmaps)
            && (r == Done ==> l' == PutBuffer(l, j, b.(mapped := 0)))
            && (r != Done ==>
                  l' == if Intact(b) && b.owner == owner then PutBuffer(l, j, b.(mapped := b.mapped - unmaps)) else l)
  {
    BufferValidIffIntact(l, j);
  }

  /** Destroying a buffer gives exactly its frames back. */
  lemma DestroyBufferExact(l: Ledger, j: nat)
    requires Inv(l)
    ensures var (l', r) := DestroyBuffer(l, j);
            && (r == Done <==>
                  && Live(l.buffers, j) && Intact(l.buffers[j].value) && l.buffers[j].value.state == Ready
                  && l.buffers[j].value.mapped == 0 && l.buffers[j].value.refs == 0)
            && (r != Done ==> l' == l)
            && (r == Done ==>
                  && l'.buffers == l.buffers[j := None] && l'.free == l.free + SpanOf(l.buffers[j].value)
                  && l' == l.(assigns := l'.assigns, buffers := l'.buffers, free := l'.free))
  {
    hide BarsOk, FramesOk, RecoveryOk, IrqOk;
    if Live(l.buffers, j) {
      BufferValidIffIntact(l, j);
      HoldersCanGiveBack(l, 0, j, 0, 0);
    }
  }

  // --------------------------------------------------------- DMA submissions

  /** When a transfer may start. */
  ghost predicate CanSubmit(l: Ledger, a: nat, p: Process, assignmentOk: bool, j: nat, bufferOk: bool, offset: nat,
      size: nat) {
    && Authorized(l, a, p, assignmentOk) && CanUse(l, j, p, bufferOk)
    && !l.assigns[a].value.gate && l.assigns[a].value.pins < ACCESS_LIMIT
    && (forall i: nat :: Live(l.bars, i) && l.bars[i].value.parent == a ==> l.bars[i].value.pins == 0)
    && (exists k :: 0 <= k < |l.subs| && l.subs[k].None?)
    && var b := l.buffers[j].value;
       && b.parent == a && b.state == Ready && b.mapped == 0
       && 0 < size && offset + size <= b.pages * PAGE && b.base * PAGE + offset < U64
  }

  /** A transfer starts exactly then. It makes one submission for the buffer, owner and
      direction asked for, whose byte `i` is byte `offset + i` of the buffer, and it
      changes no other submission. Completing it takes everything back. */
  lemma BeginSubmissionExact(l: Ledger, a: nat, p: Process, assignmentOk: bool, j: nat, bufferOk: bool, offset: nat,
                             size: nat, direction: Direction)
    requires Inv(l)
    ensures var (l', r) := BeginSubmission(l, a, p, assignmentOk, j, bufferOk, offset, size, direction);
            && (r == Done <==> CanSubmit(l, a, p, assignmentOk, j, bufferOk, offset, size))
            && (r != Done ==> l' == l)
            && (r == Done ==>
                  exists k: nat ::
                    && k < |l.subs| && l.subs[k].None? && |l'.subs| == |l.subs|
                    && l'.subs == l.subs[k := l'.subs[k]] && l'.subs[k].Some?
                    && CompleteSubmission(l', k, p, true) == (l.(zeroed := l'.zeroed), Done)
                    && l'.buffers == l.buffers[j := Some(l.buffers[j].value.(held := true, state := DeviceActive))]
                    && l'.zeroed == l.zeroed - SpanOf(l.buffers[j].value)
                    && l' == l.(assigns := l'.assigns, buffers := l'.buffers, subs := l'.subs, zeroed := l'.zeroed)
                    && var s := l'.subs[k].value;
                       && s.buffer == j && s.parent == a && s.owner == p.id && s.direction == direction
                       && s.state == Active && s.size == size
                       && forall i :: 0 <= i < size ==> Address(s, i) == ByteOf(l.buffers[j].value, offset + i))
  {
    hide BarsOk, FramesOk, RecoveryOk, IrqOk;
    SubmitIff(l, a, p, assignmentOk, j, bufferOk, offset, size, direction);
    var (l', r) := BeginSubmission(l, a, p, assignmentOk, j, bufferOk, offset, size, direction);
    if r == Done {
      var k := Empty(l.subs);
      assert l'.subs == l.subs[k := l'.subs[k]];
      forall i | 0 <= i < size ensures Address(l'.subs[k].value, i) == ByteOf(l.buffers[j].value, offset + i) {
      }
      SubmitThenComplete(l, a, p, assignmentOk, j, bufferOk, offset, size, direction);
    }
  }

  /** The physical address the device uses for byte `i` of a submission. */
  function Address(s: Submission, i: nat): nat {
    s.base + i
  }

  /** The physical address of byte `i` of a buffer. */
  function ByteOf(b: Buffer, i: nat): nat {
    (b.base + i / PAGE) * PAGE + i % PAGE
  }

  lemma SubmitIff(l: Ledger, a: nat, p: Process, assignmentOk: bool, j: nat, bufferOk: bool, offset: nat, size: nat,
                  direction: Direction)
    requires Inv(l)
    ensures var (l', r) := BeginSubmission(l, a, p, assignmentOk, j, bufferOk, offset, size, direction);
            && (r == Done <==> CanSubmit(l, a, p, assignmentOk, j, bufferOk, offset, size))
            && (r != Done ==> l' == l)
  {
    hide BarsOk, FramesOk, RecoveryOk, IrqOk;
    CanUseExact(l, j, p, bufferOk);
    NoBarPins(l, a);
    if Live(l.buffers, j) {
      BufferValidIffIntact(l, j);
      hide Inv, BufferValid, BarPins, Launch, AssignmentValid;
      var slot := Empty(l.subs);
      if slot < |l.subs| && Authorized(l, a, p, assignmentOk) && l.buffers[j].value.parent == a &&
         l.buffers[j].value.state == Ready
      {
        LaunchIff(l, slot, a, p, assignmentOk, j, bufferOk, offset, size, direction);
      }
    }
  }

  lemma LaunchIff(l: Ledger, slot: nat, a: nat, p: Process, assignmentOk: bool, j: nat, bufferOk: bool, offset: nat,
                  size: nat, direction: Direction)
    requires slot < |l.subs| && Authorized(l, a, p, assignmentOk) && Live(l.buffers, j)
    requires l.buffers[j].value.parent == a && l.buffers[j].value.state == Ready
    ensures var (l', r) := Launch(l, slot, a, p, j, bufferOk, offset, size, direction);
            && (r == Done <==>
                  && !l.assigns[a].value.gate && l.assigns[a].value.pins < ACCESS_LIMIT &&
                    BufferAuthorized(l, j, p, bufferOk))
            && (r != Done ==> l' == l)
  {
    PinRoundTrips(l, a, p, true);
  }

  lemma NoBarPins(l: Ledger, a: nat)
    ensures BarPins(l, a) == 0 <==>
      forall i: nat :: Live(l.bars, i) && l.bars[i].value.parent == a ==> l.bars[i].value.pins == 0
  {
    if BarPins(l, a) == 0 {
      forall i: nat | Live(l.bars, i) && l.bars[i].value.parent == a ensures l.bars[i].value.pins == 0 {
        SumAtLeast(l.bars, i, BarPin(a));
      }
    } else {
      var i := SumPositive(l.bars, BarPin(a));
      assert Live(l.bars, i);
    }
  }

  lemma SubmitThenComplete(l: Ledger, a: nat, p: Process, assignmentOk: bool, j: nat, bufferOk: bool, offset: nat,
                           size: nat, direction: Direction)
    requires Inv(l) && BeginSubmission(l, a, p, assignmentOk, j, bufferOk, offset, size, direction).1 == Done
    ensures var l' := BeginSubmission(l, a, p, assignmentOk, j, bufferOk, offset, size, direction).0;
            CompleteSubmission(l', Empty(l.subs), p, true) == (l.(zeroed := l'.zeroed), Done)
  {
    hide BarsOk, FramesOk, RecoveryOk, IrqOk;
    var l' := BeginSubmission(l, a, p, assignmentOk, j, bufferOk, offset, size, direction).0;
    var k := Empty(l.subs);
    BeginSubmissionSafe(l, a, p, assignmentOk, j, bufferOk, offset, size, direction);
    SubmissionAlwaysValid(l', k);
    var l2 := CompleteSubmission(l', k, p, true).0;
    assert l2.assigns == l.assigns && l2.buffers == l.buffers && l2.subs == l.subs;
  }

  /** The owner of a running transfer can complete it, as long as the device is assigned. */
  lemma CompleteSubmissionExact(l: Ledger, k: nat, p: Process, handleOk: bool)
    requires Inv(l) && Live(l.subs, k)
    ensures var (l', r) := CompleteSubmission(l, k, p, handleOk);
            var s := l.subs[k].value;
            && (r == Done <==> s.state == Active && CanUse(l, s.buffer, p, handleOk))
            && (r != Done ==> l' == l)
            && (r == Done ==>
                  && l'.subs == l.subs[k := None] && |l'.buffers| == |l.buffers|
                  && l'.buffers == l.buffers[s.buffer := Some(l.buffers[s.buffer].value.(held := false,
                    state := Ready))]
                  && l' == l.(assigns := l'.assigns, buffers := l'.buffers, subs := l'.subs))
  {
    var s := l.subs[k].value;
    SubmissionAlwaysValid(l, k);
    CanUseExact(l, s.buffer, p, handleOk);
    BufferValidIffIntact(l, s.buffer);
    HoldersCanGiveBack(l, 0, s.buffer, 0, k);
    CompleteSubmissionSafe(l, k, p, handleOk);
    hide BarsOk, FramesOk, RecoveryOk, IrqOk, Balanced, BarPins;
  }

  /** Quarantining a transfer never fails: transfer, buffer and device are quarantined
      together, and nothing else changes. */
  lemma QuarantineSubmissionExact(l: Ledger, k: nat)
    requires Inv(l) && Live(l.subs, k)
    ensures var (l', r) := QuarantineSubmission(l, k);
            var s := l.subs[k].value;
            && r == Done && Live(l.assigns, s.parent) && |l'.subs| == |l.subs|
            && l'.subs == l.subs[k := Some(s.(state := SubmissionQuarantined))]
            && l'.buffers == l.buffers[s.buffer := Some(l.buffers[s.buffer].value.(state := BufferQuarantined))]
            && l'.assigns == l.assigns[s.parent := Some(l.assigns[s.parent].value.(state := Quarantined))]
            && l' == l.(assigns := l'.assigns, buffers := l'.buffers, subs := l'.subs)
  {
    hide BarsOk, FramesOk, RecoveryOk, IrqOk, Balanced, BarPins;
    SubmissionAlwaysValid(l, k);
    var s := l.subs[k].value;
    var l' := QuarantineSubmission(l, k).0;
    assert l'.subs == l.subs[k := Some(s.(state := SubmissionQuarantined))];
    assert l'.buffers == l.buffers[s.buffer := Some(l.buffers[s.buffer].value.(state := BufferQuarantined))];
    assert l'.assigns == l.assigns[s.parent := Some(l.assigns[s.parent].value.(state := Quarantined))];
  }

  /** A quarantined transfer is closed only after its buffer has been zeroed. */
  lemma ResetSubmissionExact(l: Ledger, k: nat, zeroOk: bool)
    requires Inv(l) && Live(l.subs, k)
    ensures var (l', r) := ResetSubmission(l, k, zeroOk);
            var s := l.subs[k].value;
            && (r == Done <==> s.state == SubmissionQuarantined && zeroOk)
            && (r != Done ==> l' == l)
            && (r == Done ==>
                  && Live(l.buffers, s.buffer) && l'.subs == l.subs[k := None]
                  && l'.buffers == l.buffers[s.buffer := Some(l.buffers[s.buffer].value.(held := false,
                    state := Ready))]
                  && l'.zeroed == l.zeroed + SpanOf(l.buffers[s.buffer].value)
                  && l' == l.(assigns := l'.assigns, buffers := l'.buffers, subs := l'.subs, zeroed := l'.zeroed))
  {
    var s := l.subs[k].value;
    SubmissionAlwaysValid(l, k);
    BufferValidIffIntact(l, s.buffer);
    HoldersCanGiveBack(l, 0, s.buffer, 0, k);
    ResetSubmissionSafe(l, k, zeroOk);
    hide BarsOk, BuffersOk, FramesOk, RecoveryOk, IrqOk, Balanced, BarPins, Inv;
  }

  // ------------------------------------------------------ interrupt resources

  /** A new interrupt resource belongs to the device and owner asked for and is disarmed. */
  lemma CreateIrqExact(l: Ledger, a: nat, p: Process, handleOk: bool, resourceOk: bool, buildOk: bool)
    requires Inv(l)
    ensures var (l', r) := CreateIrq(l, a, p, handleOk, resourceOk, buildOk);
            && (r == Done <==>
                  && Authorized(l, a, p, handleOk) && l.assigns[a].value.kids < CHILD_LIMIT
                  && (exists q :: 0 <= q < |l.irqs| && l.irqs[q].None?) && resourceOk && buildOk && l.nextRid != 0)
            && (r != Done ==> l' == l.(nextRid := l'.nextRid))
            && (r == Done ==>
                  exists q: nat ::
                    && q < |l.irqs| && l.irqs[q].None? && |l'.irqs| == |l.irqs|
                    && l'.irqs == l.irqs[q := l'.irqs[q]] && l'.irqs[q].Some?
                    && l'.assigns == l.assigns[a := Some(l.assigns[a].value.(kids := l.assigns[a].value.kids + 1))]
                    && l' == l.(assigns := l'.assigns, irqs := l'.irqs, nextRid := l'.nextRid)
                    && var x := l'.irqs[q].value;
                       && x.parent == a && x.owner == p.id && !x.held && x.refs == 1 && x.rid == l.nextRid
                       && x.events == IrqEvents.Fresh)
  {
    hide BarsOk, BuffersOk, FramesOk, RecoveryOk, IrqOk, Balanced;
    if ChildAcquire(l, a, p, handleOk).Some? {
      var l1 := ChildAcquire(l, a, p, handleOk).value;
      UndoSafe(l, l1, a, p, handleOk, l1.nextRid, l1.zeroed);
      UndoSafe(l, l1, a, p, handleOk, NextRid(l1.nextRid), l1.zeroed);
      var q := Empty(l.irqs);
      var (l', r) := CreateIrq(l, a, p, handleOk, resourceOk, buildOk);
      if r == Done {
        assert l'.irqs == l.irqs[q := l'.irqs[q]];
      }
    }
  }

  /** The caller owns the interrupt on an assigned device. */
  predicate CanDrive(l: Ledger, q: nat, p: Process, handleOk: bool) {
    && p.ready && !p.kernel && handleOk && Live(l.irqs, q) && p.id == l.irqs[q].value.owner
    && Live(l.assigns, l.irqs[q].value.parent) && l.assigns[l.irqs[q].value.parent].value.state == Assigned
  }

  /** Only the event state of interrupt `q` differs, and it is what `events` says. */
  predicate Steps(l: Ledger, l': Ledger, q: nat, events: IrqEvents.Irq) {
    Live(l.irqs, q) && l' == PutIrq(l, q, l.irqs[q].value.(events := events))
  }

  /** Signals and the owner's answers reach the delivery state of that interrupt and of no
      other: a signal on an assigned device always does, an acknowledgement or a storm
      recovery exactly when the owner asks and the delivery state allows it. */
  lemma DeliveryExact(l: Ledger, q: nat, p: Process, handleOk: bool, accepted: bool, sequence: nat)
    requires Inv(l) && Live(l.irqs, q)
    ensures var x := l.irqs[q].value;
            && Live(l.assigns, x.parent)
            && (if l.assigns[x.parent].value.state == Assigned then
                  Steps(l, SignalIrq(l, q, accepted).0, q, IrqEvents.Signal(x.events, accepted))
                else SignalIrq(l, q, accepted) == (l, Refused))
            && (if CanDrive(l, q, p, handleOk) && IrqEvents.CanAcknowledge(x.events, sequence) then
                  Steps(l, AcknowledgeIrq(l, q, p, handleOk, sequence).0, q, IrqEvents.Acknowledge(x.events, sequence))
                else AcknowledgeIrq(l, q, p, handleOk, sequence) == (l, Refused))
            && (if CanDrive(l, q, p, handleOk) && IrqEvents.CanRecoverStorm(x.events) then
                  Steps(l, RecoverIrqStorm(l, q, p, handleOk).0, q, IrqEvents.RecoverStorm(x.events))
                else RecoverIrqStorm(l, q, p, handleOk) == (l, Refused))
            && Steps(l, TakeIrqEvent(l, q).0, q, IrqEvents.Take(x.events))
            && Steps(l, CloseIrqEvents(l, q).0, q, IrqEvents.Close(x.events))
  {
    hide BarsOk, BuffersOk, FramesOk, RecoveryOk, IrqOk, Balanced;
    IrqAlwaysValid(l, q);
  }

  /** Arming takes one access pin for a disarmed interrupt of the caller; disarming it by
      its owner always works and gives the pin back. */
  lemma ArmExact(l: Ledger, q: nat, p: Process, handleOk: bool)
    requires Inv(l) && Live(l.irqs, q)
    ensures var (l', r) := ArmIrq(l, q, p, handleOk);
            var x := l.irqs[q].value;
            && Live(l.assigns, x.parent)
            && (r == Done <==>
                  && CanDrive(l, q, p, handleOk) && x.events.phase == IrqEvents.Disarmed
                  && l.assigns[x.parent].value.pins < ACCESS_LIMIT)
            && (r != Done ==> l' == l)
            && (r == Done ==>
                  && Live(l'.irqs, q) && l'.irqs[q].value.events == IrqEvents.Arm(x.events) && l'.irqs[q].value.held
                  && l' == l.(assigns := l'.assigns, irqs := l.irqs[q := l'.irqs[q]])
                  && var (l2, r2) := ForceDisarmIrq(l', q, x.owner);
                     && r2 == Done && l2.assigns == l.assigns
                     && l2 == l.(irqs := l.irqs[q := Some(x.(events := IrqEvents.Disarm(IrqEvents.Arm(x.events))))]))
  {
    IrqAlwaysValid(l, q);
    ArmIrqSafe(l, q, p, handleOk);
    hide BarsOk, BuffersOk, FramesOk, RecoveryOk, Balanced;
    var (l', r) := ArmIrq(l, q, p, handleOk);
    if r == Done {
      var x := l.irqs[q].value;
      IrqAlwaysValid(l', q);
      var l2 := ForceDisarmIrq(l', q, x.owner).0;
      assert l2.assigns == l.assigns;
      assert l2.irqs == l.irqs[q := Some(x.(events := IrqEvents.Disarm(IrqEvents.Arm(x.events))))];
    }
  }

  /** The owner's disarm always succeeds, whatever the delivery state. */
  lemma DisarmExact(l: Ledger, q: nat, owner: nat)
    requires Inv(l) && Live(l.irqs, q)
    ensures var (l', r) := ForceDisarmIrq(l, q, owner);
            var x := l.irqs[q].value;
            && (r == Done <==> owner == x.owner)
            && (r != Done ==> l' == l)
            && (r == Done ==>
                  && Live(l'.irqs, q) && l'.irqs[q].value.events == IrqEvents.Disarm(x.events) && !l'.irqs[q].value.held
                  && l' == l.(assigns := l'.assigns, irqs := l.irqs[q := l'.irqs[q]]))
  {
    IrqAlwaysValid(l, q);
    HoldersCanGiveBack(l, 0, 0, q, 0);
    ForceDisarmIrqSafe(l, q, owner);
    hide BarsOk, BuffersOk, FramesOk, RecoveryOk, Balanced;
  }

  // ------------------------------------------------------------------ destruction

  /** A record is destroyed exactly when nothing uses it any more; its device loses one
      child, or, for an assignment, is gone. */
  lemma DestroyExact(l: Ledger, a: nat, i: nat, q: nat, endpointIdle: bool)
    requires Inv(l)
    ensures DestroyAssignment(l, a) ==
      if Live(l.assigns, a) && l.assigns[a].value.state == Available && l.assigns[a].value.refs == 0
      then (l.(assigns := l.assigns[a := None]), Done) else (l, Refused)
    ensures DestroyBar(l, i) ==
      if Live(l.bars, i) && l.bars[i].value.pins == 0 && l.bars[i].value.refs == 0
      then (Childless(l.(bars := l.bars[i := None]), l.bars[i].value.parent), Done) else (l, Refused)
    ensures DestroyIrq(l, q, endpointIdle) ==
      if && Live(l.irqs, q) && l.irqs[q].value.events.phase == IrqEvents.Disarmed && l.irqs[q].value.refs == 0
         && l.irqs[q].value.events.mail.None? && endpointIdle
      then (Childless(l.(irqs := l.irqs[q := None]), l.irqs[q].value.parent), Done) else (l, Refused)
  {
    hide BuffersOk, FramesOk, RecoveryOk, Balanced;
    if Live(l.bars, i) {
      BarAlwaysValid(l, i);
    }
    if Live(l.irqs, q) {
      IrqAlwaysValid(l, q);
    }
    HoldersCanGiveBack(l, i, 0, q, 0);
  }

  /** The device has one child less. */
  function Childless(l: Ledger, a: nat): Ledger {
    if Live(l.assigns, a) && l.assigns[a].value.kids > 0
    then Put(l, a, l.assigns[a].value.(kids := l.assigns[a].value.kids - 1)) else l
  }

  /** Quarantine on request needs a device at rest; forced quarantine needs only an owner.
      Both change nothing but the state. */
  lemma QuarantineExact(l: Ledger, a: nat, owner: nat)
    requires Inv(l)
    ensures Quarantine(l, a, owner) ==
      if && Live(l.assigns, a) && owner != 0 && l.assigns[a].value.owner == owner
         && l.assigns[a].value.state != Quarantined && l.assigns[a].value.pins == 0 && !l.assigns[a].value.gate
      then (Put(l, a, l.assigns[a].value.(state := Quarantined)), Done) else (l, Refused)
    ensures ForceQuarantine(l, a, owner) ==
      if Live(l.assigns, a) && owner != 0 && l.assigns[a].value.owner == owner
      then Some(Put(l, a, l.assigns[a].value.(state := Quarantined))) else None
  {
    hide BarsOk, BuffersOk, FramesOk, RecoveryOk, IrqOk, Balanced;
  }
}
