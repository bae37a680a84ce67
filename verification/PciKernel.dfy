/**
 The ledger as the kernel keeps it: registries and counters that the operations
 update in place, with the kernel's own loops and rollbacks. Every operation is
 proved to make the step of the corresponding function on ledger values.
 */
module PciKernel {
  import opened FrameSpans
  import opened Slots
  import opened PciLedger
  import opened PciRecovery
  import opened PciInvariant
  import opened PciEdits
  import opened PciOperations
  import opened PciSweeps
  import opened PciRecoverySafety
  import IrqEvents

  /** A call that may be refused: on success the ledger is the given one. */
  predicate Took(step: Option<Ledger>, was: Ledger, now: Ledger, ok: bool) {
    ok == step.Some? && now == (if ok then step.value else was)
  }

  function Clamp32(n: nat): nat {
    if n > 0xFFFF_FFFF then 0xFFFF_FFFF else n
  }

  class Kernel {
    var assigns: Registry<Assignment>
    var bars: Registry<Bar>
    var maps: Registry<Mapping>
    var buffers: Registry<Buffer>
    var subs: Registry<Submission>
    var irqs: Registry<Irq>
    var recs: Registry<Recovery>
    var nextRid: nat
    var free: set<nat>
    var zeroed: set<nat>
    var serial: nat
    var flights: seq<Flight>

    function View(): Ledger
      reads this
    {
      Ledger(assigns, bars, maps, buffers, subs, irqs, recs, nextRid, free, zeroed, serial, flights)
    }

    // ----------------------------------------------------------- assignments

    method TakeChild(a: nat, p: Process, handleOk: bool) returns (ok: bool)
      modifies `assigns
      ensures Took(ChildAcquire(old(View()), a, p, handleOk), old(View()), View(), ok)
    {
      ok := Authorized(View(), a, p, handleOk) && assigns[a].value.kids < CHILD_LIMIT;
      if ok {
        assigns := assigns[a := Some(assigns[a].value.(kids := assigns[a].value.kids + 1))];
      }
    }

    method DropChild(a: nat, owner: nat) returns (ok: bool)
      modifies `assigns
      ensures Took(ChildRelease(old(View()), a, owner), old(View()), View(), ok)
    {
      ok := Owned(View(), a, owner) && assigns[a].value.state != Available && assigns[a].value.kids != 0;
      if ok {
        assigns := assigns[a := Some(assigns[a].value.(kids := assigns[a].value.kids - 1))];
      }
    }

    method TakeAccess(a: nat, owner: nat) returns (ok: bool)
      modifies `assigns
      ensures Took(AccessAcquire(old(View()), a, owner), old(View()), View(), ok)
    {
      ok := Owned(View(), a, owner) && assigns[a].value.state == Assigned && assigns[a].value.pins < ACCESS_LIMIT;
      if ok {
        assigns := assigns[a := Some(assigns[a].value.(pins := assigns[a].value.pins + 1))];
      }
    }

    method DropAccess(a: nat, owner: nat) returns (ok: bool)
      modifies `assigns
      ensures Took(AccessRelease(old(View()), a, owner), old(View()), View(), ok)
    {
      ok := Owned(View(), a, owner) && assigns[a].value.state != Available && assigns[a].value.pins != 0;
      if ok {
        assigns := assigns[a := Some(assigns[a].value.(pins := assigns[a].value.pins - 1))];
      }
    }

    method CloseGate(a: nat, owner: nat) returns (ok: bool)
      modifies `assigns
      ensures Took(GateAcquire(old(View()), a, owner), old(View()), View(), ok)
    {
      ok := Owned(View(), a, owner) && assigns[a].value.state == Assigned && !assigns[a].value.gate;
      if ok {
        assigns := assigns[a := Some(assigns[a].value.(gate := true))];
      }
    }

    method OpenGate(a: nat, owner: nat) returns (ok: bool)
      modifies `assigns
      ensures Took(GateRelease(old(View()), a, owner), old(View()), View(), ok)
    {
      ok := Owned(View(), a, owner) && (assigns[a].value.state == Assigned || assigns[a].value.state == Quarantined) &&
        assigns[a].value.gate;
      if ok {
        assigns := assigns[a := Some(assigns[a].value.(gate := false))];
      }
    }

    method QuarantineNow(a: nat, owner: nat) returns (ok: bool)
      modifies `assigns
      ensures Took(ForceQuarantine(old(View()), a, owner), old(View()), View(), ok)
    {
      ok := Owned(View(), a, owner) && assigns[a].value.state != Available;
      if ok {
        assigns := assigns[a := Some(assigns[a].value.(state := Quarantined))];
      }
    }

    method EndQuarantine(a: nat, owner: nat) returns (ok: bool)
      modifies `assigns
      ensures Took(CompleteQuarantine(old(View()), a, owner), old(View()), View(), ok)
    {
      ok := Owned(View(), a, owner) && assigns[a].value.state == Quarantined && assigns[a].value.kids == 0 &&
        assigns[a].value.pins == 0 && !assigns[a].value.gate && assigns[a].value.refs == 0;
      if ok {
        assigns := assigns[a := Some(assigns[a].value.(owner := 0, exposed := false, state := Available))];
      }
    }

    // --------------------------------------------------------- BAR resources

    /** Sum the access counts of an assignment's BARs, clamped to 32 bits. */
    method CountBarPins(a: nat) returns (count: nat)
      requires |bars| == BARS && forall i: nat :: Live(bars, i) ==> BarValid(View(), i)
      ensures count == BarPins(View(), a)
    {
      count := 0;
      var i := 0;
      while i < |bars|
        invariant 0 <= i <= |bars|
        invariant count == Sum(bars[..i], BarPin(a))
        invariant count <= i * ACCESS_LIMIT
      {
        SumSnoc(bars, i, BarPin(a));
        if bars[i].Some? && BarValid(View(), i) && bars[i].value.parent == a {
          count := Clamp32(count + bars[i].value.pins);
        }
        i := i + 1;
      }
      assert bars[..|bars|] == bars;
    }

    method TakeBar(i: nat, p: Process, handleOk: bool) returns (ok: bool)
      modifies `assigns, `bars
      ensures Took(BarAcquire(old(View()), i, p, handleOk), old(View()), View(), ok)
    {
      ok := BarValid(View(), i) && bars[i].value.bounded && bars[i].value.pins < ACCESS_LIMIT &&
        !assigns[bars[i].value.parent].value.gate && BarAuthorized(View(), i, p, handleOk);
      if ok {
        ok := TakeAccess(bars[i].value.parent, bars[i].value.owner);
      }
      if ok {
        bars := bars[i := Some(bars[i].value.(pins := bars[i].value.pins + 1))];
      }
    }

    method DropBar(i: nat, owner: nat) returns (ok: bool)
      modifies `assigns, `bars
      ensures Took(BarRelease(old(View()), i, owner), old(View()), View(), ok)
    {
      ok := BarValid(View(), i) && bars[i].value.owner == owner && bars[i].value.pins != 0;
      if ok {
        ok := DropAccess(bars[i].value.parent, owner);
      }
      if ok {
        bars := bars[i := Some(bars[i].value.(pins := bars[i].value.pins - 1))];
      }
    }

    method MakeBar(a: nat, p: Process, handleOk: bool, index: nat, probe: Probe, resourceOk: bool, insertOk: bool)
      returns (res: Result)
      modifies `assigns, `bars, `nextRid
      ensures (View(), res) == CreateBar(old(View()), a, p, handleOk, index, probe, resourceOk, insertOk)
    {
      if index >= BAR_INDEXES || BarTaken(bars, a, index) {
        return Refused;
      }
      var ok := TakeChild(a, p, handleOk);
      if !ok {
        return Refused;
      }
      var slot := FindEmpty(bars);
      if !probe.Absent? && !(probe.Sized? && probe.size == 0) && slot < |bars| && resourceOk && nextRid != 0 {
        var rid := nextRid;
        nextRid := NextRid(nextRid);
        if insertOk {
          bars := bars[slot := Some(Bar(a, assigns[a].value.rid, rid, 1, p.id, index, probe.io, probe.Sized?,
            probe.base,
                                        if probe.Sized? then probe.size else 0, 0))];
          return Done;
        }
      }
      ok := DropChild(a, p.id);
      return if ok then Refused else Halt;
    }

    method RemoveBar(i: nat) returns (res: Result)
      requires Inv(View())
      modifies `assigns, `bars
      ensures (View(), res) == DestroyBar(old(View()), i)
    {
      if !BarValid(View(), i) || bars[i].value.pins != 0 || bars[i].value.refs != 0 {
        return Refused;
      }
      DestroyBarSafe(View(), i);
      var b := bars[i].value;
      bars := bars[i := None];
      var ok := DropChild(b.parent, b.owner);
      return if ok then Done else Halt;
    }

    /** One port read or write between taking and dropping the access. */
    method AccessPort(i: nat, p: Process, handleOk: bool, offset: nat, width: nat) returns (res: Result)
      modifies `assigns, `bars
      ensures (View(), res) == PortAccess(old(View()), i, p, handleOk, offset, width)
    {
      if !BarValid(View(), i) || !PortWindow(bars[i].value, offset, width) {
        return Refused;
      }
      var ok := TakeBar(i, p, handleOk);
      if !ok {
        return Refused;
      }
      ok := DropBar(i, p.id);
      return if ok then Done else Halt;
    }

    method Map(i: nat, p: Process, handleOk: bool, offset: nat, size: nat, pagesMapped: nat) returns (res: Result)
      modifies `assigns, `bars, `maps
      ensures (View(), res) == MapMmio(old(View()), i, p, handleOk, offset, size, pagesMapped)
    {
      var slot := FindEmpty(maps);
      if !BarValid(View(), i) || !Window(bars[i].value, offset, size) || slot == |maps| {
        return Refused;
      }
      var pages := size / PAGE;
      var physical := bars[i].value.base + offset;
      var ok := TakeBar(i, p, handleOk);
      if !ok {
        return Refused;
      }
      if pagesMapped < pages {
        ok := DropBar(i, p.id);
        return if ok then Refused else Halt;
      }
      maps := maps[slot := Some(Mapping(i, bars[i].value.rid, p.id, physical, pages, pages))];
      return Done;
    }

    method Unmap(m: nat, unmaps: nat) returns (res: Result)
      requires Inv(View())
      modifies `assigns, `bars, `maps
      ensures (View(), res) == UnmapMmio(old(View()), m, unmaps)
    {
      if !MappingValid(View(), m) {
        return Refused;
      }
      UnmapMmioSafe(View(), m, unmaps);
      hide Inv;
      var x := maps[m].value;
      var left := unmaps;
      while maps[m].value.mapped > 0
        invariant View() == old(View()).(maps := maps) && Live(maps, m)
        invariant maps == old(maps)[m := Some(x.(mapped := maps[m].value.mapped))]
        invariant maps[m].value.mapped + (unmaps - left) == x.mapped && 0 <= left <= unmaps
        decreases maps[m].value.mapped
      {
        if left == 0 {
          return Refused;
        }
        left := left - 1;
        maps := maps[m := Some(maps[m].value.(mapped := maps[m].value.mapped - 1))];
      }
      maps := maps[m := None];
      assert maps == old(maps)[m := None];
      var ok := DropBar(x.bar, x.owner);
      return if ok then Done else Halt;
    }

    // ----------------------------------------------------------- DMA buffers

    method MakeBuffer(a: nat, p: Process, handleOk: bool, pages: nat, base: nat, resourceOk: bool, zeroOk: bool,
        insertOk: bool)
      returns (res: Result)
      modifies `assigns, `buffers, `nextRid, `free, `zeroed
      ensures (View(), res) == CreateBuffer(old(View()), a, p, handleOk, pages, base, resourceOk, zeroOk, insertOk)
    {
      if pages == 0 || pages > BUFFER_MAX_PAGES {
        return Refused;
      }
      var ok := TakeChild(a, p, handleOk);
      if !ok {
        return Refused;
      }
      var slot := FindEmpty(buffers);
      var span := Span(base, pages);
      if slot < |buffers| && base != 0 && span <= free {
        free := free - span;
        if resourceOk && nextRid != 0 {
          var rid := nextRid;
          nextRid := NextRid(nextRid);
          var was := buffers;
          buffers := buffers[slot := Some(Buffer(a, assigns[a].value.rid, rid, 1, p.id, p.kernel, base, pages, 0, Ready,
            false))];
          if zeroOk {
            zeroed := zeroed + span;
            if insertOk {
              return Done;
            }
          }
          buffers := buffers[slot := None];
          assert buffers == was;
        }
        free := free + span;
      }
      assert free == old(free);
      ok := DropChild(a, p.id);
      return if ok then Refused else Halt;
    }

    method MapForCpu(j: nat, p: Process, handleOk: bool, pagesMapped: nat) returns (res: Result)
      modifies `buffers, `zeroed
      ensures (View(), res) == MapBuffer(old(View()), j, p, handleOk, pagesMapped)
    {
      if !BufferAuthorized(View(), j, p, handleOk) || buffers[j].value.state != Ready || buffers[j].value.mapped != 0 ||
         pagesMapped < buffers[j].value.pages
      {
        return Refused;
      }
      zeroed := zeroed - SpanOf(buffers[j].value);
      buffers := buffers[j := Some(buffers[j].value.(mapped := buffers[j].value.pages))];
      return Done;
    }

    method ForceUnmap(j: nat, owner: nat, unmaps: nat) returns (res: Result)
      modifies `buffers
      ensures (View(), res) == ForceUnmapBuffer(old(View()), j, owner, unmaps)
    {
      if !BufferValid(View(), j) || buffers[j].value.owner != owner {
        return Refused;
      }
      var b := buffers[j].value;
      var left := unmaps;
      while buffers[j].value.mapped > 0
        invariant View() == old(View()).(buffers := buffers) && Live(buffers, j)
        invariant buffers == old(buffers)[j := Some(b.(mapped := buffers[j].value.mapped))]
        invariant buffers[j].value.mapped + (unmaps - left) == b.mapped && 0 <= left <= unmaps
        decreases buffers[j].value.mapped
      {
        if left == 0 {
          return Refused;
        }
        left := left - 1;
        buffers := buffers[j := Some(buffers[j].value.(mapped := buffers[j].value.mapped - 1))];
      }
      assert View() == PutBuffer(old(View()), j, b.(mapped := 0));
      return Done;
    }

    method BeginDevice(j: nat, p: Process, handleOk: bool) returns (ok: bool)
      modifies `assigns, `buffers, `zeroed
      ensures Took(DeviceBegin(old(View()), j, p, handleOk), old(View()), View(), ok)
    {
      ok := BufferAuthorized(View(), j, p, handleOk) && buffers[j].value.state == Ready && !buffers[j].value.held;
      if ok {
        ok := TakeAccess(buffers[j].value.parent, buffers[j].value.owner);
      }
      if ok {
        zeroed := zeroed - SpanOf(buffers[j].value);
        buffers := buffers[j := Some(buffers[j].value.(held := true, state := DeviceActive))];
      }
    }

    method CompleteDevice(j: nat, p: Process, handleOk: bool) returns (ok: bool)
      modifies `assigns, `buffers
      ensures Took(DeviceComplete(old(View()), j, p, handleOk), old(View()), View(), ok)
    {
      ok := BufferAuthorized(View(), j, p, handleOk) && buffers[j].value.state == DeviceActive && buffers[j].value.held;
      if ok {
        ok := DropAccess(buffers[j].value.parent, buffers[j].value.owner);
      }
      if ok {
        buffers := buffers[j := Some(buffers[j].value.(held := false, state := Ready))];
      }
    }

    method ResetAfterQuarantine(j: nat, owner: nat, zeroOk: bool) returns (ok: bool)
      modifies `assigns, `buffers, `zeroed
      ensures Took(ResetBuffer(old(View()), j, owner, zeroOk), old(View()), View(), ok)
    {
      ok := BufferValid(View(), j) && buffers[j].value.owner == owner && buffers[j].value.state == BufferQuarantined &&
        buffers[j].value.held && buffers[j].value.mapped == 0 &&
          InState(View(), buffers[j].value.parent, Quarantined) && zeroOk;
      if ok {
        ok := DropAccess(buffers[j].value.parent, owner);
      }
      if ok {
        zeroed := zeroed + SpanOf(buffers[j].value);
        buffers := buffers[j := Some(buffers[j].value.(held := false, state := Ready))];
      }
    }

    method RemoveBuffer(j: nat) returns (res: Result)
      modifies `assigns, `buffers, `free
      ensures (View(), res) == DestroyBuffer(old(View()), j)
    {
      if !BufferValid(View(), j) || buffers[j].value.state != Ready || buffers[j].value.held ||
        buffers[j].value.mapped != 0 ||
         buffers[j].value.refs != 0
      {
        return Refused;
      }
      var b := buffers[j].value;
      free := free + SpanOf(b);
      buffers := buffers[j := None];
      var ok := DropChild(b.parent, b.owner);
      return if ok then Done else Halt;
    }

    method QuarantineInUse(j: nat, owner: nat) returns (ok: bool)
      modifies `assigns, `buffers
      ensures Took(QuarantineBuffer(old(View()), j, owner), old(View()), View(), ok)
    {
      if !BufferValid(View(), j) || buffers[j].value.owner != owner {
        return false;
      }
      var b := buffers[j].value;
      var state := assigns[b.parent].value.state;
      if b.state == BufferQuarantined {
        return state == Quarantined;
      }
      if b.state == Ready {
        if state != Assigned {
          return false;
        }
        ok := TakeAccess(b.parent, owner);
        if !ok {
          return false;
        }
        b := b.(held := true);
      } else if state != Assigned && state != Quarantined {
        return false;
      }
      if state != Quarantined {
        ok := QuarantineNow(b.parent, owner);
      }
      assert View().assigns == ForceQuarantine(View(), b.parent, owner).value.assigns;
      buffers := buffers[j := Some(b.(state := BufferQuarantined))];
      return true;
    }

    // ------------------------------------------------------- DMA submissions

    method CheckSubmission(k: nat) returns (ok: bool)
      requires |bars| == BARS && forall i: nat :: Live(bars, i) ==> BarValid(View(), i)
      ensures ok == SubmissionValid(View(), k)
    {
      if !Live(subs, k) {
        return false;
      }
      var s := subs[k].value;
      if s.owner == 0 || s.base == 0 || s.size == 0 || !Known(View(), s.parent) || !BufferValid(View(), s.buffer) ||
         assigns[s.parent].value.rid != s.prid || !assigns[s.parent].value.gate
      {
        return false;
      }
      var b := buffers[s.buffer].value;
      if b.parent != s.parent || b.owner != s.owner || b.rid != s.brid || s.base < b.base * PAGE ||
         s.base - b.base * PAGE > b.pages * PAGE || s.size > b.pages * PAGE - (s.base - b.base * PAGE)
      {
        return false;
      }
      if s.state == SubmissionQuarantined {
        return assigns[s.parent].value.state == Quarantined && b.state == BufferQuarantined;
      }
      var count := CountBarPins(s.parent);
      return (assigns[s.parent].value.state == Assigned || assigns[s.parent].value.state == Quarantined) &&
        b.state == DeviceActive && b.mapped == 0 && count == 0;
    }

    method Submit(a: nat, p: Process, assignmentOk: bool, j: nat, bufferOk: bool, offset: nat, size: nat,
        direction: Direction)
      returns (res: Result)
      requires Inv(View())
      modifies `assigns, `buffers, `zeroed, `subs
      ensures (View(), res) == BeginSubmission(old(View()), a, p, assignmentOk, j, bufferOk, offset, size, direction)
    {
      if size == 0 || !Authorized(View(), a, p, assignmentOk) || !BufferValid(View(), j) ||
        buffers[j].value.parent != a ||
         buffers[j].value.owner != p.id || buffers[j].value.state != Ready || buffers[j].value.mapped != 0
      {
        return Refused;
      }
      AllBarsValid(View());
      hide Inv, BarPins, Launch;
      var count := CountBarPins(a);
      if count != 0 {
        return Refused;
      }
      var b := buffers[j].value;
      if offset >= b.pages * PAGE || size > b.pages * PAGE - offset || b.base * PAGE > U64 - 1 - offset {
        return Refused;
      }
      var slot := FindEmpty(subs);
      if slot >= |subs| {
        return Refused;
      }
      res := LaunchOne(slot, a, p, j, bufferOk, offset, size, direction);
    }

    method LaunchOne(slot: nat, a: nat, p: Process, j: nat, bufferOk: bool, offset: nat, size: nat,
        direction: Direction)
      returns (res: Result)
      requires slot < |subs| && Live(assigns, a) && Live(buffers, j)
      modifies `assigns, `buffers, `zeroed, `subs
      ensures (View(), res) == Launch(old(View()), slot, a, p, j, bufferOk, offset, size, direction)
    {
      var base, rid := buffers[j].value.base * PAGE, buffers[j].value.rid;
      var ok := CloseGate(a, p.id);
      if !ok {
        return Refused;
      }
      ok := BeginDevice(j, p, bufferOk);
      if !ok {
        ok := OpenGate(a, p.id);
        return if ok then Refused else Halt;
      }
      subs := subs[slot := Some(Submission(a, assigns[a].value.rid, j, rid, p.id, base + offset, size, direction,
        Active))];
      return Done;
    }

    method FinishSubmission(k: nat) returns (res: Result)
      requires Live(subs, k)
      modifies `assigns, `subs
      ensures (View(), res) == CloseSubmission(old(View()), k, old(subs[k].value))
    {
      var ok := OpenGate(subs[k].value.parent, subs[k].value.owner);
      if !ok {
        return Halt;
      }
      subs := subs[k := None];
      return Done;
    }

    method Complete(k: nat, p: Process, handleOk: bool) returns (res: Result)
      requires Inv(View())
      modifies `assigns, `buffers, `subs
      ensures (View(), res) == CompleteSubmission(old(View()), k, p, handleOk)
    {
      AllBarsValid(View());
      hide Inv;
      var ok := CheckSubmission(k);
      if !ok || subs[k].value.state != Active || p.id != subs[k].value.owner {
        return Refused;
      }
      ok := CompleteDevice(subs[k].value.buffer, p, handleOk);
      if !ok {
        return Refused;
      }
      res := FinishSubmission(k);
    }

    /** The kernel checks the submission again after quarantining it; the check
        never fails. */
    method Quarantine(k: nat) returns (res: Result)
      requires Inv(View())
      modifies `assigns, `buffers, `subs
      ensures Inv(View())
      ensures (View(), res) == QuarantineSubmission(old(View()), k)
    {
      QuarantineSubmissionSafe(View(), k);
      AllBarsValid(View());
      hide Inv;
      var ok := CheckSubmission(k);
      if !ok {
        return Refused;
      }
      if subs[k].value.state == SubmissionQuarantined {
        return Done;
      }
      ok := QuarantineInUse(subs[k].value.buffer, subs[k].value.owner);
      if !ok {
        return Refused;
      }
      subs := subs[k := Some(subs[k].value.(state := SubmissionQuarantined))];
      AllBarsValid(View());
      SubmissionAlwaysValid(View(), k);
      ok := CheckSubmission(k);
      return if ok then Done else Refused;
    }

    method ResetOne(k: nat, zeroOk: bool) returns (res: Result)
      requires Inv(View())
      modifies `assigns, `buffers, `zeroed, `subs
      ensures Inv(View())
      ensures (View(), res) == ResetSubmission(old(View()), k, zeroOk)
    {
      ResetSubmissionSafe(View(), k, zeroOk);
      AllBarsValid(View());
      hide Inv;
      var ok := CheckSubmission(k);
      if !ok || subs[k].value.state != SubmissionQuarantined {
        return Refused;
      }
      ok := ResetAfterQuarantine(subs[k].value.buffer, subs[k].value.owner, zeroOk);
      if !ok {
        return Refused;
      }
      res := FinishSubmission(k);
    }

    method CountSubmissions(a: nat) returns (count: nat)
      requires Inv(View())
      ensures count == Sum(subs, SubOf(a))
    {
      AllBarsValid(View());
      AllSubmissionsValid(View());
      hide Inv, SubmissionValid;
      count := 0;
      var k := 0;
      while k < |subs|
        invariant 0 <= k <= |subs|
        invariant count == Sum(subs[..k], SubOf(a))
      {
        SumSnoc(subs, k, SubOf(a));
        var ok := CheckSubmission(k);
        if ok && subs[k].value.parent == a {
          count := count + 1;
        }
        k := k + 1;
      }
      assert subs[..|subs|] == subs;
    }

    // ---------------------------------------------------- interrupt resources

    method Arm(q: nat, p: Process, handleOk: bool) returns (res: Result)
      modifies `assigns, `irqs
      ensures (View(), res) == ArmIrq(old(View()), q, p, handleOk)
    {
      if !IrqAuthorized(View(), q, p, handleOk) || irqs[q].value.events.phase != IrqEvents.Disarmed {
        return Refused;
      }
      var ok := TakeAccess(irqs[q].value.parent, irqs[q].value.owner);
      if !ok {
        return Refused;
      }
      irqs := irqs[q := Some(irqs[q].value.(held := true, events := IrqEvents.Arm(irqs[q].value.events)))];
      return Done;
    }

    method ForceDisarm(q: nat, owner: nat) returns (res: Result)
      requires Inv(View())
      modifies `assigns, `irqs
      ensures Inv(View())
      ensures (View(), res) == ForceDisarmIrq(old(View()), q, owner)
    {
      ForceDisarmIrqSafe(View(), q, owner);
      hide Inv;
      if !IrqValid(View(), q) || irqs[q].value.owner != owner {
        return Refused;
      }
      if irqs[q].value.events.phase == IrqEvents.Disarmed {
        return Done;
      }
      irqs := irqs[q := Some(irqs[q].value.(events := IrqEvents.Disarm(irqs[q].value.events)))];
      var ok := DropAccess(irqs[q].value.parent, owner);
      if !ok {
        return Halt;
      }
      irqs := irqs[q := Some(irqs[q].value.(held := false))];
      assert View() == ForceDisarmIrq(old(View()), q, owner).0;
      return Done;
    }

    // --------------------------------------------------- per-assignment passes

    method VisitMapping(m: nat, a: nat, owner: nat, faults: Faults) returns (res: Result)
      requires Inv(View()) && m < |maps|
      modifies `assigns, `bars, `maps
      ensures (View(), res) == Visit(old(View()), UnmapMappings, m, a, owner, faults, false)
    {
      hide Inv;
      if maps[m].None? {
        return Done;
      }
      if !MappingValid(View(), m) {
        return Refused;
      }
      if bars[maps[m].value.bar].value.parent != a {
        return Done;
      }
      if maps[m].value.owner != owner {
        return Refused;
      }
      res := Unmap(m, Removals(faults, m, maps[m].value.mapped));
    }

    method VisitBuffer(pass: Pass, j: nat, a: nat, owner: nat, faults: Faults, zeroOk: bool) returns (res: Result)
      requires (pass == UnmapBuffers || pass == QuarantineBuffers || pass == ResetBuffers) && j < |buffers|
      modifies `assigns, `buffers, `zeroed
      ensures (View(), res) == Visit(old(View()), pass, j, a, owner, faults, zeroOk)
    {
      if buffers[j].None? {
        return Done;
      }
      if !BufferValid(View(), j) {
        return Refused;
      }
      var b := buffers[j].value;
      if b.parent != a {
        return Done;
      }
      if b.owner != owner {
        return Refused;
      }
      if pass == UnmapBuffers {
        res := ForceUnmap(j, owner, Removals(faults, j, b.mapped));
      } else {
        var ok := true;
        if pass == QuarantineBuffers && b.state == DeviceActive {
          ok := QuarantineInUse(j, owner);
        } else if pass == ResetBuffers && b.state == BufferQuarantined {
          ok := ResetAfterQuarantine(j, owner, zeroOk);
        }
        res := if ok then Done else Refused;
      }
    }

    method VisitSubmission(pass: Pass, k: nat, a: nat, owner: nat, zeroOk: bool) returns (res: Result)
      requires Inv(View()) && (pass == QuarantineSubs || pass == ResetSubs) && k < |subs|
      modifies `assigns, `buffers, `zeroed, `subs
      ensures (View(), res) == Visit(old(View()), pass, k, a, owner, map[], zeroOk)
    {
      AllBarsValid(View());
      hide Inv, SubmissionValid;
      if subs[k].None? {
        return Done;
      }
      var ok := CheckSubmission(k);
      if !ok {
        return Refused;
      }
      if subs[k].value.parent != a {
        return Done;
      }
      if subs[k].value.owner != owner {
        return Refused;
      }
      if pass == QuarantineSubs {
        res := Quarantine(k);
      } else if subs[k].value.state != SubmissionQuarantined {
        return Refused;
      } else {
        res := ResetOne(k, zeroOk);
      }
    }

    method VisitIrq(q: nat, a: nat, owner: nat) returns (res: Result)
      requires Inv(View()) && q < |irqs|
      modifies `assigns, `irqs
      ensures (View(), res) == Visit(old(View()), DisarmIrqs, q, a, owner, map[], false)
    {
      hide Inv;
      if irqs[q].None? {
        return Done;
      }
      if !IrqValid(View(), q) {
        return Refused;
      }
      if irqs[q].value.parent != a {
        return Done;
      }
      res := ForceDisarm(q, owner);
    }

    /** The loop that all the per-assignment passes share. */
    method SweepAll(pass: Pass, a: nat, owner: nat, faults: Faults, zeroOk: bool) returns (res: Result)
      requires Inv(View()) && Prepared(View(), pass, a)
      requires pass == DisarmIrqs || pass == QuarantineSubs || pass == ResetSubs ==> faults == map[]
      requires pass == DisarmIrqs || pass == UnmapMappings ==> !zeroOk
      modifies `assigns, `bars, `maps, `buffers, `subs, `irqs, `zeroed
      ensures Inv(View())
      ensures (View(), res) == Sweep(old(View()), pass, 0, a, owner, faults, zeroOk)
    {
      hide Inv, Prepared, Visit;
      var i := 0;
      while i < Capacity(View(), pass)
        invariant Inv(View()) && Prepared(View(), pass, a)
        invariant 0 <= i <= Capacity(View(), pass)
        invariant Sweep(old(View()), pass, 0, a, owner, faults, zeroOk) == Sweep(View(), pass, i, a, owner, faults,
          zeroOk)
        decreases Capacity(View(), pass) - i
      {
        ghost var before := View();
        VisitSafe(before, pass, i, a, owner, faults, zeroOk);
        VisitUntouched(before, pass, i, a, owner, faults, zeroOk);
        match pass {
          case DisarmIrqs => res := VisitIrq(i, a, owner);
          case UnmapMappings => res := VisitMapping(i, a, owner, faults);
          case UnmapBuffers => res := VisitBuffer(pass, i, a, owner, faults, zeroOk);
          case QuarantineSubs => res := VisitSubmission(pass, i, a, owner, zeroOk);
          case QuarantineBuffers => res := VisitBuffer(pass, i, a, owner, faults, zeroOk);
          case ResetSubs => res := VisitSubmission(pass, i, a, owner, zeroOk);
          case ResetBuffers => res := VisitBuffer(pass, i, a, owner, faults, zeroOk);
        }
        UntouchedPrepared(before, View(), pass, a);
        if res != Done {
          return;
        }
        i := i + 1;
      }
      return Done;
    }

    // ---------------------------------------------------------------- recovery

    method DisarmListed(bound: seq<nat>, a: nat, owner: nat) returns (res: Result)
      requires Inv(View()) && InState(View(), a, Quarantined)
      modifies `assigns, `irqs
      ensures (View(), res) == DisarmBound(old(View()), bound, a, owner)
    {
      hide Inv, ForceDisarmIrq;
      var n := 0;
      while n < |bound|
        invariant Inv(View()) && 0 <= n <= |bound|
        invariant DisarmBound(old(View()), bound, a, owner) == DisarmBound(View(), bound[n..], a, owner)
      {
        assert bound[n..][1..] == bound[n + 1..];
        if Live(irqs, bound[n]) && irqs[bound[n]].value.parent == a {
          res := ForceDisarm(bound[n], owner);
          if res != Done {
            return;
          }
        }
        n := n + 1;
      }
      return Done;
    }

    method Recover(slot: nat, a: nat, p: Process, env: Surroundings) returns (res: Result)
      requires Inv(View())
      modifies this
      ensures (View(), res) == BeginRecovery(old(View()), slot, a, p, env)
    {
      hide Inv, Quiesce;
      if !p.ready || p.kernel || p.id == 0 || !env.quiet || Live(recs, slot) || RecoveryFor(recs, a) ||
         !InState(View(), a, Assigned) || assigns[a].value.owner != p.id || !env.enumerated
      {
        return Refused;
      }
      if slot >= |recs| || !env.present {
        return Refused;
      }
      var exposed := assigns[a].value.exposed;
      var ok := QuarantineNow(a, p.id);
      if !ok {
        return Refused;
      }
      ghost var x := Recovery(a, assigns[a].value.rid, p.id, env.busMaster, exposed, false, false, FailedQuarantined,
        serial, 0);
      OpenRecord(old(View()), slot, a, p.id, x);
      recs := recs[slot := Some(Recovery(a, assigns[a].value.rid, p.id, env.busMaster, exposed, false, false,
                                         FailedQuarantined, serial, 0))];
      serial := serial + 1;
      res := QuiesceAll(slot, a, p.id, env);
    }

    method QuiesceAll(slot: nat, a: nat, owner: nat, env: Surroundings) returns (res: Result)
      requires Failing(View(), slot, a)
      modifies this
      ensures (View(), res) == Quiesce(old(View()), slot, a, owner, env)
    {
      hide Inv, QuiesceCpu, Sweep, DisarmBound;
      DisarmBoundSafe(View(), env.bound, a, owner);
      res := DisarmListed(env.bound, a, owner);
      if res != Done || !env.routerOk {
        return NotDone(res);
      }
      PassSafe(View(), DisarmIrqs, a, owner, map[], false);
      res := SweepAll(DisarmIrqs, a, owner, map[], false);
      if res != Done || !env.decodingOff {
        return NotDone(res);
      }
      res := QuiesceMappings(slot, a, owner, env);
    }

    method QuiesceMappings(slot: nat, a: nat, owner: nat, env: Surroundings) returns (res: Result)
      requires Failing(View(), slot, a)
      modifies this
      ensures (View(), res) == QuiesceCpu(old(View()), slot, a, owner, env)
    {
      hide Inv, QuiesceDma, Sweep;
      PassSafe(View(), UnmapMappings, a, owner, env.mmioFaults, false);
      res := SweepAll(UnmapMappings, a, owner, env.mmioFaults, false);
      if res != Done {
        return;
      }
      PassSafe(View(), UnmapBuffers, a, owner, env.dmaFaults, false);
      res := SweepAll(UnmapBuffers, a, owner, env.dmaFaults, false);
      if res != Done {
        return;
      }
      res := QuiesceLifetimes(slot, a, owner, env);
    }

    method QuiesceLifetimes(slot: nat, a: nat, owner: nat, env: Surroundings) returns (res: Result)
      requires Failing(View(), slot, a)
      modifies this
      ensures (View(), res) == QuiesceDma(old(View()), slot, a, owner, env)
    {
      hide Inv, Sweep, BarPins;
      PassSafe(View(), QuarantineSubs, a, owner, map[], false);
      res := SweepAll(QuarantineSubs, a, owner, map[], false);
      if res != Done {
        return;
      }
      PassSafe(View(), QuarantineBuffers, a, owner, map[], false);
      res := SweepAll(QuarantineBuffers, a, owner, map[], false);
      if res != Done {
        return;
      }
      AllBarsValid(View());
      var count := CountBarPins(a);
      if count != 0 || !env.unbindOk {
        return Refused;
      }
      recs := recs[slot := Some(recs[slot].value.(state := Quiesced))];
      return Done;
    }

    method DrainDma(r: nat, zeroOk: bool) returns (res: Result)
      requires Inv(View()) && Live(recs, r)
      modifies this
      ensures (View(), res) == CompleteDma(old(View()), r, zeroOk)
    {
      RecoveryAlwaysValid(View(), r);
      hide Inv, Sweep, Certify, Untouched, AllSettled;
      var x := recs[r].value;
      PassSafe(View(), ResetSubs, x.parent, x.owner, map[], zeroOk);
      res := SweepAll(ResetSubs, x.parent, x.owner, map[], zeroOk);
      if res != Done {
        return;
      }
      PassSafe(View(), ResetBuffers, x.parent, x.owner, map[], zeroOk);
      res := SweepAll(ResetBuffers, x.parent, x.owner, map[], zeroOk);
      if res != Done {
        return;
      }
      res := CertifySafe(r, x.parent);
    }

    method CertifySafe(r: nat, a: nat) returns (res: Result)
      requires Inv(View()) && Live(recs, r) && Known(View(), a)
      modifies `recs
      ensures (View(), res) == Certify(old(View()), r, a)
    {
      hide Inv;
      var count := CountSubmissions(a);
      if count != 0 || assigns[a].value.gate || assigns[a].value.pins != 0 {
        return Refused;
      }
      recs := recs[r := Some(recs[r].value.(state := DmaSafe))];
      return Done;
    }

    method LandReset(f: nat, outcome: ResetOutcome, zeroOk: bool) returns (res: Result)
      requires Inv(View())
      modifies this
      ensures (View(), res) == FinishReset(old(View()), f, outcome, zeroOk)
    {
      hide Inv, CompleteDma;
      if f >= |flights| {
        return Refused;
      }
      var r, started := flights[f].slot, flights[f].serial;
      flights := flights[..f] + flights[f + 1..];
      FlightsSafe(old(View()), flights);
      if !RecoveryValid(View(), r) || recs[r].value.state != Quiesced || outcome == NotAttempted {
        return Refused;
      }
      if outcome == Failed {
        recs := recs[r := Some(recs[r].value.(attempted := true, state := FailedQuarantined))];
        return Refused;
      }
      CreditReset(View(), r, started);
      recs := recs[r := Some(recs[r].value.(attempted := true, completed := true, resetSerial := started))];
      res := DrainDma(r, zeroOk);
      if res != Done && Live(recs, r) {
        recs := recs[r := Some(recs[r].value.(state := FailedQuarantined))];
        return NotDone(res);
      }
    }

    method Release(r: nat) returns (res: Result)
      modifies `assigns, `recs
      ensures (View(), res) == CompleteAssignment(old(View()), r)
    {
      if !RecoveryValid(View(), r) || recs[r].value.state != DmaSafe {
        return Refused;
      }
      var ok := EndQuarantine(recs[r].value.parent, recs[r].value.owner);
      if !ok {
        return Refused;
      }
      recs := recs[r := None];
      return Done;
    }
  }

  lemma AllBarsValid(l: Ledger)
    requires Inv(l)
    ensures |l.bars| == BARS && forall i: nat :: Live(l.bars, i) ==> BarValid(l, i)
  {
    forall i: nat | Live(l.bars, i) ensures BarValid(l, i) {
      BarAlwaysValid(l, i);
    }
  }

  lemma AllSubmissionsValid(l: Ledger)
    requires Inv(l)
    ensures forall k: nat :: Live(l.subs, k) ==> SubmissionValid(l, k)
  {
    forall k: nat | Live(l.subs, k) ensures SubmissionValid(l, k) {
      SubmissionAlwaysValid(l, k);
    }
  }
}
