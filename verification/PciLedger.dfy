/**
 The PCI device-lifetime ledger: assignments, BAR resources and their MMIO
 mappings, DMA buffers and submissions, interrupt resources.

 Each kernel module keeps its own registry and counters. The functions here are
 the kernel's operations on the combined state; every one runs with interrupts
 disabled and is therefore one atomic step. Decisions taken outside these
 modules (capability lookups, page-table updates, frame allocation, device
 registers) are parameters.
 */
module PciLedger {
  import opened FrameSpans
  import opened Slots
  import IrqEvents

  const ASSIGNMENTS: nat := 32
  const CHILD_LIMIT: nat := 32
  const ACCESS_LIMIT: nat := 64
  const BARS: nat := 64
  const BAR_INDEXES: nat := 6
  const MAPPINGS: nat := 64
  const BUFFERS: nat := 64
  const BUFFER_MAX_PAGES: nat := 64
  const SUBMISSIONS: nat := 32
  const IRQS: nat := 32
  const RECOVERIES: nat := 16
  const PAGE: nat := 4096
  const U64: nat := 0x1_0000_0000_0000_0000

  // -------------------------------------------------------------- data model

  /** `ready` stands for registered storage, an initialised record and a
      capability table. */
  datatype Process = Process(id: nat, kernel: bool, ready: bool)

  datatype AssignmentState = Available | Assigned | Quiescing | Quarantined

  datatype Assignment = Assignment(
    device: nat, rid: nat, refs: nat, owner: nat, kids: nat, pins: nat,
    state: AssignmentState, gate: bool, exposed: bool, supervised: bool)

  datatype Bar = Bar(
    parent: nat, prid: nat, rid: nat, refs: nat, owner: nat,
    index: nat, io: bool, bounded: bool, base: nat, size: nat, pins: nat)

  datatype Mapping = Mapping(bar: nat, brid: nat, owner: nat, base: nat, pages: nat, mapped: nat)

  datatype BufferState = Ready | DeviceActive | BufferQuarantined

  /** `base` is a frame number; the buffer covers `pages` consecutive frames. */
  datatype Buffer = Buffer(
    parent: nat, prid: nat, rid: nat, refs: nat, owner: nat, kernel: bool,
    base: nat, pages: nat, mapped: nat, state: BufferState, held: bool)

  datatype SubmissionState = Active | SubmissionQuarantined

  datatype Direction = ToDevice | FromDevice | Bidirectional

  datatype Submission = Submission(
    parent: nat, prid: nat, buffer: nat, brid: nat, owner: nat,
    base: nat, size: nat, direction: Direction, state: SubmissionState)

  datatype Irq = Irq(
    parent: nat, prid: nat, rid: nat, refs: nat, owner: nat, held: bool, events: IrqEvents.Irq)

  datatype RecoveryState = Quiesced | DmaSafe | FailedQuarantined

  /** `serial` numbers the recoveries and `resetSerial` is the serial that was
      current when the credited reset was started; both are history. */
  datatype Recovery = Recovery(
    parent: nat, prid: nat, owner: nat, busMaster: bool, exposed: bool,
    attempted: bool, completed: bool, state: RecoveryState, serial: nat, resetSerial: nat)

  /** A function-level reset that has been started and not yet reported back. */
  datatype Flight = Flight(slot: nat, serial: nat)

  /** `free` is the allocator's set of free frames and `zeroed` the frames known
      to hold only zero bytes. */
  datatype Ledger = Ledger(
    assigns: Registry<Assignment>,
    bars: Registry<Bar>,
    maps: Registry<Mapping>,
    buffers: Registry<Buffer>,
    subs: Registry<Submission>,
    irqs: Registry<Irq>,
    recs: Registry<Recovery>,
    nextRid: nat,
    free: set<nat>,
    zeroed: set<nat>,
    serial: nat,
    flights: seq<Flight>)

  datatype Result = Done | Refused | Halt

  // ------------------------------------------------------------- assignments

  predicate AssignmentValid(x: Assignment) {
    && x.kids <= CHILD_LIMIT
    && x.pins <= ACCESS_LIMIT
    && match x.state
       case Available => x.owner == 0 && x.kids == 0 && x.pins == 0 && !x.gate && !x.exposed
       case Assigned => x.owner != 0
       case Quiescing => x.owner != 0 && !x.gate
       case Quarantined => x.owner != 0
  }

  predicate Known(l: Ledger, a: nat) {
    Live(l.assigns, a) && AssignmentValid(l.assigns[a].value)
  }

  predicate Owned(l: Ledger, a: nat, owner: nat) {
    owner != 0 && Known(l, a) && l.assigns[a].value.owner == owner
  }

  predicate InState(l: Ledger, a: nat, state: AssignmentState) {
    Known(l, a) && l.assigns[a].value.state == state
  }

  function Put(l: Ledger, a: nat, x: Assignment): Ledger
    requires a < |l.assigns|
  {
    l.(assigns := l.assigns[a := Some(x)])
  }

  /** Identities are issued upward from 1; zero means exhausted. */
  function NextRid(rid: nat): nat {
    (rid + 1) % U64
  }

  predicate DeviceTaken(s: Registry<Assignment>, device: nat) {
    exists i :: 0 <= i < |s| && s[i].Some? && s[i].value.device == device
  }

  function CreateAssignment(l: Ledger, device: nat, resourceOk: bool): (r: (Ledger, Result)) {
    var slot := Empty(l.assigns);
    if slot == |l.assigns| || DeviceTaken(l.assigns, device) || !resourceOk || l.nextRid == 0 then (l, Refused)
    else
      (Put(l, slot, Assignment(device, l.nextRid, 0, 0, 0, 0, Available, false, false, false))
         .(nextRid := NextRid(l.nextRid)), Done)
  }

  function DestroyAssignment(l: Ledger, a: nat): (Ledger, Result) {
    if !InState(l, a, Available) || l.assigns[a].value.refs != 0 then (l, Refused)
    else (l.(assigns := l.assigns[a := None]), Done)
  }

  function Claim(l: Ledger, a: nat, p: Process, supervised: bool, insertOk: bool): (Ledger, Result) {
    if !p.ready || p.id == 0 || p.kernel != supervised || !InState(l, a, Available) ||
       l.assigns[a].value.refs != 0 || !insertOk
    then (l, Refused)
    else (Put(l, a, l.assigns[a].value.(refs := 1, owner := p.id, supervised := supervised, state := Assigned)), Done)
  }

  predicate Authorized(l: Ledger, a: nat, p: Process, handleOk: bool) {
    && p.ready && p.id != 0 && handleOk
    && InState(l, a, Assigned)
    && (!p.kernel || l.assigns[a].value.supervised)
    && l.assigns[a].value.owner == p.id
  }

  function ChildAcquire(l: Ledger, a: nat, p: Process, handleOk: bool): Option<Ledger> {
    if !Authorized(l, a, p, handleOk) || l.assigns[a].value.kids >= CHILD_LIMIT then None
    else Some(Put(l, a, l.assigns[a].value.(kids := l.assigns[a].value.kids + 1)))
  }

  function ChildRelease(l: Ledger, a: nat, owner: nat): Option<Ledger> {
    if !Owned(l, a, owner) || l.assigns[a].value.state == Available || l.assigns[a].value.kids == 0 then None
    else Some(Put(l, a, l.assigns[a].value.(kids := l.assigns[a].value.kids - 1)))
  }

  function AccessAcquire(l: Ledger, a: nat, owner: nat): Option<Ledger> {
    if !Owned(l, a, owner) || l.assigns[a].value.state != Assigned || l.assigns[a].value.pins >= ACCESS_LIMIT then None
    else Some(Put(l, a, l.assigns[a].value.(pins := l.assigns[a].value.pins + 1)))
  }

  function AccessRelease(l: Ledger, a: nat, owner: nat): Option<Ledger> {
    if !Owned(l, a, owner) || l.assigns[a].value.state == Available || l.assigns[a].value.pins == 0 then None
    else Some(Put(l, a, l.assigns[a].value.(pins := l.assigns[a].value.pins - 1)))
  }

  function GateAcquire(l: Ledger, a: nat, owner: nat): Option<Ledger> {
    if !Owned(l, a, owner) || l.assigns[a].value.state != Assigned || l.assigns[a].value.gate then None
    else Some(Put(l, a, l.assigns[a].value.(gate := true)))
  }

  function GateRelease(l: Ledger, a: nat, owner: nat): Option<Ledger> {
    if !Owned(l, a, owner) || (l.assigns[a].value.state != Assigned && l.assigns[a].value.state != Quarantined) ||
       !l.assigns[a].value.gate
    then None
    else Some(Put(l, a, l.assigns[a].value.(gate := false)))
  }

  function MarkExposed(l: Ledger, a: nat, owner: nat): (Ledger, Result) {
    if !Owned(l, a, owner) || l.assigns[a].value.state != Assigned ||
       !l.assigns[a].value.gate || l.assigns[a].value.pins == 0
    then (l, Refused)
    else (Put(l, a, l.assigns[a].value.(exposed := true)), Done)
  }

  function NoteInherited(l: Ledger, a: nat, owner: nat): (Ledger, Result) {
    if !Owned(l, a, owner) || l.assigns[a].value.state != Assigned then (l, Refused)
    else (Put(l, a, l.assigns[a].value.(exposed := true)), Done)
  }

  function BeginQuiesce(l: Ledger, a: nat, owner: nat): (Ledger, Result) {
    if !Owned(l, a, owner) || l.assigns[a].value.state != Assigned || l.assigns[a].value.pins != 0 ||
       l.assigns[a].value.gate || l.assigns[a].value.exposed
    then (l, Refused)
    else (Put(l, a, l.assigns[a].value.(state := Quiescing)), Done)
  }

  function CompleteRelease(l: Ledger, a: nat, owner: nat): (Ledger, Result) {
    if !Owned(l, a, owner) || l.assigns[a].value.state != Quiescing || l.assigns[a].value.kids != 0 ||
       l.assigns[a].value.pins != 0 || l.assigns[a].value.gate || l.assigns[a].value.exposed ||
       l.assigns[a].value.refs != 0
    then (l, Refused)
    else (Put(l, a, l.assigns[a].value.(owner := 0, state := Available)), Done)
  }

  function Quarantine(l: Ledger, a: nat, owner: nat): (Ledger, Result) {
    if !Owned(l, a, owner) || l.assigns[a].value.state == Available || l.assigns[a].value.state == Quarantined ||
       l.assigns[a].value.pins != 0 || l.assigns[a].value.gate
    then (l, Refused)
    else (Put(l, a, l.assigns[a].value.(state := Quarantined)), Done)
  }

  function ForceQuarantine(l: Ledger, a: nat, owner: nat): Option<Ledger> {
    if !Owned(l, a, owner) || l.assigns[a].value.state == Available then None
    else Some(Put(l, a, l.assigns[a].value.(state := Quarantined)))
  }

  function CompleteQuarantine(l: Ledger, a: nat, owner: nat): Option<Ledger> {
    if !Owned(l, a, owner) || l.assigns[a].value.state != Quarantined || l.assigns[a].value.kids != 0 ||
       l.assigns[a].value.pins != 0 || l.assigns[a].value.gate || l.assigns[a].value.refs != 0
    then None
    else Some(Put(l, a, l.assigns[a].value.(owner := 0, exposed := false, state := Available)))
  }

  // ----------------------------------------------------------- BAR resources

  /** A child record still names the incarnation of the assignment it was made under. */
  predicate Matches(l: Ledger, parent: nat, prid: nat, owner: nat) {
    Owned(l, parent, owner) && l.assigns[parent].value.rid == prid
  }

  predicate BarValid(l: Ledger, i: nat) {
    && Live(l.bars, i)
    && var b := l.bars[i].value;
       && Matches(l, b.parent, b.prid, b.owner)
       && b.index < BAR_INDEXES
       && b.pins <= ACCESS_LIMIT
       && (b.bounded <==> b.size != 0)
  }

  function PutBar(l: Ledger, i: nat, b: Bar): Ledger
    requires i < |l.bars|
  {
    l.(bars := l.bars[i := Some(b)])
  }

  predicate BarTaken(s: Registry<Bar>, parent: nat, index: nat) {
    exists i :: 0 <= i < |s| && s[i].Some? && s[i].value.parent == parent && s[i].value.index == index
  }

  /** What the device answers when a BAR is read and sized: whether it is ports or
      memory, and no size when it is in use and cannot be probed. */
  datatype Probe = Absent | Unsized(io: bool, base: nat) | Sized(io: bool, base: nat, size: nat)

  function CreateBar(l: Ledger, a: nat, p: Process, handleOk: bool, index: nat, probe: Probe,
                     resourceOk: bool, insertOk: bool): (Ledger, Result)
  {
    if index >= BAR_INDEXES || BarTaken(l.bars, a, index) then (l, Refused)
    else match ChildAcquire(l, a, p, handleOk)
      case None => (l, Refused)
      case Some(l1) =>
        var slot := Empty(l1.bars);
        if probe.Absent? || (probe.Sized? && probe.size == 0) || slot == |l1.bars| || !resourceOk ||
          l1.nextRid == 0 then
          UndoChild(l1, a, p.id)
        else
          var l2 := l1.(nextRid := NextRid(l1.nextRid));
          if !insertOk then UndoChild(l2, a, p.id)
          else
            var b := Bar(a, l.assigns[a].value.rid, l1.nextRid, 1, p.id, index, probe.io, probe.Sized?, probe.base,
                         if probe.Sized? then probe.size else 0, 0);
            (PutBar(l2, slot, b), Done)
  }

  /** Rollback shared by the constructors: give the child pin back. */
  function UndoChild(l: Ledger, a: nat, owner: nat): (Ledger, Result) {
    match ChildRelease(l, a, owner)
    case None => (l, Halt)
    case Some(l1) => (l1, Refused)
  }

  function DestroyBar(l: Ledger, i: nat): (Ledger, Result) {
    if !BarValid(l, i) || l.bars[i].value.pins != 0 || l.bars[i].value.refs != 0 then (l, Refused)
    else
      var b := l.bars[i].value;
      match ChildRelease(l.(bars := l.bars[i := None]), b.parent, b.owner)
      case None => (l, Halt)
      case Some(l1) => (l1, Done)
  }

  predicate BarAuthorized(l: Ledger, i: nat, p: Process, handleOk: bool) {
    && p.ready && !p.kernel && handleOk
    && BarValid(l, i)
    && p.id == l.bars[i].value.owner
    && InState(l, l.bars[i].value.parent, Assigned)
  }

  function BarAcquire(l: Ledger, i: nat, p: Process, handleOk: bool): Option<Ledger> {
    if !BarAuthorized(l, i, p, handleOk) || !l.bars[i].value.bounded || l.bars[i].value.pins >= ACCESS_LIMIT ||
       l.assigns[l.bars[i].value.parent].value.gate
    then None
    else match AccessAcquire(l, l.bars[i].value.parent, l.bars[i].value.owner)
      case None => None
      case Some(l1) => Some(PutBar(l1, i, l.bars[i].value.(pins := l.bars[i].value.pins + 1)))
  }

  function BarRelease(l: Ledger, i: nat, owner: nat): Option<Ledger> {
    if !BarValid(l, i) || l.bars[i].value.owner != owner || l.bars[i].value.pins == 0 then None
    else match AccessRelease(l, l.bars[i].value.parent, owner)
      case None => None
      case Some(l1) => Some(PutBar(l1, i, l.bars[i].value.(pins := l.bars[i].value.pins - 1)))
  }

  /** Page-exact window inside the BAR, `mmio_geometry`. */
  predicate Window(b: Bar, offset: nat, size: nat) {
    && b.bounded && !b.io
    && size != 0 && size % PAGE == 0 && offset % PAGE == 0
    && offset < b.size && size <= b.size - offset
    && 0 < b.base + offset && (b.base + offset) % PAGE == 0
    && b.base + offset + (size - 1) < U64
    && size / PAGE <= 0xFFFF_FFFF
  }

  const PORT_LAST: nat := 0xFFFF

  /** Aligned ports inside the BAR, `pio_geometry`. */
  predicate PortWindow(b: Bar, offset: nat, width: nat) {
    && (width == 1 || width == 2 || width == 4) && offset % width == 0
    && b.bounded && b.io && offset < b.size && width <= b.size - offset
    && b.base <= PORT_LAST && offset <= PORT_LAST - b.base && width - 1 <= PORT_LAST - (b.base + offset)
  }

  /** Every access between acquire and release of a port read or write. */
  function PortAccess(l: Ledger, i: nat, p: Process, handleOk: bool, offset: nat, width: nat): (Ledger, Result) {
    if !BarValid(l, i) || !PortWindow(l.bars[i].value, offset, width) then (l, Refused)
    else match BarAcquire(l, i, p, handleOk)
      case None => (l, Refused)
      case Some(l1) =>
        match BarRelease(l1, i, p.id)
        case None => (l1, Halt)
        case Some(l2) => (l2, Done)
  }

  /** `pagesMapped` is how many page-table insertions succeed before one fails. */
  function MapMmio(l: Ledger, i: nat, p: Process, handleOk: bool, offset: nat, size: nat, pagesMapped: nat):
    (Ledger, Result)
  {
    var slot := Empty(l.maps);
    if !BarValid(l, i) || !Window(l.bars[i].value, offset, size) || slot == |l.maps| then (l, Refused)
    else match BarAcquire(l, i, p, handleOk)
      case None => (l, Refused)
      case Some(l1) =>
        var b := l.bars[i].value;
        var pages := size / PAGE;
        if pagesMapped < pages then
          match BarRelease(l1, i, p.id)
          case None => (l1, Halt)
          case Some(l2) => (l2, Refused)
        else
          (l1.(maps := l1.maps[slot := Some(Mapping(i, b.rid, p.id, b.base + offset, pages, pages))]), Done)
  }

  predicate MappingValid(l: Ledger, m: nat) {
    && Live(l.maps, m)
    && var x := l.maps[m].value;
       && x.owner != 0 && 0 < x.mapped <= x.pages
       && BarValid(l, x.bar) && l.bars[x.bar].value.rid == x.brid && l.bars[x.bar].value.owner == x.owner
  }

  /** `unmaps` is how many page-table removals succeed before one fails; pages
      leave from the top, and a mapping that keeps a page stays registered. */
  function UnmapMmio(l: Ledger, m: nat, unmaps: nat): (Ledger, Result) {
    if !MappingValid(l, m) then (l, Refused)
    else
      var x := l.maps[m].value;
      if unmaps < x.mapped then (l.(maps := l.maps[m := Some(x.(mapped := x.mapped - unmaps))]), Refused)
      else
        match BarRelease(l.(maps := l.maps[m := None]), x.bar, x.owner)
        case None => (l, Halt)
        case Some(l1) => (l1, Done)
  }

  // ------------------------------------------------------------- DMA buffers

  function SpanOf(b: Buffer): set<nat> {
    Span(b.base, b.pages)
  }

  predicate BufferValid(l: Ledger, j: nat) {
    && Live(l.buffers, j)
    && var b := l.buffers[j].value;
       && Matches(l, b.parent, b.prid, b.owner)
       && !b.kernel
       && b.base != 0 && 0 < b.pages <= BUFFER_MAX_PAGES
       && (b.mapped == 0 || b.mapped == b.pages)
       && (b.state == Ready <==> !b.held)
  }

  predicate BufferAuthorized(l: Ledger, j: nat, p: Process, handleOk: bool) {
    && p.ready && !p.kernel && handleOk
    && BufferValid(l, j)
    && p.id == l.buffers[j].value.owner
    && InState(l, l.buffers[j].value.parent, Assigned)
  }

  function PutBuffer(l: Ledger, j: nat, b: Buffer): Ledger
    requires j < |l.buffers|
  {
    l.(buffers := l.buffers[j := Some(b)])
  }

  /** `base` is the allocator's answer, zero when it has no run of that length. */
  function CreateBuffer(l: Ledger, a: nat, p: Process, handleOk: bool, pages: nat, base: nat,
                        resourceOk: bool, zeroOk: bool, insertOk: bool): (Ledger, Result)
  {
    if pages == 0 || pages > BUFFER_MAX_PAGES then (l, Refused)
    else match ChildAcquire(l, a, p, handleOk)
      case None => (l, Refused)
      case Some(l1) =>
        var slot := Empty(l1.buffers);
        var span := Span(base, pages);
        if slot == |l1.buffers| || base == 0 || !(span <= l1.free) || !resourceOk || l1.nextRid == 0 then
          UndoChild(l1, a, p.id)
        else
          var l2 := l1.(nextRid := NextRid(l1.nextRid));
          if !zeroOk then UndoChild(l2, a, p.id)
          else
            var l3 := l2.(zeroed := l2.zeroed + span);
            if !insertOk then UndoChild(l3, a, p.id)
            else
              var b := Buffer(a, l.assigns[a].value.rid, l1.nextRid, 1, p.id, p.kernel, base, pages, 0, Ready, false);
              (PutBuffer(l3, slot, b).(free := l3.free - span), Done)
  }

  /** Mapping is all or nothing: a failed page insertion takes the earlier ones back. */
  function MapBuffer(l: Ledger, j: nat, p: Process, handleOk: bool, pagesMapped: nat): (Ledger, Result) {
    if !BufferAuthorized(l, j, p, handleOk) || l.buffers[j].value.state != Ready || l.buffers[j].value.mapped != 0 ||
       pagesMapped < l.buffers[j].value.pages
    then (l, Refused)
    else
      var b := l.buffers[j].value;
      (PutBuffer(l, j, b.(mapped := b.pages)).(zeroed := l.zeroed - SpanOf(b)), Done)
  }

  /** A failed page removal leaves the buffer with part of its mapping. */
  function ForceUnmapBuffer(l: Ledger, j: nat, owner: nat, unmaps: nat): (Ledger, Result) {
    if !BufferValid(l, j) || l.buffers[j].value.owner != owner then (l, Refused)
    else
      var b := l.buffers[j].value;
      if unmaps < b.mapped then (PutBuffer(l, j, b.(mapped := b.mapped - unmaps)), Refused)
      else (PutBuffer(l, j, b.(mapped := 0)), Done)
  }

  function UnmapBuffer(l: Ledger, j: nat, p: Process, handleOk: bool, unmaps: nat): (Ledger, Result) {
    if !BufferAuthorized(l, j, p, handleOk) then (l, Refused)
    else ForceUnmapBuffer(l, j, p.id, unmaps)
  }

  function DeviceBegin(l: Ledger, j: nat, p: Process, handleOk: bool): Option<Ledger> {
    if !BufferAuthorized(l, j, p, handleOk) || l.buffers[j].value.state != Ready then None
    else
      var b := l.buffers[j].value;
      match AccessAcquire(l, b.parent, b.owner)
      case None => None
      case Some(l1) =>
        Some(PutBuffer(l1, j, b.(held := true, state := DeviceActive)).(zeroed := l1.zeroed - SpanOf(b)))
  }

  function DeviceComplete(l: Ledger, j: nat, p: Process, handleOk: bool): Option<Ledger> {
    if !BufferAuthorized(l, j, p, handleOk) || l.buffers[j].value.state != DeviceActive then None
    else
      var b := l.buffers[j].value;
      match AccessRelease(l, b.parent, b.owner)
      case None => None
      case Some(l1) => Some(PutBuffer(l1, j, b.(held := false, state := Ready)))
  }

  /** The ready branch is only reachable through the raw buffer call. */
  function QuarantineBuffer(l: Ledger, j: nat, owner: nat): Option<Ledger> {
    if !BufferValid(l, j) || l.buffers[j].value.owner != owner then None
    else
      var b := l.buffers[j].value;
      var state := l.assigns[b.parent].value.state;
      if b.state == BufferQuarantined then if state == Quarantined then Some(l) else None
      else if b.state == Ready then
        if state != Assigned then None
        else
          match AccessAcquire(l, b.parent, owner)
          case None => None
          case Some(l1) =>
            match ForceQuarantine(l1, b.parent, owner)
            case None => None
            case Some(l2) => Some(PutBuffer(l2, j, b.(held := true, state := BufferQuarantined)))
      else if state != Assigned && state != Quarantined then None
      else
        match ForceQuarantine(l, b.parent, owner)
        case None => None
        case Some(l1) => Some(PutBuffer(l1, j, b.(state := BufferQuarantined)))
  }

  function ResetBuffer(l: Ledger, j: nat, owner: nat, zeroOk: bool): Option<Ledger> {
    if !BufferValid(l, j) || l.buffers[j].value.owner != owner || l.buffers[j].value.state != BufferQuarantined ||
       l.buffers[j].value.mapped != 0 || !InState(l, l.buffers[j].value.parent, Quarantined) || !zeroOk
    then None
    else
      var b := l.buffers[j].value;
      match AccessRelease(l, b.parent, owner)
      case None => None
      case Some(l1) =>
        Some(PutBuffer(l1, j, b.(held := false, state := Ready)).(zeroed := l1.zeroed + SpanOf(b)))
  }

  function DestroyBuffer(l: Ledger, j: nat): (Ledger, Result) {
    if !BufferValid(l, j) || l.buffers[j].value.state != Ready || l.buffers[j].value.mapped != 0 ||
       l.buffers[j].value.refs != 0
    then (l, Refused)
    else
      var b := l.buffers[j].value;
      var l1 := l.(buffers := l.buffers[j := None], free := l.free + SpanOf(b));
      match ChildRelease(l1, b.parent, b.owner)
      case None => (l1, Halt)
      case Some(l2) => (l2, Done)
  }

  // --------------------------------------------------------- DMA submissions

  function BarPin(a: nat): Option<Bar> -> nat {
    (b: Option<Bar>) => if b.Some? && b.value.parent == a then b.value.pins else 0
  }

  /** `pci_bar_resource_assignment_active_access_count`. */
  function BarPins(l: Ledger, a: nat): nat {
    Sum(l.bars, BarPin(a))
  }

  predicate SubmissionValid(l: Ledger, k: nat) {
    && Live(l.subs, k)
    && var s := l.subs[k].value;
       && s.owner != 0 && s.base != 0 && s.size != 0
       && Known(l, s.parent) && l.assigns[s.parent].value.rid == s.prid
       && BufferValid(l, s.buffer)
       && var b := l.buffers[s.buffer].value;
          && b.parent == s.parent && b.owner == s.owner && b.rid == s.brid
          && l.assigns[s.parent].value.gate
          && b.base * PAGE <= s.base && s.base + s.size <= (b.base + b.pages) * PAGE
          && (if s.state == Active then
                && (l.assigns[s.parent].value.state == Assigned || l.assigns[s.parent].value.state == Quarantined)
                && b.state == DeviceActive && b.mapped == 0
                && BarPins(l, s.parent) == 0
              else
                && l.assigns[s.parent].value.state == Quarantined && b.state == BufferQuarantined)
  }

  function BeginSubmission(l: Ledger, a: nat, p: Process, assignmentOk: bool, j: nat, bufferOk: bool,
                           offset: nat, size: nat, direction: Direction): (Ledger, Result)
  {
    if size == 0 || !Authorized(l, a, p, assignmentOk) || !BufferValid(l, j) || l.buffers[j].value.parent != a ||
       l.buffers[j].value.owner != p.id || l.buffers[j].value.state != Ready || l.buffers[j].value.mapped != 0 ||
       BarPins(l, a) != 0
    then (l, Refused)
    else
      var b := l.buffers[j].value;
      var slot := Empty(l.subs);
      if offset >= b.pages * PAGE || size > b.pages * PAGE - offset || b.base * PAGE + offset >= U64 ||
        slot == |l.subs| then
        (l, Refused)
      else Launch(l, slot, a, p, j, bufferOk, offset, size, direction)
  }

  /** Take the gate, give the buffer to the device, and record the submission. */
  function Launch(l: Ledger, slot: nat, a: nat, p: Process, j: nat, bufferOk: bool, offset: nat, size: nat,
                  direction: Direction): (Ledger, Result)
    requires slot < |l.subs| && Live(l.assigns, a) && Live(l.buffers, j)
  {
    match GateAcquire(l, a, p.id)
    case None => (l, Refused)
    case Some(l1) =>
      match DeviceBegin(l1, j, p, bufferOk)
      case None => (match GateRelease(l1, a, p.id) case None => (l1, Halt) case Some(l2) => (l2, Refused))
      case Some(l2) =>
        var b := l.buffers[j].value;
        var s := Submission(a, l.assigns[a].value.rid, j, b.rid, p.id, b.base * PAGE + offset, size, direction, Active);
        (l2.(subs := l2.subs[slot := Some(s)]), Done)
  }

  function CompleteSubmission(l: Ledger, k: nat, p: Process, handleOk: bool): (Ledger, Result) {
    if !SubmissionValid(l, k) || l.subs[k].value.state != Active || p.id != l.subs[k].value.owner then (l, Refused)
    else
      var s := l.subs[k].value;
      match DeviceComplete(l, s.buffer, p, handleOk)
      case None => (l, Refused)
      case Some(l1) => CloseSubmission(l1, k, s)
  }

  function CloseSubmission(l: Ledger, k: nat, s: Submission): (Ledger, Result)
    requires k < |l.subs|
  {
    match GateRelease(l, s.parent, s.owner)
    case None => (l, Halt)
    case Some(l1) => (l1.(subs := l1.subs[k := None]), Done)
  }

  function QuarantineSubmission(l: Ledger, k: nat): (Ledger, Result) {
    if !SubmissionValid(l, k) then (l, Refused)
    else
      var s := l.subs[k].value;
      if s.state == SubmissionQuarantined then (l, Done)
      else
        match QuarantineBuffer(l, s.buffer, s.owner)
        case None => (l, Refused)
        case Some(l1) => (l1.(subs := l1.subs[k := Some(s.(state := SubmissionQuarantined))]), Done)
  }

  function ResetSubmission(l: Ledger, k: nat, zeroOk: bool): (Ledger, Result) {
    if !SubmissionValid(l, k) || l.subs[k].value.state != SubmissionQuarantined then (l, Refused)
    else
      var s := l.subs[k].value;
      match ResetBuffer(l, s.buffer, s.owner, zeroOk)
      case None => (l, Refused)
      case Some(l1) => CloseSubmission(l1, k, s)
  }

  // ------------------------------------------------------ interrupt resources

  predicate IrqValid(l: Ledger, q: nat) {
    && Live(l.irqs, q)
    && var x := l.irqs[q].value;
       && Matches(l, x.parent, x.prid, x.owner)
       && (x.held <==> x.events.phase != IrqEvents.Disarmed)
       && (x.events.phase == IrqEvents.Disarmed ==> x.events.masked && x.events.pending == 0)
       && (x.events.phase == IrqEvents.Armed ==> !x.events.masked && x.events.pending == 0)
       && (x.events.phase == IrqEvents.Pending ==> x.events.masked && x.events.pending != 0)
       && (x.events.phase == IrqEvents.Stormed ==> x.events.masked)
  }

  predicate IrqAuthorized(l: Ledger, q: nat, p: Process, handleOk: bool) {
    && p.ready && !p.kernel && handleOk
    && IrqValid(l, q)
    && p.id == l.irqs[q].value.owner
    && InState(l, l.irqs[q].value.parent, Assigned)
  }

  function PutIrq(l: Ledger, q: nat, x: Irq): Ledger
    requires q < |l.irqs|
  {
    l.(irqs := l.irqs[q := Some(x)])
  }

  /** `buildOk` covers the event endpoint and the three capability insertions. */
  function CreateIrq(l: Ledger, a: nat, p: Process, handleOk: bool, resourceOk: bool, buildOk: bool): (Ledger, Result) {
    match ChildAcquire(l, a, p, handleOk)
    case None => (l, Refused)
    case Some(l1) =>
      var slot := Empty(l1.irqs);
      if slot == |l1.irqs| || !resourceOk || l1.nextRid == 0 then UndoChild(l1, a, p.id)
      else
        var l2 := l1.(nextRid := NextRid(l1.nextRid));
        if !buildOk then UndoChild(l2, a, p.id)
        else
          (PutIrq(l2, slot, Irq(a, l.assigns[a].value.rid, l1.nextRid, 1, p.id, false, IrqEvents.Fresh)), Done)
  }

  /** `endpointIdle`: the event endpoint has only the kernel's own send
      capability and no waiters. The caller has removed any router binding. */
  function DestroyIrq(l: Ledger, q: nat, endpointIdle: bool): (Ledger, Result) {
    if !IrqValid(l, q) || l.irqs[q].value.events.phase != IrqEvents.Disarmed || l.irqs[q].value.refs != 0 ||
       l.irqs[q].value.events.mail.Some? || !endpointIdle
    then (l, Refused)
    else
      var x := l.irqs[q].value;
      var l1 := l.(irqs := l.irqs[q := None]);
      match ChildRelease(l1, x.parent, x.owner)
      case None => (l1, Halt)
      case Some(l2) => (l2, Done)
  }

  function ArmIrq(l: Ledger, q: nat, p: Process, handleOk: bool): (Ledger, Result) {
    if !IrqAuthorized(l, q, p, handleOk) || l.irqs[q].value.events.phase != IrqEvents.Disarmed then (l, Refused)
    else
      var x := l.irqs[q].value;
      match AccessAcquire(l, x.parent, x.owner)
      case None => (l, Refused)
      case Some(l1) => (PutIrq(l1, q, x.(held := true, events := IrqEvents.Arm(x.events))), Done)
  }

  function ForceDisarmIrq(l: Ledger, q: nat, owner: nat): (Ledger, Result) {
    if !IrqValid(l, q) || l.irqs[q].value.owner != owner then (l, Refused)
    else
      var x := l.irqs[q].value;
      if x.events.phase == IrqEvents.Disarmed then (l, Done)
      else
        match AccessRelease(l, x.parent, owner)
        case None => (l, Halt)
        case Some(l1) => (PutIrq(l1, q, x.(held := false, events := IrqEvents.Disarm(x.events))), Done)
  }

  function DisarmIrq(l: Ledger, q: nat, p: Process, handleOk: bool): (Ledger, Result) {
    if !IrqAuthorized(l, q, p, handleOk) then (l, Refused) else ForceDisarmIrq(l, q, p.id)
  }

  function SignalIrq(l: Ledger, q: nat, accepted: bool): (Ledger, Result) {
    if !IrqValid(l, q) || !InState(l, l.irqs[q].value.parent, Assigned) then (l, Refused)
    else
      var x := l.irqs[q].value;
      (PutIrq(l, q, x.(events := IrqEvents.Signal(x.events, accepted))), Done)
  }

  function AcknowledgeIrq(l: Ledger, q: nat, p: Process, handleOk: bool, sequence: nat): (Ledger, Result) {
    if !IrqAuthorized(l, q, p, handleOk) ||
      !IrqEvents.CanAcknowledge(l.irqs[q].value.events, sequence) then (l, Refused)
    else
      var x := l.irqs[q].value;
      (PutIrq(l, q, x.(events := IrqEvents.Acknowledge(x.events, sequence))), Done)
  }

  function RecoverIrqStorm(l: Ledger, q: nat, p: Process, handleOk: bool): (Ledger, Result) {
    if !IrqAuthorized(l, q, p, handleOk) || !IrqEvents.CanRecoverStorm(l.irqs[q].value.events) then (l, Refused)
    else
      var x := l.irqs[q].value;
      (PutIrq(l, q, x.(events := IrqEvents.RecoverStorm(x.events))), Done)
  }

  /** The owner receives from the event endpoint. */
  function TakeIrqEvent(l: Ledger, q: nat): (Ledger, Result) {
    if !Live(l.irqs, q) then (l, Refused)
    else
      var x := l.irqs[q].value;
      (PutIrq(l, q, x.(events := IrqEvents.Take(x.events))), Done)
  }

  /** The event endpoint is closed, for instance when its owner exits. */
  function CloseIrqEvents(l: Ledger, q: nat): (Ledger, Result) {
    if !Live(l.irqs, q) then (l, Refused)
    else
      var x := l.irqs[q].value;
      (PutIrq(l, q, x.(events := IrqEvents.Close(x.events))), Done)
  }
}
