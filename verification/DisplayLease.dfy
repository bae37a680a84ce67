/**
 Who may write to the screen (kernel/display.c, kernel/framebuffer.c): kernel
 writers are admitted one by one, and a user process can hold the framebuffer
 only while none is active. Two state machines, the lease and the scanout, share
 the writer count. Restoring the kernel's ownership is deliberately two steps.
 */
module DisplayLease {

  const U64: nat := 0x1_0000_0000_0000_0000
  const WRITERS_MAX: nat := 0xFFFF_FFFF

  datatype Lease = Kernel | Handoff | User | Reclaim

  datatype Scanout = Unavailable | Firmware | Retiring | Retired

  datatype Kind = NoOutput | FirmwareOutput | NativeOutput | RescueOutput | Quarantined

  /** `writing` holds, for every active kernel writer, the identity of the output it
      was admitted to; the kernel keeps only how many there are. `restoring` counts
      the restorations between their two steps. Both are history. */
  datatype Screen = Screen(
    lease: Lease, owner: nat, leased: nat, scanout: Scanout, kind: Kind, valid: bool, identity: nat, next: nat,
    writing: seq<nat>, restoring: nat)

  const Boot: Screen := Screen(Kernel, 0, 0, Firmware, FirmwareOutput, true, 0, 1, [], 0)

  predicate Matches(s: Screen, identity: nat) {
    s.valid && s.identity == identity
  }

  // --------------------------------------------------------------- operations

  function WriteBegin(s: Screen): (Screen, bool) {
    if s.valid && (s.lease == Kernel || s.lease == Reclaim) && |s.writing| < WRITERS_MAX
    then (s.(writing := s.writing + [s.identity]), true) else (s, false)
  }

  /** Writer `w` is done; the last one completes a pending retirement. */
  function WriteEnd(s: Screen, w: nat): (Screen, bool) {
    if w >= |s.writing| then (s, false)
    else
      var left := s.writing[..w] + s.writing[w + 1..];
      (s.(writing := left, scanout := if left == [] && s.scanout == Retiring then Retired else s.scanout), true)
  }

  /** `usable` covers the geometry of the requested mapping. */
  function Prepare(s: Screen, identity: nat, usable: bool): (Screen, bool) {
    if !usable || s.lease != Kernel || !Matches(s, identity) || s.writing != [] then (s, false)
    else (s.(lease := Handoff, leased := identity, owner := 0), true)
  }

  function Commit(s: Screen, process: nat): (Screen, bool) {
    if process == 0 || s.lease != Handoff || !Matches(s, s.leased) then (s, false)
    else (s.(lease := User, owner := process), true)
  }

  /** First half of abort and reclaim. */
  function BeginRestore(s: Screen, expected: Lease, owner: nat): (Screen, bool) {
    if (expected != Handoff && expected != User) || s.lease != expected ||
      (expected == User && (owner == 0 || s.owner != owner))
    then (s, false)
    else (s.(lease := Reclaim, leased := 0, owner := 0, restoring := s.restoring + 1), true)
  }

  /** Second half, for one of the restorations under way. */
  function EndRestore(s: Screen): (Screen, bool) {
    if s.restoring == 0 then (s, false)
    else if s.lease != Reclaim then (s.(restoring := s.restoring - 1), false)
    else (s.(lease := Kernel, restoring := s.restoring - 1), true)
  }

  /** `display_retire_firmware_scanout`; true when the scanout is retired. */
  function Retire(s: Screen): (Screen, bool) {
    if s.identity != 0 || s.lease != Kernel || s.scanout == Unavailable then (s, false)
    else
      var s1 := if s.scanout == Firmware then s.(scanout := Retiring, valid := false, kind := NoOutput) else s;
      var s2 := if s1.scanout == Retiring && s1.writing == [] then s1.(scanout := Retired) else s1;
      (s2, s2.scanout == Retired)
  }

  function Install(s: Screen, rescue: bool, retained: bool): (Screen, bool) {
    if s.next == 0 || s.scanout != Retired || s.valid || s.writing != [] || s.lease != Kernel ||
      !retained then (s, false)
    else
      (s.(identity := s.next, next := (s.next + 1) % U64, kind := if rescue then RescueOutput
        else NativeOutput, valid := true), true)
  }

  function Revoke(s: Screen, identity: nat): (Screen, bool) {
    if identity == 0 || s.identity != identity ||
      (s.kind != NativeOutput && s.kind != RescueOutput && s.kind != Quarantined)
    then (s, false)
    else (s.(valid := false, kind := Quarantined), true)
  }

  datatype Op =
    | OpWriteBegin
    | OpWriteEnd(w: nat)
    | OpPrepare(identity: nat, usable: bool)
    | OpCommit(process: nat)
    | OpBeginRestore(expected: Lease, owner: nat)
    | OpEndRestore
    | OpRetire
    | OpInstall(rescue: bool, retained: bool)
    | OpRevoke(identity: nat)

  function Apply(s: Screen, op: Op): (Screen, bool) {
    match op
    case OpWriteBegin => WriteBegin(s)
    case OpWriteEnd(w) => WriteEnd(s, w)
    case OpPrepare(identity, usable) => Prepare(s, identity, usable)
    case OpCommit(process) => Commit(s, process)
    case OpBeginRestore(expected, owner) => BeginRestore(s, expected, owner)
    case OpEndRestore => EndRestore(s)
    case OpRetire => Retire(s)
    case OpInstall(rescue, retained) => Install(s, rescue, retained)
    case OpRevoke(identity) => Revoke(s, identity)
  }

  function Run(s: Screen, ops: seq<Op>): Screen
    decreases |ops|
  {
    if ops == [] then s else Run(Apply(s, ops[0]).0, ops[1..])
  }

  // ------------------------------------------------------------ the invariant

  ghost predicate Inv(s: Screen) {
    && ((s.lease == Handoff || s.lease == User) ==> s.writing == [])
    && (s.lease == User <==> s.owner != 0)
    && s.restoring == (if s.lease == Reclaim then 1 else 0)
    && (forall w :: 0 <= w < |s.writing| ==> s.writing[w] == s.identity)
    && (s.scanout == Firmware <==> s.kind == FirmwareOutput)
    && (s.scanout == Firmware ==> s.valid) && (s.scanout == Retiring ==> !s.valid && s.writing != [])
    && (s.scanout != Retired ==> s.identity == 0)
    && (s.identity == 0 && s.scanout == Retired ==> !s.valid)
    && (s.valid ==> s.kind != NoOutput && s.kind != Quarantined)
    && (s.kind == NoOutput ==> !s.valid && s.identity == 0)
    && (s.identity != 0 ==> s.kind == NativeOutput || s.kind == RescueOutput || s.kind == Quarantined)
    && s.next < U64 && (s.next == 0 || s.identity < s.next)
  }

  /** How a step may move the two machines. */
  predicate Advances(s: Screen, s': Screen) {
    && (s'.lease == Kernel ==> s.lease == Kernel || s.lease == Reclaim)
    && (s.lease == Kernel ==> s'.lease == Kernel || s'.lease == Handoff)
    && (s.lease == Reclaim ==> s'.lease == Reclaim || s'.lease == Kernel)
    && (s'.lease == User && s.lease != User ==> s.lease == Handoff && Matches(s, s.leased))
    && Rank(s.scanout) <= Rank(s'.scanout)
    && (s.scanout != Retired && s'.scanout == Retired ==> s'.writing == [])
    && (s'.identity != s.identity ==> s.next != 0 && s'.identity == s.next && s.writing == [])
    && (s'.next == s.next || s'.next == (s.next + 1) % U64)
  }

  function Rank(x: Scanout): nat {
    match x
    case Unavailable => 0
    case Firmware => 1
    case Retiring => 2
    case Retired => 3
  }

  lemma StepInv(s: Screen, op: Op)
    requires Inv(s)
    ensures Inv(Apply(s, op).0) && Advances(s, Apply(s, op).0)
    ensures op == OpEndRestore && s.restoring > 0 ==> Apply(s, op).1
  {
  }

  /** An output that exists, or existed, and is not the valid one. */
  predicate Gone(s: Screen, identity: nat) {
    (s.next == 0 || identity < s.next) && !Matches(s, identity)
  }

  lemma StepKeepsGone(s: Screen, op: Op, identity: nat)
    requires Inv(s) && Gone(s, identity)
    ensures Gone(Apply(s, op).0, identity)
  {
  }

  // ---------------------------------------------------------------------- runs

  lemma {:induction false} RunInv(s: Screen, ops: seq<Op>)
    requires Inv(s)
    ensures Inv(Run(s, ops)) && Rank(s.scanout) <= Rank(Run(s, ops).scanout)
    decreases |ops|
  {
    hide Inv, Apply;
    if ops != [] {
      StepInv(s, ops[0]);
      RunInv(Apply(s, ops[0]).0, ops[1..]);
    }
  }

  /** In every reachable state: while a process holds or is being given the screen,
      no kernel writer is active and none is admitted; every active writer was
      admitted to the output that is current; and a restoration under way always
      completes. */
  lemma ScreenIsExclusive(ops: seq<Op>)
    ensures var s := Run(Boot, ops);
            && (s.lease == Handoff || s.lease == User ==> s.writing == [] && !WriteBegin(s).1)
            && (forall w :: 0 <= w < |s.writing| ==> s.writing[w] == s.identity)
            && (s.restoring > 0 ==> EndRestore(s).1)
  {
    RunInv(Boot, ops);
  }

  /** A revoked or retired output never matches again. */
  lemma {:induction false} GoneForGood(s: Screen, ops: seq<Op>, identity: nat)
    requires Inv(s) && Gone(s, identity)
    ensures !Matches(Run(s, ops), identity)
    decreases |ops|
  {
    hide Inv, Apply;
    if ops != [] {
      StepInv(s, ops[0]);
      StepKeepsGone(s, ops[0], identity);
      GoneForGood(Apply(s, ops[0]).0, ops[1..], identity);
    }
  }

  /** Revoking makes an output gone. */
  lemma RevokedIsGone(s: Screen, identity: nat)
    requires Inv(s) && Revoke(s, identity).1
    ensures Gone(Revoke(s, identity).0, identity)
  {
  }
}
