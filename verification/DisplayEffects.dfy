/**
 Whose the screen is, told by the calls: a process that was given the screen keeps it
 until the screen is taken back from that very process, and a handoff is for the output
 that was prepared.
 */
module DisplayEffects {
  import opened DisplayLease

  // ------------------------------------------------------------------ one call

  /** A handoff can be prepared exactly for the valid output, with the kernel in charge
      and no writer active; it can be committed exactly while that output stays valid. */
  lemma HandoffIff(s: Screen, identity: nat, usable: bool, process: nat)
    ensures Prepare(s, identity, usable).1 <==>
      usable && s.lease == Kernel && s.valid && s.identity == identity && s.writing == []
    ensures Prepare(s, identity, usable).1 ==>
      (Commit(Prepare(s, identity, usable).0, process).1 <==> process != 0)
  {
  }

  /** Handing the screen to a process and taking it back from it, or calling the handoff
      off, leaves the screen as it was; no other process can take it back. */
  lemma HandoffAndBack(s: Screen, identity: nat, process: nat, other: nat)
    requires Inv(s) && process != 0 && Prepare(s, identity, true).1
    ensures var s1 := Prepare(s, identity, true).0;
            var s2 := Commit(s1, process).0;
            var (s3, taken) := BeginRestore(s2, User, process);
            var (s4, undone) := BeginRestore(s1, Handoff, other);
            && s2.lease == User
            && (BeginRestore(s2, User, other).1 <==> other == process)
            && taken && EndRestore(s3) == (s.(leased := 0), true)
            && undone && EndRestore(s4) == (s.(leased := 0), true)
  {
  }

  /** A new output has the next identity and the kind asked for, and takes writers. */
  lemma InstallExact(s: Screen, rescue: bool, retained: bool)
    requires Inv(s)
    ensures var (s', ok) := Install(s, rescue, retained);
            && (ok <==>
                  retained && s.next != 0 && s.scanout == Retired && !s.valid && s.writing == [] && s.lease == Kernel)
            && (!ok ==> s' == s)
            && (ok ==>
                  && Matches(s', s.next) && !Matches(s, s.next) && Gone(s', s.identity)
                  && s'.kind == (if rescue then RescueOutput else NativeOutput)
                  && WriteBegin(s').1 && Revoke(s', s.next).1)
  {
  }

  // ------------------------------------------------------------------ writers

  /** Writers finish, each the first of those left. */
  function Finish(s: Screen, n: nat): Screen
    decreases n
  {
    if n == 0 then s else Finish(WriteEnd(s, 0).0, n - 1)
  }

  lemma {:induction false} FinishExact(s: Screen, n: nat)
    requires n <= |s.writing|
    ensures Finish(s, n) ==
      s.(writing := s.writing[n..],
         scanout := if 0 < n == |s.writing| && s.scanout == Retiring then Retired else s.scanout)
    decreases n
  {
    if n > 0 {
      var s1 := WriteEnd(s, 0).0;
      assert s1.writing == s.writing[1..];
      FinishExact(s1, n - 1);
    }
  }

  /** The firmware's scanout is retired at once if nobody writes, and otherwise exactly
      when the last writer is done; no new writer is admitted meanwhile. */
  lemma {:induction false} LastWriterRetires(s: Screen, n: nat)
    requires Inv(s) && s.scanout == Firmware && s.lease == Kernel && n <= |s.writing|
    ensures var (s1, retired) := Retire(s);
            && (retired <==> s.writing == [])
            && (Finish(s1, n).scanout == Retired <==> n == |s.writing|)
            && !WriteBegin(Finish(s1, n)).1
            && (n == |s.writing| ==> Install(Finish(s1, n), false, true).1 == (s.next != 0))
  {
    FinishExact(Retire(s).0, n);
  }

  // --------------------------------------------------------------------- whole runs

  /** The screen belongs to `process` alone. */
  predicate Holds(s: Screen, process: nat) {
    s.lease == User && s.owner == process && s.writing == []
  }

  lemma StepHolds(s: Screen, op: Op, process: nat)
    requires Inv(s) && Holds(s, process) && op != OpBeginRestore(User, process)
    ensures Holds(Apply(s, op).0, process)
  {
  }

  lemma {:induction false} RunHolds(s: Screen, ops: seq<Op>, process: nat)
    requires Inv(s) && Holds(s, process) && OpBeginRestore(User, process) !in ops
    ensures Inv(Run(s, ops)) && Holds(Run(s, ops), process)
    decreases |ops|
  {
    hide Inv, Holds, Apply;
    if ops != [] {
      StepInv(s, ops[0]);
      StepHolds(s, ops[0], process);
      RunHolds(Apply(s, ops[0]).0, ops[1..], process);
    }
  }

  /** Over every run: once the screen was committed to a process, and until it is taken
      back from that process, no kernel writer is admitted, no other process is given the
      screen, and taking it back works for that process and for no other. */
  lemma ScreenStaysGiven(before: seq<Op>, process: nat, more: seq<Op>, other: nat)
    requires Commit(Run(Boot, before), process).1 && OpBeginRestore(User, process) !in more
    ensures var s := Run(Commit(Run(Boot, before), process).0, more);
            && !WriteBegin(s).1 && !Commit(s, other).1 && s.writing == []
            && (BeginRestore(s, User, other).1 <==> other == process)
            && !BeginRestore(s, Handoff, other).1
  {
    hide Run;
    RunInv(Boot, before);
    var s := Run(Boot, before);
    StepInv(s, OpCommit(process));
    RunHolds(Commit(s, process).0, more, process);
  }

  /** While it lasts, the handoff is for this output. */
  predicate For(s: Screen, identity: nat) {
    s.lease == Handoff ==> s.leased == identity
  }

  predicate IsPrepare(op: Op) {
    op.OpPrepare?
  }

  lemma {:induction false} RunFor(s: Screen, ops: seq<Op>, identity: nat)
    requires For(s, identity) && forall i :: 0 <= i < |ops| ==> !IsPrepare(ops[i])
    ensures For(Run(s, ops), identity)
    decreases |ops|
  {
    if ops != [] {
      assert !IsPrepare(ops[0]);
      RunFor(Apply(s, ops[0]).0, ops[1..], identity);
    }
  }

  /** Over every run: after a handoff was prepared for an output, and until another is
      prepared, a commit works only while the handoff lasts and that output is the valid
      one, and then always. */
  lemma CommitIsForPrepared(s: Screen, identity: nat, more: seq<Op>, process: nat)
    requires Prepare(s, identity, true).1 && process != 0
    requires forall i :: 0 <= i < |more| ==> !IsPrepare(more[i])
    ensures var s2 := Run(Prepare(s, identity, true).0, more);
            Commit(s2, process).1 <==> s2.lease == Handoff && Matches(s2, identity)
  {
    RunFor(Prepare(s, identity, true).0, more, identity);
  }
}
