/** The display and framebuffer globals, updated in place; the kernel keeps a count
 of its writers where the model keeps the writers themselves. */
module DisplayKernel {
  import opened DisplayLease

  class Display {
    var lease: Lease
    var owner: nat
    var leased: nat
    var scanout: Scanout
    var kind: Kind
    var valid: bool
    var identity: nat
    var next: nat
    var kernelWriters: nat
    ghost var writing: seq<nat>
    ghost var restoring: nat

    ghost predicate Valid()
      reads this
    {
      kernelWriters == |writing|
    }

    ghost function View(): Screen
      reads this
    {
      Screen(lease, owner, leased, scanout, kind, valid, identity, next, writing, restoring)
    }

    constructor ()
      ensures Valid() && View() == Boot
    {
      lease, owner, leased := Kernel, 0, 0;
      scanout, kind, valid := Firmware, FirmwareOutput, true;
      identity, next, kernelWriters := 0, 1, 0;
      writing, restoring := [], 0;
    }

    method BeginWrite() returns (allowed: bool)
      requires Valid()
      modifies `kernelWriters, `writing
      ensures Valid() && (View(), allowed) == WriteBegin(old(View()))
    {
      allowed := valid && (lease == Kernel || lease == Reclaim) && kernelWriters < WRITERS_MAX;
      if allowed {
        kernelWriters := kernelWriters + 1;
        writing := writing + [identity];
      }
    }

    /** `w` tells which of the active writers is done. */
    method EndWrite(ghost w: nat)
      requires Valid() && w < |writing|
      modifies `kernelWriters, `writing, `scanout
      ensures Valid() && View() == WriteEnd(old(View()), w).0
    {
      kernelWriters := kernelWriters - 1;
      writing := writing[..w] + writing[w + 1..];
      if kernelWriters == 0 && scanout == Retiring {
        scanout := Retired;
      }
    }

    method PrepareOutput(expected: nat, usable: bool) returns (ok: bool)
      requires Valid()
      modifies `lease, `leased, `owner
      ensures Valid() && (View(), ok) == Prepare(old(View()), expected, usable)
    {
      ok := usable && lease == Kernel && valid && identity == expected && kernelWriters == 0;
      if ok {
        lease, leased, owner := Handoff, expected, 0;
      }
    }

    method CommitTo(process: nat) returns (ok: bool)
      modifies `lease, `owner
      ensures (View(), ok) == Commit(old(View()), process)
    {
      ok := process != 0 && lease == Handoff && valid && identity == leased;
      if ok {
        lease, owner := User, process;
      }
    }

    method StartRestore(expected: Lease, process: nat) returns (ok: bool)
      modifies `lease, `leased, `owner, `restoring
      ensures (View(), ok) == BeginRestore(old(View()), expected, process)
    {
      ok := (expected == Handoff || expected == User) && lease == expected &&
        (expected != User || (process != 0 && owner == process));
      if ok {
        lease, leased, owner := Reclaim, 0, 0;
        restoring := restoring + 1;
      }
    }

    /** The check that the lease is still being reclaimed never fails. */
    method FinishRestore() returns (ok: bool)
      requires Inv(View()) && restoring > 0
      modifies `lease, `restoring
      ensures ok && View() == EndRestore(old(View())).0
    {
      restoring := restoring - 1;
      ok := lease == Reclaim;
      if ok {
        lease := Kernel;
      }
    }

    method RetireFirmware() returns (drained: bool)
      requires Valid()
      modifies `scanout, `valid, `kind
      ensures Valid() && (View(), drained) == Retire(old(View()))
    {
      if identity != 0 || lease != Kernel || scanout == Unavailable {
        return false;
      }
      if scanout == Firmware {
        scanout, valid, kind := Retiring, false, NoOutput;
      }
      if scanout == Retiring && kernelWriters == 0 {
        scanout := Retired;
      }
      return scanout == Retired;
    }

    method InstallNative(rescue: bool, retained: bool) returns (ok: bool)
      requires Valid()
      modifies `identity, `next, `kind, `valid
      ensures Valid() && (View(), ok) == Install(old(View()), rescue, retained)
    {
      ok := next != 0 && scanout == Retired && !valid && kernelWriters == 0 && lease == Kernel && retained;
      if ok {
        identity := next;
        next := (next + 1) % U64;
        kind := if rescue then RescueOutput else NativeOutput;
        valid := true;
      }
    }

    method RevokeOutput(expected: nat) returns (ok: bool)
      modifies `valid, `kind
      ensures (View(), ok) == Revoke(old(View()), expected)
    {
      ok := expected != 0 && identity == expected &&
        (kind == NativeOutput || kind == RescueOutput || kind == Quarantined);
      if ok {
        valid, kind := false, Quarantined;
      }
    }
  }
}
