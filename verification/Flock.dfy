/** File locks: src/bpm/flock/flock.go over the lock table of the kernel. */
module Flock {

  /** The kernel's table of exclusive locks: which handle holds the lock of a file. */
  class Kernel {
    var holder: map<string, Handle>

    constructor ()
      ensures holder == map[]
    {
      holder := map[];
    }
  }

  /** What a call returns; `Waiting` means that it did not return yet. */
  datatype Reply = Done | SyscallFailed | Panic | Waiting

  /** A handle on a file, as flock.New opens it. Its mutex makes Lock and Unlock atomic. */
  class Handle {
    const file: string
    var locked: bool

    constructor (path: string)
      ensures file == path && !locked
    {
      file := path;
      locked := false;
    }

    /** The handle owns the lock of its file in the kernel's table. */
    predicate Owns(k: Kernel)
      reads k
    {
      file in k.holder && k.holder[file] == this
    }

    /** Lock waits while another handle holds the file; LOCK_EX on a file this very handle holds
        succeeds again. A failed system call changes nothing. */
    method Lock(k: Kernel) returns (r: Reply)
      modifies this`locked, k
      ensures r == Done ==> locked && k.holder == old(k.holder)[file := this]
      ensures r == Done ==> file !in old(k.holder) || old(Owns(k))
      ensures r == Waiting ==> file in k.holder && k.holder[file] != this
      ensures r != Done ==> locked == old(locked) && k.holder == old(k.holder)
      ensures r != Panic
    {
      var ok: bool := *;
      if !ok {
        return SyscallFailed;
      }
      if file in k.holder && k.holder[file] != this {
        return Waiting;
      }
      k.holder := k.holder[file := this];
      locked := true;
      return Done;
    }

    /** Unlocking an unlocked handle panics. LOCK_UN gives up the lock if this handle holds it. */
    method Unlock(k: Kernel) returns (r: Reply)
      modifies this`locked, k
      ensures (r == Panic <==> !old(locked)) && r != Waiting
      ensures r == Done ==> !locked && k.holder == if old(Owns(k)) then old(k.holder) - {file} else old(k.holder)
      ensures r != Done ==> locked == old(locked) && k.holder == old(k.holder)
    {
      if !locked {
        return Panic;
      }
      var ok: bool := *;
      if !ok {
        return SyscallFailed;
      }
      if Owns(k) {
        k.holder := k.holder - {file};
      }
      locked := false;
      return Done;
    }
  }

  /** The flags of these handles say who holds what. */
  ghost predicate FlagsMatch(k: Kernel, handles: set<Handle>)
    reads k, handles
  {
    forall h :: h in handles ==> (h.locked <==> h.Owns(k))
  }

  datatype Operation = LockOp(h: Handle) | UnlockOp(h: Handle)

  /** Any sequence of operations on any handles, each failing or not; the caller of a Lock that waits
      may try it again later. */
  method Perform(k: Kernel, ghost handles: set<Handle>, ops: seq<Operation>)
    requires FlagsMatch(k, handles)
    requires forall op :: op in ops ==> op.h in handles
    modifies k, handles
    ensures FlagsMatch(k, handles)
    ensures forall h, g :: h in handles && g in handles && h.locked && g.locked && h.file == g.file ==> h == g
  {
    for i := 0 to |ops|
      invariant FlagsMatch(k, handles)
    {
      var h := ops[i].h;
      assert ops[i] in ops;
      if ops[i].LockOp? {
        var r := h.Lock(k);
      } else {
        var r := h.Unlock(k);
      }
    }
  }
}
