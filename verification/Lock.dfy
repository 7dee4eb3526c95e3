/** The execution lock: an advisory lock the kernel drops when its holder dies. */
module Lock {
  import opened Wrappers

  /** The lock file as the kernel sees it. */
  class LockFile {
    var holder: Option<nat>

    constructor ()
      ensures holder.None?
    {
      holder := None;
    }

    /** The process is gone: the kernel drops what it held. */
    method Drop(pid: nat)
      modifies this
      ensures holder == if old(holder) == Some(pid) then None else old(holder)
    {
      if holder == Some(pid) {
        holder := None;
      }
    }
  }

  datatype LockHeld = LockHeld

  class ExecutionLock {
    const file: LockFile
    const pid: nat
    var open: bool

    constructor (file: LockFile, pid: nat)
      requires file.holder != Some(pid)
      ensures this.file == file && this.pid == pid && Valid() && !open
    {
      this.file := file;
      this.pid := pid;
      open := false;
    }

    ghost predicate Valid()
      reads this, file
    {
      open <==> file.holder == Some(pid)
    }

    /** Exclusive and non-blocking: taken only from nobody; refused, also to its own holder, without effect. */
    method Acquire() returns (r: Result<(), LockHeld>)
      requires Valid()
      modifies this, file
      ensures Valid()
      ensures r.Success? ==> old(file.holder).None? && open && file.holder == Some(pid)
      ensures r.Failure? ==> open == old(open) && file.holder == old(file.holder)
    {
      var safe: bool := *;    // owner, type and mode of the file and its directory
      if !safe {
        return Failure(LockHeld);
      }
      if file.holder.Some? {
        return Failure(LockHeld);
      }
      file.holder := Some(pid);
      open := true;
      return Success(());
    }

    method Release()
      requires Valid()
      modifies this, file
      ensures Valid() && !open
      ensures file.holder == if old(open) then None else old(file.holder)
    {
      if open {
        file.holder := None;
        open := false;
      }
    }
  }
}
