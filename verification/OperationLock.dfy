/** The lifecycle lock: one file lock that the kernel grants to one open file at a time and drops when it is closed. */
module OperationLock {
  import opened Basics

  datatype LockError = Busy | CannotOpen | Refused

  /** The kernel's side: the open files that exist, and the one that has the lock. */
  class FileLock {
    var open: set<nat>
    var holder: Option<nat>

    constructor ()
      ensures Valid() && open == {} && holder == None
    {
      open, holder := {}, None;
    }

    /** Only an open file can have the lock. */
    ghost predicate Valid()
      reads this
    {
      holder.Some? ==> holder.value in open
    }

    /** A process dies: the kernel closes its files, and drops the lock if one of them had it. */
    method Die(files: set<nat>)
      requires Valid()
      modifies this
      ensures Valid() && open == old(open) - files
      ensures holder == if old(holder).Some? && old(holder).value in files then None else old(holder)
    {
      if holder.Some? && holder.value in files {
        holder := None;
      }
      open := open - files;
    }
  }

  class Lock {
    const kernel: FileLock
    var file: Option<nat>

    /** acquire: opens the file and asks for the lock; whatever goes wrong, the file is closed again. */
    constructor TryAcquire(kernel: FileLock, fd: nat, opens: bool, grants: bool)
      requires kernel.Valid() && fd !in kernel.open
      modifies kernel
      ensures this.kernel == kernel && kernel.Valid()
      ensures file.Some? <==> opens && grants && old(kernel.holder) == None
      ensures if file.Some? then file == Some(fd) && Holds() && kernel.open == old(kernel.open) + {fd}
              else kernel.holder == old(kernel.holder) && kernel.open == old(kernel.open)
    {
      this.kernel := kernel;
      file := None;
      new;
      if opens {
        kernel.open := kernel.open + {fd};
        if kernel.holder == None && grants {
          kernel.holder := Some(fd);
          file := Some(fd);
        } else {
          kernel.open := kernel.open - {fd};
        }
      }
    }

    /**
     * Acquire: waits until the lock is free. `closed` are the files that other processes close meanwhile; a call during
     * which nobody gives the lock up does not return.
     */
    constructor Acquire(kernel: FileLock, fd: nat, opens: bool, grants: bool, closed: seq<set<nat>>)
      requires kernel.Valid() && fd !in kernel.open && forall i :: 0 <= i < |closed| ==> fd !in closed[i]
      requires opens && grants && kernel.holder.Some? ==>
                 exists i :: 0 <= i < |closed| && kernel.holder.value in closed[i]
      modifies kernel
      ensures this.kernel == kernel && kernel.Valid()
      ensures file.Some? <==> opens && grants
      ensures file.Some? ==> file == Some(fd) && Holds()
      ensures file.Some? && old(kernel.holder).Some? ==> old(kernel.holder).value !in kernel.open
      ensures file.None? ==> kernel.holder == old(kernel.holder) && kernel.open == old(kernel.open)
    {
      this.kernel := kernel;
      file := None;
      new;
      if opens {
        kernel.open := kernel.open + {fd};
        if grants {
          ghost var before := kernel.holder;
          var i := 0;
          while kernel.holder.Some?
            invariant 0 <= i <= |closed| && kernel.Valid() && fd in kernel.open && file == None && this.kernel == kernel
            invariant kernel.holder == None || kernel.holder == before
            invariant kernel.holder.Some? ==> exists j :: i <= j < |closed| && kernel.holder.value in closed[j]
            invariant before.Some? && kernel.holder == None ==> before.value !in kernel.open
            decreases |closed| - i
          {
            kernel.Die(closed[i]);
            i := i + 1;
          }
          kernel.holder := Some(fd);
          file := Some(fd);
        } else {
          kernel.open := kernel.open - {fd};
        }
      }
    }

    ghost predicate Holds()
      reads this, kernel
    {
      file.Some? && kernel.holder == file
    }

    /** Close: gives up the lock once; a second call does nothing, even if another command has the lock by then. */
    method Close()
      requires kernel.Valid() && (file.Some? ==> Holds())
      modifies this, kernel
      ensures file == None && kernel.Valid()
      ensures if old(file).Some? then kernel.holder == None && kernel.open == old(kernel.open) - {old(file).value}
              else kernel.holder == old(kernel.holder) && kernel.open == old(kernel.open)
    {
      if file.None? {
        return;
      }
      kernel.holder := None;
      kernel.open := kernel.open - {file.value};
      file := None;
    }
  }
}
