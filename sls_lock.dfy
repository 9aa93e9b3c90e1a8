/**
 * The lock primitives of slscore/SLSLock.hpp: an exclusive mutex (CSLSMutex),
 * a read/write lock (CSLSRWLock) and the scoped guard (CSLSLock).
 *
 * The native primitives (pthread on POSIX, critical sections and SRW locks on
 * Win32) are modelled as abstract lock state: a "held" flag for the mutex, a
 * reader count and a writer flag for the read/write lock. Every native call a
 * lock receives is appended to a ghost trace, so contracts can say which call
 * was made and how often. A status code that the native call would return is a
 * parameter, so success and failure are both modelled. When a native call
 * reports success the model requires the lock to have been available: blocking
 * until another thread releases it is concurrency, which the model leaves out.
 *
 * The POSIX convention is the one modelled. On Win32, lock_write/lock_read
 * always return 0, the SRW try-acquire calls return nonzero on success (the
 * opposite of pthread), and the read/write lock's destructor releases the SRW
 * lock exclusively instead of destroying it, possibly without holding it.
 */
module SLSLock {

  /** Native calls received by a mutex. */
  datatype MutexCall = MutexInit | MutexDestroy | MutexLock | MutexTryLock | MutexUnlock

  /** The unlock a guard's destructor performs. */
  datatype Unlock = UnlockMutex | UnlockWrite | UnlockRead

  /** Native calls received by a read/write lock. */
  datatype RWCall = RWInit | RWDestroy | WrLock | RdLock | TryWrLock | TryRdLock | RWUnlock

  /** CSLSMutex: a non-reentrant exclusive lock. */
  class Mutex {
    var held: bool
    ghost var calls: seq<MutexCall>

    /** Native initialisation; its status is not inspected by the source. */
    constructor ()
      ensures !held && calls == [MutexInit]
    {
      held := false;
      calls := [MutexInit];
    }

    /** The destructor always tears the native mutex down. */
    method Destroy()
      modifies this`calls
      ensures calls == old(calls) + [MutexDestroy]
    {
      calls := calls + [MutexDestroy];
    }

    /** Blocks until the mutex is free, then holds it; relocking deadlocks. */
    method Lock()
      requires !held
      modifies this
      ensures held
      ensures calls == old(calls) + [MutexLock]
    {
      calls := calls + [MutexLock];
      held := true;
    }

    /** Non-blocking attempt: true iff the native trylock returned 0. */
    method TryLock(status: int) returns (ok: bool)
      requires held ==> status != 0
      modifies this
      ensures ok <==> status == 0
      ensures held == (old(held) || ok)
      ensures calls == old(calls) + [MutexTryLock]
    {
      calls := calls + [MutexTryLock];
      if status != 0 {
        return false;
      }
      held := true;
      return true;
    }

    /** Releases a mutex the caller holds. */
    method Unlock()
      requires held
      modifies this
      ensures !held
      ensures calls == old(calls) + [MutexUnlock]
    {
      calls := calls + [MutexUnlock];
      held := false;
    }
  }

  /** CSLSRWLock: shared readers or one exclusive writer. */
  class RWLock {
    var inited: bool
    var readers: nat
    var writer: bool
    ghost var calls: seq<RWCall>

    /** A writer excludes every reader. */
    ghost predicate Valid()
      reads this
    {
      writer ==> readers == 0
    }

    /** The lock is free for an exclusive acquisition. */
    predicate Free()
      reads this
    {
      readers == 0 && !writer
    }

    /** Native initialisation; `inited` records whether it returned 0. */
    constructor (initStatus: int)
      ensures Valid() && Free()
      ensures inited <==> initStatus == 0
      ensures calls == [RWInit]
    {
      inited := false;
      readers, writer := 0, false;
      calls := [RWInit];
      if initStatus == 0 {
        inited := true;
      }
    }

    /**
     * The destructor: native teardown is attempted only on a lock whose
     * initialisation succeeded. The teardown status is only printed.
     */
    method Destroy() returns (tornDown: bool)
      modifies this`calls
      ensures tornDown == inited
      ensures calls == old(calls) + (if inited then [RWDestroy] else [])
    {
      tornDown := false;
      if inited {
        calls := calls + [RWDestroy];
        tornDown := true;
      }
    }

    /** Blocking exclusive acquisition; returns the native status. */
    method LockWrite(status: int) returns (ret: int)
      requires Valid()
      requires status == 0 ==> Free()
      modifies this`writer, this`calls
      ensures Valid()
      ensures ret == status
      ensures writer == (old(writer) || status == 0)
      ensures calls == old(calls) + [WrLock]
    {
      calls := calls + [WrLock];
      if status == 0 {
        writer := true;
      }
      ret := status;
    }

    /** Blocking shared acquisition; returns the native status. */
    method LockRead(status: int) returns (ret: int)
      requires Valid()
      requires status == 0 ==> !writer
      modifies this`readers, this`calls
      ensures Valid()
      ensures ret == status
      ensures readers == old(readers) + (if status == 0 then 1 else 0)
      ensures calls == old(calls) + [RdLock]
    {
      calls := calls + [RdLock];
      if status == 0 {
        readers := readers + 1;
      }
      ret := status;
    }

    /** Non-blocking exclusive attempt; on POSIX 0 means acquired. */
    method TryLockWrite(status: int) returns (ret: int)
      requires Valid()
      requires status == 0 ==> Free()
      modifies this`writer, this`calls
      ensures Valid()
      ensures ret == status
      ensures writer == (old(writer) || status == 0)
      ensures calls == old(calls) + [TryWrLock]
    {
      calls := calls + [TryWrLock];
      if status == 0 {
        writer := true;
      }
      ret := status;
    }

    /** Non-blocking shared attempt; on POSIX 0 means acquired. */
    method TryLockRead(status: int) returns (ret: int)
      requires Valid()
      requires status == 0 ==> !writer
      modifies this`readers, this`calls
      ensures Valid()
      ensures ret == status
      ensures readers == old(readers) + (if status == 0 then 1 else 0)
      ensures calls == old(calls) + [TryRdLock]
    {
      calls := calls + [TryRdLock];
      if status == 0 {
        readers := readers + 1;
      }
      ret := status;
    }

    /** Releases one shared hold (pthread_rwlock_unlock on POSIX). */
    method UnlockRead()
      requires Valid()
      requires readers > 0
      modifies this`readers, this`calls
      ensures Valid()
      ensures readers == old(readers) - 1
      ensures calls == old(calls) + [RWUnlock]
    {
      calls := calls + [RWUnlock];
      readers := readers - 1;
    }

    /** Releases the exclusive hold (pthread_rwlock_unlock on POSIX). */
    method UnlockWrite()
      requires Valid()
      requires writer
      modifies this`writer, this`calls
      ensures Valid()
      ensures !writer
      ensures calls == old(calls) + [RWUnlock]
    {
      calls := calls + [RWUnlock];
      writer := false;
    }
  }

  /**
   * CSLSLock: a scoped guard bound to a mutex or to a read/write lock. It
   * records which lock it holds, in which mode, and whether it holds it.
   */
  class Guard {
    var mutex: Mutex?
    var clock: RWLock?
    var write: bool
    var locked: bool

    /** At most one lock is recorded, and one is recorded iff it is held. */
    ghost predicate Valid()
      reads this
    {
      (mutex == null || clock == null) &&
      (locked <==> mutex != null || clock != null)
    }

    /** Whether the recorded lock is currently held in the recorded mode. */
    ghost predicate HoldsRecorded()
      reads this, mutex, clock
    {
      (locked && mutex != null ==> mutex.held) &&
      (locked && clock != null ==> if write then clock.writer else clock.readers > 0)
    }

    /**
     * The unlocks the destructor performs, tested in its order: the mutex,
     * then the read/write lock in the recorded mode, each only when locked.
     * For a valid guard there is exactly one when locked and none otherwise.
     */
    function Pending(): (r: seq<Unlock>)
      reads this
      ensures Valid() ==> |r| == (if locked then 1 else 0)
      ensures forall u :: u in r ==> locked
      ensures UnlockMutex in r ==> mutex != null
      ensures UnlockWrite in r ==> clock != null && write
      ensures UnlockRead in r ==> clock != null && !write
    {
      (if locked && mutex != null then [UnlockMutex] else []) +
      (if locked && clock != null then [if write then UnlockWrite else UnlockRead] else [])
    }

    /**
     * Binds to a read/write lock, acquiring it for writing when `write` is
     * nonzero and for reading otherwise; a null lock acquires nothing, and a
     * nonzero acquisition status leaves nothing recorded.
     */
    constructor ForRWLock(clock: RWLock?, write: int, status: int)
      requires clock != null ==> clock.Valid()
      requires clock != null && status == 0 ==> if write != 0 then clock.Free() else !clock.writer
      modifies clock
      ensures Valid() && HoldsRecorded()
      ensures clock != null ==> clock.Valid()
      ensures mutex == null && this.write == (write != 0)
      ensures locked <==> clock != null && status == 0
      ensures this.clock == (if locked then clock else null)
      ensures clock != null ==> clock.calls == old(clock.calls) + [if write != 0 then WrLock else RdLock]
      ensures clock != null ==> clock.inited == old(clock.inited)
      ensures clock != null && write != 0 ==>
        clock.writer == (old(clock.writer) || status == 0) && clock.readers == old(clock.readers)
      ensures clock != null && write == 0 ==>
        clock.readers == old(clock.readers) + (if status == 0 then 1 else 0) && clock.writer == old(clock.writer)
    {
      this.mutex := null;
      this.clock := null;
      this.locked := false;
      this.write := write != 0;
      new;
      if clock != null {
        var ret := 0;
        if write != 0 {
          ret := clock.LockWrite(status);
        } else {
          ret := clock.LockRead(status);
        }
        if ret == 0 {
          this.clock := clock;
          this.locked := true;
        }
      }
    }

    /** Binds to a mutex and locks it; a null mutex acquires nothing. */
    constructor ForMutex(m: Mutex?)
      requires m != null ==> !m.held
      modifies m
      ensures Valid() && HoldsRecorded()
      ensures clock == null && mutex == m && !write
      ensures locked <==> m != null
      ensures m != null ==> m.held && m.calls == old(m.calls) + [MutexLock]
    {
      this.clock := null;
      this.mutex := null;
      this.locked := false;
      this.write := false;
      new;
      if m != null {
        this.mutex := m;
        m.Lock();
        this.locked := true;
      }
    }

    /**
     * The destructor: releases only what the guard recorded, in the recorded
     * mode, and reports the unlocks it performed.
     */
    method Release() returns (released: seq<Unlock>)
      requires Valid() && HoldsRecorded()
      requires clock != null ==> clock.Valid()
      modifies mutex, clock
      ensures released == Pending()
      ensures clock != null ==> clock.Valid()
      ensures mutex != null ==> !mutex.held && mutex.calls == old(mutex.calls) + [MutexUnlock]
      ensures clock != null ==> clock.calls == old(clock.calls) + [RWUnlock] && clock.inited == old(clock.inited)
      ensures clock != null && write ==> !clock.writer && clock.readers == old(clock.readers)
      ensures clock != null && !write ==> clock.readers == old(clock.readers) - 1 && clock.writer == old(clock.writer)
    {
      released := [];
      if locked && mutex != null {
        mutex.Unlock();
        released := released + [UnlockMutex];
      }
      if locked && clock != null {
        if write {
          clock.UnlockWrite();
          released := released + [UnlockWrite];
        } else {
          clock.UnlockRead();
          released := released + [UnlockRead];
        }
      }
    }
  }

  /**
   * Balance for a read/write guard: constructing a guard and letting it go out
   * of scope restores the lock state exactly, whether the pointer was null,
   * the acquisition failed or it succeeded. Only the native calls differ.
   */
  method GuardedRW(clock: RWLock?, write: int, status: int) returns (released: seq<Unlock>)
    requires clock != null ==> clock.Valid()
    requires clock != null && status == 0 ==> if write != 0 then clock.Free() else !clock.writer
    modifies clock
    ensures clock != null ==> clock.Valid()
    ensures released == (if clock != null && status == 0 then [if write != 0 then UnlockWrite else UnlockRead] else [])
    ensures clock != null ==>
      clock.readers == old(clock.readers) && clock.writer == old(clock.writer) && clock.inited == old(clock.inited)
    ensures clock != null ==>
      clock.calls == old(clock.calls) + [if write != 0 then WrLock else RdLock]
                                     + (if status == 0 then [RWUnlock] else [])
  {
    var g := new Guard.ForRWLock(clock, write, status);
    released := g.Release();
  }

  /** Balance for a mutex guard: the mutex ends as it started, free. */
  method GuardedMutex(m: Mutex?) returns (released: seq<Unlock>)
    requires m != null ==> !m.held
    modifies m
    ensures released == (if m != null then [UnlockMutex] else [])
    ensures m != null ==> !m.held && m.calls == old(m.calls) + [MutexLock, MutexUnlock]
  {
    var g := new Guard.ForMutex(m);
    released := g.Release();
  }
}
