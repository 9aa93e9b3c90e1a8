# SLS lock primitives and logger bookkeeping, in Dafny

This project models two small sequential pieces of the SLS streaming server's
`slscore` library and proves properties of them.

- **Locks** (`sls_lock.dfy`, module `SLSLock`). The exclusive mutex `CSLSMutex`,
  the read/write lock `CSLSRWLock` with its `m_inited` flag, and the scoped
  guard `CSLSLock`. The guard records which lock it took (`m_mutex` or
  `m_clock`), in which mode (`m_write`) and whether the acquisition succeeded
  (`m_locked`). Its destructor releases only what it recorded.
  - The native primitives are abstract lock state: a held flag for the mutex,
    and a reader count plus a writer flag for the read/write lock.
  - Each lock object keeps a ghost trace of the native calls it received.
  - The status code a native call returns is a parameter, so success and
    failure are both modelled.
  - A native call that reports success is required to find the lock
    available. In a single-thread view, "the call returned 0" means the lock
    was granted.
  - The guard's destructor is the method `Guard.Release`.
  - `GuardedRW` and `GuardedMutex` construct a guard and destroy it. Their
    contracts state balance: the lock state afterwards equals the state
    before, for a null pointer, a failed acquisition and a successful one.
- **Logger** (`sls_log.dfy`, module `SLSLog`). The logger `CSLSLog`:
  - the ordered level-name table;
  - the name-to-level search of `set_log_level`;
  - the threshold filter of `log`;
  - the singleton pointer `m_pInstance`, with the create-once rule of
    `create_instance`, `destory_instance`, and lazy creation by `log`,
    `set_log_level` and `set_log_file`;
  - the set-once rule for the log file name.

  `Logger` is the instance class. `LogSystem` holds the static instance
  pointer and the static operations. `LogSystem.Current` gives the instance's
  observable state as a value.

The model follows the code on three points:
- the mutex's native initialisation status is ignored;
- lock failures are printed with `printf`;
- the guard's copy constructor is not deleted.

## Model

| member | source | states |
|---|---|---|
| `SLSLock.Mutex.constructor` | slscore/SLSLock.hpp:46-53 | a new mutex is free; its only native call is the init |
| `SLSLock.Mutex.Destroy` | slscore/SLSLock.hpp:54-61 | the destructor always performs native teardown, whatever the state |
| `SLSLock.Mutex.Lock` | slscore/SLSLock.hpp:62-68 | from a free mutex, lock holds it with exactly one native lock call |
| `SLSLock.Mutex.TryLock` | slscore/SLSLock.hpp:69-77 | returns true iff the native trylock status is 0; the mutex is held afterwards iff it was held before or the attempt succeeded |
| `SLSLock.Mutex.Unlock` | slscore/SLSLock.hpp:78-84 | releasing a held mutex leaves it free, with one native unlock call |
| `SLSLock.RWLock.constructor` | slscore/SLSLock.hpp:96-111 | `inited` is true iff native init returned 0; the new lock has no readers and no writer |
| `SLSLock.RWLock.Destroy` | slscore/SLSLock.hpp:112-125 | native teardown is attempted iff `inited`; nothing else changes |
| `SLSLock.RWLock.TryLockWrite` | slscore/SLSLock.hpp:127-134 | returns the native status; the writer flag is set iff the status is 0 (POSIX convention); keeps the invariant that a writer excludes every reader |
| `SLSLock.RWLock.TryLockRead` | slscore/SLSLock.hpp:135-142 | returns the native status; one reader is added iff the status is 0 (POSIX convention); keeps the invariant that a writer excludes every reader |
| `SLSLock.RWLock.LockWrite` | slscore/SLSLock.hpp:143-151 | returns the native status; exclusive hold iff status 0; readers untouched; keeps the invariant that a writer excludes every reader |
| `SLSLock.RWLock.LockRead` | slscore/SLSLock.hpp:152-160 | returns the native status; one more reader iff status 0; writer untouched; keeps the invariant that a writer excludes every reader |
| `SLSLock.RWLock.UnlockRead` | slscore/SLSLock.hpp:161-167 | removes exactly one reader, with one native unlock call; keeps the invariant that a writer excludes every reader |
| `SLSLock.RWLock.UnlockWrite` | slscore/SLSLock.hpp:168-174 | clears the writer flag, with one native unlock call; keeps the invariant that a writer excludes every reader |
| `SLSLock.Guard.ForRWLock` | slscore/SLSLock.hpp:190-210 | a null lock acquires nothing. Otherwise `lock_write` is called when `write` is nonzero and `lock_read` when it is zero, exactly once. The lock is recorded and `m_locked` set iff the status is 0. The mutex stays null and the mode is recorded as `write != 0`. |
| `SLSLock.Guard.ForMutex` | slscore/SLSLock.hpp:212-223 | a non-null mutex is locked exactly once and recorded, with `m_locked` true and the read/write lock null; a null mutex leaves nothing recorded and `m_locked` false |
| `SLSLock.Guard.Pending` | slscore/SLSLock.hpp:225-232 | the destructor's unlocks, each only when locked: for a valid guard exactly one when locked and none otherwise; a mutex unlock only with a mutex, and the unlock mode always matches the recorded mode |
| `SLSLock.Guard.Release` | slscore/SLSLock.hpp:225-232 | the destructor performs exactly the pending unlocks: the mutex is released, or the read/write lock in the recorded mode (writer cleared or one reader removed), and nothing when not locked |
| `SLSLock.GuardedRW` | slscore/SLSLock.hpp:190-232 | balance: after construct-then-destroy, readers, writer and `inited` equal their values before, for a null, failed or successful acquisition; the native calls are the acquire plus, on success only, one unlock |
| `SLSLock.GuardedMutex` | slscore/SLSLock.hpp:212-232 | balance: a guarded mutex ends free, after exactly one lock and one unlock; a null mutex is untouched |
| `SLSLog.ToUpper` | slscore/SLSLog.cpp:117 | the upper-casing applied to the level name keeps the length, maps each ASCII lower-case letter to its capital and leaves every other character |
| `SLSLog.FindLevel` | slscore/SLSLog.cpp:118-125 | the table search from an index returns the first index whose name equals the input, or None exactly when no remaining entry matches |
| `SLSLog.LevelOf` | slscore/SLSLog.cpp:117-125 | a selected level is a table index whose name equals the upper-cased input; None iff no entry equals it |
| `SLSLog.LevelNamesDistinct` | slscore/SLSLog.cpp:35-42 | the six level names FATAL, ERROR, WARNING, INFO, DEBUG, TRACE are pairwise distinct |
| `SLSLog.ToUpperFixesUpper` | slscore/SLSLog.cpp:117 | upper-casing leaves a string with no lower-case letter unchanged |
| `SLSLog.ToUpperIdempotent` | slscore/SLSLog.cpp:117-125 | upper-casing is idempotent, so a name and its upper-case form select the same level |
| `SLSLog.LevelOfTableName` | slscore/SLSLog.cpp:35-42 | the name at table index i selects exactly level i |
| `SLSLog.LevelOfUpperName` | slscore/SLSLog.cpp:117-123 | any name whose upper-case form equals table entry i selects exactly level i, the rule `set_log_level` follows |
| `SLSLog.LevelOfDebug` | slscore/SLSLog.cpp:117-123 | matching ignores case: the name "debug" selects level DEBUG (4) |
| `SLSLog.LevelOfUnknown` | slscore/SLSLog.cpp:119-126 | a name outside the table ("verbose") selects no level, so `set_log_level` keeps the current one |
| `SLSLog.Logger.constructor` | slscore/SLSLog.cpp:48-53 | a new instance has level INFO, no open file and an empty file name |
| `SLSLog.Logger.Close` | slscore/SLSLog.cpp:55-61 | the instance destructor leaves no file open |
| `SLSLog.LogSystem.constructor` | slscore/SLSLog.cpp:46 | before any call there is no instance |
| `SLSLog.LogSystem.Lazy` | slscore/SLSLog.cpp:81-82 | an instance with the constructor defaults is installed iff none exists; an existing one is kept unchanged |
| `SLSLog.LogSystem.CreateInstance` | slscore/SLSLog.cpp:63-71 | with no instance: returns 0 and installs a fresh one at level ERROR with no file. Otherwise: returns -1, and the pointer and the state are unchanged |
| `SLSLog.LogSystem.DestroyInstance` | slscore/SLSLog.cpp:73-77 | always returns 0 and leaves no instance; a destroyed instance has no open file |
| `SLSLog.LogSystem.Log` | slscore/SLSLog.cpp:79-90 | creates the instance lazily; the message is emitted iff its level is at most the current level; the instance state does not change |
| `SLSLog.LogSystem.SetLogLevel` | slscore/SLSLog.cpp:112-127 | creates the instance lazily. A name whose upper-case form is table entry i sets the level to exactly i (with `LevelOfUpperName`). An unknown name leaves the state unchanged. File state is untouched. |
| `SLSLog.LogSystem.SetLogFile` | slscore/SLSLog.cpp:129-138 | creates the instance lazily. While no file name is recorded, it records the name and the file is open iff fopen succeeded. Once a name is recorded, nothing changes. |
| `SLSLog.SetLogFileOnce` | slscore/SLSLog.cpp:134-137 | after a first non-empty file name is set, a second call keeps the first name |
| `SLSLog.LogThenCreate` | slscore/SLSLog.cpp:63-82 | once `log` has created the instance lazily, `create_instance` returns -1 and the level stays INFO |

## Left out

- Blocking, fairness and thread interleaving of the native `pthread_*`, critical-section and SRW calls. These are concurrency. Each call is modelled only as a state change plus a status result. A successful call requires the lock to be available.
- Win32 conventions. `lock_write`/`lock_read` always return 0 there. `try_lock_write`/`try_lock_read` return nonzero on success, the opposite of pthread. The read/write lock's destructor calls `ReleaseSRWLockExclusive` on a lock it may not hold. Only the POSIX path is modelled; these differences are noted in comments.
- SLSLock.RWLock.TryLockWrite: states only the POSIX return convention (0 means acquired), because the Win32 convention is the opposite.
- SLSLock.RWLock.TryLockRead: states only the POSIX return convention (0 means acquired), because the Win32 convention is the opposite.
- The native status of mutex init and teardown, and of read/write lock teardown. The source only prints them or ignores them.
- SLSLock.Mutex.Lock: the status of `pthread_mutex_lock` is ignored by the source, so the model treats the call as always succeeding. A failing lock (for example on a mutex whose ignored init failed) is not modelled.
- SLSLock.Mutex.Unlock: the status of `pthread_mutex_unlock` is ignored by the source; the model treats the call as always succeeding.
- SLSLock.RWLock.UnlockRead: the status of `pthread_rwlock_unlock` is ignored by the source; the model treats the call as always succeeding.
- SLSLock.RWLock.UnlockWrite: the status of `pthread_rwlock_unlock` is ignored by the source; the model treats the call as always succeeding.
- SLSLock.Guard.ForMutex: sets `m_locked` whatever `lock()` did, unlike the read/write guard, which checks its status. Because the model's `Mutex.Lock` cannot fail, `GuardedMutex` cannot show the case where the destructor unlocks a mutex whose lock failed.
- The `printf` diagnostics of both files.
- Copy and assignment of the guard. The source does not forbid them, so no non-copyable property is stated.
- `print_log` as a whole: timestamp formatting, `sprintf`/`vsnprintf`, console and file output, and its internal mutex. It also indexes the level table with an unchecked level and may write and read past the end of its 4096-byte buffer when the message is truncated, because `vsnprintf` returns the untruncated length. A caller would need `0 <= level <= 5`. The model only decides whether the message is emitted.
- The format string and variadic arguments of `log`.
- `sls_strupper` is not part of this model. It is taken to be ASCII upper-casing (`ToUpper`). Names are taken to contain no NUL character, which would end a C string early.
- `strcpy` into the fixed-size `log_filename` buffer. Its size is declared in SLSLog.hpp, which is not part of this model, so overlong names are not modelled.
- `fopen`/`fclose` and heap allocation. A file handle is a flag; fopen's success is an input.
- The values of `SLS_LOG_ERROR` and `SLS_LOG_INFO`. They are declared in SLSLog.hpp, which is not part of this model. They are taken as the table indices 1 and 3, the order `print_log` relies on.
- The ring buffer `CSLSArray` (slscore/SLSArray.hpp). Only its declaration is given; the bodies of `put`, `get`, `setSize`, `count`, `clear` and `get_inline` are not. Its wrap, overflow and partial-read behaviour is therefore not modelled. The one inline body, `put(const char*, int)`, returns 0 for any non-null input, so nothing about the buffer can be stated from it.
