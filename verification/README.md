# A verified model of fast-stm

`fast-stm` is a software transactional memory: closures read and write `TVar`s through a
`Transaction`, which logs what they do and commits the log with two-phase locking. This project
models the log, the commit protocol, blocking on `retry` and the driver loops, and proves what the
library is for: committed transactions are strictly serializable, nobody sleeps through a change,
commits neither deadlock nor go on for ever, and `or`, `modify`, `exchange`, `optionally` and
`unwrap_or_retry` mean what they say.

## How the model is laid out

- `Values`, `Logs`: reference-counted values and the five-state log entry. An allocation has a
  machine address, which later allocations may reuse once it is free, and a serial number that
  only the model sees; `Arc::ptr_eq` compares addresses.
- `Programs`: transaction bodies as trees of calls into the transaction, with every operation and
  arbitrarily nested `or`. `Exec` runs a body on a log, with or without early conflict detection,
  against answers memory gave (any interference) or against memory nobody else touches. `RunDirect`
  and `RunPath` are two independent reference semantics on a plain store: the first prefers the
  first branch of `or` and rolls back, the second takes given branches.
- `LogLaws`, `RunFacts`, `Validation`, `Combinators`, `Branches`: laws of running one body, whatever
  memory answers.
- `ControlBlocks`, `Transactions`: the objects and their methods in the imperative form of the
  source, proved against the functions above. These methods run while nobody else does, on a
  `Memory` of finitely many variables; `Transactions.IncrementOnce` is a caller.
- `Machine`: any number of threads and variables, one atomic step at a time. A thread is idle, runs
  its closure, locks record by record, unlocks after a failed validation, publishes (drops read
  locks, then writes back and releases one variable at a time), wakes, registers and compares,
  polls, is parked, or is in its `set_dead` loop. `abs` is the store in which a commit is one step,
  taken when the last record is locked and validated; the variables lag behind it.
- `Invariants`, `Safety`, `Commits`, `Publication`: the inductive invariant `Inv` and why each step
  keeps it; `Serializability.BehaviourKeepsInv` carries it to every state of every run.
- `Serializability`, `Drivers`, `Versions`, `Conflicts`, `Wakeup`, `Retries`, `DeadWaiters`,
  `Progress`, `Liveness`, `Applications`: the theorems about whole runs.
- `Refinements`: what the methods of a variable's control block do is what the steps of the machine
  do to that variable.
- `Witnesses`: concrete runs from a start state. They show that transactions commit and return, that
  addresses are used again, and where the library's promises end.

Where the code and its documentation disagree the model follows the code:

- The documentation of `or` (`fast-stm/src/transaction/mod.rs:835`) says that a transaction blocked
  in both branches waits for the variables of both. `combine` keeps the second branch's entry, so a
  blind write there hides a read of the first branch; `Combinators.BlindWriteHidesRead` shows a body
  that blocks with nothing to wait for, and `Combinators.OrWaitsForBoth` says exactly when the
  promise holds.
- `or` prefers its first branch only as long as nobody interferes. A branch that retried is not
  validated, so a commit may take the second branch where its body run alone would take the first
  (`Witnesses.SecondBranchCommits`); `Applications.CommitTakesDirectBranches` says exactly when it
  does not.
- A thread that retried need not sleep because its closure would block: with `or`, the wait map may
  have lost what the first branch saw (`Witnesses.OrSleepsUnjustified`). What holds of every closure
  is `Retries.TakenPathStillBlocks`, and of those that wait for all they loaded
  `Retries.RetryWithOrJustified`.
- `write_atomic` is documented as equivalent to a transaction that writes
  (`fast-stm/src/tvar.rs:227-234`), but it wakes nobody: `Witnesses.WriteAtomicWakesNobody` is a run
  in which a waiter sleeps through it. `Wakeup.SleepersAreCurrent` says that a sleeper's variable has
  changed if and only if `write_atomic` overtook the value it saw.
- `read` is documented as possibly returning a value not committed yet
  (`fast-stm/src/transaction/mod.rs:557-558`). It returns the transaction's own pending write or a
  value that was committed (`Serializability.NoDirtyReads`).

## Model

| member | source | states |
|---|---|---|
| `Logs.CombineCommitsTheSame` | fast-stm/src/transaction/mod.rs:889-897 | merging another log adds neither a write nor a validated read |
| `Logs.CombineMergesWaits` | fast-stm/src/transaction/mod.rs:889-897 | the merged log waits for what it waited for before, and for the other log's reads of variables it does not mention |
| `LogLaws.LogOnlyGrows` | fast-stm/src/transaction/log_var.rs:43-102 | across any program, through backup, swap and merge, no entry is lost, a recorded value never changes, a blind write never gains a dependency, a validation or a write is never dropped |
| `Validation.ReadMakesReal` | fast-stm/src/transaction/log_var.rs:45-71 | after a read an entry is `Read` or `ReadWrite` if and only if it was not a write without a read; value, recorded value and pending write stay |
| `Validation.WriteMakesNothingReal` | fast-stm/src/transaction/log_var.rs:74-86 | after a write an entry is `Read` or `ReadWrite` if and only if it was before; the recorded value stays |
| `Validation.ReadsAreNeeded` | fast-stm/src/transaction/log_var.rs:43-86 | at the end of any run, through every nesting of `or`, the log has a real read of exactly the variables it had one of at the start and those the path taken reads without having blindly written them |
| `LogLaws.TakenPathReplays` | fast-stm/src/transaction/mod.rs:838-897 | under any interference, replaying only the branches taken on a store that agrees with the validated entries reads the same values, ends the same way and writes exactly the pending writes |
| `LogLaws.LogRunMeansDirectRun` | fast-stm/src/transaction/mod.rs:563-874 | if no loaded value changes, running on the log is running directly with rollback and left-biased `or`; early conflict detection never fires and all that was recorded is still current |
| `LogLaws.LiveNeverAsks` | fast-stm/src/transaction/mod.rs:563-874 | on memory nobody else touches every body runs to its end |
| `RunFacts.SoundRun` | fast-stm/src/transaction/mod.rs:577-597 | recorded values were loaded from their variable, each pending write is an allocation of its own, and a `Failure` raised by the library names a variable whose last load differed from the recorded value |
| `Validation.AsksAgain` | fast-stm/src/transaction/mod.rs:577-612 | a call whose answer is still to come loads its variable if and only if the log has no entry for it, or an entry that was only read and early conflict detection is on |
| `Validation.StopsExactlyAtConflicts` | fast-stm/src/transaction/mod.rs:577-597 | early conflict detection stops a run if and only if the run gets to a `read`, `modify` or `exchange` that finds a variable it had only read at another allocation; it stops there with the log as it was |
| `RunFacts.AnswerRun` | fast-stm/src/transaction/mod.rs:574-626 | a run holds on to what it held and to the answer it was given; all else may be freed and its address reused |
| `Combinators.UnfusedRunsTheSame` | fast-stm/src/transaction/mod.rs:671-830 | replacing every `modify` and `exchange` of a program by `read` and `write` changes neither outcome, log nor branches of any run, with and without early conflict detection; a run that waits for memory waits for the same load or box, except that `exchange` boxes before it loads, so the other may be at the load or have been stopped by it |
| `Combinators.UnfusedMeansTheSame` | fast-stm/src/transaction/mod.rs:664-830 | nor what the program does to a store when run atomically |
| `Combinators.OrMerges` | fast-stm/src/transaction/mod.rs:838-897 | when the first branch retries and the second does not fail, writes and validated reads are those of the second branch run from the backup; the wait map adds the first branch's reads of variables absent from the second log |
| `Combinators.OrWaitsForBoth` | fast-stm/src/transaction/mod.rs:835-837 | the documented promise to wait for the variables of both branches holds if and only if the second log has no blind write to a variable the first branch read |
| `Combinators.OrWaitsForFirst` | fast-stm/src/transaction/mod.rs:889-897 | the wait map holds all values the first branch saw if and only if the second branch recorded no other value for any of them |
| `Combinators.OrFails` | fast-stm/src/transaction/mod.rs:838-874 | a failure in either branch is the failure of the whole, with the log of that branch alone: nothing else is tried and nothing is merged |
| `Combinators.BlindWriteHidesRead` | fast-stm/src/transaction/mod.rs:835-837 | a body that blocks in both branches and waits for nothing |
| `Combinators.RereadReplacesValue` | fast-stm/src/transaction/mod.rs:889-897 | a re-read in the second branch replaces the older value the first branch saw |
| `Combinators.OrIsNotLeftBiased` | fast-stm/src/transaction/mod.rs:1007-1009 | the log of a body that took its second branch agrees with a store on which the body, run atomically, takes its first |
| `Witnesses.SecondBranchCommits` | fast-stm/src/transaction/mod.rs:1007-1009 | and a run of two threads in which it commits there |
| `Branches.DirectChoices` | fast-stm/src/transaction/mod.rs:838-874 | a path through the branches of `or` that ends well makes the choices of atomic execution if and only if every first branch it passed over blocks on the store it would have met; and then it is atomic execution |
| `Combinators.OptionallyRuns` | fast-stm/src/lib.rs:365-370 | `optionally` gives the body's value, or `None` on the log as it was when the body retries, then waiting for all it read |
| `Combinators.OptionallyThenUnwrap` | fast-stm/src/lib.rs:292-370 | `unwrap_or_retry(optionally(tx, f)?)` has the outcome of `f`, its log unless it retries, and exactly its wait map |
| `Combinators.UnwrapThenOptionally` | fast-stm/src/lib.rs:307-312 | `optionally` of `unwrap_or_retry(o)` is `o` and leaves the log alone |
| `ControlBlocks.ControlBlock.SetChanged` | fast-stm/src/transaction/control_block.rs:46-52 | the flag is cleared, and the thread unparked only by the first call |
| `Values.KeepCounts` | fast-stm/src/tvar.rs:137-138 | cleanup keeps every live waiter as often as it was there and no dead one |
| `Values.KeepsOrder` | fast-stm/src/tvar.rs:137-138 | and keeps the live ones in their order: the result is what stands at the places of the live waiters, from left to right |
| `ControlBlocks.VarControlBlock.WakeAll` | fast-stm/src/tvar.rs:91-107 | the list is empty, its live waiters are signalled, each unparked at most once, dead ones untouched |
| `ControlBlocks.VarControlBlock.Wait` | fast-stm/src/tvar.rs:111-115 | the waiter is appended to the list |
| `ControlBlocks.VarControlBlock.SetDead` | fast-stm/src/tvar.rs:124-140 | counts one more dead waiter; a call that finds 64 or more resets the counter and keeps the live waiters only, in order |
| `Transactions.Transaction.Read` | fast-stm/src/transaction/mod.rs:563-629 | fails exactly if early conflict detection is on, the variable was only read before and holds another allocation now, and then leaves the log alone; else the value and log of a read for the one load it makes |
| `Transactions.Transaction.Write` | fast-stm/src/transaction/mod.rs:635-662 | a freshly boxed value becomes the pending write of the variable |
| `Transactions.Transaction.Modify` | fast-stm/src/transaction/mod.rs:671-747 | fails exactly when `read` would, with nothing boxed or logged; else the log after a read followed by a write of `f` of the value read |
| `Transactions.Transaction.Exchange` | fast-stm/src/transaction/mod.rs:755-830 | fails exactly when `read` would; else the value of a read and the log of that read followed by a write; the new value is boxed first, conflict or not |
| `Transactions.Transaction.CombineWith` | fast-stm/src/transaction/mod.rs:889-897 | the loop over the other log computes `Combine`, whatever order it visits the entries in |
| `Transactions.Transaction.Or` | fast-stm/src/transaction/mod.rs:838-874 | backup, swap and merge in place end as the two branches run one after the other say |
| `Transactions.Transaction.Run` | fast-stm/src/transaction/mod.rs:563-874 | a closure run through the methods, log updated in place, does what `Exec` says |
| `Transactions.Transaction.LockAndValidate` | fast-stm/src/transaction/mod.rs:979-1022 | succeeds exactly if every variable with a `Read` or `ReadWrite` entry still holds the recorded pointer, whatever became of the others; then it has collected the write set, each variable once and in address order |
| `Transactions.Transaction.WriteBack` | fast-stm/src/transaction/mod.rs:1030-1033 | every written variable holds its pending value, every other one what it held |
| `Transactions.Transaction.WakeWritten` | fast-stm/src/transaction/mod.rs:1035-1039 | the lists of the written variables are empty; exactly their live waiters have their flag cleared, and are unparked once if it was set |
| `Transactions.Transaction.Commit` | fast-stm/src/transaction/mod.rs:953-1043 | returns true exactly if every variable with a `Read` or `ReadWrite` entry holds the recorded pointer; then stores all writes, empties the lists of the written variables, clears the flags of their live waiters and unparks each at most once; otherwise changes no variable; all other lists and waiters are as before either way |
| `Transactions.Transaction.Register` | fast-stm/src/transaction/mod.rs:910-933 | enters lists up to and including that of the first variable it finds changed, and no further; would block exactly if none has changed, and is then in the list of every variable to wait for |
| `Transactions.Transaction.MarkDead` | fast-stm/src/transaction/mod.rs:941-947 | each list entered is counted or cleaned up once |
| `Transactions.Transaction.Attempt` | fast-stm/src/transaction/mod.rs:175-214 | without interference, running any body on the log and committing gives the result and final store of direct execution with rollback on retry, and the commit succeeds; exactly the live waiters of the written variables are woken |
| `Transactions.IncrementOnce` | fast-stm/src/transaction/mod.rs:175-214 | a memory is built, a transaction is run on it, and the variable holds its old value plus one |
| `Refinements.RegisterBlock` | fast-stm/src/tvar.rs:111-115 | `wait` on a variable's block is the step of the machine that registers |
| `Refinements.SetDeadBlock` | fast-stm/src/tvar.rs:124-140 | `set_dead` is the step that counts, followed past 64 by the two steps of a sweep |
| `Refinements.WakeAllBlock` | fast-stm/src/tvar.rs:91-107 | `wake_all` is the step that takes the list and the steps that signal it one by one: same list, same flags, and who is unparked holds a token |
| `Refinements.Rouses` | fast-stm/src/transaction/control_block.rs:46-52 | from any state, signalling a taken list waiter by waiter clears exactly the flags of its live ones and gives tokens to exactly those whose flag was set |
| `Publication.NextKeepsInv` | fast-stm/src/transaction/mod.rs:910-1043 | every step of every thread keeps the invariant: live allocations have distinct addresses, locks exclude, records are visited in address order, validated values stay, the variables lag behind the atomic store by exactly the values owed, each value is installed at most once |
| `Serializability.NextSimulates` | fast-stm/src/transaction/mod.rs:979-1033 | forward simulation: a commit changes the atomic store in one step at its lock point, as its body run alone would; no other step of a thread changes it |
| `Serializability.StrictlySerializable` | fast-stm/src/transaction/mod.rs:953-1043 | performing the commits and `write_atomic` calls of any run one by one, in the order of their lock points, gives the atomic store of every state, each with the value and the choices of branches it recorded |
| `Serializability.EventsOnlyGrow` | fast-stm/src/transaction/mod.rs:188-194 | no later step reorders or removes an effect |
| `Drivers.ReturnedIsRecorded` | fast-stm/src/transaction/mod.rs:187-213 | the last effect of a thread that returns is that of the closure it runs, with the value it returns and the branches it took |
| `Drivers.ClosureIsKept` | fast-stm/src/transaction/mod.rs:175-214 | however often it is run again, that closure is the one the transaction was started with |
| `Drivers.RealTimeOrder` | fast-stm/src/transaction/mod.rs:175-214 | strictness: if a transaction returns before another starts, its effect comes first in the order of effects, now and ever after |
| `Serializability.QuietVariablesAreAtomic` | fast-stm/src/transaction/mod.rs:1024-1033 | with no commit between its lock point and its last write back, the variables hold the atomic store |
| `Serializability.NoDirtyReads` | fast-stm/src/tvar.rs:254-256 | every load, also of a doomed transaction, returns the atomic store's value at that instant |
| `Serializability.InvariantTransfer` | fast-stm/src/transaction/mod.rs:175-214 | what every committed body preserves when run alone, on each choice of branches, holds of the atomic store throughout every concurrent run |
| `Applications.CommitTakesDirectBranches` | fast-stm/src/transaction/mod.rs:838-874 | a commit took the branches its closure would take if run alone at the lock point if and only if every first branch it passed over would block there; then value and effect are those of the closure with `or` preferring the first branch |
| `Applications.CommitIsLeftBiased` | fast-stm/src/transaction/mod.rs:838-874 | a case of this that needs no second look at the branches: all the transaction ever loaded is in place |
| `Applications.CounterCounts` | fast-stm/src/transaction/mod.rs:671-747 | no increment is lost: a counter equals its start plus the number of committed increments, whatever else runs that does not write it |
| `Applications.TransfersConserve` | fast-stm/src/transaction/mod.rs:175-214 | concurrent transfers between two variables conserve their sum, whatever else runs that does not write them |
| `Drivers.ExactlyOnce` | fast-stm/src/transaction/mod.rs:187-213 | the effects of a thread are as many as its returned transactions plus the one past its lock point, if any: none for aborted or retried attempts, never two |
| `Versions.PtrEqMeansUnwritten` | fast-stm/src/transaction/mod.rs:996-1019 | no ABA: although addresses are reused, pointer equality with a value kept alive since it was read holds if and only if nobody wrote the variable since |
| `Witnesses.AddressUsedAgain` | fast-stm/src/transaction/mod.rs:996-1019 | a run after which a variable holds another value at the address of its first one, so the theorem before is not about addresses that are never reused |
| `Versions.AbortIsCharged` | fast-stm/src/transaction/mod.rs:996-1021 | `commit` gives up on a record if and only if it is validated and its variable was written after the value was read; nothing shared changes |
| `Versions.LockComparesReals` | fast-stm/src/transaction/mod.rs:979-1021 | in the machine too, `commit` gives up on a record if and only if it is `Read` or `ReadWrite` and the pointer differs; `Read` takes a read lock, all with a pending write a write lock, `ReadObsolete` none |
| `Versions.AbortsOnNeedsOnly` | fast-stm/src/transaction/mod.rs:979-1021 | so it gives up on a variable if and only if the path its closure took depends on it and the pointer differs |
| `Versions.AbortReleases` | fast-stm/src/transaction/mod.rs:996-1021 | an aborting commit changes nothing shared and holds no lock when it runs its closure again |
| `Versions.StaleMeansOvertaken` | fast-stm/src/transaction/mod.rs:1000-1017 | a recorded value is stale if and only if the variable has a version later than the one that value was |
| `Conflicts.EarlyConflictIsFinal` | fast-stm/src/transaction/mod.rs:577-597 | once early conflict detection stopped a run, `commit` would reject its log in that state and every later one |
| `Conflicts.SleepersRetried` | fast-stm/src/transaction/mod.rs:241-249 | nobody sleeps on a `Failure` raised by the library, although `with_err` waits on it |
| `Wakeup.NoLostWakeup` | fast-stm/src/transaction/mod.rs:918-948 | in every state, a waiter registered with a variable it found unchanged is signalled, or held by a waker, or in the list while the variable still holds what it saw, its writer has yet to take the list, or a later version came from `write_atomic` |
| `Wakeup.SleepersAreCurrent` | fast-stm/src/transaction/control_block.rs:59-68 | with no commit in flight, a sleeping thread is in every list it should be in, and a variable it waits for holds what it saw if and only if no later version came from `write_atomic` |
| `Witnesses.WriteAtomicWakesNobody` | fast-stm/src/tvar.rs:227-234 | a run in which a thread waits for a variable to change, `write_atomic` changes it, and the thread sleeps on although its closure would succeed |
| `Wakeup.SignalledHaveTokens` | fast-stm/src/transaction/control_block.rs:46-52 | with no commit in flight, a parked thread whose flag is cleared has its unpark token |
| `Liveness.SignalledLeaves` | fast-stm/src/transaction/control_block.rs:59-68 | a parked thread whose flag is cleared gets out of `wait` by steps of its own when nobody sweeps its lists: it uses up its token, is counted dead once in the list of each variable it waited for, sweeping those past 64, and runs the same closure on an empty log |
| `Liveness.WaitsUntilSignalled` | fast-stm/src/transaction/control_block.rs:59-68 | until its flag is cleared it stays in `wait`, whatever wakes it; then its next look at the flag gets it out |
| `Liveness.DriversChoose` | fast-stm/src/transaction/mod.rs:187-213 | a closure that has ended is committed if and only if it returned, run again at once only if it failed, and waited for or given up only if it did not return |
| `Wakeup.RetainKeepsLive` | fast-stm/src/tvar.rs:137-138 | cleanup keeps a waiter if and only if it is alive |
| `Retries.TakenPathStillBlocks` | fast-stm/src/transaction/mod.rs:187-213 | while a thread sleeps, no commit is in flight and no `write_atomic` overtook what it waits for, the branches its closure took would block again on the present store, for any closure |
| `Retries.RetryJustified` | fast-stm/src/transaction/mod.rs:187-213 | then an `or`-free closure run on the present store would block again |
| `Retries.RetryWithOrJustified` | fast-stm/src/transaction/mod.rs:838-874 | and so would any closure whose wait map held every load it made when it blocked |
| `Witnesses.OrSleepsUnjustified` | fast-stm/src/transaction/mod.rs:889-897 | a run in which a thread with an `or` sleeps, waiting for nothing, although its closure would now succeed by its first branch |
| `DeadWaiters.DeadWaitersBounded` | fast-stm/src/tvar.rs:118-140 | with T threads no list ever holds more than 64 + 2T dead waiters, nor more than 64 + 3T waiters, despite the race between `fetch_add`, `store(0)` and `retain` |
| `Progress.CommitsDoNotDeadlock` | fast-stm/src/transaction/mod.rs:970-1022 | in every reachable state with a thread inside `commit`, some step of a commit can be taken, because records are locked in address order |
| `Liveness.MovesUnlessHeldUp` | fast-stm/src/transaction/mod.rs:910-1043 | in every reachable state a thread can take a step if and only if it does not need a lock another thread holds, a list another one sweeps, or memory that is not there; in particular a sleeper can always look at its flag |
| `Liveness.SomebodyMoves` | fast-stm/src/transaction/mod.rs:910-1043 | in every reachable state with memory left some thread can take a step |
| `Progress.FinishingProgresses` | fast-stm/src/transaction/mod.rs:979-1043 | every step of a commit leaves less to do: locks, writes, lists, then waiters, then sweeps |
| `Progress.OthersAddNothing` | fast-stm/src/transaction/mod.rs:979-1043 | no other step but entering `commit` adds to that |
| `Progress.CommitsComplete` | fast-stm/src/transaction/mod.rs:953-1043 | from every reachable state all commits in flight can finish by steps of their own |
| `Progress.CommitStepsBounded` | fast-stm/src/transaction/mod.rs:953-1043 | in every run, while nobody enters `commit`, the commits in flight take at most a number of steps fixed by the state they start from: locks, writes and lists times one plus twice the longest list, plus signals |
| `Witnesses.SomeTransactionReturns` | fast-stm/src/transaction/mod.rs:953-1043 | the machine can run: any variable can be written by a transaction that commits and returns |

## Left out

- Opacity: live transactions may see mixed snapshots, so consistency is stated for committed ones only; errors returned through `Abort` are not validated and not modelled beyond giving up.
- Creating and dropping `TVar`s: in the machine every address has a variable from the start, a `Memory` of the methods has those it was built with.
- The control function's decisions are arbitrary; counters, timeouts and the `None`, `Cancelled` and `Abandoned` results of the drivers are one step that gives up.
- Handling an `StmError` inside a closure, and panics: bodies propagate every error, as with `?`.
- Starvation and fairness: completion is of the commits in flight, not of a transaction that keeps being aborted.
- Real time and memory orderings: steps are sequentially consistent, `park_timeout` may return at any time, and locks are plain reader-writer locks without queues.
- The strong reference `upgrade` holds while a waiter is signalled or tested: liveness is tested in the instant of use, and `retain` is one step.
- Spurious wakes: a waiter may be signalled for a write it has already seen; nothing is claimed against it.
- `Transactions.Transaction.Commit`: runs with the locks granted at once; waiting for them and interleaving with other threads is in `Machine`.
- `Transactions.Transaction.Register`: runs without interference; the interleaving of registering, comparing and writing is in `Machine`, and so is `ControlBlock::wait`, a loop that need not end.
- The in-place update of a log entry through the map's entry is a reassignment of the map field.
- `RunFacts.AnswerRun`: deallocation is implicit; what no variable and no thread holds may be reused at once.
- `Retries.RetryJustified`: is for bodies without `or`, because a merged wait map may have replaced what a first branch saw; `Retries.TakenPathStillBlocks` and `Retries.RetryWithOrJustified` say what holds with `or`.
- `Refinements.WakeAllBlock`: the link between objects and machine is drawn for the shared blocks; locking, validating and writing back are proved once on objects, undisturbed, and once in the machine, interleaved.
- Raw pointers of the `hash-registers` feature: control blocks outlive the transaction; both register types are the map visited in address order.
- Typed values: payloads are one universe closed under `Option`, and the `Any` downcast always succeeds.
- Profiling, benchmark entry points, `TransactionGuard`, `try_or_coerce!`, `Debug` and the accessors of the result types.
