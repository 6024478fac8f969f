# Verified models of SAC, SUSE and the MUSE page replacement

Dafny models of three components, with proofs of what they keep. Each component has a value
model (datatypes and functions) on which whole runs are reasoned about, and classes whose methods
update their fields in place as the C code does. A method is proved to make what its function says, or,
for the clock, recursive deletion, the release loops and reading, what a relation between the state before
and after says.

- **SAC, the file server.** `SacPaths` turns path strings into component lists the way `dividirRuta`
  does. `SacTree` and `SacTreeOps` are the node table seen as a tree: lookup, new entries, recursive
  deletion, rename. `SacDisk`, `SacGrowth`, `SacWrite`, `SacRead` and `SacRelease` are the blocks, the
  bitmap and the two-level index: bytes of blocks, little-endian block numbers inside pointer blocks,
  growth, appends, reads, release. `SacFs` and `SacRuns` put both halves together and show that runs
  of requests refine runs over a plain picture, a map from paths to directories and byte strings.
  `SacSpare` is about the zeros behind the end of an index, over runs. `SacServer` is the imperative
  server, `SacClient` what several of its operations give one after the other.
- **SUSE, the scheduler, and Hilolay, its client library.** `Suse` holds the state and the requests
  (module `SuseServer` is the imperative server). `SuseThreads` and `SuseRuns` prove that every thread
  is in exactly one place, `SuseMoves` from where to where each request moves it, `SuseCounters` what the metrics counters are worth, `SuseSafety` joins,
  semaphores and permits, `SuseEstimates` the scheduling estimates; `SuseReachable` states the results
  from the server's start, and `SuseExamples` gives two runs where a join and the counters go wrong.
  `Hilolay` is the client, `Protocol` both sides together, `ProtocolEffects` what a library call does at the
  server.
- **MUSE, the enhanced clock.** `Clock` is the four-pass replacement algorithm over any number of
  frames.

`MapSums` (sums over the entries of a dictionary) and `Basics` are helpers.

Where a property the code suggests is false of it, the project states when it holds:

- `o_write` sizes the file rightly at or before its end in exactly the cases of `SacWrite.FillSizeExactly`.
- `o_rename` keeps a tree exactly when the new parent is the root or a live directory outside the moved
  subtree and the new path is free or the old one (`SacTreeOps.RenameKeepsTreeExactly`).
- At the end of a file whose last block has room, a turn of `o_write` appends exactly when the file ends
  at a block boundary or less than a block is written (`SacSpare.ReachedTurnAppendsExactly`).
- Deleting a file gives back every block it took except when it is still empty: then the two blocks of
  `o_create` stay used (`SacRuns.CreateWriteUnlinkSpace`).
- The blocked counter of one program is off by the number of its threads woken by other programs minus
  the number of threads of other programs it woke (`SuseCounters.RunCounted`, with
  `SuseExamples.ForeignSignal` as an instance); only the sum over all programs is exact. The metrics log
  shows such a negative counter (Planificador/SUSE/Debug/Metricas.log:62).
- A join waits for its unfinished target exactly when no other program has finished a thread of that id
  (`SuseSafety.JoinWaitsExactly`, with `SuseExamples.JoinIgnored` as an instance).
- A signal raises a semaphore's level up to its maximum exactly when its value is below the maximum or
  its level is the maximum, as every well configured semaphore's is (`SuseSafety.SignalRaisesLevel`).

`dafny verify dfyconfig.toml` checks the whole project.

## Model

| member | source | states |
|---|---|---|
| `Clock.Replacer.Advance` | Memoria/muse.c:2425-2437 | the hand goes to the next frame, cyclically |
| `Clock.Replacer.Scan` | Memoria/muse.c:2334-2350 | a pass stops at the first frame in cyclic order with the use bit off and the wanted modified bit, the hand just past it; or it finds none anywhere and the hand is back |
| `Clock.Replacer.ScanClearing` | Memoria/muse.c:2355-2373 | the second pass does the same and clears exactly the use bits of the frames it skips |
| `Clock.Replacer.Choose` | Memoria/muse.c:2330-2414 | the four passes choose the first frame from the hand within the lowest nonempty class (0,0) < (0,1) < (1,0) < (1,1); the hand ends just past it; the use bits cleared are none, those skipped, or all, by class; -1 comes back exactly when no frame has a 0/1 modified bit |
| `Clock.ChosenIsUnique` | Memoria/muse.c:2330-2414 | that description determines victim, hand and bits |
| `Clock.ChosenIsPreferred` | Memoria/muse.c:2310-2328 | bit by bit: the victim is unused and unmodified if any frame is, else unused and modified, else used and unmodified, else used and modified; the hand is at the frame behind it |
| `Clock.ChosenInBits` | Memoria/muse.c:2334-2412 | no frame met before the victim has its bits; no use bit is cleared for an unused and unmodified victim, those met before it for an unused and modified one, all for a used one |
| `Clock.BitsAreChoosable` | Memoria/muse.c:2413 | with at least one frame and bits 0 or 1 there is a victim, so -1 is never returned |
| `Clock.RoundRobin` | Memoria/muse.c:2330-2414 | from all bits set, n replacements in a row, each followed by a write to the new page, evict the n frames in order from the hand, each once |
| `SuseServer.Server.constructor` | Planificador/SUSE/SUSE.c:239-289 | the start: no programs, empty queues, the configured semaphores and MAX_MULTIPROG permits |
| `SuseServer.Server.NewProgram` | Planificador/SUSE/SUSE.c:1256-1281 | crearPrograma enters a program with no running thread, no joins and zero counters |
| `SuseServer.Server.Create` | Planificador/SUSE/SUSE.c:640-675 | crearHilo puts a thread with estimate 0 at the end of the new queue and counts it |
| `SuseServer.Server.Take` | Planificador/SUSE/SUSE.c:612-618 | planificarReady pops the first new thread and then waits for a permit |
| `SuseServer.Server.AdmitTaken` | Planificador/SUSE/SUSE.c:618-629 | with a permit the thread leaves the new counter and goes to ready |
| `SuseServer.Server.PassToReady` | Planificador/SUSE/SUSE.c:677-710 | pasarAReady: the first thread of a program runs, later ones join its ready list and counter |
| `SuseServer.Server.Schedule` | Planificador/SUSE/SUSE.c:713-835 | schedule_next: age the running thread, sort, and let the first ready thread run if it has less estimate or nobody runs |
| `SuseServer.Server.SemSignal` | Planificador/SUSE/SUSE.c:854-970 | signal raises the value up to its maximum, or wakes the first waiting thread and lowers the signaller's blocked counter |
| `SuseServer.Server.SemWait` | Planificador/SUSE/SUSE.c:888-943 | wait takes from the value, or queues the running thread; a thread that is not running makes the server exit |
| `SuseServer.Server.JoinThread` | Planificador/SUSE/SUSE.c:974-1028 | join blocks the running thread unless some exit list has the awaited id; it is counted once |
| `SuseServer.Server.CloseThread` | Planificador/SUSE/SUSE.c:1030-1074 | close moves the running thread to its exit list, posts a permit and releases its joiners |
| `SuseServer.Server.ReleaseJoiners` | Planificador/SUSE/SUSE.c:1092-1137 | the release loop ends and does what its turns do one after the other |
| `SuseServer.Server.Drop` | Planificador/SUSE/SUSE.c:1437-1438 | a disconnect posts a permit and drops the program with its ready and exit lists |
| `SuseThreads.CreateAdds` | Planificador/SUSE/SUSE.c:640-675 | create adds exactly the new thread |
| `SuseThreads.AdmitKeeps` | Planificador/SUSE/SUSE.c:612-630 | admission moves exactly the taken thread from the threads without a permit to those with one |
| `SuseThreads.ReestimateReplaces` | Planificador/SUSE/SUSE.c:813-835 | aging replaces exactly the running thread by itself with its new estimate |
| `SuseThreads.ScheduleKeeps` | Planificador/SUSE/SUSE.c:713-811 | scheduling loses and duplicates no thread |
| `SuseThreads.WaitKeeps` | Planificador/SUSE/SUSE.c:888-914 | wait loses and duplicates no thread |
| `SuseThreads.SignalKeeps` | Planificador/SUSE/SUSE.c:854-970 | signal loses and duplicates no thread, whatever program it wakes one of |
| `SuseThreads.JoinKeeps` | Planificador/SUSE/SUSE.c:974-1013 | join loses and duplicates no thread |
| `SuseThreads.ReleaseReleasesAll` | Planificador/SUSE/SUSE.c:1092-1137 | when no thread is in two places, the release loop makes every joiner ready in the order they joined: none is still blocked elsewhere |
| `SuseThreads.CloseMoves` | Planificador/SUSE/SUSE.c:1030-1074 | a close moves exactly the closing thread out of the threads that hold a permit |
| `SuseRuns.StepThreads` | Planificador/SUSE/SUSE.c:612-1137 | over every request other than a disconnect the threads of the state stay, but for one that is created or aged |
| `SuseRuns.StartPartition` | Planificador/SUSE/SUSE.c:239-289 | at the start there are no threads |
| `SuseRuns.StepPartition` | Planificador/SUSE/SUSE.c:612-1137 | every request other than a disconnect keeps each created thread in one place, once |
| `SuseRuns.RunPartition` | Planificador/SUSE/SUSE.c:612-1137 | thread partition in every state reached without disconnects |
| `SuseRuns.OnePlace` | Planificador/SUSE/SUSE.c:1149-1181 | a thread found in the new queue, awaiting a permit, in a ready list, running, in a join list, in a semaphore queue or in an exit list is there once and in no other place, and was created |
| `SuseRuns.SomePlace` | Planificador/SUSE/SUSE.c:612-1137 | every created thread is in one of those places |
| `SuseRuns.TwoIds` | Planificador/SUSE/SUSE.c:1149-1181 | threads in different places have different ids |
| `SuseMoves.SeatHolds` | Planificador/SUSE/SUSE.c:1149-1181 | the ordered content of a place is what the partition counts there |
| `SuseMoves.ConnectMoves` | Planificador/SUSE/SUSE.c:1256-1281 | a new program moves no thread |
| `SuseMoves.CreateMoves` | Planificador/SUSE/SUSE.c:640-675 | create puts the thread behind the new ones and moves nobody |
| `SuseMoves.TakeMoves` | Planificador/SUSE/SUSE.c:612-618 | the first new thread leaves the queue to await a permit, and nobody else moves |
| `SuseMoves.GrantMoves` | Planificador/SUSE/SUSE.c:618-710 | the thread with a permit runs when it is the first of its program, else goes behind the ready ones, and nobody else moves |
| `SuseMoves.ScheduleMoves` | Planificador/SUSE/SUSE.c:713-848 | the running thread is aged by (1 - alpha) E + alpha R; it runs on unless the first in order has less estimate, which then runs while the aged one goes to the end of ready; nobody else moves |
| `SuseMoves.WaitMoves` | Planificador/SUSE/SUSE.c:888-943 | a wait puts the running caller behind those at the semaphore exactly when the value is 0; otherwise no list and no running thread changes |
| `SuseMoves.SignalMoves` | Planificador/SUSE/SUSE.c:854-970 | a signal puts the first waiting thread behind the ready ones of its program exactly when the value is below the maximum and somebody waits; otherwise nobody moves |
| `SuseMoves.JoinMoves` | Planificador/SUSE/SUSE.c:974-1028 | a join puts the running thread behind the joiners of the target exactly when no program has finished a thread of that id; otherwise nothing changes |
| `SuseMoves.CloseSeats` | Planificador/SUSE/SUSE.c:1030-1137 | a close puts the running thread behind the finished ones and its joiners behind the ready ones, if it closes itself; nobody else moves |
| `SuseMoves.DisconnectMoves` | Planificador/SUSE/SUSE.c:1224-1249 | a disconnect empties the ready, running, join and exit places of the program and no other place |
| `SuseMoves.RunAdmitsInOrder` | Planificador/SUSE/SUSE.c:612-675 | over every run, disconnects included, threads are admitted in the order they were created |
| `SuseCounters.CountPidIsCount` | Planificador/SUSE/SUSE.c:672 | what the new counter is compared with is the number of places in the queue that hold a thread of the program |
| `SuseCounters.RunningIsFree` | Planificador/SUSE/SUSE.c:988-1000 | the running thread is in no join list, so a join always counts it |
| `SuseCounters.StepNew` | Planificador/SUSE/SUSE.c:623-672 | every request other than a disconnect keeps the new counters equal to the threads not yet admitted |
| `SuseCounters.StepReady` | Planificador/SUSE/SUSE.c:701-794 | every request other than a disconnect keeps the ready counters equal to the ready lists |
| `SuseCounters.StepBlocked` | Planificador/SUSE/SUSE.c:909-1126 | every request other than a disconnect keeps the sum of the blocked counters equal to the blocked threads of all programs |
| `SuseCounters.StepDrifts` | Planificador/SUSE/SUSE.c:909-1126 | every request other than a disconnect keeps each blocked counter off by exactly the drift that signals across programs caused |
| `SuseCounters.RunCounted` | Planificador/SUSE/SUSE.c:612-1137 | the four counter statements in every state reached without disconnects |
| `SuseCounters.OwnSignalsCount` | Planificador/SUSE/SUSE.c:965-969 | when signals wake only threads of the signalling program, each blocked counter is exact |
| `SuseSafety.CloseNotLost` | Planificador/SUSE/SUSE.c:1030-1048 | a close leaves nobody joined on a finished thread |
| `SuseSafety.StepNoLostJoin` | Planificador/SUSE/SUSE.c:974-1137 | every request other than a disconnect keeps: nobody is joined on a thread of its program that has finished |
| `SuseSafety.RunNoLostJoin` | Planificador/SUSE/SUSE.c:974-1137 | no lost join in every state reached without disconnects |
| `SuseSafety.CloseWakesJoiners` | Planificador/SUSE/SUSE.c:1092-1137 | after a close the joiners are ready, behind those that were, in the order they joined |
| `SuseSafety.BlockedByAnyExactly` | Planificador/SUSE/SUSE.c:1149-1181 | the test of the release loop looks at every thread of every join list of the program |
| `SuseSafety.JoinIgnoresExactly` | Planificador/SUSE/SUSE.c:974-1028 | a join changes nothing exactly when nobody runs or some thread in some exit list has the awaited id |
| `SuseSafety.JoinWaitsExactly` | Planificador/SUSE/SUSE.c:1015-1028 | a join on an unfinished thread waits for it exactly when no other program has finished a thread of that id |
| `SuseSafety.WaitLowersLevel` | Planificador/SUSE/SUSE.c:888-943 | wait lowers value minus queue length by one and touches no other semaphore |
| `SuseSafety.SignalRaisesLevel` | Planificador/SUSE/SUSE.c:854-886 | signal makes the level min(level + 1, max) exactly when the value is below max or the level is max; no other semaphore changes |
| `SuseSafety.StepSemaphores` | Planificador/SUSE/SUSE.c:854-972 | every request keeps 0 <= value <= max and threads waiting only at value 0 |
| `SuseSafety.RunSemaphores` | Planificador/SUSE/SUSE.c:854-972 | over every run, disconnects included, a semaphore is at the level its waits and signals alone give |
| `SuseSafety.RunFifo` | Planificador/SUSE/SUSE.c:907-957 | over every run the threads that blocked on a semaphore are those woken from it, in the same order, then those still waiting |
| `SuseSafety.RunAccounted` | Planificador/SUSE/SUSE.c:612-630 | over every run, disconnects included: free permits + admitted - closed = MAX_MULTIPROG + disconnects |
| `SuseSafety.RunActive` | Planificador/SUSE/SUSE.c:612-1074 | without disconnects the admitted threads not closed are exactly the running, ready and blocked ones |
| `SuseSafety.AdmissionBound` | Planificador/SUSE/SUSE.c:276 | without disconnects running, ready and blocked threads of all programs never exceed MAX_MULTIPROG |
| `SuseEstimates.ShortestRuns` | Planificador/SUSE/SUSE.c:713-802 | schedule_next runs a thread of least estimate among ready and running, the running one on a tie, and returns its id; candidates neither appear nor vanish |
| `SuseEstimates.EstimateIsWeightedSum` | Planificador/SUSE/SUSE.c:838-848 | after n bursts the estimate is the sum of alpha (1 - alpha)^(n - i) R_i |
| `SuseEstimates.EstimateBounds` | Planificador/SUSE/SUSE.c:838-848 | for 0 <= alpha <= 1 it lies between 0 and the largest burst |
| `SuseEstimates.StepEstimated` | Planificador/SUSE/SUSE.c:813-848 | every request other than a disconnect keeps each thread's estimate that of exactly the bursts it ran |
| `SuseEstimates.RunEstimated` | Planificador/SUSE/SUSE.c:713-848 | the same over every run without disconnects, wherever the thread is |
| `SuseReachable.ReachableStates` | Planificador/SUSE/SUSE.c:239-289 | from the start: partition, counters, no lost join, order of waking, estimates with the configured alpha and admission bound in every state reached without disconnects |
| `SuseReachable.ReachableThread` | Planificador/SUSE/SUSE.c:838-848 | in every such state a thread has the estimate its own bursts give with the configured alpha, its last burst, and nobody joined on it once it is in the exit list |
| `SuseReachable.ReachableSemaphores` | Planificador/SUSE/SUSE.c:257-268 | from a configuration 0 <= init <= max, max >= 1: bounds, waiting only at 0, and the level as a function of the waits and signals |
| `SuseReachable.ReachablePermits` | Planificador/SUSE/SUSE.c:276 | the permit equation from the start |
| `SuseReachable.SortingExists` | Planificador/SUSE/SUSE.c:804-811 | list_sort has an answer, so schedule_next is enabled whenever a thread can run |
| `SuseExamples.JoinIgnored` | Planificador/SUSE/SUSE.c:1015-1028 | a run of two programs from the start after which the main thread of one goes on at once from a join on its own ready thread 1, as the other has finished its thread 1 |
| `SuseExamples.ForeignSignal` | Planificador/SUSE/SUSE.c:965-969 | a run of two programs from the start after which nobody is blocked, one blocked counter is 1 and the other -1 |
| `Hilolay.FreeSlot` | Planificador/Hilolay/hilolay/hilolay_internal.c:54-64 | find_free_tcb finds the first free TCB |
| `Hilolay.SlotOf` | Planificador/Hilolay/hilolay/hilolay_internal.c:89-98 | get_next_tid finds the first TCB with the id |
| `Hilolay.Library.constructor` | Planificador/Hilolay/hilolay/hilolay_internal.c:18-30 | the table starts with the main thread running and all else free |
| `Hilolay.Library.FindFree` | Planificador/Hilolay/hilolay/hilolay_internal.c:54-64 | its loop does so |
| `Hilolay.Library.Create` | Planificador/Hilolay/hilolay/hilolay_internal.c:72-87 | hilolay_create takes the first free TCB and the next id |
| `Hilolay.Library.Find` | Planificador/Hilolay/hilolay/hilolay_internal.c:89-98 | its loop does so |
| `Hilolay.Library.SwitchTo` | Planificador/Hilolay/hilolay/hilolay_internal.c:100-114 | the current thread becomes READY, then the selected one RUNNING and current |
| `Hilolay.SpawnOk` | Planificador/Hilolay/hilolay/hilolay_internal.c:72-87 | hilolay_create gives out consecutive ids and fails exactly when all 5000 were given |
| `Hilolay.YieldOk` | Planificador/Hilolay/hilolay/hilolay_internal.c:89-114 | a yield to any id ever given finds it and leaves it the one RUNNING |
| `Hilolay.OneRuns` | Planificador/Hilolay/hilolay/hilolay_internal.c:100-110 | exactly one TCB is RUNNING and TCBs in use have distinct ids |
| `Protocol.ActionOk` | Planificador/Hilolay/hilolay/hilolay_internal.c:18-152 | whatever a program or the server may do next is served without the server exiting or a null pointer followed on either side, and both sides still agree |
| `Protocol.AskServed` | Planificador/SUSE/SUSE.c:900-922 | the server accepts every join, wait, signal and close a program sends: the branch that exits is not reached |
| `Protocol.RunsOk` | Planificador/Hilolay/hilolay/hilolay_internal.c:18-152 | agreement over every run of any number of programs |
| `Protocol.Agreement` | Planificador/Hilolay/hilolay/hilolay_internal.c:112-152 | from the start: a program between calls whose main thread was admitted runs the thread SUSE has running for it; one TCB is RUNNING, ids are distinct, the server has not exited |
| `ProtocolEffects.WaitEffect` | Planificador/Hilolay/hilolay/hilolay_internal.c:139-142 | after hilolay_wait the level of the semaphore is one lower, other semaphores are as before, and the caller waits there exactly when the value was 0 |
| `ProtocolEffects.SignalEffect` | Planificador/Hilolay/hilolay/hilolay_internal.c:144-147 | after hilolay_signal the level is one higher, up to the maximum, and the first waiting thread is ready |
| `ProtocolEffects.JoinEffect` | Planificador/Hilolay/hilolay/hilolay_internal.c:121-124 | after hilolay_join the calling thread is behind the joiners of the target, unless some program has finished a thread of that id |
| `ProtocolEffects.EndEffect` | Planificador/Hilolay/hilolay/hilolay_internal.c:32-37 | after the end of a thread or hilolay_return the calling thread is in the exit list and its joiners are ready |
| `ProtocolEffects.SpawnEffect` | Planificador/Hilolay/hilolay/hilolay_internal.c:72-87 | after hilolay_create a thread of the next id is behind the new ones, unless all ids were given |
| `ProtocolEffects.YieldEffect` | Planificador/Hilolay/hilolay/hilolay_internal.c:89-114 | after hilolay_yield the thread schedule_next picked is both the running one and the caller of the next library call |
| `ProtocolEffects.RunsSemaphores` | Planificador/Hilolay/hilolay/hilolay_internal.c:112-147 | over every run of programs semaphores keep their bounds and threads wait only at value 0 |
| `SacPaths.LastSlash` | Sac-Server/estructuras.c:149 | strrchr: the last slash |
| `SacPaths.NamePart` | Sac-Server/estructuras.c:141-151 | the name has no slash |
| `SacPaths.SuperPart` | Sac-Server/estructuras.c:153-161 | the super path is shorter and ends in a slash |
| `SacPaths.PathSplits` | Sac-Server/estructuras.c:141-161 | super path and name put together are the path, but for one trailing slash |
| `SacPaths.ComponentsOfPrinted` | Sac-Server/estructuras.c:141-161 | splitting a printed path, with or without a trailing slash, gives back its components |
| `SacTree.FindChild` | Sac-Server/estructuras.c:195-203 | the search stops at the first live entry with that parent and name |
| `SacTree.ResolveIsLookup` | Sac-Server/estructuras.c:176-216 | dameNodoDe is the walk from the root through the components |
| `SacTree.LookupIsPath` | Sac-Server/estructuras.c:176-216 | in a tree, names resolve to an entry exactly when they are its path |
| `SacTree.PrintedResolves` | Sac-Server/estructuras.c:141-216 | a live entry's printed path resolves to it, with or without a trailing slash |
| `SacTree.ResolveFails` | Sac-Server/estructuras.c:211-213 | resolution gives -1 exactly when no live entry has the path |
| `SacTree.LookupInjective` | Sac-Server/estructuras.c:176-216 | different paths resolve to different entries |
| `SacTreeOps.FirstFree` | Sac-Server/operaciones.c:494-497 | the search for a free entry finds the first one |
| `SacTreeOps.PlacedMayAdd` | Sac-Server/operaciones.c:471-502 | where create and mkdir find a slot, the path is free and its parent is there |
| `SacTreeOps.AddedLookup` | Sac-Server/operaciones.c:504-509 | after create or mkdir the new path leads to the new entry and every other path where it led |
| `SacTreeOps.AddedTreeOk` | Sac-Server/operaciones.c:504-509 | create and mkdir keep a tree |
| `SacTreeOps.ReusedSlotIsChildless` | Sac-Server/operaciones.c:494-509 | a reused slot never inherits children |
| `SacTreeOps.SubtreeClosed` | Sac-Server/operaciones.c:279-308 | a subtree, and what is below an entry, is closed under children |
| `SacTreeOps.WithoutFields` | Sac-Server/operaciones.c:279-308 | a recursive delete changes no name and no parent, and no state outside the deleted subtree |
| `SacTreeOps.RemovedLookup` | Sac-Server/operaciones.c:258-308 | after a recursive delete the paths at and below the entry fail and all others lead where they led |
| `SacTreeOps.EliminateBelow` | Sac-Server/operaciones.c:279-308 | eliminarRecursivamente ends, marks deleted exactly the strict descendants, and changes no other entry and no name or parent |
| `SacTreeOps.RenamedTreeOk` | Sac-Server/operaciones.c:443-466 | a rename to a free path outside the moved subtree keeps a tree |
| `SacTreeOps.RenamedLookup` | Sac-Server/operaciones.c:443-466 | then old/rest resolves as new/rest, nothing is left at the old path, and every other path resolves as before |
| `SacTreeOps.MovedUnderItself` | Sac-Server/operaciones.c:443-466 | a rename under itself leaves the moved entries without a path from the root |
| `SacTreeOps.RenameKeepsTreeExactly` | Sac-Server/operaciones.c:443-466 | exactly when a rename keeps a tree |
| `SacTreeOps.TreeServeOk` | Sac-Server/operaciones.c:258-628 | every create, mkdir, unlink, rmdir and such rename keeps the tree: parents live, no cycles, siblings differ |
| `SacTreeOps.TreeRunOk` | Sac-Server/operaciones.c:258-628 | the tree invariant over every run of them |
| `SacDisk.PutGet` | Sac-Server/estructuras.c:309 | writing a block number into a pointer block changes that entry and no other |
| `SacDisk.DataWritten` | Sac-Server/operaciones.c:843-869 | writing a data block changes no index, and only that block's bytes |
| `SacGrowth.FirstClear` | Sac-Server/estructuras.c:237-246 | obtenerBloqueLibre takes the first clear bit |
| `SacGrowth.ClearBitsIsCount` | Sac-Server/estructuras.c:454-470 | obtenerBloquesLibres counts exactly the clear bits |
| `SacGrowth.StartIsCounted` | Sac-Server/estructuras.c:454-470 | after the count of the clear bits, bitmap_free_blocks is 0 only when no block is free |
| `SacGrowth.TakenIsFree` | Sac-Server/estructuras.c:229-252 | the block taken was free, and no other becomes used |
| `SacGrowth.PositionOfBlock` | Sac-Server/estructuras.c:335-341 | settearPosicion gives quotient and remainder of the block number, inside the index for sizes below 2^31 |
| `SacGrowth.AddBlockOk` | Sac-Server/estructuras.c:266-312 | agregarBloqueLibre enters the block as the file's next one, taking a pointer block exactly at multiples of 4 MiB; blocks stay owned once, used and past the metadata; no other file's blocks or bytes change |
| `SacWrite.FillCopies` | Sac-Server/operaciones.c:843-869 | a turn copies the bytes it takes into one block, from its start when they fill it, and changes no other byte, index or bit |
| `SacWrite.FillSizeExactly` | Sac-Server/operaciones.c:848-865 | at or before the end of the file, a turn leaves the size that covers old file and written bytes exactly when it starts at the end, writes a whole block inside the file, or fits the room of the last block |
| `SacWrite.StepOk` | Sac-Server/operaciones.c:797-871 | a turn of the write loop appends the bytes it takes, takes exactly the blocks needed and leaves the loop's invariant; it fails only when bitmap_free_blocks is 0 and a block is needed, before changing anything |
| `SacWrite.WriteAppends` | Sac-Server/operaciones.c:797-878 | append refinement: contents become old contents followed by the buffer, of any length when block-aligned and below a block otherwise, across pointer blocks; other files keep every byte |
| `SacWrite.TurnAppendsExactly` | Sac-Server/operaciones.c:843-869 | when nothing is behind the end of the index, a turn that starts in the last block appends exactly when the file ends at a block boundary or less than a block is written |
| `SacSpare.AddBlockSpare` | Sac-Server/estructuras.c:284-309 | agregarBloqueLibre keeps every file's index zero behind its last block: the rest of the last pointer block and the next index entry |
| `SacSpare.StepSpare` | Sac-Server/operaciones.c:797-871 | a turn of the write loop keeps it |
| `SacSpare.RunSpares` | Sac-Server/operaciones.c:258-878 | so does every run of requests |
| `SacSpare.ReachedTurnAppendsExactly` | Sac-Server/operaciones.c:843-869 | in every state reached from a formatted disk, a turn that starts in the last block appends exactly when the file ends at a block boundary or less than a block is written |
| `SacWrite.LongWriteBreaks` | Sac-Server/operaciones.c:843-852 | a longer write from inside a block claims a size the index has no block for |
| `SacRead.ChunkIsSlice` | Sac-Server/operaciones.c:725-739 | a copy from inside one block is a slice of the contents |
| `SacRead.CopyChunk` | Sac-Server/operaciones.c:708-742 | a turn of the inner read loop copies the next slice of the contents |
| `SacRelease.ReleasedOk` | Sac-Server/estructuras.c:347-409 | deleting a file keeps the other files' blocks and bytes and the ownership invariant |
| `SacRelease.ReleaseCounts` | Sac-Server/estructuras.c:388-401 | bitmap_free_blocks goes up by the data blocks, exactly the index entries of the file become 0, and nothing else of node table or blocks changes |
| `SacRelease.ReleaseFrees` | Sac-Server/estructuras.c:347-409 | exactly the ceil(s / 4096) data blocks and their pointer blocks become free, all used before, no other bit changes; a file of size 0 frees nothing |
| `SacFs.CreateOk` | Sac-Server/operaciones.c:469-527 | o_create keeps the invariant and adds an empty file to the picture exactly when the path is free, has a parent and a slot |
| `SacFs.FirstBlockCleared` | Sac-Server/operaciones.c:513-518 | the first block of a new file holds zeros |
| `SacFs.NewDirectoryEmpty` | Sac-Server/operaciones.c:617-620 | a new directory has size 0, and no other entry or block changes |
| `SacFs.MkdirOk` | Sac-Server/operaciones.c:592-628 | o_mkdir does the same with a directory |
| `SacFs.WriteOk` | Sac-Server/operaciones.c:775-878 | o_write changes the picture at its path only, to the appended bytes |
| `SacRuns.UnlinkOk` | Sac-Server/operaciones.c:354-429 | o_unlink of a file removes exactly its path from the picture |
| `SacRuns.RmdirOk` | Sac-Server/operaciones.c:258-308 | o_rmdir removes exactly the paths at and below the directory |
| `SacRuns.RenameOk` | Sac-Server/operaciones.c:443-466 | o_rename moves the picture below the old path to the new one, files to the byte, and answers -1 without a change when the old path is not there |
| `SacRuns.FullIsCrowded` | Sac-Server/operaciones.c:494-502 | create and mkdir find no free entry exactly when the picture has 1024 paths below the root |
| `SacRuns.Serve` | Sac-Server/operaciones.c:258-878 | every request keeps the invariant: tree, blocks owned once, used and past the metadata, sizes below 2^31 |
| `SacRuns.ServeRefines` | Sac-Server/operaciones.c:258-878 | the effect and answer of every request are those on the plain file system, a full table (-EDQUOT, or 1 for mkdir) and a write cut short at bitmap_free_blocks 0 included |
| `SacRuns.ServesTree` | Sac-Server/operaciones.c:258-628 | the directory half of each request is the request `SacTreeOps.TreeRunOk` speaks of; a write leaves it alone |
| `SacRuns.RunRefines` | Sac-Server/operaciones.c:258-878 | over every run the server answers as the plain file system does; no block has two owners, owned blocks are used and past the metadata |
| `SacRuns.RunCounts` | Sac-Server/operaciones.c:814-818 | over every run from the start of the server bitmap_free_blocks is 0 only when no block is free |
| `SacRuns.WritesWhileRoom` | Sac-Server/operaciones.c:814-818 | in every state reached from the start of the server an append is done whole when the disk has the blocks for it, and answers -1 when it has not and bitmap_free_blocks is 0 |
| `SacRuns.FormattedOk` | Sac-Server/estructuras.c:229-252 | an empty node table satisfies the invariant and shows just the root |
| `SacRuns.ReadsBack` | Sac-Server/operaciones.c:668-878 | the contents of the written range are what was written, those before it what they were |
| `SacRuns.CreateWriteUnlinkSpace` | Sac-Server/operaciones.c:354-527 | creating, writing and deleting a file gives back all blocks, but for two when nothing was written |
| `SacServer.Server.constructor` | Sac-Server/sac-server.c:42-53 | the server takes the mapped disk and counts the clear bits, so that bitmap_free_blocks is 0 only when no block is free |
| `SacServer.Server.Find` | Sac-Server/estructuras.c:176-216 | dameNodoDe with its search loop ends and finds the entry `SacTree.ResolveIsLookup` and `SacTree.ResolveFails` speak of |
| `SacServer.Server.FindSlot` | Sac-Server/operaciones.c:494-502 | the search loop of o_create and o_mkdir, whose counter runs one past the table, finds the first free entry or that there is none |
| `SacServer.Server.TakeBlock` | Sac-Server/estructuras.c:229-252 | the bitmap loop takes the first clear bit from the first data block on, and sets it and no other |
| `SacServer.Server.EnterBlock` | Sac-Server/estructuras.c:266-312 | agregarBloqueLibre in place makes what `AddBlock` says, for which `SacGrowth.AddBlockOk` is proved |
| `SacServer.Server.StartFile` | Sac-Server/operaciones.c:504-519 | the storage half of o_create makes what `NewFile` says: size 0 and one cleared data block under its own pointer block |
| `SacServer.Server.Create` | Sac-Server/operaciones.c:469-527 | o_create in place makes the state and answer of `CreateFile`, for which `SacFs.CreateOk` is proved |
| `SacServer.Server.Mkdir` | Sac-Server/operaciones.c:592-628 | o_mkdir in place makes the state and answer of `MakeDirectory`, for which `SacFs.MkdirOk` is proved |
| `SacServer.Server.Rename` | Sac-Server/operaciones.c:443-466 | o_rename in place makes the state and answer of `RenameEntry`, for which `SacRuns.RenameOk` is proved |
| `SacServer.Server.Rmdir` | Sac-Server/operaciones.c:258-308 | o_rmdir marks deleted exactly the named entry and its descendants, and changes no other state, parent or name |
| `SacServer.Server.WriteTurn` | Sac-Server/operaciones.c:797-871 | a turn of the loop in place makes what `WriteStep` says, for which `SacWrite.StepOk` is proved |
| `SacServer.Server.FillBlock` | Sac-Server/operaciones.c:843-869 | the three ways to copy the buffer make what `Fill` says, each of which appends (`SacWrite.WriteAppends`) under the offsets o_write is used with |
| `SacServer.Server.WriteFrom` | Sac-Server/operaciones.c:797-871 | the loop ends and leaves what `WriteLoop` says, for which `SacWrite.WriteAppends` is proved |
| `SacServer.Server.Write` | Sac-Server/operaciones.c:775-878 | o_write in place makes the state and answer of `WriteFile`, for which `SacFs.WriteOk` is proved |
| `SacServer.Server.ReadRange` | Sac-Server/operaciones.c:692-744 | the two loops give exactly contents[offset .. offset + size], offsets of exactly 4 MiB included |
| `SacServer.Server.Read` | Sac-Server/operaciones.c:668-753 | o_read gives at most the bytes asked for, less only when the file ends, and exactly those of the file from the offset on; -1 when the path is not there |
| `SacServer.Server.DeleteData` | Sac-Server/estructuras.c:388-393 | the inner loop frees the data blocks of one pointer block from the last back |
| `SacServer.Server.DeleteNodes` | Sac-Server/estructuras.c:347-409 | eliminarNodos in delete mode ends and frees exactly the blocks of the file, counting each data block once |
| `SacServer.Server.RemoveEntry` | Sac-Server/operaciones.c:402-429 | o_rmdir2 deletes an entry exactly when it has no children |
| `SacClient.ReadFrom` | Sac-Server/operaciones.c:668-753 | o_read from a block boundary gives the rest of the file |
| `SacClient.AppendThenRead` | Sac-Server/operaciones.c:668-878 | o_write then o_read: the bytes read are the old contents followed by what was written, and the picture changes at that path only |
| `SacClient.WriteReadDelete` | Sac-Server/operaciones.c:354-878 | o_write, o_read and o_unlink of an empty file: the bytes come back and the path is gone |
| `SacClient.FirstFile` | Sac-Server/operaciones.c:354-878 | from the start on a formatted disk, create, write, read and delete: the bytes come back and the file system is empty again |
| `SacServer.Server.Unlink` | Sac-Server/operaciones.c:354-370 | o_unlink of a file in place makes the state and answer of `UnlinkFile`, for which `SacRuns.UnlinkOk` is proved |

## Left out

- Sockets, (de)serialisation, select loops, FUSE callbacks, logging and metrics printing.
- Locks, the parking of a program in `schedule_next` and interleavings below a request: a request is one atomic step, and a `schedule_next` with nothing to run is not enabled until a thread is ready (the real one parks and then takes the first of the list without sorting it again).
- mmap, the byte layout of disk and node table: blocks are indexed by number, a node table entry is split into a directory half and a storage half, bitmap and header are apart from the blocks. Dates are not modelled.
- `o_truncate` and `darleEspacioNuevo`: they do not keep the relation between size and block count the rest relies on.
- SacServer.Server.Write: only writes that start at the end of the file and are shorter than a block or block-aligned, to a file that exists, on a disk with room, or with bitmap_free_blocks 0; o_write sizes its chunk by the space after the end of the file, so overwrites inside a file are outside its `requires`.
- SacServer.Server.Read: only files, ranges that are block-aligned or inside one block, and offset + size below 2^31; o_read copies past the end of a block otherwise.
- SacServer.Server.Create: requires two free blocks when an entry is to be made, as obtenerBloqueLibre has no answer without one.
- SacServer.Server.Rmdir: states, parents and names only; the block release inside the loop (Sac-Server/operaciones.c:287) looks at another table entry.
- SacServer.Server.Unlink: only paths of files; o_unlink itself does not check this.
- SacSpare.ReachedTurnAppendsExactly: follows the first turn of a long write from inside a block; what later turns make of an index that is too short for the size is not followed.
- SacRuns.RunRefines: rmdir of directories without files below, rename under the condition of MayRename, appends as in SacServer.Server.Write, and a disk with a free block wherever obtenerBloqueLibre is called.
- SacRuns.RmdirOk: directories without files below, as the loop releases the blocks of another table entry.
- SacRuns.RenameOk: under the condition of MayRename; SacTreeOps.RenameKeepsTreeExactly says when a rename keeps a tree at all.
- SacRuns.UnlinkOk: paths of files only.
- SacFs.CreateOk: requires two free blocks when an entry is to be made.
- SacFs.WriteOk: the appends of SacServer.Server.Write.
- SacWrite.WriteAppends: the appends of SacServer.Server.Write.
- SacServer.Server.WriteTurn: the appends of SacServer.Server.Write.
- SacServer.Server.WriteFrom: the appends of SacServer.Server.Write.
- SacServer.Server.ReadRange: the ranges of SacServer.Server.Read.
- SacRuns.FormattedOk: what mkfs writes is not part of this model.
- bitmap_free_blocks is not decremented when a block is taken; its exactness across allocations is not claimed, and it is an unbounded integer here, where the source's int may overflow after 2^31 releases. "Owned implies used" is proved, not equality, as an empty file leaks its blocks.
- Names are character sequences shorter than 71 without a slash; relative paths and the buffer o_rename copies the name through are not modelled. That a parent is a directory is the kernel's promise, a premise here.
- SuseRuns.RunPartition: over runs without disconnects, as limpiarEstructuras leaves the program's entries in the new and semaphore queues, and a descriptor reused as pid would then find them.
- SuseRuns.StepThreads: every request but a disconnect, for the same reason.
- SuseRuns.StepPartition: every request but a disconnect, for the same reason.
- SuseCounters.StepNew: every request but a disconnect, for the same reason.
- SuseCounters.StepReady: every request but a disconnect, for the same reason.
- SuseCounters.StepBlocked: every request but a disconnect, for the same reason.
- SuseCounters.StepDrifts: every request but a disconnect, for the same reason.
- SuseSafety.StepNoLostJoin: every request but a disconnect, for the same reason.
- SuseEstimates.StepEstimated: every request but a disconnect, for the same reason.
- SuseSafety.RunActive: over runs without disconnects, for the same reason.
- SuseCounters.RunCounted: over runs without disconnects, for the same reason.
- SuseSafety.RunNoLostJoin: over runs without disconnects, for the same reason.
- SuseSafety.AdmissionBound: over runs without disconnects, each of which posts a permit more.
- SuseEstimates.RunEstimated: over runs without disconnects, for the same reason.
- SuseReachable.ReachableStates: over runs without disconnects, for the same reasons.
- SuseServer.Server.Schedule: requires a thread to run; a call that parks is taken when a thread is ready.
- SuseServer.Server.Drop: only the permit and the three dictionaries; threads are values, so what freeing them does to those still queued is not captured.
- SuseEstimates.EstimateIsWeightedSum: over real numbers, the source computes in float.
- SuseEstimates.ShortestRuns: the order list_sort leaves equal estimates in is an input, as its library is not part of this model; bursts are inputs, not measured through the global inicioRafaga. A parked call, which takes the first thread without sorting again, is not covered.
- Protocol.Agreement: requests other than create are sent only once the main thread was admitted (before, SUSE would follow a null pointer on a wait or a close), programs do not disconnect, one program has one connection for its whole life, and 5000 thread ids are never exceeded (hilolay_create then fails, as proved).
- Clock.RoundRobin: one workload among many, every new page written before the next fault and no other page touched.
- The rest of MUSE: heap metadata, segments, get and cpy, map, sync and unmap, swap.
