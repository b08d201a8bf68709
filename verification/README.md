# Verified models of a task scheduler, xxHash and an IR constant cache

A Dafny 4.11 project. It models three parts of the repository and proves what they promise:

* the work-stealing M/P/T task scheduler of `src/rt/sched.c`, with the state of `src/rt/schedimpl.h`;
* the hashes XXH32, XXH64 and the 64-bit XXH3 of `src/xxhash/xxhash.h`;
* the cache of constants of an IR function, `src/co/ir/constcache.c`, and its user in `src/co/ir/ir.c`.

`dafny verify dfyconfig.toml` checks everything, within the verifier's default limits.

## The files

**Scheduler**

* `RunqProtocol`, `RunqSafety`, `RunqRuns`: one lock-free run queue as a transition system. One step is
  one atomic load, slot access, store or compare-and-swap of the owner, of any number of thieves or of any
  number of callers of `p_runqempty`. The ring holds the 32-bit values of the source; a ledger beside it
  counts without wrapping and no step reads it. Memory is sequentially consistent. Wrapped counters can
  fool a thief or an emptiness test, if one counter goes around all of 2^32 exactly between its loads
  (`Lapped`). `VerdictExact` and `AnswerExact` say that a swap and an answer come out as with true counters
  if and only if that has not happened; `TimelyExact` says the same of whole schedules. The theorems about
  runs hold for exactly these schedules, and `TakenTwice` and `EmptyButFull` are schedules outside them in
  which a task is taken twice and a queue that is not empty is reported empty.
* `RunqRefines`: every step of that system is one queue operation of the scheduler model, or none.
* `RunqSolo`: what a put, a get and a grab come to when nobody interferes, from any state in order.
* `Ring`: the same queue as a class with an array and wrapping counters, operated by one thread at a time,
  each operation against the sequence of queued tasks.
* `Scheduler`, `SchedulerInv`, `SchedulerRuns`: all Ms, Ps and Ts together. Every M runs `schedule`,
  `s_findrunnable`, `s_stealwork`, `m_resetspinning`, `p_wake`, `p_startm`, `s_newm`, `m_stop`,
  `t_execute`, `t_yield1`, `t_exit` and `sched_spawn`, interleaved with the others wherever shared state
  changes. A take from a ring, a put into it and a change of `runnext` are one step each, as `RunqRefines`
  proves each of them to be; a thief takes at most its share of the victim's ring, which may have grown since it loaded the tail. What a thief or
  `s_runqget` then puts into its own ring goes in with the same step: it was in no other place and only
  the owner puts. The panics, assertions and hopeless status waits of the code set a flag, and the flag is
  proved never to be set. Runs begin in any state in order; `StartWorld` is the one after `sched_init`, with
  any tasks `s_procresize` may have left in the global queue.
* `SchedulerQueues`: what each step of the scheduler does to each queue, as operations of `RunqRefines`, who gets
  what is taken, and the order in which tasks leave a ring.
* `SchedulerWakes`: what `p_wake` is for: an idle P is started when there is work and no M is spinning, and is
  left idle only for a reason.
* `SchedulerIdle`: an M without work: how it gives up its P, and how a last look takes that back.
* `SchedulerProgress`: an M with a task in hand runs it after a bounded number of its own steps, whatever
  the others do.
* `SchedulerFair`: a P that goes on starting time slices takes from a global queue that is not empty.
* `TaskLists`, `FreeTasks`, `FreeRuns`: `TQueue` and `TList` as linked objects, the caches of dead tasks built
  on them, and any run of cache operations by any number of Ps.
* `GlobalQueue`, `ProcResize`, `RandEnum`: batches from the global queue; changing the number of Ps; the order
  in which victims are visited.

**xxHash**

* `Xxh3Spec`, `Xxh3Stream`: XXH3 for inputs in one piece and in many. The stripe functions are parameters.
* `Xxh3Schedule`: the calls that make up a digest, for every kernel: on which bytes of the input, with which bytes
  of which secret, in which order.
* `StripeFold`, `Xxh32`, `Xxh64`: the two older hashes, with all their arithmetic.
* `Numbers64`, `Xxh64Numbers`, `Xxh3Numbers`: words as the numbers they stand for, and on these a second
  definition of XXH64, of a lane of XXH3 and of XXH3 for one to three bytes, proved to be what the words compute.
* `Xxh64Known`, `Xxh32Known`: known answers, with and without stripes, tails and seeds.
* `Mult128`, `Mixes`, `Avalanche`, `Vector`: the portable 64x64 to 128 bit product, the invertible mixes,
  and the SSE2 and AVX2 loops against the scalar ones.
* `Xxh3Kernels`: XXH3 with those loops in place, streaming against one-shot.

**Constants**

* `ConstCache`: the bitmap, the dense branches, and `getConst64`.

`Base` has the shared types.

## Where code and comments differ

* `src/rt/sched.c:1225` says that a put on a full queue goes to the global queue. `p_runqputslow` is a stub
  that returns false (`src/rt/sched.c:1217-1220`), so the put waits. In the scheduler model it waits until a
  thief has made room; `Ring.P.Put` is one turn of the loop.
* `src/rt/sched.c:1196` says that `p_runqempty` never returns true spuriously. What holds is that ring and
  `runnext` were both empty at its read of `runnext`, not at its return, and only if no counter has lapped
  another between its loads (`EmptyIsTrue`, `EmptyButFull`).
* `p_runqsteal` checks for overflow only when more than one task was taken (`src/rt/sched.c:1353-1357`). A
  batch of one copied into a full ring would overwrite its front task; `Ring.P.Steal` states this exactly.
  The scheduler steals only with an empty ring.
* `src/rt/sched.c:1702` adds 1 in 32 bits; with a single P and 2^32 - 1 tasks waiting the sum wraps and the loop
  would take them all (`BatchSum`, `Batch32`).
* `randenum_next` adds in 32 bits, which is right for up to 2^31 Ps; `WrapMisses` says exactly when it is beyond.
* The hint of `IRConstCacheAdd` is used without a check; `HintExact` says exactly which hints work.

## Model

| member | source | states |
|---|---|---|
| RunqSafety.StepKeeps | src/rt/sched.c:1197-1360 | every step of owner, thieves and askers, in any interleaving, keeps: wrapped counters stand for the true ones, live slots hold the tasks put there, all batches taken concatenate to the prefix of what was put, every copy a thief holds is right while its head is current, every task offered is accounted for, no overflow |
| RunqSafety.CommitTakesFront | src/rt/sched.c:1305-1342 | a thief's swap succeeds exactly when its head is still the head, and then its batch is the front of the ring and exactly half, rounded up, of what was there between that head and the tail it had loaded, not none and at most 128 |
| RunqSafety.GrabDecides | src/rt/sched.c:1305-1334 | a thief whose head is still the head goes on to copy half of the ring, rounded up, if there was anything in it when it loaded the tail; otherwise to runnext, if it may, or it ends |
| RunqSafety.VerdictExact | src/rt/sched.c:1305-1338 | the wrapped comparison gives the right verdict if and only if the head has not advanced by a positive multiple of 2^32 since it was loaded |
| RunqSafety.AnswerExact | src/rt/sched.c:1205-1211 | an emptiness test does what it would with true counters if and only if the tail has not lapped since it was first loaded nor, when that matters for the answer, lapped the head loaded before it |
| RunqSafety.WindowExact | src/rt/sched.c:1305-1338 | the condition put on each step excludes the misled swaps and nothing else |
| RunqSafety.TakeFront | src/rt/sched.c:1292-1293 | moving the head past the front segment, by a get or a grab, keeps counters, slots, history and task counts |
| RunqSafety.WriteDead | src/rt/sched.c:1247-1251 | a store at the tail of a ring that is not full, even by a stale head, overwrites no live slot |
| RunqSafety.PublishBack | src/rt/sched.c:1253 | moving the tail past stored tasks appends exactly those to the history |
| RunqRuns.RunKeeps | src/rt/sched.c:1197-1360 | the invariant holds after every schedule of any length in which no swap is misled |
| RunqRuns.TimelyExact | src/rt/sched.c:1305-1338 | a schedule is timely if and only if none of its swaps is misled |
| RunqRuns.ExactlyOnce | src/rt/sched.c:1245-1341 | over every timely schedule each task that left the ring left it in exactly one batch, in the order of the puts, and the steal never overflows |
| RunqRuns.NoTaskLost | src/rt/sched.c:1227-1360 | over every timely schedule each task ever offered is, as often as it was offered, taken, in the ring, in runnext or in the owner's hand |
| RunqRuns.EmptyIsTrue | src/rt/sched.c:1197-1213 | whatever interleaves, an answer "empty" is given at equal true counters if and only if none has lapped another between the loads, and then ring and runnext were both empty when runnext was read |
| RunqRuns.EmptyButFull | src/rt/sched.c:1203-1211 | a schedule without thieves in which the tail laps the loaded head and p_runqempty answers true although the ring was not empty at its later loads |
| RunqRuns.TakenTwice | src/rt/sched.c:1305-1338 | a schedule in which the head goes once around 2^32 during a grab and a task offered once is taken twice |
| RunqRefines.StepRefines | src/rt/sched.c:1227-1360 | every step of owner, thief or asker is one queue operation or none: append within 256, the owner takes the first, a thief exactly its share of the ring it saw, off the front, runnext is set or taken; and what is taken is what comes off |
| RunqRefines.EmptyRefines | src/rt/sched.c:1286-1287 | the owner finds its ring empty only when it is |
| RunqSolo.SoloGrab | src/rt/sched.c:1302-1344 | a thief alone, from any state in order: half of the ring, rounded up, off its front in order; from an empty ring runnext, if asked to; otherwise nothing, and nothing else changes |
| RunqSolo.SoloPut | src/rt/sched.c:1227-1262 | the owner alone: the task becomes runnext and the one it replaces the last of the ring, or the task becomes the last of the ring |
| RunqSolo.SoloGet | src/rt/sched.c:1268-1296 | the owner alone: runnext, or else the first of the ring, or the answer that there is none when both are empty |
| RunqSolo.ThiefEnds | src/rt/sched.c:1312-1342 | in any state a thief ends with its batch, with runnext, or having seen nothing to take |
| RunqSolo.FlagKept | src/rt/sched.c:1327-1341 | however often a thief starts again it may take runnext exactly if its caller said so |
| RunqSolo.GetEnds | src/rt/sched.c:1268-1296 | in any state a get ends with a task it took, or having seen head and tail equal |
| Ring.WrapKeepsSlot | src/rt/sched.c:1251 | a counter that wrapped modulo 2^32 still selects the same of 256 slots |
| Ring.DistinctSlots | src/rt/sched.c:1249-1251 | positions less than 256 apart are in different slots, across the wrap |
| Ring.LivePut | src/rt/sched.c:1251-1253 | storing behind the tail and advancing it appends those tasks and moves none |
| Ring.LiveGet | src/rt/sched.c:1289-1293 | advancing the head drops exactly that many tasks from the front |
| Ring.P.Put | src/rt/sched.c:1227-1262 | the new runnext replaces the old one, which goes to the end of the queue; otherwise the task goes to the end; with a full ring the task to go there is still in hand and nothing else has changed |
| Ring.P.Get | src/rt/sched.c:1268-1296 | runnext first, inheriting the time slice, then the front of the queue |
| Ring.P.Grab | src/rt/sched.c:1302-1341 | takes half the queue, rounded up, in order, at most 128, or runnext of an empty queue if asked to; leaves the rest and touches no other slot of the thief |
| Ring.P.Steal | src/rt/sched.c:1346-1360 | returns the last task of the batch and queues the others behind the thief's own, the victim keeps the suffix; overflow exactly when the batch does not fit, except for a batch of one |
| Ring.OneCopied | src/rt/sched.c:1352-1354 | a slot written but not published is harmless unless the ring was full |
| Ring.LiveBack | src/rt/sched.c:2001-2002 | decrementing the tail, also below zero, drops exactly the last task |
| Ring.P.PopTail | src/rt/sched.c:1999-2002 | the last task of the ring comes off its tail |
| SchedulerInv.TokensOne | src/rt/sched.c:1095-1192 | how the number of spinning tokens changes when one M moves on |
| SchedulerInv.TakeLocalKept | src/rt/sched.c:2416-2422 | taking from runnext or the ring keeps the scheduler invariant |
| SchedulerInv.TakeGlobalKept | src/rt/sched.c:1697-1721 | taking a batch of the global queue keeps the scheduler invariant, within 256 slots |
| SchedulerInv.StealKept | src/rt/sched.c:2177-2185 | stealing any number up to half of the ring, or runnext, from any P that is not marked idle keeps the invariant |
| SchedulerInv.ExecKept | src/rt/sched.c:820-836 | t_execute keeps the invariant: the task becomes running on this M |
| SchedulerInv.SpawnDead | src/rt/sched.c:2102 | the task a spawn starts is dead before, if it was known at all, so sched_spawn's assertion holds |
| SchedulerInv.SpawnKept | src/rt/sched.c:2061-2117 | sched_spawn up to its swap of runnext, with a new or a free task, keeps the invariant; the old runnext is in the M's hand |
| SchedulerInv.PutKept | src/rt/sched.c:1241-1262 | the ring put that ends a spawn or a yield, now or once there is room, keeps the invariant; that the task goes to the end is in StepChanges |
| SchedulerInv.RunningReady | src/rt/sched.c:774-777 | the task of an M that is running one has status running, so t_yield1 and t_exit never wait for it |
| SchedulerInv.YieldKept | src/rt/sched.c:774-781 | t_yield1 up to its put keeps the invariant: the task is runnable and in the M's hand |
| SchedulerInv.ExitKept | src/rt/sched.c:658-689 | t_exit, pooling the task or not, keeps the invariant |
| SchedulerInv.FreeKept | src/rt/sched.c:955-1041 | moving a batch of free tasks between a P and the global list keeps the invariant |
| SchedulerInv.StopKept | src/rt/sched.c:2247-2276 | giving up the P keeps the invariant, and neither p_release nor s_pidleput asserts |
| SchedulerInv.RecheckKept | src/rt/sched.c:2299-2318 | getting an idle P back after the last look keeps the invariant, and p_acquire does not assert |
| SchedulerInv.StartNewKept | src/rt/sched.c:1131-1163 | p_startm with an idle P and no idle M keeps the invariant |
| SchedulerInv.StartIdleKept | src/rt/sched.c:1131-1148 | p_startm with an idle P and an idle M keeps the invariant: both leave their lists |
| SchedulerInv.HandKept | src/rt/sched.c:1178-1191 | handing P and spinning token to the idle M keeps the invariant; it has no P, is not spinning, and the P has no work |
| SchedulerInv.CreateKept | src/rt/sched.c:1166-1175 | a new M, promised the P and the token, keeps the invariant |
| SchedulerInv.ArriveKept | src/rt/sched.c:1507-1512 | an M woken or created takes the P promised to it, and p_acquire does not assert |
| SchedulerInv.ParkKept | src/rt/sched.c:1652-1663 | m_stop keeps the invariant: no P, not spinning |
| SchedulerInv.ExecReady | src/rt/sched.c:828 | the task about to run is runnable and held by this M alone |
| SchedulerRuns.ScheduleKept | src/rt/sched.c:2388-2429 | schedule keeps the invariant and its panic on spinning with local work is out of reach |
| SchedulerRuns.FindKept | src/rt/sched.c:2201-2247 | s_findrunnable keeps the invariant through its whole decision |
| SchedulerRuns.SpinningKept | src/rt/sched.c:2122-2126 | marking an M spinning and counting it, and m_resetspinning, in separate steps, keep the count of tokens |
| SchedulerRuns.ReleasedKept | src/rt/sched.c:2291-2297 | the transition out of spinning keeps the count of tokens and never makes it negative |
| SchedulerRuns.WakeKept | src/rt/sched.c:1364-1383 | p_wake keeps the whole invariant and with it the count of tokens, whatever changes between its loads and its swap; when it starts an M is in WakeWorks and NoWakeWithoutReason |
| SchedulerRuns.ExitGoes | src/rt/sched.c:658-689 | a task that exits is dead, and free on the P it ran on if it is pooled or else retired, and its M enters schedule |
| SchedulerRuns.FreeGoes | src/rt/sched.c:955-1041 | a batch of free tasks leaves the global list for a P, or the P for the list, and nothing else of either changes |
| SchedulerRuns.StepKept | src/rt/sched.c:1059-2447 | every step of every M keeps the whole invariant |
| SchedulerRuns.StartInv | src/rt/sched.c:2476-2532 | the state after sched_init and the spawn of the main task satisfies the invariant, with any tasks waiting in the global queue |
| SchedulerRuns.RunKept | src/rt/sched.c:2373-2447 | the invariant holds after every run from any state that satisfies it |
| SchedulerRuns.MainStarts | src/rt/sched.c:2526-2532 | the first steps run the main task on M 0 |
| SchedulerRuns.WaitingFirst | src/rt/sched.c:2403-2413 | if tasks wait in the global queue at the start, the first of them comes before the main task |
| SchedulerRuns.RunRemembers | src/rt/sched.c:2090-2105 | the tasks known after a run are those known before and spawned ones, none forgotten |
| SchedulerRuns.EveryTaskInOnePlace | src/rt/schedimpl.h:108-147 | after every run each task is in exactly one of ring, runnext, global queue, an M's hand, a free list or retirement, with the status documented for that place, and no unknown task is anywhere |
| SchedulerRuns.RunningHasMachine | src/rt/schedimpl.h:117-121 | after every run a task is running if and only if it is the current task of an M that has a P |
| SchedulerRuns.NeverTwice | src/rt/sched.c:820-842 | after every run no two Ms hold one task, no queue holds one twice, the global count is its length, rings fit |
| SchedulerRuns.SpinningExact | src/rt/sched.c:1095-1192 | after every run nmspinning is the number of Ms holding a token, so never negative, and no panic or assertion has been reached |
| SchedulerRuns.SpinningIsIdle | src/rt/sched.c:2392-2396 | after every run an M that enters schedule spinning has an empty ring and runnext |
| SchedulerRuns.OneHolder | src/rt/sched.c:1060-1091 | after every run each P is owned, idle, promised or in transit, exactly one of these, with the right back links, and idle list, npidle and mask agree |
| SchedulerRuns.ExecuteNeverWaits | src/rt/sched.c:825-828 | after every run a task about to be executed is runnable, so its status change never waits |
| SchedulerQueues.StepChanges | src/rt/sched.c:1227-1360 | over the whole scheduler, every step changes the ring and runnext of every P by one queue operation, possible there, or none: puts, the rest of a global batch and the rest of a stolen one go to the end, in order, by the P's owner; takes come off the front |
| SchedulerQueues.StepHands | src/rt/sched.c:2399-2429 | what an M takes from its own queue or the global one it has in hand: runnext in the inherited time slice, the first of the ring or of the global queue in one of its own; the global queue loses exactly the batch, off its front |
| SchedulerQueues.StealHands | src/rt/sched.c:1346-1360 | a thief runs the last task of its batch, or runnext, in a time slice of its own |
| SchedulerQueues.FirstInFirstOut | src/rt/sched.c:1251-1293 | over every run: while a task stays in a ring, those behind it stay there and behind it, and none comes in ahead of it |
| SchedulerQueues.YieldGoesLast | src/rt/sched.c:774-783 | a task that yields is runnable and the last of its ring, and its M enters schedule |
| SchedulerWakes.WakeWorks | src/rt/sched.c:1364-1384 | a p_wake that nobody interferes with, with an idle P and no M spinning, returns with the first idle P promised to an idle M it has woken, the first of them, or else to a new one |
| SchedulerWakes.HelperGetsP | src/rt/sched.c:1178-1191 | and one step of that M later it has the P and looks for work with it, spinning |
| SchedulerWakes.NoWakeWithoutReason | src/rt/sched.c:1364-1384 | whatever the other Ms do, a p_wake that has returned promised an idle P to an M, or saw at one of its loads, its swap or in p_startm that there was no idle P or an M was spinning |
| SchedulerWakes.SpawnQueues | src/rt/sched.c:2090-2117 | a spawn that nobody interferes with makes the new task runnext, puts the old one at the end of the ring, and calls p_wake exactly if the main task has started |
| SchedulerWakes.SpawnGetsHelp | src/rt/sched.c:2090-2117 | such a spawn, with an idle P and no M spinning, gets an M started for that P while the running task goes on |
| SchedulerWakes.ResetGetsHelp | src/rt/sched.c:2358-2371 | the last spinning M that finds work, with a P still idle, gets another M started before it runs the task |
| SchedulerIdle.FindDecides | src/rt/sched.c:2231-2247 | an M with nothing in its ring, runnext or the global queue steals, marked and counted as spinning once, unless it gives up |
| SchedulerIdle.StealFails | src/rt/sched.c:2239-2247 | an M that found no victim with work goes on to give up its P |
| SchedulerIdle.RetryRestores | src/rt/sched.c:2247-2318 | an M that gave up its P and then finds a queue not empty gets it back, and the whole scheduler is as it was, spinning and counted or not |
| SchedulerIdle.GivesUp | src/rt/sched.c:2247-2351 | otherwise it parks: first of the idle Ms, its P first of the idle Ps, no longer spinning or counted |
| SchedulerProgress.DueNearer | src/rt/sched.c:1364-1383 | the next step of an M with a task in hand keeps the task and brings it nearer to t_execute, through m_resetspinning, p_wake and p_startm |
| SchedulerProgress.OthersLeave | src/rt/sched.c:1136-1191 | no step of another M changes an M that is neither parked nor taken off the idle list |
| SchedulerProgress.HeldOnTheWay | src/rt/sched.c:2431-2445 | over any interleaving, until an M runs its task it keeps it, and each of its own steps brings it nearer |
| SchedulerProgress.TakenIsRun | src/rt/sched.c:2399-2445 | in every run, an M that has taken a task runs that task within eight steps of its own, whatever the other Ms do in between |
| SchedulerProgress.ClaimedGetsP | src/rt/sched.c:1136-1191 | after every run, an M taken off the idle list has exactly the M that took it about to hand it a P, and one step of each makes it own that P and look for work, spinning |
| TaskLists.Join | src/rt/sched.c:312-322 | two chains without common tasks, linked end to start, are one chain, acyclic |
| TaskLists.TList.Push | src/rt/sched.c:351-354 | the task becomes the first; links stay acyclic and consistent |
| TaskLists.TList.Pop | src/rt/sched.c:365-370 | removes the first task, or returns null |
| TaskLists.TList.PushAll | src/rt/sched.c:357-362 | the queue goes in front of the list, in order |
| TaskLists.TQueue.Push | src/rt/sched.c:292-297 | the task becomes the head, and the tail of an empty queue |
| TaskLists.TQueue.PushBack | src/rt/sched.c:300-308 | the task becomes the tail |
| TaskLists.TQueue.PushBackAll | src/rt/sched.c:312-322 | the other queue goes behind this one, in order |
| TaskLists.TQueue.Pop | src/rt/sched.c:326-334 | removes the head; the tail of an emptied queue is null |
| TaskLists.TQueue.PopList | src/rt/sched.c:337-342 | all tasks as a list, the queue left empty |
| FreeTasks.P.Refill | src/rt/sched.c:955-969 | up to 32 tasks of the global list, reversed; both counts stay the lengths |
| FreeTasks.P.Get | src/rt/sched.c:952-996 | the first local task, after a refill if there was none; the retry loop ends; both counts stay the lengths |
| FreeTasks.P.Drain | src/rt/sched.c:1030-1035 | pops down to a number of tasks, the popped ones reversed in the queue |
| FreeTasks.P.Give | src/rt/sched.c:1027-1040 | the drained tasks go in front of the global list; lists stay disjoint and counts exact |
| FreeTasks.P.Put | src/rt/sched.c:1000-1041 | with 63 tasks already here 33 go to the global list and 31 stay; never more than 63 after a put |
| FreeTasks.P.Purge | src/rt/sched.c:1044-1057 | everything goes to the global list |
| FreeRuns.BatchConserves | src/rt/sched.c:1027-1040 | a batch given away is neither lost nor doubled |
| FreeRuns.GotRefills | src/rt/sched.c:952-996 | a get fails only with no free task anywhere; with none of its own the P takes the first 32 of the global list, or all, uses the last and keeps the others in reverse |
| FreeRuns.PutSpills | src/rt/sched.c:1024-1041 | the 64th task sends 33 to the global list, itself the last of them, and 31 stay |
| FreeRuns.StepConserves | src/rt/sched.c:952-1057 | a get, put or purge by any P keeps how often each task is in some local list, the global list or in use, and local lists within 63 |
| FreeRuns.RunConserves | src/rt/sched.c:952-1057 | the same over every run of such operations by any number of Ps |
| GlobalQueue.Batch | src/rt/sched.c:1702-1707 | between 1 and 128 tasks of a queue that is not empty, at most max, at most the queue; BatchLargest says how many |
| GlobalQueue.BatchLargest | src/rt/sched.c:1702-1707 | the batch is as large as it may be: one more than the share of a P, within the queue, the limit asked for and half a ring |
| GlobalQueue.BatchSum | src/rt/sched.c:1702 | the 32-bit sum in s_runqget wraps if and only if there is one P and 2^32 - 1 tasks wait |
| GlobalQueue.S.RunqGet | src/rt/sched.c:1697-1721 | returns the first task and puts the following ones of the batch, in order, at the end of the ring, in which they fit; runqsize stays the length |
| GlobalQueue.S.PutHead | src/rt/sched.c:1724-1727 | the task goes to the head and is counted |
| GlobalQueue.S.Pick | src/rt/sched.c:2406-2422 | on a tick that is a multiple of 61 a waiting global queue comes first, otherwise runnext and the ring |
| GlobalQueue.SlicesLeft | src/rt/sched.c:2406 | within 60 steps of a 32-bit tick, also across its wrap, it is a multiple of 61 |
| SchedulerFair.StepTick | src/rt/sched.c:833-835 | over the whole scheduler, the tick of a P changes only when a task that starts a time slice is executed on it, by one |
| SchedulerFair.OnlyPassTests | src/rt/sched.c:2399-2413 | once a task runs on a P, whatever all the Ms do, only a pass of schedule on that P ends the state in which its tick is untested |
| SchedulerFair.PassTakes | src/rt/sched.c:2406-2413 | a pass of schedule at a multiple of 61 with tasks waiting takes the first of them |
| SchedulerFair.GlobalTurn | src/rt/sched.c:2403-2413 | in every run of all the Ms, with tasks waiting in the global queue all along, a P that starts 61 time slices takes from that queue, within 61 slices if its tick is untested at the start and 62 otherwise, also across the wrap of schedtick |
| SchedulerFair.SixtyCanPass | src/rt/sched.c:2403-2413 | a run in which 60 time slices pass over a waiting global queue |
| ProcResize.S.Settle | src/rt/sched.c:1972-1991 | the current P is kept if it survives, else the first P becomes current; one P has an M |
| ProcResize.S.FlushWork | src/rt/sched.c:1999-2010 | ring in order, behind runnext, in front of the global queue |
| ProcResize.S.Shrink | src/rt/sched.c:1993-2015 | removed Ps are blank, their work in front of the global queue, later Ps first, their free tasks on the global list |
| ProcResize.ListIdle | src/rt/sched.c:2029-2034 | a P without work joins the idle list |
| ProcResize.ListRunnable | src/rt/sched.c:2035-2039 | a P with work gets an idle M, if there is one, and joins the returned list |
| ProcResize.S.Resize | src/rt/sched.c:1940-2051 | each kept P keeps what it held and is the current one, idle or returned, exactly one of these; idle list, npidle and mask agree; global queue and free list gain exactly what the removed Ps held; every runnable task is there as often as before |
| ProcResize.TrimConserves | src/rt/sched.c:1947-2015 | growing or shrinking the Ps, and flushing the removed ones, keeps every runnable task as often as it was there |
| ProcResize.ResizeConserves | src/rt/sched.c:1993-2015 | keeping a front of the Ps and flushing the others keeps the multiset of runnable tasks |
| RandEnum.Gcd | src/rt/sched.c:377-385 | a common divisor that every common divisor divides; the loop ends |
| RandEnum.Cancel | src/rt/sched.c:396 | what being coprime is for: a factor coprime to n can be cancelled modulo n |
| RandEnum.NoRepeat | src/rt/sched.c:413-416 | with a coprime increment no index comes up twice within count steps, from any start |
| RandEnum.RandomOrder.constructor | src/rt/sched.c:391-399 | exactly the numbers up to count that are coprime to it, and at least one |
| RandEnum.RandomEnum.Next | src/rt/sched.c:413-416 | position i is start plus i increments modulo count |
| RandEnum.WrapMisses | src/rt/sched.c:413-416 | with more than 2^31 Ps a step is right if and only if its 32-bit sum does not wrap |
| RandEnum.VisitAll | src/rt/sched.c:2133-2137 | one enumeration visits every P exactly once, starting where it was told to |
| StripeFold.FoldSnoc | src/xxhash/xxhash.h:1940-1945 | one more stripe is one more step |
| StripeFold.FoldTail | src/xxhash/xxhash.h:1955 | bytes that do not fill a stripe leave the lanes alone |
| Xxh32.Finalize | src/xxhash/xxhash.h:1833-1902 | the rerolled loops and the switch with its fallthroughs compute the same |
| Xxh32.Absorb | src/xxhash/xxhash.h:2057-2062 | the do-while loop absorbs every complete stripe of the rest of the input |
| Xxh32.OneShot | src/xxhash/xxhash.h:1920-1956 | the hash of the input |
| Xxh32.FlagExact | src/xxhash/xxhash.h:2029-2030 | large_len is set exactly when 16 bytes or more have come, although total_len_32 wraps |
| Xxh32.TracksHash | src/xxhash/xxhash.h:2081-2097 | the hash of everything that came, from lanes, flag, wrapped counter and buffer |
| Xxh32.State.Feed | src/xxhash/xxhash.h:2038-2073 | lanes are the fold over all complete stripes, the buffer the last total mod 16 bytes |
| Xxh32.State.Update | src/xxhash/xxhash.h:2016-2077 | a state that stands for some input stands for it and the new piece |
| Xxh32.State.Digest | src/xxhash/xxhash.h:2081-2097 | the one-shot hash of all pieces |
| Xxh32.Stream | src/xxhash/xxhash.h:2001-2097 | reset, any updates and digest give the one-shot hash of the concatenation, of any length |
| Xxh32Known.EmptySeeded | src/xxhash/xxhash.h:1920-1956 | the hash of no input with seed 2654435761 is 0x36b78ae7 |
| Xxh32Known.TextHash | src/xxhash/xxhash.h:1920-1956 | the hash of "Nobody inspects the spammish repetition", two stripes and a tail, is 0xe2293b2f |
| Xxh32Known.SeededHash | src/xxhash/xxhash.h:1833-1902 | a hash of 14 bytes with a seed, three words and two bytes of tail, is 0x6af1d1fe |
| Numbers64.NumberPlus | src/xxhash/xxhash.h:2286 | words are added modulo 2^64 |
| Numbers64.NumberTimes | src/xxhash/xxhash.h:2286-2288 | words are multiplied modulo 2^64 |
| Numbers64.NumberTurned | src/xxhash/xxhash.h:1624 | a word rotated k times by one bit stands for n * 2^k modulo 2^64, plus the quotient of n by 2^(64-k) |
| Numbers64.NumberXor | src/xxhash/xxhash.h:2295 | the exclusive or of words is that of their numbers, bit by bit |
| Xxh64Numbers.RoundIs | src/xxhash/xxhash.h:2284-2290 | a round on words is the round on numbers, with sums and products modulo 2^64 and rotation by quotient and remainder |
| Xxh64Numbers.MergeRoundIs | src/xxhash/xxhash.h:2292-2298 | a merge round on words is the merge round on numbers |
| Xxh64Numbers.ConvergeIs | src/xxhash/xxhash.h:2375-2379 | rotations, sum and four merge rounds on words are those on numbers |
| Xxh64Numbers.FinishedIs | src/xxhash/xxhash.h:2313-2336 | the tail and the avalanche on words are those on numbers, reading little-endian |
| Xxh64Numbers.HashIs | src/xxhash/xxhash.h:2348-2388 | for every input and seed the hash is the one a definition on numbers gives |
| Xxh64Known.Empty | src/xxhash/xxhash.h:2348-2388 | the hash of no input is 0xef46db3751d8e999 |
| Xxh64Known.EmptySeeded | src/xxhash/xxhash.h:2348-2388 | with seed 2654435761 it is 0xac75fda2929b17ef |
| Xxh64Known.TextHash | src/xxhash/xxhash.h:2348-2388 | the hash of "Nobody inspects the spammish repetition", one stripe and seven bytes of tail, is 0xfbcea83c8a378bf1 |
| Xxh64Known.SeededHash | src/xxhash/xxhash.h:2313-2336 | a hash of 14 bytes with a seed, every kind of tail, is 0xc3bd6bf63deb6df0 |
| Xxh64.Finalize | src/xxhash/xxhash.h:2313-2336 | words of 8, at most one of 4, then bytes, of the last len mod 32 bytes |
| Xxh64.OneShot | src/xxhash/xxhash.h:2348-2388 | the hash of the input |
| Xxh64.TracksHash | src/xxhash/xxhash.h:2508-2530 | the hash of everything that came, below 2^64 bytes |
| Xxh64.State.Feed | src/xxhash/xxhash.h:2467-2500 | lanes are the fold over all complete stripes, the buffer the last total mod 32 bytes |
| Xxh64.State.Update | src/xxhash/xxhash.h:2446-2504 | a state that stands for some input stands for it and the new piece |
| Xxh64.State.Digest | src/xxhash/xxhash.h:2508-2530 | the one-shot hash of all pieces |
| Xxh64.Stream | src/xxhash/xxhash.h:2432-2530 | reset, any updates and digest give the one-shot hash of the concatenation |
| Xxh3Schedule.LongCalls | src/xxhash/xxhash.h:4201-4304 | a long digest is exactly these calls, for every kernel and mode: each stripe that leaves a byte, in its place, with the secret 8 bytes further on each time, a scramble with the end of the secret after each turn, the last 64 bytes with the secret 7 bytes before its end, and a merge with the secret of the mode from byte 11 on and the length |
| Xxh3Schedule.ShortCall | src/xxhash/xxhash.h:4379-4421 | a short digest is one call, with the default secret unless one is given and seed 0 unless one is given |
| Xxh3Schedule.MergeSees | src/xxhash/xxhash.h:4302-4304 | with a merge that answers with anything of what it is told, a long input hashes to that of the mode's secret from byte 11 on and the length |
| Xxh3Schedule.LastTaken | src/xxhash/xxhash.h:4242-4248 | with an accumulate that keeps only its last call, a long input hashes to that of its last 64 bytes and the secret 7 bytes before its end |
| Xxh3Stream.FoldAbsorbs | src/xxhash/xxhash.h:4201-4216 | accumulating stripes inside one block is absorbing them in sequence, scrambling when the block fills |
| Xxh3Stream.BlockCount | src/xxhash/xxhash.h:4225-4240 | the blocks counted by (len-1)/block_len and the stripes after them are (len-1)/64 stripes |
| Xxh3Stream.HashLong | src/xxhash/xxhash.h:4218-4249 | the block loop absorbs all stripes but the last, which it takes from the end of the input |
| Xxh3Stream.OneShot | src/xxhash/xxhash.h:4379-4421 | the hash, for the default secret, any given secret and any seed |
| Xxh3Stream.SplitAtBlock | src/xxhash/xxhash.h:4580-4590 | a batch of stripes that crosses a block end, scrambled eagerly there, is absorbed like any other |
| Xxh3Stream.ConsumeStripes | src/xxhash/xxhash.h:4574-4597 | so many more stripes absorbed, stripe count modulo the block kept |
| Xxh3Stream.State.ResetWithSecret | src/xxhash/xxhash.h:4551-4558 | accepts exactly secrets of 136 bytes or more, whatever the state was used for before |
| Xxh3Stream.State.ResetWithSeed | src/xxhash/xxhash.h:4562-4569 | ready to hash with the seed, whatever the state was used for before |
| Xxh3Stream.State.Append | src/xxhash/xxhash.h:4614-4618 | input that fits the buffer is only buffered |
| Xxh3Stream.State.Flush | src/xxhash/xxhash.h:4626-4637 | a completed buffer is the next 256 bytes and is absorbed |
| Xxh3Stream.State.ConsumeDirect | src/xxhash/xxhash.h:4640-4655 | whole buffers straight from the input are absorbed, and the last stripe is kept in the buffer |
| Xxh3Stream.State.Update | src/xxhash/xxhash.h:4602-4669 | a state that stands for some input stands for it and the new piece |
| Xxh3Stream.LastStripe | src/xxhash/xxhash.h:4698-4709 | with less than 64 bytes pending the end of the buffer and its start make up the last stripe |
| Xxh3Stream.State.DigestLong | src/xxhash/xxhash.h:4680-4712 | all stripes absorbed and the last one added, on a copy |
| Xxh3Stream.ShortBuffered | src/xxhash/xxhash.h:4724-4729 | up to 240 bytes are all still in the buffer |
| Xxh3Stream.State.Digest | src/xxhash/xxhash.h:4715-4730 | the one-shot hash of all pieces, short or long |
| Xxh3Stream.Stream | src/xxhash/xxhash.h:4515-4730 | a used or new state, reset in any mode and fed in any pieces, digests to the hash of the concatenation |
| Xxh3Stream.StreamingIsOneShot | src/xxhash/xxhash.h:4574-4730 | streaming in any pieces and hashing in one shot agree, for every kernel, mode, secret and seed |
| Mult128.SumsFit | src/xxhash/xxhash.h:3204-3207 | none of the four 64-bit sums wraps |
| Mult128.Mult64To128 | src/xxhash/xxhash.h:3198-3212 | high * 2^64 + low is the product, for any two words |
| Avalanche.Avalanche64Bijective | src/xxhash/xxhash.h:2300-2308 | XXH64_avalanche has a two-sided inverse |
| Avalanche.AvalancheXBijective | src/xxhash/xxhash.h:3244-3250 | XXH3_avalanche has a two-sided inverse |
| Avalanche.Avalanche32Bijective | src/xxhash/xxhash.h:1807-1815 | XXH32_avalanche has a two-sided inverse |
| Avalanche.PackingKeepsAll | src/xxhash/xxhash.h:3307-3316 | bytes and length can be read off the packed word |
| Avalanche.ShortRecoverable | src/xxhash/xxhash.h:3301-3321 | an input of one to three bytes can be computed from its hash, secret and seed |
| Avalanche.ShortDistinct | src/xxhash/xxhash.h:3301-3321 | two inputs of one to three bytes have equal hashes if and only if they are equal, under any secret and seed |
| Xxh3Numbers.AccumulateIs | src/xxhash/xxhash.h:4048-4053 | in numbers a lane gains, modulo 2^64, its neighbour's data and the product of remainder and quotient by 2^32 of its own key |
| Xxh3Numbers.ScrambleIs | src/xxhash/xxhash.h:4064-4070 | in numbers a scrambled lane is the lane, its quotient by 2^47 and the secret in exclusive or, times the prime, modulo 2^64 |
| Xxh3Numbers.ShortIs | src/xxhash/xxhash.h:3301-3321 | in numbers the hash of one to three bytes is the avalanche of the packed word and of the two words of secret plus the seed |
| Vector.AccumulateScalar | src/xxhash/xxhash.h:4039-4055 | each lane gains its neighbour's data and the product of the halves of its own key |
| Vector.ScrambleScalar | src/xxhash/xxhash.h:4057-4072 | each lane is scrambled |
| Vector.AccumulateLanes | src/xxhash/xxhash.h:3797-3813 | shuffles and 32x32 products of a vector are swap and product of two lanes |
| Vector.ProductByParts | src/xxhash/xxhash.h:3836-3840 | two 32-bit products, one shifted, make the 64-bit product |
| Vector.ScrambleLanes | src/xxhash/xxhash.h:3826-3841 | a vector scramble is two lane scrambles |
| Vector.AccumulateSse2 | src/xxhash/xxhash.h:3781-3814 | leaves what the scalar loop leaves |
| Vector.ScrambleSse2 | src/xxhash/xxhash.h:3816-3843 | leaves what the scalar loop leaves |
| Vector.AccumulateAvx2 | src/xxhash/xxhash.h:3678-3710 | leaves what the scalar loop leaves |
| Vector.ScrambleAvx2 | src/xxhash/xxhash.h:3712-3739 | leaves what the scalar loop leaves |
| Xxh3Kernels.SameAccumulate | src/xxhash/xxhash.h:3781-3814 | the vector loop as a function is the scalar loop turn by turn |
| Xxh3Kernels.SameHash | src/xxhash/xxhash.h:4218-4249 | the digest is the same with the vector and with the scalar loops, for every mode, secret and seed |
| Xxh3Kernels.VectorStreamIsScalarOneShot | src/xxhash/xxhash.h:4574-4730 | streaming in any pieces with the vector loops gives the one-shot digest of the scalar loops |
| ConstCache.BitindexIsRank | src/co/ir/constcache.c:90-92 | bitindex counts the types present below the given one |
| ConstCache.RankBijection | src/co/ir/constcache.c:84-92 | bitindex is an order-preserving bijection from the types present to the branches |
| ConstCache.FirstBranch | src/co/ir/constcache.c:147-152 | a first cache holds exactly its one constant |
| ConstCache.NewBranch | src/co/ir/constcache.c:162-177 | a branch inserted at its rank, with the later ones moved up, changes exactly one key |
| ConstCache.OldBranch | src/co/ir/constcache.c:178-182 | a value set in its type's branch changes exactly one key |
| ConstCache.Get | src/co/ir/constcache.c:111-130 | the constant of the map the cache stands for, and the hint for its type |
| ConstCache.Add | src/co/ir/constcache.c:132-186 | with no hint or with that of the preceding Get the map gains exactly this key; a new cache only for a new type |
| ConstCache.HintExact | src/co/ir/constcache.c:154-160 | for a constant not yet cached, a hint that names a branch works if and only if the type is present and the hint is its branch number plus one |
| ConstCache.StaleHint | src/co/ir/constcache.c:154-160 | so a hint from before a type was added can put the value under the wrong type |
| ConstCache.OneConstantEach | src/co/ir/ir.c:111-130 | no two constants of the entry block have the same type and value |
| ConstCache.Fun.GetConst64 | src/co/ir/ir.c:111-130 | returns a constant of this type and value from the entry block, which grows by it exactly if it was not there |

## Left out

- Context switches, thread-local state, threads, stacks, signals, random seeds and tracing: operating-system code; running a task is a change of state.
- Sleeping and waking of parked threads, timers and the network poller: stubs in the source. The last look at the other queues before parking is a free choice of the M, so nothing is claimed about missed wakeups.
- Progress is counted in steps of an M; that the operating system lets its thread take them, and that locks become free, is assumed.
- The limit on the number of threads and its panic (`src/rt/sched.c:1687-1690`): Ms can always be created.
- Tasks locked to threads, M lock counts and builds without assertions: `p_release` at `src/rt/sched.c:2274` is called inside an assertion.
- Scheduler: queues are sequences and free lists sets; rings and lists are refined in modules Ring, RunqRefines, TaskLists and FreeTasks. The number of Ps does not change during a run; ProcResize has that on its own.
- GlobalQueue: a batch needs room in the ring, as a put into a full one would wait; schedule asks for a batch of one and s_findrunnable has an empty ring.
- FindKept: the comparison of nmspinning with the busy Ps (`src/rt/sched.c:2234-2238`) is a free choice, as it is made on values read without a lock.
- TakenIsRun: a task in the middle of being put into a ring, by a yield or a spawn, is not one the M has taken; that put may have to wait for a thief.
- ExactlyOnce: for the timely schedules of TimelyExact; TakenTwice shows what happens otherwise.
- NoTaskLost: for the same schedules.
- EmptyIsTrue: when counters have lapped, the answer can still be right by chance; nothing is said about that.
- Weaker memory orders: all atomics are sequentially consistent.
- ProcResize: rings and intrusive lists are sequences, runqsize and the counters do not wrap.
- The byte-level Array helper (`src/rt/sched.c:180-211`) stores at one offset and reads at another; the coprimes of module RandEnum are a sequence. Counts are at most 2^31.
- VarBitmap's word layout and allocated size, and `allt`.
- GlobalTurn: counts what schedule takes at its tick test; tasks may also leave the global queue through s_findrunnable.
- xxHash: null inputs, alignment, big-endian machines, NEON, VSX, AVX512, prefetching, allocation, canonical forms, XXH3 inputs of 4 to 240 bytes and the 128-bit XXH3.
- XXH3's accumulate, scramble, merge and short-input functions are parameters of Xxh3Stream; Xxh3Kernels fills in the first two and Avalanche has inputs of one to three bytes. The accumulators of a streaming state are a value rather than an array in place.
- Xxh64.Stream: inputs below 2^64 bytes, as the one-shot function takes a 64-bit length.
- StreamingIsOneShot: inputs and secrets below 2^64 bytes, for the same reason.
- Mult64To128: words are integers below 2^64 with wrapping written out, and the or of two disjoint halves is a sum.
- ConstCache: red-black trees are maps, and IR operations are reduced to identity, type and value.
