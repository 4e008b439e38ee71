# Benchmark protocols and harness arithmetic, proved

A Dafny model of the parts of the burrow benchmark suite that are algorithms of their own: the
two-party protocols that the benchmarks are written around, the harness that measures them, and the
generators that make their input. `dafny verify dfyconfig.toml` checks the whole project.

## What is modelled

**Protocols.** Each protocol is a transition system with a program counter per goroutine, the shared
variables, and each goroutine's locals. A schedule is any finite sequence of turns; a turn also
carries whatever else is left open, such as which sleeper a signal wakes or which ready arm a select
takes. Every protocol has the same three kinds of result, each for every iteration count (and, for
bare channels, for every capacity) and every schedule:

1. an invariant that every step keeps, and from it the safety of every reachable state;
2. deadlock freedom: an unfinished reachable state has a goroutine whose turn changes it, and no
   schedule changes the state more often than a bound linear in the iteration count;
3. liveness: a schedule made of more blocks than that bound, in each of which both goroutines have a
   turn, ends in the finished state, and the finished state is clean (exact counts, nobody blocked,
   nothing left in a channel). `Interleaving.FairRunsFinish` is the general theorem.

Beside the transition system each protocol has a class whose methods make the source's statements one
at a time on fields, proved equal to the steps of the transition system.

| File | Code |
|---|---|
| `GateHandoff.dfy` | the one-waiter gate over park and ready, and the handoff with a stop flag |
| `LateRead.dfy` | the same handoff with the flag read after the signal, which hangs |
| `CondPingPong.dfy` | turns passed through one condition variable, signalled outside the lock |
| `ChanPingPong.dfy`, `ProducerConsumer.dfy`, `Channels.dfy` | channels of any capacity |
| `NotePingPong.dfy` | two threads and two notes |
| `SelectPingPong.dfy`, `SelectRing.dfy` | select with a quit arm, and a token round eight arms |
| `SynctestHandoff.dfy` | wait until the partner is parked, then send without blocking |
| `FreeList.dfy` | an intrusive free list under delayed reclamation |
| `PickN.dfy`, `BenchTimer.dfy`, `Median.dfy` | the harness |
| `Splitmix.dfy`, `Words.dfy` | the splitmix64 generator and the operands built from it |
| `HardInput.dfy`, `PeriodicInput.dfy`, `Utf8Count.dfy` | text, periodic input, counting characters |
| `Interleaving.dfy`, `Arithmetic.dfy`, `Sequences.dfy`, `Wrappers.dfy` | what the others share |

**What the environment is taken to do.** These are steps of the model, not results. A lock has one
holder. `sched_park(f)` parks the goroutine and then calls `f`; `sched_ready` makes one parked
goroutine runnable. Waiting on a condition gives the lock back and joins the sleepers in one step; a
signal takes any one sleeper away, a broadcast all of them. A note is a bit. A channel is a
first-in-first-out queue with one sender and one receiver, a rendezvous at capacity 0, and a receive
reports failure only on a closed and empty channel. `synctest_wait` goes on only when the other
goroutine of the bubble is blocked on its channel or gone. Atomics are sequentially consistent, and
what is done while holding a lock is one step where nobody else can touch the variables. The clock is
a monotone input, and what a measured run reports is arbitrary.

**Where the code and its own words disagree** the code is modelled.

- src/bench.c:215-217 says that a hiccup in one run out of five does not move a median. It can:
  `Median.HiccupMovesMedian` has such a run, `Median.MedianStaysIff` says exactly when it does not,
  for any number of runs, and `Median.OutlierIsBounded` how far it can go.
- README.md:206 says that the raw loop gives the same answer as the rune count. It does on valid
  strings, and on arbitrary bytes exactly when no continuation byte stands outside a character
  (`Utf8Count.RawCountMissesStrays`).
- `pick_n` is written for any target, but the product of count and target leaves 64 bits for large
  ones. The default of one second is safe; the command line accepts larger ones (`-time`).
  - For arbitrary measurements every intermediate is in range if and only if the target is at most
    7,686,143,371 ns (`PickN.NoOverflowIff`).
  - For benchmarks of constant cost per iteration the search does what it is for, within six runs and
    without overflow, if and only if the target is at most 92,233,720,368 ns
    (`PickN.LinearSearchIff`). Above that a body of one nanosecond an iteration overflows
    (`PickN.LinearOverflows`). Where overflow wraps around, a target between that and
    184,467,394,620 ns, such as `-time 93`, makes that benchmark use up all 30 rounds and settle on
    100,000,026 iterations, a tenth of a second (`PickN.LinearCreeps`).
- src/bench.c:40-41 splits the tick conversion so that its multiply cannot overflow. That holds if and
  only if the counter runs at no more than 9,223,372,037 ticks a second
  (`BenchTimer.SplitFitsIff`).

## Model

| member | source | states |
|---|---|---|
| `GateHandoff.Gate.Wait` | bench/sched_bench.c:267-284 | waiting on the gate, field by field, is the specified step: a stored signal is consumed and the lock given back, or the goroutine is recorded, parked, and only then the lock given back |
| `GateHandoff.Gate.Signal` | bench/sched_bench.c:286-299 | signalling is the specified step: a recorded waiter is taken off, the lock released and then the waiter made ready, and with no waiter the signal is stored |
| `GateHandoff.WaiterKeepsGate` | bench/sched_bench.c:267-284 | every step of the waiter keeps the gate in order: no signal lost, and one more taken exactly when the wait returns |
| `GateHandoff.SignallerKeepsGate` | bench/sched_bench.c:286-299 | every step of the signaller keeps the gate in order, and one more signal is sent exactly when the gate is updated |
| `GateHandoff.MainKeepsInv` | bench/sched_bench.c:324-351 | every step of hand_body keeps the invariant of both gates, the counts and the flags |
| `GateHandoff.ChildKeepsInv` | bench/sched_bench.c:306-322 | every step of hand_child keeps that invariant |
| `GateHandoff.SomeoneMoves` | bench/sched_bench.c:306-351 | in an unfinished state one of the two can move, so it is no deadlock |
| `GateHandoff.DoneIsClean` | bench/sched_bench.c:345-350 | when hand_body returns both gates are free and empty, n + 2 signals were sent and taken on each, nobody is parked, and the child read the flag false n + 1 times and then true |
| `GateHandoff.HandoffIsSafe` | bench/sched_bench.c:261-351 | for every n and schedule: never a waiter together with a stored signal, no signal or waiter overwritten, ready only reaches a goroutine parked on that gate whose lock it has given back, the stop flag is read true on volley n + 2 only, the fields only looked at under the lock and ready called without it, no deadlock, at most 27n + 71 moves |
| `GateHandoff.HandoffFinishes` | bench/sched_bench.c:306-351 | a schedule that is fair for long enough finishes the handoff |
| `GateHandoff.Handoff.MainTurn` | bench/sched_bench.c:324-351 | hand_body, one statement a turn: a warm-up volley, n timed ones, the flag, one more volley, then waiting for the child to be gone |
| `GateHandoff.Handoff.ChildTurn` | bench/sched_bench.c:306-322 | hand_child, one statement a turn, reading the flag between the wait and the signal |
| `GateHandoff.Handoff.Play` | bench/sched_bench.c:306-351 | playing any schedule on the two gate objects gives the run of the transition system, in a safe state |
| `LateRead.VolleysRun` | bench/sched_bench.c:309-319 | with the flag read after the signal instead of before it, the first n volleys can still go as they should |
| `LateRead.LateReadCanHang` | bench/sched_bench.c:312-315 | but for every n some schedule then hangs: the child reads the flag one volley early and goes, and hand_body sleeps on the gate for ever; this is what the read's place before the signal prevents |
| `CondPingPong.SignalWakesOne` | bench/cond_bench.c:89-117 | a signal wakes exactly one sleeper, any one that a schedule names, and nobody if none sleeps |
| `CondPingPong.MainKeepsWakeups` | bench/cond_bench.c:113-133 | whatever pp_body does, a goroutine asleep although its turn has come still has a wakeup on its way |
| `CondPingPong.PartnerKeepsWakeups` | bench/cond_bench.c:82-93 | the same of whatever pp_partner does; signals that come late or to nobody do no harm |
| `CondPingPong.StepKeepsInv` | bench/cond_bench.c:79-137 | every step keeps the lock, the wakeups, the turn, the order of writes and the counts in order |
| `CondPingPong.SomeoneMoves` | bench/cond_bench.c:79-137 | an unfinished state is no deadlock |
| `CondPingPong.DoneIsClean` | bench/cond_bench.c:125-137 | when pp_body returns the partner has taken n + 1 turns, seen the stop flag on the last only and gone, with nobody asleep and the lock free |
| `CondPingPong.PingPongIsSafe` | bench/cond_bench.c:71-137 | for every n, schedule and choice of whom a signal wakes: no lost wakeup, turns strictly alternate, the partner sees the flag set on round n + 1 only, the turn is read and written under the lock and signals are given without it, no deadlock, at most 32n + 39 moves |
| `CondPingPong.PingPongFinishes` | bench/cond_bench.c:71-137 | a schedule that is fair for long enough finishes the ping pong |
| `CondPingPong.PingPong.MainTurn` | bench/cond_bench.c:98-137 | pp_body, one statement a turn, with its while loop round the wait |
| `CondPingPong.PingPong.PartnerTurn` | bench/cond_bench.c:79-96 | pp_partner, one statement a turn |
| `CondPingPong.PingPong.Play` | bench/cond_bench.c:79-137 | playing any schedule on the shared variables gives the run of the transition system, with no wakeup lost |
| `Channels.Send` | bench/chan_bench.c:145-151 | a send keeps the channel's order and capacity, hands straight over to a parked receiver, and parks only when there is neither room nor receiver |
| `Channels.Recv` | bench/chan_bench.c:231-240 | a receive takes the oldest value, lets a parked sender in, and parks only on an open channel with nothing on its way |
| `Channels.CanIff` | bench/chan_bench.c:145-151 | a send, or a receive, is ready for a select or a non-blocking operation exactly when it would not park |
| `ChanPingPong.InvSafe` | bench/chan_bench.c:157-207 | the invariant bounds what is in flight to one value, forbids a blocked send from capacity 1 on, and makes the replies echo the messages |
| `ChanPingPong.StepKeepsInv` | bench/chan_bench.c:157-207 | every step of either goroutine keeps that invariant |
| `ChanPingPong.SomeoneMoves` | bench/chan_bench.c:157-207 | an unfinished state is no deadlock |
| `ChanPingPong.DoneIsClean` | bench/chan_bench.c:193-206 | when the channels are freed they are empty with nobody parked, after n + 1 messages, n replies and no more |
| `ChanPingPong.PingPongIsSafe` | bench/chan_bench.c:154-207 | for every capacity, n and schedule: at most one value in flight, no send blocks with a buffer, the child replies to the first n messages and sees stop on message n + 1 only, no deadlock, at most 12n + 16 moves |
| `ChanPingPong.PingPongFinishes` | bench/chan_bench.c:154-207 | a schedule that is fair for long enough finishes the ping pong |
| `ChanPingPong.PingPong.MainTurn` | bench/chan_bench.c:174-207 | pingpong, one statement a turn, a channel operation that parks taking two |
| `ChanPingPong.PingPong.ChildTurn` | bench/chan_bench.c:157-172 | pingpong_child, one statement a turn |
| `ChanPingPong.PingPong.Play` | bench/chan_bench.c:157-207 | playing any schedule on the shared variables gives the run of the transition system, in a safe state |
| `ProducerConsumer.ConsumerKeepsInv` | bench/chan_bench.c:258-281 | a receive keeps the values in order and the 64-bit sum equal to that of what was received |
| `ProducerConsumer.ProducerKeepsInv` | bench/chan_bench.c:246-256 | a send or the close keeps the invariant |
| `ProducerConsumer.InvSafe` | bench/chan_bench.c:246-281 | what was received is a prefix of 0, 1, ..., n - 1, and at the end all of it with the sum n(n - 1)/2 modulo 2^64 |
| `ProducerConsumer.PipelineIsSafe` | bench/chan_bench.c:244-281 | the same for every capacity, n and schedule, with the buffer within its capacity, no deadlock, at most 6n + 4 moves |
| `ProducerConsumer.PipelineFinishes` | bench/chan_bench.c:244-281 | a schedule that is fair for long enough drains the channel |
| `ProducerConsumer.Pipeline.ProducerTurn` | bench/chan_bench.c:246-256 | the producer's loop and close, one statement a turn |
| `ProducerConsumer.Pipeline.ConsumerTurn` | bench/chan_bench.c:258-281 | the consumer's loop, one receive and one wrapping addition a turn |
| `NotePingPong.MainKeepsInv` | bench/sync_bench.c:151-183 | every step of the main thread keeps the bits and the counts of wakes and sleeps in order |
| `NotePingPong.WorkerKeepsInv` | bench/sync_bench.c:138-149 | every step of the worker keeps them in order |
| `NotePingPong.NotesAreSafe` | bench/sync_bench.c:133-183 | for every n and schedule: no note is woken while set, no clear erases a wake nobody has slept through, the worker reads stop with its note cleared and sees it on pass n + 1 only, the notes are freed after it has gone, no deadlock, at most 11n + 18 moves |
| `NotePingPong.NotesFinish` | bench/sync_bench.c:133-183 | a schedule that is fair for long enough gets to the frees |
| `NotePingPong.PingPong.MainTurn` | bench/sync_bench.c:151-183 | the main thread, one statement a turn |
| `NotePingPong.PingPong.WorkerTurn` | bench/sync_bench.c:138-149 | sync_pong, one statement a turn |
| `SelectPingPong.QuitNeverTaken` | bench/select_bench.c:228-301 | with nobody sending on quit, a select takes its first arm or parks, never the second arm |
| `SelectPingPong.MainRefines` | bench/select_bench.c:254-301 | a step of pingpong_body is one of the bare ping pong once the quit channel is erased |
| `SelectPingPong.ChildRefines` | bench/select_bench.c:228-252 | a step of pingpong_child is one of the bare child |
| `SelectPingPong.SelectRefinesPlain` | bench/select_bench.c:228-301 | so every step refines the unbuffered bare ping pong, the correspondence being the same goroutine's turn |
| `SelectPingPong.SelectIsSafe` | bench/select_bench.c:225-301 | for every n, schedule and preference among ready arms: only arm 0 is ever taken, the run is one of the bare ping pong at capacity 0 and as safe and clean, and at the end nobody is queued on quit |
| `SelectPingPong.SelectFinishes` | bench/select_bench.c:225-301 | a schedule that is fair for long enough finishes the ping pong |
| `SelectPingPong.PingPong.MainTurn` | bench/select_bench.c:254-301 | pingpong_body, one statement a turn, ignoring which arm was taken |
| `SelectPingPong.PingPong.ChildTurn` | bench/select_bench.c:228-252 | pingpong_child, one statement a turn, leaving on any other arm than the first |
| `SelectRing.TokenMoves` | bench/select_bench.c:186-196 | with one token in the ring the only arm a select can take is the token's, and the send after it has room on the next arm |
| `SelectRing.Pass` | bench/select_bench.c:186-196 | one pass takes the token and leaves it on the next arm; neither the select nor the send would block |
| `SelectRing.EightArms` | bench/select_bench.c:45-205 | for every n the select of pass k returns k mod 8, and at the end the value is on channel n mod 8 of the eight and on no other |
| `SynctestHandoff.MainKeepsInv` | bench/synctest_bench.c:185-210 | every step of the loop keeps the invariant, in particular that between the wait and the send the child stays parked |
| `SynctestHandoff.ChildKeepsInv` | bench/synctest_bench.c:174-183 | every step of the child keeps it |
| `SynctestHandoff.BubbleIsSafe` | bench/synctest_bench.c:172-210 | for every n and schedule: every ignored try-send finds the child parked and goes through, the 32-bit count ends at n modulo 2^32, and nobody is left blocked in the bubble; no deadlock, at most 5n + 4 moves |
| `SynctestHandoff.BubbleFinishes` | bench/synctest_bench.c:172-210 | a schedule that is fair for long enough ends the bubble's body |
| `SynctestHandoff.Bubble.MainTurn` | bench/synctest_bench.c:185-210 | wait_parked_body, one statement a turn |
| `SynctestHandoff.Bubble.ChildTurn` | bench/synctest_bench.c:174-183 | parked_child, one statement a turn |
| `FreeList.ApplySound` | bench/reclaim_bench.c:114-127 | handing a box out or getting one back keeps every box in exactly one place and on the list at most once |
| `FreeList.AllocsAreHighWater` | bench/reclaim_bench.c:114-140 | over any history of boxes handed out and given back in any order, as many are made as were ever outstanding at once |
| `FreeList.MadeIsPeak` | bench/reclaim_bench.c:114-140 | counting events only: the boxes made are the most by which boxes handed out ever exceeded boxes given back |
| `FreeList.BoxPool.Push` | bench/reclaim_bench.c:114-118 | the linked list gets the box in front and stays properly linked, so without a cycle |
| `FreeList.BoxPool.Pop` | bench/reclaim_bench.c:121-125 | the head leaves the list, or there is none |
| `FreeList.BoxPool.Free` | bench/reclaim_bench.c:114-118 | a box the reclaimer holds goes back on the list and nothing else changes |
| `FreeList.BoxPool.Get` | bench/reclaim_bench.c:120-127 | a listed box is reused, a new one made only if there is none, and null comes back only with neither box nor memory |
| `FreeList.BoxPool.RetireBody` | bench/reclaim_bench.c:129-140 | one box goes out a pass, n times unless memory runs out first |
| `FreeList.BoxPool.FreeAll` | bench/reclaim_bench.c:151-155 | the last loop frees exactly the boxes on the list and leaves it empty |
| `FreeList.ReclaimRetire` | bench/reclaim_bench.c:129-156 | the benchmark as a whole frees every box it made exactly once, and made exactly the most by which boxes handed out ever exceeded boxes given back |
| `PickN.Advance` | src/bench.c:165-190 | the next count, computed in 64-bit arithmetic, is larger than the last and at most a hundred times as large, whatever was measured and whatever overflows |
| `PickN.SearchIsRun` | src/bench.c:157-195 | read off the readings: every count but the last falls short of the target on both clocks and of N_MAX and leads to the next one; the last is the result if it does not fall short, and else the result is the next count, cut off at 10^9, because it is above that or because 30 rounds are over |
| `PickN.RunIsSearch` | src/bench.c:155-196 | only one series of counts and one result are like that |
| `PickN.Pick` | src/bench.c:155-196 | the loop, in 64-bit arithmetic, returns the result of that series for any target and machine, a count from 1 to N_MAX |
| `PickN.NextAims` | src/bench.c:165-190 | in a round in range the next count is up to a hundred times as large, overshoots the target on the slower clock by at most a fifth unless it goes on by one, and is within two iterations of that fifth unless it is a hundred times as large; with neither clock moving it is a hundred times as large |
| `PickN.FitsIsExact` | src/bench.c:165-187 | a round whose intermediates are all in 64-bit range gives the next count of exact arithmetic |
| `PickN.SearchGrows` | src/bench.c:155-196 | at most 30 counts are measured, each larger than the one before by a factor of at most 100 |
| `PickN.SearchEnds` | src/bench.c:162-195 | the result is the last count measured, whose own reading reached the target on a clock or which is the cap, or it is the cap, or the rounds ran out |
| `PickN.NoOverflowIff` | src/bench.c:155-196 | every 64-bit intermediate is in range on every machine if and only if the target is at most 7,686,143,371 ns |
| `PickN.TooLarge` | src/bench.c:170-185 | above that a concrete series of measurements makes the arithmetic leave 64 bits |
| `PickN.LinearNext` | src/bench.c:165-187 | under a linear cost a round in 64-bit range aims at the target on the wall clock, however little is timed; all rounds up to 10^8 iterations are in range for targets up to 92,233,720,368 ns |
| `PickN.LinearSearch` | src/bench.c:142-196 | under a linear cost and a target of at most 92,233,720,368 ns nothing leaves 64 bits, at most six counts are measured, the result keeps the wall clock busy for the target or is N_MAX, and unless it is 1 it overshoots by at most a fifth or one iteration |
| `PickN.LinearOverflows` | src/bench.c:170 | for every larger target a cost of 1 ns an iteration makes the product leave 64 bits |
| `PickN.LinearSearchIff` | src/bench.c:142-196 | so the search succeeds in that sense for all linear costs if and only if the target is at most 92,233,720,368 ns |
| `PickN.LinearCreeps` | src/bench.c:155-196 | with wraparound, any target above that and up to 184,467,394,620 ns makes the search at 1 ns an iteration measure 30 counts and return 100,000,026, short of both the target and the cap |
| `BenchTimer.Bench.Pause` | src/bench.c:78-83 | a pause adds the running stretch and stops the timer, or does nothing |
| `BenchTimer.Bench.Resume` | src/bench.c:85-90 | a resume starts a stretch, or does nothing |
| `BenchTimer.TimerAccounts` | src/bench.c:78-90 | after any calls the timer runs if and only if the last was a resume, and has accumulated the running time |
| `BenchTimer.RunningTimeCounts` | src/bench.c:78-90 | on a monotone clock the running time is the number of nanoseconds that lie between a resume and the call after it, each counted once |
| `BenchTimer.RedundantCall` | src/bench.c:78-90 | a call of the kind of the one before it makes no difference |
| `BenchTimer.RunMeasured` | src/bench.c:125-140 | for calls of the body in order, ns is the number of nanoseconds of the run at which the last call that the body has made, if any, is a resume; 0 <= ns <= wall, and the timer ends stopped |
| `BenchTimer.EmptyBodyTimed` | src/bench.c:133-135 | with no calls in the body all of the run counts |
| `BenchTimer.OnePauseTimed` | src/bench.c:133-135 | with one pause what lies before it counts |
| `BenchTimer.SplitIsExact` | src/bench.c:42-46 | the division in two parts gives floor(ticks * 10^9 / freq) |
| `BenchTimer.SplitFitsIff` | src/bench.c:40-46 | for every time that fits, everything the split computes is in 64-bit range if and only if freq is at most 9,223,372,037; without it the product is out of range from 9,223,372,037 ticks on |
| `BenchTimer.SplitIsMonotone` | src/bench.c:42-46 | a later tick count never gives an earlier time |
| `Median.SortIsUnique` | src/bench.c:205-219 | whatever algorithm qsort is, sorting the samples has one possible result |
| `Median.ShiftedIsMidway` | src/bench.c:218-223 | in any sorted arrangement of the samples the median is midway between the two in the middle, which for an odd number are one |
| `Median.MedianPermutes` | src/bench.c:218-223 | the median does not depend on the order of the samples |
| `Median.OutlierIsBounded` | src/bench.c:215-223 | replacing any one of three or more samples by any value keeps the median between what it was one place down and one place up |
| `Median.HiccupMovesMedian` | src/bench.c:215-217 | one slow run out of five can move the median |
| `Median.OrderStaysIff` | src/bench.c:215-223 | exactly when replacing a sample leaves an order statistic alone: it does not cross it, or there are samples to spare on the side it leaves |
| `Median.MedianStaysIff` | src/bench.c:215-223 | replacing one of any number of samples leaves the median alone if and only if it leaves both middle order statistics alone, which for an odd number are one |
| `Median.MedianOf` | src/bench.c:218-223 | leaves the array a sorted permutation of what it was and returns the number midway between elements (n - 1) / 2 and n / 2 of it |
| `Median.Extremes` | src/bench.c:314-321 | the loop finds the least and the greatest sample |
| `Median.Summarise` | src/bench.c:314-322 | the extremes are the least and the greatest sample, the median is midway between the middle two of the samples left sorted, and lo <= median <= hi although the median sorts in place after the extremes |
| `Splitmix.UnmixMix` | bench/big_bench.c:26-31 | the mixing function is undone by another one, so different states give different outputs |
| `Splitmix.OutputIs` | bench/big_bench.c:26-31 | output k from a seed in numbers, with the constants of the source: division by 2^30, 2^27 and 2^31, bitwise addition, multiplication modulo 2^64 |
| `Words.BitwiseOps` | bench/big_bench.c:28-38 | exclusive or and or work bit by bit |
| `Words.ShrDivides` | bench/big_bench.c:28-30 | a shift to the right divides by a power of two |
| `Splitmix.StatesRepeatIff` | bench/big_bench.c:26-27 | from any seed, states j and k are equal if and only if j and k are equal modulo 2^64 |
| `Splitmix.OutputsRepeatIff` | bench/big_bench.c:26-31 | so are the outputs: the first 2^64 are pairwise different |
| `Splitmix.Generator.Next` | bench/big_bench.c:26-31 | splitmix, statement by statement, adds the constant to the caller's state modulo 2^64 and returns the new state mixed, in numbers |
| `Splitmix.ValueBits` | bench/big_bench.c:33-41 | n words with the top bit set stand for a number of exactly 64n bits |
| `Splitmix.Rnd` | bench/big_bench.c:33-41 | the words are the generator's first n outputs, the last with its top bit set and all other bits as they were, and the number lies in [2^(64n-1), 2^(64n)) |
| `HardInput.NeedlesAbsent` | bench/strings_bench.c:74-84 | in no text of whole tokens does any of the three needles occur, even across token boundaries |
| `HardInput.BuildHard` | bench/strings_bench.c:36-58 | for any generator the text is the tokens that its states pick by their remainder by 10, given one by one, in a row; it has 1,048,567 to 1,048,575 bytes, the next token would have been too much, and none of the needles is in it |
| `HardInput.XorShiftIs` | bench/strings_bench.c:47-49 | a step of the generator in numbers: times 2^13 modulo 2^64, divided by 2^7, times 2^17 modulo 2^64, each added in bit by bit |
| `HardInput.StatesNonzero` | bench/strings_bench.c:45-49 | from any seed but 0, and so from 99, the xorshift generator never reaches 0, where it would draw the same token for ever |
| `HardInput.BenchmarkText` | bench/strings_bench.c:36-58 | the text is the one that the xorshift generator draws from 99, its states given in numbers |
| `PeriodicInput.AtIsMod` | bench/lzw_bench.c:45-56 | byte j of the repeated file is byte j mod its length |
| `PeriodicInput.SizedInput` | bench/lzw_bench.c:46-56 | filling by copies stays in bounds and gives out[j] = src[j mod len] for all j < n |
| `PeriodicInput.WritesArePeriodic` | bench/lzw_bench.c:58-72 | the writes of one copy each, put together, are the sized input |
| `PeriodicInput.ChunksPerCopy` | bench/lzw_bench.c:68-71 | there is one write per copy: the fewest that reach n bytes, all but the last the whole file, the last what is left |
| `PeriodicInput.CompressedInput` | bench/lzw_bench.c:68-71 | the writes from the start of the file are those, one per copy |
| `PeriodicInput.DecodeWrites` | bench/flate_bench.c:90-94 | so are the writes taken from within the sized input |
| `PeriodicInput.ShrinkingWrites` | go/lzw_test.go:31-42 | and those of Go's loop, which cuts its slice for the last one |
| `PeriodicInput.ShrinkingFill` | go/flate_test.go:32-38 | Go's loop over the shrinking slice fills the same buffer as C's, with element j the byte j mod len of the file |
| `Utf8Count.CharIffEncodes` | bench/utf8_bench.c:192-205 | the characters that the bytes are taken to be made of are exactly the encodings of the Unicode scalar values by RFC 3629, one each |
| `Utf8Count.CharsAreUnique` | bench/utf8_bench.c:192-205 | a string can be taken apart into such characters in only one way |
| `Utf8Count.RawCountsChars` | bench/utf8_bench.c:195-205 | on a valid string the bytes that pass the test are as many as the characters |
| `Utf8Count.CountRaw` | bench/utf8_bench.c:195-205 | the loop counts the bytes that pass, which on a valid string are the characters |
| `Utf8Count.RawCountMissesStrays` | README.md:206 | on any bytes the raw count and the rune count differ by the stray continuation bytes, and agree if and only if there are none |
| `Utf8Count.RuneCountSteps` | README.md:205 | the rune count goes on by a whole character where one starts and by one byte where none does |
| `Utf8Count.RuneCountsChars` | README.md:205-206 | on a valid string the rune count is the number of characters |
| `Utf8Count.LoneTailIsNotCounted` | README.md:206 | a lone continuation byte is one rune to the decoder and nothing to the raw loop |

## Left out

- Everything behind a burrow header (scheduler, channels, mutexes, notes, reclamation, codecs, big integer arithmetic, string search): the code is not in this repository. Only what is listed above is taken from it, as steps of the environment.
- Benchmarks that wrap one library call, the lists that register benchmarks, printing, argument parsing, name matching, file reading, the sinks and the platform clocks: they are single calls, tables and input or output.
- The early returns when a goroutine, channel, note or thread cannot be made: success is assumed. The allocation failure in box_get is modelled.
- Memory orderings weaker than sequential consistency.
- The one-processor scheduling that `run_with_one_p` asks for: the results hold for every interleaving, so for those too.
- Overflow of loop counters and of nanosecond sums other than in the search of `pick_n` and the tick conversion; the `pp_gone` and `hand_gone` counters never exceed 1. The counter of the synctest loop is 32 bits wide and the pipeline's sum 64, as in the source.
- Rounding, infinities and NaN in the samples: they are quotients of integers, taken as real numbers.
- The calls to bench_resume and bench_pause inside the protocol benchmarks: they do not touch the protocols.
- FreeList.BoxPool.Collect: does not model when the epochs allow a collection; the reclaimer may give back any of its boxes at any time, so the order, but no bound on the delay, is covered.
- FreeList.BoxPool.Free: does not model the reclaimer's link stored in a box, because only the library uses it.
- HardInput.BuildHard: does not model keeping the text for the next benchmark nor the abort without memory.
- Median.Qsort: does not model the library's sorting algorithm, because SortIsUnique leaves it only one result.
- PeriodicInput.SizedInput: requires a file that is not empty, since with an empty one the source's loop never ends; the same holds of the other four loops over it.
- PickN.LinearCreeps: does not model that C leaves signed overflow undefined, so that a compiler may do something else than wrap around; above 184,467,394,620 ns it says nothing, and LinearOverflows still holds.
- Splitmix.Rnd: requires at least one word, because the source writes the last one unconditionally.
- The Go programs other than the input loops, and the results and performance numbers.
