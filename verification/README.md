# Two block drivers for an emulated SSD, and the server that times them

The repository emulates an SSD under a Linux kernel in two ways. The *ramdisk* driver computes response times itself and
commits each request when its time has come. The *emudisk* driver asks a remote emulator over UDP, with the system clock
stopped while it waits, so that the answers seem to take no time. Both have the same three parts running under one lock: a
request-submission routine, a completion thread that sleeps until the next deadline, and a softirq that retires requests.

The model covers both drivers, the datagram server and its SSD simulation, and the lossy exchange between driver and server.
Each driver exists in two forms: a state machine, whose steps are the regions run under the lock and the acts of the
environment (clock, timer, queue, softirq) in any order, and a class with the driver's own fields, arrays and loops. Every
method of the class that returns is proved equal to a step of the machine, or to a part of one, and the theorems about all
runs are proved of the machine. The emudisk's class talks to the server through the lossy client, so that what is proved of it
holds whatever the network does.

| files | content |
|---|---|
| `Block`, `Transfer`, `Scan`, `Bags`, `Sleep` | requests and bytes, the copying loops, first-least scans, sums of multisets, the sleep and wake protocol |
| `Latency` | the response-time tables in C integer arithmetic |
| `Ramdisk`, `RamdiskInv`, `RamdiskSteps`, `RamdiskDrain`, `RamdiskRuns` | the ramdisk's state machine, its invariant, and why every step keeps it |
| `RamdiskTheorems`, `RamdiskHistory`, `RamdiskLinear`, `RamdiskProgress` | what every run of the ramdisk guarantees, and that it can go on |
| `RamdiskDriver` | the driver's own form |
| `SsdSim`, `Match`, `MatchExact` | the server's channel table, its agreement with the ramdisk's, and exactly when they agree |
| `EmuServer`, `StopAndWait`, `Communicate` | the datagram server, the lossy link, and the driver's exchange |
| `Emudisk`, `EmudiskInv`, `EmudiskSteps`, `EmudiskRefresh`, `EmudiskDrain`, `EmudiskRuns`, `EmudiskBooks` | the emudisk and its server as one state machine |
| `EmudiskTheorems`, `EmudiskTold`, `EmudiskProgress`, `EmudiskWatermark` | what every run of the emudisk guarantees, what its server is told, that it can go on, and the one way it hangs |
| `EmudiskPlan`, `EmudiskDriver` | the driver's routines as functions of its state and its clock's lapses, and the driver's own form, over the lossy client |
| `Transparency` | two systems that differ only in what their networks do |
| `Rechunk` | the transfer routine of the build without staging buffers |

## What is assumed of the surroundings

- There are between one and eight channels. The initialisation of both drivers checks only the upper bound, and so do the
  constructors here; the invariants need the lower one.
- The clock is positive at the start and never goes back. It may stand still between two readings.
- The speed factor is positive. For the ramdisk the tables must not overflow, which is proved to mean at most 7945.
- The block layer hands out each request once, in whole sectors, at most 128 of them, inside the capacity, and does not call
  the submission routine while the queue is stopped.
- A timed sleep that was not interrupted ends only when the clock has reached its deadline. An interrupted one may still be
  found to have run out.
- `try_process_next_without_sleep` of the ramdisk is read before it is first written; it starts with any value here.
- Packet ids stay below 2^32. Id 0 means a free entry and ids start after 123, used for the reset.
- Requests on their way to the server may be lost, sent again, and overtake each other, except that resets, of which the driver
  sends one before anything else, neither overtake nor are overtaken: `EmuServer.LateResetForgets` says what a late copy would
  do. Replies may be lost, repeated and reordered at will.
- What the network does during the polls of a run, and how long each poll takes, is given to the client as a list, any list. If
  the run ends inside an exchange the driver's routine has not returned. How long after its last reading the running clock is
  read again is given as a function, any function; the clock of the system is wall time less the time spent in pauses.
- An exchange that never returns has no effect on the driver other than that it waits: the emudisk machine has only
  exchanges that return.

A loop in which a driver stops for good (`while(1)`) is an explicit outcome `Hangs` of the state machines, and the theorems say
that it is not reached, with one exception: the emudisk's hang at the watermark, described next. In the emudisk class the checks
of the drain are assertions, and that they hold is part of the proof.

## What the code does that its comments or names do not say

- The emudisk refuses a submission whose clock reading *equals* the completion time of the latest response
  (`nctuss_emudisk_main.c`, line 1420) and then hangs. Responses may be delivered at exactly their completion time, so this can
  happen: `EmudiskRuns.NextKeeps` proves that it is the only hang and when it occurs, `EmudiskWatermark` that it is reachable.
- `request_size_kb` holds byte counts, not kilobytes.
- The comment that the ramdisk picks the oldest completed channel "to match" the server is true of the choice, although the
  server looks at all channels and the ramdisk only at completed ones: `Match.SameVictim`. But the two agree on all runs if and
  only if they also start with the same directions and last sectors (`MatchExact.AgreeExactly`), and the server's reset keeps
  those of earlier requests (`MatchExact.ResetAgrees`): a server that stays up while the driver is loaded again classifies
  the first requests by what it remembers. Nor does the server set them when it starts (`udp_server.cxx`, lines 109-111, 541).
- The server's table is scaled in 64 bits and the ramdisk's in 32, so the two agree exactly up to speed factor 7945.
- The server does not recognise a repeated reset: it executes it again. That is harmless only because nothing else is under way.

## Model

The server is modelled from its own source, `emulator_server/udp_server.cxx`: the channel table from lines 113-303, the sector
store from lines 365-393, the response times from lines 512-521, and the datagram loop with its ids and cached reply from lines
598-710. Rows about the server cite the driver's side of the exchange, or the ramdisk's counterpart, and the server's lines are
given in the third column.

| member | source | states |
|---|---|---|
| Latency.InnerProductFits | emulator_kernel/nctuss_ramdisk_main.c:569-577 | the inner product of the latency formula fits a C int if and only if the rate is at least 47 |
| Latency.QuotientsCollapse | emulator_kernel/nctuss_ramdisk_main.c:571-572 | two truncating divisions and a multiplication amount to one division of 10^8 by the rate |
| Latency.EntryExact | emulator_kernel/nctuss_ramdisk_main.c:569-577 | a table entry is the exact product if and only if that product fits a C int |
| Latency.EntryUnderApproximates | emulator_kernel/nctuss_ramdisk_main.c:569-577 | an entry is below the exact response time by less than the speed factor, and positive up to a rate of 10^8 |
| Latency.TablesExact | emulator_kernel/nctuss_ramdisk_main.c:42-51 | no entry of the shipped tables overflows if and only if the speed factor is at most 7945 |
| Latency.ExactTimes | emulator_kernel/nctuss_ramdisk_main.c:412-427 | exact tables give a sequential request floor(10^8 / sequential rate) times the speed factor and a random one the same of the random rate, each by its direction and size, and no sequential request a longer time than a random one |
| Latency.FirstOverflow | emulator_kernel/nctuss_ramdisk_main.c:571 | one above that, a response time is negative |
| Latency.FillTable | emulator_kernel/nctuss_ramdisk_main.c:569-577 | the nested loops fill every entry with the C value of the formula |
| Latency.SetupTables | emulator_kernel/nctuss_ramdisk_main.c:569-577 | both arrays hold the tables of the speed factor |
| Latency.FindSizeClass | emulator_kernel/nctuss_ramdisk_main.c:398-410 | the scan finds the smallest size class that holds the request, and none above 64 KB |
| Latency.SizeClass | emulator_kernel/nctuss_ramdisk_main.c:398-410 | the class is the first whose bound is not exceeded |
| Scan.FirstLeast | emulator_kernel/nctuss_ramdisk_main.c:244-254 | the argmin scans return the first of several equal minima among the entries they consider |
| Scan.FirstLeastUnique | emulator_kernel/nctuss_ramdisk_main.c:438-448 | an index that is least, and first among equals, is the one the scan returns |
| Sleep.WakeKeepsAttention | emulator_kernel/nctuss_ramdisk_main.c:477-507 | lowering the deadline keeps the thread attentive if and only if it is woken whenever it sleeps and the deadline changed |
| Block.Scatter | emulator_kernel/nctuss_ramdisk_main.c:170-183 | cutting bytes into segments loses none, keeps order, and keeps each segment's length |
| Block.SpliceStep | emulator_kernel/nctuss_ramdisk_main.c:170-183 | copying piece after piece at a running offset is copying the whole |
| Transfer.GatherInto | emulator_kernel/nctuss_emudisk_main.c:1055-1062 | the segment loop of a write leaves exactly the request's bytes in its range and nothing else changed |
| Transfer.ScatterFrom | emulator_kernel/nctuss_emudisk_main.c:1055-1062 | the segment loop of a read fills the segments with exactly the bytes of the range |
| RamdiskSteps.OldestCompletedIsOldest | emulator_kernel/nctuss_ramdisk_main.c:435-448 | the oldest completed channel is the oldest of all, outstanding ones included |
| RamdiskSteps.PlaceHoldsLatest | emulator_kernel/nctuss_ramdisk_main.c:450-455 | replacing that channel keeps the table on the latest-completing requests of the whole history |
| RamdiskSteps.SubmitKeeps | emulator_kernel/nctuss_ramdisk_main.c:388-484 | a submission does not hang, keeps every part of the invariant, and wakes the thread exactly when the deadline changed |
| RamdiskSteps.StrategyKeeps | emulator_kernel/nctuss_ramdisk_main.c:351-510 | the whole submission routine, for any batch of requests, does not hang and keeps the invariant |
| RamdiskDrain.CommitKeeps | emulator_kernel/nctuss_ramdisk_main.c:256-269 | committing the earliest due response keeps the invariant and leaves one request fewer outstanding |
| RamdiskDrain.DrainKeeps | emulator_kernel/nctuss_ramdisk_main.c:239-344 | a drain never hangs, and afterwards nothing is overdue and the deadline is the least one left |
| RamdiskDrain.DrainTerminates | emulator_kernel/nctuss_ramdisk_main.c:322-326 | a drain ends after at most two passes more than there are outstanding requests, whatever the clock does |
| RamdiskRuns.NextKeeps | emulator_kernel/nctuss_ramdisk_main.c:191-510 | no step from a state satisfying the invariant hangs, and every step keeps it |
| RamdiskRuns.RunKeeps | emulator_kernel/nctuss_ramdisk_main.c:191-510 | so no run of any length ever hangs |
| RamdiskTheorems.CommitsInOrder | emulator_kernel/nctuss_ramdisk_main.c:241-269 | over a whole run responses are committed in the order of their completion times, after them, and never past one outstanding |
| RamdiskTheorems.TableHoldsLatest | emulator_kernel/nctuss_ramdisk_main.c:435-455 | the table holds the latest-completing entries of the full history, initial zero entries included |
| RamdiskTheorems.ClassifiedByHistory | emulator_kernel/nctuss_ramdisk_main.c:390-396 | a request follows one of the latest-completing entries of the history if and only if the scan classifies it sequential or it follows an entry evicted in a tie |
| RamdiskHistory.ChosenIsLeast | emulator_kernel/nctuss_ramdisk_main.c:438-448 | the channel chosen among the completed ones is the first of those that complete first of all |
| RamdiskHistory.TimesFollowHistory | emulator_kernel/nctuss_ramdisk_main.c:388-455 | table, class and completion time of every request are a function of the sequence of submissions alone, tie-break and zero entries included; up to speed factor 7945 each completes its exact number of nanoseconds after its submission |
| RamdiskTheorems.AdmissionConserved | emulator_kernel/nctuss_ramdisk_main.c:104-122 | every request is in exactly one place, the counter counts those in flight, and it equals the channels exactly when the queue is stopped |
| RamdiskTheorems.NoLostWakeUp | emulator_kernel/nctuss_ramdisk_main.c:205-234 | untimed sleep means nothing outstanding, a timer is the earliest deadline, and a timer that ran out is not early |
| RamdiskTheorems.DrainIsExact | emulator_kernel/nctuss_ramdisk_main.c:330-344 | after a drain no outstanding deadline is below the last clock reading, and the cached one is the least |
| RamdiskTheorems.DrainEnds | emulator_kernel/nctuss_ramdisk_main.c:322-326 | from every reachable state a drain that starts completes |
| RamdiskProgress.QueueIsServed | emulator_kernel/nctuss_ramdisk_main.c:370-495 | what the queue hands out is submitted: the log grows by exactly the submissions of the requests taken, in order and each at its own clock reading, and requests are left only in a stopped queue |
| RamdiskProgress.SubmitHangsExactly | emulator_kernel/nctuss_ramdisk_main.c:406-466 | a submission hangs exactly if it is larger than 64 KB, no channel is completed, or a write passes the end of the device, in this order |
| RamdiskProgress.LockLeavesAsleep | emulator_kernel/nctuss_ramdisk_main.c:205-226 | when it gives the lock back the thread sleeps, without a timer if nothing is outstanding and otherwise until the earliest outstanding completion time |
| RamdiskProgress.EverythingCanFinish | emulator_kernel/nctuss_ramdisk_main.c:191-349 | from every reachable state some run of clock, timer, thread and softirq commits and retires every request submitted, and leaves the queue running |
| RamdiskLinear.EffectsAreSequential | emulator_kernel/nctuss_ramdisk_main.c:152-186 | with writes at submission and reads at commit, every run is a correct sequential history of one byte array |
| RamdiskLinear.EffectWithinRequest | emulator_kernel/nctuss_ramdisk_main.c:256-268 | each effect lies between the request's submission and its commit |
| RamdiskLinear.RealTimeOrder | emulator_kernel/nctuss_ramdisk_main.c:456-460 | a request committed before another is submitted takes effect before it |
| RamdiskDriver.Driver.constructor | emulator_kernel/nctuss_ramdisk_main.c:538-577 | the initialisation reaches a start state of the machine for one to eight channels and speed factors up to 7945 |
| RamdiskDriver.Driver.FindSequential | emulator_kernel/nctuss_ramdisk_main.c:390-396 | the loop finds a channel of the same direction ending where the request starts, if there is one |
| RamdiskDriver.Driver.FindFree | emulator_kernel/nctuss_ramdisk_main.c:438-448 | the loop finds the first of the oldest completed channels |
| RamdiskDriver.Driver.FindDue | emulator_kernel/nctuss_ramdisk_main.c:243-254 | the loop finds the first of the earliest channels due before the clock reading |
| RamdiskDriver.Driver.FindEarliest | emulator_kernel/nctuss_ramdisk_main.c:468-475 | the loop finds the least outstanding completion time, bounded by the new one if there is one |
| RamdiskDriver.Driver.Schedule | emulator_kernel/nctuss_ramdisk_main.c:450-482 | channel, disk, cached deadline and wake-up decision after a submission |
| RamdiskDriver.Driver.SubmitOne | emulator_kernel/nctuss_ramdisk_main.c:388-484 | one turn of the loop is one submission of the machine, hangs included |
| RamdiskDriver.Driver.Strategy | emulator_kernel/nctuss_ramdisk_main.c:351-510 | the routine is one step of the machine for the requests it fetched; it logs the submission of each of these, once and in order, leaves the rest, and stops only on an empty or stopped queue |
| RamdiskDriver.Driver.CommitOne | emulator_kernel/nctuss_ramdisk_main.c:256-269 | one commit of the machine; one channel fewer is outstanding |
| RamdiskDriver.Driver.Drain | emulator_kernel/nctuss_ramdisk_main.c:236-344 | the goto loop terminates and is the machine's drain for the clock readings it took |
| RamdiskDriver.Driver.TakeLock | emulator_kernel/nctuss_ramdisk_main.c:212-236 | what follows each kind of sleep is the machine's step; afterwards the thread sleeps until the cached deadline, if there is one |
| RamdiskDriver.Driver.SoftirqDone | emulator_kernel/nctuss_ramdisk_main.c:104-122 | retiring a request is the machine's step |
| SsdSim.TablesAgree | emulator_kernel/nctuss_ramdisk_main.c:569-577 | server and ramdisk use the same response times if and only if the speed factor is at most 7945 (server: 512-521) |
| SsdSim.ServerTablesOk | emulator_kernel/nctuss_emudisk_main.c:537-566 | every response time of the server is positive, so a request completes after it is submitted (server: 201-229) |
| SsdSim.ServerTimes | emulator_kernel/nctuss_ramdisk_main.c:412-427 | at every speed factor a request takes the server the exact number of nanoseconds of its kind, direction and size (server: 201-229) |
| SsdSim.RefusedExactly | emulator_kernel/nctuss_emudisk_main.c:537-566 | the server refuses a submission if and only if no channel has completed before its time (server: 160-174) |
| SsdSim.SetupTwice | emulator_kernel/nctuss_emudisk_main.c:507-535 | a repeated reset changes nothing (server: 113-139) |
| SsdSim.NextResponsesSome | emulator_kernel/nctuss_emudisk_main.c:569-612 | a query answers with ids exactly when something completes after its time, with the least such time (server: 262-303) |
| SsdSim.IdsAtHas | emulator_kernel/nctuss_emudisk_main.c:603-607 | the answer includes every id that shares the time (server: 288-294) |
| SsdSim.IdsAtOnly | emulator_kernel/nctuss_emudisk_main.c:603-607 | and no other (server: 288-294) |
| Match.SameVictim | emulator_kernel/nctuss_ramdisk_main.c:435-448 | looking at completed channels only, the ramdisk evicts the very channel the server evicts |
| Match.SubmitMatches | emulator_kernel/nctuss_ramdisk_main.c:388-455 | on the same submission both choose the same channel, class and completion time (server: 141-254) |
| Match.RamdiskMatchesServer | emulator_kernel/nctuss_ramdisk_main.c:435-437 | over every run the server accepts all the ramdisk submitted, classifies it alike, and ends with the same table, if the tables are the same at the start |
| MatchExact.MismatchShows | emulator_kernel/nctuss_ramdisk_main.c:390-396 | if a channel of the server remembers another direction or last sector at the start, one request already tells the two apart (server: 179-185) |
| MatchExact.AgreeExactly | emulator_kernel/nctuss_ramdisk_main.c:435-437 | the two agree on every run if and only if their tables are the same at the start |
| MatchExact.ResetAgrees | emulator_kernel/nctuss_emudisk_main.c:507-534 | a reset leads to the same table if and only if directions and last sectors were all zero before it (server: 113-139) |
| MatchExact.AgreeAfterReset | emulator_kernel/nctuss_emudisk_main.c:507-534 | so after a reset the two agree on every run if and only if no earlier request is remembered |
| Match.DeadlineIsServersAnswer | emulator_kernel/nctuss_ramdisk_main.c:330-344 | the ramdisk's cached deadline is what the server would answer (server: 262-303) |
| EmuServer.Redelivery | emulator_kernel/nctuss_emudisk_main.c:473-476 | a request delivered again changes nothing and gets the same reply, under its own id (server: 601-637) |
| EmuServer.RefusalIsReported | emulator_kernel/nctuss_emudisk_main.c:558-563 | a submission is answered with an error if and only if it is refused, and then changes nothing (server: 645-655) |
| EmuServer.SectorsKeep | emulator_kernel/nctuss_emudisk_main.c:615-652 | a sector that was written is read back, and other sectors are as they were (server: 687-704) |
| EmuServer.LateDuplicateStops | emulator_kernel/nctuss_emudisk_main.c:439-453 | of the requests up to the last one executed, exactly those before it stop the server (server: 614-628) |
| EmuServer.LateResetForgets | emulator_kernel/nctuss_emudisk_main.c:507-534 | a late copy of a reset frees the channels again, and then the server would execute any copy of any request anew (server: 601-613) |
| StopAndWait.ReturnsAreAtomic | emulator_kernel/nctuss_emudisk_main.c:430-481 | under any loss and overtaking of requests and replies, repetition of replies and resending, the calls that returned are atomic calls of the server, each executed once and in order, with the reply to that very request |
| StopAndWait.StopsExactly | emulator_kernel/nctuss_emudisk_main.c:439-453 | in every state of every run, a packet that arrives stops the server if and only if a later call has been executed, or it is the current call and executing it never ends (server: 614-628) |
| StopAndWait.InOrderStops | emulator_kernel/nctuss_emudisk_main.c:439-453 | if requests arrive in order, the server stops only on a call that never ends |
| StopAndWait.CanReturn | emulator_kernel/nctuss_emudisk_main.c:448-477 | whatever was lost so far, a call can still return unless the server has stopped or would on it |
| StopAndWait.ExchangesAgree | emulator_kernel/nctuss_emudisk_main.c:448-477 | runs making the same calls return the same replies and leave the same server, whatever was polled, resent or lost |
| StopAndWait.CurrentCopyKeeps | emulator_kernel/nctuss_emudisk_main.c:448-476 | a copy of the current request is executed once, and later copies are answered from the cache (server: 614-637) |
| StopAndWait.OldCopyKeeps | emulator_kernel/nctuss_emudisk_main.c:448-476 | a copy of an earlier request changes nothing if it is the last one executed, and stops the server otherwise (server: 614-628) |
| StopAndWait.ArriveKeeps | emulator_kernel/nctuss_emudisk_main.c:336-349 | the id check lets through only replies to the current request |
| Communicate.Client.Receive | emulator_kernel/nctuss_emudisk_main.c:336-349 | a reply is kept exactly if its id is waited for |
| Communicate.Client.Exchange | emulator_kernel/nctuss_emudisk_main.c:430-481 | a call that returns is one atomic call of the server; it uses just as many polls as it takes until its reply is there, everything that can happen in each of them does, and after every two millionth the packet is sent again |
| Communicate.Client.Poll | emulator_kernel/nctuss_emudisk_main.c:459-463 | of what is to happen during a poll, exactly that happens which can when its turn comes, in order |
| Communicate.ResendCount | emulator_kernel/nctuss_emudisk_main.c:473-476 | the steps of n polls hold n / 2000000 resends |
| Communicate.ResentCopyReturns | emulator_kernel/nctuss_emudisk_main.c:448-477 | whatever happened to the copies before, if the copy sent after a two millionth poll gets through, and its reply, the exchange has its reply |
| Communicate.LostOnce | emulator_kernel/nctuss_emudisk_main.c:448-477 | an exchange whose first copy is lost returns the reply to the second |
| EmudiskSteps.ServerAccepts | emulator_kernel/nctuss_emudisk_main.c:537-566 | while fewer requests are in flight than there are channels, the server never refuses one (server: 160-174) |
| EmudiskSteps.SubmitKeeps | emulator_kernel/nctuss_emudisk_main.c:1419-1476 | a submission later than the watermark does not hang and keeps the invariant of driver and server |
| EmudiskRefresh.AnswerExtends | emulator_kernel/nctuss_emudisk_main.c:1510-1529 | after any submissions a fresh answer is earlier, or the same, or at the same time with more ids |
| EmudiskRefresh.NewsIsChange | emulator_kernel/nctuss_emudisk_main.c:1514-1517 | so the three-way test fires exactly when the answer changed |
| EmudiskRefresh.StrategyHangs | emulator_kernel/nctuss_emudisk_main.c:1419-1424 | the submission routine hangs if and only if its first clock reading equals the watermark |
| EmudiskDrain.IdIsHeld | emulator_kernel/nctuss_emudisk_main.c:1260-1264 | every id of a delivered answer is found in the table |
| EmudiskDrain.DeliverAllKeeps | emulator_kernel/nctuss_emudisk_main.c:1260-1289 | delivering an answer never hangs and hands back exactly its requests |
| EmudiskDrain.RoundKeeps | emulator_kernel/nctuss_emudisk_main.c:1241-1333 | one round does not hang, leaves a fresh cached answer, and fewer requests outstanding |
| EmudiskDrain.DrainKeeps | emulator_kernel/nctuss_emudisk_main.c:1241-1333 | the whole drain does not hang, and ends with nothing due before its last clock reading |
| EmudiskDrain.DrainTerminates | emulator_kernel/nctuss_emudisk_main.c:1329-1333 | it ends after at most as many rounds as there are outstanding requests |
| EmudiskRuns.NextKeeps | emulator_kernel/nctuss_emudisk_main.c:1151-1562 | a step hangs if and only if it submits at the watermark, and every other step keeps the invariant |
| EmudiskRuns.RunKeeps | emulator_kernel/nctuss_emudisk_main.c:1151-1562 | no run hangs in any other way |
| EmudiskTheorems.CachedIsFresh | emulator_kernel/nctuss_emudisk_main.c:1510-1529 | whenever the lock is free, the cached time and ids are the answer the server would give now |
| EmudiskTheorems.HangsOnlyAtWatermark | emulator_kernel/nctuss_emudisk_main.c:1420-1424 | from every reachable state the only hang is a submission whose reading equals the watermark |
| EmudiskTheorems.ResponsesAreFaithful | emulator_kernel/nctuss_emudisk_main.c:1260-1289 | responses come in order, never early, under their own id, and reads carry the server's bytes as of their submission |
| EmudiskTheorems.WatermarkIsSound | emulator_kernel/nctuss_emudisk_main.c:1245-1252 | outstanding completion times lie past the watermark, the watermark not past the clock, and driver and server agree on what is outstanding |
| EmudiskTheorems.EachIdOnce | emulator_kernel/nctuss_emudisk_main.c:202-258 | each submitted id is in exactly one place, so none is completed twice or lost; held ids are positive and already issued |
| EmudiskTheorems.AdmissionConserved | emulator_kernel/nctuss_emudisk_main.c:898-924 | requests in flight are those in the table and those not retired, at most the number of channels; a running queue finds a free entry; each delivered request waits for the softirq or was retired, once, and nothing else was |
| EmudiskBooks.ReachedBalanced | emulator_kernel/nctuss_emudisk_main.c:898-924 | the requests delivered are, with multiplicity, those waiting for the softirq and those it has retired |
| EmudiskBooks.DeliveredOnce | emulator_kernel/nctuss_emudisk_main.c:1260-1289 | no request is delivered twice |
| EmudiskTheorems.NoLostWakeUp | emulator_kernel/nctuss_emudisk_main.c:1184-1239 | untimed sleep means nothing outstanding, a timer is the time of the next response, and a timer that ran out is not early |
| EmudiskTheorems.DrainIsExact | emulator_kernel/nctuss_emudisk_main.c:1318-1341 | after a drain everything outstanding completes at or after its last clock reading |
| EmudiskTheorems.NothingGoesBack | emulator_kernel/nctuss_emudisk_main.c:1265 | watermark and clock never go back |
| EmudiskTheorems.DrainEnds | emulator_kernel/nctuss_emudisk_main.c:1329-1333 | from every reachable state a drain that starts completes, after at most one round for each outstanding request |
| EmudiskProgress.QueueIsServed | emulator_kernel/nctuss_emudisk_main.c:1387-1492 | unless the first reading is at the watermark, what the queue hands out is submitted: the log grows by exactly the submissions of the requests taken, in order and each at its own clock reading, and requests are left only in a stopped queue |
| EmudiskProgress.StrategyLogs | emulator_kernel/nctuss_emudisk_main.c:1387-1492 | the driver's routine submits every request it does not leave in the queue, once |
| EmudiskProgress.SubmitHangsExactly | emulator_kernel/nctuss_emudisk_main.c:1419-1460 | a submission the block layer may make hangs exactly if its reading is not past the watermark or no entry is free |
| EmudiskProgress.LockLeavesAsleep | emulator_kernel/nctuss_emudisk_main.c:1184-1239 | when it gives the lock back the thread sleeps, without a timer if nothing is outstanding and otherwise until the time of the server's next responses |
| EmudiskProgress.WatermarkWasAsked | emulator_kernel/nctuss_emudisk_main.c:1318 | whenever the lock is free, driver and server were last asked about the watermark |
| EmudiskProgress.EverythingCanFinish | emulator_kernel/nctuss_emudisk_main.c:1151-1345 | from every reachable state with packet ids to spare some run of clock, timer, thread and softirq delivers and retires every request submitted, and leaves the queue running |
| EmudiskTold.ServerWasTold | emulator_kernel/nctuss_emudisk_main.c:1458-1460 | over every run the server's channels are what the logged submissions make of them, each told with its time, direction, sectors and id, and every request completes its exact number of nanoseconds after its submission |
| EmudiskWatermark.OnTimeDrain | emulator_kernel/nctuss_emudisk_main.c:1260-1265 | a drain exactly on time leaves the clock at the watermark and the queue running |
| EmudiskWatermark.OnTimeThenHang | emulator_kernel/nctuss_emudisk_main.c:1420-1424 | after it, the next submission before the clock moves on hangs the driver |
| EmudiskWatermark.OnTimeRetireThenHang | emulator_kernel/nctuss_emudisk_main.c:898-924 | also if the queue was stopped, once the softirq has retired one of the requests delivered |
| EmudiskWatermark.WatermarkHangIsReachable | emulator_kernel/nctuss_emudisk_main.c:1420-1424 | from every start, whatever the number of channels, some run hangs there |
| EmudiskDriver.StagingDisjoint | emulator_kernel/nctuss_emudisk_main.c:1934 | staging buffers do not overlap, lie after eight times the size of the packet pool and inside the mapped region |
| EmudiskDriver.StageOne | emulator_kernel/nctuss_emudisk_main.c:1055-1062 | writing into one staging buffer leaves all others as they were |
| EmudiskDriver.Driver.constructor | emulator_kernel/nctuss_emudisk_main.c:1865-1936 | the initialisation after the reset reaches a start state of the machine |
| EmudiskDriver.Initialise | emulator_kernel/nctuss_emudisk_main.c:507-534 | when the reset has returned, the server has the driver's number of channels, free, the response times of its speed factor, and its memory as before, and the machine can start |
| EmudiskDriver.Driver.KtimeGet | emulator_kernel/nctuss_emudisk_main.c:1388-1390 | the clock is wall time less the time spent in pauses; in a pause it reads what it read before |
| EmudiskDriver.Driver.Pause | emulator_kernel/nctuss_emudisk_main.c:753-854 | a pause never comes inside a pause; the clock stops where it is when the pause begins |
| EmudiskDriver.Driver.Resume | emulator_kernel/nctuss_emudisk_main.c:856-896 | every resume ends one, and the clock goes on from where it stopped, however much wall time has passed |
| EmudiskDriver.Driver.Call | emulator_kernel/nctuss_emudisk_main.c:537-652 | an exchange over the lossy client, if it returns, has the effect of one execution by the server, under the next packet id, at an unchanged clock |
| EmudiskDriver.Driver.Transmit | emulator_kernel/nctuss_emudisk_main.c:430-481 | the polls take wall time; the reply, if it comes, is that of the server to this packet |
| EmudiskDriver.Driver.Ask | emulator_kernel/nctuss_emudisk_main.c:568-612 | the query about the watermark, counted on both sides |
| EmudiskDriver.Driver.FindEntry | emulator_kernel/nctuss_emudisk_main.c:213-250 | the loop finds the first entry with the id |
| EmudiskDriver.Driver.MoveSectors | emulator_kernel/nctuss_emudisk_main.c:1464-1467 | one exchange a sector moves the whole request between staging buffer and server disk |
| EmudiskDriver.MovedStep | emulator_kernel/nctuss_emudisk_main.c:615-652 | one sector more extends what has been moved by exactly that sector |
| EmudiskDriver.Driver.SubmitOne | emulator_kernel/nctuss_emudisk_main.c:1419-1476 | one turn of the loop, if its exchanges return, is one submission of the machine, pauses closed |
| EmudiskDriver.Driver.Turn | emulator_kernel/nctuss_emudisk_main.c:1386-1495 | one turn with its clock readings, up to the look for another request |
| EmudiskDriver.Driver.Refresh | emulator_kernel/nctuss_emudisk_main.c:1500-1559 | the cached answer and the wake-up after a batch, with the pause closed on every path |
| EmudiskDriver.Driver.Strategy | emulator_kernel/nctuss_emudisk_main.c:1347-1562 | the routine, if its exchanges return, ends in the state and with the clock that StrategyAt gives from the state and the lapses of the clock alone, is one step of the machine, and logs the submission of each request it fetched, once and in order |
| EmudiskDriver.Driver.DeliverOne | emulator_kernel/nctuss_emudisk_main.c:1262-1287 | one delivery of the machine; the read is copied out while the entry is still unused |
| EmudiskDriver.Driver.StartRound | emulator_kernel/nctuss_emudisk_main.c:1241-1258 | none of the three checks at the start of a round can fail |
| EmudiskDriver.Driver.Drain | emulator_kernel/nctuss_emudisk_main.c:1241-1341 | the goto loop terminates unless an exchange does not, never hangs, and is the machine's drain for the readings the lapses of the clock give |
| EmudiskDriver.Driver.TakeLock | emulator_kernel/nctuss_emudisk_main.c:1214-1241 | what follows each kind of sleep is the machine's step, with clock readings given by the lapses; afterwards the thread sleeps until the next responses, if there are any |
| EmudiskDriver.Driver.SoftirqDone | emulator_kernel/nctuss_emudisk_main.c:898-924 | retiring a request is the machine's step |
| EmudiskPlan.TurnsAreSubmitAll | emulator_kernel/nctuss_emudisk_main.c:1386-1495 | the turns of the loop are the machine's submissions of the batch they take |
| EmudiskPlan.StrategyAtIsStep | emulator_kernel/nctuss_emudisk_main.c:1347-1562 | the routine as a function of state and lapses is a step of the machine |
| EmudiskPlan.SameRounds | emulator_kernel/nctuss_emudisk_main.c:1329-1341 | two drains from one state whose clocks run alike take the same rounds |
| Transparency.StrategyTwice | emulator_kernel/nctuss_emudisk_main.c:1459-1474 | on two systems that are alike, whatever their polls, the submission routine leaves the same queue, clock, ids, thread, cached answer and server |
| Transparency.TakeLockTwice | emulator_kernel/nctuss_emudisk_main.c:1292-1341 | so does the completion thread |
| Transparency.ActTwice | emulator_kernel/nctuss_emudisk_main.c:1347-1562 | so does every act of the environment, which leads both where it leads from the state and the lapses alone; the invariant holds after it |
| Transparency.RunTwice | emulator_kernel/nctuss_emudisk_main.c:448-477 | so does every run: it ends where its acts lead, one after the other; polls, resends, losses and the time they take are invisible |
| Transparency.ActsReach | emulator_kernel/nctuss_emudisk_main.c:1151-1562 | where acts lead is a state the machine reaches, so all its theorems hold of the driver there |
| Rechunk.MoveSegment | emulator_kernel/nctuss_emudisk_main.c:1098-1141 | a segment goes into or comes out of the packets at the running position, whatever its length |
| Rechunk.Move | emulator_kernel/nctuss_emudisk_main.c:1067-1146 | re-chunking moves the same bytes as the staging buffer in both directions, takes one packet a sector, and terminates |
| Rechunk.PayloadIsSector | emulator_kernel/nctuss_emudisk_main.c:1098-1111 | packet k carries sector k of the stream |
| Rechunk.SamePackets | emulator_kernel/nctuss_emudisk_main.c:1465-1467 | packets filled directly equal those cut from the staging buffer, whatever either held before |
| Rechunk.RoundTrip | emulator_kernel/nctuss_emudisk_main.c:1113-1140 | bytes written with one segmentation and read with another are the same |

## Left out

- StopAndWait.ReturnsAreAtomic: copies of a reset may be lost but stay in their place among the requests. `EmuServer.LateResetForgets` says what a late one does. Nothing is said of calls that never return.
- Communicate.Client.Exchange: that a reply comes is not claimed, only when it does; of a routine whose exchange has not returned, only that it is still inside it.
- EmudiskDriver.Driver.SubmitOne: only for requests the block layer may hand out; the C code would read or write outside its buffers for others.
- Rechunk.Move: payload bytes only. `skb->len`, which this path adds twice, is not part of this model.
- The `skbs_for_read` path by which packets of a read stay with the request until it is delivered, and the return of packets to their pool.
- Ethernet, IP and UDP headers and checksums, and the split of times into 32-bit words: datagrams are values, and times are integers without a bound.
- Timers, inter-processor interrupts, LEDs, cache locking and barriers: a pause is the clock standing still.
- The FIQ handshake, which the build does not use.
- Requests other than file-system requests, which are answered with an error at once.
- Loading and unloading the modules, registration, geometry, statistics and trace output.
- The artificial extra delay of the ramdisk, which only lets time pass between two clock readings.
- The Berkeley DB store of the server; its memory store is modelled.
- Memory pages of requests are values: two requests sharing a page, or a page changed by its owner while a request is under way, are not modelled.
- Liveness of the thread scheduler: that a woken thread runs, or a timer fires, is the environment's choice; that nothing stands in their way is `EverythingCanFinish`.
