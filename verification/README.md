# Verification of the threaded DNS resolver

This project models the concurrent DNS resolver of the repository and proves properties of every run of it.
It has three layers.

1. **The bounded queue (`array.c`).** `Ring` is the circular buffer as a value, `BoundedQueue` the same
   buffer as an object with an array updated in place, one method for each stretch of code that runs with
   the lock held, and `QueueCalls` the three calls on top of it. `QueueMachine` is a step relation for any number
   of threads that call `array_put`, `array_get` and `array_free`: asking for the lock, one lock-held stretch,
   waiting, being notified, timing out, waking spuriously. `QueueProofs`, `QueueWakeups` and `QueueTheorems` show
   that every run is a run of a closable FIFO (`Fifo`), that no wake-up of a put or a get is lost, and what closing
   means; `QueueReturns` that each call takes effect in one step between call and return; `QueueProgress` that
   nobody waits in vain; `QueueWaits`, `QueueFreers` and `QueueRuns` what the waits of `array_free` come to, what it
   can rely on and what it cannot.
2. **The pipeline (`dnsthreaded.c`).** `Pipeline` is a step relation over four such FIFO queues, with main, any
   number R of requesters, any number V of resolvers, and two log writers. The `Pipeline…` modules prove
   who closes what and when (`Close`, `Shutdown`), what each file has contributed (`Files`, `Tally`), what flows
   where (`Flow`, `Result`), what the lines of the logs and the counters of the threads say (`Logs`, `Counts`), the
   link to the first layer (`Queues`), termination (`Termination`), when it can and cannot get stuck (`Progress`,
   `Bound`, `Stuck`), order (`Order`) and memory ownership (`Ownership`).
   `ThreadedProgram` is the program as an object whose methods update shared fields and four rings of the
   first layer; `ThreadTurns` says what a thread's turn comes to, waits included, and `FairSchedules` what
   fair schedules lead to.
3. **The sequential program (`dnssimple.c`).** `Lines` is what `getline` delivers and what name is on a line,
   `Sequential` the program. It is the specification of the log that the threaded program is measured against.
   `LogEntries` is what a reader can make of a log.

`Timeout` covers the two versions of `get_timeout`. `Sums`, `Permutations` and `Wrappers` are helpers.
`ARRAY_SIZE` stays symbolic (N, at least 2): the two builds use 8 and 256.

## Main results

- Any interleaving of any threads on a queue is a run of a closable FIFO, and each call of `array_put` or `array_get`
  takes effect in exactly one step of its own between call and return, so the queue is linearizable; closing
  is final and loses nothing.
  No wake-up of `array_put` or `array_get` is lost even if their waits never time out: without new calls and
  time-outs every run comes to rest after boundedly many steps, and then nobody sleeps in a put or a get that
  need not wait.
- `array_free` leaves its drain loop only with the queue empty, unless a wait for `array_emptied` ends
  spuriously, and a run of two threads shows that exception. Its own wake-ups are another matter. If no two
  threads are in `array_free` of a queue at once, the one at the end of the drain is not lost. The one at the end of
  the wait for the getters is lost in exactly one way: the last getter was successful and left the count without
  a signal (array.c:120); then only the one-second time-out helps. And `array_free` can return with a getter
  inside, if one enters between the signal and the wake-up. Runs of two threads show both.
- After a wait, `array_free` waits again exactly if the wait timed out and what it waits for has not come about;
  the value a wait returned is traced to the step that ended it.
- Reading back the names of a text gives the words it was written from, and writing out the names of a file gives the
  file. A line of a log is the name, a comma, a space and the outcome; name and outcome can be recovered from it
  exactly when the name has no comma and the address is not the word NOT_RESOLVED.
- No `array_put` of the pipeline is ever refused. A queue is closed only when all that will ever be put on it has been,
  and if no wait of `array_free` ends early, each call of it returns with its queue drained. When main has finished, the resolver log is, as a multiset,
  what the sequential program writes for the non-empty lines of the same files, for all R and V. It is what
  the sequential program writes, without any proviso, exactly when no line is empty: the sequential program logs
  empty lines, the threaded one skips them. With R = V = 1 the order is the same too, at every moment of
  the run. Each non-empty line of a file stands in either log once, and each thread's statistics count its own work.
- Every run takes a bounded number of steps other than re-checks, linear in the input. With F files that
  open, the program is free of deadlock for every content of the files exactly when F <= N - 1 + R: main
  creates the resolvers only after it has fed all names, so with more files it can wait for ever for room on
  `filename_queue` while every requester waits for room on `hostname_queue`. Input by input, it can get stuck
  exactly when R of the first few files can be held back while the others' lines, and all but one line of each
  held file, just fill `hostname_queue` (`PipelineStuck.CanStick` is that condition on the line counts).
- Under every schedule that gives each thread its turn again and again, and up to that bound on F, the program over
  the rings of `array.c` runs to its end with the two logs that the sequential program determines.
- Every string that travels through a queue has exactly one owner until it is freed, is freed once, none is
  left in the end, and at most 4(N - 1) + 2R + 2V + 2 exist at any time.

## What is idealised

- The look-up of a host name is one total function from names to optional addresses, the same for both programs.
- File contents and the success of `fopen` do not change during a run.
- `malloc`, `strdup` and `pthread_create` succeed, and no signal arrives.
- The `pthread_*_destroy` calls at the end of `array_free` do nothing.
- Timed waits may end at any moment. Spurious wake-ups are allowed everywhere; where a property needs
  their absence its contract says so.
- In the pipeline a queue operation is one step, taken when it need not wait. `QueueTheorems.FifoRefinement` says
  that an operation of `array.c` does what such a step does, `QueueProgress.ServedAtRest` that it completes once
  it need not wait, and `ThreadedProgram` runs the pipeline on the rings themselves. A thread's work between two
  queue operations is merged with a neighbouring step where no other thread can see the difference.
- `array_free` in the pipeline is three steps: close, wait until drained, wait until no getter is inside. A thread
  whose next action is `array_get` counts as a getter, which makes the second wait no easier than in the code; and
  either wait may also end early, as the code's waits may.
- The last requester holds `file_reader_mutex` while it closes two queues. The pipeline has no such mutex; by
  `PipelineQueues.LastReaderIsAlone` all others are gone by then, so nobody waits for it.
- The pipeline starts after the argument checks, with the queues initialised and the log threads created.

The repository's README.md:25 gives `dnsthreaded` the arguments of `dnssimple`; `dnsthreaded.c` takes two
thread counts and two log files first (dnsthreaded.c:300-303). The model follows the code.

## Model

| member | source | states |
|---|---|---|
| Timeout.Timespec.AddSingleCarry | array.c:7-14 | the in-place update carries at most once and always denotes the instant a million nanoseconds later for each millisecond asked for; 1000 of them are one second |
| Timeout.Timespec.AddGeneral | turnin/array.c:18-33 | for every int argument, negative ones too, the nanoseconds are in range and the instant is a million nanoseconds later for each millisecond |
| Timeout.ProductFits | array.c:9 | the product is an int exactly for -2147 to 2147 milliseconds |
| Timeout.SingleCarryNormal | array.c:9-13 | the single-carry version is normalised exactly when at most one second is carried and none borrowed |
| Timeout.SingleCarryRange | array.c:9-13 | it is normalised whatever the clock says exactly for 0 to 1000 milliseconds |
| Timeout.VersionsAgree | turnin/array.c:18-33 | in that range it equals whatever the general version leaves |
| Ring.IndexTests | array.c:38-39 | the index tests mean empty and full, and a ring of N slots never holds more than N - 1 items |
| Ring.StoreAppends | array.c:52-54 | storing at tail appends to the contents, across the wrap-around too |
| Ring.RemoveDropsOldest | array.c:105-107 | advancing head removes exactly the oldest item |
| BoundedQueue.BoundedQueue.constructor | array.c:16-27 | the queue starts empty, open and without getters |
| BoundedQueue.BoundedQueue.PutSection | array.c:33-57 | one lock-held stretch of array_put refuses, waits or accepts exactly as the closed, full and free queue demand, is one event of the FIFO, and signals `not_empty` exactly when it accepts |
| BoundedQueue.BoundedQueue.EnterGet | array.c:66 | a getter is counted before it asks for the lock |
| BoundedQueue.BoundedQueue.GetSection | array.c:71-117 | one lock-held stretch of array_get delivers the oldest item even after closing, ends only when closed and empty, and signals `not_full`, `array_emptied` and `all_getters_done` exactly when it should |
| BoundedQueue.BoundedQueue.RemoveOldest | array.c:106-112 | the oldest item leaves the array, and `array_emptied` is signalled exactly when all accepted items are delivered |
| BoundedQueue.RemoveDelivers | array.c:106-112 | removing is delivering the next accepted item |
| BoundedQueue.BoundedQueue.LeaveGet | array.c:120 | a successful getter leaves the count after the unlock |
| BoundedQueue.BoundedQueue.CloseSection | array.c:129-156 | the flag is set, nothing else changes, everybody who waits to put or to get is woken, and array_free waits for the drain, for the getters, or returns |
| BoundedQueue.BoundedQueue.DrainSection | array.c:144-156 | after a wait for the drain: wake everybody, and wait again only if not signalled and not empty |
| BoundedQueue.BoundedQueue.GetterSection | array.c:156-164 | after a wait for the getters: wait again only if not signalled and the count is positive |
| QueueProofs.LockKept | array.c:30-59 | the holder of the lock is the one thread inside a lock-held stretch |
| QueueProofs.RingKept | array.c:52-54 | every step of any thread is its event on the FIFO, and accepted is delivered followed by the ring |
| QueueProofs.LogsKept | array.c:29-123 | each thread's own successes are its entries in the queue's history, in order |
| QueueProofs.ActiveKept | array.c:66-120 | active_getters is the number of threads between increment and own decrement |
| QueueWakeups.WakeKept | array.c:39-57 | no step lets items outnumber the getters awake to take them while one sleeps un-notified, nor free slots the putters |
| QueueWakeups.NoLostWakeup | array.c:56-115 | with the lock free, an un-notified sleeper in array_put or array_get implies enough notified threads for every slot or item, and an open queue |
| QueueTheorems.StepInv | array.c:29-167 | all invariants of the queue are kept by every step of every thread |
| QueueTheorems.FifoRefinement | array.c:29-123 | every run of any number of threads is, step by step, a run of the closable FIFO from empty |
| QueueTheorems.ReachableQueue | array.c:29-123 | in every reachable state: contents, capacity N - 1, exact full test, per-thread order, exact getter count |
| QueueTheorems.RunWakeups | array.c:38-75 | no wake-up of array_put or array_get is lost in any run |
| QueueTheorems.CloseIsFinal | array.c:77-103 | after closing the accepted items never change, and once a getter was told of the shutdown everything has been delivered, for ever |
| QueueTheorems.FreeSawNoGetter | array.c:155-167 | in every run, when array_free returns because it read zero, no thread is anywhere inside array_get |
| QueueTheorems.DrainIsComplete | array.c:131-149 | in every run array_free leaves the drain loop with everything delivered and the queue empty for good, or a spurious wake-up on `array_emptied` is to blame |
| QueueReturns.EachCallSteps | array.c:29-167 | every step of any thread is, for each thread, progress within its call or the one result that its event on the queue is; other threads' calls are left as they are |
| QueueReturns.PutReturns | array.c:29-62 | a call of array_put takes effect in exactly one own step, its last: its very item is accepted or refused; no wait or time-out makes it return |
| QueueReturns.GetReturns | array.c:64-123 | a call of array_get takes effect in exactly one own step: it takes the item that is its result, or is told of the end |
| QueueReturns.ToldMeansEnded | array.c:77-103 | a state of a run counts as told of the shutdown exactly if some array_get has returned ARRAY_SHUTDOWN before |
| QueueReturns.SpuriousMeansUnsignalled | array.c:144-147 | a state counts as disturbed exactly if some wait for the drain has returned 0 without a signal before |
| QueueWaits.AfterClosing | array.c:125-156 | the first stretch waits for the drain exactly if something is queued, else for the getters exactly if some are counted, else returns |
| QueueWaits.AfterDraining | array.c:131-156 | in every run array_free waits for the drain again exactly if the wait that has just ended timed out with something still queued |
| QueueWaits.AfterCounting | array.c:155-167 | in every run array_free waits for the getters again exactly if the wait timed out and some getter is still counted; if it returns with one inside, the wait was signalled by the getter that brought the count to zero, or woke spuriously |
| QueueProgress.SomeoneServes | array.c:29-167 | unless all threads are outside or asleep, some thread can take the lock, run its stretch or leave |
| QueueProgress.ServingIsBounded | array.c:29-167 | without new calls and time-outs a run has boundedly many steps left, whoever is scheduled |
| QueueProgress.RestIsJustified | array.c:38-75 | when all are outside or asleep, a getter sleeps only on an empty open queue and a putter only on a full open one |
| QueueProgress.ServedAtRest | array.c:29-123 | when a run cannot go on without a call or a time-out, it is at rest and every array_put and array_get that need not wait has returned |
| QueueProgress.FreeAtRest | array.c:131-165 | at rest, array_free waits for the drain only with items left, and for the getters only in vain |
| QueueFreers.DrainWakeup | array.c:109-149 | if no two threads are in array_free at once, one that sleeps on `array_emptied` has items to wait for: that wake-up is never lost |
| QueueFreers.StrandedStep | array.c:117-165 | the step that leaves array_free asleep with no getter left is exactly the last, successful getter's leaving the count |
| QueueFreers.StrandedBySuccess | array.c:117-165 | in every run, array_free asleep with no getter left has been so since such a step |
| QueueRuns.SpuriousDrain | array.c:144-147 | a spurious wake-up does let array_free return with an item still queued: a concrete run of two threads |
| QueueRuns.StrandedFree | array.c:117-161 | a concrete run of two threads in which array_free sleeps on `all_getters_done` with nobody left to signal it, and no thread can go on but by a new call or a time-out |
| QueueRuns.LateGetter | array.c:156-165 | a concrete run of two threads, without time-out or spurious wake-up, in which array_free returns with a getter inside |
| QueueCalls.ArrayPut | array.c:29-62 | array_put on the abstract queue: it waits exactly while full and open, and else accepts, or refuses if closed |
| QueueCalls.ArrayGet | array.c:68-123 | array_get on the abstract queue: it waits exactly while empty and open, and else delivers the oldest item, or ends, and has left the count |
| QueueCalls.ArrayFree | array.c:125-167 | array_free on the abstract queue: it closes, waits for the drain, and waits for the getters, each as long as it must or until its wait returns 0 |
| Lines.LinesPartition | dnssimple.c:61-65 | splitting a file into lines loses nothing, and only the last line may lack its newline |
| Lines.NameIsLongest | dnssimple.c:63-65 | the name on a line is its longest beginning without NUL and without the final newline |
| Lines.WordsReadBack | dnssimple.c:61-65 | the names in a text of words, each on its line, are those words; the last newline may be missing |
| Lines.FileWrittenBack | dnssimple.c:61-65 | the names of a file without NUL, written out one to a line, give the file back, but for a missing last newline |
| Sequential.DnsSimple.ProcessFile | dnssimple.c:50-84 | one file appends a line for each of its names, in order: the name, a comma and a space, and the address or NOT_RESOLVED; a file that does not open appends nothing and returns -1 |
| Sequential.DnsSimple.Run | dnssimple.c:108-137 | the log has such a line for each name of all files in order, and the program gives up exactly when no file opens |
| Sequential.NamesInOrder | dnssimple.c:133-136 | all names are file after file, line after line: where the name on a given line of a given file comes |
| LogEntries.EntryRecovers | dnssimple.c:71-76 | a reader recovers name and outcome from a line exactly if the name has no comma and the address is not NOT_RESOLVED |
| LogEntries.LogReadsBack | dnsthreaded.c:172-178 | a log, in whatever order, written to a file can be read back with getline as it was |
| LogEntries.LogOfWords | dnssimple.c:50-84 | from data file to log: the line at the place of a word is about that word |
| PipelineClose.OpenForReaders | dnsthreaded.c:128-134 | while a requester may still put, the host and log queues are open |
| PipelineClose.CloseKept | dnsthreaded.c:415-504 | the closing discipline (countdown, joins, order of closes) is kept by every step |
| PipelineFiles.FilesKept | dnsthreaded.c:56-126 | each file has one reader at a time, and its lines reach the queues in order, each once |
| PipelineResult.StepInv | dnsthreaded.c:48-281 | all invariants of the pipeline are kept by every step |
| PipelineResult.NothingIsRefused | dnsthreaded.c:94-121 | no array_put is refused in any run |
| PipelineResult.Conservation | dnsthreaded.c:215-277 | at any time the messages due for accepted host names are queued as names, owed or held by resolvers, queued, in the writer's hand, or written |
| PipelineResult.RequesterLogOrder | dnsthreaded.c:83-121 | the requester log restricted to a file is a prefix of its non-empty lines, and the host queue lags the log queue by at most R |
| PipelineResult.ThreadedRefinesSequential | dnsthreaded.c:191-281 | at the end both logs are permutations of the sequential entries and names of the non-empty lines, each file's names in order |
| PipelineResult.SameLogIffNoBlankLine | dnsthreaded.c:88-91 | the two programs' logs agree as multisets exactly when no line is empty |
| PipelineResult.FinishedCounts | dnsthreaded.c:476-504 | hosts_resolved, both log lengths and the number of non-empty lines agree at the end; files_serviced is the number of files that open |
| PipelineLogs.ResolverLogSays | dnsthreaded.c:191-213 | at any time every line of the resolver log is about a non-empty line of some file and gives its name and the outcome of its look-up |
| PipelineLogs.RequesterLogSays | dnsthreaded.c:83-96 | at any time every line of the requester log is a non-empty line of some file |
| PipelineLogs.EachLineOnce | dnsthreaded.c:83-277 | at the end each non-empty line of each file stands in the requester log exactly once, and exactly one line of the resolver log is about it |
| PipelineLogs.ResolverLogReadsBack | dnsthreaded.c:172-178 | the finished resolver log, written one message to a line, reads back as it was for whatever data files, if no address has a newline or NUL |
| PipelineCounts.StepCounts | dnsthreaded.c:77-222 | a step raises one thread's counter by one exactly if that thread opens a file, or has a message accepted |
| PipelineCounts.ResolvedIsOwnPosts | dnsthreaded.c:215-223 | in every run hosts_resolved of each resolver is the number of messages it has put itself |
| PipelineCounts.ServicedIsOwnOpens | dnsthreaded.c:69-77 | in every run files_serviced of each requester is the number of files it has opened itself |
| PipelineShutdown.ClosedAfterProducers | dnsthreaded.c:128-504 | a closed queue has been given all that its producers will ever put, and they are gone |
| PipelineShutdown.FreesComplete | dnsthreaded.c:128-500 | if no wait of array_free ends early, each of its five calls returns with its queue closed and drained and nobody in array_get of it |
| PipelineQueues.NoRefusals | dnsthreaded.c:94-121 | in no step of any run does an array_put return ARRAY_SHUTDOWN |
| PipelineQueues.RefusalsCounted | dnsthreaded.c:97-120 | the count of refused puts goes up exactly in the steps in which an array_put is refused |
| PipelineQueues.QueuesAreFifos | dnsthreaded.c:48-281 | every step is on each of the four queues one event that the FIFO of array.c allows |
| PipelineQueues.LastReaderIsAlone | dnsthreaded.c:128-134 | exactly one requester closes the two queues, after all others have gone |
| PipelineTermination.StepMeasure | dnsthreaded.c:56-126 | every step but a re-check lowers a measure of the work left, and a re-check changes nothing |
| PipelineTermination.BoundedWork | dnsthreaded.c:48-504 | a run has at most linearly many steps that are not re-checks |
| PipelineProgress.StuckExactly | dnsthreaded.c:438-474 | an unfinished state has no productive step exactly when main waits to feed, all requesters wait on a full host queue, and there are no resolvers; no step whatsoever changes such a state |
| PipelineBound.ProgressUnderBound | dnsthreaded.c:420-504 | with at most N - 1 + R files every unfinished reachable state has a productive step |
| PipelineBound.ProgressWithFewLines | dnsthreaded.c:83-121 | the same with fewer than N - 1 + R non-empty lines, however many files |
| PipelineBound.QuietMeansFinished | dnsthreaded.c:474-504 | under the bound, when nothing moves any more, main has finished and the log is complete |
| PipelineBound.Quiesce | dnsthreaded.c:48-504 | from any reachable state, taking productive steps ends in a reachable state that has none |
| PipelineBound.NeverLeavesFeeding | dnsthreaded.c:438-471 | with at least N + R files of at least N non-empty lines, at most R files are ever taken, none is finished, and main stays in its feeding loop, in every run |
| PipelineBound.DeadlockFreeIff | dnsthreaded.c:438-471 | free of deadlock for every content of the files if and only if F <= N - 1 + R |
| PipelineStuck.StuckSticks | dnsthreaded.c:438-471 | in every stuck state the line counts of the files taken and held meet the condition |
| PipelineStuck.Steer | dnsthreaded.c:438-471 | whenever the line counts meet the condition, some run gets stuck |
| PipelineStuck.GetsStuckIff | dnsthreaded.c:438-471 | for every single input: some run halts before main has finished if and only if the files' numbers of non-empty lines allow it |
| PipelineOrder.LogIsPrefix | dnsthreaded.c:56-277 | with one requester and one resolver, the host queue has accepted a beginning of all lines in the order of the arguments, and the resolver log is a beginning of their messages |
| PipelineOrder.SameOrderAsSequential | dnssimple.c:61-79 | with one of each, the resolver log is at every moment a prefix of the sequential log of the non-empty lines, and all of it at the end |
| PipelineOwnership.AccountedKept | dnsthreaded.c:69-125 | every step keeps allocated = owned + freed, for each block and in total |
| PipelineOwnership.ErrorPathsFree | dnsthreaded.c:70-121 | the steps that drop a file or a refused string free it, from any state whatever |
| PipelineOwnership.LinearOwnership | dnsthreaded.c:69-125 | each block is allocated at most once and has one owner or was freed once, never both |
| PipelineOwnership.NothingLeaks | dnsthreaded.c:270-272 | at the end everything allocated for a queue has been freed |
| PipelineOwnership.BoundedInFlight | array.c:38-54 | never more than 4(N - 1) + 2R + 2V + 2 blocks are live, whatever the input |
| FairSchedules.RoundRobinIsFair | dnsthreaded.c:367-471 | fair schedules exist |
| FairSchedules.FairRunsFinish | dnsthreaded.c:415-504 | under every fair schedule, and up to the bound, main finishes after some number of turns with the log the sequential program determines |
| ThreadedProgram.DnsThreaded.constructor | dnsthreaded.c:351-365 | four empty rings and the initial state of the pipeline |
| ThreadedProgram.DnsThreaded.StartLogThreads | dnsthreaded.c:367-391 | the log threads are counted in their array_get calls |
| ThreadedProgram.DnsThreaded.ProcessFilesFromQueue | dnsthreaded.c:48-139 | a requester's turn over the rings is its step of the pipeline if it need not wait, and nothing if it must |
| ThreadedProgram.DnsThreaded.ResolverThread | dnsthreaded.c:256-281 | the same for a resolver |
| ThreadedProgram.DnsThreaded.RequesterLogfileThread | dnsthreaded.c:228-239 | the same for the requester log writer |
| ThreadedProgram.DnsThreaded.ResolverLogfileThread | dnsthreaded.c:242-253 | the same for the resolver log writer |
| ThreadedProgram.DnsThreaded.MainThread | dnsthreaded.c:420-504 | the same for main, its joins and its array_free waits included |
| ThreadedProgram.DnsThreaded.Turn | dnsthreaded.c:48-504 | one turn of any thread, early and timed-out waits included, keeps the rings and the getter counts in step with the pipeline |
| ThreadedProgram.DnsThreaded.RunToTheEnd | dnsthreaded.c:367-504 | total correctness: under every fair schedule, and up to the bound, the program over the rings terminates with the two logs the sequential program determines |

## Left out

- BoundedQueue.BoundedQueue.PutSection: a blocking array_put is several such stretches with waits between them; the waiting itself is in QueueMachine, because other threads act meanwhile.
- BoundedQueue.BoundedQueue.GetSection: the same for array_get.
- Timeout.Timespec.AddSingleCarry: asks that the product fit into an int, because C gives it no meaning otherwise.
- ThreadedProgram.DnsThreaded.RunToTheEnd: holds up to the bound of PipelineBound.DeadlockFreeIff; beyond it PipelineStuck.GetsStuckIff says which inputs can get stuck.
- QueueFreers.DrainWakeup: asks that no two threads are in array_free of one queue at once, which the program keeps (main joins the requesters before it frees requester_logfile_queue again).
- PipelineOwnership.LinearOwnership: counts the strings that travel through queues; `FILE` handles, the getline buffer and the address string of a look-up stay within one thread and are not counted.
- Signal handlers, failure of allocation and failure of thread creation: they leave the intended protocol of countdown and joins.
- Use of a queue after its locks were destroyed: the destroy calls are no-ops here, and requester_logfile_queue is freed twice by the code.
- That array_free returns with no getter inside: false, see QueueRuns.LateGetter; QueueTheorems.FreeSawNoGetter states the case that holds.
- `dns_resolve`, `getaddrinfo`, file handling and printing: I/O, present only as the look-up function, the files' lines and the logs.
- Argument checks, thread ids, run times and the statistics' output: nothing to prove.
- `turnin/multi-lookup.c` and the queue functions of `turnin/array.c`: the same code as `dnsthreaded.c` and `array.c`.
- `test.c`: a stress program, not a specification.
- Fairness of the operating system's scheduler: a hypothesis where something is said to happen in the end; the bounds on the number of steps need none.
