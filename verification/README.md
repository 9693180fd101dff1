# A verified model of the CPU usage tracker

The program reads the cpu section of `/proc/stat` once a second in a reader thread, hands the
snapshots through a message queue to an analyzer thread, which hands usage percentages through a
second message queue to a printer thread. A logger thread drains a third queue of log records, and
the main thread watches all four through atomic flags. The queues, the frames that run the threads,
the time arithmetic and the parser are hand-written C.

The project models these parts and proves what they are for:

* **The linked queue** (`LinkedQueue`): an object with nodes, a front and a back pointer, proved
  against a sequence.
* **The message queue** (`MessageQueue`, `MessageQueueProof`, `MessageQueueRuns`, `MessageQueueOrder`,
  `MessageQueueAlone`, `AtomicQueue`): a step machine for any number of threads. Taking the lock, every
  single access to the list, the signal, falling asleep, waking up and giving the lock back are steps of
  their own. Mutex and condition variable follow sections 7.26.3.4 to 7.26.3.6 and 7.26.4.3 of ISO/IEC
  9899:2018: a wait gives up the lock in the step in which it falls asleep, and it may wake up without a
  signal. The machine refines an atomic queue, every call taking effect at one moment; what comes out is
  what went in, first in first out; no wake-up is lost.
* **Run and shutdown** (`Lifecycle`, `LifecycleOrder`): execution flag, watchdog flags, worker frames, join,
  destroy; and what main and each worker do next, told from the steps of a run alone.
* **The pipeline** (`Pipeline`, `PipelineInvariant`, `PipelineBodies`, `PipelineProof`, `PipelineRuns`,
  `PipelineReads`, `BadLayout`): the reader, analyzer and printer frames, statement by statement, over atomic
  queues and an explicit heap that counts frees, inside the life cycle. `System` puts the two real message
  queues in and proves that every run of the whole is a run of the pipeline, so that all its results hold for
  every interleaving of list accesses, locks, signals, timeouts, allocation failures and shutdown.
  `UsageStream` is the specification: the stream of usage reports of a sequence of snapshots. `PipelineReads`
  says which of the grids that were read make it up, and `ThreadOrder` in which order each thread executes
  its statements.
* **The analyzer frame by itself** (`AnalyzerFrame`) as an object with `prev`, `curr` and `delta`.
* **The cpu statistics** (`CpuUsage`, `StatArrays`, `StatText`, `StatRoundTrip`): the layout counter
  and the matrix reader on a character sequence, the loops that compute differences and
  percentages in place, bounds on the percentages, and the round trip through the text.
* **Time** (`Time`, `SleepUntil`): two-field time with C's truncating division (section 6.5.5 of
  ISO/IEC 9899:2018) and the interruptible sleep loop.
* **The logger** (`Logger`, `LoggerThreads`, `LoggerFilter`): records, their strings, the severity filter and
  the draining loops as an object whose methods run one after the other; and the same around the real message
  queue, with any number of logging threads.

Inputs from outside the model are parameters of the steps or methods: the answers of malloc, of the
lock, of fopen and of the clock, the text read, which thread a signal wakes, and when waits time
out. Whenever a step machine would follow a NULL or freed pointer, free twice, or touch a queue after
its destroy, it raises a `fault` flag; that the flag stays down is proved, not assumed.

The pipeline is proved for layouts with at least one row and eight columns. The code needs both:
`printer_loop` reads element 0 in any case and `stat_cpu_row_percentage_8` reads columns 0 to 7. Nothing in
the program keeps another layout out, as main ignores what `stat_layout_set_f` returns;
`BadLayout.SafeIffGoodLayout` proves that all runs in which no array creation is refused memory are free of
faults exactly for those layouts.

`stat_cpu_array_create_l` does not survive being refused memory: it tests neither malloc and stores
through the NULL (src/cpu_diagnostics/linux.c:66-71), though its callers test what it returns. In the
pipeline that raises `crashed`. With a good layout the runs that fault are exactly those in which a creation
fails (`System.ProgramFreesEverythingOnce`, `PipelineRuns.FaultsIff`), and every good layout has such runs
(`BadLayout.RefusedReaderCrashes`, `BadLayout.GoodLayoutCanCrash`). What C leaves undefined after that the
model continues as if the creation had returned NULL; the results about the stream and about ownership
cover that continuation too.

## Where the code and its documentation differ

The model follows the code.

* `message_queue_pop_wait_t` promises NULL only if nothing was available before the timeout
  (src/data_structures/message_queue.h:89). The code leaves on a timeout without looking at the list
  again. `MessageQueueRuns.TimedOutPopCanMissMessage` is a run in which a message is in the queue, the lock
  is free, and only then the wait times out and returns NULL.
  `MessageQueueRuns.AvailableAtTimeoutIff` says for every run when the promise is broken: exactly when more
  pushes than pops took effect between falling asleep and the timeout. With a single consumer, as both
  queues of the pipeline have, that is exactly a timeout between the linking of a message and its signal
  (`MessageQueueRuns.SoleConsumerTimeoutIff`).
* `queue_empty` is documented the wrong way round (src/data_structures/queue.h:90-94); it returns true
  for an empty queue.
* `stat_cpu_array_read_fl` returns 0 also when the first number of all fails to match
  (`StatText.ZeroWithoutFillingIff`, `StatText.ZeroCanMeanNothing`).
* `timespan_ms` calls its argument microseconds; it counts milliseconds (`Time.SpanMsIsExact`).
* `watchdog_flag` is not initialised in main.c:60, so its initial values are arbitrary in `Lifecycle`.
* `stat_cpu_array_create_l` is called as if it returned NULL without memory
  (src/threads/frames/reader.c:34, src/threads/frames/analyzer.c:18). It does so only for a layout without
  rows, and stores through NULL for any other (`StatArrays.Create`, `BadLayout.RefusedReaderCrashes`).
* `log_record_new_cpy_buf` loses its copy of the string when the second allocation fails
  (src/logger/log_record.c:33-39). `Logger.LogContext.Build` says exactly when; the string is in the
  ghost set `lost`.

## Model

| member | source | states |
|---|---|---|
| LinkedQueue.Queue.constructor | src/data_structures/queue.c:21-28 | the new queue is well formed and empty |
| LinkedQueue.Queue.Push | src/data_structures/queue.c:67-81 | appends at the back and keeps the list well formed (front NULL iff back NULL, back last and unlinked, no node met twice, none freed); NULL or no memory yields -1 and changes nothing |
| LinkedQueue.Queue.Pop | src/data_structures/queue.c:83-98 | takes out the head and frees its node, or yields NULL exactly on an empty queue |
| LinkedQueue.Queue.Size | src/data_structures/queue.c:51-57 | the walk from front ends and counts the contents |
| LinkedQueue.Queue.IsEmpty | src/data_structures/queue.c:59-65 | true exactly when nothing is in the queue, though it looks at back; so it agrees with pop, which looks at front |
| LinkedQueue.Queue.FreeFrom | src/data_structures/queue.c:33-46 | the loop ends, frees every node once and calls the deleter, if there is one, once per value in order |
| LinkedQueue.Queue.Destroy | src/data_structures/queue.c:30-49 | with a deleter every value left is deleted once, first in first out; every node is freed |
| MessageQueueProof.FreesChain | src/data_structures/queue.c:30-49 | on the list of a message queue, half-way nodes or not, the destroy loop follows no dangling pointer, yields the values in order and frees exactly the nodes of the list, each once |
| MessageQueueProof.DestroysAll | src/data_structures/message_queue.c:20-24 | destroying a queue that nobody is inside raises no fault, hands every value to the deleter in order and leaves no node |
| MessageQueueProof.DestroyFaultsIff | src/data_structures/queue.c:30-49 | whatever the pointers and nodes are, the destroy loop follows a dangling pointer exactly if they are no chain from front to NULL |
| AtomicQueue.FifoConservation | src/data_structures/message_queue.c:26-109 | over every run of the atomic queue: initial items and pushed values, in the order of effect, are the popped values followed by what is left |
| AtomicQueue.PopsTellTheTruth | src/data_structures/message_queue.c:46-59 | in every run a pop that answers that nothing is there does so when all that was pushed has been popped, and one that brings a message brings the oldest not yet popped |
| MessageQueueProof.GoodLinking | src/data_structures/queue.c:72-79 | hanging a new node in makes it the last of the list, seen through every half-finished state of the pointers |
| MessageQueueProof.GoodUnlinking | src/data_structures/queue.c:88-94 | moving front past the head leaves the tail as the list, back pointer not yet cleared included |
| MessageQueueProof.Keeps | src/data_structures/message_queue.c:26-109 | every step of every thread keeps the invariant: lock held exactly by the thread in the critical section, list shaped as that thread left it, no bad pointer followed |
| MessageQueueProof.ItemsChangeAsDecided | src/data_structures/queue.c:67-98 | each list access changes the sequence of values as the decision taken in it allows, and other steps do not change it |
| MessageQueueProof.Simulates | src/data_structures/message_queue.c:26-109 | each micro-step is nothing or one step of the atomic queue |
| MessageQueueRuns.Refines | src/data_structures/message_queue.c:26-109 | every run of the micro-step machine, for any number of threads, is a run of the atomic queue |
| MessageQueueRuns.PushedIsPoppedPlusList | src/data_structures/message_queue.c:26-109 | in every run from the empty queue, pushed values in lock order equal popped values followed by the list contents |
| MessageQueueRuns.FreeLockMeansWellFormed | src/data_structures/message_queue.c:26-109 | whenever the lock is free the list is well formed, holds every allocated node, and nobody is in the critical section |
| MessageQueueRuns.LockHolderCanGoOn | src/data_structures/message_queue.c:30-43 | the thread that holds the lock always has a step, and the step follows no bad pointer |
| MessageQueueRuns.OnlySuccessChangesItems | src/data_structures/message_queue.c:26-44 | a push that returns non-zero changes nothing; contents change only in the one step in which a push or pop succeeds |
| MessageQueueRuns.NoLostWakeUp | src/data_structures/message_queue.c:61-109 | when the lock is free and a thread sleeps without a signal, the threads woken and not yet back at the list are at least as many as the messages in it |
| MessageQueueRuns.SoleConsumerSleepsOnEmptyQueue | src/data_structures/message_queue.c:61-109 | a sole consumer that sleeps without a signal while the lock is free sleeps on an empty queue |
| MessageQueueRuns.NullOnNonEmptyQueueIff | src/data_structures/message_queue.c:98-107 | a pop that decides on a non-empty queue returns NULL exactly when mtx_lock failed or its wait was reported as timed out |
| MessageQueueRuns.FallsAsleepOnEmptyQueue | src/data_structures/message_queue.c:91-97 | a wait starts only with nothing in the queue |
| MessageQueueRuns.AvailableAtTimeoutIff | src/data_structures/message_queue.c:92-102 | from the step in which a thread falls asleep to the step in which its wait times out: a message is there at the timeout exactly when more pushes than pops took effect in between |
| MessageQueueRuns.LeftBehindIff | src/data_structures/message_queue.c:100-107 | the same up to the step in which the call that timed out has the lock back and decides on NULL: what it leaves behind |
| MessageQueueRuns.AvailableAtTimeoutIsSpokenFor | src/data_structures/message_queue.c:92-107 | when a wait times out, the messages are at most as many as the threads woken and on their way, and one more if the lock holder owes a signal or a look |
| MessageQueueRuns.SoleConsumerTimeoutIff | src/data_structures/message_queue.c:92-107 | with one consumer a message is there at its timeout exactly when a push has hung it in and not signalled yet |
| MessageQueueRuns.TimedOutPopCanMissMessage | src/data_structures/message_queue.c:100-102 | a run in which the message is queued and the lock free before the wait times out, and pop_wait_t returns NULL and leaves it there |
| Lifecycle.FlagIsOneWay | src/threads/execution_frame.c:23-29 | the execution flag never comes up again, and each worker starts at most one frame iteration after it is down |
| Lifecycle.CleanupMatchesInit | src/threads/execution_frame.c:19-59 | cleanup runs exactly once for each worker whose init succeeded and never for one whose init failed; before the first destroy the flag is down and every worker has ended |
| Lifecycle.FoundUpMeansReported | src/main.c:120-124 | a watchdog flag found up was stored since its previous exchange, whatever it started with |
| Lifecycle.PassedCheckMeansAllReported | src/main.c:115-133 | after the first check, a check passes only if every worker stored its flag since that flag's previous exchange, which was in the check before |
| Lifecycle.FailedCheckIsLast | src/main.c:125-133 | after a failed check the main thread never checks again and only winds down |
| Lifecycle.LeftWorkerEndsTheRun | src/main.c:115-133 | once a worker has left its loop its flag is found up at most once more, then the check fails and the run winds down |
| LifecycleOrder.FlagDownIff | src/main.c:23-26 | the execution flag is down after a run exactly if it was down before or a signal, a failed init or the watchdog's store comes in it |
| LifecycleOrder.NextOfWorker | src/threads/execution_frame.c:19-59 | per worker, of two of its steps with none between: an init that failed is followed by the store of false and nothing after that; the flag test by an iteration exactly if nothing had lowered the flag before it, by cleanup otherwise; an iteration that returned 0 by the flag test, one that did not by cleanup; cleanup by nothing |
| LifecycleOrder.FirstOfWorker | src/main.c:105-109 | a worker begins with its init, after main has started it |
| LifecycleOrder.NextOfMain | src/main.c:105-141 | of two steps of main with none between: four starts, then loop tests; the test goes on to sleeping exactly if nothing had lowered the flag before it, and to the joins otherwise; after sleeping flag 0 is exchanged; a flag found up leads to the next one and after the last to the loop test, a flag found down to the store of false; four joins, three destroys |
| LifecycleOrder.ExitMeansAllDone | src/main.c:135-142 | main exits exactly after the third destroy, and then has started and joined four workers |
| LifecycleOrder.TerminatesAfterFailedCheck | src/main.c:125-132 | main lowers the flag only when its step just before found a watchdog flag down |
| LifecycleOrder.PassedCheckGoesOn | src/main.c:115-133 | after a check that found all flags up main is back at its loop test, with the execution flag as it was |
| LifecycleOrder.FoundUpIff | src/main.c:120-124 | of two exchanges of a flag with none between, the second finds it up exactly if its worker stored it in between |
| PipelineBodies.MoveKeepsOwners | src/threads/frames/analyzer.c:25-67 | each statement of the three frames allocates, hands over and frees so that every live buffer keeps exactly one owner |
| PipelineBodies.ComputeKeepsStream | src/threads/frames/analyzer.c:42-47 | the result computed into the buffer is the next report of the stream |
| PipelineBodies.DropKeepsStream | src/threads/frames/analyzer.c:49-51 | after a failed push the pair is out of the stream and everything before it stays |
| PipelineBodies.DoKeeps | src/threads/frames/printer.c:22-44 | every statement of reader, analyzer and printer keeps the whole invariant |
| PipelineProof.DecideKeeps | src/data_structures/message_queue.c:26-109 | so does every moment at which a push or a pop takes effect |
| PipelineProof.CleanupKeepsOwners | src/threads/frames/analyzer.c:70-78 | cleanup frees prev, if there is one, and delta, each owned by the analyzer alone |
| PipelineProof.LifeKeeps | src/threads/execution_frame.c:7-60 | so does every step of a worker's life |
| PipelineProof.ClosingStep | src/main.c:135-141 | after the first destroy only main moves, and destroying the second queue frees what it holds |
| PipelineRuns.StepKeeps | src/main.c:105-141 | the invariant of the pipeline holds through every step, running and closing |
| PipelineRuns.ReportsArePrefixOfStream | src/threads/frames/analyzer.c:25-67 | in every interleaving, with timeouts and failures anywhere, the reports are a prefix of the usage of consecutive accepted snapshots without the dropped pairs; which snapshots are accepted is said in PipelineReads |
| PipelineRuns.DrainedReportsAreComplete | src/threads/frames/printer.c:22-44 | nothing else is missing: with nothing on its way the reports are the whole stream |
| PipelineRuns.LossStep | src/threads/frames/analyzer.c:37-51 | a failed result allocation or a failed push drops exactly the pair at hand, once |
| PipelineRuns.OtherStepDropsNothing | src/threads/frames/analyzer.c:25-67 | no other step drops a pair |
| PipelineRuns.DroppedPairsAreLosses | src/threads/frames/analyzer.c:37-51 | over every run there are as many dropped pairs as failed allocations and failed pushes |
| PipelineRuns.FaultsIff | src/cpu_diagnostics/linux.c:66-71 | with a good layout a run faults exactly if an array creation fails in it |
| PipelineRuns.EveryBufferHasOneOwner | src/threads/frames/reader.c:33-60 | at each step of every run: each live buffer has exactly one owner, each other one was freed exactly once, none was used after its free |
| PipelineRuns.EverythingIsFreedOnce | src/main.c:135-141 | when main has exited, every buffer ever allocated has been freed exactly once |
| PipelineReads.StepAccounts | src/threads/frames/reader.c:33-60 | through every step: what the reader is about to push is the grid of its last read, which succeeded, and what was accepted is what was so handed over, in order |
| PipelineReads.ReportsArePrefixOfReads | src/threads/frames/reader.c:33-60 | the reports are a prefix of the usage of consecutive grids that were read with success and pushed with success, told from the reader's statements alone; a grid of a failed read is never among them |
| System.MoveRefines | src/data_structures/message_queue.c:26-109 | each move of the program with the real queues is nothing or one step of the pipeline with atomic ones |
| System.ProgramRefinesPipeline | src/data_structures/message_queue.c:26-109 | every run of the program is a run of the pipeline |
| System.AcceptedIsRead | src/threads/frames/reader.c:33-51 | in every run of the program the first queue has accepted, in order, the grids of those reads that succeeded and whose push returned success, and that of a push that has taken effect and not returned yet; no others |
| System.ProgramReportsArePrefixOfStream | src/threads/frames/printer.c:22-44 | for the program with every micro-step of its queues: the reports are a prefix of the usage of consecutive grids read and pushed with success, in order, without the dropped pairs |
| System.ProgramFreesEverythingOnce | src/main.c:135-141 | a run follows a bad pointer, frees twice or uses a destroyed queue exactly if an array creation fails in it, and then only by the store through NULL; at exit every buffer and every list node has been freed once |
| System.ProgramDropsIff | src/threads/frames/analyzer.c:37-51 | in every run of the program a pair is missing from the stream exactly when some step failed to allocate its result or gave it up after a failed push |
| System.ProgramReportsPercentages | src/cpu_diagnostics/linux.c:137-191 | report number i belongs to the i-th pair not dropped and shows for every row the busy share of that row's difference; if the counters do not run backwards, every number lies between 0 and 100; if row 0 sums up the cores, the total lies between any bounds on the cores |
| System.SleepingConsumerMissesNothing | src/data_structures/message_queue.c:92-107 | while the analyzer or the printer sleeps without a signal, its queue holds a message exactly when a push has hung it in and not signalled yet; with the lock free it is empty |
| ThreadOrder.ProgramLives | src/threads/execution_frame.c:7-60 | the life cycle steps of a run of the program are a run of Lifecycle, so its results hold in the program |
| ThreadOrder.NextOfReader | src/threads/frames/reader.c:24-61 | of two moves of the reader with none between, the first a statement of an iteration, the second is the statement the code has next: a failed fopen ends the iteration with -1, a refused array with 0, a failed read or push leads to the free, and everything else through the sleep to 0 |
| ThreadOrder.NextOfAnalyzer | src/threads/frames/analyzer.c:25-67 | likewise; a result is asked for exactly if a snapshot was fetched before, and pushed exactly if it was granted; a fetch that timed out leads back to the loop test |
| ThreadOrder.NextOfPrinter | src/threads/frames/printer.c:22-44 | likewise; a line is printed, freed and slept after exactly if one was fetched |
| ThreadOrder.FirstOfIteration | src/threads/execution_frame.c:23-27 | an iteration begins with the first statement of its frame |
| ThreadOrder.WhoFails | src/threads/frames/analyzer.c:18-21 | of the four frames only the analyzer's init and only the reader's iteration can return other than 0 |
| ThreadOrder.AnswersAreFree | src/threads/frames/reader.c:28-51 | whenever a statement gets one answer of fopen, malloc, fscanf or the clock, it might get any other, and a signal may come at any time before the exit |
| ThreadOrder.TakenAt | src/threads/frames/analyzer.c:29-31 | the snapshots counted as taken are the fetches that brought one |
| MessageQueueAlone.PushAlone | src/data_structures/message_queue.c:26-44 | a push with nobody else inside and memory granted goes through to its return with 0 and appends its message |
| MessageQueueAlone.PopAlone | src/data_structures/message_queue.c:84-109 | a timed pop with nobody else inside and something queued goes through to its return with the first message |
| MessageQueueOrder.NextOfCall | src/data_structures/message_queue.c:26-109 | per thread, of two of its steps with none between: a refused lock ends the call, a push that gets no node still signals, the lock is given up after the signal, and a wait that has ended for whatever reason takes the lock again |
| MessageQueueOrder.SpuriousWakeUp | src/data_structures/message_queue.c:103-105 | a wake-up for no reason, with nothing in the queue, leaves thread and queue as they were |
| MessageQueueOrder.RefusedCall | src/data_structures/message_queue.c:30-33 | any call that is refused the lock leaves everything as it was |
| MessageQueueOrder.PushWithoutNode | src/data_structures/message_queue.c:34-42 | a push that gets no node wakes a sleeping thread, if there is one, and changes nothing else |
| BadLayout.BadLayoutFaults | src/threads/frames/printer.c:39 | for every layout without a row or with fewer than eight columns the program with its real queues has a run, memory always granted, that reads outside a buffer |
| BadLayout.SafeIffGoodLayout | src/main.c:47-49 | no run without a failed creation faults exactly if the layout has a row and eight columns |
| BadLayout.RefusedReaderCrashes | src/cpu_diagnostics/linux.c:66-71 | for every layout with a row there is a run in which the reader is refused its array and stores through NULL |
| BadLayout.GoodLayoutCanCrash | src/cpu_diagnostics/linux.c:66-71 | so for one row and eight columns |
| UsageStream.ReportIsUsage | src/threads/frames/analyzer.c:42-47 | report number i of the stream belongs to the i-th pair that was not dropped, shows for every row the busy share of that row's difference, and there are as many reports as such pairs |
| UsageStream.ReportBounds | src/cpu_diagnostics/linux.c:175-191 | the bounds on percentages, for every report of the stream |
| UsageStream.StreamGrows | src/threads/frames/analyzer.c:25-67 | the stream of fewer pairs is a prefix of the stream of more |
| AnalyzerFrame.Analyzer.constructor | src/threads/frames/analyzer.c:12-22 | prev and curr are NULL, delta is a new array of the layout |
| AnalyzerFrame.Analyzer.Pass | src/threads/frames/analyzer.c:29-64 | one pass: prev becomes the fetched snapshot, the old prev is freed, the usage of the two is pushed exactly when there was a prev and nothing failed; a timeout changes nothing but curr |
| AnalyzerFrame.Analyzer.Loop | src/threads/frames/analyzer.c:25-67 | over any number of passes and calls, what is pushed is the stream less the lost pairs, and every snapshot but the last is freed once |
| AnalyzerFrame.Analyzer.CleanUp | src/threads/frames/analyzer.c:70-78 | frees prev, if there is one, and delta |
| CpuUsage.PercentageIsBusyShare | src/cpu_diagnostics/linux.c:175-191 | the result is the share, in percent, of all that the eight columns count except idle and iowait; 0 if they count nothing |
| CpuUsage.UsageShowsUsage | src/cpu_diagnostics/linux.c:213-222 | every number of a report is that share in the difference of its own row between the two snapshots |
| CpuUsage.PercentageInRange | src/cpu_diagnostics/linux.c:175-191 | with non-negative differences the result is between 0 and 100, a zero total included |
| CpuUsage.WholeBetweenCores | src/cpu_diagnostics/linux.c:175-191 | the percentage of the column-wise sum of the cores lies between any bounds on theirs |
| CpuUsage.DeltaIsWhole | src/cpu_diagnostics/linux.c:137-165 | if row 0 sums up the cores in both snapshots, it does so in their difference |
| CpuUsage.UsageIsPercentage | src/cpu_diagnostics/linux.c:137-191 | with counters that do not run backwards every number reported is between 0 and 100 |
| CpuUsage.TotalReportedBetweenCores | src/cpu_diagnostics/linux.c:213-222 | the total reported lies between the least and the greatest number reported for a core |
| StatArrays.Create | src/cpu_diagnostics/linux.c:65-73 | granted all its memory: rows of the right width, each a block of its own; NULL only without rows; a store through NULL otherwise |
| StatArrays.RowDeltaInto | src/cpu_diagnostics/linux.c:156-165 | result is curr minus old in every column, also when it is one of the two rows itself |
| StatArrays.DeltaInto | src/cpu_diagnostics/linux.c:137-146 | the loop computes the difference of the snapshots, also into one of them; an array apart from the result keeps its contents |
| StatArrays.PercentagesInto | src/cpu_diagnostics/linux.c:213-222 | element r becomes the busy share of row r, in percent, for every row; answers the number of rows; the fields stay as they are |
| StatArrays.Analyze | src/threads/frames/analyzer.c:42-47 | the two calls together compute the usage that the stream is made of: for every row the busy share of the difference of that row; the snapshots stay as they are |
| StatText.CountColumns | src/cpu_diagnostics/linux.c:20-35 | the first loop ends on every text with the columns and the end of the first line |
| StatText.CountLines | src/cpu_diagnostics/linux.c:38-43 | the second loop ends on every text with the line ends met before the first 'i' |
| StatText.SetLayout | src/cpu_diagnostics/linux.c:8-52 | ends on every text, counts the columns and rows that the recursive reading finds, and returns 0 exactly when an 'i' follows |
| StatText.ReadRow | src/cpu_diagnostics/linux.c:112-116 | fills one row as far as the numbers go |
| StatText.ReadStat | src/cpu_diagnostics/linux.c:97-128 | ends on every text, stores exactly the numbers read, in place, and leaves the other cells alone; returns EOF exactly if the text ends before a field the layout asks for, the number of cells before the field if a field mismatches, and 0 if neither happens |
| StatText.CodeTells | src/cpu_diagnostics/linux.c:119-127 | which number comes out, in terms of the row and field at which the reading stops |
| StatText.FillsInOrder | src/cpu_diagnostics/linux.c:109-117 | the cells filled are a prefix in row-major order, complete exactly when the last fscanf succeeded |
| StatText.ZeroWithoutFillingIff | src/cpu_diagnostics/linux.c:119-127 | for every text and layout, 0 comes out with cells left unfilled exactly when a number is asked for and, in the text, a word is followed by something that is not a number |
| StatText.ZeroCanMeanNothing | src/cpu_diagnostics/linux.c:123-125 | a text for which 0 comes out and nothing was filled |
| StatRoundTrip.NumberOfDecimal | src/cpu_diagnostics/linux.c:113 | a number is read back from its decimal digits |
| StatRoundTrip.EveryMatrixIsWritten | src/cpu_diagnostics/linux.c:97-128 | every matrix of naturals can be written as such lines, so the round trip covers all of them |
| StatRoundTrip.LayoutRoundTrip | src/cpu_diagnostics/linux.c:8-52 | for every matrix written as cpu lines, the layout counter returns 0 and its size |
| StatRoundTrip.RoundTrip | src/cpu_diagnostics/linux.c:97-128 | any matrix of naturals, written under labels of two to nine characters with any spacing and followed by "intr", yields its layout and, read with it, itself; both calls return 0 |
| StatRoundTrip.EveryCellIsFilled | src/cpu_diagnostics/linux.c:97-128 | whatever the array held, each cell then holds the number written in its row and column |
| Time.NormIsCanonical | src/utilities/time.c:3-14 | the total is kept, fields get one sign, nanoseconds stay below a second |
| Time.NormDecidesEquality | src/utilities/time.c:3-14 | equal totals iff equal norms; normalising twice changes nothing more |
| Time.AfterAdds | src/utilities/time.c:47-57 | adds exactly, and yields a valid point exactly when the sum is not negative |
| Time.AfterUndoesDur | src/utilities/time.c:90-98 | after(a, dur(a, b)) is b for all points |
| Time.DurUndoesAfter | src/utilities/time.c:47-57 | dur(a, after(a, d)) is d for every canonical span, negative ones and negative ends included |
| Time.GtIsGreater | src/utilities/time.c:59-67 | greater-than on exact totals, for points and canonical spans of either sign |
| Time.AfterIsMonotone | src/utilities/time.c:47-57 | strictly monotone in the point and in the span |
| Time.TimeLeftIsExact | src/utilities/time.c:110-120 | planned end minus start minus actual, exactly and canonical |
| Time.DurAbsIsDistance | src/utilities/time.c:100-108 | the distance of the totals, in either order of the points |
| Time.SpanMsIsExact | src/utilities/time.c:80-88 | already canonical, a million nanoseconds for each unit |
| Time.DurNeverOverflows | src/utilities/time.c:90-108 | between 64-bit points no value on the way overflows and the least 64-bit number is never negated |
| Time.AfterOverflowsIff | src/utilities/time.c:47-57 | with a non-negative sum, no value on the way overflows exactly when the result fits |
| SleepUntil.SleepUntil | src/threads/execution_frame.c:63-68 | under a clock that does not run back and any interruptions: the first span asked for is exactly what lies between the first reading and the deadline, every other exactly what the interrupted sleep before it had left; now plus remaining reaches the deadline at every test, no negative span is asked for, the loop ends after the first sleep that is not interrupted, and on return the deadline is reached |
| Logger.Record.Free | src/logger/log_record.c:42-45 | frees the string and the record, neither of which may have been freed |
| Logger.LogContext.constructor | src/logger/logger.c:30-45 | nothing is queued and everything is let through |
| Logger.LogContext.SetMinSeverity | src/logger/logger.c:69-73 | sets the filter and nothing else |
| Logger.LogContext.PushRecord | src/logger/logger.c:84-98 | a record reaches the back of the queue exactly when it passes the filter and the push succeeds; a refused one stays the caller's |
| Logger.LogContext.Build | src/logger/logger.c:130-150 | a whole record, or none; a string is lost exactly when log_puts gets no memory for the record after copying it |
| Logger.LogContext.Log | src/logger/logger.c:125-158 | the line joins the queue exactly when both allocations succeed, its severity is at least the filter's, and neither the lock nor the node is refused; one record more is built exactly when both allocations succeed; a record not queued is freed on the spot with its string |
| Logger.LogContext.TakeOne | src/logger/logger.c:166-180 | hands the oldest record to the sinks, then frees it; only a refused pop or an empty queue yields nothing |
| Logger.LogContext.ProcessSomeDur | src/logger/logger.c:160-182 | with other threads logging between any two pops, what was printed and what is queued stay together what was accepted, in order |
| Logger.LogContext.ProcessAll | src/logger/logger.c:184-199 | ends, and has then printed everything accepted so far unless its last pop was refused |
| Logger.LogContext.Destroy | src/logger/logger.c:47-54 | what is left is freed and not printed; every record ever built is gone |
| Logger.Session | src/threads/frames/logger.c:19-31 | over a whole run what was printed is a prefix, in push order, of what was accepted, complete up to the end of an unrefused cleanup; as many records were built as calls got both allocations, and each was freed once with its string |
| LoggerThreads.StepKeeps | src/logger/logger.c:84-199 | every step of every logging thread, of the logger and inside the queue keeps: each record alive is in the queue, with one thread, or with the logger, and what was pushed is what was printed, what the logger has taken and what is queued |
| LoggerThreads.MayGoOn | src/logger/logger.c:160-199 | between two records the logger may pop in either way, an idle thread may log, and one that has a record may go on |
| LoggerThreads.DestroyEnds | src/logger/logger.c:47-54 | log_destroy frees what is left, unprinted, and then no record and no node is left |
| LoggerFilter.LoggedInOrder | src/logger/logger.c:84-199 | in every run over the real queue, with any number of threads: what was pushed is, in push order, the lines built at or above the severity asked for whose push succeeded; what was printed is a prefix of it; no record was touched or freed after its free, and after log_destroy each was freed exactly once |
| LoggerFilter.PutIsPushed | src/logger/logger.c:84-98 | the same from any state of a run on: what each step adds is the line its thread built last |
| LoggerFilter.NextOfWriter | src/logger/logger.c:84-158 | per thread, of two of its steps with none between: a record below the severity asked for is refused and freed, any other is offered to the queue, and freed exactly if its push failed |
| LoggerFilter.DiscardedForReason | src/logger/logger.c:84-158 | a record freed unpushed was built below the severity asked for, or its push failed |
| LoggerThreads.DrainedMeansPrinted | src/logger/logger.c:184-199 | whenever the queue is empty and the logger holds nothing unprinted, all that was pushed has been printed |

## Left out

- Files, terminal and signals: /proc/stat is a character sequence, the reports are a sequence; `fopen` may fail; the signal handler is a step that may happen at any time.
- src/utilities/string.c, the format strings and src/logger/output_sinks.c: a sink is given the record's severity and text; which of several sinks fails to print it is not modelled.
- Floating-point rounding and overflow: double is `real`.
- StatText.ReadRow: of the grammar of `%lf` only decimal naturals are read, which is what the kernel writes.
- StatText.ZeroWithoutFillingIff: likewise; a first number such as "-1" or "inf" counts as a mismatch here and is read by `%lf`.
- StatText.ReadStat: likewise, and labels of ten characters and more, which overflow `dummy`, are read like others; and fscanf reads from a character sequence with one position, a stream that fails on reading counting as one that ends there.
- The full grammar of `%lf`: signs, fractions, exponents, "inf" and "nan" are not modelled; numbers are decimal naturals.
- Failures of thrd_create, mtx_init and cnd_init, of fclose, and of a wait other than by timeout.
- Array creation refused memory for a row only: the crash counts at once, where the code crashes at the row's first access. A new array holds zeros in the pipeline and any old contents in `StatText` and `StatArrays`.
- Fairness and liveness: what is proved about all runs is safety, the bounds on the number of further steps or checks, and that the lock holder always has a step.
- Deadlines in the pipeline: any timed wait may time out at any time and the analyzer's loop test may come out either way, which includes every clock.
- The log calls in the frames when they run in the pipeline: they touch the log queue only, which `Logger` models by itself. The logger thread's place in the life cycle is in `Lifecycle`.
- The width of size_t and int in counts and return values.
- The iteration counter and the "finished too fast" message in execution_frame; `Time.GtIsGreater` is the comparison it makes.
- Logger.LogContext.Log: the log queue is a sequence here, and each call takes effect at one moment; the real queue and the interleaving are in `LoggerThreads`.
- LoggerFilter.LoggedInOrder: the logger queue runs beside the pipeline and not in one machine with it, as they share nothing; a record and its string are one there, and calls that get no memory for a record change nothing.
- The fopen of /proc/stat in main, whose NULL is not tested either (src/main.c:47-49): the program begins after it, with any layout.
- AnalyzerFrame.Analyzer.Loop: snapshots hold their cells as a value here; the loops over the cells are in `StatArrays`, the sharing with other threads in `Pipeline`.
- StatArrays.DeltaInto: a result that shares a row with a snapshot under another row number; stat_cpu_array_create_l gives every row its own block.
- MessageQueueRuns.NoLostWakeUp: rests on a signalled wait never being reported as timed out, which is how the model reads section 7.26.3.5 of ISO/IEC 9899:2018; a wait that took a signal and yet answered thrd_timedout would lose it.
- src/logger/severity.c, src/threads/thread_context.c and the reader's, printer's and logger's trivial init and cleanup functions: nothing to prove that is not in their bodies.
