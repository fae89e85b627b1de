# Verification of jobx: cron search, dispatcher protocol, queues and scheduler entries

This project models the two cores of the jobx library and the stateful pieces around them, and proves what their
documentation and tests promise. Where the code keeps less than it intends, the exact condition under which it keeps it
is proved instead, with a concrete input or run on the other side.

**The cron package.** `Calendar` is the proleptic Gregorian calendar and the parts of Go's `time.Date`, `Truncate` and
`AddDate` that the search uses, in a zone a fixed number of seconds east of UTC. Instants passed to `Next` are
nanoseconds; results are whole seconds. `Cron` has the skipping search as loops, and proves that in whole-hour zones it
equals a second-by-second scan; `CronZones` proves that it does so in no other zone. `CronFiring` says exactly when a
search gives up. `GoText` and `CronParse` parse expressions from their text, with 64-bit integers; `CronSteps` says from
the text on which steps are ignored and which make the parser panic; `CronWrappers` and `CronSpacing` take `DailyAt` and
the other wrappers from their arguments to the text they print, the expression it parses to, and its firings.

**The dispatcher as a step machine.** `Machine` makes each lock region and each map, store or channel operation of
`dispatcher.go` and `worker.go` one step of an arbitrary interleaving of clients (submit, cancel, shut down), workers and
the delay loop. A thread stands at a program counter, after some chores it still owes: releasing a name, deleting a
record, sending a signal. The fields `used`, `submitted`, `where` and `seen` only record history. `MachineTokens` keeps
the exact books of hands, heap and ready queue. `MachineEffects` says what each step does to the one job it is about, to
the store, to the in-flight table and to its thread; `MachineSteps` joins these, and `MachineInvariants` builds on nothing
else, and so do `MachineNames`, on who is answerable for a taken name, and `MachineRecords`, on what an ended job leaves in
the store. `MachineTheorems` states what holds in every run. `MachineLimits` gives the configurations in which crash
safety and same-name exclusion hold in every run, and runs that break them in all the others. `MachineLosses` does the
same for due jobs that a closed queue loses or leaves lying, `MachineStrays` for jobs left in the heap after shutdown, and
`MachineLeftovers` for records left behind, which by `MachineRemains` stay until the job is cancelled again.

**The dispatcher as one object.** `Dispatchers` has the operations that loop over the dispatcher's own state as methods
of a class built from `DelayHeaps` (the array heap of `container/heap`, ordered by `RunAt`), `ReadyQueues` (the bounded
FIFO), `StatusTables` and the in-flight table. `CrashRecovery` takes any state of any run of the step machine, restores
its records into a fresh dispatcher of this class, and finds every outstanding job again.

**Wake-ups, backoff, scheduler.** `QueueWakeup` interleaves the retry loops of push and pop around their shared
one-place token. `Backoff` is the delay of `scheduleRetry` in signed 64-bit arithmetic. `SchedulerEntries` interleaves
registration, Stop, Shutdown and the firing goroutines of scheduler entries; `SchedulerShutdown` says what the nil return of
a Shutdown promises.

## Where the code and its intent differ

- `Truncate` works on absolute time, so off the hour grid the search can miss minute 0 for ever (`RightExactlyOnTheHour`).
- A step on a star leaves the field starred, so `*/2` in a day field is ignored (`DayFieldHonoured`; from the text,
  `SteppedStarDay`).
- A huge step makes the loop variable of `parseField` wrap around, and the field array is indexed out of range: `Parse`
  panics, which its fuzz test expects never to happen (`ParsePanicsExactly`; as an example, `DayStepPanics`).
- After a retry has been delayed again, the deferred clean-up of `runEntry` still releases the name and deletes the
  record. Crash safety and exclusion therefore end where retries begin (`CrashSafeExactly`, `ExclusiveExactly`).
- A job that Replace cancels after its admission and before its save is saved all the same, and the worker or the delay
  loop that later meets its tombstone deletes nothing. The record stays until somebody cancels that id again
  (`RecordStays`), and Restore brings the replaced job back after a restart (`ReplacedComesBack`). Only Replace can do this
  (`TidyExactly`).
- `WithRetry` allows 100 retries, but a delay of one second wraps to a negative one at attempt 34 (`OneSecondWraps`).
- `popDue` means never to drop a due job, and ignores a push that fails. When Shutdown closes a full queue between its
  check for a tombstone and its push, the job is lost, uncancelled; only a dispatcher with nothing to submit is free of
  this (`NeverLosesExactly`).
- A closed queue accepts pushes while it has room, also when the workers have gone: a run can come to rest with a job in
  the queue, unless nothing can ever be there (`NeverStrandsExactly`). Such a job was pushed after the queue was closed
  (`LeftBehindCameLate`).
- Waiting pushers and poppers share one token, so each can take the wake-up meant for the other: a popper is left beside a
  full queue (`StealToken`, `SafeExactlyWhenDropping`), and a pusher beside an empty one (`PopperForgetsProducer`).
  `popDue` waits for room whatever the queue policy is. `remove` makes room without a signal (`RemoveForgetsProducer`).
  Pushers are safe exactly when none waits, no room can appear, or there is nobody to make any (`ProducersSafeExactly`).
- After shutdown `drainDelayed` means the heap to be empty. A submission that is past the check of the running flag can
  delay its job after the loop has gone: it stays in the heap with its name and its record (`NeverStraysExactly`,
  `StaysDelayed`, `StraysCameLate`).
- Shutdown of the scheduler means that nothing fires after it. An entry can fire after a nil return exactly when its
  goroutine has not done its last firing by then (`FiresAfterReturnExactly`), and there are two ways to that. The first
  Shutdown misses an entry if and only if its registration is between the table and the wait group when the table is taken
  (`FirstShutdownExactly`); such an entry can even be in the group, and wait to fire, when nil is returned, having joined
  between the wait for the group and the return (`JoinsBeforeReturn`). A repeated Shutdown returns nil at once, while the
  first is still closing channels, is waiting or has timed out (`AgainReturnsEarly`).

## Model

| member | source | states |
|---|---|---|
| Calendar.CivilDate | cron/cron.go:114-137 | every day has a valid civil date, and `time.Date` maps that date back to the day |
| Calendar.DayNumberRoundTrip | cron/cron.go:114-137 | the civil date of the day number of a valid date is that date |
| Calendar.DateInjective | cron/cron.go:128-137 | two valid dates with the same day number are the same date |
| Calendar.MonthRun | cron/cron.go:136-138 | every day before the first of the next month has the same year and month, in order |
| Calendar.ClockRoundTrip | cron/cron.go:114 | the wall-clock fields of an instant, put into `time.Date`, give the instant back |
| Calendar.ClockFields | cron/cron.go:90-128 | day, hour, minute and second of an instant built from them, in any fixed zone |
| Cron.FirstFrom | cron/cron.go:216-223 | the least set index from v on, or -1 when none is set |
| Cron.NextInSet | cron/cron.go:216-223 | the loop finds that least set index |
| Cron.Pass | cron/cron.go:88-140 | one pass of the loop of Next moves t to the jump whose properties follow |
| Cron.JumpProgress | cron/cron.go:88-140 | in any zone a pass either stays, on a second that matches every field, or moves strictly forward from one that does not |
| Cron.SecondSkips | cron/cron.go:90-97 | no second passed over by a second jump has a selected second |
| Cron.MinuteSkips | cron/cron.go:99-106 | no second passed over by a minute jump has a selected minute, in whole-hour zones |
| Cron.HourSkips | cron/cron.go:108-126 | no second passed over by an hour jump has a selected hour |
| Cron.MonthSkips | cron/cron.go:136-139 | every second before the start of the next month lies in the same month |
| Cron.JumpSkips | cron/cron.go:88-140 | in whole-hour zones no second that a pass skips matches |
| Cron.ScanIsLeast | cron/cron.go:88-142 | the skipping loop returns the least matching second before the limit, and fails only when there is none |
| Cron.NaiveIsLeast | cron/cron.go:84-143 | so does the reference scan that tries every second |
| Cron.FastRefinesNaive | cron/cron.go:88-142 | in whole-hour zones the skipping loop and the reference scan agree from any start to any limit |
| Cron.Next | cron/cron.go:85-143 | in whole-hour zones, the least whole second strictly after `after` and before the five-year limit that matches every field and the day rule; the error exactly when there is none |
| Cron.NextIsNaive | cron/cron.go:85-143 | Next is the reference scan over its window |
| Cron.NextN | cron/cron.go:146-161 | the loop computes the repeated search, and fails for n <= 0 or when one search fails |
| Cron.NextNIsFirst | cron/cron.go:146-161 | when it succeeds: the first n matching seconds after `after`, strictly increasing, none omitted |
| Cron.NextNSplits | cron/cron.go:146-161 | n + m firings are n firings followed by the m firings from the last of them, in any zone, failures included |
| CronZones.OffTheHourFails | cron/cron.go:95-104 | in every zone off the hour grid some search fails to return the match within its window |
| CronZones.RightExactlyOnTheHour | cron/cron.go:85-143 | all searches in a zone are right if and only if its offset is a whole number of hours |
| CronFiring.AlwaysFires | cron/cron.go:85-143 | a well-formed expression fires unless only the day of the month restricts the day and no selected date exists in every year |
| CronFiring.OnlyLeapDays | cron/cron.go:85-143 | in that exceptional case every match is a 29 February of a leap year |
| CronFiring.FailsExactly | cron/cron.go:85-143 | Next fails if and only if that case holds and 29 February is not selected, or no selected time of one is left in the five-year window |
| CronFiring.DayFieldHonoured | cron/cron.go:189-237 | with the weekday starred, matching days obey the day field if and only if it is not starred or is full |
| CronFiring.WeekdayFieldHonoured | cron/cron.go:189-237 | the same for the weekday field when the day of the month is starred |
| GoText.AtoiItoa | internal/core/scheduler.go:214-231 | the number parser reads back every 64-bit integer the wrappers print |
| GoText.WordThenRest | cron/cron.go:39 | splitting at white space takes the first word off and splits the rest |
| CronParse.PartInRange | cron/cron.go:173-206 | an accepted part has min <= lo <= hi <= max and a step between 1 and the largest int |
| CronParse.SetSteps | cron/cron.go:207-209 | the inner loop sets the fill of the part, or panics where the fill does |
| CronParse.ParseField | cron/cron.go:169-213 | the loop over the parts computes the field specification, error and panic included |
| CronParse.FieldMeaning | cron/cron.go:169-213 | an error or panic is that of the first bad part; otherwise index i is set exactly when some part has lo <= i <= hi and its step divides i - lo, and the set is non-empty and within [min, max] |
| CronParse.FieldPanicsExactly | cron/cron.go:207-209 | parsing a field panics if and only if its first bad part is well formed but has a step that overflows |
| CronParse.StepTextPanics | cron/cron.go:178-209 | the text value/step panics if and only if value + step exceeds the largest int |
| CronParse.Parse | cron/cron.go:38-82 | the stepwise method returns the specified expression, error or panic |
| CronParse.FiveMeansSix | cron/cron.go:45-55 | a five-field text and the same text with a leading 0 parse alike |
| CronParse.ParsedWellFormed | cron/cron.go:38-82 | every accepted expression is well formed: each field non-empty and in range |
| CronSteps.SteppedStarDay | cron/cron.go:178-237 | "0 0 0 */n * *" parses for every n below the largest int to a starred day field with every n-th day, and its days obey that field if and only if n is 1; the largest int panics |
| CronSteps.ParsePanicsExactly | cron/cron.go:38-82 | Parse panics if and only if there are five or six fields and the first one that is not accepted has an overflowing step as the first thing wrong with it |
| CronSteps.DayStepPanics | cron/cron.go:38-82 | the text "* * * v/n * *" panics if and only if v + n exceeds the largest int |
| CronWrappers.NumberField | internal/core/scheduler.go:214-231 | a printed number is accepted exactly when in range, and selects only itself |
| CronWrappers.EveryMinuteParses | internal/core/scheduler.go:214-216 | EveryMinuteAt is accepted exactly for second 0-59, never panics, and parses to the expression meant |
| CronWrappers.EveryHourParses | internal/core/scheduler.go:219-221 | EveryHourAt, exactly for minute 0-59 |
| CronWrappers.DailyParses | internal/core/scheduler.go:224-226 | DailyAt, exactly for hour 0-23 and minute and second 0-59 |
| CronWrappers.WeeklyParses | internal/core/scheduler.go:229-231 | WeeklyAt, exactly for weekday 0-6 and the same times |
| CronWrappers.EveryHourIsParsed | internal/core/scheduler.go:219-221 | the expression that goes wrong off the hour grid is EveryHourAt(0) |
| CronSpacing.PeriodicNext | cron/cron.go:85-143 | an expression that matches one phase of a period next fires at the first instant on that phase |
| CronSpacing.EveryMinuteFires | internal/core/scheduler.go:214-216 | from any instant the n firings are the given second, exactly 60 s apart |
| CronSpacing.EveryHourFires | internal/core/scheduler.go:219-221 | the given minute at second 0, exactly 3600 s apart |
| CronSpacing.DailyFires | internal/core/scheduler.go:224-226 | the given time of day, exactly 86400 s apart |
| CronSpacing.WeeklyFires | internal/core/scheduler.go:229-231 | the given weekday and time of day, exactly 604800 s apart |
| Backoff.ExactWhenItFits | internal/core/worker.go:109-114 | the delay is RetryDelay * 2^Attempt if and only if that product is at most 2^63 - 1 |
| Backoff.DelaysDouble | internal/core/worker.go:109-114 | while the last delay fits, delays double and k retries wait RetryDelay * (2^k - 1) in all |
| Backoff.AllDelaysFit | internal/core/worker.go:109-114 | all delays of a job are as meant if and only if its last one fits |
| Backoff.OneSecondWraps | internal/core/job.go:68-79 | the limit of 100 retries does not keep one second in range |
| StatusTables.StatusTable.MarkStatus | internal/core/dispatcher.go:527-539 | the new table is the specified one |
| StatusTables.StatusTable.JobStatus | internal/core/dispatcher.go:230-238 | the recorded status, or not found |
| StatusTables.MarkKeeps | internal/core/dispatcher.go:527-539 | a write keeps order and keys in agreement, keeps the written id, and evicts at most the oldest, and only when full |
| StatusTables.ReplayAgrees | internal/core/dispatcher.go:527-539 | after any calls: no duplicates, order and keys agree, at most 10000, the most recent entries are kept, each with its last status |
| ReadyQueues.ReadyQueue.TryPush | internal/core/ready_queue.go:25-41 | one pass of push: verdict, new items, and a signal exactly when it pushed |
| ReadyQueues.ReadyQueue.TryPop | internal/core/ready_queue.go:52-66 | one pass of pop: verdict, new items, and a signal exactly when it popped |
| ReadyQueues.ReadyQueue.Remove | internal/core/ready_queue.go:75-85 | the first entry with the id is taken out, found or not is reported, no signal is sent |
| ReadyQueues.ReadyQueue.Close | internal/core/ready_queue.go:88-96 | closing keeps the items, is idempotent, and leaves a token |
| ReadyQueues.StepRefines | internal/core/ready_queue.go:25-96 | each lock region keeps the refinement of the bounded FIFO |
| ReadyQueues.QueueIsFifo | internal/core/ready_queue.go:25-96 | over any events the length stays within cap, each pushed entry has one fate, and waiting and delivered entries are in push order |
| ReadyQueues.ExitMeansDone | internal/core/worker.go:12-21 | a worker leaves only when the queue is closed and every accepted entry was delivered or removed |
| QueueWakeup.DropStep | internal/core/ready_queue.go:25-104 | with dropping pushes every step keeps a sleeping popper beside items covered by a token, an owed signal or another popper |
| QueueWakeup.StealToken | internal/core/ready_queue.go:42-47 | with waiting pushes, a run that ends with a popper asleep beside a full queue and no wake-up pending |
| QueueWakeup.SafeExactlyWhenDropping | internal/core/ready_queue.go:25-104 | poppers are never forgotten in any run if and only if no push waits, there is no room, or there is at most one thread |
| QueueWakeup.RemoveForgetsProducer | internal/core/ready_queue.go:75-85 | a run in which remove leaves a pusher, even on its own, asleep beside a free slot |
| QueueWakeup.PopperForgetsProducer | internal/core/ready_queue.go:52-71 | a run without any removal that ends with a pusher and a popper asleep beside an empty queue and no wake-up pending |
| QueueWakeup.ProducersSafeExactly | internal/core/ready_queue.go:25-104 | pushers are never forgotten in any run if and only if none waits, there is no room, there is no thread, or there is one and nothing is removed |
| DelayHeaps.RootIsFirst | internal/core/dispatcher.go:52-59 | the root of a heap runs no later than any entry |
| DelayHeaps.DelayHeap.Up | internal/core/dispatcher.go:52-59 | sifting up restores the heap and keeps its contents |
| DelayHeaps.DelayHeap.Down | internal/core/dispatcher.go:52-59 | sifting down restores the order below and keeps contents and tail |
| DelayHeaps.DelayHeap.Push | internal/core/dispatcher.go:392-395 | a heap again, with exactly the new entry added |
| DelayHeaps.DelayHeap.RemoveAt | internal/core/dispatcher.go:496-503 | a heap again after removal from any position, with exactly that entry gone |
| DelayHeaps.DelayHeap.Pop | internal/core/dispatcher.go:457 | an entry that runs first, and exactly that one gone |
| Machine.InFlightTable.Admit | internal/core/dispatcher.go:290-315 | the lock region of applyConflict: the verdict, the replaced ids and the new table for each policy |
| Machine.InFlightTable.Add | internal/core/dispatcher.go:327-334 | the id joins the set of its name |
| Machine.InFlightTable.Release | internal/core/dispatcher.go:337-351 | the id leaves the set of the name, and an emptied set leaves the table |
| MachineInvariants.TableMeaning | internal/core/dispatcher.go:327-351 | adding and releasing change one name's set by the one id |
| MachineTokens.Relocate | internal/core/dispatcher.go:392-468 | moving one job between hand, heap and queue keeps the books of all three exact |
| MachineTokens.StepTokens | internal/core/dispatcher.go:148-518 | every step keeps the exact books: each used id is in one hand, the heap, the queue or at its end, with multiplicity one |
| MachineSteps.StepEffect | internal/core/worker.go:24-122 | every step moves at most one job along its life cycle, writes or erases at most one record, lists or releases at most one name, and owes only justified chores |
| MachineInvariants.StoryKept | internal/core/worker.go:24-122 | every step keeps each job's fields, its attempt within MaxRetries and its activations in order |
| MachineInvariants.StoreKept | internal/core/dispatcher.go:164-190 | every step keeps the record of each outstanding first attempt; rests on saving before enqueueing and on tombstones before deletes |
| MachineInvariants.FlightKept | internal/core/dispatcher.go:290-357 | every step keeps at most one listed id per name, and each first attempt that holds its name listed |
| MachineNames.ListedKept | internal/core/dispatcher.go:290-357 | every step keeps each taken name with a job of that name that is alive, was lost, or whose release is under way |
| MachineNames.OrderKept | internal/core/dispatcher.go:354-357 | every step keeps the order of releases: a recorded name is forgotten only after its in-flight entry is gone |
| MachineInvariants.EndKept | internal/core/dispatcher.go:445-518 | every step keeps a cause for each job that was given up |
| MachineInvariants.WakeKept | internal/core/dispatcher.go:392-442 | every step keeps the wake-up of the delay loop |
| MachineInvariants.DueKept | internal/core/dispatcher.go:445-468 | every step keeps the queue and the workers to jobs whose time has come |
| MachineInvariants.CancelledStops | internal/core/worker.go:27-31 | no step of any thread adds to the activations a tombstoned id has had or can still have |
| MachineTheorems.InvKept | internal/core/dispatcher.go:148-518 | every step of every thread keeps all invariants together |
| MachineTheorems.Always | internal/core/dispatcher.go:148-518 | every state of every run satisfies them |
| MachineTheorems.SingleToken | internal/core/worker.go:24-122 | in every state no id is carried by two threads, delayed or ready twice, or in two of these places |
| MachineTheorems.AttemptsInOrder | internal/core/worker.go:24-122 | the handler sees attempts 0, 1, 2, ... of an otherwise unchanged job, at most MaxRetries + 1 of them |
| MachineTheorems.HandlersDoNotOverlap | internal/core/worker.go:50-75 | two threads are never in the handler of the same id, and the k-th activation sees Attempt k - 1 |
| MachineTheorems.FirstAttemptSafe | internal/core/dispatcher.go:148-192 | in every state an outstanding first attempt is in the store with the fields it was submitted with |
| MachineTheorems.FirstAttemptsExclusive | internal/core/dispatcher.go:290-357 | under Skip and Replace two active first attempts never share a name |
| MachineTheorems.FirstAttemptsOnly | internal/core/worker.go:81-84 | without retries, handlers or room every job stays on its first attempt |
| MachineTheorems.LoopNeverOversleeps | internal/core/dispatcher.go:402-442 | whenever the delay loop waits past some delayed job a signal is buffered or owed |
| MachineTheorems.NeverEarly | internal/core/dispatcher.go:445-468 | no handler runs a job, and no job is ready, before its RunAt |
| MachineTheorems.RetryIsDelayed | internal/core/worker.go:109-118 | an attempt changes only by one, after a failure with retries left, and is then due its backoff delay later |
| MachineTheorems.CancelIsFinal | internal/core/dispatcher.go:495-524 | tombstones stay, and past and still possible activations together never grow after one |
| MachineTheorems.CancelledRunsAtMostOnceMore | internal/core/worker.go:27-31 | after a tombstone the handler starts at most once more, and not at all if no worker was past its first check |
| MachineTheorems.TombsAreUsed | internal/core/dispatcher.go:240-247 | in every run only submitted jobs are tombstoned, under cancellation, or about to be replaced |
| MachineTheorems.TakenNamesAnswered | internal/core/dispatcher.go:290-357 | an id that takes a name belongs to an admitted job of that name that is alive, was lost to a closed queue, or whose release some thread still owes |
| MachineTheorems.NamesFreeAtRest | internal/core/dispatcher.go:337-357 | with no clean-up and no cancellation under way, only living jobs take names, and lost ones once the queue is closed |
| MachineTheorems.NoneAcceptedAfterShutdown | internal/core/dispatcher.go:163-166 | no job submitted after Shutdown has begun is ever saved or queued |
| MachineTheorems.NothingLost | internal/core/dispatcher.go:445-518 | every submitted job is in a hand, the heap or the queue, was refused before running, has run, or was given up to a cancellation, a stopped loop or a closed queue |
| MachineLimits.RetryWaits | internal/core/worker.go:41-49 | a run in which a retry waits in the heap while its name is released and its record deleted |
| MachineLimits.CrashSafeExactly | internal/core/worker.go:41-49 | with a store every run is crash-safe if and only if no job can be retried: no retries allowed, no handlers, or a queue without room |
| MachineLimits.ExclusiveExactly | internal/core/dispatcher.go:290-357 | every run keeps same-name exclusion if and only if there are no handlers, or the policy is not Allow and no job can be retried |
| MachineLosses.FillsQueue | internal/core/dispatcher.go:459-464 | under every conflict policy a queue of any size can be filled from one handler: a job cancelled between the check and the push of popDue is pushed all the same, and its name is free |
| MachineLosses.LosesDue | internal/core/dispatcher.go:459-466 | a run that loses a due job nobody cancelled, for every policy and queue size |
| MachineLosses.NeverLosesExactly | internal/core/dispatcher.go:459-466 | no run loses an uncancelled job if and only if there is nothing to submit |
| MachineLosses.NeverStrandsExactly | internal/core/ready_queue.go:28-41 | no run comes to rest with a job in the queue and the worker gone if and only if there is nothing to submit or no room |
| MachineLosses.LeftBehindCameLate | internal/core/worker.go:12-21 | in every run, what is in the queue once a worker has gone was pushed after the queue had been closed |
| MachineStrays.StaysDelayed | internal/core/dispatcher.go:187-190 | a run that comes to rest, with loop and worker gone, and leaves an uncancelled job in the heap with its name and its record |
| MachineStrays.NeverStraysExactly | internal/core/dispatcher.go:471-487 | no run comes to rest with a job in the heap and the loop gone if and only if there is nothing to submit |
| MachineStrays.StraysCameLate | internal/core/dispatcher.go:471-487 | in every run, what is in the heap once the loop has gone was delayed after shutdown had found the heap empty |
| MachineRecords.RecordKept | internal/core/dispatcher.go:495-518 | every step that tombstones no unsaved job keeps each ended or tombstoned record with its deletion under way |
| MachineRecords.EndedLeavesNoRecord | internal/core/worker.go:41-49 | with a reliable store, an ended job that was not tombstoned before its save has no record, or its deletion is under way |
| MachineRecords.RemovedLeavesNoRecord | internal/core/dispatcher.go:495-511 | the same for a job that a cancellation took out of heap or queue: no record, or the tombstone or the deletion is under way |
| MachineRecords.TombsFindSaved | internal/core/dispatcher.go:240-247 | unless the policy is Replace, every tombstone finds its job saved |
| MachineRecords.TidyWithoutReplace | internal/core/dispatcher.go:495-518 | so without Replace no job that has ended or was taken out by a cancellation keeps a record in any run |
| MachineLeftovers.ReplacedUnsaved | internal/core/dispatcher.go:316-318 | a run in which a job is tombstoned and its record deleted before it is saved |
| MachineLeftovers.LeavesRecord | internal/core/dispatcher.go:459-463 | that run goes on to save, delay and discard the job; its record is left, with nothing under way that could delete it |
| MachineRemains.RecordStays | internal/core/dispatcher.go:240-247 | such a record stays in every continuation in which nobody calls Cancel for that id |
| MachineLeftovers.TidyExactly | internal/core/dispatcher.go:290-324 | with a reliable store, ended and removed jobs leave no record in any run if and only if the policy is not Replace or there are no handlers |
| Dispatchers.FilledTakesFirst | internal/core/dispatcher.go:457-464 | pushes whose errors are ignored fill the queue in order and lose what exceeds its room |
| Dispatchers.Dispatcher.ReleaseJob | internal/core/dispatcher.go:354-357 | the id leaves the in-flight set of its name, unless the policy is Allow, and the name table |
| Dispatchers.Dispatcher.PushDelayed | internal/core/dispatcher.go:392-400 | the heap gains exactly the entry, and a signal is buffered |
| Dispatchers.Dispatcher.TakeDue | internal/core/dispatcher.go:448-458 | takes an entry that runs first if it is due; otherwise nothing in the heap is due |
| Dispatchers.Dispatcher.PopDue | internal/core/dispatcher.go:445-468 | whenever the queue is closed or has room for the due entries that are not tombstoned: moves exactly the entries not after now, in time order, drops tombstoned ones, and leaves the others a heap; contents are conserved |
| Dispatchers.Dispatcher.DrainDelayed | internal/core/dispatcher.go:471-487 | empties the heap, and deletes, marks and releases exactly its contents |
| Dispatchers.Dispatcher.RemoveDelayed | internal/core/dispatcher.go:496-503 | one entry with the id is gone from the heap, or there was none and nothing changed |
| Dispatchers.Dispatcher.CancelById | internal/core/dispatcher.go:495-518 | tombstone, heap, queue, name, in-flight set, record and status after a cancellation |
| Dispatchers.Dispatcher.ApplyConflict | internal/core/dispatcher.go:290-324 | Skip refuses exactly while the name is taken; Replace tombstones and erases exactly the replaced ids, and takes one entry with each out of queue and heap; the new id is listed |
| Dispatchers.ClearedNext | internal/core/dispatcher.go:316-318 | the replaced ids leave the same queue in whatever order they are cancelled |
| Dispatchers.TakenNext | internal/core/dispatcher.go:316-318 | cancelling one more id takes one entry with it out of the heap, if there is any, and no other |
| Dispatchers.Dispatcher.Submit | internal/core/dispatcher.go:148-192 | for any number of entries that workers take while it waits: accepted exactly when running, saved, not skipped, and with room for a due job once the replaced and the taken ones are gone; an accepted job is ready or delayed by its time, recorded, listed and marked; a refused one leaves no trace; queue and heap are otherwise what the replacement leaves |
| Dispatchers.Dispatcher.Deliver | internal/core/dispatcher.go:172-190 | a saved job is delivered if and only if it is delayed or the queue has room once workers have taken what they take, and is undone otherwise |
| Dispatchers.Dispatcher.ScheduleRetry | internal/core/worker.go:109-119 | the next attempt is saved, delayed and marked |
| Dispatchers.Dispatcher.Conclude | internal/core/worker.go:76-93 | the status after the handler, and a next attempt delayed exactly when it is Delayed |
| Dispatchers.Dispatcher.RunEntry | internal/core/worker.go:24-94 | the status each outcome leaves, what it delays or takes out, and that no attempt leaves name or record behind, not even one that has just been delayed again |
| Dispatchers.Dispatcher.Restore | internal/core/dispatcher.go:196-227 | whatever workers take meanwhile: succeeds when the due records with a handler fit into the queue, only then if nothing is taken, and always if workers keep taking; then served records are delayed or ready by their time in listed order, unserved ones are deleted, and the count is exact; otherwise it ends at the first record that finds no room, with the earlier ones back |
| CrashRecovery.ServedAre | internal/core/dispatcher.go:205-210 | the served records are exactly those whose handler is registered |
| CrashRecovery.SplitByTime | internal/core/dispatcher.go:214-223 | each served record goes to the heap or to the queue, by its time alone, and to one of them once |
| CrashRecovery.OutstandingListed | internal/core/dispatcher.go:196-227 | a first attempt outstanding in any state of any run is among the records with its fields, and its handler is registered |
| CrashRecovery.RestartAfterCrash | internal/core/dispatcher.go:196-227 | after a crash in any state, Restore into a fresh dispatcher, whose workers may take entries meanwhile, succeeds under the same conditions, and then brings every outstanding first attempt back with its fields, and without retries every outstanding job |
| CrashRecovery.ReplacedComesBack | internal/core/dispatcher.go:196-227 | from the state LeavesRecord reaches, Restore brings the cancelled job back |
| SchedulerEntries.EntryTable.Register | internal/core/scheduler.go:301-309 | the table moves as in the step machine: the entry joins it unless the scheduler has stopped, and the others keep their names |
| SchedulerEntries.EntryTable.Take | internal/core/scheduler.go:245-253 | Stop takes the entry out, or reports that it is not there, and the table moves as in the step machine |
| SchedulerEntries.EntryTable.TakeAll | internal/core/scheduler.go:260-272 | the first Shutdown takes every entry, later ones none, and the table moves as in the step machine |
| SchedulerEntries.ListedExactly | internal/core/scheduler.go:245-330 | in every state the table holds exactly the entries whose stop channel is open and held by no Stop or Shutdown, and whose goroutine has not removed itself |
| SchedulerEntries.LeftForGood | internal/core/scheduler.go:326-330 | an entry that has left the table never comes back, so a later Stop reports it as unknown |
| SchedulerEntries.CallersKept | internal/core/scheduler.go:245-276 | every step keeps each stop channel with one holder that has not closed it |
| SchedulerEntries.InvKept | internal/core/scheduler.go:100-330 | every step keeps ownership, entry states, registrations under way, the table, the wait-group count and the order of Shutdown |
| SchedulerEntries.StopClosedOnce | internal/core/scheduler.go:254-276 | in every state each stop channel has been closed at most once, and only its one holder can close it |
| SchedulerEntries.StopIsFinal | internal/core/scheduler.go:245-257 | once Stop has returned nil the entry never fires again |
| SchedulerShutdown.CanFireExactly | internal/core/scheduler.go:112-129 | at any moment of any run an entry can still fire if and only if its goroutine has not done its last firing |
| SchedulerShutdown.FiresAfterReturnExactly | internal/core/scheduler.go:260-287 | so after every nil return, of a Shutdown that waited or of a repeated one |
| SchedulerShutdown.EmptyMeansEnded | internal/core/scheduler.go:277-281 | when the wait group is seen empty every entry has done its last firing, but for those registered and not yet in the group |
| SchedulerShutdown.JoinedMeansEnded | internal/core/scheduler.go:277-287 | a Shutdown that waited returns nil only after such a moment, and from then on only those entries can fire |
| SchedulerShutdown.FirstShutdownExactly | internal/core/scheduler.go:260-287 | no entry fires after the nil return of the first Shutdown, in any continuation, if and only if no registration is between the table and the wait group when it takes the table |
| SchedulerShutdown.UnderWayReached | internal/core/scheduler.go:110-114 | a run in which the first Shutdown finds a registration between the table and the wait group |
| SchedulerShutdown.JoinsBeforeReturn | internal/core/scheduler.go:277-284 | once the group has been seen empty, such an entry can join it before Shutdown returns nil, and is then in the group and waits to fire |
| SchedulerShutdown.AgainReturnsEarly | internal/core/scheduler.go:262-265 | a run in which a repeated Shutdown returns nil while an entry in the wait group goes on to fire |

## Left out

- Daylight-saving changes: zones have a fixed offset, so the branch that skips wall-clock hours missing from a day always finds its hour.
- The years before 1 and after 9999, the range of Go's time type and its rounding of nanoseconds: instants are unbounded integers.
- Invalid UTF-8 in expressions: text is a sequence of characters.
- Error messages, error codes and the raw text kept for `String`: errors are told apart only where callers can act on them.
- Restore inside the step machine: it bypasses the conflict check and may add an id a second time, so the results about runs are for dispatchers that are filled by Submit; Restore is a method of the sequential class.
- Statuses in the step machine: they are written after the step they describe and steer nothing but Cancel, which here may name any id that has been queued or cancelled.
- The table of running contexts, timeouts and cooperative cancellation of a handler: flags of the handler's own context.
- Handler bodies and panics: an activation returns success or failure, and a panic is a failure.
- Metrics, logging, event and trace hooks: callbacks without effect on the protocol.
- Random ids and name validation: a submitted id is one never used before.
- Two clocks: the configured clock and the wall clock are one clock that never goes back.
- Wake-ups of the ready queue inside the step machine: a sleeping thread there wakes whenever the queue lets it go on; module QueueWakeup treats the token.
- Liveness: fairness, how long Shutdown takes, and that a buffered signal is eventually taken.
- The second Shutdown of the dispatcher and the wait for its workers: the step machine allows repeated shutdowns and says nothing of their return.
- Failing Delete calls in the sequential class: the step machine has them.
- The time of a wait in the sequential class: workers take entries before the push that would wait, and a push that then still finds the queue full fails; popDue, whose push has no context to end, is stated for a closed queue or one with room.
- Go slices sharing memory after an append, and the capacity of channels: sequences are values and tokens are flags.
- The next-fire time shown in snapshots of scheduler entries, and the timers of their goroutines: a waiting goroutine may ring at any time.
