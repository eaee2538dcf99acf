# A verified model of the sylar fiber runtime

sylar is a coroutine runtime: worker threads take fibers and callbacks from a shared list, fibers wait for
timers, descriptors and semaphores by switching out, and blocking calls such as `read` and `connect` are
turned into such waits. This project models the protocol that joins these pieces, and three separate cores
(the log pattern parser, log reconfiguration and the IPv6 printer), and proves what they promise.

| file | models |
|---|---|
| `Common.dfy` | an option type, and sums of multisets |
| `TaskQueue.dfy` | the scheduler's task list: `schedule` and the scan of `run` |
| `Runtime.dfy`, `RuntimeSafety.dfy`, `RuntimeTheorems.dfy` | workers, fibers, idle loops and shutdown as a step system; its invariant; the theorems over runs |
| `Shutdown.dfy` | what the three reads of the shutdown test buy |
| `TaskFlow.dfy`, `RunLoop.dfy` | conservation of tasks over runs; the task list, fiber states and workers step by step |
| `TimerSet.dfy`, `Timers.dfy`, `TimerRuns.dfy`, `TimerWakeUps.dfy` | the ordered timer set; `TimerManager`; histories of timer operations; when the sleeping thread is told |
| `IoLedger.dfy`, `IoManager.dfy` | registrations as tickets; `IOManager` with the kernel's interest table |
| `TimedIo.dfy`, `TimedIoResults.dfy` | `do_io` and `connect_with_timeout` among clock, expiry, callbacks, readiness and `close` |
| `FiberSemaphore.dfy` | `FiberSemaphore` |
| `Clients.dfy` | the blocking calls and the semaphore as clients of the runtime |
| `LogPattern.dfy`, `LogPatternRoundTrip.dfy`, `LogPatternGrammar.dfy` | the pattern parser; patterns and piece lists determine each other; the grammar as rules on text |
| `LogConfig.dfy` | the listener on the `logs` setting, driven by `ConfigVar::setValue` |
| `Ipv6Text.dfy` | the printing loop of `IPv6Address`, and a reader for the text form of section 2.2 of RFC 4291 |

`dafny verify dfyconfig.toml` verifies everything.

## How the concurrent parts are modelled

A step is one locked section, one atomic counter update, one write of a fiber's state or one context switch;
any other thread may act between two steps. The theorems hold for every sequence of steps, any number of
workers and fibers. System calls give arbitrary results, kernel calls may fail, the clock is an input.
A *wake-up* is the right to schedule a fiber once. The rule that the runtime model demands of fibers is: register
one wake-up, switch out with `YieldToHold` while it is outstanding, end with none. `Clients.dfy` proves that the
blocking calls and the semaphore keep it: each of their steps is a step that the runtime allows.

## What turned out not to hold, and exactly when it does

- **Shutdown.** `IOManager::stopping` makes three reads under three locks. A timer added between the first and
  the last is lost: `StaleStopLosesTimer` is a run in which every worker leaves with a timer armed. `ShutdownExact`
  gives the exact condition, in terms of the steps others took during the test that ended the last idle fiber: as
  many timers were taken out as were added after its first read, and as many events as were added after its second.
  `QuietShutdown` is the case in which nothing was added, `OrderlyShutdown` the case of three reads in one step.
- **Dispatch.** `idle` drops a report only if nothing of it is registered, and then triggers every reported
  direction. `Dispatch` and `DispatchAll` state that the assertion in `triggerEvent` fails if and only if some
  report is partly stale; `PartlyStaleReport` runs the manager's own operations into one.
- **Timeouts of `do_io`.** A timeout callback of an earlier attempt may run while the fiber is in its next system
  call. It sets `cancelled`, finds nothing to cancel, and every later callback of the call returns at the flag:
  the next wait has no timeout (`LostTimeout`). `TimeoutExact` says exactly when a wait can time out, at every moment
  of it, also when the kernel call of a callback's `cancelEvent` fails; `TimeoutAtAdd` asks just before `addEvent`.
- **Timer notification.** Refreshing, and re-arming a recurring timer, notify nobody. `WakeUpExact` says, for any clock
  and with wrap-around, that the sleeping thread has always been told if and only if no event was silent: no refresh
  and no re-arming computed a deadline before the one it knows while the flag was down. With a clock that does not
  go back none is (`TimerWakeUp`); `SilentRefresh` is one after a step back.
- **`%%` in log patterns** is not an escape, because only one character is skipped. `EscapeExact` says that a pattern is
  read as it would be with the escape if and only if no doubled percent sign occurs in it outside braces;
  `TrailingPercent` shows that no pattern ending in a percent sign, doubled or not, is even accepted.
- **Empty braces.** `PrintParsed` says that a pattern is the text of its pieces if and only if no conversion carries
  an empty `{}`.

## Model

| member | source | states |
|---|---|---|
| `TaskQueue.Scheduler.ScheduleNoLock` | sylar/sylar/scheduler.h:102-110 | an empty task is dropped, any other goes to the back with its pin; a tickle is asked for exactly when the list was empty |
| `TaskQueue.Scheduler.ScheduleAll` | sylar/sylar/scheduler.h:66-77 | a batch goes to the back in order and unpinned; a tickle is asked for exactly when the list was empty before the batch |
| `TaskQueue.UnpinnedMeans` | sylar/sylar/scheduler.h:66-77 | what a batch appends is, in order, its non-empty tasks, for any thread |
| `TaskQueue.Pick` | sylar/sylar/scheduler.cpp:156-167 | the result is the first entry that is neither pinned elsewhere nor an executing fiber |
| `TaskQueue.ScanMeans` | sylar/sylar/scheduler.cpp:156-175 | in the entries' own fields: where the scan stops, and when it asks for a tickle |
| `TaskQueue.Scheduler.Take` | sylar/sylar/scheduler.cpp:149-180 | the scan takes that first entry, keeps the order of the rest, counts the worker active, and asks for a tickle exactly when it skipped an entry pinned elsewhere or left one behind its stopping point |
| `TaskQueue.LedgerFollowsQueue` | sylar/sylar/scheduler.cpp:153-174 | the list operations are those of the ticketed list that conservation is stated on |
| `TaskQueue.QueueConservation` | sylar/sylar/scheduler.cpp:149-180 | over every run of pushes and scans by any workers, each accepted entry is queued or was taken, once in all, and the queued ones are in arrival order |
| `RuntimeSafety.StepShape` | sylar/sylar/scheduler.cpp:149-228 | every step keeps the agreement of fiber states, stacks, spare callback fibers and outstanding wake-ups, and passes the assertions of `swapIn`, `reset` and `YieldToHold` |
| `RuntimeSafety.StepCount` | sylar/sylar/scheduler.cpp:168-213 | on every path of the loop the active count equals the number of workers holding a taken entry |
| `RuntimeTheorems.SingleRunner` | sylar/sylar/fiber.cpp:134-181 | in every reachable state no two workers are on one fiber's stack, EXEC means on a stack, each fiber has at most one wake-up, and no assertion of the next step can fail, also when the wake-up was queued before the fiber switched out |
| `Shutdown.RunSees` | sylar/sylar/iomanager.cpp:317-322 | a worker in the middle of its test may conclude that the timers, and after the second read the events, that are there now are exactly those added less those taken out since it read |
| `Shutdown.ShutdownExact` | sylar/sylar/iomanager.cpp:317-328 | with all workers gone, nothing is left if and only if, during the test that ended the last idle fiber, as many timers and events were taken out as were added after the reads of them |
| `Shutdown.QuietShutdown` | sylar/sylar/iomanager.cpp:317-365 | if nobody adds a timer or event while that test goes on, then no task, timer, event or active worker is left and every fiber has ended, but for spare callback fibers and those waiting on a semaphore |
| `Shutdown.OrderlyShutdown` | sylar/sylar/scheduler.cpp:136-244 | with `stopping()` read in one step, whenever all workers have left, nothing is left in that sense |
| `Shutdown.WorkIsDriven` | sylar/sylar/scheduler.cpp:214-228 | as long as there is a task, timer, event, active worker or batch of expired callbacks, some worker's idle fiber is alive, unless a last test was disturbed |
| `RuntimeTheorems.StaleStopLosesTimer` | sylar/sylar/iomanager.cpp:317-322 | there is a run in which every worker leaves with a timer still armed |
| `RuntimeTheorems.FreshOrStranded` | sylar/sylar/iomanager.cpp:317-365 | after a stale last test no step, ever, gets the remaining timers or events driven again |
| `TaskFlow.TaskConservation` | sylar/sylar/scheduler.cpp:149-217 | over every run, of every task: as many were posted, spawned, armed, delivered or re-issued as are waiting somewhere or were started, skipped or discarded |
| `TaskFlow.AllWorkDone` | sylar/sylar/scheduler.cpp:136-244 | after an undisturbed shutdown every task ever issued was started, skipped or discarded, but for wake-ups still with a semaphore |
| `RunLoop.ListEvolves` | sylar/sylar/scheduler.cpp:153-175 | a scan takes out the first entry it may take; every other step appends exactly what was scheduled, fired, dispatched or expired, in order and with its pin |
| `RunLoop.FiberLife` | sylar/sylar/fiber.cpp:100-214 | in every run each fiber goes INIT or HOLD to EXEC at the switch, EXEC to TERM or EXCEPT at its end, EXEC to HOLD when its worker says so, and a callback fiber back to INIT |
| `RunLoop.LoopFollowed` | sylar/sylar/scheduler.cpp:149-234 | each step moves its own worker along the loop of `run`, `idle` and the shutdown test, and no other worker |
| `RunLoop.FlagsFollow` | sylar/sylar/scheduler.cpp:84-105 | the two flags of `stop` are set by its two steps, in order, and never cleared |
| `TimerSet.ComparatorOrders` | sylar/sylar/timer.cpp:9-27 | the comparator is by deadline, then by identity, null first; a strict order, total on different timers |
| `TimerSet.FindNeverMisses` | sylar/sylar/timer.cpp:47 | in the ordered set `find` by current deadline and identity finds whatever is a member |
| `TimerSet.RolloverMeans` | sylar/sylar/timer.cpp:188-196 | rollover means the clock went back by more than an hour, or at all if the previous time is below one hour, where the unsigned subtraction wraps |
| `TimerSet.SentinelDoesNotMatter` | sylar/sylar/timer.cpp:155-159 | `lower_bound` of the sentinel and the walk over equal deadlines end at the first timer that is not due, whatever the sentinel's address |
| `Timers.TimerManager.Cancel` | sylar/sylar/timer.cpp:43-52 | true exactly when the timer was armed; disarms and removes just that timer; the set stays ordered and holds exactly the timers with a callback |
| `Timers.TimerManager.Refresh` | sylar/sylar/timer.cpp:54-67 | moves an armed timer to now plus its period and changes no other object, keeps the set ordered, notifies nobody |
| `Timers.TimerManager.Reset` | sylar/sylar/timer.cpp:69-93 | new period from now or from the start of the current one, and no other object changes; true without looking if nothing changes, else exactly when armed; notifies at most once |
| `Timers.RestartedMeans` | sylar/sylar/timer.cpp:83-90 | the deadline that `reset` computes: the new period from now, or from the start of the current period, modulo 2^64 |
| `Timers.TimerManager.AddTimer` | sylar/sylar/timer.cpp:102-108 | the timer enters at its place; the front notification is sent exactly for the first insertion at the front since `getNextTimer` |
| `Timers.TimerManager.AddLocked` | sylar/sylar/timer.cpp:175-186 | insertion into the ordered set and the tickled flag |
| `Timers.TimerManager.GetNextTimer` | sylar/sylar/timer.cpp:123-137 | time to the earliest deadline, zero if past, all ones if none; clears the tickled flag |
| `Timers.TimerManager.DetectClockRollover` | sylar/sylar/timer.cpp:188-196 | true exactly when the clock went back by more than an hour, or at all if the previous time is below one hour; the time is remembered |
| `Timers.TimerManager.ListExpiredCb` | sylar/sylar/timer.cpp:139-173 | hands out in deadline order exactly the callbacks of the due timers, disarms the one-shot ones, re-arms the recurring ones, changes no other timer object, in the set or out of it, for every sentinel address |
| `TimerRuns.ExpiryExact` | sylar/sylar/timer.cpp:150-172 | handed out is exactly what was due (everything on rollover); what stays is what was not due and the re-armed recurring timers; the set stays ordered |
| `TimerRuns.ExpiryMeans` | sylar/sylar/timer.cpp:139-173 | the same in the timers' own fields: due means deadline reached, or the clock back by an hour; recurring timers are due again a period from now |
| `TimerRuns.ResetExact` | sylar/sylar/timer.cpp:69-93 | `reset` of an armed timer changes its period and deadline as stated and no other timer |
| `TimerRuns.RefreshMeans` | sylar/sylar/timer.cpp:54-67 | `refresh` of an armed timer makes it due a period from now and changes no other timer |
| `TimerRuns.NotifiesMeans` | sylar/sylar/timer.cpp:175-186 | an insertion notifies exactly when nobody has since the last `getNextTimer` and the new timer is first |
| `TimerRuns.OneShotRuns` | sylar/sylar/timer.cpp:43-93 | over every run a one-shot timer is armed, or handed out once, or cancelled once, and exactly one of these |
| `TimerRuns.CancelResult` | sylar/sylar/timer.cpp:43-52 | `cancel` returns true exactly when the one-shot was neither handed out nor cancelled, and it is not handed out afterwards |
| `TimerRuns.HandedWhenDue` | sylar/sylar/timer.cpp:150-172 | nothing is handed out before its current deadline unless rollover was detected |
| `TimerWakeUps.RefreshExact` | sylar/sylar/timer.cpp:54-67 | a refresh moves the earliest deadline in front of a known one exactly when now plus the period is in front of it |
| `TimerWakeUps.ExpireExact` | sylar/sylar/timer.cpp:150-172 | expiry does so exactly when a due recurring timer is re-armed in front of it |
| `TimerWakeUps.WakeUpExact` | sylar/sylar/timer.cpp:123-186 | over every run, for any clock and with wrap-around, at most one notification since the last `getNextTimer` and exactly one if the earliest deadline is earlier than it was then, at every point, if and only if no event of the run was silent |
| `TimerWakeUps.TimerWakeUp` | sylar/sylar/timer.cpp:123-186 | in every run with a non-decreasing clock and no overflow, at most one notification since the last `getNextTimer`, and exactly one if the earliest deadline is earlier than it was then |
| `TimerWakeUps.SilentRefresh` | sylar/sylar/timer.cpp:54-67 | a run in which the clock goes back and a refresh moves the earliest deadline forward with no notification |
| `IoLedger.ExactlyOnce` | sylar/sylar/iomanager.cpp:80-97 | over every run of registrations, firings and deletions, each ticket is registered, queued or deleted, once in all, and no other ticket appears |
| `IoManager.WokenOnce` | sylar/sylar/iomanager.cpp:147-303 | the same over every run of add, delete, cancel, cancel-all and dispatch, with any kernel calls failing |
| `IoManager.PartlyStaleReport` | sylar/sylar/iomanager.cpp:387-409 | both directions are registered and reported by the kernel, one is deleted before the report is met, and the dispatch fails the assertion |
| `IoManager.IOManager.ContextResize` | sylar/sylar/iomanager.cpp:136-145 | the table has the given size, keeps the old contexts and is empty beyond them |
| `IoManager.IOManager.AddEvent` | sylar/sylar/iomanager.cpp:147-198 | registers exactly one ticket for the handler; a registered direction is refused by assertion, a failed kernel call changes nothing; ADD or MOD is always the legal choice |
| `IoManager.IOManager.TriggerEvent` | sylar/sylar/iomanager.cpp:80-97 | the registered handler, fiber or callback, goes to its scheduler and leaves its context empty |
| `IoManager.IOManager.DelEvent` | sylar/sylar/iomanager.cpp:200-232 | removes a registration silently; true exactly when it was there and the kernel agreed; masks, kernel table and pending counter stay in step |
| `IoManager.IOManager.CancelEvent` | sylar/sylar/iomanager.cpp:234-264 | as deletion, but the handler is queued once |
| `IoManager.IOManager.CancelAll` | sylar/sylar/iomanager.cpp:266-303 | every registered direction of the descriptor is queued once and none is left, so the final assertion holds |
| `IoManager.IOManager.Dispatch` | sylar/sylar/iomanager.cpp:374-409 | in the report's own bits: a registered direction fires exactly when EPOLLIN (for READ), EPOLLOUT (for WRITE), or an error or hang-up is reported, READ first, to its own scheduler; the assertion fails exactly when another named direction is not registered; a failed kernel call changes nothing |
| `IoManager.IOManager.DispatchAll` | sylar/sylar/iomanager.cpp:367-410 | a buffer of reports gets through if and only if each is fresh when it is met, and then fires report by report |
| `TimedIo.StepKeeps` | sylar/sylar/hook.cpp:111-156 | every step of the fiber and of its environment keeps the invariant on wake-ups, timers, callbacks and the guard of the wait |
| `TimedIo.OneWakePerWait` | sylar/sylar/hook.cpp:136-155 | in every run, among other fibers' registrations, each registration of the fiber is queued once, whichever of readiness, timeout or close comes first; a waiting fiber is registered or has one wake-up queued, not both; the assertion of the next `addEvent` fails exactly when another fiber holds the direction |
| `TimedIo.NoEarlyTimeout` | sylar/sylar/hook.cpp:126-152 | ETIMEDOUT from `cancelled` is reported only if at least `to` has passed since the call first set out to wait, stale callbacks of earlier attempts included |
| `TimedIo.NoTimerLeft` | sylar/sylar/hook.cpp:136-153 | when a call returns none of its timers is armed, and never more than one is |
| `TimedIo.TimeoutExact` | sylar/sylar/hook.cpp:125-134 | at every moment of every wait, clock, expiry and callbacks alone can end it if and only if there is a timeout and a clear flag, or a callback past its test; otherwise it lasts until somebody else fires the registration |
| `TimedIo.TimeoutAtAdd` | sylar/sylar/hook.cpp:125-145 | the same, asked just before an `addEvent` that succeeds |
| `TimedIo.LostTimeout` | sylar/sylar/hook.cpp:125-153 | a run in which a call with a timeout waits with nothing left to time it out |
| `TimedIoResults.ResultExact` | sylar/sylar/hook.cpp:88-156 | over every run, the answer of a call: ETIMEDOUT if and only if it last looked at a set flag after a wake-up; otherwise the outcome of its last system call, the socket error of a connect, the error of a refused `addEvent`, or the early exits' |
| `TimedIoResults.FlagEndsCall` | sylar/sylar/hook.cpp:145-152 | a call woken with its flag set makes no further system call, and ends with ETIMEDOUT |
| `TimedIoResults.AfterWake` | sylar/sylar/hook.cpp:145-153 | after a wake-up the flag decides between ETIMEDOUT and the next system call, or for a connect the socket error |
| `TimedIoResults.SystemCallExact` | sylar/sylar/hook.cpp:112-119 | EINTR repeats an I/O call, EAGAIN (EINPROGRESS for a connect) makes it wait, anything else is its answer |
| `TimedIoResults.WaitStarts` | sylar/sylar/hook.cpp:125-134 | a wait with a timeout arms one timer, due exactly the timeout later |
| `FiberSemaphore.SemaphoreRefinement` | sylar/sylar/mutex.cpp:38-72 | in every run concurrency is the positive part and the number of waiters the negative part of one integer, and granted waits followed by waiting ones are all waits in arrival order |
| `FiberSemaphore.CallsDecide` | sylar/sylar/mutex.cpp:38-72 | that integer is the initial count plus notifies minus waits minus successful tryWaits |
| `FiberSemaphore.Semaphore.TryWait` | sylar/sylar/mutex.cpp:38-48 | succeeds exactly when the integer is positive |
| `FiberSemaphore.Semaphore.Wait` | sylar/sylar/mutex.cpp:50-61 | blocks, at the end of the queue, exactly when the integer is not positive |
| `FiberSemaphore.Semaphore.Notify` | sylar/sylar/mutex.cpp:63-72 | schedules the longest waiting fiber if there is one, and nobody else |
| `Clients.AddIsArm` | sylar/sylar/hook.cpp:136-144 | a successful `addEvent` of a call is a registration the runtime allows, and afterwards both count the same wake-ups |
| `Clients.SwitchOutIsYield` | sylar/sylar/hook.cpp:145 | the switch after it is a yield the runtime allows, also if the wake-up is queued by then |
| `Clients.ResumeIsSwapIn` | sylar/sylar/hook.cpp:145-149 | the worker that takes the queued wake-up may switch to the fiber without failing an assertion, and then none is outstanding |
| `Clients.FiredIsFire` | sylar/sylar/iomanager.cpp:80-97 | firing the registration, by whomever, moves the wake-up to the task list |
| `Clients.CallsKeepTheRule` | sylar/sylar/hook.cpp:111-156 | wherever a run of calls has led, the runtime allows the next registration, the next switch, and the end of the fiber between calls |
| `Clients.WaitIsArm` | sylar/sylar/mutex.cpp:50-61 | a `wait` that blocks is a registration and then a yield the runtime allows, and the waiter lists stay equal |
| `Clients.NotifyIsFire` | sylar/sylar/mutex.cpp:63-72 | a `notify` with waiters fires the first parked wake-up, and the waiter lists stay equal |
| `LogPattern.ScanDirective` | sylar/sylar/log.cpp:506-547 | the inner loop ends on every pattern, with name, format and end of the conversion, or with an unclosed brace |
| `LogPattern.LexIsExact` | sylar/sylar/log.cpp:492-574 | every pattern, faulty or not, is the concatenation of the source text of its tokens |
| `LogPattern.ParseVector` | sylar/sylar/log.cpp:488-574 | the index loops end and build exactly the pieces of the token list, a fault being entered ahead of the text still collected; the flag is set exactly for an unclosed brace |
| `LogPattern.Init` | sylar/sylar/log.cpp:486-609 | items are the pieces in order, unknown names replaced by an error text; the error flag is set exactly for an unclosed brace or an unknown name |
| `LogPatternRoundTrip.PrintParsed` | sylar/sylar/log.cpp:492-574 | printing the pieces of a pattern with closed braces gives the pattern back if and only if it has no empty `{}` |
| `LogPatternRoundTrip.ParsePrinted` | sylar/sylar/log.cpp:492-574 | printing any list in normal form and parsing it gives the list back, without error |
| `LogPatternRoundTrip.ParsedIsNormal` | sylar/sylar/log.cpp:492-574 | a faultless pattern without empty braces parses to a list in normal form, so the normal forms are exactly what such patterns give |
| `LogPatternRoundTrip.EscapeExact` | sylar/sylar/log.cpp:493-506 | the tokens are those of the escape reading of a doubled percent sign if and only if the pattern has no doubled percent sign outside braces |
| `LogPatternRoundTrip.TrailingPercent` | sylar/sylar/log.cpp:498-506 | the escape fails even at the end: no pattern ending in a percent sign, doubled or not, is free of errors |
| `LogPatternGrammar.BareRule` | sylar/sylar/log.cpp:506-519 | a conversion without braces ends in front of the first character that is no ASCII letter and no brace |
| `LogPatternGrammar.BracedRule` | sylar/sylar/log.cpp:520-541 | a conversion with braces has what is between them, up to the first closing one, as its format |
| `LogPatternGrammar.UnclosedRule` | sylar/sylar/log.cpp:558-563 | an unclosed brace is a fault, and reading goes on behind the percent sign |
| `LogPatternGrammar.DoubledRule` | sylar/sylar/log.cpp:498-505 | of two percent signs the first is text and the second is read again |
| `LogPatternGrammar.RulesCover` | sylar/sylar/log.cpp:492-564 | with the rule for plain characters, there is a rule for every pattern |
| `LogPatternGrammar.ConversionThenText` | sylar/sylar/log.cpp:506-556 | a known letter followed by text that no name continues gives the conversion and the text, without error |
| `LogPatternGrammar.UnclosedPieces` | sylar/sylar/log.cpp:558-569 | the fault of an unclosed brace stands in front of all the text around it |
| `LogPatternGrammar.ErrorMeans` | sylar/sylar/log.cpp:571-609 | an error is an unclosed brace, or a conversion that is none of the twelve |
| `LogConfig.SetFormatter` | sylar/sylar/log.cpp:288-311 | a faulty pattern changes nothing; a good one becomes the logger's and that of the appenders without their own |
| `LogConfig.Configure` | sylar/sylar/log.cpp:795-824 | the logger gets the defined level, a usable formatter if one is given, and the defined appenders in order, each with its own usable formatter or the logger's |
| `LogConfig.LoggerManager.GetLogger` | sylar/sylar/log.cpp:622-632 | finds the logger or makes one with the defaults |
| `LogConfig.LoggerManager.ConfigureAll` | sylar/sylar/log.cpp:775-824 | in any order of names, exactly the loggers whose definition is new or changed are reconfigured |
| `LogConfig.LoggerManager.SilenceDropped` | sylar/sylar/log.cpp:825-835 | exactly the loggers whose name was dropped get level 100 and no appenders |
| `LogConfig.LoggerManager.SetValue` | sylar/sylar/config.h:326-340 | the new value is stored and every logger changes as old and new definition of its name say; an equal value changes nothing |
| `LogConfig.Reconfiguration` | sylar/sylar/log.cpp:772-837 | after any sequence of settings and look-ups: configured loggers have their level, the last usable formatter given for the name and their appenders; dropped ones are silent; others untouched |
| `Ipv6Text.SwapLoads` | sylar/sylar/endian.h:28-32 | swapping a word loaded on a little-endian machine gives the group in network order |
| `Ipv6Text.Insert` | sylar/sylar/address.cpp:129-150 | the loop prints the groups with the first run of zeros left out, and reading the text by the RFC gives the groups back |
| `Ipv6Text.FormRoundTrip` | sylar/sylar/address.cpp:129-152 | for every address, expanding the text gives exactly the eight groups |
| `Ipv6Text.OneGap` | sylar/sylar/address.cpp:129-152 | two adjacent colons occur at most once |
| `Ipv6Text.GapIsFirstZeros` | sylar/sylar/address.cpp:134-146 | the gap stands for the first run of zeros, the whole of it |
| `Ipv6Text.HexDigits` | sylar/sylar/address.cpp:145 | groups are printed in lower case without leading zeros |
| `Ipv6Text.TextDecides` | sylar/sylar/address.cpp:129-152 | no two addresses are printed alike |

## Left out

- `YieldToReady` and the READY branches of `run`: the state is READY before the context is saved, so the single-runner claim does not cover it.
- `run`, `idle` and `do_io` are step systems, not methods with loops: the interleaving of threads is the point, and a method body would hide it.
- Races inside a locked section, the tickled flag written under a read lock, and the emptiness test of `listExpiredCb` under another lock: each locked section, and `listExpiredCb`, is one step.
- Looking up a descriptor context and growing the table is one step; the source drops its read lock in between.
- Timer objects are entries of the manager's table, and loggers and appenders are values held by their manager; aliasing of shared pointers is not modelled.
- The runtime model takes the pending counter equal to the number of registered events; the event manager model proves that of its own states.
- Recurring timers whose callback wakes a fiber: the runtime model allows recurring plain callbacks only.
- The first test in `Scheduler::stop` on the root thread has no effect on later steps and is not a step of its own.
- Negative descriptors, descriptors closed behind the hook's back, the wake-up pipe and its test by descriptor number on a union, and the clamp of the epoll timeout.
- Handlers with a null scheduler, and the fiber-state assertion in `addEvent`, which the runtime model covers by `ExecMeansOnStack`.
- `WokenOnce`: a run ends where the dispatch assertion fails; the effect assumed for a partly stale report is never reached.
- Two fibers on one direction: a run of the blocking calls ends where the second `addEvent` fails its assertion.
- Liveness: no claim that a runnable step is eventually taken.
- The semaphore counter's machine width, and `reset` of the semaphore.
- Deadline arithmetic of `TimedIo` is unbounded; wrap-around of 64-bit deadlines is modelled in the timer files only.
- The deletion of a waiting fiber's event by a third party: nothing in the hooks does it.
- `Configure`: appender definitions of neither known type, which the loader never produces, would dereference a null pointer.
- `FdManager`, `fcntl`, `ioctl`, socket options, ports (with the brackets and port around the IPv6 text), `UnixAddress`, subnet functions: thin or foreign code.
- YAML conversion of settings, log output, files, dates, backtraces, thread names, other listeners on the setting.
- `IsAlpha` in the pattern parser is that of the C locale.
