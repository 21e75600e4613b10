# The Horust supervisor, modelled and verified

Horust starts the services of a configuration, watches them, restarts or gives them up, and shuts them down.
Its supervisor owns the status of every service, but everything it is told and everything it decides travels
over one message bus: its own commands come back to it one or more turns of its loop later, possibly twice,
mixed with the reports of threads that fork processes, of health workers, of the child reaper and of the
signal handler. This project models that supervisor, the bus and the consumers beside it, and proves what
holds in every state of every run.

## How the model is laid out

- `formats`, `service_handler`, `repo`, `commands`: the events, the configuration and its validation, one
  service as the supervisor sees it, the table of transitions, the queries on the repository, and the commands
  computed from a state.
- `machine`: what handling one event does, and the state machine: the supervisor takes a prefix of its inbox,
  handles it event by event, computes the commands of all services in any order, reaps, and sends; spawn
  threads, health workers and SIGTERM act between any two of those steps. `Trace` is any finite run of it,
  `IsProgramTrace` one of the program on a configuration that validation accepted.
- `supervisor`: the supervisor as an object whose methods update their fields in place. Each method is proved
  to do what the machine does, `Iterate` for one turn of the loop and `Run` for the loop. `iteration` shows
  that a turn is made of steps of the machine, so that what is proved of runs holds of the object.
- `queues`, `emissions`, `invariant`, `preservation`, `one_service`: what a queue of events holds for one
  service, what justifies each command, and the invariant about statuses, pids, spawn threads and events under
  way, for the whole system and for one service by itself.
- `record`, `frame`, `pids`: what holds in every run, orderly or not: the record of status changes, names, the
  queues between turns, the pid map, spawn threads.
- `effects`: what every step does to each component, written out by events and prior states; and what can happen.
- `life_cycle`, `kills`, `timers`, `graceful`, `causes`, `start_order`, `shutdown`, `shutdown_measure`, `restarts`,
  `early_exits`, `health_counts`, `reaping`, `duplicates`, `dependencies`: the theorems about runs.
- `overrun`, `lost_exit`, `stale_timer`: concrete runs that show what happens without the assumptions below;
  `overrun` also has the scenes for the run in `health_counts`.
- `bring_up`, `wedge`: how any configuration comes up wave by wave, and so which dependency graphs lead some
  run into a deadlock of starts or of a graceful shutdown.
- `bus`, `replica`, `health`, `watches`: the bus, and the two consumers that keep a copy of what the supervisor
  says.
- `signal_safe`, `rotation`: the two loops with arithmetic of their own.

## What is assumed of the environment

- Only the parts of Horust publish on the bus; nobody else joins it.
- A forked process gets a pid that no child, no service, no thread still to report and no report under way has
  (`IsFresh`).
- Where a theorem says *orderly* (`IsOrderly`): a service is not started while it still holds the pid of an
  earlier process. The code does not enforce this. A kill by force makes a service Failed and keeps its pid,
  and the next commands are computed before the exit is reaped. `StepKeepsInvExactly` shows that a step from a
  good state leads to a good state if and only if it does not start a service that way, and `overrun` gives a
  run of the program that does, after which Failed turns into Started, and another that ends in a panic. The
  assumption concerns kills by force only: a run in which none is handled while the system is up is orderly
  (`NotForcedIsOrderly`). Theorems about one service need it of that service only (`IsOrderlyFor`).
- Nothing is assumed about when a child ends. If it is reaped before the report of its pid has been handled, be it
  that the thread has not sent it or that it is on the bus, its exit is dropped and the report makes the service
  Started with a dead process; `ExitsCanBeLost` gives such a run, `StepAccountsExactly` the exact condition,
  `ReapedEarlyIsLost` and `LostForGood` say what comes of it. Where a theorem speaks of processes that are there
  it assumes that only children whose reports have been handled are reaped (`ReapsOnlyAnnounced`).
- Time is a number of milliseconds that the environment chooses anew in each step that asks for it.

## Where the documentation and the code differ

The model follows the code.

- `max-failed` is documented as the number of failed health checks in a row; the counter is never reset, not
  by a success and not by a restart (service_handler.rs:86-91). `FailuresNeedNotBeInARow` gives a run,
  `KilledForHealthExactly` the exact condition. After one failed check a service is never told again that it
  is Running (`OneFailureIsForGood`).
- A counter of restart attempts that is over is documented to end restarts under every strategy; only `never`
  looks at it (`FailedIsRestartedExactly`). The reset of that counter when a service comes up is never reached,
  because nobody asks for the status Started (`CounterCounts`).
- The documented default of ten attempts is zero in the code (service.rs:438-440), which counts as over at once.
- A status change is meant to be announced; a failed spawn and a failed preparation are not
  (`SilenceMisleads`), and a kill by force is announced before it is done. These are the only exceptions
  (`AgreementExactly`).
- The kill timer is meant to run from the signal (service_handler.rs:359-361); nothing but an exit stops it, so after
  a kill by force, or a spawn that failed while the service was being killed, it still runs for the next process,
  which may then be killed by force before it has been signalled (`TimersCanBeStale`). `TimedRightlyExactly` gives
  the exact step.
- The exit of a service is meant to be heard of; one that is reaped too early is not (`ExitsCanBeLost`).
- Names in `die-if-failed` are not validated, and need not be: nothing is looked up by them.

## Model

| member | source | states |
|---|---|---|
| `Formats.CheckDependencies` | horust/src/horust/formats/service.rs:721-751 | For one service every complaint is true, none is missing, and there is none exactly for a well-formed service. |
| `Formats.Validate` | horust/src/horust/formats/service.rs:719-757 | A configuration is accepted, unchanged, if and only if every service in it is well formed; otherwise every missing dependency and empty command is listed and nothing else. |
| `Repos.FromServicesHolds` | horust/src/horust/supervisor/repo.rs:18-28 | The repository holds exactly the defined names, each with a fresh handler of the last definition of that name. |
| `Repos.LastDefinitionCounts` | horust/src/horust/supervisor/repo.rs:18-28 | A definition that no later one of the same name follows is the one the repository holds. |
| `Repos.ValidatedIsClosed` | horust/src/horust/supervisor/repo.rs:58-117 | After validation every name that start-after and shutdown-after queries look up is a key, so no lookup can fail. |
| `Repos.GetDependents` | horust/src/horust/supervisor/repo.rs:68-75 | Exactly the services whose start-after list names the service. |
| `Repos.GetDieIfFailed` | horust/src/horust/supervisor/repo.rs:78-89 | Exactly the services whose die-if-failed list names the service. |
| `Emissions.CommandsExactly` | horust/src/horust/supervisor/service_handler.rs:126-225 | For every event and in whatever order the services are asked: it is among the commands computed if and only if the statuses, pids, counters, timers and configurations call for it, each condition written out in full. While up a kill is called for exactly by more failed checks than max-failed or by a failed service that kills its dependents or is named in die-if-failed, a shutdown exactly by a failed service with that strategy; during shutdown a kill by a terminal shutdown-after list or force; a restart by strategy and attempts; a kill by force by the configured wait in whole seconds. |
| `Emissions.NextAllFollow` | horust/src/horust/supervisor/service_handler.rs:141-225 | Every request to move a service to InKilling is computed with a Kill for it behind it. |
| `Emissions.FailureIsFollowedInOrder` | horust/src/horust/supervisor/service_handler.rs:166-184 | A failed service first has its failure strategy followed, on its dependents in the order asked, is then answered itself, and then takes along those that die with it, in the order asked. |
| `Timers.ForcedExactly` | horust/src/horust/supervisor/service_handler.rs:336-365 | A kill by force is commanded if and only if the service is InKilling, holds a pid, and the shutdown is forceful or its timer has run for more whole seconds than the configured wait. |
| `Effects.RequestsAreAnswered` | horust/src/horust/supervisor/service_handler.rs:239-290 | A handled request has the answer the table gives for every prior status, written out for every status asked for, and is announced exactly if it changes the status. |
| `Effects.StatusesMoveExactly` | horust/src/horust/supervisor/mod.rs:119-289 | In every step a service takes the status written out for the event handled about it and its prior status, and keeps its status otherwise. |
| `Effects.NewsIsExact` | horust/src/horust/supervisor/mod.rs:119-289 | What each handled event about a service publishes, for every event and prior status: nothing after a failed spawn but a request, and nothing of a failed preparation but a request and the shutdown. |
| `Effects.PidsMoveExactly` | horust/src/horust/supervisor/mod.rs:121-126 | In every step a service gets a pid by its report, loses it by its exit and keeps it otherwise. |
| `Effects.PidMapMovesExactly` | horust/src/horust/supervisor/repo.rs:32-41 | In every step the pid map takes up the pid reported, gives up that of the service that exited, and stays otherwise. |
| `Effects.SignalsAreExact` | horust/src/horust/supervisor/mod.rs:208-247 | Every step sends exactly: the configured signal to the pid held when a Kill for a service being killed is handled, and to a pid reported of such a service; SIGKILL to the pid held when it is killed by force; nothing else. |
| `Effects.LifecycleMovesExactly` | horust/src/horust/supervisor/mod.rs:169-268 | In every step the lifecycle takes the mode of a handled announcement, shuts down gracefully for want of preparation, and stays otherwise; the SIGTERM flag is raised by SIGTERM only and cleared by a handled announcement only. |
| `Effects.SigtermIsPolled` | horust/src/horust/supervisor/mod.rs:298-310 | In every run a turn that starts with the flag raised puts a graceful announcement on the queue while the system is up and a forceful one during a graceful shutdown; otherwise nothing is put there. |
| `Effects.StopsExactly` | horust/src/horust/supervisor/mod.rs:294-354 | Between turns the supervisor stops if and only if every service is Finished or FinishedFailed, and announces a shutdown when it does. |
| `Effects.ReapsAreExact` | horust/src/horust/supervisor/reaper.rs:18-57 | Each process reaped is reported, in its turn, as the exit of the service its pid is mapped to, with its own exit code, or dropped if it is unknown. |
| `Effects.SupervisorIsFree` | horust/src/horust/supervisor/mod.rs:293-333 | In every run the supervisor can go on until it stops or panics: with any part of its inbox, any order of the services, and up to twenty reaped processes of any choice. |
| `Effects.OthersAreFree` | horust/src/horust/supervisor/process_spawner.rs:28-60 | A thread may fail or fork with any unused pid until it has forked, and then report; health reports on any service and SIGTERM may come at any time. |
| `Causes.RequestsHadCauses` | horust/src/horust/supervisor/service_handler.rs:126-225 | In every run each command under way that asks for InKilling, Running, Initial or Finished, and each Kill, was called for by an earlier state. |
| `Causes.MovesHadCauses` | horust/src/horust/supervisor/mod.rs:268-283 | In every run each step that brings a service up, kills it, has it start again or finishes it follows an earlier state that called for it: its own health, a failed service that takes it along, the shutdown, or its restart strategy. |
| `Causes.SignalsHadCauses` | horust/src/horust/supervisor/mod.rs:208-247 | In every run whoever is sent a signal was to be killed in some earlier state. |
| `Causes.ShutdownHadReason` | horust/src/horust/supervisor/mod.rs:293-310 | In every run a shutdown that is on or announced follows a pending SIGTERM, a failed service whose strategy is to shut down, a service that could not be prepared, or the end of all services. |
| `Preservation.StepKeepsInvExactly` | horust/src/horust/supervisor/mod.rs:119-333 | From a good state a step leads to a good state if and only if it does not start a service that still holds a pid. |
| `Preservation.RunKeepsInv` | horust/src/horust/supervisor/mod.rs:293-333 | Every state of every orderly run is good: a spawn thread or report under way is the only one of its service and finds it without a pid, an exit under way is of a service that holds a pid, pids and pid map match, and no stale command under way can hurt the service it is for. |
| `OneService.StepKeepsGood` | horust/src/horust/supervisor/mod.rs:119-333 | What is good about one service is kept by every step that does not start this very service over a process, whatever happens to the others. |
| `OneService.RunKeepsGood` | horust/src/horust/supervisor/mod.rs:119-333 | So a service is good in every run that never starts it over a process, even if others are. |
| `OneService.NoPanicAbout` | horust/src/horust/supervisor/mod.rs:121-123 | In every run that never starts a service over a process no event about that service makes the supervisor panic. |
| `OneService.OrderlyForAll` | horust/src/horust/supervisor/mod.rs:169-202 | A run is orderly if and only if it is so for each service by itself. |
| `Records.RunKeepsRecord` | horust/src/horust/supervisor/mod.rs:119-289 | In every run the record of status assignments is complete: it chains from Initial to the present status of every service. |
| `Records.RecordGrows` | horust/src/horust/supervisor/mod.rs:119-289 | No step of any run takes back a recorded change. |
| `ServiceHandlers.EdgesAreTheTable` | horust/src/horust/supervisor/service_handler.rs:239-278 | The edges are those of the transition table, with the one exception of a never started service. |
| `LifeCycle.ChangesAreEdgesOf` | horust/src/horust/supervisor/service_handler.rs:241-280 | In every run that never starts the service over a process, whatever happens to the others, each of its status changes, by request or by the direct assignments that bypass the check, is one of the edges written out for each status: the transition table, except that a never started service is killed into Success. |
| `LifeCycle.ChangesAreEdges` | horust/src/horust/supervisor/service_handler.rs:241-280 | So in an orderly run all status changes are edges. |
| `LifeCycle.ExitDecides` | horust/src/horust/supervisor/mod.rs:121-168 | An exit makes a service that is up or being killed Failed exactly for a bad exit code or for a Running service with failed health checks, else Success, and leaves every other status as it is. |
| `Records.ServicesStay` | horust/src/horust/supervisor/repo.rs:29-65 | In every run names and configurations of the services stay those the program was started with. |
| `LifeCycle.TerminalForGood` | horust/src/horust/supervisor/mod.rs:161-283 | Once Finished or FinishedFailed, a service stays so for the rest of every run that never starts it over a process, whatever stale commands, late reports and exits reach it. |
| `LifeCycle.ExitStatusTellsHistory` | horust/src/horust/supervisor/mod.rs:293-354 | The supervisor stops only when all services are terminal, and reports a failure if and only if some service became FinishedFailed at some point of the run. |
| `LifeCycle.NeverCrashes` | horust/src/horust/supervisor/mod.rs:121-123 | In every orderly run of a validated configuration the supervisor never panics: no lookup by name and no unwrap of a pid fails. |
| `Frames.OnlyThePidCanBeMissing` | horust/src/horust/supervisor/mod.rs:119-289 | In every run of a validated configuration, orderly or not, every name looked up while commands are computed is known, the next event can be handled if and only if it is not the exit of a service without a pid, and that is the only cause of a panic. |
| `Frames.ForkedCanBeReported` | horust/src/horust/supervisor/process_spawner.rs:40-60 | In every run each service has as many spawn threads as processes forked and not reported, at least, so each such process can be reported at any time. |
| `LifeCycle.OneSpawnOneExit` | horust/src/horust/supervisor/process_spawner.rs:23-60 | In every run that never starts the service over a process it has at most one spawn thread or spawn report outstanding, and has one exactly while it is Starting, or InKilling without a pid; two exits of it are never under way together. |
| `LifeCycle.PidsAreHeld` | horust/src/horust/supervisor/repo.rs:32-41 | In every run that never starts the service over a process it holds a pid if and only if the pid is mapped to it. |
| `PidBook.RunKeepsPidInv` | horust/src/horust/supervisor/repo.rs:32-41 | In every run, orderly or not, a pid a service holds is mapped to that service, and the pids reported under way are new and distinct. |
| `PidBook.NobodySharesAPid` | horust/src/horust/supervisor/reaper.rs:18-57 | In every run no two services hold the same pid, so an exit that is reported is never ascribed to the wrong service. |
| `Reaping.StepAccountsExactly` | horust/src/horust/supervisor/reaper.rs:18-57 | From a state in which every pid held, or forked and not yet handled, is that of a child that is there, or the exit is under way, a step leads to such a state if and only if it does not reap a child whose report, sent or not, is still to be handled. |
| `Reaping.RunAccounts` | horust/src/horust/supervisor/reaper.rs:18-57 | In every run without such a step every pid a service holds is that of a child that is there, or its exit is under way. |
| `Reaping.ReapedEarlyIsLost` | horust/src/horust/supervisor/reaper.rs:18-57 | When a child is reaped before its report has been handled, at every later point the report is still to come or the service holds the pid of the dead process with no exit under way. |
| `Reaping.LostForGood` | horust/src/horust/supervisor/reaper.rs:18-57 | A service that holds the pid of a reaped child with no exit under way keeps it for the rest of every run that does not start it over it: nobody will ever report the exit. |
| `LostExits.ExitsCanBeLost` | horust/src/horust/supervisor/reaper.rs:18-57 | A reachable state, with fresh pids and in an orderly run, in which a service is Started and watched though its process has ended and been reaped and no exit is under way. |
| `Overruns.OverrunLeavesTheTable` | horust/src/horust/supervisor/mod.rs:222-247 | A reachable state, with fresh pids, in which a service has gone from Failed to Started, no edge of the table: it was started over a process that had been killed by force and not been reaped. |
| `Overruns.OverrunPanics` | horust/src/horust/supervisor/mod.rs:121-123 | A reachable state, with fresh pids, in which the supervisor has panicked: two processes of one service were reaped together and the second exit found no pid. |
| `Kills.NoLostKill` | horust/src/horust/supervisor/mod.rs:208-247 | In every run each request for InKilling under way has a Kill for the service behind it, and for a service being killed that holds a pid the kill timer runs or a Kill is coming. |
| `Timers.KilledIsSignalled` | horust/src/horust/supervisor/mod.rs:208-247 | In every run the process of a service being killed has been sent the configured signal and its timer runs, unless the Kill that will do so is still on its way. |
| `Timers.TimersTellTime` | horust/src/horust/supervisor/service_handler.rs:120-122 | In every run the kill timer runs if and only if the last step to touch it was a Kill or a pid handled for the service while it was being killed, and holds the time of that step; an exit stops it. |
| `Timers.ForcedAfterWait` | horust/src/horust/supervisor/service_handler.rs:349-357 | In every run, unless the shutdown is forceful, a kill by force is commanded only when more than the configured wait has passed since that step, with no exit handled in between. |
| `Timers.TimedRightlyExactly` | horust/src/horust/supervisor/mod.rs:232-247 | A step keeps every running timer about a process that has been signalled if and only if it does not give a new process to a service that is not being killed while an old timer runs. |
| `Timers.TimedIsSignalled` | horust/src/horust/supervisor/mod.rs:232-247 | In every run without such a step the process of a service whose timer runs has been signalled. |
| `StaleTimers.TimersCanBeStale` | horust/src/horust/supervisor/mod.rs:232-247 | A reachable state, with fresh pids, in which a service is being killed and its timer, left over from an earlier process, has it killed by force though no signal has been sent to its process. |
| `GracefulKills.GracefulOrder` | horust/src/horust/supervisor/service_handler.rs:208-217 | Any signal sent during a graceful shutdown to a service not being killed before finds all of its shutdown-after list terminal, though the decision was taken turns earlier, in every run that starts none of that list over a process. |
| `GracefulKills.GracefulDecision` | horust/src/horust/supervisor/service_handler.rs:208-217 | Whenever a graceful shutdown computes a Kill, all of the shutdown-after list of the service is terminal in every later state of such a run, so also when the Kill is handled, even after the shutdown has become forceful. |
| `GracefulKills.KillableForGood` | horust/src/horust/supervisor/repo.rs:111-117 | A service that may be killed may be killed for the rest of every such run. |
| `StartOrder.StartsInOrder` | horust/src/horust/supervisor/repo.rs:97-106 | In every run, whenever a service has been started, every service of its start-after list was Running or Finished at some earlier point. |
| `Wedges.StartsSomebodyExactly` | horust/src/horust/supervisor/repo.rs:97-106 | Whatever the start-after graph, every reachable state of the running system in which services wait, and the others are Running or Finished, tells some service to run, if and only if the graph has no cycle. |
| `StartOrder.AcyclicStarts` | horust/src/horust/supervisor/repo.rs:97-106 | Without a cycle in start-after some service is runnable in every state in which services wait. |
| `Wedges.DeadlockIsReached` | horust/src/horust/supervisor/repo.rs:97-106 | Every start-after graph in which each service of some set starts after another of the set is that of a validated configuration with a run into a state in which services wait, the others are Running or Finished, and nobody is runnable. |
| `BringUp.Wave` | horust/src/horust/supervisor/service_handler.rs:126-150 | From a resting state some run brings up exactly the runnable services, each with its own process, and comes to rest again. |
| `StartOrder.RunnableIsRun` | horust/src/horust/supervisor/repo.rs:97-106 | In whatever order the services are asked a Run is computed for a service if and only if the system is up, the service is Initial, and every service it starts after is Running or Finished. |
| `StartOrder.OnlyDependenciesMatter` | horust/src/horust/supervisor/repo.rs:97-106 | Two repositories that agree on the status of a service, on its start-after list and on the statuses of those services agree on whether it is told to run. |
| `Shutdowns.LifecycleAdvancesExactly` | horust/src/horust/supervisor/mod.rs:169-268 | A step takes the lifecycle back, or announces that it will, if and only if it gives up a service for want of preparation while a forceful shutdown is on or announced. |
| `Shutdowns.LifecycleIsMonotone` | horust/src/horust/supervisor/mod.rs:255-310 | In every run without such a step, orderly or not, the lifecycle goes from up to graceful to forceful shutdown and never back. |
| `Shutdowns.CalmExactly` | horust/src/horust/supervisor/signal_handling.rs:5-15 | With a shutdown on, a raised SIGTERM flag, which the next turn answers with a forceful announcement (`SigtermIsPolled`), counts as the end of calm: the only steps that end it are a SIGTERM that arrives during a shutdown, and a failed preparation with a SIGTERM pending. |
| `Shutdowns.OneSigtermStaysGraceful` | horust/src/horust/supervisor/mod.rs:298-310 | In every run without those steps no forceful shutdown is on or announced: one SIGTERM, however often it is polled before it is handled, stays graceful. |
| `Shutdowns.ForcefulProgresses` | horust/src/horust/supervisor/service_handler.rs:208-224 | In a forceful shutdown in which nothing is starting or being killed some command computed changes a status when handled. |
| `Wedges.GracefulNeverWedgesExactly` | horust/src/horust/supervisor/service_handler.rs:208-224 | Every reachable state of a graceful shutdown in which nothing is starting or being killed computes a command that changes a status, if and only if shutdown-after has no cycle. |
| `Shutdowns.AcyclicProgresses` | horust/src/horust/supervisor/service_handler.rs:208-224 | Without a cycle in shutdown-after every graceful shutdown in which nothing is starting or being killed has a command that changes a status. |
| `Wedges.WedgeIsReached` | horust/src/horust/supervisor/service_handler.rs:208-224 | Every shutdown-after graph in which each service of some set shuts down after another of the set is that of a validated configuration with a run into a graceful shutdown in which nothing is starting or being killed and no command, at whatever time it is computed, changes a status. |
| `ShutdownMeasure.StepPays` | horust/src/horust/supervisor/mod.rs:119-333 | During a shutdown every status change lowers the sum of status ranks plus six for each restart command under way, and no step raises it. |
| `ShutdownMeasure.ShutdownIsBounded` | horust/src/horust/supervisor/service_handler.rs:198-225 | From any point of a shutdown on an orderly run makes at most six status changes for each service and six for each restart command under way. |
| `EarlyExits.CounterCounts` | horust/src/horust/supervisor/mod.rs:134-139 | In every run the counter of failed attempts is the number of exits handled so far of a service in an early state with failed health checks: nothing else raises it and nothing resets it. |
| `Restarting.AttemptsExactly` | horust/src/horust/supervisor/service_handler.rs:293-314 | From a good state a step keeps a service with strategy never within its attempts, and free of pids it should not hold, if and only if it does not kill it by force while the system is up. |
| `Restarting.NotForcedIsOrderly` | horust/src/horust/supervisor/mod.rs:222-231 | Every run in which no service is killed by force while the system is up is orderly. |
| `Restarting.AttemptsAreLimited` | horust/src/horust/supervisor/mod.rs:134-139 | In every run without such a kill of the service the counter of a service with strategy never stays within one more than its attempts, and beyond its attempts it is Success, Failed or terminal. |
| `EarlyExits.RestartsAreLimited` | horust/src/horust/supervisor/service_handler.rs:293-314 | In every such run a service with strategy never is started again after an early failing exit at most as often as it has attempts, over the whole history. |
| `Restarting.FailedIsRestartedExactly` | horust/src/horust/supervisor/service_handler.rs:293-314 | While the system is up a failed service is told to start again unless its strategy is never and its configured attempts are zero or fewer than its counter. |
| `EarlyExits.StartsAreDelayedExactly` | horust/src/horust/supervisor/mod.rs:191-200 | In every run and under every strategy each start of a service waits for its start delay and one backoff for each early failing exit it has had, and no other step starts a thread for it. |
| `EarlyExits.DelaysStayBounded` | horust/src/horust/supervisor/mod.rs:191-200 | So no start of a service with strategy never that is not killed by force while the system is up waits more than the start delay and one backoff for each configured attempt. |
| `HealthCounts.FailuresAreCounted` | horust/src/horust/supervisor/service_handler.rs:86-91 | In every run the counter of failed checks is empty until the first report is handled and from then on the number of bad reports handled while the service was up, over all its lives: nothing resets it. |
| `HealthCounts.KilledForHealthExactly` | horust/src/horust/supervisor/service_handler.rs:154-164 | In every run a Running service is told to die for its own health if and only if that number exceeds max-failed, in a row or not. |
| `HealthCounts.ComesUpExactly` | horust/src/horust/supervisor/service_handler.rs:150-153 | In every run a Started service is told that it is Running if and only if it has had a report and never a bad one while it was up. |
| `HealthCounts.OneFailureIsForGood` | horust/src/horust/supervisor/service_handler.rs:150-153 | After one bad report handled while it is up a service is never again told that it is Running, not even after a restart. |
| `HealthCounts.FailuresNeedNotBeInARow` | horust/src/horust/supervisor/service_handler.rs:150-164 | A reachable state, with fresh pids, in which the reports handled are good, bad, good and bad, max-failed is one, and the Running service is told to die. |
| `Duplicates.BatchEffect` | horust/src/horust/supervisor/mod.rs:312-315 | A batch of commands is handled to its end and does to each service what its commands do to that service alone. |
| `Duplicates.HandlingTwiceIsHandlingOnce` | horust/src/horust/supervisor/mod.rs:318-332 | For every state and iteration order, handling the commands computed for all services a second time, at another time and with other preparations failing, gives the statuses, pids, counters, lifecycle and spawns of handling them once. |
| `Iterations.TurnIsSteps` | horust/src/horust/supervisor/mod.rs:293-333 | A turn of the loop, whatever it takes, computes and reaps, is a run of the machine. |
| `Iterations.FollowingIsSteps` | horust/src/horust/supervisor/mod.rs:293-333 | Any turns with anything happening in between are a run of the machine. |
| `Supervisors.Repo.constructor` | horust/src/horust/supervisor/repo.rs:18-28 | The loop over the configuration builds the repository the machine starts from. |
| `Supervisors.Supervisor.HandleServiceExited` | horust/src/horust/supervisor/mod.rs:121-168 | Updates services and pid map in place exactly as the machine handles an exit. |
| `Supervisors.Supervisor.SpawnForkExecHandler` | horust/src/horust/supervisor/process_spawner.rs:23-31 | One spawn thread is started, with the start delay and the backoff added up. |
| `Supervisors.Supervisor.Kill` | horust/src/horust/supervisor/mod.rs:359-383 | One signal goes to the process of the service, none if it has no pid. |
| `Supervisors.Supervisor.HandleEvent` | horust/src/horust/supervisor/mod.rs:119-289 | For every event the in-place updates, the threads spawned, the signals sent and the events produced are those of the machine. |
| `Supervisors.Supervisor.PollSigterm` | horust/src/horust/supervisor/mod.rs:298-310 | Publishes a graceful shutdown for a first signal, a forceful one during a graceful shutdown, nothing otherwise. |
| `Supervisors.Supervisor.HandleAll` | horust/src/horust/supervisor/mod.rs:312-315 | Handles a batch in order and stops exactly at the first event whose lookup fails. |
| `Supervisors.Supervisor.Iterate` | horust/src/horust/supervisor/mod.rs:293-333 | One turn of the loop brings the object to the state the machine's steps lead to, or panics exactly when they do. |
| `Supervisors.Supervisor.Run` | horust/src/horust/supervisor/mod.rs:293-354 | The loop over any turns and happenings ends in the state a run of the machine reaches, with the exit status of that state exactly when all services are terminal. |
| `Replicas.CommandsHandler.Receive` | horust/src/horust/commands_handler.rs:45-60 | After any events the copy holds the status last announced for each service up to the first shutdown announcement, and the handler panics exactly at an announcement for a service it does not know. |
| `Replicas.CommandsHandler.GetServiceStatus` | horust/src/horust/commands_handler.rs:71-76 | A client is told the status last announced, or that there is no such service. |
| `Replicas.AnnouncementsAgree` | horust/src/horust/supervisor/mod.rs:161-283 | In every run the status of a service is the one last announced in bus order, unless it was given by one of the two silent handlers and has not changed since, or a kill by force that is announced already is still under way. |
| `Replicas.AgreementExactly` | horust/src/horust/supervisor/mod.rs:161-283 | In every run that never starts the service over a process the announcement is right if and only if neither exception applies. |
| `Replicas.SilenceMisleads` | horust/src/horust/supervisor/mod.rs:203-207 | A copy that agrees no longer does after a failed spawn has been handled. |
| `Replicas.DrainedCopyAgrees` | horust/src/horust/commands_handler.rs:45-60 | Before a shutdown announcement, a commands handler that has received everything agrees with the supervisor on every service to which neither exception applies and, in a run that never starts the service over a process, on no other. |
| `HealthMonitors.HealthMonitor.Handle` | horust/src/horust/healthcheck/mod.rs:82-119 | Each event keeps one running worker for every service that is up and has checks and none for others; an unknown service panics; a shutdown stops all workers. |
| `HealthMonitors.ReportsAreExact` | horust/src/horust/healthcheck/mod.rs:85-90 | The monitor itself reports exactly the services that came up and have no checks, and reports them healthy. |
| `HealthMonitors.HealthMonitor.StopAll` | horust/src/horust/healthcheck/mod.rs:106-117 | The table is emptied and no worker ever started still runs. |
| `HealthMonitors.HealthMonitor.Run` | horust/src/horust/healthcheck/mod.rs:71-120 | After any events the table is that of the services up with checks, and after a shutdown announcement no worker runs. |
| `Watches.RunWatchesRightly` | horust/src/horust/healthcheck/mod.rs:82-105 | In every run that never starts the service over a process, the announcements have it watched only while it holds a pid and no exit of it is under way, and always while it is Started or Running and no exit of it is under way. |
| `Watches.MonitorWatchesRightly` | horust/src/horust/healthcheck/mod.rs:71-120 | In every orderly run before a shutdown announcement, the workers of a monitor that has received everything are only for services with a pid and no exit under way, and for all such services that are Started or Running and have checks; if only children whose reports have been handled are reaped, every process watched is there. |
| `Buses.Bus.JoinBus` | horust/src/horust/bus.rs:34-41 | A new connector starts empty at the present end of the dispatch log. |
| `Buses.Bus.SendEvent` | horust/src/horust/bus.rs:195-200 | A message goes to the end of the one input, and to the end of what its author has published. |
| `Buses.Bus.Retain` | horust/src/horust/bus.rs:107-113 | The message is appended to the queue of every connected channel and to no other, and the channels kept are exactly the connected ones. |
| `Buses.Bus.DispatchOne` | horust/src/horust/bus.rs:107-113 | One message goes to every connected channel and to the log; exactly the disconnected channels are dropped and no channel loses or gains anything else. |
| `Buses.Bus.Dispatch` | horust/src/horust/bus.rs:107-113 | When the loop ends all that was sent has been dispatched, in the order of sending, and every connected channel has received exactly what was dispatched since it joined. |
| `Buses.Bus.TryGetEvents` | horust/src/horust/bus.rs:191-193 | A connector that takes what has arrived has consumed exactly what was dispatched since it joined. |
| `Buses.Bus.DropConnector` | horust/src/horust/bus.rs:107-113 | A connector that goes away disturbs no other. |
| `Buses.Bus.ConnectorHearsAuthor` | horust/src/horust/bus.rs:107-113 | What a connector has consumed and still holds, restricted to one author, is exactly what that author published between the point of joining and the end of the dispatched messages, in order. |
| `SignalSafe.DecimalRoundTrip` | horust/src/horust/signal_safe.rs:59-95 | The decimal numeral of every integer is canonical and reads back as that integer. |
| `SignalSafe.ParseRoundTrip` | horust/src/horust/signal_safe.rs:59-95 | Every canonical numeral is the one rendered for the number it stands for. |
| `SignalSafe.NumeralsAreAscii` | horust/src/horust/signal_safe.rs:59-95 | Numerals are made of the ASCII digits, most significant first, after an ASCII minus sign for negative numbers. |
| `SignalSafe.WriteMagnitude` | horust/src/horust/signal_safe.rs:74-87 | The loop fills the buffer from the right with the digits of the number, without leaving it and without overflow. |
| `SignalSafe.I32ToStrBytes` | horust/src/horust/signal_safe.rs:59-95 | For every 32 bit number the bytes from the returned index on are its decimal numeral. |
| `Rotation.FileNamesAreSpelled` | horust/src/horust/supervisor/process_spawner.rs:213-224 | The name is the configured path, then the time of the start if wanted, then the number of the chunk but for the first, each after a dot. |
| `Rotation.FileNamesAreDistinct` | horust/src/horust/supervisor/process_spawner.rs:213-224 | Two chunks with different counters never get the same file name. |
| `Rotation.ChunksPartition` | horust/src/horust/supervisor/process_spawner.rs:247-262 | The chunks joined in order are the stream, all but the last have the rotation size and the last is shorter. |
| `Rotation.ChunkedWriter` | horust/src/horust/supervisor/process_spawner.rs:235-264 | The loop writes one file more than the stream has full chunks, each with its chunk unless the counter has come round to it again, and touches no other file. |
| `Rotation.NothingOverwrittenExactly` | horust/src/horust/supervisor/process_spawner.rs:213-264 | No chunk overwrites another if and only if there are at most 2^32 files. |

## Left out

- Forking, executing, process groups, users, cgroups, the effect of signals: a spawn is a thread that forks and then reports once, a signal an entry in a log.
- Probes, and what preparing a health check does: each is an arbitrary outcome. The loop of a health worker, which repeats probes until it is stopped, is not modelled; the machine lets any health report come at any time.
- Reading and merging configuration files, environment variables, the command line, the control socket and its protocol, conversions between names and enumerations.
- Wrap-around of the 32 bit counters of attempts and failed checks, and of the product of backoff and attempts: they are unbounded here.
- The chunk counter of log files wraps around as in a release build; the panic a debug build would raise, errors of the file system, and an output that is no path are not modelled.
- A rotation size of zero: the writer is only started for a positive size.
- Reports of pids that belong to no service (adopted orphans) do not count towards the twenty processes reaped in a turn.
- The signals sent to all processes when Horust runs as process 1, after the loop.
- Threads running inside the methods of the classes: interleavings are those of the machine's steps, and of whole calls on the bus.
- Fairness and real time: that a thread runs or a process dies eventually is not assumed, so there is a bound on status changes and a command that makes progress, and no claim that the program stops.
- Embedders that publish on the bus: they can break every property of runs.
- The history of a supervisor that panicked is not kept in `Iterate`, only its services.
