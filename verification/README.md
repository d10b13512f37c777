# A verified model of scaffold

Scaffold runs the lifecycle of an HTTP daemon: it opens listeners, calls the service's hooks, and
tears everything down again. What it is for is order and exactly-once behaviour that survive
errors, panics and concurrency. This project models that behaviour in Dafny and proves it.

`dafny verify dfyconfig.toml` checks everything.

## How it is organised

| files | subject |
|---|---|
| `Lifecycle.dfy` | Start, Serve, Stop and the shutdown sequence, as functions of a script that says what every hook, listen, probe and server shutdown does |
| `LifecycleGrammar.dfy`, `LifecycleFacts.dfy`, `LifecycleContexts.dfy` | one automaton that accepts every trace, and what acceptance means for order, counts and contexts |
| `CallbackLaws.dfy`, `CallbackRuns.dfy`, `ShutdownLaws.dfy`, `StopErrors.dfy`, `StartupLaws.dfy` | callbacks that register callbacks, in one pass and over whole runs; cleaner functions and errors over whole runs; which servers a failed startup leaves running |
| `LifecycleRaces.dfy`, `LoopRecords.dfy`, `FalseAlarms.dfy` | every interleaving of the main thread, concurrent Stops and serve loops; the shutdown flag, what is logged of a serve loop, and which expected returns are reported as errors all the same |
| `Daemon.dfy` | the imperative code, on mutable objects, proved equal to `Lifecycle.dfy` |
| `Cleaner.dfy`, `CleanerRuns.dfy` | the Cleaner in one thread, with re-entrant calls, and under any interleaving |
| `Binding.dfy`, `SetterOrder.dfy`, `BindingStore.dfy` | the setters of a binding, when their order matters, the handler it builds, the ordered store |
| `Handlers.dfy`, `HandlerLaws.dfy`, `Responses.dfy`, `Serving.dfy` | middleware, dispatch and panic recovery: reference semantics, laws, what is sent, and the code over writer objects |
| `ResponseWriter.dfy`, `WriterObjects.dfy` | the two response-writer wrappers in arbitrary stacks, as values and as objects |
| `Metrics.dfy` | request counts and the collector cache under concurrency |
| `PortWait.dfy` | the readiness probe |
| `Basics.dfy` | shared vocabulary |

Concurrency is modelled as a total step function over actions; an action that is not enabled
leaves the state alone, so a run is any sequence of actions and a statement about all sequences is
a statement about all interleavings. One step is one critical section, one atomic operation or one
externally visible effect.

Sockets, `net/http`, the clock and user code are oracles: a script or a world value says what they
do. Two facts about `net/http` are assumed where they are needed: `Server.Serve` returns
`ErrServerClosed` exactly because of that server's own `Shutdown`, and reacts to nothing else
(`LifecycleRaces.MayReturn`); and a response is committed by the first final WriteHeader, Write or
Flush (`ResponseWriters.WireStatus`).

## Where the code and its documents differ

The model follows the code.

- `Serve` returns success on the normal path even if OnStop or Clean fails (scaffold.go:468-470); docs/features/mvp/prd.md:113 says failure.
- After a bind failure the open bindings are shut down before OnStop runs (scaffold.go:173-189); docs/features/mvp/prd.md:395 has the opposite order.
- A binding whose readiness probe fails is not among the opened ones (scaffold.go:569-575), so nothing shuts its server down. "Every server that was started is shut down" is therefore false: `StartupLaws.ServeLeavesBehind` says exactly when, `StartupLaws.ProbeFailureLeavesServer` gives a run.
- The flag is to be stored before any action that can make a serve loop return (docs/adr/0003-binding-exit-does-not-tear-down-the-daemon.md:45), and a Cleaner that stops a foreign server is to make its exit expected (line 39). Both hold of the teardown only. A ServeFunc can also be ended by the cancellation of OnStart's context (scaffold.go:433-436), by the signal or the cancellation that starts the shutdown (scaffold.go:455-464), or by a Clean that a hook calls, all before the flag is stored; then an expected return is logged as an error. `FalseAlarms.FalseAlarmIff` says exactly when, `FalseAlarms.CancelledStartRaisesAlarm` and `FalseAlarms.HookCleaningRaisesAlarm` give runs.
- `panicTrackingWriter.Flush` does not mark the response as written (middleware.go:87-91) although it commits it, so a handler that flushes and then panics gets a mixed response: `HandlerLaws.RecoveryMixesIff` says exactly when.
- `panicTrackingWriter.WriteHeader` marks the response as written for a 1xx code too (middleware.go:66-69) although that commits nothing, so a handler that sends one and then panics is answered with 200 and no body: `HandlerLaws.InterimThenPanicSucceeds` is an input, `HandlerLaws.PanicStatus` gives the status of every panicking request.
- A collector set stays in the cache when its `MustRegister` panics (prometheus/metrics.go:98-103), so later calls for the same registerer return collectors that are not registered, against prometheus/metrics.go:41-44: `CollectorCaches.EqualRegisterersShare` says exactly when, `CollectorCaches.UnregisteredSetIsShared` gives a run.
- A Clean is refused at once while another goroutine's is still draining (cleaner.go:52-55), so a shutdown can return with cleaner functions still to run: `CleanerRuns.RefusedCleanFinds` says exactly what it finds.
- The context route to the 500 handler agrees with the binding's own lookup only as long as no middleware replaces the request's context by an unrelated one: `BindingModel.RecoveryUsesBindingHandler` says exactly when.
- The doc comment of ServeFunc (binding.go:153-154) does not list error handlers among the exclusions; the code excludes them (binding.go:165-167).
- Whether a set of setter calls panics can depend on their order, because an empty argument list leaves no trace and a nil or zero argument erases one: `BindingModel.EmptyArgumentsDependOnOrder` and `BindingModel.ErasingArgumentsDependOnOrder` give inputs, `SetterOrders.OrderDoesNotMatterIff` says exactly when the order does not matter.
- The status label is not always the status sent: a late WriteHeader moves it, and a 1xx code stays in it. `ResponseWriters.LabelIsWireStatusIff` says exactly when the two agree.

## Model

| member | source | states |
|---|---|---|
| `LifecycleGrammar.ServeIsAccepted` | scaffold.go:354-471 | For every script of hook outcomes, the trace of Serve is accepted by one automaton that fixes the order of all effects (OnStart; a startup refused before any binding logs its error, except that Start does not log a failed listing of the bindings; per binding listen, spawn, probe, in Add order; listen-ready callbacks; ready; flag and announcement; before-shutdown callbacks; HTTP shutdowns in reverse; OnStop; Clean; stopped), and each exit code corresponds to one final state |
| `LifecycleGrammar.StartAndStopAreAccepted` | scaffold.go:145-156 | The same automaton accepts every Start, and every Start followed by user code and Instance.Stop, whose shutdown uses the context given to Stop |
| `LifecycleGrammar.LaunchParses` | scaffold.go:267-343 | Start and Serve up to "daemon ready", every failed startup included, end in exactly the automaton state of their outcome |
| `LifecycleFacts.AcceptedTraces` | scaffold.go:173-189 | What acceptance means, read off the trace alone: flag stored before any teardown effect, bindings opened in Add order, HTTP shutdowns the mirror image, each milestone once |
| `LifecycleFacts.ServeGuarantees` | scaffold.go:398-470 | Serve returns 0 iff daemon ready was reached, and else 1 unless OnStart's panic escapes; in either case its trace is one complete teardown: OnStop and Clean once, exactly the opened HTTP bindings shut down, in reverse; a start timeout is set and cancelled once iff OnStartTimeout is positive |
| `LifecycleFacts.StartGuarantees` | scaffold.go:311-343 | Start succeeds iff "daemon ready" was reached, then every binding is open and nothing is torn down; a Start that fails after OnStart is one complete teardown |
| `LifecycleFacts.StopGuarantees` | scaffold.go:145-155 | Stop completes the teardown of a successful Start |
| `LifecycleFacts.StartupAccounting` | scaffold.go:542-578 | For every run of Serve, with n the first binding that cannot be listened on or does not answer: the bindings before n are opened, n is tried and has a serve loop exactly if it could be listened on, those after n are never tried; exactly the HTTP bindings among the opened ones are shut down, in reverse; Serve returns 0 iff startup gets to opening and every binding comes up |
| `LifecycleFacts.StartAccounting` | scaffold.go:318-331 | The same of every Start, whether it succeeds or fails |
| `LifecycleFacts.StopAccounting` | scaffold.go:145-155 | Once a successful Start has been stopped, all its HTTP bindings have been shut down, in reverse |
| `StartupLaws.OrphanIff` | scaffold.go:563-576 | With distinct names no server is shut down twice, and a server that was started is never shut down iff it is that of the first binding that did not come up, http, and could be listened on |
| `StartupLaws.ServeLeavesBehind` | scaffold.go:422-434 | The two sides of that of every run of Serve that returns |
| `StartupLaws.FailedStartLeavesBehind` | scaffold.go:326-331 | The same of every Start that fails after OnStart |
| `StartupLaws.StopLeavesNothing` | scaffold.go:145-155 | A daemon that came up is stopped with no server left |
| `StartupLaws.ProbeFailureLeavesServer` | scaffold.go:569-575 | A run in which Serve returns and leaves a server behind: one http binding that can be listened on and does not answer its probe |
| `LifecycleGrammar.OpenCount` | scaffold.go:550-577 | openBindings stops at the first binding that cannot be opened |
| `LifecycleContexts.ServeContexts` | scaffold.go:393-483 | Serve gives OnStart and the listen-ready callbacks a context of the caller with OnStartTimeout, and every step of any shutdown a context of Background with OnStopTimeout, each of them carrying the config, the secrets and the logger; a startup that fails runs no callback and does not announce the stop |
| `LifecycleContexts.FailedStartContexts` | scaffold.go:310-331 | A Start that fails uses its caller's context throughout, enriched and without timeouts, runs no callback and does not announce the stop |
| `LifecycleContexts.StopContexts` | scaffold.go:145-155 | A successful Start gives OnStart its caller's context, and is torn down on the context given to Stop, both enriched and without timeouts |
| `LifecycleContexts.EventsFit` | scaffold.go:173-190 | In every accepted trace each hook and shutdown step was given the context its phase calls for, callbacks appear only after all bindings are open, and the stop is announced only at the end |
| `LifecycleFacts.EndsTornDown` | scaffold.go:173-190 | Any trace that ends a shutdown in the automaton shows the whole teardown: the opened bindings are a prefix of the Add order, at most one more was tried, those and no others are shut down in reverse |
| `CallbackLaws.PassCallsFinalList` | scaffold.go:222-239 | runCallbacks terminates and calls every callback of the final list exactly once, in list order, callbacks registered on the way included and panics notwithstanding |
| `CallbackLaws.PassGrows` | scaffold.go:74-84 | A pass removes nothing from either callback list |
| `CallbackRuns.ServeCalls` | scaffold.go:354-471 | Over every run of Serve that comes up: the listen-ready callbacks called are exactly those on the list when its pass ended, in order, each once; the same of the before-shutdown ones, which include those registered while the daemon was up; what is registered later on either list is never called; a Serve that does not come up calls none |
| `CallbackRuns.StartAndStopCall` | scaffold.go:145-156 | The same over every Start followed by Stop, and every Start that fails |
| `CallbackLaws.OriginsInOrder` | scaffold.go:226-228 | Callbacks added during a pass run in the order of the callbacks that registered them |
| `CallbackLaws.PassIsBreadthFirst` | scaffold.go:215-221 | No callback runs before one that is fewer registrations away from the initial list |
| `CallbackLaws.PlainPassIsLevelOrder` | scaffold.go:222-239 | For callbacks that only register and panic, the calls are the level order of the registration forest, a panicking callback contributing the children it registered before its panic |
| `CallbackLaws.HookMarks` | scaffold.go:226-238 | A callback's panic is recovered and logged right after it iff it panics: at a panic of its own, an Add to a Cleaner that has started, or a binding name that is taken |
| `CallbackLaws.PlainPassRecovers` | scaffold.go:222-239 | In a pass over callbacks that register and panic, each panic is logged before the next callback, and no other record is made |
| `CallbackLaws.QueueIsLevels` | scaffold.go:226-228 | Appending registrations to the list that is being walked enumerates the forest level by level |
| `Lifecycle.RunHookAppends` | scaffold.go:226-239 | One callback only appends to the lists, and what remains to be walked gets strictly lighter; this is why a pass ends |
| `ShutdownLaws.ServeRunsEveryCleaner` | scaffold.go:354-471 | When Serve returns after OnStart, the cleaner functions that ran are exactly those that were added, in reverse order, each once, even if a hook called Clean itself |
| `ShutdownLaws.StopRunsEveryCleaner` | scaffold.go:145-156 | The same for Start followed by Stop, and for a Start that fails |
| `ShutdownLaws.ShutdownCleansUp` | scaffold.go:185-188 | No shutdown leaves a cleaner function behind, nor accepts one afterwards |
| `ShutdownLaws.CloseErrors` | scaffold.go:176-181 | The errors of the server shutdowns are joined in reverse Add order; a recovered panic is not among them |
| `ShutdownLaws.ShutdownErrors` | scaffold.go:173-190 | The error of runShutdown is exactly the sequence of failures it logged: the server errors in reverse Add order, then the OnStop error iff OnStop returned one rather than panicking, then the complaint about a second Clean iff user code had cleaned already |
| `ShutdownLaws.StopErrors` | scaffold.go:145-156 | What the first Stop returns, in whatever state it finds the daemon: the server errors in reverse Add order, OnStop's error iff OnStop returned one, and the complaint about a second Clean iff user code had cleaned |
| `StopErrors.StopReturnsFailures` | scaffold.go:145-156 | Over every Start followed by Stop: the errors Stop returns are exactly the failures in the trace, all of them logged after the flag is stored |
| `StopErrors.ProgramReturnsFailures` | scaffold.go:145-156 | What the threads of LifecycleRaces execute is that very trace, and the error the winning Stop is given is its failures |
| `ShutdownLaws.ShutdownLogs` | scaffold.go:173-214 | What any shutdown logs: every server told to shut down, each followed by its failure or its recovered panic if it has one, then OnStop with its panic or else its error |
| `ShutdownLaws.ActsKeepNamesDistinct` | bindings.go:45-47 | Whatever user code does, binding names stay distinct and no binding disappears |
| `LifecycleRaces.NoFalseAlarm` | scaffold.go:585-611 | In every interleaving of the main thread, any number of Stops and the serve loops: an error-level record about a binding implies that its loop was started, that it returned, and that it then loaded the flag before it was stored; the return was not caused by the teardown, by which are meant the before-shutdown callbacks, the server Shutdowns, OnStop and the final Clean, and it is no ErrServerClosed of an HTTP server; a debug record comes only after the flag was stored |
| `FalseAlarms.FalseAlarmIff` | scaffold.go:585-611 | Exactly when a return that something caused can be reported as an error: some interleaving of the run has such a record about the binding, caused by e, iff the binding is not an HTTP one and its start and e both come before the flag is stored |
| `FalseAlarms.HttpNeverFalseAlarm` | scaffold.go:585-611 | An error record about an http binding of the run is about a server that stopped on its own, and not with ErrServerClosed |
| `LoopRecords.EveryReturnIsClassified` | scaffold.go:585-611 | In every interleaving of every run over distinct names: a serve loop that has returned and loaded the flag leaves exactly one record, an error if the flag was unset, a debug record if it was set and the return was an error other than ErrServerClosed, and otherwise none; before that there is no record about the binding |
| `FalseAlarms.CancelledStartAlarms` | scaffold.go:433-436 | With an OnStartTimeout, in every Serve that returns, cancelling it can raise an alarm about every ServeFunc that was started |
| `FalseAlarms.SignalAlarms` | scaffold.go:455-464 | In every Serve that came up, so can the signal or the cancellation that ends it |
| `FalseAlarms.HookCleaningAlarms` | docs/adr/0003-binding-exit-does-not-tear-down-the-daemon.md:39 | So can a cleaner function run by a Clean that user code calls before the shutdown |
| `FalseAlarms.CancelledStartRaisesAlarm` | scaffold.go:433-436 | A run with such an alarm: the second binding cannot be listened on, and the ServeFunc of the first watches OnStart's context |
| `FalseAlarms.HookCleaningRaisesAlarm` | docs/adr/0003-binding-exit-does-not-tear-down-the-daemon.md:39 | Another: user code runs the Cleaner while the daemon is up, and the cleaner function stops the ServeFunc's server |
| `FalseAlarms.StartupIsBeforeFlag` | scaffold.go:423-436 | In every accepted trace all serve loops are started, and the start timeout is cancelled, before the flag is stored |
| `LifecycleRaces.StopRunsOnce` | scaffold.go:145-156 | With any number of concurrent Stops the shutdown runs once, no Stop returns before it is complete, and only the winner can be given its error |
| `LifecycleRaces.StopsCanReturn` | scaffold.go:145-156 | Progress: from every state any interleaving reaches, the run can go on to where Start or Serve is through, the shutdown is complete if Stop was called, and every caller of Stop has returned |
| `LifecycleRaces.RunKeepsInv` | scaffold.go:585-611 | The invariant of the interleaving machine holds in every reachable state |
| `LifecycleRaces.ProgramsStoreFlagFirst` | scaffold.go:320-436 | Every program a thread executes stores the flag before every step of the teardown; what else can end a ServeFunc comes earlier, which is the subject of FalseAlarms |
| `LifecycleRaces.LateFlagRaisesFalseAlarm` | docs/adr/0003-binding-exit-does-not-tear-down-the-daemon.md:45 | Storing the flag after srv.Shutdown instead has a run in which an expected ErrServerClosed is logged as an error |
| `Daemons.OpenBinding` | scaffold.go:550-575 | One pass of the loop of openBindings: the built handler is installed on http bindings; the address and the server only after a successful listen; the server serves the pipeline the setters describe, with the binding's timeouts and TLS config |
| `Daemons.OpenAll` | scaffold.go:542-578 | openBindings, in place: what it returns is the opened prefix of the order; a binding whose listen failed has no server, one whose probe failed keeps it although it was not opened, those after it are untouched |
| `Daemons.CloseBinding` | scaffold.go:196-214 | shutdownBinding: only a binding with an http.Server is shut down, its error is returned, its panic is not |
| `Daemons.CloseAll` | scaffold.go:175-181 | The reverse loop of runShutdown, appending to errs, equals the reverse-order specification in effects and errors |
| `Daemons.NewBinding` | bindings.go:39-55 | A new binding is accepted iff its name is free, and is then the last of the store |
| `Daemons.Daemon.RunUserCode` | scaffold.go:57-84 | Code in a hook acts on the shared lists, the Cleaner and the bindings as specified, up to its first panic |
| `Daemons.Daemon.RunCallbacks` | scaffold.go:222-239 | The index loop over a growing list, proved against the recursive specification |
| `Daemons.Daemon.CallOnStop` | scaffold.go:245-257 | OnStop with its panic recovered; only a returned error is returned |
| `Daemons.Daemon.CallClean` | scaffold.go:185-188 | Clean as the last step; a double call is logged and returned |
| `Daemons.Daemon.RunShutdown` | scaffold.go:173-190 | The whole shutdown sequence, its effects and its joined errors |
| `Daemons.Daemon.Launch` | scaffold.go:267-333 | Start and Serve up to ready: the effects, the outcome, the flag set exactly when startup was aborted, and the bindings registered when OnStart returned left open |
| `Daemons.Daemon.Withdraw` | scaffold.go:423-434 | A failed startup cancels its timeout, stores the flag and shuts down only the opened bindings |
| `Daemons.Daemon.Serve` | scaffold.go:354-471 | Serve equals its specification in every effect and in its exit code |
| `Daemons.Daemon.Start` | scaffold.go:267-343 | Start equals its specification; it returns an Instance exactly when the daemon is up |
| `Daemons.Instance.Stop` | scaffold.go:145-156 | The first Stop runs the shutdown and returns its server errors, OnStop's error iff it returned one, and the complaint about a second Clean iff there was one; every later Stop changes nothing and returns no error |
| `Cleaners.Cleaner.Add` | cleaner.go:37-44 | Panics iff Clean has started, and then changes nothing; otherwise pushes the function |
| `Cleaners.Cleaner.Clean` | cleaner.go:50-70 | The first call drains the whole stack and succeeds; any other, re-entrant ones included, fails without touching anything |
| `Cleaners.Cleaner.RunOne` | cleaner.go:72-83 | One function's errors and panics are logged and leave the Cleaner as it was |
| `Cleaners.DrainIsLifo` | cleaner.go:46-49 | Clean runs every function exactly once, in the reverse order of the Adds, whether functions fail, panic, add or clean again |
| `Cleaners.DrainComplains` | cleaner.go:72-83 | What Clean logs, function by function in reverse order: each refused Clean up to the function's first Add, which panics and is logged; without an Add, its panic or its error |
| `CleanerRuns.EveryInterleavingIsLifo` | cleaner.go:37-83 | In every interleaving of Adds and Cleans by any threads, re-entrant ones included: what has been invoked is a prefix of the reverse of the successful Adds, and all of it once the winning Clean has returned |
| `CleanerRuns.OneCleanStarts` | cleaner.go:50-59 | At most one Clean starts, and no Add succeeds after it |
| `CleanerRuns.StartedForever` | cleaner.go:40-43 | Once started, running || done holds for ever and the stack stays empty |
| `CleanerRuns.StartedCleanCanComplete` | cleaner.go:61-69 | Progress: from every state any interleaving reaches, a Clean that has started can go on to its end, with every added function invoked, latest first |
| `CleanerRuns.RefusedCleanFinds` | cleaner.go:50-59 | In every interleaving, a Clean that finds the Cleaner started is refused at once; everything added has been invoked by then iff the winner has no function left to start, and has finished iff in addition the winner is inside none; the winner has returned iff done is set |
| `CleanerRuns.RefusedBeforeTheDrain` | cleaner.go:50-59 | A run in which a Clean is refused while nothing has been invoked |
| `CleanerRuns.RunKeepsInv` | cleaner.go:17-23 | The invariant of the machine holds in every reachable state |
| `BindingModel.RunStaysConsistent` | binding.go:58-175 | Over every sequence of setter calls with panics recovered: a ServeFunc excludes every part of the HTTP pipeline, and only 404 and 500 ever have a handler |
| `BindingModel.SettersAreKept` | binding.go:58-175 | After any sequence of setter calls the configuration holds exactly what the calls that did not panic were given: middleware and RPC handlers in call order, one error handler per status, and the mux, the TLS config, each timeout and the ServeFunc of the last call that set it |
| `BindingModel.PanicFreeIff` | binding.go:58-175 | For calls with non-trivial arguments, panic-freedom is exactly the absence of a clashing pair |
| `BindingModel.PanicFreedomIgnoresOrder` | binding.go:58-175 | Hence panic-freedom does not depend on the order of the calls |
| `BindingModel.PairwiseIsHarmonious` | binding.go:58-175 | Absence of a clashing pair is a property of the multiset of calls |
| `BindingModel.EmptyArgumentsDependOnOrder` | binding.go:58-63 | An input for which the order of the calls matters: an empty argument list leaves no trace for ServeFunc to refuse |
| `BindingModel.ErasingArgumentsDependOnOrder` | binding.go:127-132 | Another: a nil argument erases the trace of an earlier call |
| `BindingModel.FineInAnyOrderIff` | binding.go:58-175 | For arbitrary arguments: a set of calls configures a binding without a panic in every order iff each call alone does and no two of them may clash |
| `SetterOrders.FineInSomeOrderIff` | binding.go:58-175 | For arbitrary arguments: there is an order in which the calls do not panic iff each call alone does not, no two register a handler for one status or set a mux, and, when a ServeFunc is called and none undone with nil, nothing is set that cannot be unset and what can be is unset by some call |
| `SetterOrders.OrderDoesNotMatterIff` | binding.go:58-175 | Whether a set of calls panics is the same in every order iff no two of them may clash, or no order could make them fine |
| `SetterOrders.ForeignErases` | binding.go:155-175 | Before a ServeFunc that stays in force everything set on the pipeline has been unset |
| `BindingModel.PairsAreAccepted` | binding.go:58-175 | When a call alone, and when a pair of calls in a given order, is accepted by a fresh binding, read off the guards |
| `BindingModel.Binding.UseMiddleware` | binding.go:58-63 | Appends, or panics without a change iff a ServeFunc is set |
| `BindingModel.Binding.AddRPC` | binding.go:71-76 | Appends, or panics without a change iff a ServeFunc is set |
| `BindingModel.Binding.SetMux` | binding.go:83-91 | Sets the mux, or panics without a change iff a ServeFunc or a mux is set |
| `BindingModel.Binding.SetErrorHandler` | binding.go:101-120 | Registers the handler, or panics without a change iff a ServeFunc is set, the handler is nil, the status unknown or already taken |
| `BindingModel.Binding.SetTLS` | binding.go:127-132 | Sets the TLS config, or panics without a change iff a ServeFunc is set |
| `BindingModel.Binding.SetTimeouts` | binding.go:139-146 | Sets the timeouts, or panics without a change iff a ServeFunc is set |
| `BindingModel.Binding.ServeFunc` | binding.go:155-175 | Sets the function, or panics without a change iff any part of the HTTP pipeline is configured |
| `BindingModel.Binding.BuildHandler` | binding.go:195-234 | The handler built by the loop is the reference pipeline, and building it does not change the Binding |
| `BindingModel.BindingDelivers` | binding.go:195-242 | Every request to every binding, whatever its middleware and handlers do, delivers the reference response, with the 404 and 500 handlers it registered: the same calls at the server, the same handlers served, the same escape of a panic |
| `BindingModel.BindingAnswers` | binding.go:197-234 | For a binding whose layers only pass the request on: the mux serves iff all RPC handlers decline and it has a route, not-found iff they decline and it has none; the server receives what the RPC handlers write, followed by the mux's body, or the body registered for 404, or the default WriteHeader(404) and Write; a panic adds the body registered for 500, or the default one, iff there is a PanicRecovery and nothing had been written |
| `BindingModel.ErrorHandlersHideRoute` | binding.go:226-233 | With error handlers registered the request is handed on as a copy, and the route its mux finds is not seen outside the binding |
| `BindingModel.RecoveryUsesBindingHandler` | binding.go:226-242 | A PanicRecovery anywhere answers with the handler resolveErrorHandler gives for 500 iff no outer middleware dropped the request's context or no 500 handler is registered |
| `BindingModel.DetachedContextLosesHandler` | middleware.go:47-51 | An input for the exception: a middleware that replaces the context makes the PanicRecovery inside it answer with the default although a handler is registered |
| `BindingModel.BindingNests` | binding.go:195-234 | Every request to a binding, with or without registered error handlers, obeys the nesting discipline of LayersNest |
| `BindingStores.NamesInFirstAddOrder` | bindings.go:39-55 | Over any Adds, panicking duplicates included: every name once, in the order of the first Adds; the store keeps its order equal to this function of the Adds it has seen |
| `BindingStores.StoreInFirstAddOrder` | bindings.go:39-76 | The order of any store is that of the first Adds of its names |
| `BindingStores.BindingStore.Add` | bindings.go:39-55 | Fails iff the name is taken, and then changes nothing; otherwise appends a fresh binding under its own name |
| `BindingStores.BindingStore.OrderedBindings` | bindings.go:68-76 | Lists each binding once, in Add order, each the one Get returns under its name |
| `Handlers.Compose` | binding.go:218-221 | The reverse loop over the middleware builds the chain with the first-registered outermost |
| `HandlerLaws.DispatchOrder` | binding.go:199-216 | RPC handlers are consulted in registration order up to the first that claims or panics; only if all decline, exactly one of mux and not-found handler runs, the latter also when a ServeMux has no matching pattern |
| `Responses.DispatchAnswers` | binding.go:199-216 | What the dispatcher makes the writer receive: the calls of the RPC handlers up to the first that does not decline, and if all decline those of the mux when it has a route, else of the not-found handler |
| `Responses.ChainDelivers` | binding.go:195-234 | For every chain of any middleware, on any stack of writers that cannot be taken over: what reaches the server, who served, and whether a panic escapes are those of a reference that knows neither writers nor contexts |
| `Responses.ServerReceives` | binding.go:195-234 | On a writer nothing has been sent on, the server receives the reference's calls and sends their status |
| `Responses.ObservedStatusIff` | prometheus/metrics.go:53-73 | The pattern HTTPMetrics observes is the request's or unknown, and the status it observes is the one the server sends iff the handler's last WriteHeader is for the code first committed |
| `Responses.PanicIsNotObserved` | prometheus/metrics.go:53-73 | A request whose handler panics through the layer is not observed |
| `HandlerLaws.LayersNest` | binding.go:218-233 | Every run of any chain, whatever the middleware and the leaf handlers do, obeys the nesting discipline: layers enter in registration order and exit in reverse; from the moment a panic starts, in a middleware, the dispatcher or a 500 handler, nothing happens but its recovery by the nearest enclosing PanicRecovery; and a panic that comes out leaves active exactly the layers down to where it started |
| `HandlerLaws.PanicGoesToNearest` | binding.go:195-234 | The event after any panic, at whatever depth it starts, is its recovery by the nearest PanicRecovery outside; there is none iff there is no such PanicRecovery, and then the panic comes out of the handler |
| `HandlerLaws.SkippedLayersDoNotExit` | binding.go:195-234 | After a recovery no layer inside it exits unless it is entered anew: the layers between the panic and its recovery are skipped |
| `HandlerLaws.PanicUnwinds` | middleware.go:31-55 | Closed form of the enter, recover and exit events for one panic at any depth d, or none, when the layers outside d call next once and the 500 handler does not itself panic: the layers down to d enter, a layer exits unless the panic passes through it, the innermost PanicRecovery outside d stops it, and it escapes iff there is none |
| `HandlerLaws.RecoverySends` | middleware.go:31-55 | What one PanicRecovery lets through: the handler's own calls, followed by the 500 handler's iff the handler panicked without committing; the panic goes on iff the 500 handler itself panics |
| `HandlerLaws.RecoveryNeverMixes` | middleware.go:22-24 | A handler that uses WriteHeader and Write only and then panics: the client gets its calls if there are any and otherwise the 500 handler's, never a mixture |
| `HandlerLaws.RecoveryMixesIff` | middleware.go:83-91 | In general the two are mixed iff the handler flushed, on a writer that can flush, and made no WriteHeader or Write |
| `HandlerLaws.PanicStatus` | middleware.go:31-55 | The status the client of a panicking handler sees, for any handler inside, on a writer nothing has been sent on: the status its own calls commit if it made a WriteHeader or Write; 200 if it only flushed; and otherwise that of the 500 handler |
| `HandlerLaws.InterimThenPanicSucceeds` | middleware.go:66-69 | An input for which a panicking request is answered as a success: a 1xx header counts as written |
| `HandlerLaws.FlushThenPanicMixes` | middleware.go:83-91 | Such a mixture is real on any writer that can flush: flush, then panic |
| `HandlerLaws.ContextFinds500` | error_handler.go:55-72 | At every layer of every chain, the handler found through the context is the binding's own unless a layer outside it detached the context |
| `HandlerLaws.PatternFlows` | prometheus/metrics.go:46-63 | Where the mux's pattern ends up: each layer sees it unless a middleware below handed on a copy of the request |
| `HandlerLaws.LabelIsRouteIff` | prometheus/metrics.go:60-68 | The pattern label is the matched route iff no middleware below the metrics layer copies the request |
| `HandlerLaws.CopiedRequestIsUnknown` | prometheus/metrics.go:60-63 | An input for the exception: with a copying middleware in between, a routed request is counted under unknown |
| `Serving.ServeHTTP` | binding.go:199-233 | Serving over writer objects updated in place equals the reference semantics in writer state, trace and outcome |
| `Serving.Dispatch` | binding.go:199-216 | The RPC loop and the fallback, over writer objects |
| `Serving.PanicRecovery` | middleware.go:31-55 | The recovering closure, over a tracking writer object |
| `Serving.HTTPMetrics` | prometheus/metrics.go:53-73 | The metering closure: one observation iff the handler returns normally, with the pattern and status labels of the specification |
| `ResponseWriters.ForwardedIsFaithful` | middleware.go:58-60 | A wrapper's effect on the writer below is exactly the calls it forwards |
| `ResponseWriters.WrittenIffCommits` | middleware.go:61-91 | written is set iff a WriteHeader or Write was made; Flush does not set it |
| `ResponseWriters.TrackingForwardsWrites` | middleware.go:66-74 | Without Flush and Hijack every call is forwarded unchanged |
| `ResponseWriters.StatusClosedForm` | prometheus/writer.go:28-73 | The captured status as a function of any call sequence: the last WriteHeader before a granted Hijack, a Write or Hijack filling in 200 or 101 only if unset |
| `ResponseWriters.HijackedFreezes` | prometheus/writer.go:56-59 | After a successful Hijack no call changes a set status |
| `ResponseWriters.CallsReachBase` | prometheus/writer.go:28-54 | Through any stack, every call reaches the base writer in order, Flush iff the base can flush |
| `ResponseWriters.LabelIsWireStatusIff` | prometheus/metrics.go:64-68 | For any sequence of calls in which no Hijack is granted, on any stack: the status label equals the status net/http sends iff there is no WriteHeader or the last one is for the code of the first call that commits the response |
| `ResponseWriters.LabelIsWireStatus` | prometheus/metrics.go:64-68 | In particular it does for a well-formed handler: at most one WriteHeader, final, before any Write or Flush |
| `ResponseWriters.LateHeaderMislabels` | prometheus/writer.go:28-34 | An input for which they differ: a WriteHeader after a Write changes the label but not the status sent |
| `ResponseWriters.FlushReachesBase` | prometheus/writer.go:46-54 | On any stack of wrappers Flush reaches the base iff the base is a Flusher, and changes no wrapper |
| `ResponseWriters.WriteReachesBase` | prometheus/writer.go:36-44 | On any stack a Write reaches the base, hijacked or not |
| `ResponseWriters.HeaderReachesBase` | prometheus/writer.go:28-34 | A WriteHeader reaches the base iff no layer has been hijacked |
| `ResponseWriters.HijackReachesBase` | prometheus/writer.go:60-73 | A Hijack reaches the base iff every layer is a metering writer and the base has the method |
| `ResponseWriters.HijackSucceedsIff` | prometheus/writer.go:60-73 | Hijack succeeds iff every layer is a metering writer and the base grants it |
| `ResponseWriters.GrantedHijackMarksAll` | prometheus/writer.go:66-71 | A successful Hijack marks every layer, each with a non-zero status |
| `ResponseWriters.TakenOverForever` | prometheus/writer.go:28-45 | From then on no call changes any layer |
| `WriterObjects.PanicTrackingWriter.WriteHeader` | middleware.go:66-69 | Sets written and forwards, in place |
| `WriterObjects.PanicTrackingWriter.Write` | middleware.go:71-74 | Sets written and forwards, in place |
| `WriterObjects.PanicTrackingWriter.Flush` | middleware.go:87-91 | Forwards iff the wrapped writer is a Flusher; written is unchanged |
| `WriterObjects.ResponseWriter.WriteHeader` | prometheus/writer.go:28-34 | Captures the status and forwards, or does nothing once hijacked |
| `WriterObjects.ResponseWriter.Write` | prometheus/writer.go:36-44 | Fills in 200 if unset, unless hijacked, and forwards |
| `WriterObjects.ResponseWriter.Flush` | prometheus/writer.go:50-54 | Forwards iff the wrapped writer is a Flusher |
| `WriterObjects.ResponseWriter.Hijack` | prometheus/writer.go:60-73 | Succeeds iff the wrapped writer grants it, and then marks itself and fills in 101 if unset |
| `PortWait.WaitForListener` | port_wait.go:19-41 | At most timeout/10ms + 2 dials, given only that timers fire no earlier than asked; if in addition dials keep to their timeout, a bound on the time taken, and before a timeout is reported at least as many dials as fit at 110 ms each; success iff the last dial connected; a timeout is reported only past the deadline; no dial once a cancellation has been observed, and none at all iff the context was already cancelled |
| `PortWait.ProbeAll` | scaffold.go:569 | Probing n bindings makes at most 502 dials each, and gives up on one, unless cancelled, only after 5 seconds |
| `RequestCounts.CountsAreConserved` | prometheus/metrics.go:53-73 | For every label triple and interleaving: counter minus histogram is the number of requests between Inc and Observe, and the histogram counts exactly the requests that passed both; panicking requests are in neither |
| `RequestCounts.CountsAreOfReturned` | prometheus/metrics.go:60-71 | For every label triple and interleaving: the histogram counts exactly the observed requests that returned with that method, that pattern (unknown if empty) and that status (200 if none), and the counter those that were at least counted |
| `RequestCounts.QuietCountsAgree` | prometheus/metrics.go:70-71 | With no request under way counter and histogram agree on every label |
| `RequestCounts.RecordedForever` | prometheus/metrics.go:53-73 | What was recorded of a request, or that it panicked, is final |
| `CollectorCaches.RegistersAtMostOnce` | prometheus/metrics.go:76-104 | MustRegister is called at most once per registerer in every interleaving |
| `CollectorCaches.EqualRegisterersShare` | prometheus/metrics.go:41-44 | Calls with equal registerers return the same collectors; these are registered iff the call that stored them has come back from MustRegister without a panic |
| `CollectorCaches.CallsKeepRegisterer` | prometheus/metrics.go:48-52 | In every interleaving a call is for the registerer it was given, and for the default one if it was given nil |
| `CollectorCaches.NilCallersShare` | prometheus/metrics.go:39-44 | Hence calls given nil share their collectors with each other and with those given the default registerer |
| `CollectorCaches.AllRegistered` | prometheus/metrics.go:98-103 | Once no call is under way, MustRegister has been called exactly once for each registerer used, with the collectors its callers got; these are registered iff that call did not panic, and nothing else is registered |
| `CollectorCaches.PanickedSetStays` | prometheus/metrics.go:98-103 | After a MustRegister that panicked, whatever is called later: the set stays cached, nothing is ever registered with its registerer, and every call that gets a set for it gets the unregistered one |
| `CollectorCaches.UnregisteredSetIsShared` | prometheus/metrics.go:98-103 | A run in which a caller is handed collectors that are not registered |
| `CollectorCaches.CollectorCache.CollectorsFor` | prometheus/metrics.go:76-104 | The first call builds, stores and registers, or panics in MustRegister with the set stored; a later one returns the same collectors and registers nothing |

## Left out

- Re-entrant `Instance.Stop` from inside a hook: it would wait for itself on `sync.Once`.
- `runtime.Goexit` in a hook, a cleaner function or a handler.
- OnStart that panics: modelled as the outcome `Escaped`, in which nothing is torn down, as in the code; what the caller then does is not modelled.
- Listen-ready callbacks that register themselves without end: a script is finite, so such a pass, which would never end, does not occur.
- Cleaner functions that register lifecycle callbacks or add bindings: they may add and clean, nothing else.
- User middleware that hands its own ResponseWriter wrapper to the next handler: a stack consists of the two wrappers of this repository over the server's writer.
- Muxes other than `http.ServeMux` that set the request's pattern themselves.
- Fairness of the scheduler: the progress results say that the work can always be completed from where it stands, not that a scheduler will.
- Cleans called by other goroutines in the middle of a run: `Lifecycle` has those that hooks and user code on the main thread call; `CleanerRuns` has the others.
- Binding setters called by hooks in the middle of a run: a hook adds a binding already configured as http or as ServeFunc.
- User code while the daemon is up runs between ready and the shutdown, not interleaved with the shutdown sequence; in `LifecycleRaces` it belongs to the main program and runs before any Stop.
- What `Launch` does before "daemon starting" beyond one yes-or-no answer: address resolution (network.go) and the loopback warning.
- `WithTimeout` contexts expire: a script decides what each hook does, so deadlines appear in the context value only; the `cancel` of the shutdown context is not an event.
- Signal handling: the arrival of a signal and the cancellation of the caller's context are one event.
- User middleware that recovers panics itself, starts goroutines, or keeps the writer after returning.
- Handlers that bypass the wrappers through `Unwrap` and `http.ResponseController`.
- Re-panics with `http.ErrAbortHandler` and what the server does with a panic that leaves the outermost layer.
- Status codes outside 100 to 999, for which `net/http` panics.
- Header maps, body bytes, JSON text, log text and stack traces: a Write is a Write, a record is an event.
- `http.ServeMux` matching: the mux reports a pattern or none; 405 replies are not modelled.
- `translateDialAddr`, TLS handshakes, real listeners and the internals of `http.Server`, of which the fields that scaffold sets are kept.
- Probe results in `Lifecycle` are a yes or no per binding; `PortWait` models the probe by itself.
- Prometheus buckets, durations and the exposition format: only counts are kept. A `MustRegister` that panics is modelled as registering neither of the two collectors, its cause is not modelled.
- config.go, config_map.go, config_file.go, handlers.go, http_wire.go, logger.go: lookups and thin wrappers with one branch each.
- The mutex of `bindingStore` and of the collector cache in their imperative versions: those are single-threaded; the interleavings of the cache are in `CollectorCaches`.
