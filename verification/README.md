# Verified models of ws-model-proxy

Dafny models of the parts of ws-model-proxy that are hardest to get right, with proofs about
every input, every run or every reachable state. `dafny verify dfyconfig.toml` checks the
whole project.

State that the source changes in place is a class here, its loops are loops, and each such
method is proved against a function on values; the whole-run theorems use the same
functions. What comes from outside (sockets, clocks, files, processes, random factors, the
order of concurrent steps) is an input, so a theorem holds whatever it does.

| file | what it models |
|---|---|
| `run_state.dfy`, `run_registry.dfy`, `run_protocol.dfy`, `run_stuck_bound.dfy` | admission, spawn tickets, process registry, shutdown, reaping (`bounded_run.rs`) as a concurrent protocol |
| `run_verdict.dfy` | what one bounded run returns, for every schedule of reads, exits, deadlines and cancels |
| `body_streams.dfy`, `body_machine.dfy`, `body_steps.dfy`, `body_flow.dfy`, `body_credits.dfy`, `body_reasons.dfy`, `body_progress.dfy` | request body adapters and the credit window, from the server's credits to the upstream request |
| `relay_requests.dfy` | live and retired relay requests |
| `frame_gate.dfy`, `frame_order.dfy`, `frame_fates.dfy` | which node frames go out on which connection, across reconnects |
| `response_trace.dfy` | the relay worker's response frames, also on the count-first path |
| `usage_tail.dfy` | usage recovery from the last bytes of a response |
| `trust.dfy` | the trust word, what changes it, and the effects of a lowering |
| `backoff.dfy` | the reconnect backoff |
| `approvals.dfy`, `approvals_runs.dfy`, `approvals_owners.dfy`, `approvals_order.dfy` | terminal approvals over two files |
| `shell_quoting.dfy` | the suggested `set-server` command against the shells' word readers |
| `env_scanner.dfy`, `env_grammar.dfy`, `env_literals.dfy`, `env_keys.dfy`, `env_items.dfy`, `env_strays.dfy`, `env_sections.dfy`, `env_silence.dfy`, `env_names.dfy` | the env-schema scanner against a grammar of object literals and their items |
| `cast_policy.dfy`, `cast_reference.dfy`, `cast_names.dfy`, `cast_lexical.dfy`, `cast_sites.dfy`, `cast_leaks.dfy`, `cast_queries.dfy` | the Prisma cast policy against resolution of names, in the visitor's scopes and in the language's |
| `docker_copy.dfy` | the runtime reference closure |
| `common.dfy` | optional values, text at an index, joined pieces |

## Where the code and its own words differ

The models follow the code. Each of these is a lemma with a concrete input or an exact condition.

- Stuck children can exceed `MAX_RUNS`, up to `MAX_RUNS + LINGERING_MAX - 1`, because a failed hand-off
  releases its permit before it stops counting as stuck (`RunStuckBound.StuckExceedsMaxRuns`); the header of `bounded_run.rs` says they do not.
  They do exactly when the failed hand-offs still counted outnumber the permits that no stuck run holds, and never while no hand-off failed (`RunStuckBound.StuckIs`, `RunStuckBound.StuckWithinMaxRuns`).
- A registered run ends as `Cancelled` exactly when the caller's flag is set at its end, so one that only a shutdown kills ends as `ExitStatus(None)` (`RunVerdict.RunInner`, `RunVerdict.KilledReportsExitStatus`); the table in the header says `Cancelled`.
- A request can draw several settling frames on the wire: one from its worker, one from a cancel or body fault that crosses it, and one for each body chunk that comes after 256 other ids were retired and the node has forgotten it (`RelayRequests.SettledExactly`, `RelayRequests.ForgottenChunksSettle`).
- The closing teardown sends on a connection that never registered, past older deferred statuses (`FrameGate.TeardownOvertakes`). A deferred status is overtaken exactly when a teardown sends statuses while it is deferred (`FrameOrder.WireInOrder`), and an unregistered connection carries a frame exactly when its teardown sends one (`FrameOrder.UnregisteredCarries`).
- The count-first path can return one credit more than it was sent chunks (`BodyFlow.CountFirstReturnsOneMore`): exactly when its second reader took and acknowledged the buffered body and no credit was lost on the way (`BodyCredits.ExtraCredit`).
- The keys of a literal are read as written exactly when no item is shorthand, no key is bracketed, no quoted key is hidden by a comment before its colon or is no identifier, and no value has a colon after a key-like text (`EnvItems.ReadsItems`, `EnvKeys.QuotedKeyReads`, `EnvStrays.TernaryStrays`). So a variable given by shorthand, as in `server:{FOO}`, is neither found nor reported (`EnvSilence.ShorthandVariableIsSilent`).
- A variable section can be passed over without an error, as in `createEnv({server:base})` and `createEnv({server})` (`EnvSilence.ServerByName`, `EnvSilence.ServerShorthand`), although the scan says it refuses to report coverage while a section is unread. A scan without issues leaves a section unread exactly when it is shorthand, bracketed, quoted with a comment before its colon, or its value does not start with a brace (`EnvSilence.SilentIff`).
- The comment on `record_pending` says a code is never moved to a different identity. No single step moves one (`ApprovalsRuns.StepNeverMoves`), but a failed second write of an approval lets a code go and another identity takes it (`ApprovalsOwners.MovesWithoutRevocation`). A code keeps its identity exactly as long as no step lets it go and no rival asks for it while it is only pending (`ApprovalsOwners.KeepsIdentity`).
- A conflict mark does not last until it is revoked: a conflict that finds 63 newer marks in force ends it too, and nothing else does (`ApprovalsOwners.MarkLastsIff`, `ApprovalsOwners.MarkLetGoIff`).
- The cast policy says it follows one const hop; it follows any number (`CastReference.ResultIffAliased`). It reports each of several assertions on a name but one of several on a query (`CastReference.EachOnName`, `CastReference.OnceOnQuery`).
- The cast policy gives no scope to loops, `switch`, class bodies and catch clauses, and does not bind parameter properties and the names of functions, classes, enums and namespaces: a loop head hides a query after the loop, and a catch parameter or parameter property is taken for one (`CastLeaks.LoopHeadLeaks`, `CastLeaks.CatchParameterIsMissed`, `CastLeaks.ParameterPropertyIsMissed`). It finds the declaration the language does at every lookup exactly on the programs that never look up such a name (`CastSites.ResolvesAlikeIffClean`), and on those it reports exactly what it should (`CastLexical.CleanIsExact`).
- A covering copy keeps a file's path only when its source is `/app` or under it (`DockerCopy.PlacedAtSamePath`, `DockerCopy.CoversElsewhere`).
- A lowering of trust goes unnoticed only after a multiple of 2^63 lowerings between two looks (`Trust.FiresIffLowered`).

## Model

| member | source | states |
|---|---|---|
| `RunRegistry.Budget.Admit` | apps/cli/src/bounded_run.rs:147-154 | a permit is given exactly when fewer than `MAX_RUNS` are held and fewer than `LINGERING_MAX` children are stuck |
| `RunRegistry.Budget.Release` | apps/cli/src/bounded_run.rs:156-161 | dropping a permit takes one from `held`, saturating |
| `RunRegistry.Registry.BeginSpawn` | apps/cli/src/bounded_run.rs:232-245 | a ticket is given unless the registry is closed, and counts as spawning |
| `RunRegistry.Registry.Register` | apps/cli/src/bounded_run.rs:253-263 | redeeming a ticket records the run; when the registry has closed meanwhile, exactly that run is killed: SIGTERM to a launch guard, SIGKILL to the group and the child of any other |
| `RunRegistry.Registry.Unregister` | apps/cli/src/bounded_run.rs:266-268 | exactly the given pid is forgotten |
| `RunRegistry.Registry.CloseAndKill` | apps/cli/src/bounded_run.rs:392-411 | closing sends SIGTERM to every registered launch guard, SIGKILL to the group and the child of every other registered run, and nothing else to anyone |
| `RunRegistry.Kernel.KillRun` | apps/cli/src/bounded_run.rs:1249-1264 | a run gets SIGKILL to its group and to the child itself, a launch guard only SIGTERM, and no other process anything |
| `RunProtocol.StepKeepsInv` | apps/cli/src/bounded_run.rs:126-268 | every step of every interleaving keeps the counters, pids, registry and shutdowns consistent |
| `RunProtocol.ShutdownLeavesNothingRunning` | apps/cli/src/bounded_run.rs:391-411 | once a shutdown returned because nothing was mid-spawn, every launch guard ever spawned has exited or got SIGTERM, every other child has exited or got SIGKILL with its group, and nothing is spawned afterwards |
| `RunProtocol.GroupKilledFirst` | apps/cli/src/bounded_run.rs:1050-1092 | before a child is reaped, handed to a reaper or given up, its group and itself got SIGKILL, also if it had exited; a launch guard has exited or got SIGTERM |
| `RunProtocol.PidsAreOurs` | apps/cli/src/bounded_run.rs:252-268 | the registry names only unreaped children, a registration overwrites no other run, and neither the registry nor a run's own kill signals a pid that is not an unreaped child's |
| `RunProtocol.BudgetIsExact` | apps/cli/src/bounded_run.rs:126-161 | `held`, `stuck` and `spawning` are the numbers of permits, stuck children and tickets, within their bounds, and no subtraction saturates |
| `RunProtocol.AdmittedIff` | apps/cli/src/bounded_run.rs:147-154 | on every run a new run is admitted exactly while fewer than 64 runs hold a permit and fewer than 8 children are stuck |
| `RunProtocol.StuckCap` | apps/cli/src/bounded_run.rs:1158-1195 | while `LINGERING_MAX` children are stuck no run is admitted, so the stuck count rises by at most the runs then in flight |
| `RunStuckBound.StuckExceedsMaxRuns` | apps/cli/src/bounded_run.rs:48-57 | the bound of the budget is reached by a run of the protocol, above `MAX_RUNS` |
| `RunStuckBound.OrphansFailed` | apps/cli/src/bounded_run.rs:1158-1195 | a run counts as stuck without a permit exactly from its failed hand-off until it is uncounted |
| `RunStuckBound.StuckIs` | apps/cli/src/bounded_run.rs:48-57 | on every run the stuck count is the stuck permit holders plus the failed hand-offs not yet uncounted, so it passes `MAX_RUNS` exactly when those failed hand-offs exceed the other permits |
| `RunStuckBound.StuckWithinMaxRuns` | apps/cli/src/bounded_run.rs:48-57 | while no hand-off has failed, no more than `MAX_RUNS` children are stuck |
| `RunVerdict.ReadTurn` | apps/cli/src/bounded_run.rs:910-946 | one stream's turn keeps exactly what was read, or its first `limit` bytes when draining, and reports going over the limit |
| `RunVerdict.Collect` | apps/cli/src/bounded_run.rs:849-948 | collected output is whole, or already past the limit when not draining; it gives up only on cancel, deadline, a failed poll, or a pipe that does not end in time, and always when a cancel or the deadline comes before anything can be read |
| `RunVerdict.WaitForExit` | apps/cli/src/bounded_run.rs:1284-1299 | true exactly when the child was seen gone before the wait had to stop |
| `RunVerdict.ReapWithin` | apps/cli/src/bounded_run.rs:1134-1148 | the first status that comes before the time is up or an error, and none without one |
| `RunVerdict.RunInner` | apps/cli/src/bounded_run.rs:629-803 | success means complete output, an unforced exit and (unless any status will do) status 0; each error means what it says, and comes when it should: no permit, no pipes or no non-blocking reads give `Resources`, a failed spawn its error, and lateness at the start, at the spawn, while reading, at the exit or at the end `Timeout`; an undisturbed run succeeds or reports its status; `Cancelled` before registration exactly for the caller's flag or a refusing shutdown, and after it exactly when the flag is set at the end |
| `RunVerdict.KilledReportsExitStatus` | apps/cli/src/bounded_run.rs:629-803 | a registered run whose pipe closes and whose program a signal ended reports that signal, not `Cancelled` |
| `BodyStreams.TokioBodyStream.PollNext` | apps/cli/src/daemon.rs:501-534 | one poll of the streaming body: a chunk, a clean end only after the last one, an error when cut short |
| `BodyStreams.ExactLengthBody.PollNext` | apps/cli/src/daemon.rs:365-422 | never more than the declared length, and an error instead of a clean end with fewer bytes |
| `BodyStreams.PrefixedBody.PollNext` | apps/cli/src/daemon.rs:4076-4099 | the prefix first, then the rest |
| `BodyStreams.BufferBodyPrefix` | apps/cli/src/daemon.rs:4049-4074 | a body whose chunks stay within the cap until the last is given whole; otherwise a prefix whose last chunk, and no earlier one, passes the cap; aborted when the body stops coming; one credit per consumed chunk |
| `BodyStreams.CollectRequestBody` | apps/cli/src/daemon.rs:4101-4125 | the whole body exactly when it fits the cap, too large exactly when a prefix passes it, or aborted, with one credit per consumed chunk |
| `BodySteps.StepKeepsInv` | apps/cli/src/daemon.rs:427-482 | every step of server, socket, queue, bridge, reader and acks keeps the window and the bytes in order |
| `BodyFlow.WindowConserved` | apps/cli/src/daemon.rs:3336-3356 | credits, chunks on the way, queued, held and acks add up to the window while the body is read; a server that respects its credits is never faulted, whichever reader consumes the body |
| `BodyFlow.CountFirstReturnsOneMore` | apps/cli/src/daemon.rs:3483-3490 | a run of the count-first path that has one credit above the window on its way back |
| `BodyCredits.StepCounts` | apps/cli/src/daemon.rs:427-482 | each step changes what is in the window by exactly the credits it loses and the buffered body it takes again |
| `BodyCredits.WindowAccount` | apps/cli/src/daemon.rs:3336-3356 | on every run what is in the window plus the credits lost so far is the window, plus one if the buffered body was taken again, which happens at most once |
| `BodyCredits.ExtraCredit` | apps/cli/src/daemon.rs:3483-3490 | one credit above the window exactly when the second reader took the buffered body and nothing was lost; it is out exactly when that reader has also acknowledged |
| `BodyFlow.BodyFaithful` | apps/cli/src/daemon.rs:439-534 | for every schedule the upstream gets a prefix of the body; a clean end means all of it, and exactly the declared length |
| `BodyFlow.ReadersAgree` | apps/cli/src/daemon.rs:4041-4125 | however a body is read, two clean ends gave the upstream the same bytes |
| `BodyReasons.CreditDecides` | apps/cli/src/daemon.rs:4049-4125 | what a buffering reader does on each credit, by the bytes it has against the cap and whether the body has ended |
| `BodyReasons.StreamedOnlyPastCap` | apps/cli/src/daemon.rs:4049-4074 | on every run a body of unknown length is streamed only once more than the cap was taken of it, and sent whole only when all but its last chunk fits; one counted first is forwarded only when it fits |
| `BodyReasons.PollAnswers` | apps/cli/src/daemon.rs:365-534 | what each poll of the upload answers, by what is there for it |
| `BodyReasons.FailsOnlyForAReason` | apps/cli/src/daemon.rs:439-534 | on every run an upload fails only when its reader was stopped or its declared length is not the body's |
| `BodyReasons.OverCreditFaults` | apps/cli/src/daemon.rs:3336-3357 | a chunk that finds the queue full faults and retires the request and is not queued; any other is queued, in order |
| `BodyProgress.NeverBlocked` | apps/cli/src/daemon.rs:3336-3356 | no deadlock: in every state of every run in which nobody gave up and the request is not settled, some step other than giving up is enabled |
| `BodyProgress.AlwaysFinishes` | apps/cli/src/daemon.rs:427-534 | every such run can go on to its end in a bounded number of steps, and then the upstream has the whole body and a clean end, or an error exactly when the declared length is wrong |
| `RelayRequests.RecentlyFinished.Record` | apps/cli/src/daemon.rs:302-324 | the ring after recording an id |
| `RelayRequests.RecordKeepsRing` | apps/cli/src/daemon.rs:289-324 | queue and set hold the same distinct ids, the last 256 of the insertion log |
| `RelayRequests.StillKnown` | apps/cli/src/daemon.rs:289-324 | an inserted id is known until 256 further ids were inserted |
| `RelayRequests.RequestTable.State` | apps/cli/src/daemon.rs:210-219 | live, past or unknown |
| `RelayRequests.RequestTable.Start` | apps/cli/src/daemon.rs:221-226 | a request becomes live |
| `RelayRequests.RequestTable.Retire` | apps/cli/src/daemon.rs:228-247 | the one way out of the live table: recorded, and cancelled unless finished |
| `RelayRequests.RequestTable.AbortAll` | apps/cli/src/daemon.rs:249-252 | every worker is told to stop and nothing is recorded |
| `RelayRequests.TableInvariant` | apps/cli/src/daemon.rs:184-252 | after any events, live and retired ids are disjoint and the ring is exact |
| `RelayRequests.RetiredIsQuiet` | apps/cli/src/daemon.rs:3281-3357 | until 256 further ids are recorded a retired id gets no worker frame, no new request, no body fault and no cancel answer |
| `RelayRequests.KnownIff` | apps/cli/src/daemon.rs:210-219 | the node knows exactly the live ids and the last 256 it recorded |
| `RelayRequests.SettledAlways` | apps/cli/src/daemon.rs:3281-3357 | on every run the settling frames for an id are its answers, its cuts and the body chunks that met a node that did not know it |
| `RelayRequests.SettledExactly` | apps/cli/src/daemon.rs:1817-1834 | one request draws one frame if answered, one if cut, and one for each body chunk met while forgotten; so at most two, and two exactly when cut after its worker answered, unless such chunks come |
| `RelayRequests.ForgottenChunksSettle` | apps/cli/src/daemon.rs:3295-3299 | a request answered, finished and never cut, then 256 other retirements and `m` late chunks: `1 + m` settling frames |
| `RelayRequests.CompletedThenCancelled` | apps/cli/src/daemon.rs:2940-2949 | a cancel that crosses the completion: both frames go out |
| `RelayRequests.RelayedIffRunning` | apps/cli/src/daemon.rs:1817-1834 | on every run each frame of a running request's worker goes out and no other worker's does, and a cancel is acknowledged exactly when the request runs; running means started and not ended since |
| `RelayRequests.StartedIff` | apps/cli/src/daemon.rs:2934-2949 | on every run a request starts exactly when it is served and its id neither runs nor is among the last 256 recorded; otherwise it is refused |
| `RelayRequests.LiveAnswers` | apps/cli/src/daemon.rs:3281-3357 | what each kind of event draws while nothing has ended a new request, whatever came before and between |
| `FrameGate.Session.SendOutbound` | apps/cli/src/daemon.rs:4339-4363 | the frames go out in order up to the first refused write |
| `FrameGate.Session.Emit` | apps/cli/src/daemon.rs:1332-1356 | on a registered connection frames of every class go out up to the first refused write; before that statuses are deferred, session frames held, state held from the hello on and periodic ones dropped; a closing one sends session frames and statuses only |
| `FrameGate.Session.Flush` | apps/cli/src/daemon.rs:1613-1650 | deferred statuses first, then the session's held frames |
| `FrameGate.StepKeepsInv` | apps/cli/src/daemon.rs:1262-1356 | every step of the session loop and its teardown keeps order, count and scope of frames |
| `FrameGate.NothingBeforeHello` | apps/cli/src/daemon.rs:1317-1330 | nothing goes out before registration, and session frames go out on their own connection or never |
| `FrameGate.CommandsOnceInOrder` | apps/cli/src/daemon.rs:1452-1476 | each command status is exactly once on the wire, deferred or lost; those on registered connections keep their order across reconnects, before all deferred ones |
| `FrameGate.LostOnlyByWrites` | apps/cli/src/daemon.rs:4339-4363 | without a refused write no status is lost |
| `FrameGate.StoppedKeepsNothing` | apps/cli/src/daemon.rs:1724-1737 | a stopped daemon takes no step; the statuses that never went out are those lost to writes and those still deferred |
| `FrameGate.AllRegistered` | apps/cli/src/daemon.rs:1724-1737 | unless a teardown sends statuses of its own, every status on the wire went out on a registered connection |
| `FrameGate.TeardownOvertakes` | apps/cli/src/daemon.rs:1724-1737 | a run in which the teardown of a connection that never registered overtakes a deferred status |
| `FrameOrder.StepKeepsLate` | apps/cli/src/daemon.rs:1724-1737 | every step keeps the wire in order, with a teardown's statuses last and newer than every deferred one |
| `FrameOrder.WireInOrder` | apps/cli/src/daemon.rs:1452-1476 | on every run the statuses on the wire are in the order they were made; all come before the deferred ones if and only if no teardown sent statuses while some were deferred |
| `FrameOrder.UnregisteredCarries` | apps/cli/src/daemon.rs:1317-1330 | a connection that has not registered carries a frame if and only if its teardown sent one |
| `FrameOrder.SecondHelloEnds` | apps/cli/src/daemon.rs:1968-1984 | on every run a second acknowledgement of the hello on one connection ends its session |
| `FrameFates.RegisteredSends` | apps/cli/src/daemon.rs:1332-1356 | an emission on a registered connection puts its first frames, as many as are accepted, on the wire, whatever their class |
| `FrameFates.StepMoves` | apps/cli/src/daemon.rs:1317-1356 | each step moves each frame from where it is to where its class, the phase and the writes send it |
| `FrameFates.FrameFate` | apps/cli/src/daemon.rs:1317-1356 | on every run every frame made is exactly once on the wire, held, deferred, refused by a write or dropped with its session, unless its class is not wanted in the phase it was made in |
| `ResponseTrace.Worker.RelayChunk` | apps/cli/src/daemon.rs:4271-4289 | one upstream chunk goes out as numbered frames that join to it, all but the last of exactly 1 MiB; all of it when every send succeeds |
| `ResponseTrace.Worker.RelayResponseBack` | apps/cli/src/daemon.rs:3758-3822 | what went out by the phase reached, and how much of the body it carries; everything to `relay.complete` when every send succeeds and the body ended |
| `ResponseTrace.Worker.RunUpstreamWorker` | apps/cli/src/daemon.rs:3495-3530 | the worker's whole trace, with an error only when not completed and not cancelled; and exactly the full one when every send succeeds |
| `ResponseTrace.Worker.RunCountFirst` | apps/cli/src/daemon.rs:3372-3491 | at most one count frame, then a worker's trace or its end; when every send succeeds, the count frame, the refusal or the full trace that the count calls for |
| `ResponseTrace.TerminalEndsTrace` | apps/cli/src/daemon.rs:3532-3562 | no response frame follows a terminal one, so there is at most one of `relay.complete` and `relay.error` |
| `ResponseTrace.CompleteMeansWhole` | apps/cli/src/daemon.rs:3782-3820 | `relay.complete` comes only after headers, chunks 0 to n-1 that join to the upstream body, and one empty final chunk n |
| `ResponseTrace.ChunksArePrefix` | apps/cli/src/daemon.rs:4271-4289 | every chunk is numbered by its place, and the chunks sent are a prefix of the body |
| `UsageTail.TailBuffer.Append` | apps/cli/src/daemon.rs:3824-3838 | the buffer becomes the last 256 KiB of itself and the chunk |
| `UsageTail.CollectTail` | apps/cli/src/daemon.rs:3776-3793 | after any chunks the buffer is exactly the last min(total, limit) bytes |
| `UsageTail.JsonObjectEnd` | apps/cli/src/daemon.rs:3981-4012 | the loop finds what the specification of the scan gives |
| `UsageTail.ObjectEndExact` | apps/cli/src/daemon.rs:3979-4012 | for every JSON object text (sections 4 and 7 of RFC 8259) between any bytes, the end found is exactly its end |
| `UsageTail.TerminalUsage` | apps/cli/src/daemon.rs:3918-3942 | the usage of the last `"usage"` member that has one |
| `UsageTail.CutKeepsUsage` | apps/cli/src/daemon.rs:3915-3942 | after cutting a prefix the usage found is the old one if there was one and its member stays whole, and none otherwise |
| `UsageTail.TailGivesUsage` | apps/cli/src/daemon.rs:3824-3942 | from any chunks to the usage: the tail gives the last usable member when it and what follows fit |
| `UsageTail.FoundOnlyThere` | apps/cli/src/daemon.rs:3924-3942 | what is read after a key stands after ASCII blanks, a colon and blanks, and is a braced text |
| `Trust.TrustAuthority.Lower` | apps/cli/src/startup.rs:87-107 | Relay only and one more lowering in one step, right after the last change another thread got in before the swap, which comes in the first round that nobody disturbs; 64-bit wrap-around, whatever attempts fail |
| `Trust.AfterCounts` | apps/cli/src/startup.rs:87-113 | no lowering of any thread is lost: the count grows by all of them |
| `Trust.TrustAuthority.Raise` | apps/cli/src/startup.rs:109-113 | Full control, the lowering count unchanged |
| `Trust.Daemon.ApplyLower` | apps/cli/src/daemon.rs:826-834 | the latch holds even when writing fails |
| `Trust.Daemon.TakeLowering` | apps/cli/src/daemon.rs:839-846 | true when the count moved since the last look, which it marks |
| `Trust.Daemon.ReloadConfig` | apps/cli/src/daemon.rs:852-890 | a reload lowers when the file says relay and never raises |
| `Trust.Daemon.AnswerTrustRelay` | apps/cli/src/daemon.rs:1026-1045 | `wsmp trust relay` lowers and answers whether it changed |
| `Trust.Daemon.AnswerTrustFull` | apps/cli/src/daemon.rs:1063-1090 | `wsmp trust full` raises only with the peer check and the write done |
| `Trust.RisesOnlyByTrustFull` | apps/cli/src/daemon.rs:1063-1090 | over every interleaving trust rises only in a `TrustFull` whose check and write succeeded |
| `Trust.FullIffGranted` | apps/cli/src/daemon.rs:826-890 | by the history alone: trust is Full exactly when it was given, at the start or by a checked and written `TrustFull`, and no `TrustRelay` or reload that says relay took it back since, written or not |
| `Trust.LowersIff` | apps/cli/src/daemon.rs:826-890 | a step counts as a lowering exactly when it is a `TrustRelay` or a reload that takes Full control back |
| `Trust.FiresIffLowered` | apps/cli/src/daemon.rs:2379-2413 | a look fires exactly when trust was lowered since the look before it, up to wrap-around |
| `Trust.EffectsOnce` | apps/cli/src/daemon.rs:1121-1125 | a lowering takes effect at the very next look, and at no later one until trust is lowered again |
| `Trust.GrantedUntilLowered` | apps/cli/src/startup.rs:121-134 | work started under Full control is revoked exactly by a lowering since |
| `Backoff.ReconnectBackoff.NextWait` | apps/cli/src/daemon.rs:617-639 | the next delays and a wait of at least 0.8 of the delay used and at least the floor |
| `Backoff.WaitBounds` | apps/cli/src/daemon.rs:4741-4747 | the wait lies between 0.8 of the delay and the larger of the delay and 1.1 of the floor, and above the floor |
| `Backoff.CapsOnce` | apps/cli/src/daemon.rs:4836-4841 | after any history the delay is the uncapped doubling capped once, within 1 s to 300 s |
| `Backoff.DelayIsPower` | apps/cli/src/daemon.rs:601-639 | min(2^n, 300) s after n floor-free attempts since the last stable one |
| `Backoff.FatalIsPower` | apps/cli/src/daemon.rs:631-635 | fatal failures wait min(5 * 2^m, 300) s |
| `Backoff.WaitInNumbers` | apps/cli/src/daemon.rs:601-639 | what each attempt waits after any history, in numbers: 1 s or 5 s after a session of 30 s, else doubled up to 300 s, times its factor, or the floor times its own if longer |
| `Backoff.ShrinksOnlyWhenStable` | apps/cli/src/daemon.rs:572-579 | only a stable session makes a delay smaller |
| `Approvals.Store.RecordPending` | apps/cli/src/approvals.rs:53-98 | the outcome and the pending file after a request, whether or not the write works |
| `Approvals.Store.Approve` | apps/cli/src/approvals.rs:114-139 | the outcome and both files, also when the second write fails |
| `Approvals.Store.Revoke` | apps/cli/src/approvals.rs:158-178 | what is removed from which file, also when a write fails |
| `ApprovalsRuns.Reachable` | apps/cli/src/approvals.rs:53-178 | in every state of every run, between writes too: identities hash to their codes, entries and order agree within 64, pending and approved name one identity, marked codes are not pending |
| `ApprovalsRuns.NeverApprovedForAnother` | apps/cli/src/approvals.rs:124-133 | in no state of any run is the refusal of a code approved for another identity reached |
| `ApprovalsRuns.StepNeverMoves` | apps/cli/src/approvals.rs:49-52 | no single step gives a pending or approved code to a different identity |
| `ApprovalsRuns.ApprovedUntilRevoked` | apps/cli/src/approvals.rs:114-178 | an approved code keeps its identity until that code is revoked |
| `ApprovalsRuns.OnlyWhoAsked` | apps/cli/src/approvals.rs:53-98 | only an identity that asked is ever pending or approved |
| `ApprovalsRuns.RivalEndsPending` | apps/cli/src/approvals.rs:70-84 | a second identity under a pending code makes it unapprovable, unless the code was already approved for the pending one |
| `ApprovalsRuns.MarkLasts` | apps/cli/src/approvals.rs:76-81 | a conflict mark outlasts everything but its own revocation, while it has fewer than 64 newer conflicts |
| `ApprovalsOwners.StepOwner` | apps/cli/src/approvals.rs:53-178 | what every step does to the identity a code stands for: let go, taken, contested or unchanged, and exactly when |
| `ApprovalsOwners.KeepsIdentity` | apps/cli/src/approvals.rs:49-52 | over a run a code keeps its identity if and only if no revocation, failed second write or eviction lets it go and no rival asks for it while it is only pending |
| `ApprovalsOwners.NeverMoves` | apps/cli/src/approvals.rs:49-52 | a code that no step lets go never comes to stand for a different identity |
| `ApprovalsOwners.MovesWithoutRevocation` | apps/cli/src/approvals.rs:114-139 | a run without a revocation in which a code is pending for one identity and then for another |
| `ApprovalsOwners.MarkLastsExactly` | apps/cli/src/approvals.rs:26-29 | without revocations a conflict mark stays if and only if fewer than 64 newer conflicts followed |
| `ApprovalsOwners.MarkLastsIff` | apps/cli/src/approvals.rs:26-29 | on every run, other revocations included, a mark stays if and only if no step lets it go |
| `ApprovalsOwners.MarkLetGoIff` | apps/cli/src/approvals.rs:76-81 | a step lets a mark go if and only if it revokes the code or is a conflict while the mark has 63 newer ones |
| `ApprovalsOrder.RequestAnswered` | apps/cli/src/approvals.rs:53-84 | in every idle state of every run a request is accepted exactly when its code stands for nobody or for the identity that asks, and is told why otherwise |
| `ApprovalsOrder.ApprovalAnswered` | apps/cli/src/approvals.rs:114-133 | in every state of every run an approval finds exactly the identity its code is pending for, and a conflict exactly when the code is marked |
| `ApprovalsOrder.OrderIsByAge` | apps/cli/src/approvals.rs:85-98 | on every run the pending codes stand in the order in which they were last asked for |
| `ApprovalsOrder.EvictsOldest` | apps/cli/src/approvals.rs:85-98 | the code that a new one pushes out is the pending one last asked for longest ago |
| `ShellQuoting.QuoteFor` | apps/cli/src/config.rs:423-439 | the quoted form of a value for either shell |
| `ShellQuoting.ReadsQuoted` | apps/cli/src/config.rs:423-439 | a quoted value reads back as itself |
| `ShellQuoting.ReadsBack` | apps/cli/src/config.rs:440-445 | the command reads back as exactly six words with both arguments unchanged if and only if neither holds a NUL |
| `ShellQuoting.SetServerCommandFor` | apps/cli/src/config.rs:418-445 | a command exactly when the origin is canonical, and one that reads back |
| `EnvScanner.RunWalk` | scripts/lib/env-schema.ts:87-171 | the index loop does what the recursive specification of the walk does |
| `EnvScanner.MatchBrace` | scripts/lib/env-schema.ts:174-177 | just past the matching closer, or nothing |
| `EnvScanner.KeyReader.SeeChar` | scripts/lib/env-schema.ts:201-240 | what a code character does to token, pending key, entries and spread |
| `EnvScanner.KeyReader.SeeString` | scripts/lib/env-schema.ts:241-248 | what a string does to the pending key |
| `EnvScanner.ReadEntries` | scripts/lib/env-schema.ts:184-252 | the entries and spread flag the callbacks collect |
| `EnvGrammar.DeepPieces` | scripts/lib/env-schema.ts:87-171 | whatever nested brackets hold, the reader is untouched and the depth comes back |
| `EnvLiterals.ScansExactly` | scripts/lib/env-schema.ts:184-252 | for every literal of the grammar anywhere in a file, the scan succeeds, ends just past it, and gives exactly the entries of its key-like fields in order and its spreads |
| `EnvKeys.BareKeyReads` | scripts/lib/env-schema.ts:227-235 | a bare key reads back whatever spaces and comments surround it |
| `EnvKeys.QuotedKeyReads` | scripts/lib/env-schema.ts:213-225 | with any spaces and comments around it, a quoted key reads back exactly when it is an identifier and no comment stands between it and its colon; otherwise there is no key |
| `EnvKeys.InsidesDoNotMatter` | scripts/lib/env-schema.ts:184-252 | changing what comments, other strings, regexes and nested brackets hold never changes the keys |
| `EnvItems.ItemsCover` | scripts/lib/env-schema.ts:184-252 | every literal of the grammar is a list of items |
| `EnvItems.ReadsItems` | scripts/lib/env-schema.ts:184-252 | the keys read are the visible keys and the strays, in order; the entries read, name and start of value, are those written if and only if no item is shorthand, no key is bracketed or hidden, and no value strays |
| `EnvStrays.ShorthandUnread` | scripts/lib/env-schema.ts:201-240 | a literal of one shorthand name scans well and gives no key, for every name |
| `EnvStrays.NamesAloneDoNotTell` | scripts/lib/env-schema.ts:201-240 | a hidden key replaced by a stray one of the same name: the names are right although the entries are not |
| `EnvStrays.TernaryStrays` | scripts/lib/env-schema.ts:213-225 | the scan of `{A:x?"B":y}` in any text gives `A` and `B`, though only `A` is written |
| `EnvSections.ScanFile` | scripts/lib/env-schema.ts:281-374 | the loop over a file's calls collects what the specification of the scan gives |
| `EnvSections.ScanIsExact` | scripts/lib/env-schema.ts:281-374 | the scan reports exactly the variables that some scanned call declares |
| `EnvSections.CleanScan` | scripts/lib/env-schema.ts:305-359 | a scan without issues saw no spread, no unknown option and no section it could not read |
| `EnvSections.ScanReportsExactly` | scripts/lib/env-schema.ts:281-374 | the scan reports exactly what is wrong with some scanned config object, and an unclosed one |
| `EnvSilence.SilentIff` | scripts/lib/env-schema.ts:305-341 | a scan without issues leaves a section of a scanned call unread if and only if it is shorthand, bracketed, quoted with a comment before its colon, or its value does not start with a brace |
| `EnvSilence.PassedOverIsSilent` | scripts/lib/env-schema.ts:281-374 | a file whose one call gives one section in such a way adds nothing and reports nothing |
| `EnvSilence.ShorthandIsSilent` | scripts/lib/env-schema.ts:201-240 | for every section, `createEnv({section})` adds nothing and reports nothing |
| `EnvSilence.ServerShorthand` | scripts/lib/env-schema.ts:201-240 | the scan of `createEnv({server})` finds no variable and no issue |
| `EnvSilence.CommentedSectionIsSilent` | scripts/lib/env-schema.ts:213-225 | for every section and value, a quoted section with a comment before its colon adds nothing and reports nothing |
| `EnvSilence.ShorthandVariableIsSilent` | scripts/lib/env-schema.ts:343-370 | for every section and name, `createEnv({section:{name}})` adds nothing and reports nothing |
| `EnvSilence.NamedSectionIsSilent` | scripts/lib/env-schema.ts:331-341 | for every section and every name, a call that gives the section by name adds nothing and reports nothing |
| `EnvSilence.ServerByName` | scripts/lib/env-schema.ts:331-341 | the scan of `createEnv({server:base})` finds no variable and no issue |
| `EnvSections.WrittenVariablesFound` | scripts/lib/env-schema.ts:343-370 | from a section literal exactly the names read from its items are taken: its variables among them are reported, which is every variable written there when all items are read, and a spread is an issue |
| `EnvNames.Characters` | scripts/lib/env-schema.ts:53 | which characters start or go on a name, are blank, have a meaning of their own, or stand before a regex, as literal sets |
| `EnvNames.KeyScans` | scripts/lib/env-schema.ts:184-252 | the scan of `{name:z}`, with blanks around the name and any text around the literal, gives exactly that name if it is one and no key otherwise |
| `EnvNames.VariableFound` | scripts/lib/env-schema.ts:343-370 | for every section and name, `createEnv({section:{name:z}})` finds the name exactly when it is an upper-case variable |
| `EnvNames.DatabaseUrl` | scripts/lib/env-schema.ts:281-374 | the scan of `createEnv({server:{DATABASE_URL:z}})` finds `DATABASE_URL` and no issue |
| `EnvNames.OptionReported` | scripts/lib/env-schema.ts:305-330 | an option is reported exactly when it is neither a section nor one of the known ones, by name |
| `EnvNames.SquareDoesNotClose` | scripts/lib/env-schema.ts:87-177 | a `]` does not close an object |
| `EnvNames.EveryCallScanned` | scripts/lib/env-schema.ts:281-304 | on a scan that meets no unclosed object every `createEnv(` is scanned, lies inside a scanned object or has no brace after it |
| `CastPolicy.UnwrapNode` | scripts/check-prisma-query-cast-policy.ts:51-70 | the loop takes off every wrapper |
| `CastPolicy.Environment.BindPattern` | scripts/check-prisma-query-cast-policy.ts:160-185 | what a pattern's names receive |
| `CastPolicy.Checker.Visit` | scripts/check-prisma-query-cast-policy.ts:197-284 | the mutating visitor computes the specified environment, reports and findings, and meets no node twice |
| `CastPolicy.FindViolations` | scripts/check-prisma-query-cast-policy.ts:188-287 | the findings of a program, which the rows of `CastReference` and `CastQueries` describe |
| `CastReference.Matches` | scripts/check-prisma-query-cast-policy.ts:197-284 | at every node of every program the map equals resolution of every name in the visitor's scopes, and exactly the assertions wrong there are found |
| `CastReference.FindsExactly` | scripts/check-prisma-query-cast-policy.ts:188-287 | the violations are exactly those that resolution in the visitor's scopes calls wrong, in source order |
| `CastReference.ResultIffAliased` | scripts/check-prisma-query-cast-policy.ts:136-141 | a name holds a result if and only if it leads to a query through const aliases, however many, or to an element of `Promise.all` over queries |
| `CastReference.NameReportedIff` | scripts/check-prisma-query-cast-policy.ts:251-268 | an assertion on a name is reported if and only if the name leads to a query |
| `CastReference.EachOnName` | scripts/check-prisma-query-cast-policy.ts:251-268 | each of several assertions on a result's name is reported |
| `CastReference.OnceOnQuery` | scripts/check-prisma-query-cast-policy.ts:251-268 | of several assertions on a query only the outermost is reported |
| `CastQueries.QueryIff` | scripts/check-prisma-query-cast-policy.ts:91-113 | the checker takes an expression for a query exactly when, under any wrappers, it calls a raw operation on a client or a model operation on a delegate of one, with the operations by name |
| `CastQueries.TransactionIff` | scripts/check-prisma-query-cast-policy.ts:235-284 | a callback gets a client exactly when it is the first argument of a `$transaction` call on one |
| `CastQueries.PromiseAllIff` | scripts/check-prisma-query-cast-policy.ts:120-135 | it is an array of results exactly when it is `Promise.all` of an array literal with a query or result in it |
| `CastQueries.QueryReported` | scripts/check-prisma-query-cast-policy.ts:251-268 | for every query over an imported client, an assertion on it is reported |
| `CastQueries.TransactionReported` | scripts/check-prisma-query-cast-policy.ts:235-284 | for every query over a transaction callback's first parameter, an assertion on it is reported |
| `CastQueries.ConstReported` | scripts/check-prisma-query-cast-policy.ts:225-268 | for every query, an assertion on a const that holds it is reported |
| `CastQueries.ElementReported` | scripts/check-prisma-query-cast-policy.ts:120-185 | for every `Promise.all` over queries, an assertion on a name of its array pattern is reported |
| `CastNames.ConsultedDecides` | scripts/check-prisma-query-cast-policy.ts:90-141 | what a const holds depends only on the names its initializer consults |
| `CastLexical.ReportsSame` | scripts/check-prisma-query-cast-policy.ts:197-284 | at every node of a clean tree the visitor's scopes and the language's give the same reports |
| `CastLexical.CleanIsExact` | scripts/check-prisma-query-cast-policy.ts:188-287 | on every clean program the policy reports exactly what is wrong in the language's scopes, in source order |
| `CastSites.Track` | scripts/check-prisma-query-cast-policy.ts:197-284 | after every node the stale names are exactly those that the visitor and the language resolve to different declarations |
| `CastSites.ResolvesAlikeIffClean` | scripts/check-prisma-query-cast-policy.ts:197-284 | every lookup of a program finds the same declaration in both if and only if the program is clean |
| `CastLeaks.LoopHeadLeaks` | scripts/check-prisma-query-cast-policy.ts:225-234 | a program whose assertion on a query is missed because a loop head before it declared the name |
| `CastLeaks.CatchParameterIsMissed` | scripts/check-prisma-query-cast-policy.ts:235-250 | a program whose assertion on a catch parameter is reported for a query outside |
| `CastLeaks.ParameterPropertyIsMissed` | scripts/check-prisma-query-cast-policy.ts:142-156 | a program whose assertion on a parameter property is reported for a query outside |
| `DockerCopy.CoveringCopy` | scripts/check-docker-copy.ts:226-232 | a copy that covers the path, or none when no copy does |
| `DockerCopy.CoversIff` | scripts/check-docker-copy.ts:226-232 | a file of the app is covered exactly by copies of itself or of a directory it is in to the same place |
| `DockerCopy.PlacedAtSamePath` | scripts/check-docker-copy.ts:226-232 | a covering copy keeps the path if and only if its source is `/app` or under it |
| `DockerCopy.CoversElsewhere` | scripts/check-docker-copy.ts:226-232 | two copies that cover a path and put the file elsewhere |
| `DockerCopy.AppFilesKeepTheirPath` | scripts/check-docker-copy.ts:226-232 | for files of the app that always holds |
| `DockerCopy.MissingRuntimeReferences` | scripts/check-docker-copy.ts:241-265 | terminates, and returns each uncovered file reference of each script reachable through readable modules exactly once, and nothing else |
| `DockerCopy.EntryReference` | scripts/check-docker-copy.ts:241-265 | a file reference of an entry script is missing exactly when no copy keeps the file, or a directory it is in, where it is |
| `DockerCopy.ModuleReference` | scripts/check-docker-copy.ts:241-265 | a `.js` or `.mjs` file that an entry refers to is followed in its turn |
| `DockerCopy.ReachedIsModule` | scripts/check-docker-copy.ts:241-265 | nothing but entries and such files is followed |
| `DockerCopy.OrderIndependent` | scripts/check-docker-copy.ts:241-265 | the order and repetition of the entries do not matter |

## Left out

- Windows job objects and named pipes, and reaping on other Unix systems, which has a documented window of pid reuse.
- `kill_all_active_for_panic`, which may give up on a held lock by design.
- Websocket, HTTP client, TLS, file system and signal calls: only their outcomes are inputs.
- Answers that bypass `emit` (direct replies of the session loop), terminals, file relay, runtimes, updates and speech-to-text.
- `terminal_usage_from_response` before and after its tail search: the whole-document parse and the event-stream lines are library parsing.
- RunProtocol.PidsAreOurs: the session kills that follow the reap of a launch guard (`end_killed_session`, and `kill_session` in the reaper) signal members of a reaped leader's session and are not steps of the model.
- RunVerdict.Collect: time is a schedule of observations, so a bound in seconds is not stated.
- Backoff.ReconnectBackoff.NextWait: the random factors are any reals in their intervals; floating-point rounding is not modelled.
- Approvals.Store.RecordPending: the key order of an older file without an order list is a parameter; concurrent unlocked writers are not modelled.
- Approvals.Store.Approve: whether the typed text is a well-formed code is an input.
- Trust.Daemon.ApplyLower: nobody else writes the word during the call; other threads' changes come between the steps of a run, and `Trust.TrustAuthority.Lower` covers those during the swap.
- Trust.Daemon.ReloadConfig: runtime hosts, the browser terminal switch and the frozen copy on disk are not part of the model.
- ShellQuoting.ReadsBack: PowerShell's own passing of double quotes to native programs is outside its word reader.
- ShellQuoting.SetServerCommandFor: the origin's normal form (`normalize_public_origin`, `is_plain_dns_name`) is a parameter.
- EnvItems.ReadsItems: a quoted key is named by its text as written, escapes included; methods, accessors and computed keys other than a string count as nameless.
- EnvSections.ScanFile: `createEnv(` and the brace after it are found in the file's raw text, as in the source, so a call inside a comment or string counts; when such text leaves the scan as it was is not stated.
- EnvSections.ScanIsExact: one file's text; listing and reading the files is left out, and the second `ok` checks are left out because they can never fail after the brace match.
- EnvScanner.RunWalk: a character is a code point, so a surrogate pair of the source counts once.
- EnvGrammar.DeepPieces: template literals with nested templates, and division in values, are outside the grammar.
- CastPolicy.Checker.Visit: type annotations and default values in parameters and patterns are not part of the tree, and a node's identity is its path, so that a tree that shares nodes is not modelled.
- CastSites.ResolvesAlikeIffClean: names are in scope from their declaration on; `var`, uses before a declaration and hoisted functions are not modelled.
- DockerCopy.MissingRuntimeReferences: the reference scan, path resolution and directory test are parameters, and a finding is a pair, not its message.
- `logicalLines`, the healthcheck budget and the workspace checks of `scripts/check-docker-copy.ts`: only easy members.
- `encodeEnvValue` and capability inventory parsing: their inverse or meaning lies in libraries.
