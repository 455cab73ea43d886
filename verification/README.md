# Verified model of the exam platform

A Dafny 4.11 model of the hard parts of the platform: the life of an exam attempt as concurrent
requests and redelivered jobs over one store and one queue, the provisioning and teardown of its
machines, the clone-profile template language, the path of a scenario from its files to a percentage,
the generated firewall rules, and the periodic reconciliation. `dafny verify dfyconfig.toml` checks it.

## How it is built

**The attempt lifecycle** comes in layers.

- `AttemptLifecycle` is the status table and what its paths look like.
- `AttemptProtocol` is a step relation. Every request, job handler and reconciler tick is a thread with
  a program counter, cut at every store, queue and provider call; one action is one such call, an
  arrival, a delivery (of the same job any number of times), a crash or a return. The caller of `Run`
  picks the actions, so a theorem about `Run` for every action sequence is about every interleaving and
  every pattern of failing calls. The `book` fields are history that no handler reads.
  `ProtocolInvariant`, `ProtocolTheorems`, `ProtocolLedger` and `ProtocolGrading` hold for all runs, with
  `TransitionAttempt` split into its read and its write; where a stale write does harm, the laws count such
  writes in the `book`. `ProtocolFinality` and `ProtocolReopening` say exactly when a score, and an attempt in
  `grading`, can still change: the first keeps them still, the second builds a run for every other case.
  `ProtocolNoStrand` and `ProtocolCleanup` speak about one attempt and assume that no write of its own status
  is stale (`Fresh`), whatever happens to others; `ProtocolNoStrand` further assumes of the calls made for
  that attempt that the few in `Critical` do not fail and that no thread crashes right before its enqueue
  (`Benign`).
- `ProtocolScenes` builds runs from any reachable state. `ProtocolLimits` says exactly when a failing critical
  call leaves an attempt unserved and has, for every kind of them and for a stale write, a run that keeps
  all the assumptions until that one call and then strands the attempt. `ProtocolStale` shows that the laws
  are met with equality for any number of stale writes, and what a single one does.
- `ProtocolRequests` follows one request from its arrival: who may charge a purchase. `ProtocolGates` says what
  stands in the tables when a thread comes to a call that cannot be taken back, and when it returns a nil error.
- `Server` is the handlers' own sequential code over mutable tables, in which any other handlers may run
  between two calls. It starts empty; purchases, client requests and deliveries arrive, and every request,
  handler and reconciler tick is shown to be a run of the protocol, so the theorems above are about this
  code. Its field `troubles` counts the calls that fail and those before which others ran; where it does not
  move, "undisturbed" below, every contract says outright what becomes of the tables, in the terms of
  `TableEffects`, which know nothing of the protocol. `Platform` relates the tables to protocol states.

**Machines.** `ProfileTemplates`, `ProfileScanners` and `ProfileConfig` are the template language, its
two scanners and the loader. `Proxmox` is the provider as a class whose cluster other clients change
between any two requests; `ProxmoxMachines` is the account of machines its contracts are stated in;
`MockProvider` is the in-memory provider; `Environments` carries specification, result and metadata;
`Decimals` and `Text` are the library functions used.

**Scenarios.** `Scenarios` has the validators, `ScenarioTables` the stored rows and the join, `Importer`
the import over a store whose calls may fail, `Grading` the score and the percentage.

**Operations.** `Firewall` interprets the generated script as commands on a rule chain, run after run, each
cut short where iptables refuses a rule. `Reconciler` is the tick once more with nothing running in between,
to say where a tick and a drain of its jobs lead; `Server.Server.Reconcile` is the tick among other handlers.

## What turned out

- An attempt is refunded at most once for its first try, once for each reset and once for each stale write
  of its provisioning start or failure, and no less will do: for every number of resets and stale writes
  there is a run with all these refunds (`ProtocolLedger.RefundLaw`, `ProtocolStale.RefundLawIsTight`). A
  stale write is two handlers of one job that both read `environment_provisioning` before either writes.
- The handler that records a provisioning failure reports success even when the record fails, so either half
  of that transition, when it fails, strands the attempt (`ProtocolLimits.FailedReadStrands`,
  `ProtocolLimits.FailedWriteStrands`); so does a failing or never made enqueue, and a late write of
  `environment_provisioning` over a finished one (`ProtocolLimits.StaleWriteStrands`).
- A grading handler that fails or crashes after its first transition leaves the attempt in `grading` for
  ever: the table refuses every redelivery. An attempt stays in `grading` whatever comes exactly when no
  thread of it is between the lookups and the final transition or before a status write
  (`ProtocolReopening.AbandonedGradingIsStuck`, `ProtocolStale.GradingCanBeAbandoned`).
- No handler ever writes `cleanup_pending` or `destroyed` to an attempt
  (`ProtocolTheorems.StatusesReached`); an attempt put into `cleanup_pending` by other means and without
  an environment is enqueued again by every tick (`Reconciler.NextTickWants`).
- The administrator guide (docsite/admin.md:261) says that grading again overwrites the results. The code
  refuses the second grading as long as status writes are fresh. Two grade jobs that overlap can both pass
  the check, and after that one stale write a final score of 10 out of 10 becomes 0 out of 10
  (`ProtocolStale.StaleWriteOverwritesScore`). A score can still change exactly when some handler of the
  attempt is before the write of a score or before a status write other than the final one; one that makes
  the attempt ready counts only where a session can still be opened for the first time
  (`ProtocolReopening.ScoreStaysExactlyWhen`).
- A cleanup job looks for an environment of the attempt, not of the try. One enqueued when the first try
  failed and delivered after a retry destroys the environment of the running second try
  (`ProtocolCleanup.LateCleanupHitsTheSecondTry`).
- Cleanup only ever finds one environment of an attempt. With several rows it converges exactly when the
  others were destroyed already (`Reconciler.OnlyTheFirstEnvironmentGoes`).
- Repeating a cleanup is harmless exactly as long as no machine listed is in use again or was left over
  (`Reconciler.RepeatIsHarmlessExactlyWhen`); the mock provider never reuses an identifier, Proxmox may.
- The provider drops the errors of failing deletions, so the row becomes `destroyed` all the same: exactly
  these machines stay, and no later tick asks for them again (`Reconciler.OneEnvironmentIsGone`).
- The importer's product lookup returns no product on any error, so the branch that would report the
  error is dead and a failing lookup adds a second product for an existing title, exactly then
  (`Importer.SecondProductExactlyWhen`, `Importer.FailedLookupDuplicatesProduct`).
- A version row stops every later import of the same file and commit, complete or not, so an import that
  failed half-way is not repaired by running it again (`Importer.ScenarioStore.ImportParsedScenario`).
- Rules of earlier firewall configurations stay in force (`Firewall.NewConfigDecidesExactlyWhen`). The
  script deletes the old drops first and stops at the first rule that iptables refuses, such as that of a
  proxy address that names no host: then all web traffic is open, exactly then
  (`Firewall.OpenExactlyWhenCutShort`).

## Model

| member | source | states |
|---|---|---|
| AttemptLifecycle.PathLengthBound | internal/attempts/statemachine.go:7-65 | every path through the table has at most 11 + 3 edges a provisioning retry + 2 edges a cleanup retry, so an endless run retries without end |
| AttemptLifecycle.PathLengthBoundIsTight | internal/attempts/statemachine.go:7-65 | for every number of retries of either kind some path has exactly that length |
| AttemptLifecycle.PathWithinBudget | internal/attempts/statemachine.go:7-65 | the same bound from every single status |
| AttemptLifecycle.NeverBackToRunning | internal/attempts/statemachine.go:22-65 | from any status after `running`, no path leads back to it |
| AttemptLifecycle.RunningAtMostOnce | internal/attempts/statemachine.go:22-65 | a path visits `running` at most once |
| AttemptLifecycle.ScoredPathMilestones | internal/attempts/statemachine.go:10-78 | a path from `attempt_requested` to `scored` passes `environment_ready`, `running` and `grading`, in that order |
| AttemptLifecycle.StillToHandInExactlyWhen | internal/attempts/statemachine.go:10-78 | the table leads on to a hand-in or an expiry from exactly eight statuses |
| ProtocolInvariant.RunKeeps | internal/orchestrator/provision_job.go:25-274 | every run keeps the invariant tying counters, statuses, environments, sessions, queued jobs and program counters together |
| ProtocolTheorems.CounterConserved | internal/store/purchase_store.go:50-70 | in every reachable state the counter is not negative and equals grant minus charges plus compensations plus refunds; every charge is accepted, given back, lost with its compensation, or still open |
| ProtocolTheorems.AcceptedWithinGrant | internal/attempts/service.go:34-75 | whatever requests race past the stale check, counter plus accepted, lost and open charges equal grant plus refunds, so the purchase never has more accepted attempt rows than granted or refunded |
| ProtocolTheorems.FailedRequestsCostNothing | internal/attempts/service.go:63-72 | failed requests that compensate leave no trace in the counter |
| ProtocolTheorems.OpenChargesAreRequests | internal/attempts/service.go:52-75 | the open charges of a purchase are exactly the requests between charge and settlement |
| ProtocolTheorems.OrphanNeverRefunded | internal/attempts/service.go:69-72 | an attempt given back because its first enqueue failed stays requested, is never refunded again and never gets a provisioning job |
| ProtocolTheorems.StatusesReached | internal/attempts/service.go:77-92 | only ten statuses are ever written; none of the cleanup ones |
| ProtocolTheorems.LateAttemptIsEquipped | internal/orchestrator/provision_job.go:151-218 | from `environment_ready` to `scored` an attempt has an environment with address and key and a session whose environment is its own, even when provisioning handlers overlap |
| ProtocolTheorems.GradingFindsEnvironment | internal/grading/engine.go:71-82 | a grading handler's environment lookup is never empty and the address it dereferences is never missing |
| ProtocolTheorems.GatewayFindsEnvironment | internal/terminal/gateway.go:51-88 | past the status gate the session's environment exists, has an address and belongs to the attempt whose status was checked |
| ProtocolTheorems.AtWorkExactlyWhen | internal/terminal/gateway.go:63-66 | the three statuses at which the gate lets through are exactly those from which the table still leads to a hand-in or an expiry and at which an environment is sure to be there |
| ProtocolGates.CallsComeAfterTheirStatus | internal/orchestrator/provision_job.go:25-274 | in every run a thread comes to a call that cannot be taken back only in a state that shows what the call is for: machines are asked for while provisioning, a refund follows a recorded failure, grading a written `grading`, the final transition a written score, teardown a written `destroying` |
| ProtocolGates.NilErrorsAreEarned | internal/jobs/worker.go:39-45 | in every run a thread returns a nil error only when what was asked for is done, or there was nothing to do, or the failure is one that its handler drops |
| ProtocolRequests.OnlyTheBuyerCharges | internal/attempts/service.go:34-75 | in every run a request is at or past the charge of a purchase only if its user bought it, and all that it makes is an attempt of that purchase |
| ProtocolRequests.StrangersAreRefused | internal/attempts/service.go:40-42 | in every run a request for another user's purchase stands before the check or has returned an error, and has charged and made nothing |
| ProtocolRequests.OwnRequestIsGranted | internal/attempts/service.go:34-75 | from every reachable state the buyer's request, with something left, every call working and nobody in between, ends well with an attempt and its job |
| ProtocolLedger.RefundLaw | internal/orchestrator/provision_job.go:229-238 | in every run: refunds made and owed, and one for a try in progress, are at most one for the first try, one for each reset and one for each stale write of a provisioning handler |
| ProtocolLedger.CounterLaw | internal/attempts/service.go:98-109 | in every run: counter, open and lost charges, refunds owed and tries in progress are at most the grant, the resets and the stale writes |
| ProtocolLedger.RefundsBounded | internal/orchestrator/provision_job.go:229-238 | an attempt that no stale write hit is refunded at most once, plus once for each retry-provision reset of its own |
| ProtocolLedger.CounterWithinGrant | internal/attempts/service.go:98-109 | with no stale write on the purchase's attempts the counter stays between 0 and the grant plus the administrator resets |
| ProtocolLedger.FreshRunIsNotLate | internal/attempts/service.go:77-92 | where every status write of an attempt finds the status that was read, none is counted stale or late |
| ProtocolStale.RefundLawIsTight | internal/attempts/service.go:77-92 | for every number of resets and every number of stale writes some run from the start has a refund for each and one for the first try, and the counter exceeds the grant by all of them |
| ProtocolStale.StaleWriteRefundsTwice | internal/attempts/service.go:77-92 | with one stale status write and no reset an attempt is refunded twice |
| ProtocolGrading.ExitLaw | internal/attempts/submit.go:28-31 | in every run: the moves out of `running`, and the one still to come, are at most one and one for each write that came after a first |
| ProtocolGrading.GradingLaw | internal/grading/engine.go:52-98 | in every run: the moves into `grading`, and the one still to come, are at most one and one for each late write; no more handlers grade at once, and no more scores are written, than there were such moves |
| ProtocolGrading.OneWayThroughGrading | internal/grading/engine.go:52-98 | where no write of its status came late: at most one move out of `running`, one move into `grading` and one score write per attempt; all three exactly once when scored |
| ProtocolGrading.NoTwoGraders | internal/grading/engine.go:52-98 | where none came late after grading began, two grading handlers of one attempt are never both past the first transition and before the end of the last |
| ProtocolStale.GradingLawsAreTight | internal/attempts/service.go:77-92 | for every number of late exits and every number of late gradings some run from the start meets both laws with equality |
| ProtocolStale.StaleWriteLeavesRunningTwice | internal/attempts/expire.go:29-45 | one stale write takes a submitted attempt out of `running` again, as expired |
| ProtocolStale.StaleWriteGradesTwice | internal/grading/engine.go:52-98 | one stale write puts two handlers at the grading of the same attempt |
| ProtocolReopening.ScoreStaysExactlyWhen | internal/attempts/service.go:77-92 | in every reachable state a scored attempt's score stays whatever comes, stale writes included, if and only if no handler of it is before the write of a score or before a status write other than the final one; a write that makes it ready counts only if something can still open it for the first time |
| ProtocolReopening.FreshScoreStaysExactlyWhen | internal/admin/handler.go:78-93 | in every reachable state a scored attempt's score stays in all continuations with fresh writes of its status if and only if no handler of it is before the write of a score |
| ProtocolReopening.ScoreIsFinal | internal/admin/handler.go:78-93 | after `scored`, where no late write ever came, neither number of the score changes while writes of that attempt's status are fresh, whatever grade jobs are enqueued again |
| ProtocolStale.StaleWriteOverwritesScore | internal/admin/handler.go:78-93 | a run without a stale write to a score of 10 of 10, then one stale write, then again none, ends with 0 of 10 |
| ProtocolReopening.AbandonedGradingIsStuck | internal/grading/engine.go:52-54 | in every reachable state an attempt in `grading` stays there whatever comes if and only if no thread of it is between the lookups and the final transition or before a status write |
| ProtocolStale.GradingCanBeAbandoned | internal/grading/engine.go:52-54 | a run without any stale write gets there |
| ProtocolCleanup.FirstTryIsUntouched | internal/orchestrator/provision_job.go:240-274 | an attempt from `environment_ready` to `grading` that was never reset has no cleanup queued and only ready environments, where its status writes are fresh and no sweep and no administrator enqueues one |
| ProtocolCleanup.LateCleanupHitsTheSecondTry | internal/orchestrator/provision_job.go:251-266 | without a stale write or a failing critical call, the cleanup of a failed first try destroys the only environment of an attempt running on its second |
| ProtocolNoStrand.WaitingAttemptHasJob | internal/orchestrator/provision_job.go:36-49 | an attempt waiting for its environment has a provisioning job queued, or a request or retry about to enqueue one |
| ProtocolNoStrand.FinishedAttemptHasJob | internal/attempts/submit.go:32-39 | a submitted or expired attempt has a grade job queued, or a thread about to enqueue one |
| ProtocolNoStrand.CompletedJobUnneeded | internal/jobs/worker.go:39-45 | in every such run, when a handler returns nil and its job is dropped, a waiting attempt is still served by a job of its current try or a retry, and a finished one by a grade job |
| ProtocolLimits.FailedEnqueueStrands | internal/admin/handler.go:69-73 | when the enqueue of a retry or of a grade job fails or is cut off by a crash, the attempt is served if and only if another current job or another thread at that enqueue serves it |
| ProtocolLimits.FailedMarkStrands | internal/orchestrator/provision_job.go:229-233 | when either half of the transition recording a failure fails, the attempt is served afterwards if and only if by something other than the handler's job |
| ProtocolLimits.AbortedStartStrands | internal/orchestrator/provision_job.go:45-49 | after a write of `environment_provisioning`, stale or not, whose handler dies, the attempt waits and is served if and only if by a current job or another retry |
| ProtocolLimits.FailedFirstEnqueueStrands | internal/attempts/service.go:67-72 | in every run, when the first enqueue of a request fails or is never made, the attempt stays requested with no job and nobody to enqueue one |
| ProtocolLimits.FailedFirstEnqueueRun | internal/attempts/service.go:67-72 | runs in which that happens, with and without the compensation |
| ProtocolLimits.FailedRetryEnqueueStrands | internal/admin/handler.go:64-73 | a run that strands a reset attempt by one failing enqueue, and by one crash before it |
| ProtocolLimits.FailedGradeEnqueueStrands | internal/attempts/submit.go:32-39 | the same for a submitted attempt and its grade job |
| ProtocolLimits.FailedReadStrands | internal/orchestrator/provision_job.go:229-233 | one failing read while recording a provisioning failure leaves an attempt provisioning with no job and no thread |
| ProtocolLimits.FailedWriteStrands | internal/orchestrator/provision_job.go:229-233 | so does one failing write |
| ProtocolLimits.StaleWriteStrands | internal/orchestrator/provision_job.go:45-49 | one stale write of `environment_provisioning` and a crash leave a ready attempt provisioning with no job and no thread |
| Platform.PerformTables | internal/store/attempt_store.go:27-54 | forgetting the history, every operation of the protocol is the corresponding table write |
| Platform.CallShown | internal/attempts/service.go:77-92 | one call of a handler on the tables is one step of its thread in the protocol |
| Platform.ReachedRowsStay | internal/store/purchase_store.go:26-31 | in every run who bought a purchase, whose an attempt is and which request made it, the address and key of an environment and the token of a session stay as first stored |
| Server.Server.constructor | internal/store/store.go:11-13 | a server with empty tables shows the initial state of the protocol, from which everything else follows |
| Server.Server.Buy | internal/store/purchase_store.go:26-31 | a purchase row arrives, as the protocol's purchase does |
| Server.Server.TransitionAttempt | internal/attempts/service.go:77-92 | read, check against the table and write, with anything in between; a run of the protocol that succeeds exactly if its write does; undisturbed exactly if the table allows it |
| Server.Server.RequestAttempt | internal/attempts/service.go:34-75 | check, charge, insert, enqueue and the two compensations are a run of the protocol; an attempt is the caller's own, of the purchase asked for; another user's request leaves no charge and no attempt; undisturbed it is granted exactly while the caller's purchase is not expired and has something left, and takes one |
| Server.Server.RestoreAttemptCount | internal/attempts/service.go:98-109 | the refund follows the protocol; undisturbed the attempt's own purchase gets one back |
| Server.Server.SubmitAttempt | internal/attempts/submit.go:13-42 | submission follows the protocol and succeeds only for the buyer; undisturbed exactly for a running attempt of the caller, which becomes submitted with a grade job |
| Server.Server.HandleExpireAttempt | internal/attempts/expire.go:17-47 | expiry follows the protocol; undisturbed a running attempt becomes expired with a grade job and any other is left alone |
| Server.Server.RetryProvision | internal/admin/handler.go:45-76 | the reset without a new charge, then the enqueue, follow the protocol; undisturbed exactly for a failed attempt |
| Server.Server.RetryGrade | internal/admin/handler.go:78-93 | the enqueue without any status check follows the protocol |
| Server.Server.ForceDestroy | internal/admin/handler.go:95-116 | the lookup and the enqueue for the environment's own attempt follow the protocol |
| Server.Server.Reconcile | internal/orchestrator/reconciler.go:38-106 | the tick, with anything running between its calls, follows the protocol and never fails; undisturbed it gives up exactly the aged attempts still provisioning and queues a cleanup for these, for those pending cleanup and for the scored and never started ones with an environment not destroyed, and for no other |
| Server.Server.HandleProvisionEnvironment | internal/orchestrator/provision_job.go:25-222 | the provisioning handler follows the protocol through every failing call; undisturbed the tables afterwards, by the answers of the provider and the playbook |
| Server.Server.HandleProvisionFailure | internal/orchestrator/provision_job.go:229-238 | marking, cleanup and refund follow the protocol; nothing is refunded unless the mark succeeded; undisturbed a waiting attempt is failed, its cleanup queued and one given back |
| Server.Server.HandleCleanupEnvironment | internal/orchestrator/provision_job.go:240-274 | the cleanup handler follows the protocol; undisturbed one environment of the attempt ends destroyed or failed by the provider's answer, and only an attempt pending cleanup is moved on |
| Server.Server.GradeAttempt | internal/grading/engine.go:34-107 | the grading handler follows the protocol; when it succeeds, the row held on the way the score of all checks listed for the attempt's scenario version and of no others: 0 if no command exits with 0, everything exactly if all do; undisturbed exactly for a finished attempt, which is scored with its cleanup queued |
| Server.Server.UpdateScore | internal/store/attempt_store.go:50-54 | the score written is the two numbers the checks came to |
| Server.Server.HandleWebSocket | internal/terminal/gateway.go:48-88 | an address is given only after a state in which the attempt of the session with this token was ready, opened or running, and it is that of the session's environment; undisturbed exactly then, and the first opening leaves the attempt running |
| Server.Server.Work | internal/jobs/worker.go:30-46 | a delivery runs its handler; its return is the last step and drops the job when the error is nil, and otherwise changes nothing in the queue |
| ProfileTemplates.PrintParse | internal/provider/proxmox/provider.go:54-82 | printing the parse of any value gives back the value |
| ProfileTemplates.ParsePrint | internal/provider/proxmox/provider.go:54-82 | parsing the print of any canonical segment list gives back the list |
| ProfileTemplates.ParseCanonical | internal/provider/proxmox/provider.go:54-82 | every parse is canonical |
| ProfileScanners.RenderProfileValue | internal/provider/proxmox/provider.go:54-82 | the rendering loop computes segment-wise substitution over that parse, on every string |
| ProfileScanners.PlaceholderIsWritten | internal/provider/proxmox/provider.go:54-82 | on strings: the first placeholder becomes the trimmed key, the hostname or itself, what precedes stays and what follows is rendered in the same way |
| ProfileScanners.RenderingFills | internal/provider/proxmox/provider.go:72-76 | a value without "{{" stays; between texts without braces `{{ ssh_public_key }}` becomes the trimmed key and `{{ hostname }}` the hostname |
| ProfileScanners.ValidatePlaceholders | internal/provider/proxmox/config.go:92-110 | the validating loop reports the first problem of the same parse, on every string |
| ProfileScanners.ValidationIsExact | internal/provider/proxmox/config.go:92-110 | accepted exactly when every placeholder is closed and its trimmed name supported; otherwise the first offending name, or the missing end |
| ProfileScanners.CleanRenderIsFill | internal/provider/proxmox/provider.go:54-82 | for validated values rendering never takes the unterminated or the unknown branch |
| ProfileScanners.ValidatedExactlyWhenCleanlyRendered | internal/provider/proxmox/provider.go:54-82 | if the substituted texts contain no brace, a value is validated if and only if its rendering has no "{{" |
| ProfileScanners.RenderingIsIdempotent | internal/provider/proxmox/provider.go:54-82 | rendering a rendered value changes nothing, for any machine |
| ProfileConfig.ValidateProfileConfig | internal/provider/proxmox/config.go:73-90 | accepts exactly the sections whose keys and values are all allowed; a refusal names something wrong |
| ProfileConfig.LoadCloneProfiles | internal/provider/proxmox/config.go:33-71 | accepts exactly the loadable files and blames something wrong otherwise; template and entries are the file's, and a profile without a mode is loaded for linked clones |
| ProfileConfig.RenderProfileConfig | internal/provider/proxmox/provider.go:46-52 | renders every entry and no other |
| ProfileConfig.LoadsExactlyWhenRenderedCleanly | internal/provider/proxmox/config.go:33-71 | a file that is otherwise in order loads if and only if nothing it would configure still has a "{{" |
| ProfileConfig.LoadingIsIdempotent | internal/provider/proxmox/config.go:50-67 | what was loaded loads again, unchanged |
| Decimals.ScanDecimal | internal/provider/proxmox/provider.go:186-196 | scanning a printed identifier gives it back, for every identifier of the machine's integer range |
| Text.TrimSpaceIsExact | internal/provider/proxmox/provider.go:71-72 | trimming cuts white space at both ends and leaves none there |
| Decimals.DecimalIsInjective | internal/provider/mock/mock.go:38-39 | different numbers print differently |
| Proxmox.ProxmoxProvider.CloneVM | internal/provider/proxmox/client.go:188-208 | at most five requests, another only after an error that says the identifier is taken, and never an end at the first such error; a success adds exactly one machine under an identifier nobody had; conflicts add none |
| Proxmox.ProxmoxProvider.CloneVMWithID | internal/provider/proxmox/client.go:210-244 | one request: refused for an identifier in use, otherwise one new machine |
| Proxmox.ProxmoxProvider.CheckTemplates | internal/provider/proxmox/provider.go:97-107 | finds an unknown template exactly when there is one |
| Proxmox.ProxmoxProvider.CreateVM | internal/provider/proxmox/provider.go:109-132 | a success adds the one machine asked for: template, mode, name, started, with an address, and configured with exactly the profile's keys, the key and the hostname in their places |
| Proxmox.ProxmoxProvider.CreateCluster | internal/provider/proxmox/provider.go:134-173 | adds one such machine for each node, under different identifiers, and returns them in order |
| Proxmox.ProxmoxProvider.CreateEnvironment | internal/provider/proxmox/provider.go:92-176 | nothing is cloned if any template is unknown; a success has the shape asked for and adds exactly one machine per request, each set up for its own request; machines that were there are never touched |
| Proxmox.ProxmoxProvider.DestroyEnvironment | internal/provider/proxmox/provider.go:178-206 | exactly the machines listed go, save those whose deletion failed; others' machines only if an entry is no longer this provider's or is listed twice |
| Proxmox.ProxmoxProvider.CreateThenDestroy | internal/provider/proxmox/provider.go:92-206 | create, flatten, print, scan and destroy: when all requests succeed, the machines are what they were |
| ProxmoxMachines.TargetsOfMade | internal/provider/proxmox/provider.go:186-204 | the identifiers scanned back from the metadata are those of the machines made, each once |
| ProxmoxMachines.DestroyUndoes | internal/provider/proxmox/provider.go:178-206 | what survives teardown is what was there before plus the failed deletions |
| Environments.BuildMetadata | internal/orchestrator/provision_job.go:140-149 | flattening keeps every machine's identifier, once and in order |
| Environments.BuildEnvironmentSpec | internal/orchestrator/provision_job.go:93-130 | one request for the workstation and one per node of the topology, named after cluster and node, with the node's role and template and with its key and tags |
| Environments.BuildProvisionSpec | internal/orchestrator/provision_job.go:180-193 | pairing results with the topology by position stays in bounds and matches each cluster with its own context and addresses |
| MockProvider.MockProvider.CreateEnvironment | internal/provider/mock/mock.go:28-64 | the shape asked for; machine by machine the next number in identifier and address and the hostname asked for; all identifiers new and different |
| MockProvider.MockProvider.DestroyEnvironment | internal/provider/mock/mock.go:66-83 | removes exactly the environment of the workstation named |
| MockProvider.MockProvider.CreateThenDestroy | internal/provider/mock/mock.go:28-83 | destroying undoes creating, and destroying again later takes nothing away |
| MockProvider.NumberedIdsDiffer | internal/provider/mock/mock.go:38-58 | identifiers given out by one call are pairwise different |
| Scenarios.Validate | internal/scenarios/validate.go:8-89 | accepts exactly the well-formed scenarios; a refusal names a flaw the scenario has |
| Scenarios.ValidateClusters | internal/scenarios/validate.go:25-60 | exactly: some cluster, all sound, identifiers unique; collects the identifiers |
| Scenarios.ValidateNodes | internal/scenarios/validate.go:41-59 | exactly: names present and unique in the cluster, roles known, templates present |
| Scenarios.ValidateTasks | internal/scenarios/validate.go:62-86 | exactly: some task, identifiers unique, clusters resolve, points positive, prompts present |
| Scenarios.ValidateChecks | internal/scenarios/validate.go:91-134 | accepts exactly the well-formed check lists of a scenario; a refusal names a flaw |
| ScenarioTables.ListedIsWhatWasAdded | internal/store/scenario_store.go:77-86 | the join lists exactly the checks added for the version, each once |
| ScenarioTables.ListedElsewhereIsUnchanged | internal/store/scenario_store.go:77-86 | adding one version's rows changes no other version's list |
| ScenarioTables.TasksOfMore | internal/store/scenario_store.go:88-93 | listing a version's tasks gives those added for it, in order, and for any other version what it gave |
| ScenarioTables.PointsConserved | internal/importer/importer.go:182-204 | the stored points sum to the points of the file |
| Importer.HandedCoversTheFile | internal/importer/importer.go:182-186 | for validated files the task lookup of the check loop never fails |
| Importer.ScenarioStore.ImportTasks | internal/importer/importer.go:160-180 | stores a row per task and hands on the right identifiers |
| Importer.ScenarioStore.ImportChecks | internal/importer/importer.go:182-204 | stores a row per check under the task it names; the unknown-task error exactly when a task is missing and nothing fails |
| Importer.ScenarioStore.ImportParsedScenario | internal/importer/importer.go:131-236 | never the unknown-task error; nothing changes when the version exists; on success the row holds the file's topology, title, times and attempts, its tasks and checks are the file's with every check at its task, and it is on sale; no other version or its lists change |
| Importer.ScenarioStore.FindOrCreateProduct | internal/importer/importer.go:206-219 | the products afterwards, with a failing lookup taken for an absent product |
| Importer.SecondProductExactlyWhen | internal/importer/importer.go:206-219 | a title gets a second product exactly when the lookup failed and there was one |
| Importer.FailedLookupDuplicatesProduct | internal/importer/importer.go:206-219 | a store in which one failing lookup does that |
| Importer.DiscoverScenarios | internal/importer/importer.go:57-129 | everything is discovered exactly when every file passes both validators |
| Importer.ScenarioStore.ImportAll | internal/importer/importer.go:30-55 | one file that fails validation stops the run before anything is stored; otherwise a scenario is missing only if a call failed in its turn, and a run without failing calls imports every scenario wholly, its topology included, and adds no title twice; with all versions there it changes nothing |
| Importer.ScenarioStore.ImportAndAsk | internal/orchestrator/provision_job.go:77-130 | for every version of an import the machines asked for are, cluster by cluster and node by node, those of its file with their names, roles and templates |
| Importer.ScenarioStore.ImportTwice | internal/importer/importer.go:30-55 | importing again after a run without failing calls changes nothing |
| Grading.GradeChecks | internal/grading/engine.go:76-90 | the total is the sum over the passed checks, the maximum the sum over all; 0 if no command exits with 0, the maximum exactly if all do |
| Grading.ScoreWithinMax | internal/grading/engine.go:76-90 | the total lies between 0 and the maximum and reaches it exactly when every command exits with 0 |
| Grading.NothingEarned | internal/grading/runner.go:58-62 | without a command that exits with 0 the total is 0 |
| Grading.OneRunDecidesItsPoints | internal/grading/runner.go:58-62 | a run that comes to exit with 0 adds exactly its check's points; how a run fails makes no difference |
| Grading.GradeIgnoresOrder | internal/store/scenario_store.go:79-83 | the score does not depend on the order in which the checks are listed |
| Grading.ThresholdIsExact | internal/scoring/handler.go:78-81 | for every threshold the rounded percentage decides as the exact fraction does |
| Grading.PercentageMeansWhatItSays | web/src/components/score-card.tsx:5-8 | 0 to 100, 100 exactly for a clean sweep, monotone in the passed checks, 66 or more exactly when 66 parts in 100 of the points were earned |
| Grading.PointsReachTheScore | internal/grading/engine.go:66-90 | the maximum graded is the number of points in the checks file the version came from |
| Firewall.ParseAddr | internal/proxy/iptables.go:51-57 | host and port around the first colon; 3128 without one |
| Firewall.GenerateIPTablesScript | internal/proxy/iptables.go:8-49 | the loop writes the script |
| Firewall.ScriptInFull | internal/proxy/iptables.go:11-42 | the script command by command: four deletions, name resolution, clusters, proxy, loopback and known connections accepted, web traffic dropped last |
| Firewall.ChainShape | internal/proxy/iptables.go:8-49 | after any runs, cut short or not, the chain is everything ever accepted, then the drops that the last run got to |
| Firewall.DropsExactly | internal/proxy/iptables.go:8-49 | after any runs exactly the TCP packets are dropped that the drops of the last run are for, that are neither loopback nor established and that no run so far lets through |
| Firewall.CompletedRunDropsExactly | internal/proxy/iptables.go:8-49 | when the last run completes, that is all direct traffic to ports 80 and 443 not let through |
| Firewall.OpenExactlyWhenCutShort | internal/proxy/iptables.go:11-42 | everything is accepted exactly when the last run was stopped at one of its accepting rules or at its first drop |
| Firewall.RerunChangesNothingExactlyWhen | internal/proxy/iptables.go:8-49 | running an earlier configuration again changes no decision exactly when that run got to the same drops as the last, as two complete runs do |
| Firewall.NewConfigDecidesExactlyWhen | internal/proxy/iptables.go:8-49 | a new configuration whose run completes decides as if alone exactly for packets it accepts or that no earlier one accepted |
| Reconciler.Orchestrator.Reconcile | internal/orchestrator/reconciler.go:38-106 | a tick gives up on the stale attempts and enqueues a job for exactly the attempts that want cleanup |
| Reconciler.Orchestrator.CleanupStaleProvisioning | internal/orchestrator/reconciler.go:44-59 | the first sweep gives up exactly the stale attempts and enqueues a cleanup for each |
| Reconciler.Orchestrator.CleanupPendingAttempts | internal/orchestrator/reconciler.go:61-71 | the second sweep |
| Reconciler.Orchestrator.CleanupTerminalStates | internal/orchestrator/reconciler.go:73-99 | the third sweep |
| Reconciler.Orchestrator.DestroyMachines | internal/provider/proxmox/provider.go:178-206 | of the machines listed exactly those go whose deletion works; a failing deletion is not reported |
| Reconciler.Orchestrator.HandleCleanup | internal/orchestrator/provision_job.go:240-274 | without reported failures one cleanup; whatever fails, no row but the one found is touched, none is called destroyed by a failing handler, and exactly the machines deleted are gone |
| Reconciler.Orchestrator.Drain | internal/jobs/worker.go:30-46 | draining terminates and, without reported failures, empties the queue with all cleanups done, in any order; a failing handler ends it, with the jobs taken before gone from the queue and their rows destroyed unless the lookup failed, and no other row touched |
| Reconciler.Orchestrator.TickDrainTick | internal/orchestrator/reconciler.go:24-42 | tick, drain, tick: the tables have settled and the second tick enqueues only for pending attempts without an environment |
| Reconciler.CleanedTwice | internal/orchestrator/provision_job.go:240-274 | order and repetition of cleanups do not matter |
| Reconciler.RepeatIsHarmlessExactlyWhen | internal/orchestrator/provision_job.go:240-274 | a repeated cleanup changes nothing, whatever of it succeeds, exactly when no machine listed has been started again or was left over by the first |
| Reconciler.TerminalSettled | internal/orchestrator/reconciler.go:73-99 | after tick and drain the environment found for a scored or never started attempt is destroyed |
| Reconciler.StatusSettled | internal/orchestrator/reconciler.go:44-71 | what tick and drain do to each attempt's status |
| Reconciler.OneEnvironmentIsGone | internal/orchestrator/reconciler.go:73-99 | with one environment, its row is destroyed, exactly the machines stay whose deletion failed, and no later tick wants the attempt again |
| Reconciler.OnlyTheFirstEnvironmentGoes | internal/store/environment_store.go:44-52 | with several, all are destroyed exactly when the others were before |
| Reconciler.NextTickWants | internal/orchestrator/reconciler.go:38-106 | the next tick has work for exactly the pending attempts without an environment |

## Left out

- Transport and formats: HTTP routing, JSON and YAML, cookies, JWT, bcrypt, websocket and SSH piping, Ansible.
- SQL and River: tables are maps or sequences, the queue keeps a job until its handler returns nil; retry limits and discarding are not modelled.
- A failing store or queue call is taken to have no effect, and UUIDs are taken to be new and different.
- Two reads of the same unchanging row in one handler are one call of the protocol.
- Time: expiry of a purchase and staleness of an attempt are choices of the environment or a threshold, not a clock.
- Billing: only the initial grant of a purchase is modelled.
- ProtocolNoStrand.WaitingAttemptHasJob: assumes of the calls made for that attempt that its status writes are fresh and that those in `Critical` are made and do not fail; `ProtocolLimits` has for each of them a run that strands it, and the exact condition.
- Server.Server.GradeAttempt: the lookups of purchase, test, checks and environment are one call, and the catalogue of tasks and checks does not change while attempts are graded.
- Proxmox.ProxmoxProvider.CloneVMWithID: an error that speaks of a conflict is taken to mean that no machine was made.
- Proxmox.ProxmoxProvider.CreateEnvironment: after a failure half-way the machines already cloned stay, as in the code; only what was there before is promised to be untouched.
- Proxmox.ProxmoxProvider.DeleteVM: an accepted deletion is taken to be carried out, although the code does not wait for the task.
- Text.ToLower: only the case mappings that a comparison with ASCII text can see.
- Importer.ScenarioStore.ImportAll: finding and reading files, reading prompts and the Git commit are inputs; two importers at once are kept apart only by the unique constraint on version rows.
- Reconciler.Orchestrator.GetEnvironmentByAttempt: of several rows the first is returned, where the query leaves the choice to the database; the protocol leaves it open.
- Reconciler.Orchestrator.Drain: a drain in which a handler fails stops there; the statuses of the attempts handled before are not stated for that case.
- Firewall.GenerateIPTablesScript: the script as text and the persisting of rules are not modelled, and which rules iptables refuses is an input; packets are described by the destination and port arguments they satisfy.
- Integer width: sums of points and counters are unbounded, identifiers are checked against 64 bits where they are scanned.
- Ansible inventory grouping, and role and tags of a machine request beyond the request itself: neither provider reads them.
- The web frontend, the catalogue, the dashboard and the administrator's editing of tests would only add easy members.
