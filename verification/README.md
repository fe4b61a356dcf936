# YunPanel's durable state machines in Dafny

YunPanel is a control plane whose difficult code consists of durable state
machines that have to survive crashes, replays and readers holding old
snapshots. This project models five of them, and the pipeline that feeds the
first, and proves what they promise over every input and every run.

| part | modules |
|---|---|
| Backup pipeline: manifest selection, dependency graph, execution plan, stored plan, and the provider that composes them | `BackupPlan`, `BackupPlanTheorems`, `BackupPipeline`, `DependencyGraph`, `DependencyGraphTheorems`, `DependencyReferences`, `DependencyGraphBuild`, `DatabaseBindings` |
| Backup operation store: one operation, the store, crashes and first reads, the registry object | `BackupOperation`, `BackupStore`, `BackupStoreRuns`, `BackupEffects`, `BackupOperationRegistry` |
| Backup execution protocol: `advance` and the dispatcher as steps between awaits, safety over every interleaving, the driver loop, progress, overlapping calls | `BackupProtocol`, `BackupProtocolSafety`, `BackupAdvance`, `BackupLiveness`, `BackupOverlap` |
| Application releases, configuration revisions, ports | `ApplicationModel`, `ApplicationInvariants`, `ApplicationRuns`, `ApplicationRunning`, `ApplicationPorts`, `ApplicationRegistry` |
| Certificate lifecycle, material collection, the per-domain lock | `CertificateModel`, `CertificateGc`, `CertificateEffects`, `CertificateRegistry`, `DomainLock` |
| Revisioned environment store, its file and its limit | `Environment`, `EnvironmentTheorems`, `EnvironmentEffects`, `EnvironmentCrashes`, `EnvironmentLimits`, `EnvironmentRegistry` |
| Sessions and passwords | `Auth`, `AuthEffects`, `AuthStore` |
| Shared: results and options, texts, sorting | `Common`, `Texts`, `Ordering` |

Each registry that changes fields in place is a class. Its methods have the
source's loops and assignments, are proved against functions on the old state,
and keep the class's `Valid`, which is the invariant of the theorems. The theorems are then about those functions, over sequences of
operations. An `await` is a point where other calls, the queue or a crash may
act. The only parts taken on trust are the ones outside the modelled files:

- Digests are free constructors over what they hash, so equal digests mean equal
  content. Sealing is an exact round trip under one key and one name. A stored hash
  carries the set of passwords it verifies, and that set is left open.
- The job registry is durable, handles one call at a time, returns the existing
  job for a known key and stores a succeeded result only through its sanitiser
  (`apps/api/src/job-registry.js:991-1008`, `1105-1215`).
  A lookup may miss a job, and an enqueue may be refused with or without having
  recorded one.
- Random ids are new when a property needs it, and then the lemma says so.
- A rename of a file is atomic; a write that is cut off leaves a partial
  temporary file.

`dafny verify dfyconfig.toml` verifies the whole project.

## Where the code does not meet its promise

The code is modelled as it stands. Where a promise fails, a lemma gives the run
or the input, and another says exactly when the promise holds.

- Overlapping `advance` calls can fail every healthy backup, at any step: the
  second call's verification, which for mail includes the idle test of the mail
  preview, meets the first call's own job and counts it as a conflict. A favourable
  run comes to fail a step exactly where a verification meets such a job
  (`BackupOverlap.OverlapFailsExactly`). Calls in turn never fail one, and can
  always complete it (`BackupOverlap.InTurnNeverFails`,
  `BackupOverlap.InTurnCanComplete`).
- Two overlapping first reads of the backup store can throw away a commit in
  memory (`BackupStoreRuns.OverlappingInitLosesCommit`); the next mutation then
  writes the old state back. With first reads awaited this cannot happen.
- `create` does not compare its generated id with stored ones, so a repeated id
  makes the next start refuse the file (`BackupStore.RepeatedIdBreaksReload`).
- `createBackupPlan` called without a dependency graph returns previews with
  mailbox-scoped mail resources that cannot be executed
  (`BackupPlanTheorems.MailboxBlocksDefault`). The provider always builds the
  graph and is refused there (`BackupPipeline.MailboxRefused`).
- `createBackupDependencyGraph` attributes a database to its first binding. A
  direct call with bindings on two websites returns an incomplete graph
  (`DatabaseBindings.DirectCallMissesSite`). The binding registry allows one
  binding of a database, and with its bindings every impact is complete
  (`DatabaseBindings.RegistryGraphIsComplete`).
- Creation compares ports within one kind of application only, and so does the
  allocator: a Node and a Python application can share a port
  (`ApplicationPorts.TwoKindsOnePort`, and the exact condition in
  `ApplicationPorts.AddKeepsAllApartIff`).
- A migration to Passenger during a deployment or rollback takes its completion
  away; only a failure report ends it (`ApplicationRuns.MigrationStrandsFlight`).
  Nothing else does: the completion is otherwise answered as at the start
  (`ApplicationRuns.CompletionAnswered`).
- The environment revision rises in memory before it is in the file. A crash in
  between lets a later edit issue the revision again with other contents, to a
  job that was queued for the first ones (`EnvironmentCrashes.JobServedIffRenamed`).
  After one failed write nothing is saved until a restart
  (`EnvironmentCrashes.NothingSavedAfterFailure`).
- Single sets do not count variables. After 101 of them every merge is refused and
  so is the bundle a unit is rendered from (`EnvironmentLimits.SetsPassTheLimit`).
- A sweep looks once and deletes later. A name issued again in between loses its
  new files (`CertificateGc.LateIssueExample`). Without such a creation the name is
  free, and without a retirement in between it is in use exactly when there was one
  (`CertificateGc.DeletedNameInUseIff`).
- Resets never read `activeDeploymentId`. They drop a deployment in flight if and
  only if it reuses the id of the initial release
  (`ApplicationRuns.ResetDropsFlightIff`).
- An eligible certificate can share its ACME name with an unexpired retired one
  that a domain still references, because such a certificate leaves the first
  pass early (`CertificateGc.DomainBoundExample`).
- `setState` accepts `active`, `renewing` and `superseded` for a record without
  material, and hydration then refuses the whole file
  (`CertificateModel.FreshActiveIsUnreadable`).

## Model

| member | source | states |
|---|---|---|
| `BackupProtocolSafety.StepsStayInOrder` | apps/api/src/backup-execution-orchestrator.js:157-262 | From a new operation, under any interleaving of `advance` calls on stale snapshots, crashes and job status changes, the step statuses read succeeded, then at most one dispatched or failed, then pending |
| `BackupProtocolSafety.OneJobPerLinkedStep` | apps/api/src/backup-child-job-dispatcher.js:239-274 | Over the same runs, overlapping calls included, no child job exists for a pending step, every job carries the request of its step (stated field by field in `JobsNameTheirSteps`), and no two jobs share a key |
| `BackupProtocolSafety.JobsNameTheirSteps` | apps/api/src/backup-child-job-dispatcher.js:40-79 | Over the same runs every child job is queued on the operation's own server, under the digest of one of its steps, with that step's executor and input and the database or mail domain as its resource |
| `BackupProtocolSafety.FinishedBackupRecords` | apps/api/src/backup-child-job-dispatcher.js:131-172 | Over the same runs, the evidence of each child step of a succeeded operation records the id of a succeeded job queued for that step's server, executor and input, and that job's result and completion time |
| `BackupProtocolSafety.FinishedBackupIsBacked` | apps/api/src/backup-child-job-dispatcher.js:131-172 | Over the same runs, once an operation has succeeded every child step holds evidence that a succeeded job of that step yields, with the identity checks of `evidenceFromJob` |
| `BackupProtocolSafety.NoInternalFault` | apps/api/src/backup-execution-orchestrator.js:163-189 | Over the same runs, none of the orchestrator's own state errors (no remaining step, misaligned step, child or local step not dispatchable) is ever raised |
| `BackupProtocolSafety.CalledSettled` | apps/api/src/backup-execution-orchestrator.js:96-262 | Every registry call the orchestrator makes ends in an invalid state if and only if its evidence, or a local executor's reference, fails its normaliser; otherwise its outcome re-reads unchanged |
| `BackupProtocolSafety.AskedOk` | apps/api/src/backup-child-job-dispatcher.js:197-274 | Whatever a lookup, a verification or an enqueue answers, at most one job is added, earlier jobs keep their requests and recorded successes, and the protocol invariant holds |
| `BackupProtocolSafety.CalledOk` | apps/api/src/backup-operation-registry.js:281-410 | A registry answer moves steps forward only and leaves every call standing where its next await is allowed |
| `BackupProtocolSafety.PlayKeeps` | apps/api/src/backup-execution-orchestrator.js:157-262 | The protocol invariant (step order, work references, one job per step, backed evidence, sanitised results) is kept by every run of actions |
| `BackupProtocolSafety.SucceededJobsAreTaken` | apps/api/src/job-registry.js:991-1008 | Over every run, failing answers included, a succeeded job of a step has evidence the registry accepts: the failure for an invalid child result is never recorded, and no call that records a child success ends in an invalid state |
| `BackupProtocol.StoredYields` | apps/api/src/backup-child-job-dispatcher.js:131-172 | What the queue's sanitiser stores for a step's own job, the dispatcher reads as evidence and the registry's normaliser takes |
| `BackupAdvance.Advance` | apps/api/src/backup-execution-orchestrator.js:157-262 | The driver loop ends within 5n+2 awaits for n steps, in the very world reached by the await-by-await semantics, without an internal fault |
| `BackupAdvance.Round` | apps/api/src/backup-execution-orchestrator.js:162-261 | One turn of the loop follows the await semantics and, unless it returns, strictly lowers the number of steps not yet succeeded |
| `BackupAdvance.Begin` | apps/api/src/backup-execution-orchestrator.js:157-162 | Reading the operation and starting a queued one reach the head of the loop with the steps untouched |
| `BackupAdvance.JudgeStep` | apps/api/src/backup-execution-orchestrator.js:191-241 | Asking for the job of a dispatched step and recording its verdict either returns or completes the step |
| `BackupAdvance.LinkAndJudge` | apps/api/src/backup-execution-orchestrator.js:175-241 | Linking a pending child step before asking for its job either returns or completes the step |
| `BackupAdvance.LinkChild` | apps/api/src/backup-execution-orchestrator.js:175-190 | Linking is recorded before the queue is asked, and does not change how many steps are open |
| `BackupAdvance.Record` | apps/api/src/backup-execution-orchestrator.js:205-241 | Recording evidence or a failure is one registry call, after which the call returns or one step fewer is open |
| `BackupAdvance.Finish` | apps/api/src/backup-execution-orchestrator.js:96-104 | A failure, or a local success, is recorded by one registry call and the call of `advance` ends |
| `BackupAdvance.RunPrepared` | apps/api/src/backup-execution-orchestrator.js:124-155 | A linked local step is executed and its result recorded in two awaits |
| `BackupAdvance.LinkLocal` | apps/api/src/backup-execution-orchestrator.js:106-123 | A pending local step is prepared and its reference linked before it is executed |
| `BackupAdvance.PrepareAndRun` | apps/api/src/backup-execution-orchestrator.js:106-155 | A local step ends the call within four awaits, as the await semantics say |
| `BackupAdvance.DispatchPrepared` | apps/api/src/backup-child-job-dispatcher.js:267-274 | A prepared step is looked up first and enqueued only when no job is known, as the await semantics say |
| `BackupAdvance.VerifyAndEnqueue` | apps/api/src/backup-child-job-dispatcher.js:197-232 | The source is verified again before a job is enqueued; a changed source is an answer of its own |
| `BackupAdvance.EnqueuePrepared` | apps/api/src/backup-child-job-dispatcher.js:256-265 | Enqueuing is one await that answers with the job of that key or with the queue's refusal |
| `BackupLiveness.CompleteAfterNPlusOneCalls` | apps/api/src/backup-execution-orchestrator.js:157-262 | For every all-child plan of n steps whose jobs verify and succeed between calls, n+1 calls take the operation from queued to succeeded and it is running until the last |
| `BackupLiveness.NextCall` | apps/api/src/backup-execution-orchestrator.js:157-262 | A call that finds the job of step m succeeded completes that step and leaves exactly the job of step m+1 waiting |
| `BackupLiveness.LastCall` | apps/api/src/backup-execution-orchestrator.js:157-262 | A call that finds the job of the last step succeeded ends the operation as succeeded |
| `BackupLiveness.ReturnsOnce` | apps/api/src/backup-execution-orchestrator.js:157-262 | A call of `advance` has one result: two runs under the same answers end in the same world |
| `BackupOverlap.InTurnNeverFails` | apps/api/src/backup-execution-orchestrator.js:157-262 | All-child plans, favourable answers, jobs that succeed with acceptable results: in every run in which a call starts only after all earlier ones returned or died, whenever it starts and wherever they die, the operation never fails |
| `BackupOverlap.InTurnCanComplete` | apps/api/src/backup-execution-orchestrator.js:157-262 | Nor does it get stuck: every such run can be continued, calls in turn, to a succeeded operation |
| `BackupOverlap.OverlapFailsExactly` | apps/api/src/backup-child-job-dispatcher.js:197-232 | If calls may overlap, every all-child plan has a favourable run that ends failed; and a favourable run comes to fail a step if and only if it resumes a verification that meets an active job of its own source |
| `BackupOverlap.ComesToFailIff` | apps/api/src/backup-child-job-dispatcher.js:197-232 | The same exact condition from any healthy state; a run that meets no busy source never ends failed |
| `BackupOverlap.OverlapFails` | apps/api/src/mail-data-operations.js:107-160 | For each step, database or mail, there is a favourable run in which a second call, verifying that step, meets the job the first has just queued and fails the operation while that job waits |
| `BackupEffects.LinkRemembered` | apps/api/src/backup-operation-registry.js:305-332 | A link moves its one step to dispatched with the reference given; linking again with the same reference changes nothing and any other reference is refused |
| `BackupEffects.SuccessRemembered` | apps/api/src/backup-operation-registry.js:334-371 | A recorded success moves its one step, keeps reference and evidence, and ends the operation exactly when every step has succeeded; repeated alike it changes nothing, otherwise it is a conflict |
| `BackupEffects.FailureRemembered` | apps/api/src/backup-operation-registry.js:373-410 | So does a recorded failure, whose error also becomes the operation's |
| `BackupEffects.CreationRemembered` | apps/api/src/backup-operation-registry.js:244-279 | A created operation holds the plan it was asked for, and asking again with any new id returns that operation and adds none |
| `BackupOperation.CreatedSettles` | apps/api/src/backup-operation-registry.js:244-279 | A created operation is exactly what re-reading it gives, and creation is refused only for a malformed id |
| `BackupOperation.StartedSettles` | apps/api/src/backup-operation-registry.js:281-297 | A start that is not refused gives an operation that re-reading leaves unchanged |
| `BackupOperation.LinkedSettles` | apps/api/src/backup-operation-registry.js:305-332 | So does a link |
| `BackupOperation.CompletedSettles` | apps/api/src/backup-operation-registry.js:334-371 | So does a step success, the success of the last step included |
| `BackupOperation.FailingSettles` | apps/api/src/backup-operation-registry.js:373-410 | So does a step failure, which ends the operation |
| `BackupStore.ReloadUnchanged` | apps/api/src/backup-operation-registry.js:166-184 | `normalizeStore` accepts every well-formed store and returns it unchanged |
| `BackupStore.TransitionForward` | apps/api/src/backup-operation-registry.js:281-410 | No transition of a well-formed operation ends in an invalid state, steps move only forward and an ended operation is frozen |
| `BackupStore.ApplyKeeps` | apps/api/src/backup-operation-registry.js:233-410 | Each request keeps ids and idempotency keys distinct and at most one queued or running operation per server; a refused one changes nothing; the state error answers exactly the malformed requests |
| `BackupStore.RepeatedIdBreaksReload` | apps/api/src/backup-operation-registry.js:244-279 | A creation that adds an operation leaves a re-readable store if and only if its generated id is new: `create` never compares ids |
| `BackupStoreRuns.RunKeeps` | apps/api/src/backup-operation-registry.js:118-410 | Any sequence of requests leaves a store that re-reads as itself, in which every earlier operation has only moved forward |
| `BackupStoreRuns.CrashesAreAtomic` | apps/api/src/backup-operation-registry.js:204-242 | Through any run of mutations that complete or die at any point of the file replacement, a restart is always possible and memory equals exactly the requests whose rename happened |
| `BackupStoreRuns.StepNamesOneOperation` | apps/api/src/backup-operation-registry.js:244-279 | Two steps of stored operations whose plans came from `createBackupPlan` and `createBackupExecutionPlan` have the same id only if they are the same step of the same operation, so a child job key names one step |
| `BackupStoreRuns.LateRead` | apps/api/src/backup-operation-registry.js:215-231 | A first read that ends after the registry is initialised leaves memory and file in agreement if and only if it read what the file holds now |
| `BackupStoreRuns.AwaitedInitStaysInSync` | apps/api/src/backup-operation-registry.js:215-242 | If every read begun has ended before a mutation is committed, memory and file agree after any sequence of moves |
| `BackupStoreRuns.OverlappingInitLosesCommit` | apps/api/src/backup-operation-registry.js:215-242 | Two overlapping first reads with any effective commit between their ends leave memory at the old state while the file holds the new one |
| `BackupOperationRegistry.Registry.Init` | apps/api/src/backup-operation-registry.js:215-227 | The first read adopts exactly what the file re-reads to, or refuses and stays uninitialised |
| `BackupOperationRegistry.Registry.Persist` | apps/api/src/backup-operation-registry.js:204-213 | After the rename both memory and file hold the next store and no temporary file is left |
| `BackupOperationRegistry.Registry.Mutate` | apps/api/src/backup-operation-registry.js:233-242 | A mutation initialises if needed, applies the transition to the current contents, persists exactly when something changed and reports the transition's result |
| `BackupPlanTheorems.PipelineRoundTrip` | apps/api/src/backup-execution-plan.js:188-252 | For every preview built by `createBackupPlan`, with whatever dependency graph it accepted or none, execution succeeds if and only if each selected resource is executable, and then its result is accepted unchanged by `normalizeBackupExecutionPlan`, with one step per selected identity in order |
| `BackupPlanTheorems.PlanIdempotent` | apps/api/src/backup-execution-state.js:221-253 | Normalising an accepted plan again changes nothing |
| `BackupPlanTheorems.DigestDeterminesPlan` | apps/api/src/backup-execution-state.js:221-253 | Two accepted plans have the same execution digest, or the same idempotency key, if and only if they normalise to the same plan |
| `BackupPlanTheorems.InputReady` | apps/api/src/backup-execution-plan.js:75-160 | An included manifest resource has an execution input if and only if it is executable, and the per-type normaliser of the stored state returns that input unchanged |
| `BackupPlanTheorems.SelectionReady` | apps/api/src/backup-plan.js:152-236 | A preview holds distinct resources and a sorted, duplicate-free, non-empty selection of included ones: the requested identities, or all included ones |
| `BackupPlanTheorems.ManifestSpells` | apps/api/src/backup-manifest.js:170-294 | Normalising a resource changes only the case of ids and the spelling of times: a canonical one is left as it is, and once normalised nothing changes again |
| `BackupPlanTheorems.PreviewListsAll` | apps/api/src/backup-plan.js:152-236 | The preview lists exactly the given resources, each normalised, and is explicit exactly when identities were asked for |
| `BackupPlanTheorems.StepsCarryResources` | apps/api/src/backup-execution-plan.js:188-232 | The execution plan has one step for each selected identity, in order, with that resource's own type, executor and input (a Docker project id put in lower case), on the preview's server |
| `BackupPlanTheorems.StepNamesOnePlan` | apps/api/src/backup-execution-plan.js:214-232 | Equal step ids in the executions of two previews that `createBackupPlan` returned mean the same plan and the same position in it |
| `BackupPlanTheorems.MailboxBlocksDefault` | apps/api/src/backup-execution-plan.js:130-152 | Of `createBackupPlan` alone: an included mailbox-scoped mail resource makes the default selection unexecutable, although the preview is returned |
| `BackupPlanTheorems.MailboxExample` | apps/api/src/backup-execution-plan.js:130-152 | A concrete one-resource call without a dependency graph whose preview is returned and whose execution is refused |
| `BackupPipeline.PreviewRoundTrip` | apps/api/src/backup-resource-provider.js:222-268 | The four stages composed: a preview of the provider turns into an execution plan if and only if its selected Docker projects have UUIDs and safe revisions, and reading that plan back leaves it unchanged, one step per selected identity in order |
| `BackupPipeline.PreviewCarriesGraph` | apps/api/src/backup-resource-provider.js:244-268 | The provider's preview is the plan over the produced graph, which enters the preview digest unchanged; the server id is canonical |
| `BackupPipeline.ProducedGraphAccepted` | apps/api/src/backup-plan.js:86-150 | A produced graph is accepted unchanged by `createBackupPlan` for the normalised resources, or refused if and only if the server id is not in lower case |
| `BackupPipeline.MailboxRefused` | apps/api/src/backup-dependency-graph.js:254-258 | A mailbox-scoped mail resource, selected or not, never gets through the provider: the graph is refused first |
| `BackupPlan.CreateBackupExecutionPlan` | apps/api/src/backup-execution-plan.js:188-252 | The step-accumulating loop returns exactly the specified plan, or the first error in selection order |
| `DependencyGraphTheorems.ImpactsAreReachability` | apps/api/src/backup-dependency-graph.js:218-277 | The impacted websites of a resource are exactly those reachable through the ownership relations, except that for a database this holds if and only if all its bindings are on one website; the domains follow |
| `DependencyGraphTheorems.DatabaseExact` | apps/api/src/backup-dependency-graph.js:233-244 | For a database both impact sets are exact when its bindings name one website, and the website set is exact only then |
| `DependencyGraphTheorems.MailExact` | apps/api/src/backup-dependency-graph.js:254-268 | For mail data the impact sets are exactly the web domain served and the website it belongs to |
| `DependencyGraphTheorems.SecondBindingIsMissed` | apps/api/src/backup-dependency-graph.js:233-244 | In a prepared inventory with two bindings of one database on different websites, an owning website is missing from the impact |
| `DatabaseBindings.RegistryGraphIsComplete` | apps/api/src/backup-dependency-graph.js:126-293 | For every produced graph over the binding registry's bindings, each impact lists exactly the websites that own the resource and the domains it affects, with no condition |
| `DatabaseBindings.GraphIsReachability` | apps/api/src/backup-dependency-graph.js:218-277 | For every produced graph each impact is exact, except that for a database this holds if and only if its bindings are on one website |
| `DatabaseBindings.BoundOnceIsOneSite` | apps/api/src/database-binding-registry.js:195-207 | Bindings that are distinct per server and lower-cased name put every database of a prepared inventory on one website |
| `DatabaseBindings.DirectCallMissesSite` | apps/api/src/backup-dependency-graph.js:233-244 | A concrete inventory, with bindings no registry returns, for which a direct call produces a graph with an incomplete impact |
| `DatabaseBindings.Registry.BindDatabase` | apps/api/src/database-binding-registry.js:220-250 | A database is bound, or returned if bound to the same owner under the same spelling, and refused as already bound if and only if another owner or spelling holds it; bindings stay distinct |
| `DatabaseBindings.Registry.UnbindDatabase` | apps/api/src/database-binding-registry.js:252-271 | Exactly the named binding at the expected revision is removed, or nothing changes; bindings stay distinct |
| `DatabaseBindings.Registry.Reload` | apps/api/src/database-binding-registry.js:186-214 | A restart accepts exactly the files whose records are all usable, well formed with current references, with distinct ids and distinct databases per server |
| `DependencyGraphTheorems.ReferencesDistinct` | apps/api/src/backup-dependency-graph.js:117-124 | No resource of a prepared inventory yields two references with one key, so the duplicate error is unreachable |
| `DependencyGraphTheorems.PrepareReady` | apps/api/src/backup-dependency-graph.js:134-216 | A prepared inventory is sorted with distinct keys, every domain lies on a known website, every binding is current and every mail domain has its web domain |
| `DependencyGraphTheorems.ImpactAccepted` | apps/api/src/backup-plan.js:94-138 | Each impact produced is accepted unchanged by the consumer for that resource |
| `DependencyGraphTheorems.GraphAccepted` | apps/api/src/backup-plan.js:86-150 | `normalizeDependencyGraph` accepts every produced graph unchanged, recomputed counts included, for any list of resources with the same identities and types |
| `DependencyReferences.ReferencesCurrent` | apps/api/src/backup-dependency-graph.js:218-277 | Each reference of a produced graph names a listed website, domain, binding or mail domain and carries its desired and applied revisions as they were listed; the impacted websites and domains are exactly the referenced ones |
| `DependencyReferences.CountsMean` | apps/api/src/backup-dependency-graph.js:278-293 | The four counts of a produced graph are the number of resources given, of those whose references name a website or domain, and of the distinct websites and domains referenced |
| `Ordering.SortBySorts` | apps/api/src/backup-dependency-graph.js:117-124 | Sorting by key permutes its input, and gives strictly increasing keys when they are distinct |
| `DependencyGraphBuild.BucketDomains` | apps/api/src/backup-dependency-graph.js:176-182 | The buckets filled in one pass hold exactly the domains of each website, in order |
| `DependencyGraphBuild.TouchOwned` | apps/api/src/backup-dependency-graph.js:224-232 | The nested loops over owned websites collect exactly the specified ids and references |
| `DependencyGraphBuild.TouchSubject` | apps/api/src/backup-dependency-graph.js:218-268 | The four resource branches collect exactly what the specification says of that kind, missing links included |
| `DependencyGraphBuild.CreateBackupDependencyGraph` | apps/api/src/backup-dependency-graph.js:126-293 | The imperative construction returns exactly the specified graph, or the first error |
| `ApplicationRuns.ReloadClosure` | apps/api/src/application-registry.js:166-333 | An application satisfying the invariants is accepted by `hydrateApplication` and left unchanged |
| `ApplicationRuns.ReachableInv` | apps/api/src/application-registry.js:428-1216 | After creation and any sequence of operations, refused ones included, the invariants hold and reloading changes nothing |
| `ApplicationRuns.CreatedInv` | apps/api/src/application-registry.js:428-577 | Every created application of the four kinds satisfies the invariants |
| `ApplicationInvariants.StepKeepsInv` | apps/api/src/application-registry.js:596-1216 | Every accepted operation keeps the release-history, configuration-revision and shape invariants |
| `ApplicationInvariants.TrimKeeps` | apps/api/src/application-registry.js:335-346 | Trimming keeps at most `retention` distinct releases from the given ones and never loses the current or previous release |
| `ApplicationInvariants.TrimDropsOldest` | apps/api/src/application-registry.js:335-346 | A release is dropped only when the limit is reached, and an unprotected one is kept only if every release before it, that is every newer one, is kept |
| `ApplicationInvariants.DeployedKeepsInv` | apps/api/src/application-registry.js:617-736 | Recording a deployment keeps all invariants |
| `ApplicationInvariants.ActivatedKeepsInv` | apps/api/src/application-registry.js:738-830 | Passenger and Python activations keep all invariants |
| `ApplicationInvariants.ResetKeepsInv` | apps/api/src/application-registry.js:832-870 | Undoing an initial release keeps all invariants |
| `ApplicationInvariants.MigratedKeepsHistory` | apps/api/src/application-registry.js:872-902 | Migration to Passenger keeps the release-history invariant, the in-flight markers included |
| `ApplicationInvariants.MigratedKeepsConfig` | apps/api/src/application-registry.js:872-902 | Stripping ports from every recorded runtime keeps revisions and runtimes consistent |
| `ApplicationInvariants.RolledBackKeepsInv` | apps/api/src/application-registry.js:1055-1126 | Completing a rollback makes the target's runtime and revision the applied ones and keeps all invariants |
| `ApplicationInvariants.ConfiguredKeepsInv` | apps/api/src/application-registry.js:1141-1216 | A configuration update raises the desired revision by one and keeps all invariants |
| `ApplicationRuns.InFlightExclusive` | apps/api/src/application-registry.js:596-1139 | With fresh ids, no sequence of operations ends an active deployment or rollback unless it contains a completion or failure carrying its own id; markers and release identities stay |
| `ApplicationRuns.ResetDropsFlightIff` | apps/api/src/application-registry.js:832-870 | A reset ends an in-flight operation if and only if the reset names its id, that id is also the current release and there is no previous release |
| `ApplicationRuns.ReusedIdLosesDeployment` | apps/api/src/application-registry.js:997-1031 | A concrete three-operation run in which a reset drops the deployment in flight |
| `ApplicationRuns.RollbackTargetRetained` | apps/api/src/application-registry.js:1055-1126 | When a rollback completes its target is still retained: neither the missing-release nor the inconsistent-state error can be raised |
| `ApplicationRuns.AppliedMeansNothingPending` | apps/api/src/application-registry.js:106-126 | When the applied revision equals the desired one, no configuration is shown as pending |
| `ApplicationRuns.RevisionNamesOneRuntime` | apps/api/src/application-registry.js:617-1216 | Over any run, two releases recorded under one configuration revision have the same runtime up to the stripped port |
| `ApplicationRuns.MigrationStrandsFlight` | apps/api/src/application-registry.js:617-630 | On a Passenger application with a deployment or rollback in flight, over any run without a failure report for it, its own completion is always refused and it stays in flight |
| `ApplicationRuns.MigratedIsStranded` | apps/api/src/application-registry.js:872-902 | The migration of a direct-systemd application in flight leaves exactly that situation |
| `ApplicationRuns.OnlyMigrationStrands` | apps/api/src/application-registry.js:596-1139 | With fresh ids, until it is completed or failed nothing changes an application in flight at all, unless it is a Node application and is migrated meanwhile, which makes it a Passenger one |
| `ApplicationRuns.CompletionAnswered` | apps/api/src/application-registry.js:617-1126 | So a completion is refused for the adapter after such a migration, and without one is answered exactly as at the start |
| `ApplicationRunning.ReachableRunning` | apps/api/src/application-registry.js:428-1216 | After creation and any operations the current release id, commit and Git target are set together and are those of the retained release of that id; with nothing in flight an application is live exactly when it has a release; and a Node application's unit, ports and health path are those of its active runtime |
| `ApplicationRunning.StepKeepsRunning` | apps/api/src/application-registry.js:596-1216 | Every accepted operation keeps that |
| `ApplicationRunning.DeploymentRuns` | apps/api/src/application-registry.js:596-736 | A deployment begun and completed makes its release current with the commit and target reported, keeps the replaced one as the previous and retained one, and runs the desired runtime and revision |
| `ApplicationRunning.DeploymentInstalls` | apps/api/src/application-registry.js:617-736 | The completion alone: the release is recorded once under its id, older releases are untouched or trimmed |
| `ApplicationRunning.ActivationInstalls` | apps/api/src/application-registry.js:738-995 | The same for Passenger and Python activations, and a repeated activation changes nothing |
| `ApplicationRunning.ConfigurationTakesEffect` | apps/api/src/application-registry.js:1185-1216 | A new configuration leaves what runs as it is, refuses a second update of the old revision, and the next completed deployment runs it under the next revision, ports and health path included |
| `ApplicationRunning.FailureKeepsRunning` | apps/api/src/application-registry.js:1128-1139 | A failure report of another operation changes nothing; otherwise the flight ends, what was live is live, and nothing that runs changes |
| `ApplicationRunning.FailedFlightRestores` | apps/api/src/application-registry.js:596-1139 | A deployment or rollback that begins and fails leaves what ran before, and can be begun again |
| `ApplicationRunning.ResetUndoes` | apps/api/src/application-registry.js:738-870 | A reset right after a first activation is accepted, leaves release, revision, runtime and host fields other than the health path as before, and the activation can be made again |
| `ApplicationRunning.RollbackRuns` | apps/api/src/application-registry.js:1033-1126 | After a completed rollback the target is current with its own commit, Git target, runtime and revision, and the release left behind is the previous one, still retained |
| `ApplicationRunning.RollbackRoundTrip` | apps/api/src/application-registry.js:1033-1126 | Rolling a live application back and back again gives the same release, commit, target, runtime, revision and host fields |
| `ApplicationPorts.RegistryKeepsPorts` | apps/api/src/application-registry.js:428-1216 | Over every run of creations and operations, no two Node applications of a server share a port, nor two Python applications |
| `ApplicationPorts.AddKeepsKindsApart` | apps/api/src/application-registry.js:497-499 | A creation keeps ports distinct per server within its kind |
| `ApplicationPorts.TwoKindsOnePort` | apps/api/src/application-registry.js:497-573 | Across kinds the code does not look: a Python and a Node application of one server are both given port 3100 |
| `ApplicationPorts.AddKeepsAllApartIff` | apps/api/src/application-registry.js:497-573 | A creation keeps all ports of a server distinct if and only if no application of another kind holds the port |
| `ApplicationPorts.ConsiderateRunsKeepAllApart` | apps/api/src/application-registry.js:428-1216 | Runs whose creations take no port of the other kind keep all ports of a server distinct |
| `ApplicationPorts.StepKeepsPorts` | apps/api/src/application-registry.js:596-1216 | No operation on an application gives it a port it did not hold: ports that were distinct, within a kind or across, stay so |
| `ApplicationPorts.AllocateNodePort` | apps/api/src/application-registry.js:579-594 | The first port of the range neither reserved nor held by a Node application of the server, exhaustion if and only if there is none, and a bounds error exactly for bad bounds |
| `ApplicationPorts.AllocatedPortIsAccepted` | apps/api/src/application-registry.js:457-501 | A port that allocation returned is accepted by Node creation |
| `ApplicationPorts.ReservedPortsKeepAllApart` | apps/api/src/application-registry.js:579-594 | If the reserved ports include those of the server's Python applications, the allocated port is distinct across kinds |
| `ApplicationRegistry.Application.TrimReleaseHistory` | apps/api/src/application-registry.js:335-346 | The in-place trimming loops compute the specified history |
| `ApplicationRegistry.Application.MarkDeploying` | apps/api/src/application-registry.js:596-615 | State after marking a deployment, or the refusal with nothing changed; like every operation of the class it keeps `Valid`, the invariants |
| `ApplicationRegistry.Application.MarkDeployed` | apps/api/src/application-registry.js:617-736 | All fields after a recorded deployment, every refusal of the source in its order |
| `ApplicationRegistry.Application.Activate` | apps/api/src/application-registry.js:738-830 | The assignments shared by both activations, the idempotent repetition included |
| `ApplicationRegistry.Application.ActivatePassengerRelease` | apps/api/src/application-registry.js:738-830 | Activation under the Passenger adapter, refused elsewhere |
| `ApplicationRegistry.Application.ActivatePythonRelease` | apps/api/src/application-registry.js:904-995 | Activation of a Python release, refused elsewhere |
| `ApplicationRegistry.Application.Reset` | apps/api/src/application-registry.js:832-870 | The assignments shared by both resets, the already-reset case included |
| `ApplicationRegistry.Application.ResetPassengerInitialRelease` | apps/api/src/application-registry.js:832-870 | Reset under the Passenger adapter, refused elsewhere |
| `ApplicationRegistry.Application.ResetPythonInitialRelease` | apps/api/src/application-registry.js:997-1031 | Reset of a Python application, refused elsewhere |
| `ApplicationRegistry.Application.MarkPassengerMigrated` | apps/api/src/application-registry.js:872-902 | Ports are stripped from all runtimes and the adapter changes; a repetition is a no-op |
| `ApplicationRegistry.Application.MarkRollingBack` | apps/api/src/application-registry.js:1033-1053 | The target becomes pending, or the refusal with nothing changed |
| `ApplicationRegistry.Application.MarkRolledBack` | apps/api/src/application-registry.js:1055-1126 | All fields after a completed rollback; the missing-release and inconsistent-state errors are never reported, and `Valid` keeps release, commit, target and host fields those of one retained release |
| `ApplicationRegistry.Application.MarkFailed` | apps/api/src/application-registry.js:1128-1139 | Only the operation in flight is ended, and the phase falls back to what is live |
| `ApplicationRegistry.Application.UpdateNodeConfiguration` | apps/api/src/application-registry.js:1141-1216 | Desired runtime and revision move together, or the refusal with nothing changed |
| `CertificateGc.EligibleExactly` | apps/api/src/certificate-material-gc.js:106-175 | A certificate is eligible if and only if it is retired, unpurged, bound to no domain, expired, and shares no ACME name, digest or path with a protected one: a non-retired one, or an unexpired retired one that reached the second pass |
| `CertificateGc.SetAsideIsUnprotected` | apps/api/src/certificate-material-gc.js:117-132 | An unexpired retired certificate that an eligible one still shares material with was set aside in the first pass: it is bound to a domain or shares with a live one |
| `CertificateGc.DomainBoundExample` | apps/api/src/certificate-material-gc.js:117-120 | A concrete eligible certificate that shares its name with an unexpired retired one bound to a domain |
| `CertificateGc.Partition` | apps/api/src/certificate-material-gc.js:99-175 | The six classes together hold every certificate exactly as often as it is listed |
| `CertificateGc.CountsAddUp` | apps/api/src/certificate-material-gc.js:177-192 | The six counts add up to the number of certificates |
| `CertificateGc.EligibilityGrows` | apps/api/src/certificate-material-gc.js:138-145 | Eligibility survives a later clock and a shorter retention |
| `CertificateGc.PurgeMovesOnlyPurged` | apps/api/src/certificate-material-gc.js:195-250 | Purging any eligible certificates leaves every other certificate in its class |
| `CertificateGc.SecondSweepIsIdle` | apps/api/src/certificate-material-gc.js:195-250 | After a full sweep nothing is eligible at the same clock |
| `CertificateGc.InterruptedSweepConverges` | apps/api/src/certificate-material-gc.js:195-250 | A sweep cut off after any number of candidates and then repeated ends in exactly the store of an uninterrupted one |
| `CertificateGc.CandidateStaysPurgeable` | apps/api/src/certificate-material-gc.js:214-240 | Whatever registry operations run between the inspection and its turn, a candidate is still retired and its mark is accepted |
| `CertificateGc.LateSharerIsNew` | apps/api/src/certificate-material-gc.js:214-236 | A live certificate that uses a candidate's ACME name by then was created after the inspection |
| `CertificateGc.LateIssueExample` | apps/api/src/certificate-material-gc.js:195-236 | A concrete run in which the name is issued again between inspection and deletion, so that the deletion takes live material |
| `CertificateGc.NameInUseIff` | apps/api/src/certificate-registry.js:409-811 | Over any run a live certificate has an ACME name at the end only if one had it before or an accepted creation for it is among the operations; without a retirement, exactly then |
| `CertificateGc.DeletedNameInUseIff` | apps/api/src/certificate-material-gc.js:195-236 | A candidate's name is unused when its turn comes unless it was issued again since the inspection; without a retirement in between it is in use if and only if it was |
| `CertificateEffects.RetireDates` | apps/api/src/certificate-registry.js:730-791 | A live certificate is retired if and only if the plan describes it; the retirement is dated by the call and records that operation, the state and the update time it had, and no other record changes |
| `CertificateEffects.RetentionHolds` | apps/api/src/certificate-material-gc.js:138-145 | Whatever runs after a retirement at t, the window has passed exactly from t plus the retention on, and before that the certificate is not eligible |
| `CertificateEffects.RetireRepeats` | apps/api/src/certificate-registry.js:739-765 | After any run in between, repeating a retirement is accepted exactly under the same plan and changes nothing |
| `CertificateEffects.SelectionCommits` | apps/api/src/certificate-registry.js:698-715 | Accepted exactly for an active web certificate, which is then the only active one of its domain; other domains, mail and staging records are unchanged |
| `CertificateEffects.SelectionPrepares` | apps/api/src/certificate-registry.js:679-696 | An accepted preparation makes the one certificate active, in place and in force, and changes no other |
| `CertificateEffects.SelectionCompletes` | apps/api/src/certificate-registry.js:679-715 | After both calls the chosen certificate is active and alone in its domain |
| `CertificateEffects.ActiveIsSelectable` | apps/api/src/certificate-registry.js:545-588 | A certificate reported issued can be selected exactly until the reported end of validity |
| `CertificateEffects.CustomIsSelectable` | apps/api/src/certificate-registry.js:590-677 | So can a registered custom one, which is added with the given domain, server and digest |
| `CertificateEffects.CreationBlocks` | apps/api/src/certificate-registry.js:409-504 | A pending certificate refuses the next request for its domain and purpose and no other request |
| `CertificateEffects.FailureFrees` | apps/api/src/certificate-registry.js:717-728 | A failed certificate no longer refuses any request |
| `CertificateEffects.ValidationFrees` | apps/api/src/certificate-registry.js:522-543 | A validated staging certificate no longer refuses the next staging request and never serves |
| `CertificateEffects.PurgeRepeats` | apps/api/src/certificate-registry.js:793-811 | A purge is dated once; repeating it changes nothing |
| `CertificateEffects.ClassesMean` | apps/api/src/certificate-material-gc.js:106-175 | Of a retired, unpurged certificate: shared-active means bound or shared with a live one; retained means past the first pass and unexpired; shared-retained means expired and shared with a retained one |
| `CertificateModel.ApplyKeeps` | apps/api/src/certificate-registry.js:409-811 | Every operation keeps ids distinct, loses no certificate, never leaves retired and never clears a purge mark; a refused one changes nothing |
| `CertificateModel.RetiredIsAbsorbing` | apps/api/src/certificate-registry.js:506-811 | The same over every sequence of operations |
| `CertificateModel.ApplyReadable` | apps/api/src/certificate-registry.js:267-357 | An operation leaves a store that hydration accepts if and only if it does not set a state needing material on a record that has none |
| `CertificateModel.RunStaysReadable` | apps/api/src/certificate-registry.js:267-357 | Without such a call every run leaves a readable store |
| `CertificateModel.FreshActiveIsUnreadable` | apps/api/src/certificate-registry.js:506-520 | Creating a certificate and setting it active gives a store the next start refuses |
| `CertificateModel.RunFiled` | apps/api/src/certificate-registry.js:232-244 | Over every run each path field that is set names its own file of the three |
| `CertificateRegistry.BuildLiveSets` | apps/api/src/certificate-material-gc.js:82-97 | The three lookup sets answer membership exactly as sharing with a non-retired certificate |
| `CertificateRegistry.FirstPass` | apps/api/src/certificate-material-gc.js:106-135 | The first loop splits the store into the three early classes and the rest, in order |
| `CertificateRegistry.MeetsRetained` | apps/api/src/certificate-material-gc.js:151-168 | The inner loop with its break decides sharing with an unexpired certificate of the second pass |
| `CertificateRegistry.InspectGcCandidates` | apps/api/src/certificate-material-gc.js:66-193 | The two passes return exactly the six classes, in store order |
| `CertificateRegistry.Registry.CreateForDomain` | apps/api/src/certificate-registry.js:409-504 | A pending record is added, or refused when a record of the same domain and purpose stands in the way; like every operation of the class it keeps ids distinct, paths in their fields, and retirement and purge marks permanent |
| `CertificateRegistry.Registry.RegisterCustom` | apps/api/src/certificate-registry.js:590-677 | Custom record with its report, or the refusal |
| `CertificateRegistry.Registry.SetState` | apps/api/src/certificate-registry.js:506-520 | The new state, or the refusal for a retired record |
| `CertificateRegistry.Registry.MarkValidated` | apps/api/src/certificate-registry.js:522-543 | Validation recorded, or the identity refusal |
| `CertificateRegistry.Registry.MarkActive` | apps/api/src/certificate-registry.js:545-588 | Material fields and state written together, or the refusal |
| `CertificateRegistry.Registry.PrepareSelection` | apps/api/src/certificate-registry.js:679-696 | A usable custom certificate is selected, or the refusal |
| `CertificateRegistry.Registry.CommitSelection` | apps/api/src/certificate-registry.js:698-715 | The other active web certificates of the selected one's domain are displaced in one pass (`CertificateEffects.SelectionCommits` says what is left) |
| `CertificateRegistry.Registry.MarkFailed` | apps/api/src/certificate-registry.js:717-728 | The failure state, or the refusal for a retired record |
| `CertificateRegistry.Registry.RetireForDomainRemoval` | apps/api/src/certificate-registry.js:730-791 | Retirement with its removal intent, dated by the call (`CertificateEffects.RetireDates`); the same intent again is a no-op, another is refused |
| `CertificateRegistry.Registry.MarkMaterialPurged` | apps/api/src/certificate-registry.js:793-811 | Only retired records are marked, and once |
| `CertificateRegistry.Registry.Sweep` | apps/api/src/certificate-material-gc.js:195-250 | What was swept is a prefix of the eligible list and exactly those are marked; a complete sweep covers all of it; each ACME name is deleted at most once and none belonged to a live certificate at the inspection |
| `CertificateRegistry.RemoveMaterial` | apps/api/src/certificate-material-gc.js:214-236 | One candidate's material is removed, an ACME name once only, or the failure is reported with nothing recorded |
| `EnvironmentTheorems.ImportIsMapUpdate` | apps/api/src/application-environment-registry.js:549-627 | Merge gives old overridden by imported, replace exactly the imported map; internal entries and other applications are untouched, size changes by added minus deleted, and one revision is recorded if and only if the map changed |
| `EnvironmentTheorems.CountedMeansChanged` | apps/api/src/application-environment-registry.js:582-617 | The counted additions, updates and deletions are all zero if and only if the target map equals the old one |
| `EnvironmentTheorems.SizeChanges` | apps/api/src/application-environment-registry.js:582-617 | The target map has the old size plus added minus deleted |
| `EnvironmentTheorems.RevisionPinsContents` | apps/api/src/application-environment-registry.js:319-667 | Over any run of operations of one process, equal revisions of one application mean equal variables, revisions and applied revisions never fall, and the metadata stays valid |
| `EnvironmentTheorems.StepMoves` | apps/api/src/application-environment-registry.js:319-667 | The same for each single operation, internal credentials and secrets included |
| `EnvironmentTheorems.SetMoves` | apps/api/src/application-environment-registry.js:339-383 | Setting a variable keeps the store valid; no application's revision falls, and one whose revision stays keeps its variables |
| `EnvironmentTheorems.DeleteMoves` | apps/api/src/application-environment-registry.js:529-547 | Deleting a variable keeps the store valid; no application's revision falls, and one whose revision stays keeps its variables (`EnvironmentEffects.DeleteAcceptedIff` says what is deleted) |
| `EnvironmentEffects.DeleteAcceptedIff` | apps/api/src/application-environment-registry.js:529-547 | A deletion is accepted if and only if the key is good and stored for that application; it removes that entry and no other of any application, and raises that revision by one |
| `EnvironmentEffects.DeletedIsGone` | apps/api/src/application-environment-registry.js:679-693 | No job receives a deleted variable, and a job queued for the revision before gets the conflict error |
| `EnvironmentEffects.SetStores` | apps/api/src/application-environment-registry.js:339-383 | A set stores its entry, leaves every other one of every application, internal ones included, and raises that revision by one |
| `EnvironmentEffects.InternalRoundTrip` | apps/api/src/application-environment-registry.js:385-527 | A stored credential or webhook secret reads back as itself and changes no view, no revision and no other entry |
| `EnvironmentEffects.InternalRemoved` | apps/api/src/application-environment-registry.js:454-527 | A removal is accepted if and only if the secret is stored; it then reads back as absent and nothing else changes |
| `EnvironmentTheorems.AppliedMoves` | apps/api/src/application-environment-registry.js:637-667 | Marking applied sets only that application's applied revision and changes no variable |
| `EnvironmentTheorems.JobReceivesWhatWasQueued` | apps/api/src/application-environment-registry.js:679-693 | After any run of one process, materialising with the revision read when a job was queued returns exactly what was saved then, or the conflict error if the revision has moved |
| `EnvironmentCrashes.JobSurvivesCrashes` | apps/api/src/application-environment-registry.js:248-259 | Through crashes, restarts and failed writes: a job given the revision in memory gets what memory held then or the conflict error, as long as every crash finds that revision or a later one in the file |
| `EnvironmentCrashes.JobServedIffRenamed` | apps/api/src/application-environment-registry.js:248-259 | At the first crash that matters this is exact: everything that can follow serves the job if and only if the file held the revision, or a later one, when the process died; otherwise plain edits issue the same revision with other contents |
| `EnvironmentCrashes.NothingSavedAfterFailure` | apps/api/src/application-environment-registry.js:251-258 | After one failed write nothing is saved any more until a restart, and the restart reads what the file held at the failure |
| `EnvironmentCrashes.PlayKeepsOrder` | apps/api/src/application-environment-registry.js:248-307 | File, queued snapshots and memory always stand in order: each is valid, and at or behind the next with equal contents at equal revisions |
| `EnvironmentCrashes.StartsInOrder` | apps/api/src/application-environment-registry.js:261-307 | A process that starts on a valid file is in that order |
| `EnvironmentLimits.LimitRefusesIff` | apps/api/src/application-environment-registry.js:608-610 | With the store's own master key, an admissible import is refused for the limit if and only if the map it would leave has more than 100 variables, and accepted otherwise |
| `EnvironmentLimits.SetAcceptedIff` | apps/api/src/application-environment-registry.js:339-383 | A single set is accepted if and only if the key is good and, for a secret, there is a master key; it overrides one entry and raises the revision by one |
| `EnvironmentLimits.SetsPassTheLimit` | packages/shared/src/application-environment.js:39-47 | 101 single sets are accepted, after which a merge of nothing is refused for the limit and so is the bundle made of what a job materialises |
| `EnvironmentTheorems.RunSealed` | apps/api/src/application-environment-registry.js:205-235 | Every value a run stores can be opened again with the key and name it was sealed under |
| `EnvironmentTheorems.ValuesAreView` | apps/api/src/application-environment-registry.js:679-693 | Materialising yields exactly the visible variables of the application, internal keys excluded |
| `EnvironmentRegistry.Registry.RecordEnvironmentChange` | apps/api/src/application-environment-registry.js:319-337 | The application's revision rises by one with the given change |
| `EnvironmentRegistry.Registry.SetVariable` | apps/api/src/application-environment-registry.js:339-383 | State after setting one variable, or the refusal for a bad key or a missing master key; no application moves back |
| `EnvironmentRegistry.Registry.DeleteVariable` | apps/api/src/application-environment-registry.js:529-547 | State after deleting one variable (`EnvironmentEffects.DeleteAcceptedIff` says which), or the refusal |
| `EnvironmentRegistry.Registry.CollectEntries` | apps/api/src/application-environment-registry.js:582-607 | The import loop builds the specified next list and counts, or the first error |
| `EnvironmentRegistry.Registry.ImportVariables` | apps/api/src/application-environment-registry.js:549-627 | The specified state, or the refusal with nothing changed |
| `EnvironmentRegistry.Registry.MarkApplied` | apps/api/src/application-environment-registry.js:637-667 | Applied revision and release, refused for a future or older revision |
| `EnvironmentRegistry.Registry.Materialize` | apps/api/src/application-environment-registry.js:679-693 | The plain values, or the first decryption or conflict error |
| `Auth.SessionsMatchPasswords` | apps/api/src/auth-store.js:189-357 | In every interleaving of login, change and reset, with verification outside the transaction, each live session of a non-MFA login was verified, successfully, against the very hash stored now, and no user has more than ten sessions |
| `Auth.StaleLoginRejected` | apps/api/src/auth-store.js:272-299 | A login admitted after any interleaving found its user's revision unchanged at every moment since it began, and its password matches the hash stored now |
| `Auth.TouchNeverExtends` | apps/api/src/auth-store.js:189-217 | A touched session expires no later than its creation plus the absolute lifetime, and its own expiry is not rewritten |
| `Auth.TrimmedToNine` | apps/api/src/auth-store.js:219-225 | Of any session table at most the nine newest of a user are kept before a new one is added |
| `Auth.PerformKeeps` | apps/api/src/auth-store.js:189-357 | The session invariant is kept by each single step of any call |
| `AuthEffects.ChangeReplaces` | apps/api/src/auth-store.js:327-342 | A change is accepted if and only if it was verified, its session still lives and the hash is the verified one; then hash and sessions are replaced, otherwise nothing changes |
| `AuthEffects.ResetReplaces` | apps/api/src/auth-store.js:343-357 | A reset does the same to the active account of that name, and nothing without one |
| `AuthEffects.ChangeTakesEffect` | apps/api/src/auth-store.js:272-342 | After an accepted change a login of the account is admitted only with a password the new hash accepts, and with one if the row still stands when it commits |
| `AuthEffects.ResetTakesEffect` | apps/api/src/auth-store.js:272-357 | The same after a reset |
| `AuthEffects.EarlierLoginsRefused` | apps/api/src/auth-store.js:283-295 | A login begun before an accepted change is refused after it, unless the new hash is the one it verified |
| `AuthEffects.LoginMints` | apps/api/src/auth-store.js:219-299 | An admitted login without a second factor leaves a session that its token retrieves, and the session it replaces is gone |
| `AuthEffects.TouchRenews` | apps/api/src/auth-store.js:189-217 | A touched session of an active account is returned exactly until the idle time after the touch or its absolute end, and no other row changes |
| `AuthEffects.UpdateTakesEffect` | apps/api/src/user-admin-store.js:176-216 | An administrator's update with a new password leaves the given row under the next revision and none of its sessions, and refuses every login begun before |
| `AuthEffects.RevocationEnds` | apps/api/src/auth-store.js:317-326 | Revoking all sessions ends exactly those of the caller |
| `AuthEffects.RevocationOfOne` | apps/api/src/auth-store.js:306-316 | Revoking one ends it if it is the caller's own, and no other |
| `AuthEffects.TrimKeepsNewest` | apps/api/src/auth-store.js:219-225 | A session is trimmed only from the user signing in, only if exactly nine of that user stay, each at least as new |
| `AuthStore.Store.CreateSession` | apps/api/src/auth-store.js:219-225 | The table after trimming and inserting |
| `AuthStore.Store.GetSession` | apps/api/src/auth-store.js:189-217 | The session returned, and the row deleted or touched |
| `AuthStore.Store.CommitLogin` | apps/api/src/auth-store.js:283-295 | The fenced transaction: admitted exactly when user, hash and revision are unchanged |
| `AuthStore.Store.CommitChange` | apps/api/src/auth-store.js:334-340 | Accepted if and only if the session lives, the user exists and the verified hash stands; then the hash is the new one, no other account changes and exactly the user's sessions are gone; otherwise no row changes |
| `AuthStore.Store.DeleteSessions` | apps/api/src/auth-store.js:334-340 | Exactly the selected rows are deleted |
| `DomainLock.MutualExclusion` | apps/api/src/certificate-http.js:189-201 | In every run, throwing operations included, while a call runs no other call of its domain runs, all earlier ones have finished and all later ones wait |
| `DomainLock.EntryMeansInUse` | apps/api/src/certificate-http.js:189-201 | In every run the map has an entry for a domain if and only if somebody holds or waits for it |
| `DomainLock.RefinesQueue` | apps/api/src/certificate-http.js:189-201 | Each step of the promise chain is a step of a plain queue: arrivals join at the back, only the head enters, only the head leaves |
| `DomainLock.HeadCanMove` | apps/api/src/certificate-http.js:189-201 | Whenever calls of a domain are unfinished the first of them can enter or leave |
| `DomainLock.RunKeeps` | apps/api/src/certificate-http.js:189-201 | The chain invariant is kept by every run |
| `DomainLock.DomainLocks.Queue` | apps/api/src/certificate-http.js:190-193 | Arriving links the call behind the last one of its domain |
| `DomainLock.DomainLocks.Release` | apps/api/src/certificate-http.js:197-200 | Releasing removes the entry only when it is still the call's own |

## Left out

- ApplicationRegistry.Application.UpdateNodeConfiguration: the preview digest and confirmation comparisons before the update are not modelled; the revision comparison is.
- BackupProtocolSafety.FinishedBackupIsBacked: says nothing of local steps, because their executors report evidence without a job and a resumed local step runs again.
- BackupLiveness.CompleteAfterNPlusOneCalls: covers plans of child steps only and one finished job before each call; `BackupOverlap` covers calls that come early, die or overlap, also for child steps only.
- BackupOverlap.InTurnNeverFails: a plan with local steps is left out, because a local executor may fail at any time or return a reference the registry refuses; `apps/api/src/backup-production-runtime.js:32-71` is wired without local executors, so such plans are refused at creation.
- BackupProtocolSafety.SucceededJobsAreTaken: is about child steps; what local executors return is not constrained.
- BackupOverlap.OverlapFailsExactly: jobs of other operations and of the database and mail services count as an unfavourable answer, not as a busy source.
- BackupStoreRuns.StepNamesOneOperation: assumes stored plans were built by `createBackupPlan` and `createBackupExecutionPlan`; a plan written by hand may repeat a step digest.
- DatabaseBindings.Registry.BindDatabase: ownership is an answer of the website and application registries, and infrastructure databases and site users are left out.
- DatabaseBindings.Registry.Reload: whether a record is well formed and its references are current is an answer from outside.
- ApplicationRuns.InFlightExclusive: assumes a deployment does not reuse the id of the current release; `ApplicationRuns.ResetDropsFlightIff` says what happens otherwise.
- EnvironmentTheorems.RevisionPinsContents: says nothing across a restart, where it can fail; `EnvironmentCrashes` says exactly when.
- EnvironmentTheorems.JobReceivesWhatWasQueued: holds between restarts (`EnvironmentCrashes` has the rest), and assumes stored secrets were sealed under the registry's own master key; a changed key is an error of `materialize`, which the method models.
- EnvironmentTheorems.ImportIsMapUpdate: assumes the parser yields well-formed, distinct, non-internal keys; the parser is not part of this model.
- BackupOperationRegistry.Registry.Mutate: one mutation runs at a time, as the promise chain arranges; interleaving with first reads is in `BackupStoreRuns`.
- CertificateRegistry.Registry.Sweep: no registry operation runs at its awaits (`CertificateGc.CandidateStaysPurgeable` and `CertificateGc.LateSharerIsNew` say what those can do), and deletion of material is an oracle that succeeds or throws per candidate; which of certbot or the material manager did it is not distinguished.
- Building the manifest (`apps/api/src/backup-manifest.js`) beyond what a normalised resource is, including the Docker storage policy table and the ordering inside an identity digest.
- The locks, indexes and listings of the binding registry; the provider's source readers, whose lists are inputs here.
- The engine's infrastructure-database filter, field-format regular expressions and length limits of opaque values.
- Locale order of identities is taken to agree with code-unit order.
- The ceiling of safe integers on desired revisions and on environment revisions, except where `materialize` reads one.
- Certificate files, roots, challenges, X.509 checks and the rollback of a failed certificate write; the ACME name arrives already in canonical form.
- Hydration of certificate stores from older versions and of version 1 environment stores.
- EnvironmentEffects.InternalRoundTrip: the value of a stored credential or secret, not the type and time its status answer shows.
- ApplicationRunning.ConfigurationTakesEffect: follows a deployment, so it speaks of direct-systemd applications; for Passenger `ApplicationRunning.ActivationInstalls` says the same of the activation.
- The `appliedToRunningProcess` view, public projections of records, and listing operations.
- Artifacts and logs of jobs, and jobs of other operations except as refusals of the queue.
- MFA challenges, rate limits, CSRF tokens, audit events and setup; an MFA session carries no claim about a password.
- The HTTP routes, the AI providers, dependency wiring and the web server.
