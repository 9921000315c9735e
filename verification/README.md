# A verified model of the tailnet control plane

A control plane hands commands to one polling daemon per agent. Worker daemons create and remove tenants in a stack
directory; gateway daemons scan networks, and their results become a table of hosts and findings. This project models
that logic in Dafny and proves what its parts keep true over whole runs:

- **Commands.** `CommandQueue` is the command table, `Delivery` the polling protocol with lost replies, lost acks and
  crashes. Each command is delivered and executed at most once, in creation order; without losses nothing expires.
  `LateAcks` drops that discipline: acks for any command, repeated or late, leave no trace once it is settled.
- **Tenants.** `TenantRegistry` gives the service calls as functions on the two tables, `TenantService` performs them step
  by step. `StackState` and `EnvFile` are the worker's directory, with a failure possible at every effect.
  `TenantEffects` says what each call and each settled command makes of the two tables. `WorkerExecution`, `WorkerDaemon` and
  `Lifecycle` join everything into one transition system. Its main results: a tenant that was ever asked to be provisioned
  leaves the registry only when its worker's saved state no longer lists it, and every ack that gets through gives its tenant
  exactly the reported outcome.
- **Scan planning.** `Cidr` cuts networks into chunks, `Rotation` is the wrapping window, `MonitoringPolicy` validates
  policies and intervals, `ScanScheduler` runs scheduler, triggers and delivery together. From any cursor, ceil(n / k) scans cover
  every address of the policy, none is ever outside it, and no smaller number suffices.
- **Hosts and findings.** `HostInventory`, `VulnFindings` and `GatewayMonitor` fold results into tables. The host table is
  described by the raw hosts of all results ever reported, the findings by the first report of each. `VulnPool` is the agent's thread pool at the grain of its lock.
- **Access.** `AccessScoping` compares the list filter with the access check. `Naming` covers slugs and database names.

`Options`, `Sequences`, `Sorting` and `Arithmetic` hold shared facts. `dafny verify dfyconfig.toml` checks the whole project.

Operations that update rows, files or fields are classes whose methods are proved against a specification function or
relation; the theorems about runs are lemmas about that specification. Calls that the source makes in one database
transaction are single steps. A command, host or finding is identified by its row number, so row order is creation order.

Where code and documentation differ, the code is followed. Several promises hold only in part; each has its condition and an
input at which it fails:

- Database names are not unique. `Naming.DbNameCollisions` says exactly when two requests collide, `CollisionExample` shows one.
- A compose file written by a success need not serve every saved tenant: a removal that fails after the tenant's directory
  is gone leaves the tenant saved (`backend/agent_daemon/stack_provisioner.py:335-399`). A tenant has its block exactly when its
  directory still has its snippet (`StackState.SuccessesGenerateWhatIsSaved`), and loses it only by such a removal
  (`MissingBlocksMeanFailedRemovals`); `LostBlockExample` is a history of three operations.
- Repeating identified results may add findings, because results for a host not discovered yet are dropped.
  `GatewayMonitor.RepeatingAddsNothing` has the exact condition, `DroppedResultsAreAddedLater` the input.
- A full sweep is cut to the first `chunk_count` chunks (`backend/gateways/monitoring_service.py:328-331`), the same ones every time,
  although the coverage time shown for it is one interval. `ScanScheduler.FullSweepsCover` says exactly when it covers
  everything; the default network under the default chunk count does not (`DefaultFullSweepMissesAddresses`).
- Asking for the status of an old command applies its result once more (`backend/workers/tenant_views.py:308-326`), so a tenant's status
  need not be that of its newest command: `Lifecycle.StatusRequestAppliesItsCommand` says exactly what such a request does, in any
  run, `TenantEffects.AgainChangesNothing` when it changes nothing, and `RevertedStop` is a stopped tenant it turns to running.
- A viewer with an edit grant on a tenant sees it listed but may not open it. `AccessScoping.ListingAgreesWithAccess` shows
  that this is the only disagreement, `NoDisagreementAfterGranting` that `create_grant` never lets it arise, and
  `DemotedEditorExample` that a role change does.

## Model

| member | source | states |
|---|---|---|
| CommandQueue.CommandTable.Enqueue | backend/agents/services.py:122-139 | a new pending row is appended and every other row is unchanged |
| CommandQueue.CommandTable.ExpireStaleDispatched | backend/agents/services.py:103-110 | exactly the agent's dispatched rows older than two poll intervals become failed; the count is theirs |
| CommandQueue.CommandTable.DispatchCommands | backend/agents/services.py:142-162 | expiry, then the batch is all of the agent's pending rows in creation order, now dispatched; rows of other agents are unchanged |
| CommandQueue.CommandTable.Ack | backend/agents/views.py:124-153 | an unknown or foreign id is refused, a settled row answers without effect, any other row is settled with the result |
| CommandQueue.PendingIdsExact | backend/agents/services.py:146-148 | a batch is increasing and holds exactly the agent's pending rows |
| Delivery.StepKeepsInv | backend/agents/services.py:103-188 | enqueue, poll, execute, ack and crash, with any loss, keep the protocol invariant |
| Delivery.StepFrame | backend/agents/services.py:142-188 | a step touches rows of its own agent only |
| Delivery.DeliveredOnceInCreationOrder | backend/agent_daemon/worker_daemon.py:83-88 | whatever is lost, an agent is handed each command at most once and in creation order, and executes at most once, in that order, only what it was handed |
| Delivery.CommandsMoveForward | backend/agents/services.py:103-188 | over any run a command only goes pending, dispatched, settled, and a settled row is final |
| Delivery.AckFindsDispatchedCommand | backend/agents/views.py:137-153 | in every run an ack that reaches the server finds its command still dispatched, so it takes effect |
| Delivery.NoLossNoExpiry | backend/agents/services.py:103-110 | without losses no command expires however long execution takes, and an idle daemon has executed all that left the queue |
| Delivery.PollLeavesFreshCommands | backend/agents/services.py:142-162 | after any history, a poll leaves the agent no pending command and no dispatched one older than two intervals |
| Delivery.WhatHappensToACommand | backend/agents/services.py:103-188 | the whole effect of any protocol step on any command: handed out, expired, settled with its result, or unchanged |
| Delivery.ExpiresExactlyWhen | backend/agents/services.py:103-110 | in every run a command expires exactly in a poll of its agent more than two poll intervals after it was handed out |
| Delivery.LateAckChangesNothing | backend/agents/views.py:138-139 | an ack changes the rows if and only if its command is not settled yet |
| LateAcks.LateAcksLeaveNoTrace | backend/agents/views.py:138-153 | in any sequence of service calls, polls and acks for any commands, leaving out every ack that finds its command expired or acked changes the outcome for no command and no tenant |
| LateAcks.SettledForGood | backend/agents/views.py:138-153 | an expired or acked command stays exactly as it is over any such sequence |
| LateAcks.LateGatewayAcksLeaveNoTrace | backend/agents/views.py:138-153 | the same for a gateway: late acks change no command, host, alert or finding |
| Sorting.SortSet | backend/agent_daemon/stack_provisioner.py:255-255 | `sorted` of a set: the one strictly increasing listing of its elements |
| Sorting.SortByKey | backend/workers/tenant_services.py:356-362 | the keys ordered by their distinct values, each exactly once |
| Naming.SlugsAreDistinct | backend/tenants/legacy.py:10-45 | two valid requests get the same slug if and only if they are the same request |
| Naming.DecimalReadsBack | backend/tenants/legacy.py:10-30 | numbers in names are written in decimal without leading zeros |
| Naming.DbNameCollisions | backend/tenants/legacy.py:19-30 | two database names are equal exactly when the requests are, or an unnumbered suffix spells out the other's suffix and number |
| Naming.CollisionExample | backend/tenants/legacy.py:21-27 | suffix `a_1` without number and suffix `a` with number 1 collide |
| Naming.GeneratedDbNames | backend/lifecycle/identifiers.py:5-18 | a generated database name is valid iff suffix and number together have at most 59 characters; 27 digits always fit |
| EnvFile.ReadEnvFile | backend/agent_daemon/stack_provisioner.py:72-82 | the reading loop computes ReadEnv: comments, blank lines and lines without `=` skipped, later bindings win |
| EnvFile.SplitLines | backend/agent_daemon/stack_provisioner.py:76-76 | the text is cut at every line break |
| EnvFile.WriteEnvFile | backend/agent_daemon/stack_provisioner.py:85-87 | the written text is one `key=value` line per entry in key order |
| EnvFile.RoundTrip | backend/agent_daemon/stack_provisioner.py:72-87 | reading back what was written gives the same map if and only if keys are trimmed, without `=` or `#` start, and values trimmed single lines |
| EnvFile.WrittenTailSurvives | backend/agent_daemon/stack_provisioner.py:72-87 | a binding survives a write even next to ill-formed values, if it and all keys sorting after it are well formed |
| EnvFile.ReadAppend | backend/agent_daemon/stack_provisioner.py:72-82 | reading two texts joined by a line break is reading one, then the other |
| EnvFile.EnsureSecret | backend/agent_daemon/stack_provisioner.py:90-96 | a real secret is returned and the map unchanged; a missing or placeholder one is replaced by the drawn token |
| StackState.StackProvisioner.WriteStackEnv | backend/agent_daemon/stack_provisioner.py:179-190 | the written file is exactly the old map with secrets, defaults and edge settings added; the passwords handed on are the stored ones; both are established, and those established before read back unchanged |
| StackState.StackProvisioner.RenewSecrets | backend/agent_daemon/stack_provisioner.py:200-204 | the rewritten tenant secrets are established, and established ones keep their value |
| StackState.StackProvisioner.WriteTenantDir | backend/agent_daemon/stack_provisioner.py:192-249 | no other tenant's directory changes, the tenant's own secrets are kept, success leaves it complete |
| StackState.StackProvisioner.WriteStackBundle | backend/agent_daemon/stack_provisioner.py:401-433 | if no write fails, the generated files list exactly the given databases and tenant blocks; the user list pairs the database user and the pooler's user with the passwords handed in, and the init script has the database password |
| StackState.StackProvisioner.Provision | backend/agent_daemon/stack_provisioner.py:115-297 | the relation Provisioned: refusals change nothing, failures leave the state file, success saves the tenant, mode and database and generates matching files; passwords and secrets are kept on every path |
| StackState.StackProvisioner.Deprovision | backend/agent_daemon/stack_provisioner.py:299-399 | the relation Deprovisioned: failures leave the state file, success removes directory, tenant and database, and clears `initialized` exactly with the last tenant |
| StackState.PasswordsSurviveWrite | backend/agent_daemon/stack_provisioner.py:179-190 | whatever the edge settings contain, both passwords and the pooler's user read back as written |
| StackState.RewriteWritesSettings | backend/agent_daemon/stack_provisioner.py:72-190 | if no edge setting spans several lines, the rewritten file reads back the edge settings, the default users where none were set, and every other entry as before |
| StackState.SavedStateFollowsHistory | backend/agent_daemon/stack_provisioner.py:140-399 | after any successes and failures the saved tenants are sorted, unique and exactly those whose last success was a provision, all in the saved mode; initialized iff there is one |
| StackState.SavedStep | backend/agent_daemon/stack_provisioner.py:281-391 | one operation: which tenant becomes or stops being saved, the mode and shared edge saved, the database added or taken out |
| StackState.FailuresLeaveStateFile | backend/agent_daemon/stack_provisioner.py:115-399 | a stretch of operations without success leaves the state file as it was |
| StackState.SuccessesGenerateWhatIsSaved | backend/agent_daemon/stack_provisioner.py:255-290 | in any run, a success on an initialized stack leaves a database list and an init script that list exactly the saved databases; a tenant has a block in the compose file if and only if it is saved and its directory still has its snippet |
| StackState.SuccessesGeneratePasswords | backend/lifecycle/stack_generator.py:252-262 | in any run, a success on an initialized stack leaves a user list and an init script with exactly what .env reads back: POSTGRES_PASSWORD for the database user and the script, PGBOUNCER_PASSWORD for PGBOUNCER_USER, which defaults to pgbouncer; after a provision both are real secrets |
| StackState.GeneratedPasswordsStay | backend/agent_daemon/stack_provisioner.py:90-433 | the passwords a provision generates are non-empty, and every later success on an initialized stack generates the same ones |
| StackState.ProvisionWritesSettings | backend/agent_daemon/stack_provisioner.py:178-191 | in any run, after a successful provision .env reads back the edge settings exactly for a stack with its own edge, the default users where none were set, and all its other entries but the passwords as before |
| StackState.ComposeFileIsExact | backend/agent_daemon/stack_provisioner.py:255-433 | after every success on an initialized stack the compose file has the saved mode, the requested network and exactly the snippet texts of the saved tenants that have one, ordered by slug |
| StackState.SnippetsAreLostByFailedRemovals | backend/agent_daemon/stack_provisioner.py:335-399 | from a directory without a state file: a saved tenant can lack its snippet only if a removal of it failed after its last successful provision |
| StackState.MissingBlocksMeanFailedRemovals | backend/agent_daemon/stack_provisioner.py:255-399 | so after every success each saved tenant has its block, except those whose removal failed since their last successful provision |
| StackState.LostBlockExample | backend/agent_daemon/stack_provisioner.py:335-399 | provisioning a, a removal of a that fails halfway, provisioning b: a is saved, and the compose file has a block for b but none for a |
| StackState.PasswordsNeverChange | backend/agent_daemon/stack_provisioner.py:179-190 | over any run an established stack password stays the same |
| StackState.TenantSecretsKept | backend/agent_daemon/stack_provisioner.py:200-204 | over any run a tenant's secrets stay the same until its directory is removed |
| TenantRegistry.Newest | backend/workers/tenant_services.py:107-123 | the newest pending or dispatched command of that kind for that tenant; none only if there is none |
| TenantRegistry.InsertedRows | backend/workers/tenant_services.py:184-197 | a bulk insert adds exactly the requested tenants under new ids and changes no other |
| TenantRegistry.CallsAppend | backend/workers/tenant_services.py:204-421 | every service call, re-sync included, only appends pending commands of enrolled agents |
| TenantService.Service.FindPending | backend/workers/tenant_services.py:107-123 | the search loop finds Newest |
| TenantService.Service.SameModeOnWorker | backend/workers/tenant_services.py:90-98 | true iff every tenant of the worker has this mode |
| TenantService.Service.EnqueueProvision | backend/workers/tenant_services.py:254-297 | errors in the source's order, reuse of a command in flight, else one new command and status provisioning |
| TenantService.Service.EnqueueDeprovision | backend/workers/tenant_services.py:222-251 | needs an enrolled worker only; reuses a command in flight |
| TenantService.Service.EnqueueStart | backend/workers/tenant_services.py:300-325 | refused while deleting or not ready; reuses a command in flight |
| TenantService.Service.EnqueueStop | backend/workers/tenant_services.py:328-353 | refused while deleting or not ready; reuses a command in flight |
| TenantService.Service.EnqueueVerify | backend/lifecycle/services.py:81-97 | reuses a command in flight, changes no tenant |
| TenantService.Service.EnqueueBootstrap | backend/lifecycle/services.py:100-155 | a bootstrapped tenant is skipped, a command in flight reused, else the tenant's bootstrap status becomes provisioning |
| TenantService.Service.RemoveTenant | backend/workers/tenant_services.py:204-219 | a pending tenant is deleted at once, any other gets a deprovision command and status deleting |
| TenantService.Service.BulkProvisionPending | backend/workers/tenant_services.py:356-362 | refused unless the worker is ready; then exactly its pending tenants, in slug order, up to the first error |
| TenantService.Service.SyncTenantFromAckedCommand | backend/workers/tenant_services.py:383-465 | the step-by-step sync ends in the tables Synced; what that makes of a tenant is TenantEffects.SyncConcludes |
| TenantService.Service.AckCommand | backend/agents/views.py:124-153 | ack and tenant sync as one step; nothing for unknown or settled commands; Lifecycle.AckedCommandSettlesTenant says what it leaves |
| TenantService.Service.PlanNumbers | backend/workers/tenant_services.py:148-182 | the plan is accepted exactly when suffix, mode, start number and all slugs are |
| TenantService.Service.BulkCreateTenants | backend/workers/tenant_services.py:137-201 | all requested tenants are created or none; the caught integrity error is never raised |
| TenantService.FreshSlug | backend/workers/tenant_services.py:184-197 | no planned slug clashes with an existing tenant or an earlier planned one |
| RegistryInvariant.CallKeepsInv | backend/workers/tenant_services.py:107-421 | every service call keeps: at most one command in flight per agent, tenant and kind, and rows that fit their tenant |
| RegistryInvariant.PolledKeepsInv | backend/agents/services.py:103-162 | so does a poll with its expiry |
| RegistryInvariant.AcknowledgedKeepsInv | backend/agents/views.py:137-153 | so does an ack with its tenant sync and automatic bootstrap |
| RegistryInvariant.EnqueuedKeepsInv | backend/workers/tenant_services.py:222-353 | so does each of the six enqueue calls |
| RegistryInvariant.SyncedKeepsInv | backend/workers/tenant_services.py:383-465 | so does applying, or re-applying, a settled command |
| RegistryInvariant.CallDepartures | backend/workers/tenant_services.py:204-219 | the only service call that takes out a tenant is the removal of a pending one, never asked to be provisioned |
| RegistryInvariant.AckedDeparture | backend/workers/tenant_services.py:453-465 | a delivered ack takes out a tenant only for its own successful deprovision |
| WorkerExecution.ExecutedFacts | backend/agent_daemon/worker_daemon.py:238-359 | every report tells the truth: saved tenants for provision and deprovision, and status fields that fit the kind of command and whether it succeeded |
| TenantEffects.SyncConcludes | backend/workers/tenant_services.py:383-465 | applying a settled command with a truthful result: success of provision or start makes the tenant running, of stop stopped, failure of a runtime action failed, deprovision with success takes it out; bootstrap sets its status; verify changes nothing; a bootstrap is queued after a provision unless done, under way or in flight; no other tenant or field changes |
| TenantEffects.RefusedExactlyWhen | backend/workers/tenant_services.py:222-353 | the exact condition, on tenants, workers, commands and settings, under which each kind of command is refused |
| TenantEffects.RefusalsMean | backend/workers/tenant_services.py:222-353 | what each error of an enqueue call says about tenant, worker and request |
| TenantEffects.QueuedEffects | backend/workers/tenant_services.py:222-353 | a call that is not refused leaves the command in flight: reused, or appended with slug, database name, mode and edge settings of its tenant, whose announced status alone changes |
| TenantEffects.RemovalEffects | backend/workers/tenant_services.py:204-219 | refused exactly on the wrong worker or, unless pending, without an agent; a pending tenant goes, any other becomes deleting with a deprovision in flight |
| TenantEffects.CreationEffects | backend/workers/tenant_services.py:137-201 | the requested tenants appear pending, with their slugs and database names, under the next ids, exactly when suffix, mode, start number and all slugs allow it; else nothing changes |
| TenantEffects.AckConcludes | backend/agents/views.py:137-153 | the same for a delivered ack of an open command, whose row then holds state, result and time |
| TenantEffects.AgainChangesNothing | backend/workers/tenant_views.py:308-326 | applying a settled command once more changes nothing if and only if its tenant still has the status the command left, which a later command may have changed |
| TenantEffects.RevertedStop | backend/workers/tenant_views.py:308-326 | a start and a stop, both acked: a status request for the start makes the stopped tenant running |
| Lifecycle.NextKeepsInv | backend/workers/tenant_services.py:204-465 | service calls, polls, executions, acks and crashes, with any loss, keep the joint invariant of registry, queue, daemons and directories |
| Lifecycle.RemovedTenantIsDeprovisioned | backend/workers/tenant_services.py:453-465 | in every run, when a tenant that was ever asked to be provisioned leaves the registry, its slug is absent from its worker's saved state at that moment |
| Lifecycle.TenantsLeaveInTwoWays | backend/workers/tenant_services.py:204-219 | a tenant leaves only by removal while pending and never provisioned, or by the delivered ack of its successful deprovision |
| Lifecycle.DepartedForGood | backend/workers/tenant_views.py:308-326 | no re-sync of an old command brings a removed tenant back |
| Lifecycle.AckedCommandSettlesTenant | backend/workers/tenant_services.py:383-465 | in every run an ack that reaches the control plane settles its command with the report and gives its tenant exactly the reported outcome: running, stopped, failed, bootstrapped or removed, with a bootstrap in flight, done or under way after a successful provision; every other tenant and field stays |
| Lifecycle.StatusRequestAppliesItsCommand | backend/workers/tenant_views.py:308-326 | in every run a status request for a settled command makes of its tenant what that command reported, or a failure if it expired, whatever happened since; for an open command or a tenant that is gone it changes nothing |
| Lifecycle.OneCommandInFlight | backend/workers/tenant_services.py:107-123 | in every reachable state at most one command per agent, tenant and kind is pending or dispatched |
| Lifecycle.DeliveredOnce | backend/agent_daemon/worker_daemon.py:83-88 | delivery and execution at most once and in creation order also hold in the joint system |
| Lifecycle.LateAckChangesNothing | backend/agents/views.py:138-139 | an ack changes commands or tenants if and only if its command is not settled yet |
| Lifecycle.NoLossNoExpiry | backend/agents/services.py:103-110 | in a joint run without losses no command expires, automatic bootstraps included |
| Lifecycle.ExecuteAndAck | backend/agent_daemon/worker_daemon.py:121-131 | handling one command is an execute step and an ack step of the joint system |
| WorkerDaemon.Daemon.HandleProvision | backend/agent_daemon/worker_daemon.py:238-281 | missing text fields, an invalid name or no docker are reported failed without touching the directory; otherwise report and directory stand in the relation Executed; the inventory gains the slug exactly on success |
| WorkerDaemon.Daemon.HandleDeprovision | backend/agent_daemon/worker_daemon.py:293-359 | likewise; the inventory loses the slug exactly on success |
| WorkerDaemon.Daemon.HandleRuntimeAction | backend/agent_daemon/worker_daemon.py:371-408 | start and stop change no file; the inventory changes exactly on success |
| WorkerDaemon.Daemon.HandleLifecycle | backend/agent_daemon/worker_daemon.py:191-236 | verify and bootstrap change no file and report no runtime status |
| WorkerDaemon.Daemon.ExecuteCommand | backend/agent_daemon/worker_daemon.py:133-161 | every command kind ends in the relation Executed |
| WorkerDaemon.Daemon.HandleCommand | backend/agent_daemon/worker_daemon.py:121-131 | handling a command moves the joint state along a run of Lifecycle; a lost ack ends the batch |
| WorkerDaemon.Daemon.RunOnce | backend/agent_daemon/worker_daemon.py:83-88 | one cycle of the daemon against the real service calls is a run of Lifecycle |
| Arithmetic.FewPowersLeaveGap | backend/gateways/monitoring_policy.py:62-116 | a sum of j powers of two below 2^e stays below it by at least 2^e / 2^j |
| Arithmetic.CeilDivIsLeast | backend/gateways/monitoring_policy.py:171-171 | ceil(n / k) is the least j with j * k >= n |
| Cidr.Masked | backend/gateways/monitoring_policy.py:76-76 | clearing host bits gives an aligned network of that prefix around the address |
| Cidr.MaskedIsUnique | backend/gateways/monitoring_policy.py:76-76 | and it is the only one |
| Cidr.SplitIsPartition | backend/gateways/monitoring_policy.py:105-109 | the chunks of a network are ascending, disjoint, of at most 256 addresses, and hold exactly its addresses |
| Cidr.EnumerateAllChunks | backend/gateways/monitoring_policy.py:112-116 | the loop lists the chunks of all networks in order |
| Cidr.ChunksCoverExactly | backend/gateways/monitoring_policy.py:112-116 | an address is in some chunk if and only if it is in some network |
| Rotation.SelectWindow | backend/gateways/monitoring_policy.py:133-142 | the selection loop computes the wrapping window and the next cursor |
| Rotation.VisitsAreConsecutive | backend/gateways/monitoring_policy.py:119-142 | successive plans walk round the ring without a gap, an overlap or a jump, from any cursor |
| Rotation.CoverageTakesExactlyCeil | backend/gateways/monitoring_policy.py:119-142 | j plans select all n positions if and only if j >= ceil(n / k), from any cursor, stale ones included |
| Rotation.ShownCoverageIsExact | backend/gateways/monitoring_policy.py:163-172 | the formula: a number of cycles has visited every chunk if and only if that number times the interval reaches the shown time |
| Rotation.VisitCount | backend/gateways/monitoring_policy.py:119-142 | the exact number of visits to a position |
| Rotation.VisitsAreFair | backend/gateways/monitoring_policy.py:119-142 | after any number of plans no position is two visits ahead of another |
| Rotation.SweepContents | backend/gateways/monitoring_policy.py:119-142 | successive plans target only chunks of the list, and all of them after ceil(n / k) plans |
| MonitoringPolicy.ValidateMonitoredCidrs | backend/gateways/monitoring_policy.py:62-102 | accepted exactly when count, every entry and the total fit; the result is the masked networks; a rejection names the first misfit |
| MonitoringPolicy.CheckCidr | backend/gateways/monitoring_policy.py:74-91 | one entry becomes its network or the complaint the source raises |
| MonitoringPolicy.AcceptedExactlyWhen | backend/gateways/monitoring_policy.py:62-102 | at most eight networks of 16 to 28 bits with at most 65536 addresses in all, and nothing else, is accepted; the list of blocked networks never decides; with large networks allowed only the count does |
| MonitoringPolicy.PlanRotatingChunks | backend/gateways/monitoring_policy.py:119-142 | an error exactly for a chunk count below one; else the rotating plan over all chunks |
| MonitoringPolicy.PlanFullSweep | backend/gateways/monitoring_policy.py:145-147 | all chunks, cursor 0 |
| MonitoringPolicy.SweepCoversExactlyThePolicy | backend/gateways/monitoring_policy.py:105-142 | no plan targets an address outside the policy, and ceil(chunks / chunk count) plans target every address in it |
| MonitoringPolicy.CoverageBoundIsTight | backend/gateways/monitoring_policy.py:163-172 | for networks that do not overlap, all addresses are covered if and only if that many plans were made |
| MonitoringPolicy.ShownCoverageOfPolicy | backend/gateways/monitoring_policy.py:163-172 | the same formula for the configuration of a rotating policy |
| MonitoringPolicy.MinIntervalMinutes | backend/gateways/monitoring_policy.py:156-160 | the least whole number of minutes that is at least ten and enough for a cycle's chunks at 12 seconds each with the 15 percent margin |
| MonitoringPolicy.AcceptedPolicyHasFewChunks | backend/gateways/monitoring_policy.py:62-116 | every list accepted without override cuts into at most 256 chunks |
| MonitoringPolicy.AcceptedPolicyCanBeScheduled | backend/gateways/monitoring_policy.py:156-195 | its full-sweep minimum lies between 10 and 59 minutes, and every interval from 59 minutes to a week is valid |
| MonitoringPolicy.IntervalExists | backend/gateways/monitoring_policy.py:182-195 | with override, a valid interval exists if and only if a cycle has at most 43826 chunks |
| MonitoringPolicy.DefaultPolicyMeetsTheBound | backend/gateways/monitoring_policy.py:10-20 | the default policy has exactly 256 chunks and a minimum of exactly 59 minutes |
| ScanScheduler.Scheduler.Plan | backend/gateways/monitoring_service.py:326-338 | the targets and next cursor of either strategy, or the chunk count error |
| ScanScheduler.Scheduler.SchedulePolicyScan | backend/gateways/monitoring_service.py:342-371 | plans, queues and moves the cursor exactly as PassIssues says; ScanScheduler.PassQueuesExactlyWhen says when |
| ScanScheduler.Scheduler.TriggerImmediateMonitorScan | backend/gateways/monitoring_service.py:375-411 | likewise without the interval; each refusal is given exactly when its own check is the first to fail |
| ScanScheduler.OneScanInFlight | backend/gateways/module_service.py:58-69 | however passes, triggers, edits, polls, acks, losses and crashes interleave, at most one scan is in flight |
| ScanScheduler.CursorMovesWithScans | backend/gateways/monitoring_service.py:362-371 | cursor, queued scans and last-scheduled time move together, exactly when a pass or trigger passes its guards |
| ScanScheduler.PassQueuesExactlyWhen | backend/gateways/monitoring_service.py:317-371 | a pass queues a scan exactly when moreover the policy is enabled and the last scan is absent or at least the interval ago |
| ScanScheduler.TriggerQueuesExactlyWhen | backend/gateways/monitoring_service.py:375-411 | a trigger queues a scan exactly when the gateway is online, masscan is installed and not being installed, no scan is in flight and the plan has targets, enabled or not |
| ScanScheduler.DisabledPolicyQueuesNothing | backend/gateways/monitoring_service.py:317-321 | in every run under a policy that stays disabled, passes, polls, executions and acks queue no scan; only a trigger does |
| ScanScheduler.ScansCarryConsecutiveWindows | backend/gateways/monitoring_service.py:326-371 | while a rotating policy is not edited, the scans queued in a run sweep it window after window from the run's first cursor |
| ScanScheduler.ScansCoverThePolicy | backend/gateways/monitoring_service.py:326-371 | after ceil(chunks / chunk count) queued scans every address of the policy is in some scan's targets, and none outside ever is |
| ScanScheduler.FullSweepIsCut | backend/gateways/monitoring_service.py:328-331 | one plan of a full sweep is the first chunk_count chunks, all of them if and only if there are no more |
| ScanScheduler.FullSweepsRepeat | backend/gateways/monitoring_service.py:328-371 | in every run without edits all scans of a full-sweep policy target the same first chunk_count chunks |
| ScanScheduler.FullSweepsCover | backend/gateways/monitoring_service.py:328-371 | for networks that do not overlap, the scans of such a run cover every address if and only if there are at most chunk_count chunks |
| ScanScheduler.DefaultFullSweepMissesAddresses | backend/gateways/models.py:98-104 | the default network has 256 chunks; under the default chunk count of 4 a full-sweep policy monitors 192.168.4.0 and never scans it, in any run |
| ScanScheduler.ScheduledScansKeepTheirDistance | backend/gateways/monitoring_service.py:317-323 | a scheduled scan comes at least the policy's interval after every earlier scheduled or immediate one |
| ScanScheduler.ScansAreSpacedOut | backend/gateways/monitoring_service.py:317-371 | in a run of scheduler passes the last of j scans comes at least j - 1 intervals after the first |
| ScanScheduler.CoverageTakesItsTime | backend/gateways/monitoring_policy.py:163-172 | in such a run a rotating policy without overlapping networks has not covered all addresses before the shown coverage time, less one interval, has passed since its first scan |
| HostInventory.ExtractHosts | backend/gateways/monitoring_service.py:65-88 | the entries are, one for one and in order, the raw hosts whose trimmed address is non-empty, each with that address, its hostname and mac, and exactly its positive ports ascending |
| HostInventory.ScanEntriesDescribe | backend/gateways/monitoring_service.py:65-88 | the same as a lemma about the entries that the fold and the host table start from |
| HostInventory.FoldEntries | backend/gateways/monitoring_service.py:126-158 | the merge loop computes FoldAll |
| HostInventory.FoldKeepsSummary | backend/gateways/monitoring_service.py:126-158 | merging one entry keeps the table equal to the summary of all sightings |
| HostInventory.OneMoreSighting | backend/gateways/monitoring_service.py:150-158 | the summary of one more sighting is what the update branch computes |
| HostInventory.FoldAllKeepsFlags | backend/gateways/monitoring_service.py:126-158 | merging keeps rows, addresses and vulnerability flags of known hosts |
| VulnFindings.RecordAllKeepsUnique | backend/gateways/monitoring_service.py:243-260 | recording keeps: no host has two findings with the same non-empty id, repeats in one payload included |
| VulnFindings.RecordsExactlyTheNew | backend/gateways/monitoring_service.py:243-260 | the loop that looks up each id in the growing table records exactly the first occurrences, stated on the payload and the old table alone |
| VulnFindings.AddsNothing | backend/gateways/monitoring_service.py:243-260 | processing results adds nothing if and only if each one with a host is identified and known |
| VulnFindings.ReprocessingAddsNothing | backend/gateways/monitoring_service.py:243-260 | processing the same results again, when more of them may have found a host, adds nothing if and only if each one with a host now carries an id and had its host before or is known for it |
| GatewayMonitor.MonitoringService.ProcessMonitorScanAck | backend/gateways/monitoring_service.py:91-160 | one call is After(ScanAck): ignored unless a readable acked monitor scan of this gateway not folded before |
| GatewayMonitor.MonitoringService.MaybeEnqueueVulnScans | backend/gateways/monitoring_service.py:163-187 | marks exactly the seen hosts that are new, never scanned or scanned too long ago, if vulnerability scans may be queued |
| GatewayMonitor.MonitoringService.ProcessVulnScanAck | backend/gateways/monitoring_service.py:270-314 | records the findings of known hosts and stamps the targets |
| GatewayMonitor.MonitoringService.ProcessVulnResultsPush | backend/gateways/monitoring_service.py:224-267 | records the findings for the job's host, clears its pending flag and stamps it; nothing for an unknown host |
| GatewayMonitor.MonitoringService.TriggerVulnRescan | backend/gateways/monitoring_service.py:414-448 | marks the asked host or all of them and returns how many; each refusal is given exactly when its own check is the first to fail |
| GatewayMonitor.MonitoringService.AckCommand | backend/agents/views.py:124-153 | the ack with both result handlers as one step; nothing for unknown or settled commands |
| GatewayMonitor.HostTableSummarisesHistory | backend/gateways/monitoring_service.py:91-160 | after any calls the host table is a plain function of all first-time results: one row and one alert per address in order of discovery, last non-empty names, union of ports, first and last sighting, is_new iff sighted once |
| GatewayMonitor.HostTableMirrorsReports | backend/gateways/monitoring_service.py:65-160 | after any calls, on the raw hosts of all first-time results: an address has a row iff one of them names it; hostname and mac are the last non-empty ones given, ports exactly the positive ones listed; first and last time, is_new iff named once; rows unique, in order of first report, one alert each |
| GatewayMonitor.SnapshotsMarkReports | backend/gateways/monitoring_service.py:101-124 | a snapshot of a command exists if and only if a usable result of it came in |
| GatewayMonitor.FoldedAtMostOnce | backend/gateways/monitoring_service.py:101-124 | no command is folded in twice |
| GatewayMonitor.LateAckChangesNothing | backend/agents/views.py:138-139 | an ack changes commands, hosts or findings if and only if its command is not settled yet |
| GatewayMonitor.FindingsStayUnique | backend/gateways/monitoring_service.py:224-314 | in every reachable state, across both result paths, no host has two findings with the same non-empty id |
| GatewayMonitor.RepeatingAddsNothing | backend/gateways/monitoring_service.py:224-314 | for a push by job or address and for acked scan results, with any calls in between: repeating adds nothing if and only if each result of a host known now carries an id, and its host was known before or the finding is known by now |
| GatewayMonitor.ResultsAddExactlyTheNew | backend/gateways/monitoring_service.py:224-314 | a push or scan result records exactly those results that have a host and no id, or an id first seen for that host, in order and unaltered |
| GatewayMonitor.OwnersAreTheNamedHosts | backend/gateways/monitoring_service.py:224-314 | in every run a result belongs to the host of the push, unless it names another address, and a scan's result to the host whose address it names |
| GatewayMonitor.DroppedResultsAreAddedLater | backend/gateways/monitoring_service.py:224-314 | identified results that arrive before a scan discovers their host add nothing; repeated afterwards, they add a finding |
| GatewayMonitor.PushingAgainAddsNothing | backend/gateways/monitoring_service.py:224-267 | for the job of a known host: nothing is added if and only if each result for it carries an id |
| GatewayMonitor.PendingClearedOnlyByPush | backend/gateways/monitoring_service.py:263-267 | a pending flag is cleared by a call if and only if that is a result push for this host |
| GatewayMonitor.AckedScanMarksExactly | backend/gateways/monitoring_service.py:158-187 | after the first ack of a monitor scan a host is pending exactly if it was, or if scans are enabled and installed, no other is open, the logs name it, and it is new, never scanned, or not within the rescan period |
| GatewayMonitor.StampedExactly | backend/gateways/monitoring_service.py:224-314 | the time of the last vulnerability scan changes exactly for the hosts a scan was for and for the host of a push |
| GatewayMonitor.GetVulnScanQueue | backend/gateways/monitoring_service.py:190-221 | pending hosts only, at most the worker limit, longest known first; a pending host is left out only when the queue is full of longer known ones |
| VulnPool.ChosenIsRight | backend/agent_daemon/vuln_worker.py:50-64 | a tick takes new, distinct, well-formed jobs within the free places, and all it could take |
| VulnPool.QueueIsServedInOrder | backend/agent_daemon/vuln_worker.py:50-64 | a usable item is left out only when items before it fill the free places |
| VulnPool.VulnWorkerPool.Schedule | backend/agent_daemon/vuln_worker.py:45-64 | the locked loop takes exactly the chosen items and adds exactly their ids to the active set |
| VulnPool.VulnWorkerPool.Discard | backend/agent_daemon/vuln_worker.py:104-106 | the end of a job removes its id only |
| VulnPool.StepKeepsInv | backend/agent_daemon/vuln_worker.py:38-106 | ticks, submissions, starts and ends in any order keep the pool invariant |
| VulnPool.ActiveSetIsExact | backend/agent_daemon/vuln_worker.py:38-106 | under every interleaving the active set is exactly the scheduled unfinished jobs, no job runs twice at once, and its size never exceeds the largest limit received |
| VulnPool.WorkerLimitIsKept | backend/agent_daemon/vuln_worker.py:45-64 | if no tick allows more than m jobs, where a missing limit means the pool's size, no more than m are ever in progress |
| AccessScoping.MaxAccessLevel | backend/accounts/scoping.py:19-22 | edit if listed, else view if listed, else none |
| AccessScoping.EditorInheritedLevels | backend/accounts/scoping.py:40-75 | the list holds exactly the levels granted on what the object belongs to, the object itself left out |
| AccessScoping.EffectiveAccess | backend/accounts/scoping.py:78-98 | edit iff admin, or editor with an edit grant here, on the tenant or on the worker; view iff viewer with a view grant on this tenant, or editor with a view grant and no edit grant there; else none |
| AccessScoping.AccessLevels | backend/accounts/scoping.py:78-98 | both levels characterised on grants and relations, for every user and object |
| AccessScoping.ViewersNeverEdit | backend/accounts/services/grants.py:27-77 | whatever was requested of create_grant, no viewer has edit access to anything |
| AccessScoping.ListingAgreesWithAccess | backend/accounts/scoping.py:78-142 | for any user, grants and relations the filter admits an existing object iff access is not none, except exactly for a viewer's edit grant on a tenant |
| AccessScoping.AccessGrowsFromWorker | backend/accounts/scoping.py:40-98 | an editor's access to a tenant is never below that to its worker, for every tenant with a worker |
| AccessScoping.AccessGrowsFromTenant | backend/accounts/scoping.py:40-98 | an editor's access to a gateway is never below that to its tenant |
| AccessScoping.AccessGrowsDownwards | backend/accounts/scoping.py:40-98 | so it never drops along a whole chain from worker to tenant to gateway |
| AccessScoping.GrantTable.CreateGrant | backend/accounts/services/grants.py:27-77 | granted exactly when the rules allow it, replacing an earlier level; a refusal changes nothing |
| AccessScoping.GrantingKeepsViewersOnlyView | backend/accounts/services/grants.py:27-77 | whatever is requested, viewers hold view grants on tenants only |
| AccessScoping.NoDisagreementAfterGranting | backend/accounts/scoping.py:110-142 | so with fixed roles the filter and the access check agree for everyone |
| AccessScoping.DemotedEditorExample | backend/accounts/scoping.py:91-116 | an editor granted edit access to a tenant who becomes a viewer sees it listed and has no access to it |

## Left out

- Commands from the raw endpoints, and scans queued by any caller other than the scheduler and the immediate trigger: they skip the in-flight checks.
- Tenant edits through the update endpoint, role changes, gateway deletion, and the enrollment of an agent as a step; a worker is identified with its agent.
- Two requests interleaving inside one service call, and two rows created at the same instant; only `VulnPool` goes below the transaction.
- Several clock readings within one call or one daemon cycle: each uses a single time, and times are integers.
- Docker, psql, DNS, scanners and HTTP: each is a success, a reported failure or an exception, chosen freely.
- Token generation: a drawn token is any hexadecimal string. Text of configuration, compose and YAML files: only the tenants, databases and passwords in it.
- A write or a directory removal that fails half way: each file write and each removal happens or does not.
- Column widths (a slug over 64 characters), negative start numbers and non-positive counts other than zero in bulk creation.
- IPv6, and addresses compared as anything other than text in the host table; a job id that is not a UUID.
- Installing modules, health history, bootstrap secrets, metrics, and the shutdown of daemons and of the worker pool.
- Which modules are installed, and whether a gateway or worker is online, come in with each call.
- Acks that reach the server after their daemon's next step but before their command is settled: the joint system takes them as lost.
- StackState.StackProvisioner.WriteTenantDir: leaves out the configuration, DNS record and metadata files; nothing in the model reads them.
- WorkerDaemon.Daemon.ExecuteCommand: leaves out install_module, shutdown and unknown commands, which change no tenant.
- WorkerDaemon.Daemon.HandleProvision: the two configuration objects are not part of the model, so that they are missing is not either.
- MonitoringPolicy.ShownCoverageOfPolicy: counts cycles only; ScanScheduler.CoverageTakesItsTime is the statement about scan times.
- StackState.SnippetsAreLostByFailedRemovals: one way only; whether a failed removal got as far as the directory is not visible in its outcome.
- MonitoringPolicy.MinIntervalMinutes: takes 1.15 as the fraction 115/100; rounding of floating-point products is not modelled.
- Rotation.ShownCoverageIsExact: counts cycles only, and is stated in minutes, so the division by 60 is not modelled.
- HostInventory.ExtractHosts: takes ports as parsed numbers or junk; digit strings of other scripts are not modelled.
- Lifecycle.DepartedForGood: speaks of tenant ids; a new tenant may be given an old slug.
