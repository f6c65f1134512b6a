# bedrock sharding core, modelled in Dafny

bedrock runs a Discord bot as a fleet of workers. The operator, **crust**,
watches `ShardCluster` resources in Kubernetes. For each cluster it asks
Discord how many shards to run. It cuts the shard IDs `0..total` into
contiguous groups and runs one worker deployment per group. It tells the
workers over NATS about a new shard count, and records the result in the
resource's status. A scheduler marks clusters whose reshard interval has
passed.

Each worker, **stratum**, reads its group's range from its environment. It
starts one task per shard ID, staggering its startup by its group number.
When a reshard signal arrives, it stops and starts tasks to match.

The model covers these pieces:

- the partition planner;
- the deployment spec and the create/patch/delete pass over a namespace's
  deployments;
- the reconcile decision of both operator crates, with its error policy;
- the scheduler;
- the worker's configuration loader and shard range;
- the shard manager, as a class over its map of running tasks;
- the NATS payloads and listeners.

A `Fleet` module ties the operator and the worker together. It proves that
the worker started from planned group `k` loads exactly that group's range,
that the workers' ranges partition `0..total`, and that group `k` waits
`10 * k` seconds before starting.

Rust integers are subset types (`U32`, `U64`, `I32`). An arithmetic
overflow that would panic in a debug build is a precondition. A `u64 as u32`
cast is written out as `% 2^32`. Time is whole seconds since the epoch.

## Model

| member | source | states |
|---|---|---|
| Decimal.NatToString | bot/crates/crust/src/kubernetes.rs:133-146 | the rendering of an unsigned integer has at least one digit, all digits, and no leading zero unless it is "0" |
| Decimal.ParseU32 | bot/crates/stratum/src/config.rs:66-78 | a parse succeeds exactly on one or more digits, optionally after a single `+`, whose value fits in 32 bits, and returns that value; everything else (empty, lone sign, `-`, other characters, overflow) fails |
| Decimal.DigitsValueOfNatToString | bot/crates/crust/src/kubernetes.rs:133-146 | the digits of a rendered number have that number as their value |
| Decimal.ParseNatToString | bot/crates/stratum/src/config.rs:66-74 | parsing the rendering of any `u32` gives it back (the operator writes numbers that the worker reads) |
| Text.Contains | bot/crates/crust/src/controller.rs:115 | substring search is true iff the pattern occurs at some position |
| Text.StripPrefix | bot/crates/stratum/src/shard_manager.rs:89 | the result is present iff the prefix starts the string, and then prefix plus result is the string |
| ShardPlanner.GroupName | bot/crates/crust/src/kubernetes.rs:42 | a group name is `stratum-group-` followed by the decimal index |
| ShardPlanner.GroupCountIsCeiling | bot/crates/crust/src/kubernetes.rs:32-52 | the number of groups is the ceiling of total over shards-per-replica |
| ShardPlanner.LastGroupSizeBounds | bot/crates/crust/src/kubernetes.rs:38-39 | the last group holds between 1 and shards-per-replica IDs |
| ShardPlanner.PlanFromLength | bot/crates/crust/src/kubernetes.rs:37-49 | the loop from `current` emits one group per started block of IDs |
| ShardPlanner.PlanFromStep | bot/crates/crust/src/kubernetes.rs:38-47 | each loop turn emits the group `current..min(current+s-1, total-1)` and continues after it |
| ShardPlanner.PlanFromContiguous | bot/crates/crust/src/kubernetes.rs:37-49 | the emitted groups tile `current..total` with no gap and no overlap |
| ShardPlanner.PlanFromNamed | bot/crates/crust/src/kubernetes.rs:40-44 | group `k` is named after index `index + k` and asks for one replica |
| ShardPlanner.PlanFromSized | bot/crates/crust/src/kubernetes.rs:38-39 | every group has at most `s` IDs and all but the last exactly `s` |
| ShardPlanner.PlanIsPartition | bot/crates/crust/src/kubernetes.rs:32-52 | the plan is contiguous over `0..total`, named from 0, sized by `s`, with ceiling(total/s) groups, and empty for no shards |
| ShardPlanner.ContiguousCovers | bot/crates/crust/src/kubernetes.rs:37-49 | contiguous groups cover exactly their span |
| ShardPlanner.ContiguousAscending | bot/crates/crust/src/kubernetes.rs:37-49 | contiguous groups are strictly ascending, each ending before the next starts |
| ShardPlanner.PlanOwnsEachShardOnce | bot/crates/crust/src/kubernetes.rs:32-52 | every ID below the total lies in some group, no other ID does, and no ID lies in two groups |
| ShardPlanner.GroupStartsAtMultiple | bot/crates/crust/src/kubernetes.rs:37-49 | group `k` starts at `k * s` |
| ShardPlanner.EmitNext | bot/crates/crust/src/kubernetes.rs:38-47 | one loop turn keeps the emitted prefix a prefix of the plan |
| ShardPlanner.CountNext | bot/crates/crust/src/kubernetes.rs:47-48 | the loop's intermediate `current + s` and `group_index + 1` do not overflow |
| ShardPlanner.PlanAdvance | bot/crates/crust/src/kubernetes.rs:37-49 | the loop invariant is kept by one turn |
| ShardPlanner.PlanDone | bot/crates/crust/src/kubernetes.rs:37-51 | when the loop exits, the emitted groups are the whole plan |
| ShardPlanner.CalculateShardGroups | bot/crates/crust/src/kubernetes.rs:32-52 | the loop returns exactly the plan `ShardGroups(total, s)`, whose partition properties the lemmas above prove |
| Deployments.LookupEnv | bot/crates/crust/src/kubernetes.rs:121-209 | finds a variable iff some entry has that name |
| Deployments.LookupFirst | bot/crates/crust/src/kubernetes.rs:121-209 | lookup returns the first entry with the name |
| Deployments.WorkerEnvLookups | bot/crates/crust/src/kubernetes.rs:121-209 | the worker environment sets NATS_URL, SHARD_ID_START, SHARD_ID_END, TOTAL_SHARDS, WORKER_ID, MAX_CONCURRENCY and DISCORD_TOKEN (from the secret's `token` key) to the cluster's and group's values |
| Deployments.WorkerEnvNamesDistinct | bot/crates/crust/src/kubernetes.rs:127-170 | the worker environment sets each of its seven variables exactly once |
| Deployments.CreateDeploymentSpec | bot/crates/crust/src/kubernetes.rs:114-212 | always succeeds; the name and replicas are the group's and the namespace is the one passed in; selector, template labels and labels agree, carry the cluster's managed-by/app/cluster labels and the group's shard-group label; one container named stratum with the cluster's image, pull policy Never, port 8080 named metrics and the worker environment |
| Deployments.MergePatch | bot/crates/crust/src/kubernetes.rs:86-92 | a merge patch keeps the desired name, replicas and containers, and a deployment the operator marked as managed stays managed |
| Deployments.ApplyGroupEffect | bot/crates/crust/src/kubernetes.rs:82-101 | one upsert adds or replaces only the group's name, with a managed deployment |
| Deployments.ApplyGroupsEffect | bot/crates/crust/src/kubernetes.rs:81-102 | applying the groups adds exactly their names as managed deployments and leaves every other name alone |
| Deployments.ManagedNamesAfterPass | bot/crates/crust/src/kubernetes.rs:54-112 | after a successful pass the cluster's managed deployments are exactly the group names, and deployments of other owners are untouched |
| Deployments.DeploymentApi.List | bot/crates/crust/src/kubernetes.rs:64-74 | the label-selected list returns the managed names of the cluster unless the call fails |
| Deployments.DeploymentApi.Get | bot/crates/crust/src/kubernetes.rs:84 | get succeeds iff the name exists and the call does not fail |
| Deployments.DeploymentApi.Patch | bot/crates/crust/src/kubernetes.rs:86-92 | patch succeeds iff the name exists and the call does not fail, and then merge-patches that entry only |
| Deployments.DeploymentApi.Create | bot/crates/crust/src/kubernetes.rs:96-98 | create succeeds iff the name is new and the call does not fail, and then adds that entry only |
| Deployments.DeploymentApi.Delete | bot/crates/crust/src/kubernetes.rs:105-107 | delete succeeds iff the name exists and the call does not fail, and then removes that entry only |
| Deployments.UpsertDeployment | bot/crates/crust/src/kubernetes.rs:84-101 | on success the store is the upsert of the deployment, on failure it is unchanged |
| Deployments.DeleteStale | bot/crates/crust/src/kubernetes.rs:104-109 | deletes a subset of the stale names and nothing else, all of them on success |
| Deployments.UpsertGroups | bot/crates/crust/src/kubernetes.rs:81-102 | the store is the first `handled` groups applied in order; it succeeds iff all groups were handled |
| Deployments.CreateOrUpdateDeployments | bot/crates/crust/src/kubernetes.rs:54-112 | the new store is the applied prefix minus the deleted names; deletions start only after every group was applied; on success every group is applied and exactly the stale names are gone |
| Controller.NumMinutes | bot/crates/crust/src/controller.rs:25-26 | whole minutes truncated toward zero: the remainder has the sign of the duration and is under a minute |
| Controller.RecentlyResharded | bot/crates/crust/src/controller.rs:23-34 | the reconcile is skipped iff a status records a reshard less than 600 seconds before now |
| Controller.UnderTenMinutes | bot/crates/crust/src/controller.rs:25-26 | fewer than ten whole minutes (truncated toward zero) have passed iff fewer than 600 seconds have |
| Controller.Publish | bot/crates/crust/src/controller.rs:54-109 | the calls after the gateway step extend those before it and never read the token or fetch gateway info again, and success requeues in 1800 s |
| Controller.Reconcile | bot/crates/crust/src/controller.rs:17-110 | inside the skip window it requeues in 600 s with no call; otherwise the first call reads the token secret; success requeues in 1800 s |
| Controller.FirstErrorEndsPass | bot/crates/crust/src/controller.rs:37-107 | every call but the last succeeded; an error result is the last call's error; a success means the last call succeeded |
| Controller.DeploymentsWrittenIffCountChanged | bot/crates/crust/src/controller.rs:59-81 | deployments are written iff the pass gets past the gateway and the planned group count differs from the recorded one, and then with the plan for the recommended shard count |
| Controller.StatusPatchFollowsSignal | bot/crates/crust/src/controller.rs:83-107 | a status patch is the last call, right after the reshard signal and the startup broadcast, and records the count, the plan, `now` and phase Active |
| Controller.ErrorMeansNoStatus | bot/crates/crust/src/controller.rs:37-107 | a failed pass patched no status unless the patch itself failed |
| Controller.SuccessOpensSkipWindow | bot/crates/crust/src/controller.rs:23-34 | after a successful pass, any reconcile less than ten minutes later skips |
| Controller.ErrorPolicy | bot/crates/crust/src/controller.rs:112-121 | requeues in 300 s iff the message contains "429" or "rate limit", else in 120 s |
| SplitController.Reconcile | bot/crust/crust-controller/src/lib.rs:12-97 | same skip window; otherwise the first call fetches gateway info and the rest is the shared publish step; no token secret is read |
| SplitController.AgreesWithController | bot/crust/crust-controller/src/lib.rs:12-97 | both crates' reconciles return the same result and make the same calls, except that the crates/crust one reads the token secret first |
| SplitController.ErrorPolicy | bot/crust/crust-controller/src/lib.rs:99-108 | the same rate-limit iff as the crates/crust error policy |
| Scheduler.ShouldReshard | bot/crates/crust/src/scheduler.rs:55-66 | due with no status or no recorded reshard; otherwise, for a past timestamp, due iff the elapsed seconds reach the interval in hours times 3600 |
| Scheduler.FutureReshardNotDue | bot/crates/crust/src/scheduler.rs:59-61 | a reshard stamped in the future counts as zero elapsed (ElapsedStd, the `to_std` fallback): due iff the interval is zero |
| Scheduler.DueIsMonotone | bot/crates/crust/src/scheduler.rs:55-66 | once due, a cluster stays due as time passes |
| Scheduler.DueIsNotSkipped | bot/crates/crust/src/scheduler.rs:55-66 | with an interval of at least one hour, a due cluster is outside the reconciler's skip window |
| Scheduler.DueNames | bot/crates/crust/src/scheduler.rs:23-24 | a name is listed iff some listed cluster with that name is due |
| Scheduler.Stamp | bot/crates/crust/src/scheduler.rs:27-44 | the annotations gain `now` exactly for the attempted names whose patch succeeds; all others keep their value |
| Scheduler.ClusterApi.List | bot/crates/crust/src/scheduler.rs:21 | the list returns every cluster unless it fails |
| Scheduler.ClusterApi.PatchTrigger | bot/crates/crust/src/scheduler.rs:35-41 | the patch sets the trigger annotation of that cluster only, unless it fails |
| Scheduler.ReshardPass | bot/crates/crust/src/scheduler.rs:19-51 | a pass attempts exactly the due clusters in list order (none if the list fails) and stamps those whose patch succeeds; a failed patch does not stop it |
| WorkerConfig.FromEnv | bot/crates/stratum/src/config.rs:62-99 | a loaded configuration has NATS_URL or its default, WORKER_ID or "unknown", and DISCORD_TOKEN, which must be set; SHARD_ID_START, SHARD_ID_END and TOTAL_SHARDS are set and each field is its variable parsed as a `u32`; the concurrency is MAX_CONCURRENCY (or "1") parsed |
| WorkerConfig.WorkerIdFromEnv | bot/crates/stratum/src/config.rs:106-108 | the worker id `Config::worker_id` (WorkerConfig.WorkerId) reports is WORKER_ID verbatim, or "unknown" |
| WorkerConfig.FirstFailureWins | bot/stratum/stratum-config/src/lib.rs:16-53 | loading succeeds iff no variable fails; otherwise the outcome is the failure of the first failing variable in reading order |
| WorkerConfig.Defaults | bot/crates/stratum/src/config.rs:63-78 | absent optional variables give `nats://localhost:4222`, "unknown" and a concurrency of 1 |
| WorkerConfig.LoadsRenderedNumbers | bot/stratum/stratum-config/src/lib.rs:16-53 | rendered numbers load back exactly, with no check relating start, end and total |
| DiscordRange.Interval | bot/crates/stratum/src/discord.rs:55 | a half-open range holds exactly the IDs from its start up to its end, and has that many of them |
| DiscordRange.NewShardManagerConfig | bot/crates/stratum/src/discord.rs:50-61 | always succeeds; the shard IDs are exactly the inclusive range start..end; the gateway token is the configured one |
| DiscordRange.RangeSize | bot/stratum/stratum-discord/src/lib.rs:12-23 | the worker runs end - start + 1 shards, and none when the start lies past the end |
| DiscordRange.RangeIgnoresTotal | bot/stratum/stratum-discord/src/lib.rs:17 | the shard IDs do not depend on the total shard count |
| ShardManagement.StartupDelaySecs | bot/crates/stratum/src/shard_manager.rs:87-94 | for an id with the `stratum-group-` prefix the delay is ten seconds times the suffix parsed as a `u32`, or none when the suffix does not parse; none without the prefix |
| ShardManagement.LenientGroupNumberDelay | bot/crates/stratum/src/shard_manager.rs:87-94 | the suffix is read as `u32` parsing reads it: "stratum-group-007" waits 70 seconds and "stratum-group-+3" waits 30 |
| ShardManagement.GroupStartupDelay | bot/crates/stratum/src/shard_manager.rs:87-94 | the worker of group `i` waits `10 * i` seconds |
| ShardManagement.OtherWorkerNoDelay | bot/crates/stratum/src/shard_manager.rs:87-94 | an id without the group prefix, or with a suffix that is not a `u32`, waits nothing |
| ShardManagement.NewTasks | bot/crates/stratum/src/shard_manager.rs:126-129 | the tasks spawned for a range are for IDs in the range that are not running, each capturing the current total and worker id, in ascending order |
| ShardManagement.NewTasksComplete | bot/crates/stratum/src/shard_manager.rs:126-129 | every ID of the range that is not running gets its task |
| ShardManagement.ShardManager.constructor | bot/crates/stratum/src/shard_manager.rs:50-67 | a new manager runs no shard |
| ShardManagement.ShardManager.StartShard | bot/crates/stratum/src/shard_manager.rs:150-194 | a running ID is left alone; otherwise a task capturing the current total and worker id is added and spawned |
| ShardManagement.ShardManager.StopShard | bot/crates/stratum/src/shard_manager.rs:204-209 | the ID's task, if any, is aborted and removed; nothing else changes |
| ShardManagement.ShardManager.StartShards | bot/crates/stratum/src/shard_manager.rs:107-133 | the running IDs become the old ones plus the whole range; running tasks are kept; each added ID's task captures the current total and worker id; the range's missing IDs are spawned in ascending order |
| ShardManagement.ShardManager.StartRange | bot/crates/stratum/src/shard_manager.rs:126-129 | the loop adds exactly the IDs of the range, keeps the running tasks, files each new ID's task with the current total and worker id, and spawns the missing IDs in ascending order |
| ShardManagement.ShardManager.UpdateShards | bot/crates/stratum/src/shard_manager.rs:227-254 | the total is updated; the running IDs become exactly the range; kept tasks are unchanged; new tasks capture the new total; each running ID outside the range is aborted once; each missing ID is spawned once |
| ShardManagement.ShardManager.StopShards | bot/crates/stratum/src/shard_manager.rs:240-242 | the given IDs are removed and each is aborted exactly once |
| ShardManagement.ShardManager.StartMissing | bot/crates/stratum/src/shard_manager.rs:244-246 | the given IDs are added with tasks for the current total and each is spawned exactly once |
| ShardManagement.ShardManager.Shutdown | bot/crates/stratum/src/shard_manager.rs:260-266 | every running task is aborted exactly once and the map is emptied |
| Json.Get | bot/crates/stratum/src/coordination.rs:65 | a member is found iff the value is an object holding the key, and it is that member's value |
| Json.AsStr | bot/crates/stratum/src/coordination.rs:65 | only strings convert to text, giving the string itself |
| Json.AsU64 | bot/crates/stratum/src/coordination.rs:67 | only non-negative integers convert to `u64`, giving their value |
| Json.FromI32 | bot/crates/crust/src/types.rs:29-35 | an `i32` is serialised as a non-negative integer of the same value, or a negative integer when it is negative |
| OperatorSignals.ReshardSignal | bot/crates/crust/src/nats.rs:34-38 | the reshard payload is an object with exactly event, new_shard_count and timestamp |
| OperatorSignals.StartupCoordination | bot/crates/crust/src/nats.rs:70-77 | the startup payload has exactly the keys event ("startup_coordination"), cluster, max_concurrency, total_shards, shard_groups and timestamp, with the given values, and one entry per shard group in order |
| OperatorSignals.GroupJson | bot/crates/crust/src/types.rs:29-35 | a group serialises to exactly deployment_name, shard_start, shard_end and replicas, carrying the group's name and range |
| Coordination.ReshardCount | bot/crates/stratum/src/coordination.rs:62-79 | a message yields a count iff it is an object whose event is "reshard" and whose new_shard_count is a non-negative integer, and the count is that value mod 2^32 |
| Coordination.ReshardCounts | bot/crates/stratum/src/coordination.rs:62-79 | at most one update per message; every message's count appears among the updates, and every update is some message's count |
| Coordination.ReshardSignalRoundTrip | bot/crates/crust/src/nats.rs:34-38 | the operator's reshard signal for `n` passes the worker's filter with count `n` |
| Coordination.ExtraMembersIgnored | bot/crates/stratum/src/coordination.rs:65-67 | members other than event and new_shard_count do not affect the filter |
| Coordination.ListenForReshardSignals | bot/crates/stratum/src/coordination.rs:54-86 | a failed subscription ends it at once; otherwise every count that passes the filter reaches update_shards in order, the range never changes, and after the last update the running IDs are exactly the range under the last count |
| Coordination.CountStartupEvents | bot/crates/stratum/src/coordination.rs:111-134 | at most one per message, and none exactly when no message is a startup event |
| Coordination.StartupEventIsNotReshard | bot/crates/stratum/src/coordination.rs:118-126 | a message whose event is "startup_coordination" (IsStartupEvent) never yields a reshard count |
| Coordination.ListenForStartupCoordination | bot/crates/stratum/src/coordination.rs:111-134 | a failed subscription ends it at once; otherwise it processes (logs, with the id from `ShardManager::worker_id`, ShardManagement.ShardManager.WorkerId) exactly the startup broadcasts and changes nothing |
| Coordination.StartupBroadcastDoesNotReshard | bot/crates/crust/src/nats.rs:70-77 | the operator's startup broadcast is a startup event and never reshards a worker |
| Coordination.StartupRequest | bot/crates/stratum/src/coordination.rs:163-184 | the request goes to `discord.startup.request` with action request_startup, the worker id and the shard ID |
| Coordination.StartupComplete | bot/crates/stratum/src/coordination.rs:214-235 | the notice goes to `discord.startup.complete` with action startup_complete, the worker id and the shard ID |
| Coordination.ShardMessagesAreDistinct | bot/crates/stratum/src/coordination.rs:163-235 | the two shard messages use different subjects and are neither a reshard signal nor a startup broadcast |
| Fleet.PodEnvResolves | bot/crates/crust/src/kubernetes.rs:121-209 | a container starts iff every variable resolves, and then each variable holds what its last entry resolves to |
| Fleet.PodEnvAgreesWithLookup | bot/crates/crust/src/kubernetes.rs:121-209 | when no variable is set twice and all resolve, the container's value of a variable is what the first-match lookup finds |
| Fleet.WorkerEnvResolves | bot/crates/crust/src/kubernetes.rs:121-209 | a worker's deployment starts, given its token secret, with the group's range, the total, its name as WORKER_ID, the concurrency and the secret's token |
| Fleet.WorkerLoadsItsGroup | bot/crates/stratum/src/config.rs:62-99 | given its token secret, the container of planned group `k` starts (WorkerConfigOf is not `None`) and its worker loads that group's range, the total, its deployment name as worker id, the concurrency and the token |
| Fleet.WorkerRunsItsGroup | bot/crates/stratum/src/discord.rs:50-61 | the worker of group `k` runs exactly the IDs of group `k` |
| Fleet.WorkersPartitionShards | bot/crates/crust/src/kubernetes.rs:32-52 | each worker runs exactly its group's IDs, and every ID below the total is run by exactly one worker |
| Fleet.StartupStaggeredByGroup | bot/crates/stratum/src/shard_manager.rs:87-94 | the worker of group `k` waits `10 * k` seconds |

## Left out

- Network and process I/O are not modelled. The Kubernetes API, NATS connections, Discord's HTTP API, exponential back-off retries, logging and the `main` binaries are left out. The answers the controller depends on (token secret, gateway info, each call's success) are parameters.
- `get_discord_token` (bot/crates/crust/src/kubernetes.rs:13-30) is a reply in `Controller.Replies`. Its secret lookup and UTF-8 decoding are not modelled.
- The Kubernetes API server is an abstract map of deployments. Label selection, server-side defaulting and the exact JSON merge-patch algorithm are approximated by `Deployments.MergePatch`. Its containers and replicas come from the desired object, and its label maps merge with the desired keys winning.
- Deployments.MergePatch: only states what the pass relies on (name, replicas, containers, managed labels kept), not every field of a real merge patch.
- The split workspace's `crust-kubernetes` and `crust-nats` crates are not part of this model. `SplitController.Reconcile` uses the same effects and the same publish step (`Controller.Publish`) as the crates/crust one.
- The shard tasks' inner loops (Discord connection, event handling, restart-on-error) are left out, as are the startup semaphore, the `sleep`s, `ShardId::new` and `coordination()`. A task is the record of what it captured when spawned.
- Concurrency between the listener tasks and the runner is left out, as are the read/write locks around the shard manager. Each listener holds the manager for a whole message. In the program as wired in bot/crates/stratum/src/main.rs:131 and :140, each listener task holds a read guard for its whole life, so the `write()` in the reshard path (bot/crates/stratum/src/coordination.rs:75) may never be granted. The model does not capture this: in it every reshard signal reaches `UpdateShards`. Likewise the scheduler's patch goes through `Api::all` for a namespaced kind, which the model treats as an ordinary per-cluster patch that may fail.
- Clock and wall time: one `now` per call, in whole seconds. Sub-second precision and RFC 3339 rendering are not modelled; timestamps in payloads are parameters.
- The JSON parser is not modelled. Payloads arrive parsed, with `None` for bytes that are not JSON.
- Publishing the two shard-task messages can fail in the source. The model gives only the message each call publishes.
- WorkerConfig.FromEnv: a parse error records the variable's name rather than Rust's `ParseIntError` text. `std::env::var` failing on a value that is not Unicode is not modelled.
- Arithmetic overflow that panics in a debug build is a precondition: `PlanFits` for the planner, `IntervalFits` for the scheduler, and `shard_id_end < u32::MAX` for the shard range.
- Functions that return `Result` but never fail (`create_deployment_spec`, `new_shard_manager_config`) are modelled as always succeeding. Their error paths do not exist in the source.
