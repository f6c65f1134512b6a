/**
 * The operator's reconcile decision for one ShardCluster, as a function of
 * the resource, the current time and the answers of the services it calls
 * (secret store, Discord gateway info, deployment writer, NATS, status
 * patch). The result is the requeue action or error, together with the
 * calls issued, in order.
 */
module Controller {
  import opened Wrappers
  import opened Decimal
  import opened Text
  import opened CrustTypes
  import opened ShardPlanner

  /** What the controller runtime is told to do next. */
  datatype Action = Requeue(seconds: nat)

  datatype GatewayInfo = GatewayInfo(recommendedShards: U32, maxConcurrency: U32)

  /** The answer each external call gets, should it be issued. */
  datatype Replies = Replies(
    token: Result<string, string>,
    gateway: Result<GatewayInfo, string>,
    deployments: Outcome<string>,
    reshardSignal: Outcome<string>,
    startupCoordination: Outcome<string>,
    statusPatch: Outcome<string>)

  /** The calls reconcile issues. */
  datatype Effect =
    | ReadToken(namespace: string, secretName: string)
    | FetchGatewayInfo
    | WriteDeployments(namespace: string, groups: seq<ShardGroup>, totalShards: U32, maxConcurrency: U32)
    | SendReshardSignal(newShardCount: U32)
    | PublishStartupCoordination(clusterName: string, maxConcurrency: U32, totalShards: U32, groups: seq<ShardGroup>)
    | PatchStatus(clusterName: string, namespace: string, status: ShardClusterStatus)

  datatype Reconciliation = Reconciliation(result: Result<Action, string>, effects: seq<Effect>)

  const SKIP_REQUEUE_SECS := 600
  const SUCCESS_REQUEUE_SECS := 1800
  const RATE_LIMIT_REQUEUE_SECS := 300
  const ERROR_REQUEUE_SECS := 120

  /** chrono's `num_minutes`: whole minutes of a duration, truncated toward zero. */
  function NumMinutes(seconds: int): (m: int)
    ensures 0 <= seconds ==> 0 <= m && 0 <= seconds - 60 * m < 60
    ensures seconds < 0 ==> m <= 0 && -60 < seconds - 60 * m <= 0
  {
    if seconds >= 0 then seconds / 60 else -((-seconds) / 60)
  }

  /**
   * Fewer than ten whole minutes have passed exactly when fewer than 600
   * seconds have, a timestamp in the future included.
   */
  lemma UnderTenMinutes(seconds: int)
    ensures NumMinutes(seconds) < 10 <==> seconds < 600
  {
    if seconds < 0 {
      assert (-seconds) / 60 >= 0;
    }
  }

  /** The skip test: the status records a reshard less than ten whole minutes before `now`. */
  predicate RecentlyResharded(cluster: ShardCluster, now: int)
    ensures RecentlyResharded(cluster, now) <==>
      && cluster.status.Some?
      && cluster.status.value.lastReshard.Some?
      && now - cluster.status.value.lastReshard.value < 600
  {
    if cluster.status.Some? && cluster.status.value.lastReshard.Some? then
      UnderTenMinutes(now - cluster.status.value.lastReshard.value);
      NumMinutes(now - cluster.status.value.lastReshard.value) < 10
    else
      false
  }

  function Namespace(cluster: ShardCluster): string {
    if cluster.namespace.Some? then cluster.namespace.value else "default"
  }

  /** The group count the status records, 0 without a status. */
  function RecordedGroupCount(cluster: ShardCluster): nat {
    if cluster.status.Some? then |cluster.status.value.shardGroups| else 0
  }

  function NewStatus(recommendedShards: U32, now: int, groups: seq<ShardGroup>): ShardClusterStatus {
    ShardClusterStatus(Some(recommendedShards), Some(now), groups, "Active")
  }

  /** The plan for the gateway's shard count can be computed without overflow, should it be fetched. */
  predicate GatewayFits(cluster: ShardCluster, replies: Replies) {
    replies.gateway.Success? ==> PlanFits(replies.gateway.value.recommendedShards, cluster.spec.shardsPerReplica)
  }

  /**
   * Everything after the gateway info is known: write deployments when the
   * group count changed, signal the workers, publish the startup message,
   * patch the status. Each step's failure ends the pass with its error.
   */
  function Publish(cluster: ShardCluster, now: int, replies: Replies, info: GatewayInfo, done: seq<Effect>): (r: Reconciliation)
    requires PlanFits(info.recommendedShards, cluster.spec.shardsPerReplica)
    ensures |r.effects| > |done| && r.effects[..|done|] == done
    ensures forall i | |done| <= i < |r.effects| :: !r.effects[i].ReadToken? && !r.effects[i].FetchGatewayInfo?
    ensures r.result.Success? ==> r.result.value == Requeue(SUCCESS_REQUEUE_SECS)
  {
    var ns := Namespace(cluster);
    var n := info.recommendedShards;
    var groups := ShardGroups(n, cluster.spec.shardsPerReplica);
    var write := if RecordedGroupCount(cluster) != |groups|
                 then [WriteDeployments(ns, groups, n, info.maxConcurrency)] else [];
    if write != [] && replies.deployments.Fail? then
      Reconciliation(Failure(replies.deployments.error), done + write)
    else
      var signalled := done + write + [SendReshardSignal(n)];
      if replies.reshardSignal.Fail? then
        Reconciliation(Failure(replies.reshardSignal.error), signalled)
      else
        var published := signalled + [PublishStartupCoordination(cluster.name, info.maxConcurrency, n, groups)];
        if replies.startupCoordination.Fail? then
          Reconciliation(Failure(replies.startupCoordination.error), published)
        else
          var patched := published + [PatchStatus(cluster.name, ns, NewStatus(n, now, groups))];
          if replies.statusPatch.Fail? then
            Reconciliation(Failure(replies.statusPatch.error), patched)
          else
            Reconciliation(Success(Requeue(SUCCESS_REQUEUE_SECS)), patched)
  }

  /**
   * `reconcile` (crates/crust): skip inside the ten-minute window; otherwise
   * read the token, fetch gateway info, then publish.
   */
  function Reconcile(cluster: ShardCluster, now: int, replies: Replies): (r: Reconciliation)
    requires GatewayFits(cluster, replies)
    ensures RecentlyResharded(cluster, now) ==> r == Reconciliation(Success(Requeue(SKIP_REQUEUE_SECS)), [])
    ensures !RecentlyResharded(cluster, now) ==>
      |r.effects| >= 1 && r.effects[0] == ReadToken(Namespace(cluster), cluster.spec.discordTokenSecret)
    ensures r.result.Success? && !RecentlyResharded(cluster, now) ==> r.result.value == Requeue(SUCCESS_REQUEUE_SECS)
  {
    if RecentlyResharded(cluster, now) then
      Reconciliation(Success(Requeue(SKIP_REQUEUE_SECS)), [])
    else
      var read := [ReadToken(Namespace(cluster), cluster.spec.discordTokenSecret)];
      if replies.token.Failure? then
        Reconciliation(Failure(replies.token.error), read)
      else if replies.gateway.Failure? then
        Reconciliation(Failure(replies.gateway.error), read + [FetchGatewayInfo])
      else
        Publish(cluster, now, replies, replies.gateway.value, read + [FetchGatewayInfo])
  }

  /** The reply an issued call gets: its error, or None when it succeeded. */
  function ErrorOf(replies: Replies, e: Effect): Option<string> {
    match e
    case ReadToken(_, _) => if replies.token.Failure? then Some(replies.token.error) else None
    case FetchGatewayInfo => if replies.gateway.Failure? then Some(replies.gateway.error) else None
    case WriteDeployments(_, _, _, _) => if replies.deployments.Fail? then Some(replies.deployments.error) else None
    case SendReshardSignal(_) => if replies.reshardSignal.Fail? then Some(replies.reshardSignal.error) else None
    case PublishStartupCoordination(_, _, _, _) =>
      if replies.startupCoordination.Fail? then Some(replies.startupCoordination.error) else None
    case PatchStatus(_, _, _) => if replies.statusPatch.Fail? then Some(replies.statusPatch.error) else None
  }

  /**
   * The first failing call ends the pass: every call but the last succeeded;
   * on an error the last call failed with exactly that error, on success it
   * succeeded too.
   */
  lemma FirstErrorEndsPass(cluster: ShardCluster, now: int, replies: Replies)
    requires GatewayFits(cluster, replies)
    ensures var r := Reconcile(cluster, now, replies);
      && (forall i :: 0 <= i < |r.effects| - 1 ==> ErrorOf(replies, r.effects[i]).None?)
      && (r.result.Failure? ==> |r.effects| >= 1 && ErrorOf(replies, r.effects[|r.effects| - 1]) == Some(r.result.error))
      && (r.result.Success? && |r.effects| >= 1 ==> ErrorOf(replies, r.effects[|r.effects| - 1]).None?)
  {
  }

  /**
   * Deployments are written exactly when the pass gets past the gateway
   * call and the planned group count differs from the recorded one, and then
   * with the plan for the recommended shard count.
   */
  lemma DeploymentsWrittenIffCountChanged(cluster: ShardCluster, now: int, replies: Replies)
    requires GatewayFits(cluster, replies)
    ensures var r := Reconcile(cluster, now, replies);
      var proceeds := !RecentlyResharded(cluster, now) && replies.token.Success? && replies.gateway.Success?;
      && (forall e | e in r.effects && e.WriteDeployments? ::
            proceeds && e.groups == ShardGroups(replies.gateway.value.recommendedShards, cluster.spec.shardsPerReplica)
            && RecordedGroupCount(cluster) != |e.groups|
            && e.totalShards == replies.gateway.value.recommendedShards
            && e.maxConcurrency == replies.gateway.value.maxConcurrency)
      && (proceeds &&
          RecordedGroupCount(cluster) != |ShardGroups(replies.gateway.value.recommendedShards, cluster.spec.shardsPerReplica)|
          ==> exists e :: e in r.effects && e.WriteDeployments?)
  {
    var r := Reconcile(cluster, now, replies);
    if !RecentlyResharded(cluster, now) && replies.token.Success? && replies.gateway.Success? {
      var info := replies.gateway.value;
      var groups := ShardGroups(info.recommendedShards, cluster.spec.shardsPerReplica);
      if RecordedGroupCount(cluster) != |groups| {
        assert r.effects[2] == WriteDeployments(Namespace(cluster), groups, info.recommendedShards, info.maxConcurrency);
      }
    }
  }

  /**
   * A status patch is issued only as the last call, right after the reshard
   * signal with the recommended count and the startup message, and it writes
   * the new shard count, the plan, phase "Active" and `now`.
   */
  lemma StatusPatchFollowsSignal(cluster: ShardCluster, now: int, replies: Replies)
    requires GatewayFits(cluster, replies)
    ensures var r := Reconcile(cluster, now, replies);
      forall j | 0 <= j < |r.effects| && r.effects[j].PatchStatus? ::
        && j == |r.effects| - 1 && j >= 4
        && replies.gateway.Success?
        && var n := replies.gateway.value.recommendedShards;
           var groups := ShardGroups(n, cluster.spec.shardsPerReplica);
           && r.effects[j - 2] == SendReshardSignal(n)
           && r.effects[j - 1] == PublishStartupCoordination(cluster.name, replies.gateway.value.maxConcurrency, n, groups)
           && r.effects[j] == PatchStatus(cluster.name, Namespace(cluster), NewStatus(n, now, groups))
  {
  }

  /** A pass that returns an error patched no status, unless the patch itself was what failed. */
  lemma ErrorMeansNoStatus(cluster: ShardCluster, now: int, replies: Replies)
    requires GatewayFits(cluster, replies)
    ensures var r := Reconcile(cluster, now, replies);
      r.result.Failure? && replies.statusPatch.Pass? ==> forall e | e in r.effects :: !e.PatchStatus?
  {
  }

  /** The resource once a merge patch of `status` is applied: all four status fields are replaced. */
  function WithStatus(cluster: ShardCluster, status: ShardClusterStatus): ShardCluster {
    cluster.(status := Some(status))
  }

  /**
   * After a successful pass has written its status, any reconcile less than
   * ten minutes later (or with an earlier clock) skips.
   */
  lemma SuccessOpensSkipWindow(cluster: ShardCluster, now: int, replies: Replies, later: int)
    requires GatewayFits(cluster, replies)
    requires Reconcile(cluster, now, replies).result.Success? && !RecentlyResharded(cluster, now)
    requires later < now + 600
    ensures var r := Reconcile(cluster, now, replies);
      && r.effects[|r.effects| - 1].PatchStatus?
      && RecentlyResharded(WithStatus(cluster, r.effects[|r.effects| - 1].status), later)
  {
    UnderTenMinutes(later - now);
  }

  /** `error_policy`: back off five minutes on a rate-limit error, two minutes otherwise. */
  function ErrorPolicy(message: string): (a: Action)
    ensures a == Requeue(RATE_LIMIT_REQUEUE_SECS) <==> Contains(message, "429") || Contains(message, "rate limit")
    ensures a == Requeue(RATE_LIMIT_REQUEUE_SECS) || a == Requeue(ERROR_REQUEUE_SECS)
  {
    if Contains(message, "429") || Contains(message, "rate limit") then Requeue(RATE_LIMIT_REQUEUE_SECS)
    else Requeue(ERROR_REQUEUE_SECS)
  }
}
