/**
 * The operator and the workers together: a worker started from a planned
 * group's deployment loads exactly that group's range, the workers' ID sets
 * partition `0..total`, and group `k` staggers its startup by `10 * k`
 * seconds.
 */
module Fleet {
  import opened Wrappers
  import opened Decimal
  import opened CrustTypes
  import opened ShardPlanner
  import opened Deployments
  import opened WorkerConfig
  import opened DiscordRange
  import opened ShardManagement

  /** What one variable's source resolves to; `None` when the secret or key is missing. */
  function Resolve(source: EnvSource, secrets: map<string, map<string, string>>): Option<string> {
    match source
    case Literal(value) => Some(value)
    case SecretKeyRef(secretName, key) =>
      if secretName in secrets && key in secrets[secretName] then Some(secrets[secretName][key]) else None
  }

  /**
   * The environment a container starts with, as Kubernetes resolves it:
   * later entries override earlier ones, a secret key reference reads the
   * secret. A missing secret or key keeps the container from starting.
   */
  function PodEnv(env: seq<EnvVar>, secrets: map<string, map<string, string>>): Option<map<string, string>>
    decreases |env|
  {
    if env == [] then Some(map[])
    else
      var init := PodEnv(env[..|env| - 1], secrets);
      var last := env[|env| - 1];
      var value := Resolve(last.source, secrets);
      if init.None? || value.None? then None else Some(init.value[last.name := value.value])
  }

  /** Every entry's source resolves. */
  predicate AllResolve(env: seq<EnvVar>, secrets: map<string, map<string, string>>) {
    forall i | 0 <= i < |env| :: Resolve(env[i].source, secrets).Some?
  }

  /** No entry after `i` sets the same variable. */
  predicate LastSetAt(env: seq<EnvVar>, i: nat)
    requires i < |env|
  {
    forall j | i < j < |env| :: env[j].name != env[i].name
  }

  /**
   * The container starts exactly when every entry resolves, and then each
   * variable holds what its last entry resolves to.
   */
  lemma {:induction false} PodEnvResolves(env: seq<EnvVar>, secrets: map<string, map<string, string>>)
    ensures PodEnv(env, secrets).Some? <==> AllResolve(env, secrets)
    ensures PodEnv(env, secrets).Some? ==>
      forall i | 0 <= i < |env| && LastSetAt(env, i) ::
        env[i].name in PodEnv(env, secrets).value
        && PodEnv(env, secrets).value[env[i].name] == Resolve(env[i].source, secrets).value
    decreases |env|
  {
    if env != [] {
      var init := env[..|env| - 1];
      PodEnvResolves(init, secrets);
      assert forall i | 0 <= i < |init| :: init[i] == env[i];
      if PodEnv(env, secrets).Some? {
        forall i | 0 <= i < |env| && LastSetAt(env, i)
          ensures env[i].name in PodEnv(env, secrets).value
          ensures PodEnv(env, secrets).value[env[i].name] == Resolve(env[i].source, secrets).value
        {
          if i < |init| {
            assert LastSetAt(init, i);
          }
        }
      }
    }
  }

  /**
   * With every variable set once, the container's environment agrees with
   * the operator's first-match lookup of the same entries.
   */
  lemma PodEnvAgreesWithLookup(env: seq<EnvVar>, secrets: map<string, map<string, string>>, name: string)
    requires DistinctNames(env) && AllResolve(env, secrets) && LookupEnv(env, name).Some?
    ensures PodEnv(env, secrets).Some? && Resolve(LookupEnv(env, name).value, secrets).Some?
    ensures name in PodEnv(env, secrets).value
    ensures PodEnv(env, secrets).value[name] == Resolve(LookupEnv(env, name).value, secrets).value
  {
    var i :| 0 <= i < |env| && env[i].name == name;
    LookupFirst(env, i, name);
    assert LastSetAt(env, i);
    PodEnvResolves(env, secrets);
  }

  /** The token secret the cluster names holds a `token` key. */
  predicate TokenAvailable(cluster: ShardCluster, secrets: map<string, map<string, string>>) {
    cluster.spec.discordTokenSecret in secrets && "token" in secrets[cluster.spec.discordTokenSecret]
  }

  /** The environment a worker of `group` starts with. */
  lemma WorkerEnvResolves(cluster: ShardCluster, group: ShardGroup, total: U32, maxConcurrency: U32,
                          secrets: map<string, map<string, string>>)
    requires TokenAvailable(cluster, secrets)
    ensures var env := PodEnv(WorkerEnv(cluster, group, total, maxConcurrency), secrets);
      && env.Some?
      && "NATS_URL" in env.value && env.value["NATS_URL"] == cluster.spec.natsUrl
      && "DISCORD_TOKEN" in env.value && env.value["DISCORD_TOKEN"] == secrets[cluster.spec.discordTokenSecret]["token"]
      && "SHARD_ID_START" in env.value && env.value["SHARD_ID_START"] == NatToString(group.shardStart)
      && "SHARD_ID_END" in env.value && env.value["SHARD_ID_END"] == NatToString(group.shardEnd)
      && "TOTAL_SHARDS" in env.value && env.value["TOTAL_SHARDS"] == NatToString(total)
      && "WORKER_ID" in env.value && env.value["WORKER_ID"] == group.deploymentName
      && "MAX_CONCURRENCY" in env.value && env.value["MAX_CONCURRENCY"] == NatToString(maxConcurrency)
  {
    var env := WorkerEnv(cluster, group, total, maxConcurrency);
    var names := ["NATS_URL", "SHARD_ID_START", "SHARD_ID_END", "TOTAL_SHARDS", "WORKER_ID", "MAX_CONCURRENCY", "DISCORD_TOKEN"];
    assert forall k :: 0 <= k < 7 ==> env[k].name == names[k];
    assert "SHARD_ID_START"[9] != "SHARD_ID_END"[9];
    assert forall k, j :: 0 <= j < k < 7 ==> names[j] != names[k] by {
      assert names[0][0] == 'N' && names[1][0] == 'S' && names[2][0] == 'S' && names[3][0] == 'T';
      assert names[4][0] == 'W' && names[5][0] == 'M' && names[6][0] == 'D';
    }
    assert forall i | 0 <= i < 7 :: LastSetAt(env, i);
    assert AllResolve(env, secrets);
    PodEnvResolves(env, secrets);
    assert forall i | 0 <= i < 7 :: env[i].name in PodEnv(env, secrets).value;
  }

  /**
   * What the worker of planned group `k` loads: `None` when its container
   * cannot start because the token secret is missing, otherwise the outcome
   * of reading its environment.
   */
  function WorkerConfigOf(cluster: ShardCluster, namespace: string, total: U32, maxConcurrency: U32,
                          secrets: map<string, map<string, string>>, k: nat): Option<Loaded>
    requires PlanFits(total, cluster.spec.shardsPerReplica) && k < |ShardGroups(total, cluster.spec.shardsPerReplica)|
  {
    var group := ShardGroups(total, cluster.spec.shardsPerReplica)[k];
    var d := CreateDeploymentSpec(cluster, group, namespace, total, maxConcurrency).value;
    var env := PodEnv(d.containers[0].env, secrets);
    if env.None? then None else Some(FromEnv(env.value))
  }

  /**
   * The worker of group `k` loads that group's range, the plan's total, its
   * own deployment name as worker id, the gateway's concurrency and the
   * secret's token.
   */
  lemma WorkerLoadsItsGroup(cluster: ShardCluster, namespace: string, total: U32, maxConcurrency: U32,
                            secrets: map<string, map<string, string>>, k: nat)
    requires PlanFits(total, cluster.spec.shardsPerReplica) && k < |ShardGroups(total, cluster.spec.shardsPerReplica)|
    requires TokenAvailable(cluster, secrets)
    ensures var loaded := WorkerConfigOf(cluster, namespace, total, maxConcurrency, secrets, k);
      var group := ShardGroups(total, cluster.spec.shardsPerReplica)[k];
      && loaded.Some? && loaded.value.Loaded?
      && loaded.value.config.shardIdStart == group.shardStart && loaded.value.config.shardIdEnd == group.shardEnd
      && loaded.value.config.totalShards == total && loaded.value.config.maxConcurrency == maxConcurrency
      && WorkerId(loaded.value.config) == group.deploymentName
      && loaded.value.config.discordToken == secrets[cluster.spec.discordTokenSecret]["token"]
  {
    var group := ShardGroups(total, cluster.spec.shardsPerReplica)[k];
    WorkerEnvResolves(cluster, group, total, maxConcurrency, secrets);
    var env := PodEnv(WorkerEnv(cluster, group, total, maxConcurrency), secrets).value;
    LoadsRenderedNumbers(env, group.shardStart, group.shardEnd, total, maxConcurrency);
  }

  /** The worker of group `k` runs exactly the IDs of its group. */
  lemma WorkerRunsItsGroup(cluster: ShardCluster, namespace: string, total: U32, maxConcurrency: U32,
                           secrets: map<string, map<string, string>>, k: nat)
    requires PlanFits(total, cluster.spec.shardsPerReplica) && k < |ShardGroups(total, cluster.spec.shardsPerReplica)|
    requires TokenAvailable(cluster, secrets)
    ensures var loaded := WorkerConfigOf(cluster, namespace, total, maxConcurrency, secrets, k);
      && loaded.Some? && loaded.value.Loaded? && loaded.value.config.shardIdEnd < U32_MAX
      && forall id :: id in Ids(NewShardManagerConfig(loaded.value.config).value.shardIds) <==>
                      InGroup(ShardGroups(total, cluster.spec.shardsPerReplica)[k], id)
  {
    var groups := ShardGroups(total, cluster.spec.shardsPerReplica);
    assert groups[k].shardEnd < total by {
      PlanIsPartition(total, cluster.spec.shardsPerReplica);
      assert InGroup(groups[k], groups[k].shardEnd);
      assert Covered(groups, groups[k].shardEnd);
      PlanOwnsEachShardOnce(total, cluster.spec.shardsPerReplica);
    }
    WorkerLoadsItsGroup(cluster, namespace, total, maxConcurrency, secrets, k);
    var loaded := WorkerConfigOf(cluster, namespace, total, maxConcurrency, secrets, k);
    assert loaded.value.config.shardIdStart == groups[k].shardStart && loaded.value.config.shardIdEnd == groups[k].shardEnd;
  }

  /**
   * The shard IDs the workers run partition `0..total`: each worker runs
   * exactly its group's inclusive range, every ID below the total is run by
   * exactly one worker, and no worker runs an ID outside.
   */
  lemma WorkersPartitionShards(cluster: ShardCluster, namespace: string, total: U32, maxConcurrency: U32,
                               secrets: map<string, map<string, string>>)
    requires PlanFits(total, cluster.spec.shardsPerReplica) && TokenAvailable(cluster, secrets)
    ensures var groups := ShardGroups(total, cluster.spec.shardsPerReplica);
      forall k | 0 <= k < |groups| ::
        var loaded := WorkerConfigOf(cluster, namespace, total, maxConcurrency, secrets, k);
        && loaded.Some? && loaded.value.Loaded? && loaded.value.config.shardIdEnd < U32_MAX
        && forall id :: id in Ids(NewShardManagerConfig(loaded.value.config).value.shardIds) <==> InGroup(groups[k], id)
    ensures var groups := ShardGroups(total, cluster.spec.shardsPerReplica);
      && (forall id :: 0 <= id < total <==> Covered(groups, id))
      && (forall j, k, id | 0 <= j < |groups| && 0 <= k < |groups| && InGroup(groups[j], id) && InGroup(groups[k], id) :: j == k)
  {
    var groups := ShardGroups(total, cluster.spec.shardsPerReplica);
    PlanOwnsEachShardOnce(total, cluster.spec.shardsPerReplica);
    forall k | 0 <= k < |groups|
      ensures var loaded := WorkerConfigOf(cluster, namespace, total, maxConcurrency, secrets, k);
        && loaded.Some? && loaded.value.Loaded? && loaded.value.config.shardIdEnd < U32_MAX
        && forall id :: id in Ids(NewShardManagerConfig(loaded.value.config).value.shardIds) <==> InGroup(groups[k], id)
    {
      WorkerRunsItsGroup(cluster, namespace, total, maxConcurrency, secrets, k);
    }
  }

  /** The worker of group `k` waits `10 * k` seconds before starting its shards. */
  lemma StartupStaggeredByGroup(cluster: ShardCluster, namespace: string, total: U32, maxConcurrency: U32,
                                secrets: map<string, map<string, string>>, k: nat)
    requires PlanFits(total, cluster.spec.shardsPerReplica) && k < |ShardGroups(total, cluster.spec.shardsPerReplica)|
    requires TokenAvailable(cluster, secrets)
    ensures var loaded := WorkerConfigOf(cluster, namespace, total, maxConcurrency, secrets, k);
      loaded.Some? && loaded.value.Loaded? && StartupDelaySecs(WorkerId(loaded.value.config)) == 10 * k
  {
    WorkerLoadsItsGroup(cluster, namespace, total, maxConcurrency, secrets, k);
    PlanIsPartition(total, cluster.spec.shardsPerReplica);
    GroupCountIsCeiling(total, cluster.spec.shardsPerReplica);
    GroupStartupDelay(k);
  }
}
