/** The operator's custom resource: spec, status and shard groups. */
module CrustTypes {
  import opened Wrappers
  import opened Decimal

  /** One contiguous, inclusive range of shard IDs served by one deployment. */
  datatype ShardGroup = ShardGroup(
    deploymentName: string,
    shardStart: U32,
    shardEnd: U32,
    replicas: I32)

  /** Desired state of a ShardCluster. */
  datatype ShardClusterSpec = ShardClusterSpec(
    discordTokenSecret: string,
    natsUrl: string,
    image: string,
    replicasPerShardGroup: I32,
    shardsPerReplica: U32,
    reshardIntervalHours: U64)

  /** Observed state written back by the reconciler; times are seconds since the epoch. */
  datatype ShardClusterStatus = ShardClusterStatus(
    currentShards: Option<U32>,
    lastReshard: Option<int>,
    shardGroups: seq<ShardGroup>,
    phase: string)

  /** The resource itself: its metadata name and namespace, spec and optional status. */
  datatype ShardCluster = ShardCluster(
    name: string,
    namespace: Option<string>,
    spec: ShardClusterSpec,
    status: Option<ShardClusterStatus>)

  /** Whether shard `id` lies in the group's inclusive range. */
  predicate InGroup(g: ShardGroup, id: int) {
    g.shardStart <= id <= g.shardEnd
  }
}
