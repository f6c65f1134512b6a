/**
 * The messages the operator publishes on NATS: the reshard signal and the
 * startup-coordination broadcast. Only their payloads are modelled.
 */
module OperatorSignals {
  import opened Wrappers
  import opened Decimal
  import opened CrustTypes
  import opened Json

  const RESHARD_SUBJECT: string := "discord.operator.reshard"
  const STARTUP_SUBJECT: string := "discord.operator.startup"

  /** The payload of `send_reshard_signal`, `timestamp` the RFC 3339 rendering of the send time. */
  function ReshardSignal(newShardCount: U32, timestamp: string): (v: Json)
    ensures v.Obj? && v.members.Keys == {"event", "new_shard_count", "timestamp"}
  {
    Obj(map["event" := Str("reshard"), "new_shard_count" := PosInt(newShardCount), "timestamp" := Str(timestamp)])
  }

  /** A shard group as serde serialises it. */
  function GroupJson(g: ShardGroup): (v: Json)
    ensures v.Obj? && v.members.Keys == {"deployment_name", "shard_start", "shard_end", "replicas"}
    ensures AsStr(v.members["deployment_name"]) == Some(g.deploymentName)
    ensures AsU64(v.members["shard_start"]) == Some(g.shardStart as U64)
    ensures AsU64(v.members["shard_end"]) == Some(g.shardEnd as U64)
  {
    Obj(map["deployment_name" := Str(g.deploymentName), "shard_start" := PosInt(g.shardStart),
            "shard_end" := PosInt(g.shardEnd), "replicas" := FromI32(g.replicas)])
  }

  /** The payload of `publish_startup_coordination`. */
  function StartupCoordination(clusterName: string, maxConcurrency: U32, totalShards: U32,
                               groups: seq<ShardGroup>, timestamp: string): (v: Json)
    ensures v.Obj? && "event" in v.members && v.members["event"] == Str("startup_coordination")
    ensures "shard_groups" in v.members && v.members["shard_groups"].Arr?
    ensures |v.members["shard_groups"].items| == |groups|
    ensures forall i | 0 <= i < |groups| :: v.members["shard_groups"].items[i] == GroupJson(groups[i])
    ensures v.members.Keys == {"event", "cluster", "max_concurrency", "total_shards", "shard_groups", "timestamp"}
    ensures AsStr(v.members["cluster"]) == Some(clusterName)
    ensures AsU64(v.members["max_concurrency"]) == Some(maxConcurrency as U64)
    ensures AsU64(v.members["total_shards"]) == Some(totalShards as U64)
  {
    Obj(map["event" := Str("startup_coordination"), "cluster" := Str(clusterName),
            "max_concurrency" := PosInt(maxConcurrency), "total_shards" := PosInt(totalShards),
            "shard_groups" := Arr(seq(|groups|, i requires 0 <= i < |groups| => GroupJson(groups[i]))),
            "timestamp" := Str(timestamp)])
  }
}
