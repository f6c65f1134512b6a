/**
 * The worker's shard manager configuration: the gateway settings and the
 * half-open range of shard IDs the worker runs, derived from the inclusive
 * range in its configuration.
 */
module DiscordRange {
  import opened Wrappers
  import opened Decimal
  import opened WorkerConfig

  /** The gateway settings every shard of the worker shares. */
  datatype GatewayConfig = GatewayConfig(token: string, intents: string)

  /** A half-open range `start..end` of shard IDs, as Rust's `Range<u32>`. */
  datatype ShardRange = ShardRange(start: U32, end: U32)

  datatype ShardManagerConfig = ShardManagerConfig(gatewayConfig: GatewayConfig, shardIds: ShardRange)

  /** The integers `lo..hi`, and how many there are. */
  function Interval(lo: int, hi: int): (s: set<int>)
    ensures forall id :: id in s <==> lo <= id < hi
    ensures |s| == if lo < hi then hi - lo else 0
    decreases if lo < hi then hi - lo else 0
  {
    if lo >= hi then {} else {lo} + Interval(lo + 1, hi)
  }

  /** The IDs a half-open range yields; none when `start >= end`. */
  function Ids(r: ShardRange): set<int> {
    Interval(r.start, r.end)
  }

  /**
   * `new_shard_manager_config`: the range `shard_id_start..shard_id_end + 1`
   * (the addition overflows at `u32::MAX`). It never fails.
   */
  function NewShardManagerConfig(config: Config): (r: Result<ShardManagerConfig, string>)
    requires config.shardIdEnd < U32_MAX
    ensures r.Success?
    ensures forall id :: id in Ids(r.value.shardIds) <==> config.shardIdStart <= id <= config.shardIdEnd
    ensures r.value.gatewayConfig.token == config.discordToken
  {
    var gatewayConfig := GatewayConfig(config.discordToken, "GUILD_MESSAGES");
    Success(ShardManagerConfig(gatewayConfig, ShardRange(config.shardIdStart, config.shardIdEnd + 1)))
  }

  /**
   * The worker runs `end - start + 1` shards of its inclusive range, and
   * none when the start lies past the end.
   */
  lemma RangeSize(config: Config)
    requires config.shardIdEnd < U32_MAX
    ensures var ids := Ids(NewShardManagerConfig(config).value.shardIds);
      |ids| == if config.shardIdStart <= config.shardIdEnd then config.shardIdEnd - config.shardIdStart + 1 else 0
    ensures config.shardIdStart > config.shardIdEnd <==> Ids(NewShardManagerConfig(config).value.shardIds) == {}
  {
    if config.shardIdStart <= config.shardIdEnd {
      assert config.shardIdStart in Ids(NewShardManagerConfig(config).value.shardIds);
    }
  }

  /** The range depends on the configured start and end only, never on the total shard count. */
  lemma RangeIgnoresTotal(config: Config, total: U32)
    requires config.shardIdEnd < U32_MAX
    ensures NewShardManagerConfig(config.(totalShards := total)).value.shardIds == NewShardManagerConfig(config).value.shardIds
  {
  }
}
