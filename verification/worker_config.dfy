/**
 * The worker's configuration, read from its environment. Absent optional
 * variables take defaults; an absent required one is a panic; a numeric one
 * that is not a `u32` is an error. Variables are read in a fixed order and
 * the first failure decides the outcome.
 */
module WorkerConfig {
  import opened Wrappers
  import opened Decimal

  datatype Config = Config(
    natsUrl: string,
    discordToken: string,
    shardIdStart: U32,
    shardIdEnd: U32,
    totalShards: U32,
    workerId: string,
    maxConcurrency: U32)

  /** A loaded configuration, a parse error naming its variable, or a panic on a missing variable. */
  datatype Loaded = Loaded(config: Config) | InvalidNumber(variable: string) | Panicked(variable: string)

  const DEFAULT_NATS_URL: string := "nats://localhost:4222"
  const DEFAULT_WORKER_ID: string := "unknown"
  const DEFAULT_MAX_CONCURRENCY: string := "1"

  /** `std::env::var(name).unwrap_or_else(default)`. */
  function VarOr(env: map<string, string>, name: string, default: string): string {
    if name in env then env[name] else default
  }

  /** `Config::from_env`, with the process environment as a map. */
  function FromEnv(env: map<string, string>): (r: Loaded)
    ensures r.Loaded? ==> && r.config.natsUrl == VarOr(env, "NATS_URL", DEFAULT_NATS_URL)
                          && r.config.workerId == VarOr(env, "WORKER_ID", DEFAULT_WORKER_ID)
                          && "DISCORD_TOKEN" in env && r.config.discordToken == env["DISCORD_TOKEN"]
    ensures r.Loaded? ==> && "SHARD_ID_START" in env && ParseU32(env["SHARD_ID_START"]) == Some(r.config.shardIdStart)
                          && "SHARD_ID_END" in env && ParseU32(env["SHARD_ID_END"]) == Some(r.config.shardIdEnd)
                          && "TOTAL_SHARDS" in env && ParseU32(env["TOTAL_SHARDS"]) == Some(r.config.totalShards)
                          && ParseU32(VarOr(env, "MAX_CONCURRENCY", DEFAULT_MAX_CONCURRENCY)) == Some(r.config.maxConcurrency)
  {
    var natsUrl := VarOr(env, "NATS_URL", DEFAULT_NATS_URL);
    if "DISCORD_TOKEN" !in env then Panicked("DISCORD_TOKEN")
    else
      var discordToken := env["DISCORD_TOKEN"];
      if "SHARD_ID_START" !in env then Panicked("SHARD_ID_START")
      else
        var shardIdStart := ParseU32(env["SHARD_ID_START"]);
        if shardIdStart.None? then InvalidNumber("SHARD_ID_START")
        else if "SHARD_ID_END" !in env then Panicked("SHARD_ID_END")
        else
          var shardIdEnd := ParseU32(env["SHARD_ID_END"]);
          if shardIdEnd.None? then InvalidNumber("SHARD_ID_END")
          else if "TOTAL_SHARDS" !in env then Panicked("TOTAL_SHARDS")
          else
            var totalShards := ParseU32(env["TOTAL_SHARDS"]);
            if totalShards.None? then InvalidNumber("TOTAL_SHARDS")
            else
              var workerId := VarOr(env, "WORKER_ID", DEFAULT_WORKER_ID);
              var maxConcurrency := ParseU32(VarOr(env, "MAX_CONCURRENCY", DEFAULT_MAX_CONCURRENCY));
              if maxConcurrency.None? then InvalidNumber("MAX_CONCURRENCY")
              else
                Loaded(Config(natsUrl, discordToken, shardIdStart.value, shardIdEnd.value,
                              totalShards.value, workerId, maxConcurrency.value))
  }

  /** `Config::worker_id`. */
  function WorkerId(config: Config): string {
    config.workerId
  }

  /** The worker id a loaded configuration reports is `WORKER_ID` verbatim, or "unknown". */
  lemma WorkerIdFromEnv(env: map<string, string>)
    requires FromEnv(env).Loaded?
    ensures WorkerId(FromEnv(env).config) == if "WORKER_ID" in env then env["WORKER_ID"] else "unknown"
  {
  }

  /** How a variable is read: required text, required number, or number with a default. */
  datatype VarKind = RequiredText | RequiredNumber | OptionalNumber(default: string)

  /** The variables that can fail, in the order they are read. */
  const CHECKED: seq<(string, VarKind)> := [
    ("DISCORD_TOKEN", RequiredText),
    ("SHARD_ID_START", RequiredNumber),
    ("SHARD_ID_END", RequiredNumber),
    ("TOTAL_SHARDS", RequiredNumber),
    ("MAX_CONCURRENCY", OptionalNumber(DEFAULT_MAX_CONCURRENCY))]

  /** How reading one variable on its own fails, if it does. */
  function CheckVar(env: map<string, string>, v: (string, VarKind)): Option<Loaded> {
    var (name, kind) := v;
    match kind
    case RequiredText => if name !in env then Some(Panicked(name)) else None
    case RequiredNumber =>
      if name !in env then Some(Panicked(name))
      else if ParseU32(env[name]).None? then Some(InvalidNumber(name))
      else None
    case OptionalNumber(default) => if ParseU32(VarOr(env, name, default)).None? then Some(InvalidNumber(name)) else None
  }

  /**
   * The outcome is decided by the first variable, in reading order, whose
   * check fails; the configuration loads exactly when none fails.
   */
  lemma FirstFailureWins(env: map<string, string>)
    ensures FromEnv(env).Loaded? <==> forall k :: 0 <= k < |CHECKED| ==> CheckVar(env, CHECKED[k]).None?
    ensures !FromEnv(env).Loaded? ==>
      exists k :: 0 <= k < |CHECKED| && CheckVar(env, CHECKED[k]) == Some(FromEnv(env))
                  && forall j :: 0 <= j < k ==> CheckVar(env, CHECKED[j]).None?
  {
    var r := FromEnv(env);
    var c := seq(|CHECKED|, k requires 0 <= k < |CHECKED| => CheckVar(env, CHECKED[k]));
    if !r.Loaded? {
      var k := if c[0].Some? then 0 else if c[1].Some? then 1 else if c[2].Some? then 2 else if c[3].Some? then 3 else 4;
      assert CheckVar(env, CHECKED[k]) == Some(r);
    }
  }

  /**
   * Absent optional variables take their defaults: the NATS URL, the worker
   * id "unknown" and a concurrency of 1.
   */
  lemma Defaults(env: map<string, string>)
    requires FromEnv(env).Loaded?
    ensures "NATS_URL" !in env ==> FromEnv(env).config.natsUrl == "nats://localhost:4222"
    ensures "WORKER_ID" !in env ==> WorkerId(FromEnv(env).config) == "unknown"
    ensures "MAX_CONCURRENCY" !in env ==> FromEnv(env).config.maxConcurrency == 1
  {
    if "MAX_CONCURRENCY" !in env {
      assert AllDigits(DEFAULT_MAX_CONCURRENCY);
      assert DigitsValue(DEFAULT_MAX_CONCURRENCY) == DigitsValue("") * 10 + DigitValue('1');
    }
  }

  /**
   * Each numeric field is the variable's value: an environment holding the
   * decimal renderings of a range, a total and a concurrency loads exactly
   * those numbers, with no check relating them to each other.
   */
  lemma LoadsRenderedNumbers(env: map<string, string>, start: U32, end: U32, total: U32, concurrency: U32)
    requires "DISCORD_TOKEN" in env
    requires "SHARD_ID_START" in env && env["SHARD_ID_START"] == NatToString(start)
    requires "SHARD_ID_END" in env && env["SHARD_ID_END"] == NatToString(end)
    requires "TOTAL_SHARDS" in env && env["TOTAL_SHARDS"] == NatToString(total)
    requires "MAX_CONCURRENCY" in env && env["MAX_CONCURRENCY"] == NatToString(concurrency)
    ensures FromEnv(env).Loaded?
    ensures var c := FromEnv(env).config;
      c.shardIdStart == start && c.shardIdEnd == end && c.totalShards == total && c.maxConcurrency == concurrency
  {
    ParseNatToString(start);
    ParseNatToString(end);
    ParseNatToString(total);
    ParseNatToString(concurrency);
  }
}
