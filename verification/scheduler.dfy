/**
 * The operator's periodic reshard scheduler: the time predicate deciding
 * whether a cluster is due, and one pass over the listed clusters that
 * stamps a reshard-trigger annotation on each due one.
 */
module Scheduler {
  import opened Wrappers
  import opened Decimal
  import opened CrustTypes
  import Controller

  const SECS_PER_HOUR := 3600

  /**
   * The reshard interval in seconds fits in a `u64` whenever `should_reshard`
   * computes it, that is, when the status records a reshard (the
   * multiplication panics otherwise).
   */
  predicate IntervalFits(cluster: ShardCluster) {
    cluster.status.Some? && cluster.status.value.lastReshard.Some? ==>
      cluster.spec.reshardIntervalHours * SECS_PER_HOUR <= U64_MAX
  }

  /** chrono's `to_std` with the `ZERO` fallback: a negative elapsed time counts as none. */
  function ElapsedStd(seconds: int): nat {
    if seconds < 0 then 0 else seconds
  }

  /**
   * `should_reshard`: due when nothing records a reshard, otherwise when at
   * least the configured number of hours have passed since it.
   */
  function ShouldReshard(cluster: ShardCluster, now: int): (due: bool)
    requires IntervalFits(cluster)
    ensures cluster.status.None? ==> due
    ensures cluster.status.Some? && cluster.status.value.lastReshard.None? ==> due
    ensures cluster.status.Some? && cluster.status.value.lastReshard.Some? && now >= cluster.status.value.lastReshard.value ==>
      (due <==> now - cluster.status.value.lastReshard.value >= cluster.spec.reshardIntervalHours * SECS_PER_HOUR)
  {
    if cluster.status.Some? && cluster.status.value.lastReshard.Some? then
      var interval := cluster.spec.reshardIntervalHours * SECS_PER_HOUR;
      ElapsedStd(now - cluster.status.value.lastReshard.value) >= interval
    else
      true
  }

  /** A reshard recorded in the future counts as zero elapsed: due only with a zero interval. */
  lemma FutureReshardNotDue(cluster: ShardCluster, now: int)
    requires IntervalFits(cluster)
    requires cluster.status.Some? && cluster.status.value.lastReshard.Some? && cluster.status.value.lastReshard.value > now
    ensures ShouldReshard(cluster, now) <==> cluster.spec.reshardIntervalHours == 0
  {
  }

  /** Once due, a cluster stays due as time goes on. */
  lemma DueIsMonotone(cluster: ShardCluster, now: int, later: int)
    requires IntervalFits(cluster)
    requires now <= later && ShouldReshard(cluster, now)
    ensures ShouldReshard(cluster, later)
  {
  }

  /**
   * With an interval of at least one hour, a due cluster is outside the
   * reconciler's ten-minute skip window, so the trigger is not swallowed.
   */
  lemma DueIsNotSkipped(cluster: ShardCluster, now: int)
    requires IntervalFits(cluster) && cluster.spec.reshardIntervalHours >= 1
    requires ShouldReshard(cluster, now)
    ensures !Controller.RecentlyResharded(cluster, now)
  {
    if cluster.status.Some? && cluster.status.value.lastReshard.Some? {
      Controller.UnderTenMinutes(now - cluster.status.value.lastReshard.value);
    }
  }

  /** The names of the due clusters, in list order. */
  function DueNames(clusters: seq<ShardCluster>, now: int): (names: seq<string>)
    requires forall c | c in clusters :: IntervalFits(c)
    ensures forall n :: n in names <==> exists c :: c in clusters && c.name == n && ShouldReshard(c, now)
    decreases |clusters|
  {
    if clusters == [] then []
    else
      var init := clusters[..|clusters| - 1];
      var last := clusters[|clusters| - 1];
      assert clusters == init + [last];
      DueNames(init, now) + (if ShouldReshard(last, now) then [last.name] else [])
  }

  /** The annotations after stamping `now` on each of `names` whose patch does not fail. */
  function Stamp(triggers: map<string, int>, names: seq<string>, failing: set<string>, now: int): (r: map<string, int>)
    ensures forall n :: n in r <==> n in triggers || (n in names && n !in failing)
    ensures forall n | n in r :: r[n] == if n in names && n !in failing then now else triggers[n]
    decreases |names|
  {
    if names == [] then triggers
    else
      var init := names[..|names| - 1];
      var last := names[|names| - 1];
      assert names == init + [last];
      var m := Stamp(triggers, init, failing, now);
      if last in failing then m else m[last := now]
  }

  /**
   * The ShardCluster resources as the API server holds them, with the
   * reshard-trigger annotation of each. A list call fails when `listFails`;
   * a patch of a name in `failingPatches` fails.
   */
  class ClusterApi {
    const clusters: seq<ShardCluster>
    var triggers: map<string, int>
    const listFails: bool
    const failingPatches: set<string>

    constructor (clusters: seq<ShardCluster>, triggers: map<string, int>, listFails: bool, failingPatches: set<string>)
      ensures this.clusters == clusters && this.triggers == triggers
      ensures this.listFails == listFails && this.failingPatches == failingPatches
    {
      this.clusters := clusters;
      this.triggers := triggers;
      this.listFails := listFails;
      this.failingPatches := failingPatches;
    }

    method List() returns (r: Result<seq<ShardCluster>, string>)
      ensures r.Success? <==> !listFails
      ensures r.Success? ==> r.value == clusters
    {
      if listFails {
        return Failure("list failed");
      }
      return Success(clusters);
    }

    /** Merge-patch the reshard-trigger annotation of `name` to `now`. */
    method PatchTrigger(name: string, now: int) returns (r: Outcome<string>)
      modifies this
      ensures r.Pass? <==> name !in failingPatches
      ensures triggers == if r.Pass? then old(triggers)[name := now] else old(triggers)
    {
      if name in failingPatches {
        return Fail("patch failed");
      }
      triggers := triggers[name := now];
      return Pass;
    }
  }

  /**
   * One pass of `reshard_scheduler`: list the clusters and patch each due
   * one; a failed patch is logged and the pass goes on. Returns the names it
   * tried to patch. A failed list does nothing.
   */
  method ReshardPass(api: ClusterApi, now: int) returns (attempted: seq<string>)
    requires forall c | c in api.clusters :: IntervalFits(c)
    modifies api
    ensures attempted == if api.listFails then [] else DueNames(api.clusters, now)
    ensures api.triggers == Stamp(old(api.triggers), attempted, api.failingPatches, now)
  {
    attempted := [];
    var listed := api.List();
    if listed.Failure? {
      return;
    }
    var clusters := listed.value;
    var i := 0;
    while i < |clusters|
      invariant 0 <= i <= |clusters|
      invariant attempted == DueNames(clusters[..i], now)
      invariant api.triggers == Stamp(old(api.triggers), attempted, api.failingPatches, now)
    {
      var cluster := clusters[i];
      assert clusters[..i + 1] == clusters[..i] + [cluster];
      assert clusters[..i + 1][..i] == clusters[..i];
      if ShouldReshard(cluster, now) {
        var patched := api.PatchTrigger(cluster.name, now);
        attempted := attempted + [cluster.name];
        assert attempted[..|attempted| - 1] == DueNames(clusters[..i], now);
      }
      i := i + 1;
    }
    assert clusters[..|clusters|] == clusters;
  }
}
