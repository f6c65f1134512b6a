/**
 * Partition planner: cuts the shard IDs `0..total` into contiguous inclusive
 * ranges of at most `shardsPerReplica` IDs, one deployment per range.
 */
module ShardPlanner {
  import opened Decimal
  import opened CrustTypes

  const GROUP_PREFIX: string := "stratum-group-"

  function Min(a: int, b: int): int {
    if a <= b then a else b
  }

  /** `format!("stratum-group-{}", i)`. */
  function GroupName(i: nat): (name: string)
    ensures GROUP_PREFIX <= name && name[|GROUP_PREFIX|..] == NatToString(i)
  {
    GROUP_PREFIX + NatToString(i)
  }

  /** Number of groups of at most `s` IDs needed for `total` IDs. */
  function GroupCount(total: nat, s: nat): nat
    requires s >= 1
  {
    if total == 0 then 0
    else if total <= s then 1
    else 1 + GroupCount(total - s, s)
  }

  /** Size of the last group when `total` IDs are cut into groups of `s`. */
  function LastGroupSize(total: nat, s: nat): nat
    requires s >= 1
  {
    if total <= s then total else LastGroupSize(total - s, s)
  }

  /**
   * What the loop needs to run without a Rust arithmetic panic: a positive
   * group size (with 0 the expression `current + s - 1` underflows), the
   * intermediate sum `current + s` for the last group (which starts at
   * `total - LastGroupSize(total, s)`) fitting in a `u32`, and the `i32`
   * group index never overflowing. With no shards the loop never runs.
   */
  predicate PlanFits(total: U32, s: U32) {
    total == 0 ||
    (s >= 1 && total - LastGroupSize(total, s) + s <= U32_MAX && GroupCount(total, s) <= I32_MAX)
  }

  /** The groups the loop emits from `current` on, numbering them from `index`. */
  function PlanFrom(current: nat, index: nat, total: U32, s: U32): seq<ShardGroup>
    requires s >= 1
    decreases total - current
  {
    if current >= total then []
    else
      var end := Min(current + s - 1, total - 1);
      [ShardGroup(GroupName(index), current, end, 1)] + PlanFrom(end + 1, index + 1, total, s)
  }

  /** The plan `calculate_shard_groups(total, s)` returns. */
  function ShardGroups(total: U32, s: U32): seq<ShardGroup>
    requires PlanFits(total, s)
  {
    if total == 0 then [] else PlanFrom(0, 0, total, s)
  }

  /**
   * The groups tile `lo..hi`: the first starts at `lo`, each next one starts
   * right after the previous one ends, the last ends at `hi - 1`, and no
   * range is empty.
   */
  ghost predicate Contiguous(gs: seq<ShardGroup>, lo: int, hi: int) {
    && (gs == [] ==> lo == hi)
    && (gs != [] ==> gs[0].shardStart == lo && gs[|gs| - 1].shardEnd == hi - 1)
    && (forall k :: 0 <= k < |gs| ==> gs[k].shardStart <= gs[k].shardEnd)
    && (forall k :: 0 < k < |gs| ==> gs[k].shardStart == gs[k - 1].shardEnd + 1)
  }

  /** Every group is named after its position and asks for one replica. */
  ghost predicate NamedFrom(gs: seq<ShardGroup>, index: nat) {
    forall k :: 0 <= k < |gs| ==> gs[k].deploymentName == GroupName(index + k) && gs[k].replicas == 1
  }

  /** Every group holds at most `s` IDs, and all but the last exactly `s`. */
  ghost predicate SizedBy(gs: seq<ShardGroup>, s: nat) {
    && (forall k :: 0 <= k < |gs| ==> gs[k].shardEnd - gs[k].shardStart + 1 <= s)
    && (forall k :: 0 <= k < |gs| - 1 ==> gs[k].shardEnd - gs[k].shardStart + 1 == s)
  }

  lemma MulStep(k: nat, s: nat)
    ensures (k + 1) * s == k * s + s
  {
  }

  /** The group count is the ceiling of `total / s`: enough groups, and one fewer would not be. */
  lemma {:induction false} GroupCountIsCeiling(total: nat, s: nat)
    requires s >= 1
    ensures GroupCount(total, s) * s >= total
    ensures total > 0 ==> (GroupCount(total, s) - 1) * s < total
    decreases total
  {
    if total > s {
      GroupCountIsCeiling(total - s, s);
      MulStep(GroupCount(total - s, s), s);
    }
  }

  lemma {:induction false} LastGroupSizeBounds(total: nat, s: nat)
    requires s >= 1 && total >= 1
    ensures 1 <= LastGroupSize(total, s) <= total && LastGroupSize(total, s) <= s
    decreases total
  {
    if total > s {
      LastGroupSizeBounds(total - s, s);
    }
  }

  lemma {:induction false} PlanFromLength(current: nat, index: nat, total: U32, s: U32)
    requires s >= 1 && current <= total
    ensures |PlanFrom(current, index, total, s)| == GroupCount(total - current, s)
    decreases total - current
  {
    if current < total {
      var end := Min(current + s - 1, total - 1);
      PlanFromLength(end + 1, index + 1, total, s);
    }
  }

  /** Unfolds one step of `PlanFrom`. */
  lemma PlanFromStep(current: nat, index: nat, total: U32, s: U32)
    requires s >= 1 && current < total
    ensures var end := Min(current + s - 1, total - 1);
      var p := PlanFrom(current, index, total, s);
      var rest := PlanFrom(end + 1, index + 1, total, s);
      && |p| == 1 + |rest|
      && p[0] == ShardGroup(GroupName(index), current, end, 1)
      && (forall k :: 0 < k < |p| ==> p[k] == rest[k - 1])
      && (end == total - 1 <==> rest == [])
      && (rest != [] ==> rest[0].shardStart == end + 1)
  {
  }

  lemma {:induction false} PlanFromContiguous(current: nat, index: nat, total: U32, s: U32)
    requires s >= 1 && current <= total
    ensures Contiguous(PlanFrom(current, index, total, s), current, total)
    decreases total - current
  {
    if current < total {
      var end := Min(current + s - 1, total - 1);
      PlanFromContiguous(end + 1, index + 1, total, s);
      PlanFromStep(current, index, total, s);
    }
  }

  lemma {:induction false} PlanFromNamed(current: nat, index: nat, total: U32, s: U32)
    requires s >= 1
    ensures NamedFrom(PlanFrom(current, index, total, s), index)
    decreases total - current
  {
    if current < total {
      var end := Min(current + s - 1, total - 1);
      PlanFromNamed(end + 1, index + 1, total, s);
      PlanFromStep(current, index, total, s);
      var p := PlanFrom(current, index, total, s);
      forall k | 0 < k < |p|
        ensures p[k].deploymentName == GroupName(index + k) && p[k].replicas == 1
      {
        assert index + 1 + (k - 1) == index + k;
      }
    }
  }

  lemma {:induction false} PlanFromSized(current: nat, index: nat, total: U32, s: U32)
    requires s >= 1
    ensures SizedBy(PlanFrom(current, index, total, s), s)
    decreases total - current
  {
    if current < total {
      var end := Min(current + s - 1, total - 1);
      PlanFromSized(end + 1, index + 1, total, s);
      PlanFromStep(current, index, total, s);
    }
  }

  /**
   * The planned groups partition `0..total`: contiguous from 0 to
   * `total - 1`, each of at most `s` IDs, all but the last of exactly `s`,
   * `ceil(total / s)` of them, group `k` named `stratum-group-k` with one
   * replica, whatever the cluster's `replicas_per_shard_group`.
   */
  lemma PlanIsPartition(total: U32, s: U32)
    requires PlanFits(total, s)
    ensures Contiguous(ShardGroups(total, s), 0, total)
    ensures NamedFrom(ShardGroups(total, s), 0)
    ensures total > 0 ==> SizedBy(ShardGroups(total, s), s) && |ShardGroups(total, s)| == GroupCount(total, s)
    ensures total == 0 ==> ShardGroups(total, s) == []
  {
    if total > 0 {
      PlanFromLength(0, 0, total, s);
      PlanFromContiguous(0, 0, total, s);
      PlanFromNamed(0, 0, total, s);
      PlanFromSized(0, 0, total, s);
    }
  }

  /** Some group of `gs` holds shard `id`. */
  ghost predicate Covered(gs: seq<ShardGroup>, id: int) {
    exists k :: 0 <= k < |gs| && InGroup(gs[k], id)
  }

  /** Contiguous groups cover exactly `lo..hi`. */
  lemma {:induction false} ContiguousCovers(gs: seq<ShardGroup>, lo: int, hi: int)
    requires Contiguous(gs, lo, hi)
    ensures forall id :: lo <= id < hi <==> Covered(gs, id)
    decreases |gs|
  {
    if gs != [] {
      var tail := gs[1..];
      assert Contiguous(tail, gs[0].shardEnd + 1, hi);
      ContiguousCovers(tail, gs[0].shardEnd + 1, hi);
      forall id | lo <= id < hi
        ensures Covered(gs, id)
      {
        if id > gs[0].shardEnd {
          assert Covered(tail, id);
          var k :| 0 <= k < |tail| && InGroup(tail[k], id);
          assert InGroup(gs[k + 1], id);
        } else {
          assert InGroup(gs[0], id);
        }
      }
      forall id | Covered(gs, id)
        ensures lo <= id < hi
      {
        var k :| 0 <= k < |gs| && InGroup(gs[k], id);
        if k > 0 {
          assert InGroup(tail[k - 1], id);
          assert Covered(tail, id);
        } else if tail != [] {
          assert InGroup(tail[0], gs[0].shardEnd + 1);
          assert Covered(tail, gs[0].shardEnd + 1);
        }
      }
    }
  }

  /** Contiguous groups are strictly ascending, hence pairwise disjoint. */
  lemma {:induction false} ContiguousAscending(gs: seq<ShardGroup>, lo: int, hi: int)
    requires Contiguous(gs, lo, hi)
    ensures forall j, k :: 0 <= j < k < |gs| ==> gs[j].shardEnd < gs[k].shardStart
    decreases |gs|
  {
    if gs != [] {
      var tail := gs[1..];
      assert Contiguous(tail, gs[0].shardEnd + 1, hi);
      ContiguousAscending(tail, gs[0].shardEnd + 1, hi);
      forall j, k | 0 <= j < k < |gs|
        ensures gs[j].shardEnd < gs[k].shardStart
      {
        if j > 0 {
          assert tail[j - 1] == gs[j] && tail[k - 1] == gs[k];
        } else if k > 1 {
          assert tail[0].shardEnd < tail[k - 1].shardStart;
        }
      }
    }
  }

  /**
   * Every shard ID below `total` lies in exactly one planned group, and no
   * planned group holds an ID outside `0..total`.
   */
  lemma PlanOwnsEachShardOnce(total: U32, s: U32)
    requires PlanFits(total, s)
    ensures forall id :: 0 <= id < total <==> Covered(ShardGroups(total, s), id)
    ensures forall j, k, id ::
      (0 <= j < |ShardGroups(total, s)| && 0 <= k < |ShardGroups(total, s)| &&
       InGroup(ShardGroups(total, s)[j], id) && InGroup(ShardGroups(total, s)[k], id)) ==> j == k
  {
    PlanIsPartition(total, s);
    ContiguousCovers(ShardGroups(total, s), 0, total);
    ContiguousAscending(ShardGroups(total, s), 0, total);
  }

  /** Group `k` starts at `k * s`. */
  lemma {:induction false} GroupStartsAtMultiple(total: U32, s: U32, k: nat)
    requires PlanFits(total, s) && k < |ShardGroups(total, s)|
    ensures s >= 1 && ShardGroups(total, s)[k].shardStart == k * s
  {
    var gs := ShardGroups(total, s);
    PlanIsPartition(total, s);
    if k > 0 {
      GroupStartsAtMultiple(total, s, k - 1);
      MulStep(k - 1, s);
      assert gs[k].shardStart == gs[k - 1].shardEnd + 1;
    }
  }

  /**
   * Loop state of `calculate_shard_groups`: the groups emitted so far followed
   * by the ones still to come from `current` on make up the plan.
   */
  ghost predicate Emitted(done: seq<ShardGroup>, current: nat, index: nat, total: U32, s: U32)
    requires PlanFits(total, s)
  {
    && current <= total
    && (total == 0 ==> done == [])
    && (total > 0 ==>
      && s >= 1
      && done + PlanFrom(current, index, total, s) == ShardGroups(total, s)
      && index + GroupCount(total - current, s) == GroupCount(total, s)
      && (current < total ==> LastGroupSize(total - current, s) == LastGroupSize(total, s)))
  }

  /** The sequence part of one loop turn: emitting the next group moves it from the rest to the done part. */
  lemma EmitNext(done: seq<ShardGroup>, current: nat, index: nat, total: U32, s: U32)
    requires PlanFits(total, s) && 0 < total && current < total
    requires done + PlanFrom(current, index, total, s) == ShardGroups(total, s)
    ensures s >= 1
    ensures var end := Min(current + s - 1, total - 1);
      (done + [ShardGroup(GroupName(index), current, end, 1)]) + PlanFrom(end + 1, index + 1, total, s)
      == ShardGroups(total, s)
  {
    PlanFromStep(current, index, total, s);
    var end := Min(current + s - 1, total - 1);
    var rest := PlanFrom(end + 1, index + 1, total, s);
    var g := ShardGroup(GroupName(index), current, end, 1);
    assert PlanFrom(current, index, total, s) == [g] + rest;
    assert (done + [g]) + rest == done + ([g] + rest);
  }

  /** The counting part of one loop turn. */
  lemma CountNext(current: nat, index: nat, total: U32, s: U32)
    requires PlanFits(total, s) && 0 < total && current < total
    requires index + GroupCount(total - current, s) == GroupCount(total, s)
    requires LastGroupSize(total - current, s) == LastGroupSize(total, s)
    ensures s >= 1 && current + s <= U32_MAX && index + 1 <= I32_MAX
    ensures var next := Min(current + s - 1, total - 1) + 1;
      && index + 1 + GroupCount(total - next, s) == GroupCount(total, s)
      && (next < total ==> LastGroupSize(total - next, s) == LastGroupSize(total, s))
  {
    LastGroupSizeBounds(total - current, s);
  }

  /** One turn of the loop keeps `Emitted`, without overflowing the `u32` end or the `i32` index. */
  lemma PlanAdvance(done: seq<ShardGroup>, current: nat, index: nat, total: U32, s: U32)
    requires PlanFits(total, s) && current < total && Emitted(done, current, index, total, s)
    ensures s >= 1 && current + s <= U32_MAX && index + 1 <= I32_MAX
    ensures Emitted(done + [ShardGroup(GroupName(index), current, Min(current + s - 1, total - 1), 1)],
                    Min(current + s - 1, total - 1) + 1, index + 1, total, s)
  {
    EmitNext(done, current, index, total, s);
    CountNext(current, index, total, s);
  }

  /** With nothing left to emit, the emitted groups are the plan. */
  lemma PlanDone(done: seq<ShardGroup>, current: nat, index: nat, total: U32, s: U32)
    requires PlanFits(total, s) && current >= total && Emitted(done, current, index, total, s)
    ensures done == ShardGroups(total, s)
  {
  }

  /**
   * `calculate_shard_groups`: a loop advancing `currentShard` past each
   * emitted group and numbering the groups from 0.
   */
  method CalculateShardGroups(totalShards: U32, shardsPerReplica: U32) returns (groups: seq<ShardGroup>)
    requires PlanFits(totalShards, shardsPerReplica)
    ensures groups == ShardGroups(totalShards, shardsPerReplica)
  {
    groups := [];
    var currentShard: U32 := 0;
    var groupIndex: I32 := 0;
    while currentShard < totalShards
      invariant 0 <= groupIndex
      invariant Emitted(groups, currentShard, groupIndex, totalShards, shardsPerReplica)
      decreases totalShards - currentShard
    {
      PlanAdvance(groups, currentShard, groupIndex, totalShards, shardsPerReplica);
      var sum: U32 := currentShard + shardsPerReplica;
      var shardEnd: U32 := Min(sum - 1, totalShards - 1);
      groups := groups + [ShardGroup(GroupName(groupIndex), currentShard, shardEnd, 1)];
      currentShard := shardEnd + 1;
      groupIndex := groupIndex + 1;
    }
    PlanDone(groups, currentShard, groupIndex, totalShards, shardsPerReplica);
  }
}
