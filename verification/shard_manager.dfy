/**
 * The worker's shard manager: a map from shard ID to the task running that
 * shard, kept equal to the configured range. A task is represented by what
 * it captured when spawned; the ghost logs record spawns, aborts and
 * reshard updates in the order they happen.
 */
module ShardManagement {
  import opened Wrappers
  import opened Decimal
  import opened Text
  import opened WorkerConfig
  import opened DiscordRange
  import opened ShardPlanner

  /** A running shard task: the shard it serves and the total and worker id it captured. */
  datatype ShardTask = ShardTask(shardId: U32, totalShards: U32, workerId: string)

  /** `calculate_startup_delay`: ten seconds per group number in a `stratum-group-N` worker id, else none. */
  function StartupDelaySecs(workerId: string): (delay: nat)
    ensures delay % 10 == 0 && delay <= 10 * U32_MAX
    ensures !(GROUP_PREFIX <= workerId) ==> delay == 0
    ensures GROUP_PREFIX <= workerId ==>
      delay == match ParseU32(workerId[|GROUP_PREFIX|..]) case Some(n) => 10 * n case None => 0
  {
    var groupNumber :=
      match StripPrefix(workerId, GROUP_PREFIX)
      case Some(rest) => (match ParseU32(rest) case Some(n) => n case None => 0)
      case None => 0;
    groupNumber * 10
  }

  /** The worker of group `i` waits `10 * i` seconds before starting its shards. */
  lemma GroupStartupDelay(i: U32)
    ensures StartupDelaySecs(GroupName(i)) == 10 * i
  {
    var name := GroupName(i);
    assert StripPrefix(name, GROUP_PREFIX) == Some(NatToString(i));
    ParseNatToString(i);
  }

  /** Any suffix `u32` parsing accepts counts: leading zeros and a `+` sign are read as the number. */
  lemma LenientGroupNumberDelay()
    ensures StartupDelaySecs("stratum-group-007") == 70
    ensures StartupDelaySecs("stratum-group-+3") == 30
  {
    assert "stratum-group-007"[|GROUP_PREFIX|..] == "007";
    assert DigitsValue("007") == DigitsValue("00") * 10 + 7;
    assert DigitsValue("00") == DigitsValue("0") * 10;
    assert "stratum-group-+3"[|GROUP_PREFIX|..] == "+3";
    assert "+3"[1..] == "3";
  }

  /** A worker id without the group prefix, or with a suffix that is not a `u32`, gives no delay. */
  lemma OtherWorkerNoDelay(workerId: string)
    requires !(GROUP_PREFIX <= workerId) || ParseU32(workerId[|GROUP_PREFIX|..]).None?
    ensures StartupDelaySecs(workerId) == 0
  {
  }

  /** `s` lists the elements of `S`, each once. */
  ghost predicate Lists(s: seq<U32>, S: set<U32>) {
    && (forall x :: x in s <==> x in S)
    && (forall i, j :: 0 <= i < j < |s| ==> s[i] != s[j])
  }

  lemma ListsAppend(s: seq<U32>, S: set<U32>, x: U32)
    requires Lists(s, S) && x !in S
    ensures Lists(s + [x], S + {x})
  {
  }

  /** The ids of a sequence of tasks. */
  function TaskIds(tasks: seq<ShardTask>): (ids: seq<U32>)
    ensures |ids| == |tasks| && forall i :: 0 <= i < |tasks| ==> ids[i] == tasks[i].shardId
  {
    if tasks == [] then [] else [tasks[0].shardId] + TaskIds(tasks[1..])
  }

  lemma TaskIdsAppend(tasks: seq<ShardTask>, t: ShardTask)
    ensures TaskIds(tasks + [t]) == TaskIds(tasks) + [t.shardId]
  {
  }

  /** The tasks spawned for the IDs `lo..hi` not in `running`, in ascending order. */
  function NewTasks(lo: int, hi: int, running: set<U32>, total: U32, workerId: string): (tasks: seq<ShardTask>)
    requires 0 <= lo && hi <= U32_MAX + 1
    ensures forall t :: t in tasks ==>
      lo <= t.shardId < hi && t.shardId !in running && t.totalShards == total && t.workerId == workerId
    ensures forall i, j :: 0 <= i < j < |tasks| ==> tasks[i].shardId < tasks[j].shardId
    decreases hi - lo
  {
    if hi <= lo then []
    else
      var init := NewTasks(lo, hi - 1, running, total, workerId);
      if hi - 1 in running then init else init + [ShardTask(hi - 1, total, workerId)]
  }

  /** Every ID of `lo..hi` that is not running gets a task. */
  lemma {:induction false} NewTasksComplete(lo: int, hi: int, running: set<U32>, total: U32, workerId: string)
    requires 0 <= lo && hi <= U32_MAX + 1
    ensures forall id: U32 | lo <= id < hi && id !in running :: ShardTask(id, total, workerId) in NewTasks(lo, hi, running, total, workerId)
    decreases hi - lo
  {
    if lo < hi {
      NewTasksComplete(lo, hi - 1, running, total, workerId);
    }
  }

  /**
   * The state of the `start_shards` loop at `id`: from `handles`/`spawned`
   * before it, exactly the IDs `lo..id` were added, each new one filed with
   * a task for `total` and `workerId` and spawned in ascending order.
   */
  ghost predicate StartedUpTo(lo: int, id: int, handles0: map<U32, ShardTask>, spawned0: seq<ShardTask>,
                              handles: map<U32, ShardTask>, spawned: seq<ShardTask>, total: U32, workerId: string)
    requires 0 <= lo && id <= U32_MAX + 1
  {
    && (forall x :: x in handles <==> x in handles0 || lo <= x < id)
    && (forall x | x in handles0 :: handles[x] == handles0[x])
    && (forall x | x in handles && x !in handles0 :: handles[x] == ShardTask(x, total, workerId))
    && spawned == spawned0 + NewTasks(lo, id, handles0.Keys, total, workerId)
  }

  /** One turn of the `start_shards` loop. */
  lemma StartedStep(lo: int, id: U32, handles0: map<U32, ShardTask>, spawned0: seq<ShardTask>,
                    handles: map<U32, ShardTask>, spawned: seq<ShardTask>, total: U32, workerId: string)
    requires 0 <= lo <= id && StartedUpTo(lo, id, handles0, spawned0, handles, spawned, total, workerId)
    ensures var task := ShardTask(id, total, workerId);
      if id in handles then StartedUpTo(lo, id + 1, handles0, spawned0, handles, spawned, total, workerId)
      else StartedUpTo(lo, id + 1, handles0, spawned0, handles[id := task], spawned + [task], total, workerId)
  {
    if id in handles {
      StartedKeep(lo, id, handles0, spawned0, handles, spawned, total, workerId);
    } else {
      StartedAdd(lo, id, handles0, spawned0, handles, spawned, total, workerId);
    }
  }

  /** A turn at a running ID changes nothing. */
  lemma StartedKeep(lo: int, id: U32, handles0: map<U32, ShardTask>, spawned0: seq<ShardTask>,
                    handles: map<U32, ShardTask>, spawned: seq<ShardTask>, total: U32, workerId: string)
    requires 0 <= lo <= id && StartedUpTo(lo, id, handles0, spawned0, handles, spawned, total, workerId)
    requires id in handles
    ensures StartedUpTo(lo, id + 1, handles0, spawned0, handles, spawned, total, workerId)
  {
    assert id in handles0;
    assert NewTasks(lo, id + 1, handles0.Keys, total, workerId) == NewTasks(lo, id, handles0.Keys, total, workerId);
  }

  /** A turn at a missing ID files and spawns its task. */
  lemma StartedAdd(lo: int, id: U32, handles0: map<U32, ShardTask>, spawned0: seq<ShardTask>,
                   handles: map<U32, ShardTask>, spawned: seq<ShardTask>, total: U32, workerId: string)
    requires 0 <= lo <= id && StartedUpTo(lo, id, handles0, spawned0, handles, spawned, total, workerId)
    requires id !in handles
    ensures var task := ShardTask(id, total, workerId);
      StartedUpTo(lo, id + 1, handles0, spawned0, handles[id := task], spawned + [task], total, workerId)
  {
    var task := ShardTask(id, total, workerId);
    assert id !in handles0;
    var added := NewTasks(lo, id, handles0.Keys, total, workerId);
    assert NewTasks(lo, id + 1, handles0.Keys, total, workerId) == added + [task];
    assert spawned + [task] == spawned0 + (added + [task]);
  }

  class ShardManager {
    var config: Config
    var shardHandles: map<U32, ShardTask>
    ghost var spawned: seq<ShardTask>
    ghost var aborted: seq<U32>
    ghost var updates: seq<U32>

    /** The range can be formed, and each task runs the shard it is filed under for this worker. */
    ghost predicate Valid()
      reads this
    {
      && config.shardIdEnd < U32_MAX
      && forall id | id in shardHandles :: shardHandles[id].shardId == id && shardHandles[id].workerId == config.workerId
    }

    /** The configured range `[shard_id_start, shard_id_end]`. */
    ghost predicate InRange(id: int)
      reads this
    {
      config.shardIdStart <= id <= config.shardIdEnd
    }

    /** `ShardManager::new`: no shard runs yet. */
    constructor (config: Config)
      requires config.shardIdEnd < U32_MAX
      ensures Valid()
      ensures this.config == config && shardHandles == map[]
      ensures spawned == [] && aborted == [] && updates == []
    {
      this.config := config;
      shardHandles := map[];
      spawned, aborted, updates := [], [], [];
    }

    function WorkerId(): string
      reads this
    {
      config.workerId
    }

    /** `start_shard`: spawn a task for `id` unless one is already running. */
    method StartShard(id: U32)
      requires Valid()
      modifies this
      ensures Valid() && config == old(config) && aborted == old(aborted) && updates == old(updates)
      ensures id in old(shardHandles) ==> shardHandles == old(shardHandles) && spawned == old(spawned)
      ensures id !in old(shardHandles) ==>
        var task := ShardTask(id, config.totalShards, config.workerId);
        shardHandles == old(shardHandles)[id := task] && spawned == old(spawned) + [task]
    {
      if id in shardHandles {
        return;
      }
      var task := ShardTask(id, config.totalShards, config.workerId);
      shardHandles := shardHandles[id := task];
      spawned := spawned + [task];
    }

    /** `stop_shard`: abort and forget the task for `id`, if any. */
    method StopShard(id: U32)
      requires Valid()
      modifies this
      ensures Valid() && config == old(config) && spawned == old(spawned) && updates == old(updates)
      ensures shardHandles == old(shardHandles) - {id}
      ensures aborted == old(aborted) + if id in old(shardHandles) then [id] else []
    {
      if id in shardHandles {
        shardHandles := shardHandles - {id};
        aborted := aborted + [id];
      }
    }

    /**
     * `start_shards`: after the startup delay, start every ID of the range
     * in ascending order, two seconds apart. Running IDs are kept.
     */
    method StartShards() returns (r: Outcome<string>)
      requires Valid()
      modifies this
      ensures Valid() && r.Pass?
      ensures config == old(config) && aborted == old(aborted) && updates == old(updates)
      ensures forall id :: id in shardHandles <==> id in old(shardHandles) || InRange(id)
      ensures forall id | id in old(shardHandles) :: shardHandles[id] == old(shardHandles)[id]
      ensures forall id | id in shardHandles && id !in old(shardHandles) ::
        shardHandles[id] == ShardTask(id, config.totalShards, config.workerId)
      ensures spawned == old(spawned) + NewTasks(config.shardIdStart, config.shardIdEnd + 1, old(shardHandles).Keys,
                                                 config.totalShards, config.workerId)
    {
      var range := NewShardManagerConfig(config).value.shardIds;
      StartRange(range.start, range.end);
      return Pass;
    }

    /** The loop of `start_shards`: start each ID of `lo..hi` in ascending order. */
    method StartRange(lo: U32, hi: int)
      requires Valid() && hi <= U32_MAX + 1
      modifies this
      ensures Valid() && config == old(config) && aborted == old(aborted) && updates == old(updates)
      ensures StartedUpTo(lo, hi, old(shardHandles), old(spawned), shardHandles, spawned,
                          config.totalShards, config.workerId)
    {
      var id: int := lo;
      while id < hi
        invariant lo <= id && (id == lo || id <= hi)
        invariant Valid() && config == old(config) && aborted == old(aborted) && updates == old(updates)
        invariant StartedUpTo(lo, id, old(shardHandles), old(spawned), shardHandles, spawned,
                              config.totalShards, config.workerId)
      {
        StartedStep(lo, id, old(shardHandles), old(spawned), shardHandles, spawned,
                    config.totalShards, config.workerId);
        StartShard(id);
        id := id + 1;
      }
      assert hi < lo ==> NewTasks(lo, hi, old(shardHandles).Keys, config.totalShards, config.workerId) == [];
    }

    /**
     * `update_shards`: record the new total, stop the running IDs outside
     * the range, start the range's IDs that are not running. IDs in both are
     * left alone and keep the total they were spawned with.
     */
    method UpdateShards(newTotal: U32) returns (r: Outcome<string>)
      requires Valid()
      modifies this
      ensures Valid() && r.Pass?
      ensures config == old(config).(totalShards := newTotal)
      ensures updates == old(updates) + [newTotal]
      ensures forall id :: id in shardHandles <==> InRange(id)
      ensures forall id | id in shardHandles ::
        shardHandles[id] == if id in old(shardHandles) then old(shardHandles)[id] else ShardTask(id, newTotal, config.workerId)
      ensures |aborted| >= |old(aborted)| && aborted[..|old(aborted)|] == old(aborted)
      ensures Lists(aborted[|old(aborted)|..], set id | id in old(shardHandles) && !InRange(id))
      ensures |spawned| >= |old(spawned)| && spawned[..|old(spawned)|] == old(spawned)
      ensures Lists(TaskIds(spawned[|old(spawned)|..]), set id: U32 | InRange(id) && id !in old(shardHandles))
    {
      config := config.(totalShards := newTotal);
      updates := updates + [newTotal];
      var range := NewShardManagerConfig(config).value.shardIds;
      var newIds: set<U32> := set id: U32 | id in Ids(range);
      var currentIds := shardHandles.Keys;

      ghost var stopped := StopShards(currentIds - newIds);
      ghost var started := StartMissing(newIds - currentIds);
      return Pass;
    }

    /** The first loop of `update_shards`: stop each of `ids`. */
    method StopShards(ids: set<U32>) returns (ghost stopped: seq<U32>)
      requires Valid() && ids <= shardHandles.Keys
      modifies this
      ensures Valid() && config == old(config) && spawned == old(spawned) && updates == old(updates)
      ensures shardHandles == old(shardHandles) - ids
      ensures aborted == old(aborted) + stopped && Lists(stopped, ids)
    {
      var toStop := ids;
      stopped := [];
      while toStop != {}
        invariant toStop <= ids && Lists(stopped, ids - toStop)
        invariant Valid() && config == old(config) && spawned == old(spawned) && updates == old(updates)
        invariant shardHandles == old(shardHandles) - (ids - toStop)
        invariant aborted == old(aborted) + stopped
        decreases |toStop|
      {
        var id :| id in toStop;
        StopShard(id);
        ListsAppend(stopped, ids - toStop, id);
        assert (ids - toStop) + {id} == ids - (toStop - {id});
        stopped := stopped + [id];
        toStop := toStop - {id};
      }
    }

    /** The second loop of `update_shards`: start each of `ids`, none of which runs. */
    method StartMissing(ids: set<U32>) returns (ghost started: seq<ShardTask>)
      requires Valid() && ids !! shardHandles.Keys
      modifies this
      ensures Valid() && config == old(config) && aborted == old(aborted) && updates == old(updates)
      ensures forall id :: id in shardHandles <==> id in old(shardHandles) || id in ids
      ensures forall id | id in shardHandles ::
        shardHandles[id] == if id in ids then ShardTask(id, config.totalShards, config.workerId) else old(shardHandles)[id]
      ensures spawned == old(spawned) + started && Lists(TaskIds(started), ids)
    {
      var toStart := ids;
      started := [];
      while toStart != {}
        invariant toStart <= ids && Lists(TaskIds(started), ids - toStart)
        invariant Valid() && config == old(config) && aborted == old(aborted) && updates == old(updates)
        invariant forall id :: id in shardHandles <==> id in old(shardHandles) || id in ids - toStart
        invariant forall id | id in shardHandles ::
          shardHandles[id] == if id in ids then ShardTask(id, config.totalShards, config.workerId) else old(shardHandles)[id]
        invariant spawned == old(spawned) + started
        decreases |toStart|
      {
        var id :| id in toStart;
        var task := ShardTask(id, config.totalShards, config.workerId);
        StartShard(id);
        TaskIdsAppend(started, task);
        ListsAppend(TaskIds(started), ids - toStart, id);
        assert (ids - toStart) + {id} == ids - (toStart - {id});
        started := started + [task];
        toStart := toStart - {id};
      }
    }

    /** `shutdown`: abort every task and empty the map. */
    method Shutdown()
      requires Valid()
      modifies this
      ensures Valid() && config == old(config) && spawned == old(spawned) && updates == old(updates)
      ensures shardHandles == map[]
      ensures |aborted| >= |old(aborted)| && aborted[..|old(aborted)|] == old(aborted)
      ensures Lists(aborted[|old(aborted)|..], old(shardHandles).Keys)
    {
      ghost var drained: seq<U32> := [];
      while shardHandles != map[]
        invariant Valid() && config == old(config) && spawned == old(spawned) && updates == old(updates)
        invariant shardHandles.Keys <= old(shardHandles).Keys
        invariant Lists(drained, old(shardHandles).Keys - shardHandles.Keys)
        invariant aborted == old(aborted) + drained
        decreases |shardHandles.Keys|
      {
        var id :| id in shardHandles;
        shardHandles := shardHandles - {id};
        aborted := aborted + [id];
        drained := drained + [id];
      }
      assert aborted[|old(aborted)|..] == drained;
    }
  }
}
