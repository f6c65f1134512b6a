/**
 * The worker's side of NATS coordination: which incoming operator messages
 * reshard the worker and with what count, the startup listener that only
 * observes, and the payloads of the two messages a shard task publishes.
 * Message payloads arrive already parsed: `None` stands for bytes that are
 * not JSON.
 */
module Coordination {
  import opened Wrappers
  import opened Decimal
  import opened Json
  import opened ShardManagement
  import opened OperatorSignals

  /** `as u32` keeps the low 32 bits. */
  const U32_MODULUS: int := 0x1_0000_0000

  /**
   * The reshard filter: a JSON object whose `event` is the string "reshard"
   * and whose `new_shard_count` is a non-negative integer yields that count
   * cast to `u32`; anything else is ignored.
   */
  function ReshardCount(payload: Option<Json>): (r: Option<U32>)
    ensures r.Some? <==>
      && payload.Some? && payload.value.Obj?
      && "event" in payload.value.members && payload.value.members["event"] == Str("reshard")
      && "new_shard_count" in payload.value.members && payload.value.members["new_shard_count"].PosInt?
    ensures r.Some? ==> r.value == payload.value.members["new_shard_count"].u % U32_MODULUS
  {
    if payload.None? then None
    else
      var event := Get(payload.value, "event");
      if event.None? || AsStr(event.value) != Some("reshard") then None
      else
        var count := Get(payload.value, "new_shard_count");
        if count.None? || AsU64(count.value).None? then None
        else Some(AsU64(count.value).value % U32_MODULUS)
  }

  /** The counts `update_shards` is called with for `messages`, in order. */
  function ReshardCounts(messages: seq<Option<Json>>): (counts: seq<U32>)
    ensures |counts| <= |messages|
    ensures forall i | 0 <= i < |messages| && ReshardCount(messages[i]).Some? :: ReshardCount(messages[i]).value in counts
    ensures forall c | c in counts :: exists i :: 0 <= i < |messages| && ReshardCount(messages[i]) == Some(c)
    decreases |messages|
  {
    if messages == [] then []
    else
      var init := messages[..|messages| - 1];
      var c := ReshardCount(messages[|messages| - 1]);
      assert forall i | 0 <= i < |init| :: init[i] == messages[i];
      ReshardCounts(init) + if c.Some? then [c.value] else []
  }

  /** The operator's reshard signal passes the filter with its count; the timestamp is ignored. */
  lemma ReshardSignalRoundTrip(n: U32, timestamp: string)
    ensures ReshardCount(Some(ReshardSignal(n, timestamp))) == Some(n)
  {
  }

  /** Members other than `event` and `new_shard_count` do not affect the filter. */
  lemma ExtraMembersIgnored(members: map<string, Json>, key: string, value: Json)
    requires key != "event" && key != "new_shard_count"
    ensures ReshardCount(Some(Obj(members[key := value]))) == ReshardCount(Some(Obj(members)))
  {
  }

  /**
   * `listen_for_reshard_signals`: subscribe, then call `update_shards` with
   * the count of each message that passes the filter. An error from the
   * update would be logged and the loop would go on; the listener ends
   * when the message stream does. A failed subscription ends it at once.
   */
  method ListenForReshardSignals(manager: ShardManager, subscribeError: Option<string>, messages: seq<Option<Json>>)
    returns (r: Outcome<string>)
    requires manager.Valid()
    modifies manager
    ensures manager.Valid()
    ensures subscribeError.Some? ==> r == Fail(subscribeError.value) && manager.updates == old(manager.updates)
    ensures subscribeError.None? ==> r.Pass? && manager.updates == old(manager.updates) + ReshardCounts(messages)
    ensures manager.config.shardIdStart == old(manager.config.shardIdStart)
    ensures manager.config.shardIdEnd == old(manager.config.shardIdEnd)
    ensures subscribeError.None? && ReshardCounts(messages) != [] ==>
      && manager.config.totalShards == ReshardCounts(messages)[|ReshardCounts(messages)| - 1]
      && forall id :: id in manager.shardHandles <==> manager.InRange(id)
  {
    if subscribeError.Some? {
      return Fail(subscribeError.value);
    }
    var i := 0;
    while i < |messages|
      invariant 0 <= i <= |messages|
      invariant manager.Valid()
      invariant manager.updates == old(manager.updates) + ReshardCounts(messages[..i])
      invariant manager.config.shardIdStart == old(manager.config.shardIdStart)
      invariant manager.config.shardIdEnd == old(manager.config.shardIdEnd)
      invariant ReshardCounts(messages[..i]) != [] ==>
        && manager.config.totalShards == ReshardCounts(messages[..i])[|ReshardCounts(messages[..i])| - 1]
        && forall id :: id in manager.shardHandles <==> manager.InRange(id)
    {
      assert messages[..i + 1][..i] == messages[..i];
      var count := ReshardCount(messages[i]);
      if count.Some? {
        var updated := manager.UpdateShards(count.value);
      }
      i := i + 1;
    }
    assert messages[..|messages|] == messages;
    return Pass;
  }

  /** A startup-coordination broadcast: an object whose `event` is "startup_coordination". */
  predicate IsStartupEvent(payload: Option<Json>) {
    payload.Some? && Get(payload.value, "event").Some? && AsStr(Get(payload.value, "event").value) == Some("startup_coordination")
  }

  function CountStartupEvents(messages: seq<Option<Json>>): (n: nat)
    ensures n <= |messages|
    ensures n == 0 <==> forall i | 0 <= i < |messages| :: !IsStartupEvent(messages[i])
  {
    if messages == [] then 0
    else
      var init := messages[..|messages| - 1];
      assert forall i | 0 <= i < |init| :: init[i] == messages[i];
      CountStartupEvents(init) + if IsStartupEvent(messages[|messages| - 1]) then 1 else 0
  }

  /** A startup event is never a reshard signal, whatever else the message holds. */
  lemma StartupEventIsNotReshard(payload: Option<Json>)
    requires IsStartupEvent(payload)
    ensures ReshardCount(payload).None?
  {
    assert "startup_coordination"[0] != "reshard"[0];
  }

  /**
   * `listen_for_startup_coordination`: subscribe and log each startup
   * broadcast. It only reads the manager's worker id, so no message can
   * change the manager; it returns how many broadcasts it processed.
   */
  method ListenForStartupCoordination(manager: ShardManager, subscribeError: Option<string>, messages: seq<Option<Json>>)
    returns (r: Outcome<string>, processed: nat)
    ensures subscribeError.Some? ==> r == Fail(subscribeError.value) && processed == 0
    ensures subscribeError.None? ==> r.Pass? && processed == CountStartupEvents(messages)
  {
    processed := 0;
    if subscribeError.Some? {
      return Fail(subscribeError.value), processed;
    }
    var i := 0;
    while i < |messages|
      invariant 0 <= i <= |messages|
      invariant processed == CountStartupEvents(messages[..i])
    {
      assert messages[..i + 1][..i] == messages[..i];
      if IsStartupEvent(messages[i]) {
        var workerId := manager.WorkerId();
        processed := processed + 1;
      }
      i := i + 1;
    }
    assert messages[..|messages|] == messages;
    return Pass, processed;
  }

  /** The operator's startup broadcast is a startup event and never reshards a worker. */
  lemma StartupBroadcastDoesNotReshard(clusterName: string, maxConcurrency: U32, totalShards: U32,
                                       groups: seq<CrustTypes.ShardGroup>, timestamp: string)
    ensures var v := Some(StartupCoordination(clusterName, maxConcurrency, totalShards, groups, timestamp));
      IsStartupEvent(v) && ReshardCount(v).None?
  {
  }

  /** A message a shard task publishes. */
  datatype Publication = Publication(subject: string, payload: Json)

  const REQUEST_SUBJECT: string := "discord.startup.request"
  const COMPLETE_SUBJECT: string := "discord.startup.complete"

  function ShardMessage(action: string, workerId: string, shardId: U32, timestamp: U64): Json {
    Obj(map["action" := Str(action), "worker_id" := Str(workerId), "shard_id" := PosInt(shardId),
            "timestamp" := PosInt(timestamp)])
  }

  /** `request_startup_permission`: `timestamp` is the send time in seconds since the epoch. */
  function StartupRequest(workerId: string, shardId: U32, timestamp: U64): (p: Publication)
    ensures p.subject == REQUEST_SUBJECT && p.payload.Obj?
    ensures Get(p.payload, "action") == Some(Str("request_startup"))
    ensures Get(p.payload, "worker_id") == Some(Str(workerId)) && Get(p.payload, "shard_id") == Some(PosInt(shardId))
  {
    Publication(REQUEST_SUBJECT, ShardMessage("request_startup", workerId, shardId, timestamp))
  }

  /** `notify_startup_complete`: `timestamp` is the send time in seconds since the epoch. */
  function StartupComplete(workerId: string, shardId: U32, timestamp: U64): (p: Publication)
    ensures p.subject == COMPLETE_SUBJECT && p.payload.Obj?
    ensures Get(p.payload, "action") == Some(Str("startup_complete"))
    ensures Get(p.payload, "worker_id") == Some(Str(workerId)) && Get(p.payload, "shard_id") == Some(PosInt(shardId))
  {
    Publication(COMPLETE_SUBJECT, ShardMessage("startup_complete", workerId, shardId, timestamp))
  }

  /**
   * The two shard-task messages go to different subjects, and neither is
   * mistaken for a reshard signal or a startup broadcast.
   */
  lemma ShardMessagesAreDistinct(workerId: string, shardId: U32, timestamp: U64)
    ensures StartupRequest(workerId, shardId, timestamp).subject != StartupComplete(workerId, shardId, timestamp).subject
    ensures ReshardCount(Some(StartupRequest(workerId, shardId, timestamp).payload)).None?
    ensures ReshardCount(Some(StartupComplete(workerId, shardId, timestamp).payload)).None?
    ensures !IsStartupEvent(Some(StartupRequest(workerId, shardId, timestamp).payload))
  {
    assert REQUEST_SUBJECT[18] != COMPLETE_SUBJECT[18];
  }
}
