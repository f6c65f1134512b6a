/**
 * The operator's deployments: the record built for each shard group and the
 * pass that makes the cluster's managed deployments match the plan, over an
 * abstract name-to-deployment store standing for the Kubernetes API.
 */
module Deployments {
  import opened Wrappers
  import opened Decimal
  import opened CrustTypes

  datatype EnvSource = Literal(value: string) | SecretKeyRef(secretName: string, key: string)

  datatype EnvVar = EnvVar(name: string, source: EnvSource)

  datatype Container = Container(
    name: string,
    image: string,
    imagePullPolicy: string,
    env: seq<EnvVar>,
    containerPort: int,
    portName: string)

  /** The parts of a Kubernetes Deployment the operator sets. */
  datatype Deployment = Deployment(
    name: string,
    namespace: string,
    labels: map<string, string>,
    replicas: I32,
    selector: map<string, string>,
    templateLabels: map<string, string>,
    containers: seq<Container>)

  /** The labels every managed deployment carries, and the list call selects on. */
  predicate Managed(d: Deployment, clusterName: string) {
    && "managed-by" in d.labels && d.labels["managed-by"] == "crust-operator"
    && "app" in d.labels && d.labels["app"] == "stratum"
    && "cluster" in d.labels && d.labels["cluster"] == clusterName
  }

  /** The first entry of `env` called `name`. */
  function LookupEnv(env: seq<EnvVar>, name: string): (r: Option<EnvSource>)
    ensures r.Some? <==> exists i :: 0 <= i < |env| && env[i].name == name
  {
    if env == [] then None
    else if env[0].name == name then Some(env[0].source)
    else
      var r := LookupEnv(env[1..], name);
      assert forall i :: 1 <= i < |env| ==> env[i] == env[1..][i - 1];
      r
  }

  function GroupLabels(clusterName: string, groupName: string): map<string, string> {
    map["app" := "stratum", "shard-group" := groupName, "managed-by" := "crust-operator", "cluster" := clusterName]
  }

  function WorkerEnv(cluster: ShardCluster, group: ShardGroup, totalShards: U32, maxConcurrency: U32): seq<EnvVar> {
    [ EnvVar("NATS_URL", Literal(cluster.spec.natsUrl)),
      EnvVar("SHARD_ID_START", Literal(NatToString(group.shardStart))),
      EnvVar("SHARD_ID_END", Literal(NatToString(group.shardEnd))),
      EnvVar("TOTAL_SHARDS", Literal(NatToString(totalShards))),
      EnvVar("WORKER_ID", Literal(group.deploymentName)),
      EnvVar("MAX_CONCURRENCY", Literal(NatToString(maxConcurrency))),
      EnvVar("DISCORD_TOKEN", SecretKeyRef(cluster.spec.discordTokenSecret, "token")) ]
  }

  /**
   * `create_deployment_spec`: the deployment that runs one worker for
   * `group`. It never fails.
   */
  function CreateDeploymentSpec(cluster: ShardCluster, group: ShardGroup, namespace: string,
                                totalShards: U32, maxConcurrency: U32): (r: Result<Deployment, string>)
    ensures r.Success?
    ensures r.value.name == group.deploymentName && r.value.namespace == namespace
    ensures r.value.replicas == group.replicas
    ensures r.value.selector == r.value.templateLabels == r.value.labels
    ensures Managed(r.value, cluster.name)
    ensures "shard-group" in r.value.labels && r.value.labels["shard-group"] == group.deploymentName
    ensures |r.value.containers| == 1 && r.value.containers[0].image == cluster.spec.image
    ensures r.value.containers[0].name == "stratum" && r.value.containers[0].imagePullPolicy == "Never"
    ensures r.value.containers[0].containerPort == 8080 && r.value.containers[0].portName == "metrics"
    ensures WorkerEnvOk(r.value.containers[0].env, cluster, group, totalShards, maxConcurrency)
  {
    var labels := GroupLabels(cluster.name, group.deploymentName);
    var env := WorkerEnv(cluster, group, totalShards, maxConcurrency);
    WorkerEnvLookups(cluster, group, totalShards, maxConcurrency);
    var container := Container("stratum", cluster.spec.image, "Never", env, 8080, "metrics");
    Success(Deployment(group.deploymentName, namespace, labels, group.replicas, labels, labels, [container]))
  }

  /** The lookup finds the first entry with the name. */
  lemma {:induction false} LookupFirst(env: seq<EnvVar>, i: nat, name: string)
    requires i < |env| && env[i].name == name
    requires forall j :: 0 <= j < i ==> env[j].name != name
    ensures LookupEnv(env, name) == Some(env[i].source)
    decreases i
  {
    if i > 0 {
      LookupFirst(env[1..], i - 1, name);
    }
  }

  /** No two entries set the same variable. */
  predicate DistinctNames(env: seq<EnvVar>) {
    forall i, j | 0 <= i < j < |env| :: env[i].name != env[j].name
  }

  /** The worker's environment sets each of its seven variables once. */
  lemma WorkerEnvNamesDistinct(cluster: ShardCluster, group: ShardGroup, totalShards: U32, maxConcurrency: U32)
    ensures DistinctNames(WorkerEnv(cluster, group, totalShards, maxConcurrency))
  {
    var env := WorkerEnv(cluster, group, totalShards, maxConcurrency);
    var names := ["NATS_URL", "SHARD_ID_START", "SHARD_ID_END", "TOTAL_SHARDS", "WORKER_ID", "MAX_CONCURRENCY", "DISCORD_TOKEN"];
    assert forall k :: 0 <= k < 7 ==> env[k].name == names[k];
    assert "SHARD_ID_START"[9] != "SHARD_ID_END"[9];
    assert forall k, j :: 0 <= j < k < 7 ==> names[j] != names[k] by {
      assert names[0][0] == 'N' && names[1][0] == 'S' && names[2][0] == 'S' && names[3][0] == 'T';
      assert names[4][0] == 'W' && names[5][0] == 'M' && names[6][0] == 'D';
    }
  }

  lemma WorkerEnvLookups(cluster: ShardCluster, group: ShardGroup, totalShards: U32, maxConcurrency: U32)
    ensures WorkerEnvOk(WorkerEnv(cluster, group, totalShards, maxConcurrency), cluster, group, totalShards, maxConcurrency)
  {
    var env := WorkerEnv(cluster, group, totalShards, maxConcurrency);
    var names := ["NATS_URL", "SHARD_ID_START", "SHARD_ID_END", "TOTAL_SHARDS", "WORKER_ID", "MAX_CONCURRENCY", "DISCORD_TOKEN"];
    assert forall k :: 0 <= k < 7 ==> env[k].name == names[k];
    WorkerEnvNamesDistinct(cluster, group, totalShards, maxConcurrency);
    LookupFirst(env, 0, names[0]);
    LookupFirst(env, 1, names[1]);
    LookupFirst(env, 2, names[2]);
    LookupFirst(env, 3, names[3]);
    LookupFirst(env, 4, names[4]);
    LookupFirst(env, 5, names[5]);
    LookupFirst(env, 6, names[6]);
  }

  /** What each variable of the worker's environment resolves to. */
  predicate WorkerEnvOk(env: seq<EnvVar>, cluster: ShardCluster, group: ShardGroup, totalShards: U32, maxConcurrency: U32) {
      && LookupEnv(env, "WORKER_ID") == Some(Literal(group.deploymentName))
      && LookupEnv(env, "SHARD_ID_START") == Some(Literal(NatToString(group.shardStart)))
      && LookupEnv(env, "SHARD_ID_END") == Some(Literal(NatToString(group.shardEnd)))
      && LookupEnv(env, "TOTAL_SHARDS") == Some(Literal(NatToString(totalShards)))
      && LookupEnv(env, "MAX_CONCURRENCY") == Some(Literal(NatToString(maxConcurrency)))
      && LookupEnv(env, "NATS_URL") == Some(Literal(cluster.spec.natsUrl))
      && LookupEnv(env, "DISCORD_TOKEN") == Some(SecretKeyRef(cluster.spec.discordTokenSecret, "token"))
  }

  /**
   * A JSON merge patch of `desired` onto `current`: label maps are merged
   * (the patch's entries win), scalars and the container list are replaced.
   */
  function MergePatch(current: Deployment, desired: Deployment): (r: Deployment)
    ensures forall c :: Managed(desired, c) ==> Managed(r, c)
    ensures r.name == desired.name && r.containers == desired.containers && r.replicas == desired.replicas
  {
    Deployment(desired.name, desired.namespace, current.labels + desired.labels, desired.replicas,
               current.selector + desired.selector, current.templateLabels + desired.templateLabels,
               desired.containers)
  }

  /** Names of the deployments the list call with the cluster's label selector returns. */
  function ManagedNames(store: map<string, Deployment>, clusterName: string): set<string> {
    set n | n in store && Managed(store[n], clusterName)
  }

  function GroupNames(groups: seq<ShardGroup>): set<string> {
    set g | g in groups :: g.deploymentName
  }

  /** The store after `d` was merged into its namesake, or created if there was none. */
  function Upsert(store: map<string, Deployment>, d: Deployment): map<string, Deployment> {
    if d.name in store then store[d.name := MergePatch(store[d.name], d)] else store[d.name := d]
  }

  /** The store after one group's deployment was patched (if present) or created (if absent). */
  function ApplyGroup(store: map<string, Deployment>, cluster: ShardCluster, group: ShardGroup,
                      namespace: string, totalShards: U32, maxConcurrency: U32): map<string, Deployment>
  {
    Upsert(store, CreateDeploymentSpec(cluster, group, namespace, totalShards, maxConcurrency).value)
  }

  /** The store after the groups were applied in order. */
  function ApplyGroups(store: map<string, Deployment>, cluster: ShardCluster, groups: seq<ShardGroup>,
                       namespace: string, totalShards: U32, maxConcurrency: U32): map<string, Deployment>
    decreases |groups|
  {
    if groups == [] then store
    else
      ApplyGroup(ApplyGroups(store, cluster, groups[..|groups| - 1], namespace, totalShards, maxConcurrency),
                 cluster, groups[|groups| - 1], namespace, totalShards, maxConcurrency)
  }

  lemma ApplyGroupsPrefix(store: map<string, Deployment>, cluster: ShardCluster, groups: seq<ShardGroup>, i: nat,
                          namespace: string, totalShards: U32, maxConcurrency: U32)
    requires i < |groups|
    ensures ApplyGroups(store, cluster, groups[..i + 1], namespace, totalShards, maxConcurrency)
         == ApplyGroup(ApplyGroups(store, cluster, groups[..i], namespace, totalShards, maxConcurrency),
                       cluster, groups[i], namespace, totalShards, maxConcurrency)
  {
    assert groups[..i + 1][..i] == groups[..i];
  }

  /** Managed names that are not group names: what the pass deletes. */
  function Stale(store: map<string, Deployment>, clusterName: string, groups: seq<ShardGroup>): set<string> {
    ManagedNames(store, clusterName) - GroupNames(groups)
  }

  /**
   * `after` holds the names of `store` and `names`, each of `names` a
   * managed deployment of the cluster, and every other entry as it was.
   */
  ghost predicate Extends(store: map<string, Deployment>, after: map<string, Deployment>, names: set<string>, clusterName: string) {
    && after.Keys == store.Keys + names
    && (forall n :: n in names ==> Managed(after[n], clusterName))
    && (forall n :: n in store && n !in names ==> after[n] == store[n])
  }

  lemma ExtendsTrans(s0: map<string, Deployment>, s1: map<string, Deployment>, s2: map<string, Deployment>,
                     n1: set<string>, n2: set<string>, clusterName: string)
    requires Extends(s0, s1, n1, clusterName) && Extends(s1, s2, n2, clusterName)
    ensures Extends(s0, s2, n1 + n2, clusterName)
  {
    forall n | n in n1 + n2
      ensures Managed(s2[n], clusterName)
    {
      if n !in n2 {
        assert s2[n] == s1[n];
      }
    }
  }

  lemma ApplyGroupEffect(store: map<string, Deployment>, cluster: ShardCluster, group: ShardGroup,
                         namespace: string, totalShards: U32, maxConcurrency: U32)
    ensures Extends(store, ApplyGroup(store, cluster, group, namespace, totalShards, maxConcurrency),
                    {group.deploymentName}, cluster.name)
  {
  }

  lemma GroupNamesSnoc(gs: seq<ShardGroup>)
    requires gs != []
    ensures GroupNames(gs) == GroupNames(gs[..|gs| - 1]) + {gs[|gs| - 1].deploymentName}
  {
    var init, last := gs[..|gs| - 1], gs[|gs| - 1];
    assert gs == init + [last];
    forall n | n in GroupNames(gs)
      ensures n in GroupNames(init) + {last.deploymentName}
    {
      var g :| g in gs && g.deploymentName == n;
    }
    forall n | n in GroupNames(init)
      ensures n in GroupNames(gs)
    {
      var g :| g in init && g.deploymentName == n;
      assert g in gs;
    }
    assert last in gs;
  }

  /**
   * Applying the groups adds exactly their names, leaves the entries of
   * other names alone, and leaves every group's deployment managed.
   */
  lemma {:induction false} ApplyGroupsEffect(store: map<string, Deployment>, cluster: ShardCluster, groups: seq<ShardGroup>,
                                             namespace: string, totalShards: U32, maxConcurrency: U32)
    ensures Extends(store, ApplyGroups(store, cluster, groups, namespace, totalShards, maxConcurrency),
                    GroupNames(groups), cluster.name)
    decreases |groups|
  {
    if groups == [] {
      assert GroupNames(groups) == {};
    } else {
      var init := groups[..|groups| - 1];
      var last := groups[|groups| - 1];
      var mid := ApplyGroups(store, cluster, init, namespace, totalShards, maxConcurrency);
      var after := ApplyGroup(mid, cluster, last, namespace, totalShards, maxConcurrency);
      assert ApplyGroups(store, cluster, groups, namespace, totalShards, maxConcurrency) == after;
      GroupNamesSnoc(groups);
      ApplyGroupsEffect(store, cluster, init, namespace, totalShards, maxConcurrency);
      ApplyGroupEffect(mid, cluster, last, namespace, totalShards, maxConcurrency);
      ExtendsTrans(store, mid, after, GroupNames(init), {last.deploymentName}, cluster.name);
    }
  }

  /**
   * After a successful pass the cluster's managed deployments are exactly
   * the groups' names; deployments that are not the cluster's are untouched.
   */
  lemma ManagedNamesAfterPass(store: map<string, Deployment>, cluster: ShardCluster, groups: seq<ShardGroup>,
                              namespace: string, totalShards: U32, maxConcurrency: U32)
    ensures var after := ApplyGroups(store, cluster, groups, namespace, totalShards, maxConcurrency)
                         - Stale(store, cluster.name, groups);
      && ManagedNames(after, cluster.name) == GroupNames(groups)
      && (forall n :: n in store && n !in GroupNames(groups) && !Managed(store[n], cluster.name) ==>
            n in after && after[n] == store[n])
  {
    ApplyGroupsEffect(store, cluster, groups, namespace, totalShards, maxConcurrency);
  }

  datatype ApiCall = ListCall | GetCall(name: string) | PatchCall(name: string) | CreateCall(name: string) | DeleteCall(name: string)

  /**
   * The deployments of one namespace as the API server holds them. Calls in
   * `failing` are answered with an error (a network fault, a denied request);
   * beyond that, patching or deleting a missing name and creating an existing
   * one fail as the API server does.
   */
  class DeploymentApi {
    var deployments: map<string, Deployment>
    const failing: set<ApiCall>

    constructor (deployments: map<string, Deployment>, failing: set<ApiCall>)
      ensures this.deployments == deployments && this.failing == failing
    {
      this.deployments := deployments;
      this.failing := failing;
    }

    method List(clusterName: string) returns (r: Result<set<string>, string>)
      ensures r.Success? <==> ListCall !in failing
      ensures r.Success? ==> r.value == ManagedNames(deployments, clusterName)
    {
      if ListCall in failing {
        return Failure("list failed");
      }
      return Success(ManagedNames(deployments, clusterName));
    }

    method Get(name: string) returns (r: Result<Deployment, string>)
      ensures r.Success? <==> name in deployments && GetCall(name) !in failing
      ensures r.Success? ==> r.value == deployments[name]
    {
      if name !in deployments || GetCall(name) in failing {
        return Failure("get failed");
      }
      return Success(deployments[name]);
    }

    method Patch(name: string, d: Deployment) returns (r: Outcome<string>)
      modifies this
      ensures r.Pass? <==> name in old(deployments) && PatchCall(name) !in failing
      ensures deployments == if r.Pass? then old(deployments)[name := MergePatch(old(deployments)[name], d)]
                             else old(deployments)
    {
      if name !in deployments || PatchCall(name) in failing {
        return Fail("patch failed");
      }
      deployments := deployments[name := MergePatch(deployments[name], d)];
      return Pass;
    }

    method Create(d: Deployment) returns (r: Outcome<string>)
      modifies this
      ensures r.Pass? <==> d.name !in old(deployments) && CreateCall(d.name) !in failing
      ensures deployments == if r.Pass? then old(deployments)[d.name := d] else old(deployments)
    {
      if d.name in deployments || CreateCall(d.name) in failing {
        return Fail("create failed");
      }
      deployments := deployments[d.name := d];
      return Pass;
    }

    method Delete(name: string) returns (r: Outcome<string>)
      modifies this
      ensures r.Pass? <==> name in old(deployments) && DeleteCall(name) !in failing
      ensures deployments == if r.Pass? then old(deployments) - {name} else old(deployments)
    {
      if name !in deployments || DeleteCall(name) in failing {
        return Fail("delete failed");
      }
      deployments := deployments - {name};
      return Pass;
    }
  }

  /**
   * One turn of the group loop: read the deployment; patch it when the read
   * succeeds, create it otherwise.
   */
  method UpsertDeployment(api: DeploymentApi, d: Deployment) returns (r: Outcome<string>)
    modifies api
    ensures api.deployments == if r.Pass? then Upsert(old(api.deployments), d) else old(api.deployments)
  {
    var existing := api.Get(d.name);
    if existing.Success? {
      r := api.Patch(d.name, d);
    } else {
      r := api.Create(d);
    }
  }

  /** The deletion loop: delete each of `stale`, stopping at the first failure. */
  method DeleteStale(api: DeploymentApi, stale: set<string>) returns (r: Outcome<string>, ghost deleted: set<string>)
    requires stale <= api.deployments.Keys
    modifies api
    ensures deleted <= stale
    ensures api.deployments == old(api.deployments) - deleted
    ensures r.Pass? ==> deleted == stale
  {
    deleted := {};
    var remaining := stale;
    while remaining != {}
      invariant remaining <= stale && deleted == stale - remaining
      invariant remaining <= api.deployments.Keys
      invariant api.deployments == old(api.deployments) - deleted
      decreases |remaining|
    {
      var name :| name in remaining;
      ghost var before := api.deployments;
      var removed := api.Delete(name);
      if removed.Fail? {
        return removed, deleted;
      }
      assert before - {name} == old(api.deployments) - (deleted + {name});
      remaining := remaining - {name};
      deleted := deleted + {name};
    }
    return Pass, deleted;
  }

  /**
   * The group loop: patch or create each group's deployment in order,
   * stopping at the first failure after `handled` groups were applied.
   */
  method UpsertGroups(api: DeploymentApi, cluster: ShardCluster, namespace: string,
                      groups: seq<ShardGroup>, totalShards: U32, maxConcurrency: U32)
    returns (r: Outcome<string>, ghost handled: nat)
    modifies api
    ensures handled <= |groups| && (r.Pass? <==> handled == |groups|)
    ensures api.deployments ==
      ApplyGroups(old(api.deployments), cluster, groups[..handled], namespace, totalShards, maxConcurrency)
  {
    ghost var initial := api.deployments;
    var i := 0;
    assert groups[..0] == [];
    while i < |groups|
      invariant 0 <= i <= |groups|
      invariant api.deployments == ApplyGroups(initial, cluster, groups[..i], namespace, totalShards, maxConcurrency)
    {
      var deployment := CreateDeploymentSpec(cluster, groups[i], namespace, totalShards, maxConcurrency).value;
      r := UpsertDeployment(api, deployment);
      if r.Fail? {
        return r, i;
      }
      ApplyGroupsPrefix(initial, cluster, groups, i, namespace, totalShards, maxConcurrency);
      i := i + 1;
    }
    return Pass, i;
  }

  /**
   * `create_or_update_deployments`: list the cluster's managed deployments,
   * patch or create one per group in order, then delete the listed names that
   * are no group's. The first failing call ends the pass: `handled` groups
   * were applied before it and `deleted` names removed, nothing else changed.
   */
  method CreateOrUpdateDeployments(api: DeploymentApi, cluster: ShardCluster, namespace: string,
                                   groups: seq<ShardGroup>, totalShards: U32, maxConcurrency: U32)
    returns (r: Outcome<string>, ghost handled: nat, ghost deleted: set<string>)
    modifies api
    ensures handled <= |groups|
    ensures deleted <= Stale(old(api.deployments), cluster.name, groups)
    ensures handled < |groups| ==> deleted == {}
    ensures api.deployments ==
      ApplyGroups(old(api.deployments), cluster, groups[..handled], namespace, totalShards, maxConcurrency) - deleted
    ensures r.Pass? ==> handled == |groups| && deleted == Stale(old(api.deployments), cluster.name, groups)
  {
    ghost var initial := api.deployments;
    deleted := {};
    var listed := api.List(cluster.name);
    if listed.Failure? {
      assert groups[..0] == [];
      assert initial - {} == initial;
      return Fail(listed.error), 0, deleted;
    }
    var existingNames := listed.value;
    var newNames := GroupNames(groups);
    r, handled := UpsertGroups(api, cluster, namespace, groups, totalShards, maxConcurrency);
    if r.Fail? {
      assert api.deployments - {} == api.deployments;
      return r, handled, deleted;
    }
    assert groups[..|groups|] == groups;
    ApplyGroupsEffect(initial, cluster, groups, namespace, totalShards, maxConcurrency);
    r, deleted := DeleteStale(api, existingNames - newNames);
  }
}
