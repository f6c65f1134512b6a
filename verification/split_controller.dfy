/**
 * The reconcile of the split workspace crate (crust-controller). It makes
 * the same decisions as the one in crates/crust, except that it fetches
 * gateway info through a shared HTTP client and so reads no token secret.
 */
module SplitController {
  import opened Wrappers
  import opened CrustTypes
  import Controller
  import Text

  /** `reconcile` (crust-controller): the skip window, gateway info, then publish. */
  function Reconcile(cluster: ShardCluster, now: int, replies: Controller.Replies): (r: Controller.Reconciliation)
    requires Controller.GatewayFits(cluster, replies)
    ensures Controller.RecentlyResharded(cluster, now) ==>
      r == Controller.Reconciliation(Success(Controller.Requeue(Controller.SKIP_REQUEUE_SECS)), [])
    ensures !Controller.RecentlyResharded(cluster, now) ==> |r.effects| >= 1 && r.effects[0] == Controller.FetchGatewayInfo
    ensures forall e | e in r.effects :: !e.ReadToken?
  {
    if Controller.RecentlyResharded(cluster, now) then
      Controller.Reconciliation(Success(Controller.Requeue(Controller.SKIP_REQUEUE_SECS)), [])
    else if replies.gateway.Failure? then
      Controller.Reconciliation(Failure(replies.gateway.error), [Controller.FetchGatewayInfo])
    else
      Controller.Publish(cluster, now, replies, replies.gateway.value, [Controller.FetchGatewayInfo])
  }

  /**
   * The two reconciles agree: when the token read succeeds, the crates/crust
   * reconcile returns the same result and issues the same calls, preceded by
   * the token read whenever it does not skip.
   */
  lemma AgreesWithController(cluster: ShardCluster, now: int, replies: Controller.Replies, token: string)
    requires Controller.GatewayFits(cluster, replies)
    ensures var full := Controller.Reconcile(cluster, now, replies.(token := Success(token)));
      var split := Reconcile(cluster, now, replies);
      && full.result == split.result
      && full.effects == if Controller.RecentlyResharded(cluster, now) then split.effects
                         else [Controller.ReadToken(Controller.Namespace(cluster), cluster.spec.discordTokenSecret)] + split.effects
  {
  }

  /** `error_policy` (crust-controller) is the same back-off choice. */
  function ErrorPolicy(message: string): (a: Controller.Action)
    ensures a == Controller.Requeue(Controller.RATE_LIMIT_REQUEUE_SECS) <==>
            Text.Contains(message, "429") || Text.Contains(message, "rate limit")
    ensures a == Controller.Requeue(Controller.RATE_LIMIT_REQUEUE_SECS) || a == Controller.Requeue(Controller.ERROR_REQUEUE_SECS)
  {
    Controller.ErrorPolicy(message)
  }
}
