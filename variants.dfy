/** How the two request paths differ: the newer validator against the older
    one, and the image-match watcher against the OutOfSync-then-Synced
    watcher. */
module Variants {
  import opened Wrappers
  import opened Argo
  import Model
  import Deploy
  import Handler
  import Routes

  /** The older deployment record holding the same fields. */
  function Legacy(v: Model.DeploymentValue): Deploy.Deployment
  {
    Deploy.Deployment(v.applicationName, v.system, v.clusterType, v.environment, v.image)
  }

  /** The newer validator runs the older one's seven checks in the same
      order and adds the image-format check: whatever the older one rejects,
      the newer one rejects with the same error, and the newer one accepts
      exactly what the older one accepts and the image check lets through. */
  lemma ValidatorsAgree(v: Model.DeploymentValue)
    ensures Deploy.ValidateDeployment(Some(Legacy(v))).Failure? ==>
      Model.Canonicalize(v) == Failure(Deploy.ValidateDeployment(Some(Legacy(v))).error)
    ensures Model.Canonicalize(v).Success? <==>
      Deploy.ValidateDeployment(Some(Legacy(v))).Success? && !Model.Rejects(v, 8)
  {
  }

  /** An application that is already Synced, Healthy and on the requested
      image: the newer watcher stops at its first report, while the older
      one ignores it because it never saw OutOfSync, and times out. */
  lemma AlreadyHealthyDiverges(image: string, app: Application)
    requires Handler.ConvergedOn(image, app)
    ensures Handler.RunEvents(image, [Object(app)]) == None
    ensures Routes.RunEvents(false, [Object(app)]) == Some(TimedOut)
  {
  }

  /** Without an OutOfSync report the older watcher never succeeds. */
  lemma {:induction false} NoOutOfSyncNeverConverges(events: seq<Event>)
    requires forall i | 0 <= i < |events| :: !Routes.ShowsSync(events[i], "OutOfSync")
    ensures Routes.RunEvents(false, events) != None
    decreases |events|
  {
    if |events| > 0 {
      NoOutOfSyncNeverConverges(events[1..]);
    }
  }
}
