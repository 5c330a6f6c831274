/** pkg/routes: the older request handler. It validates with the older
    validator, derives one application name from the deployment, and waits
    for that application to go OutOfSync and then come back Synced and
    Healthy, ignoring the image. */
module Routes {
  import opened Wrappers
  import opened Text
  import opened Argo
  import opened Http
  import Deploy
  import Validation

  /** The application is looked up in the `argocd` namespace. */
  const Namespace := "argocd"

  /** A fixed five-minute timeout, in nanoseconds. */
  const Timeout: int := 5 * Minute

  /** The application name: system, application name, cluster type and
      environment joined with hyphens. */
  function AppName(d: Deploy.Deployment): (name: string)
    ensures |name| == |d.system| + |d.applicationName| + |d.clusterType| + |d.environment| + 3
  {
    d.system + "-" + d.applicationName + "-" + d.clusterType + "-" + d.environment
  }

  /** When no part holds a hyphen, the four parts can be read back from the
      name, so distinct deployments get distinct names. */
  lemma AppNameParts(d: Deploy.Deployment)
    requires '-' !in d.system && '-' !in d.applicationName
    requires '-' !in d.clusterType && '-' !in d.environment
    ensures Split(AppName(d), '-') == [d.system, d.applicationName, d.clusterType, d.environment]
  {
    var parts := [d.system, d.applicationName, d.clusterType, d.environment];
    Join3(d.system, d.applicationName, d.clusterType, "-");
    JoinAppend([d.system, d.applicationName, d.clusterType], [d.environment], "-");
    assert parts == [d.system, d.applicationName, d.clusterType] + [d.environment];
    assert Join(parts, "-") == AppName(d);
    SplitJoin(parts, '-');
  }

  /** Hyphens are allowed inside a system or application name, so two
      different valid deployments can share one application name. */
  lemma AppNameCollides()
    ensures var d := Deploy.Deployment("c", "a-b", "d", "e", "img");
      var e := Deploy.Deployment("b-c", "a", "d", "e", "img");
      && d != e
      && Deploy.ValidateDeployment(Some(d)).Success?
      && Deploy.ValidateDeployment(Some(e)).Success?
      && AppName(d) == AppName(e)
  {
  }

  /** The loop's outcome from the given events, with `seen` recording
      whether an OutOfSync state has been observed; statuses that cannot be
      read count as "" (`None` is success). Only the timeout, the closed
      channel and the context can end it with an error. */
  function RunEvents(seen: bool, events: seq<Event>): (r: Option<WatchError>)
    ensures r.Some? ==> r.value.TimedOut? || r.value.ClosedUnexpectedly? || r.value.ContextError?
    decreases |events|
  {
    if |events| == 0 then Some(TimedOut)
    else
      match events[0]
      case ContextDone(reason) => Some(ContextError(reason))
      case Closed => Some(ClosedUnexpectedly)
      case TimerFired => Some(TimedOut)
      case NotUnstructured => RunEvents(seen, events[1..])
      case Object(app) =>
        var sync := StringOrEmpty(app.syncStatus);
        var health := StringOrEmpty(app.healthStatus);
        var seen' := seen || sync == "OutOfSync";
        if seen' && sync == "Synced" && health == "Healthy" then None
        else RunEvents(seen', events[1..])
  }

  /** The outcome of watching the application called `name`. */
  function WatchResult(name: string, getError: Option<string>, stream: WatchStream): Option<WatchError>
  {
    if getError.Some? then Some(GetFailed(name, Namespace, getError.value))
    else if stream.openError.Some? then Some(WatchFailed(stream.openError.value))
    else RunEvents(false, stream.events)
  }

  /** An event after which the loop keeps waiting, whatever it holds. */
  predicate Quiet(e: Event)
  {
    e.NotUnstructured? || e.Object?
  }

  /** An object event reporting the given sync status. */
  predicate ShowsSync(e: Event, status: string)
  {
    e.Object? && StringOrEmpty(e.app.syncStatus) == status
  }

  /** An object event reporting Synced and Healthy. */
  predicate SyncedHealthy(e: Event)
  {
    ShowsSync(e, "Synced") && StringOrEmpty(e.app.healthStatus) == "Healthy"
  }

  /** Event `j` reports Synced and Healthy, an OutOfSync report came before
      it (or had already been seen), and nothing before it ended the loop. */
  predicate ConvergesAt(seen: bool, events: seq<Event>, j: int)
    requires 0 <= j < |events|
  {
    && SyncedHealthy(events[j])
    && (seen || exists i | 0 <= i < j :: ShowsSync(events[i], "OutOfSync"))
    && forall i | 0 <= i < j :: Quiet(events[i])
  }

  /** The watch succeeds exactly when the loop reaches such an event. */
  lemma RunEventsConverges(seen: bool, events: seq<Event>)
    ensures RunEvents(seen, events) == None <==>
      exists j | 0 <= j < |events| :: ConvergesAt(seen, events, j)
  {
    if RunEvents(seen, events) == None {
      var j := ConvergedEvent(seen, events);
    }
    if exists j | 0 <= j < |events| :: ConvergesAt(seen, events, j) {
      var j :| 0 <= j < |events| && ConvergesAt(seen, events, j);
      ConvergesAtSucceeds(seen, events, j);
    }
  }

  /** A successful watch names the event it stopped at. */
  lemma {:induction false} ConvergedEvent(seen: bool, events: seq<Event>) returns (j: int)
    requires RunEvents(seen, events) == None
    ensures 0 <= j < |events| && ConvergesAt(seen, events, j)
    decreases |events|
  {
    var e := events[0];
    var rest := events[1..];
    var seen' := seen || ShowsSync(e, "OutOfSync");
    if SyncedHealthy(e) && seen' {
      // a Synced report is not an OutOfSync one, so `seen` already held
      j := 0;
    } else {
      var k := ConvergedEvent(seen', rest);
      j := k + 1;
      assert events[j] == rest[k];
      forall i | 0 <= i < j ensures Quiet(events[i]) {
        if i > 0 { assert events[i] == rest[i - 1]; }
      }
      if !seen {
        if ShowsSync(e, "OutOfSync") {
          assert ShowsSync(events[0], "OutOfSync");
        } else {
          var i :| 0 <= i < k && ShowsSync(rest[i], "OutOfSync");
          assert events[i + 1] == rest[i];
        }
      }
    }
  }

  /** Reaching such an event ends the watch in success. */
  lemma {:induction false} ConvergesAtSucceeds(seen: bool, events: seq<Event>, j: int)
    requires 0 <= j < |events| && ConvergesAt(seen, events, j)
    ensures RunEvents(seen, events) == None
    decreases |events|
  {
    var e := events[0];
    var rest := events[1..];
    var seen' := seen || ShowsSync(e, "OutOfSync");
    if j > 0 && !(SyncedHealthy(e) && seen') {
      assert Quiet(e);
      assert rest[j - 1] == events[j];
      forall i | 0 <= i < j - 1 ensures Quiet(rest[i]) {
        assert rest[i] == events[i + 1];
      }
      if !seen' {
        var i :| 0 <= i < j && ShowsSync(events[i], "OutOfSync");
        assert rest[i - 1] == events[i];
      }
      ConvergesAtSucceeds(seen', rest, j - 1);
    }
  }

  /** `watchApplicationLifecycle`: gets the application, opens a watch on
      its name, and loops until it has gone OutOfSync and come back Synced
      and Healthy, the channel closes, the timer fires or the context ends. */
  method WatchApplicationLifecycle(name: string, getError: Option<string>, stream: WatchStream)
    returns (err: Option<WatchError>)
    ensures err == WatchResult(name, getError, stream)
  {
    if getError.Some? {
      return Some(GetFailed(name, Namespace, getError.value));
    }
    if stream.openError.Some? {
      return Some(WatchFailed(stream.openError.value));
    }
    var events := stream.events;
    var seenOutOfSync := false;
    var i := 0;
    while i < |events|
      invariant 0 <= i <= |events|
      invariant RunEvents(seenOutOfSync, events[i..]) == RunEvents(false, events)
    {
      assert events[i..][1..] == events[i + 1..];
      match events[i] {
        case ContextDone(reason) =>
          return Some(ContextError(reason));
        case Closed =>
          return Some(ClosedUnexpectedly);
        case TimerFired =>
          return Some(TimedOut);
        case NotUnstructured =>
        case Object(app) =>
          var syncStatus := StringOrEmpty(app.syncStatus);
          var healthStatus := StringOrEmpty(app.healthStatus);
          if syncStatus == "OutOfSync" {
            seenOutOfSync := true;
          }
          if seenOutOfSync && syncStatus == "Synced" && healthStatus == "Healthy" {
            return None;
          }
      }
      i := i + 1;
    }
    return Some(TimedOut);
  }

  /** `PostDeployment`. Outside local mode the token header is required and
      checked (`tokenCheck` gives the checker's error, if any); then the
      bound body (`body`, the binder's error on failure) is validated, and
      the application named after it is looked up (`getError`) and watched
      (`watch`) with the five-minute timeout. Success writes no body. */
  method PostDeployment(
    local: bool,
    tokenHeader: string,
    tokenCheck: string -> Option<string>,
    body: Result<Deploy.Deployment, string>,
    getError: string -> Option<string>,
    watch: (string, int) -> WatchStream) returns (resp: Response)
    ensures !local && tokenHeader == "" ==> resp == Json(400, "error", MissingTokenMessage)
    ensures (!local && tokenHeader != "" && tokenCheck(tokenHeader).Some?) ==>
      resp == Json(403, "error", "invalid token: " + tokenCheck(tokenHeader).value)
    ensures (local || (tokenHeader != "" && tokenCheck(tokenHeader).None?)) ==>
      match body
      case Failure(e) => resp == Json(400, "error", "invalid deployment: " + e)
      case Success(v) =>
        match Deploy.ValidateDeployment(Some(v))
        case Failure(e) => resp == Json(400, "error", "invalid deployment: " + Validation.Message(e))
        case Success(_) =>
          match WatchResult(AppName(v), getError(AppName(v)), watch(AppName(v), Timeout))
          case Some(e) => resp == Json(500, "error", "failed to watch application lifecycle: " + WatchMessage(e))
          case None => resp == NoBody
  {
    if !local {
      if tokenHeader == "" {
        return Json(400, "error", MissingTokenMessage);
      }
      var tokenErr := tokenCheck(tokenHeader);
      if tokenErr.Some? {
        return Json(403, "error", "invalid token: " + tokenErr.value);
      }
    }

    if body.Failure? {
      return Json(400, "error", "invalid deployment: " + body.error);
    }
    var validated := Deploy.ValidateDeployment(Some(body.value));
    if validated.Failure? {
      return Json(400, "error", "invalid deployment: " + Validation.Message(validated.error));
    }

    var appName := AppName(validated.value.deployment);
    var err := WatchApplicationLifecycle(appName, getError(appName), watch(appName, Timeout));
    if err.Some? {
      return Json(500, "error", "failed to watch application lifecycle: " + WatchMessage(err.value));
    }
    return NoBody;
  }
}
