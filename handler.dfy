/** internal/handler: the request gate of `PostDeployment`, the label
    selector, the resolution of a deployment to Argo CD applications, the
    per-application watch loop (image-match variant) and the fan-in of the
    watchers' errors. */
module Handler {
  import opened Wrappers
  import opened Text
  import opened Argo
  import opened Http
  import Model
  import Validation

  // ---------------------------------------------------------------------
  // getLabelSelector
  // ---------------------------------------------------------------------

  /** `getLabelSelector`: system, application and environment labels, plus
      the cluster type unless every cluster is to be checked. */
  function LabelSelector(d: Model.DeploymentValue): string
  {
    var base := ("elvia.no/system=" + d.system)
      + "," + ("elvia.no/application=" + d.applicationName)
      + "," + ("kubernetes.io/environment=" + d.environment);
    if !d.checkAllClusters then base + "," + ("elvia.no/cluster-type=" + d.clusterType) else base
  }

  /** The `key=value` requirements the selector is meant to hold. */
  function SelectorTerms(d: Model.DeploymentValue): seq<string>
  {
    ["elvia.no/system=" + d.system,
     "elvia.no/application=" + d.applicationName,
     "kubernetes.io/environment=" + d.environment]
    + (if !d.checkAllClusters then ["elvia.no/cluster-type=" + d.clusterType] else [])
  }

  /** Read back at its commas, the selector holds exactly the intended
      requirements, with the cluster type present exactly when
      `CheckAllClusters` is false (as long as no value holds a comma). */
  lemma LabelSelectorTerms(d: Model.DeploymentValue)
    requires ',' !in d.system && ',' !in d.applicationName
    requires ',' !in d.environment && ',' !in d.clusterType
    ensures Split(LabelSelector(d), ',') == SelectorTerms(d)
    ensures |SelectorTerms(d)| == (if d.checkAllClusters then 3 else 4)
  {
    var terms := SelectorTerms(d);
    LabelSelectorJoin(d);
    forall i | 0 <= i < |terms| ensures ',' !in terms[i] {
      TermFree(d, i);
    }
    SplitJoin(terms, ',');
  }

  /** Validation checks the characters of the system and application names
      only, so a comma in the environment reaches the selector, and the
      selector then no longer reads back as the intended requirements. */
  lemma LabelSelectorCommaBreaks(d: Model.DeploymentValue)
    requires ',' in d.environment
    ensures Split(LabelSelector(d), ',') != SelectorTerms(d)
  {
    var prefix := "kubernetes.io/environment=";
    var i :| 0 <= i < |d.environment| && d.environment[i] == ',';
    assert (prefix + d.environment)[|prefix| + i] == ',';
    assert ',' in SelectorTerms(d)[2];
  }

  /** Such an environment passes validation. */
  lemma CommaEnvironmentValidates(d: Model.DeploymentValue)
    requires d.system == "core" && d.applicationName == "demo-api" && d.clusterType == "aks"
    requires d.environment == "dev,x" && d.image == "demo-api:" + d.environment + "@sha256"
    ensures Model.Canonicalize(d) == Success(d)
  {
    assert IsName("core") && IsName("demo-api");
    ContainsMiddle("demo-api:", d.environment, "@sha256");
  }

  /** Each requirement is free of commas when the values are. */
  lemma TermFree(d: Model.DeploymentValue, i: int)
    requires ',' !in d.system && ',' !in d.applicationName
    requires ',' !in d.environment && ',' !in d.clusterType
    requires 0 <= i < |SelectorTerms(d)|
    ensures ',' !in SelectorTerms(d)[i]
  {
  }

  /** The selector is the requirements joined with commas. */
  lemma LabelSelectorJoin(d: Model.DeploymentValue)
    ensures Join(SelectorTerms(d), ",") == LabelSelector(d)
  {
    var t0 := "elvia.no/system=" + d.system;
    var t1 := "elvia.no/application=" + d.applicationName;
    var t2 := "kubernetes.io/environment=" + d.environment;
    if !d.checkAllClusters {
      var t3 := "elvia.no/cluster-type=" + d.clusterType;
      Join4(t0, t1, t2, t3, ",");
      assert SelectorTerms(d) == [t0, t1, t2, t3];
    } else {
      Join3(t0, t1, t2, ",");
      assert SelectorTerms(d) == [t0, t1, t2];
    }
  }

  // ---------------------------------------------------------------------
  // resolution in watchApplicationsLifecycle
  // ---------------------------------------------------------------------

  datatype ResolveError =
    | ListFailed(cause: string)
    | NotFound
    | Ambiguous
    | NameUnreadable(reason: string)

  function ResolveMessage(e: ResolveError): string
  {
    match e
    case ListFailed(c) => "failed to get application for deployment: " + c
    case NotFound => "application(s) not found"
    case Ambiguous => "multiple applications found when only one was expected"
    case NameUnreadable(r) => "failed to get application name: " + r
  }

  /** The names of the listed applications in list order, skipping those
      without `metadata.name`; the first unreadable name aborts. */
  function TargetNames(items: seq<Application>): (r: Result<seq<string>, string>)
    ensures r.Success? ==> |r.value| <= |items|
  {
    if |items| == 0 then Success([])
    else
      match TargetNames(items[..|items| - 1])
      case Failure(e) => Failure(e)
      case Success(names) =>
        match items[|items| - 1].name
        case Absent => Success(names)
        case Malformed(e) => Failure(e)
        case Found(n) => Success(names + [n])
  }

  /** Once a prefix of the list has an unreadable name, so has the list. */
  lemma {:induction false} TargetNamesFailurePersists(items: seq<Application>, k: nat)
    requires k <= |items| && TargetNames(items[..k]).Failure?
    ensures TargetNames(items) == TargetNames(items[..k])
    decreases |items| - k
  {
    if k < |items| {
      assert items[..k + 1][..k] == items[..k];
      TargetNamesFailurePersists(items, k + 1);
    } else {
      assert items[..k] == items;
    }
  }

  /** The names are read in full exactly when no name is unreadable; then a
      string is a target exactly when some listed application carries it as
      its name. */
  lemma {:induction false} TargetNamesSpec(items: seq<Application>)
    ensures TargetNames(items).Success? <==> forall i | 0 <= i < |items| :: !items[i].name.Malformed?
    ensures TargetNames(items).Success? ==>
      forall n :: n in TargetNames(items).value <==> exists i | 0 <= i < |items| :: items[i].name == Found(n)
    decreases |items|
  {
    if |items| > 0 {
      var init := items[..|items| - 1];
      TargetNamesSpec(init);
      assert forall i | 0 <= i < |init| :: init[i] == items[i];
    }
  }

  /** The 0 / 1 / many rule, then the names. */
  function Resolve(d: Model.DeploymentValue, listing: Result<seq<Application>, string>): (r: Result<seq<string>, ResolveError>)
    ensures listing.Failure? ==> r == Failure(ListFailed(listing.error))
    ensures listing.Success? && |listing.value| == 0 ==> r == Failure(NotFound)
    ensures listing.Success? && |listing.value| > 1 && !d.checkAllClusters ==> r == Failure(Ambiguous)
    ensures r.Success? ==>
      && listing.Success?
      && (|listing.value| == 1 || (|listing.value| > 1 && d.checkAllClusters))
      && TargetNames(listing.value) == Success(r.value)
    ensures listing.Success? && |listing.value| > 0 && (|listing.value| == 1 || d.checkAllClusters) ==>
      r == match TargetNames(listing.value)
        case Success(names) => Success(names)
        case Failure(e) => Failure(NameUnreadable(e))
  {
    match listing
    case Failure(e) => Failure(ListFailed(e))
    case Success(items) =>
      if |items| == 0 then Failure(NotFound)
      else if |items| > 1 && !d.checkAllClusters then Failure(Ambiguous)
      else
        match TargetNames(items)
        case Failure(e) => Failure(NameUnreadable(e))
        case Success(names) => Success(names)
  }

  /** With `CheckAllClusters` set, every listed application with a name is a
      target, however many there are. */
  lemma ResolveAllClusters(d: Model.DeploymentValue, items: seq<Application>)
    requires d.checkAllClusters && |items| > 0
    requires forall i | 0 <= i < |items| :: items[i].name.Found?
    ensures Resolve(d, Success(items)).Success?
    ensures |Resolve(d, Success(items)).value| == |items|
  {
    AllNamed(items);
  }

  lemma {:induction false} AllNamed(items: seq<Application>)
    requires forall i | 0 <= i < |items| :: items[i].name.Found?
    ensures TargetNames(items).Success? && |TargetNames(items).value| == |items|
    decreases |items|
  {
    if |items| > 0 {
      AllNamed(items[..|items| - 1]);
    }
  }

  // ---------------------------------------------------------------------
  // watchApplicationLifecycle: one application, image-match variant
  // ---------------------------------------------------------------------

  /** What one object event means to the loop. */
  datatype Decision = Continue | Converge | Fail(error: WatchError)

  /** Every field the loop reads is there, with exactly one image. */
  predicate Readable(app: Application)
  {
    && app.systemLabel.Found? && app.applicationLabel.Found?
    && app.environmentLabel.Found? && app.clusterTypeLabel.Found?
    && app.syncStatus.Found? && app.healthStatus.Found?
    && app.images.Found? && |app.images.value| == 1
  }

  /** Synced, Healthy and running exactly the requested image. */
  predicate ConvergedOn(image: string, app: Application)
  {
    && Readable(app)
    && app.syncStatus.value == "Synced"
    && app.healthStatus.value == "Healthy"
    && app.images.value == [image]
  }

  /** The decision for one unstructured object: a missing label, status or
      image list, or an image count other than one, is an error; otherwise
      the loop stops exactly when the application has converged on `image`. */
  function Decide(image: string, app: Application): (r: Decision)
    ensures r.Fail? <==> !Readable(app)
    ensures r == Converge <==> ConvergedOn(image, app)
  {
    if !app.systemLabel.Found? then Fail(FieldMissing("system label", Cause(app.systemLabel)))
    else if !app.applicationLabel.Found? then Fail(FieldMissing("application label", Cause(app.applicationLabel)))
    else if !app.environmentLabel.Found? then Fail(FieldMissing("environment label", Cause(app.environmentLabel)))
    else if !app.clusterTypeLabel.Found? then Fail(FieldMissing("cluster-type label", Cause(app.clusterTypeLabel)))
    else if !app.syncStatus.Found? then Fail(FieldMissing("sync status", Cause(app.syncStatus)))
    else if !app.healthStatus.Found? then Fail(FieldMissing("health status", Cause(app.healthStatus)))
    else if !app.images.Found? then Fail(FieldMissing("current images", Cause(app.images)))
    else if |app.images.value| != 1 then Fail(ImageCount(|app.images.value|))
    else if app.syncStatus.value == "Synced" && app.healthStatus.value == "Healthy"
      && app.images.value[0] == image then Converge
    else Continue
  }

  /** The outcome of the loop over `events` (`None` is success). */
  function RunEvents(image: string, events: seq<Event>): Option<WatchError>
    decreases |events|
  {
    if |events| == 0 then Some(TimedOut)
    else
      match events[0]
      case ContextDone(reason) => Some(ContextError(reason))
      case Closed => Some(ClosedUnexpectedly)
      case TimerFired => Some(TimedOut)
      case NotUnstructured => RunEvents(image, events[1..])
      case Object(app) =>
        match Decide(image, app)
        case Continue => RunEvents(image, events[1..])
        case Converge => None
        case Fail(e) => Some(e)
  }

  /** The outcome of watching one application. */
  function WatchResult(image: string, stream: WatchStream): Option<WatchError>
  {
    if stream.openError.Some? then Some(WatchFailed(stream.openError.value))
    else RunEvents(image, stream.events)
  }

  /** An event after which the loop keeps waiting. */
  predicate Passes(image: string, e: Event)
  {
    e.NotUnstructured? || (e.Object? && Decide(image, e.app) == Continue)
  }

  /** The watch succeeds exactly when some event shows the application
      converged on the image and every earlier event only kept the loop
      going. */
  lemma {:induction false} RunEventsConverges(image: string, events: seq<Event>)
    ensures RunEvents(image, events) == None <==>
      exists k | 0 <= k < |events| ::
        && events[k].Object? && ConvergedOn(image, events[k].app)
        && forall j | 0 <= j < k :: Passes(image, events[j])
    decreases |events|
  {
    if |events| > 0 {
      var rest := events[1..];
      RunEventsConverges(image, rest);
      if RunEvents(image, events) == None {
        if !(events[0].Object? && ConvergedOn(image, events[0].app)) {
          assert Passes(image, events[0]);
          var k :| 0 <= k < |rest| && rest[k].Object? && ConvergedOn(image, rest[k].app)
            && forall j | 0 <= j < k :: Passes(image, rest[j]);
          assert forall j | 0 <= j < k + 1 :: Passes(image, events[j]) by {
            forall j | 0 <= j < k + 1 ensures Passes(image, events[j]) {
              if j > 0 { assert events[j] == rest[j - 1]; }
            }
          }
          assert events[k + 1] == rest[k];
        }
      }
    }
  }

  /** `watchApplicationLifecycle`: opens the watch, then takes events one by
      one until the application converges on the requested image, a field is
      missing, the channel closes, the timer fires or the context ends. */
  method WatchApplicationLifecycle(image: string, stream: WatchStream) returns (err: Option<WatchError>)
    ensures err == WatchResult(image, stream)
  {
    if stream.openError.Some? {
      return Some(WatchFailed(stream.openError.value));
    }
    var events := stream.events;
    var i := 0;
    while i < |events|
      invariant 0 <= i <= |events|
      invariant RunEvents(image, events[i..]) == RunEvents(image, events)
    {
      assert events[i..][1..] == events[i + 1..];
      match events[i] {
        case ContextDone(reason) =>
          return Some(ContextError(reason));
        case Closed =>
          return Some(ClosedUnexpectedly);
        case TimerFired =>
          return Some(TimedOut);
        case NotUnstructured =>
        case Object(app) =>
          var decision := Decide(image, app);
          if decision.Fail? {
            return Some(decision.error);
          }
          if decision == Converge {
            return None;
          }
      }
      i := i + 1;
    }
    return Some(TimedOut);
  }

  // ---------------------------------------------------------------------
  // fan-out and fan-in in watchApplicationsLifecycle
  // ---------------------------------------------------------------------

  /** The error a failed watcher sends: prefixed with its application name. */
  function FailureMessage(name: string, e: WatchError): string
  {
    "failed to watch " + name + ": " + WatchMessage(e)
  }

  /** The errors the watchers of `names` send, in the order of `names`;
      `watch(n, t)` is the watch opened on `n` with timeout `t`. */
  function FailureMessages(image: string, names: seq<string>, watch: (string, int) -> WatchStream, timeout: int): seq<string>
    decreases |names|
  {
    if |names| == 0 then []
    else
      var n := names[|names| - 1];
      var r := WatchResult(image, watch(n, timeout));
      FailureMessages(image, names[..|names| - 1], watch, timeout)
        + (if r.Some? then [FailureMessage(n, r.value)] else [])
  }

  lemma {:induction false} FailureMessagesAppend(image: string, a: seq<string>, b: seq<string>, watch: (string, int) -> WatchStream, timeout: int)
    ensures FailureMessages(image, a + b, watch, timeout)
      == FailureMessages(image, a, watch, timeout) + FailureMessages(image, b, watch, timeout)
    decreases |b|
  {
    if |b| > 0 {
      assert (a + b)[..|a + b| - 1] == a + b[..|b| - 1];
      FailureMessagesAppend(image, a, b[..|b| - 1], watch, timeout);
    } else {
      assert a + b == a;
    }
  }

  /** Whatever order the watchers finish in, the same errors are sent. */
  lemma {:induction false} FailureMessagesReordered(image: string, xs: seq<string>, ys: seq<string>, watch: (string, int) -> WatchStream, timeout: int)
    requires multiset(xs) == multiset(ys)
    ensures multiset(FailureMessages(image, xs, watch, timeout)) == multiset(FailureMessages(image, ys, watch, timeout))
    decreases |ys|
  {
    if |ys| == 0 {
      assert |xs| == |multiset(xs)| == 0;
    } else {
      var y := ys[|ys| - 1];
      var ys' := ys[..|ys| - 1];
      assert ys == ys' + [y];
      assert y in multiset(xs);
      var i :| 0 <= i < |xs| && xs[i] == y;
      var xs' := xs[..i] + xs[i + 1..];
      assert xs == xs[..i] + [y] + xs[i + 1..];
      assert multiset(xs) == multiset(xs[..i]) + multiset{y} + multiset(xs[i + 1..]);
      assert multiset(ys) == multiset(ys') + multiset{y};
      assert multiset(xs') == multiset(xs[..i]) + multiset(xs[i + 1..]);
      assert multiset(xs') == multiset(xs) - multiset{y};
      assert multiset(ys') == multiset(ys) - multiset{y};
      assert multiset(xs') == multiset(ys');
      FailureMessagesReordered(image, xs', ys', watch, timeout);
      FailureMessagesAppend(image, xs[..i] + [y], xs[i + 1..], watch, timeout);
      FailureMessagesAppend(image, xs[..i], [y], watch, timeout);
      FailureMessagesAppend(image, xs[..i], xs[i + 1..], watch, timeout);
      FailureMessagesAppend(image, ys', [y], watch, timeout);
    }
  }

  /** No error is sent exactly when every watcher succeeds. */
  lemma {:induction false} FailureMessagesEmpty(image: string, names: seq<string>, watch: (string, int) -> WatchStream, timeout: int)
    ensures FailureMessages(image, names, watch, timeout) == [] <==>
      forall n | n in names :: WatchResult(image, watch(n, timeout)) == None
    decreases |names|
  {
    if |names| > 0 {
      var init := names[..|names| - 1];
      FailureMessagesEmpty(image, init, watch, timeout);
      assert names == init + [names[|names| - 1]];
    }
  }

  /** The fold of the error channel: nothing, or every error in arrival order
      joined with "; ". */
  function Combined(errs: seq<string>): (r: Option<string>)
    ensures r.None? <==> |errs| == 0
    ensures r.Some? ==> forall k | 0 <= k < |errs| :: Contains(r.value, errs[k])
  {
    if |errs| == 0 then None
    else
      assert forall k | 0 <= k < |errs| :: Contains(Join(errs, "; "), errs[k]) by {
        forall k | 0 <= k < |errs| ensures Contains(Join(errs, "; "), errs[k]) {
          JoinContainsPiece(errs, "; ", k);
        }
      }
      Some(Join(errs, "; "))
  }

  /** The watchers may finish in any order: `order(names)` lists the target
      names in the order their errors reach the channel, so it holds each
      name exactly as often as `names` does. */
  ghost predicate IsSchedule(order: seq<string> -> seq<string>)
  {
    forall names: seq<string> :: multiset(order(names)) == multiset(names)
  }

  /** The applications the `List` call returns for the deployment's label
      selector. */
  function Listed(d: Model.DeploymentValue, list: string -> Result<seq<Application>, string>): Result<seq<Application>, string>
  {
    list(LabelSelector(d))
  }

  /** The result of `watchApplicationsLifecycle` (`None` is success). */
  function Lifecycle(
    d: Model.DeploymentValue,
    list: string -> Result<seq<Application>, string>,
    watch: (string, int) -> WatchStream,
    timeout: int,
    order: seq<string> -> seq<string>): Option<string>
  {
    match Resolve(d, Listed(d, list))
    case Failure(e) => Some(ResolveMessage(e))
    case Success(names) => Combined(FailureMessages(d.image, order(names), watch, timeout))
  }

  /** The request succeeds exactly when resolution succeeds and every
      target's watcher succeeds; in particular when no listed application
      has a name, no watcher runs and the result is success. */
  lemma LifecycleSucceeds(
    d: Model.DeploymentValue,
    list: string -> Result<seq<Application>, string>,
    watch: (string, int) -> WatchStream,
    timeout: int,
    order: seq<string> -> seq<string>)
    requires IsSchedule(order)
    ensures Lifecycle(d, list, watch, timeout, order) == None <==>
      && Resolve(d, Listed(d, list)).Success?
      && forall n | n in Resolve(d, Listed(d, list)).value :: WatchResult(d.image, watch(n, timeout)) == None
  {
    if Resolve(d, Listed(d, list)).Success? {
      var names := Resolve(d, Listed(d, list)).value;
      FailureMessagesEmpty(d.image, order(names), watch, timeout);
      assert multiset(order(names)) == multiset(names);
      assert forall n :: n in names <==> n in order(names) by {
        assert forall n :: n in names <==> n in multiset(names);
        assert forall n :: n in order(names) <==> n in multiset(order(names));
      }
    }
  }

  /** A failing watcher's error is among those sent. */
  lemma FailureMessagesHas(image: string, names: seq<string>, watch: (string, int) -> WatchStream, timeout: int, i: int)
    requires 0 <= i < |names| && WatchResult(image, watch(names[i], timeout)).Some?
    ensures FailureMessage(names[i], WatchResult(image, watch(names[i], timeout)).value)
      in FailureMessages(image, names, watch, timeout)
  {
  }

  /** When every watcher of `names` succeeds, no error is sent. */
  lemma {:induction false} FailureMessagesNone(image: string, names: seq<string>, watch: (string, int) -> WatchStream, timeout: int)
    requires forall j | 0 <= j < |names| :: WatchResult(image, watch(names[j], timeout)) == None
    ensures FailureMessages(image, names, watch, timeout) == []
    decreases |names|
  {
    if |names| > 0 {
      FailureMessagesNone(image, names[..|names| - 1], watch, timeout);
    }
  }

  /** The errors of a single watcher. */
  lemma FailureMessagesSingle(image: string, n: string, watch: (string, int) -> WatchStream, timeout: int)
    ensures var r := WatchResult(image, watch(n, timeout));
      FailureMessages(image, [n], watch, timeout) == if r.Some? then [FailureMessage(n, r.value)] else []
  {
  }

  /** When only one watcher fails, its error is the only one sent. */
  lemma FailureMessagesOnly(image: string, names: seq<string>, watch: (string, int) -> WatchStream, timeout: int, i: int)
    requires 0 <= i < |names| && WatchResult(image, watch(names[i], timeout)).Some?
    requires forall j | 0 <= j < |names| && j != i :: WatchResult(image, watch(names[j], timeout)) == None
    ensures FailureMessages(image, names, watch, timeout)
      == [FailureMessage(names[i], WatchResult(image, watch(names[i], timeout)).value)]
  {
    var n := names[i];
    var msg := FailureMessage(n, WatchResult(image, watch(n, timeout)).value);
    var before, after := names[..i], names[i + 1..];
    forall j | 0 <= j < |before| ensures WatchResult(image, watch(before[j], timeout)) == None {
      assert before[j] == names[j];
    }
    forall j | 0 <= j < |after| ensures WatchResult(image, watch(after[j], timeout)) == None {
      assert after[j] == names[i + 1 + j];
    }
    FailureMessagesNone(image, before, watch, timeout);
    FailureMessagesNone(image, after, watch, timeout);
    FailureMessagesSingle(image, n, watch, timeout);
    calc {
      FailureMessages(image, names, watch, timeout);
      { assert names == (before + [n]) + after; }
      FailureMessages(image, (before + [n]) + after, watch, timeout);
      { FailureMessagesAppend(image, before + [n], after, watch, timeout); }
      FailureMessages(image, before + [n], watch, timeout) + FailureMessages(image, after, watch, timeout);
      { FailureMessagesAppend(image, before, [n], watch, timeout); }
      [] + [msg] + [];
      [msg];
    }
  }

  /** Every failed target appears, named, in the combined error. */
  lemma LifecycleReportsEachFailure(
    d: Model.DeploymentValue,
    list: string -> Result<seq<Application>, string>,
    watch: (string, int) -> WatchStream,
    timeout: int,
    order: seq<string> -> seq<string>,
    n: string)
    requires IsSchedule(order)
    requires Resolve(d, Listed(d, list)).Success? && n in Resolve(d, Listed(d, list)).value
    requires WatchResult(d.image, watch(n, timeout)).Some?
    ensures Lifecycle(d, list, watch, timeout, order).Some?
    ensures Contains(Lifecycle(d, list, watch, timeout, order).value,
      FailureMessage(n, WatchResult(d.image, watch(n, timeout)).value))
  {
    var names := Resolve(d, Listed(d, list)).value;
    var msg := FailureMessage(n, WatchResult(d.image, watch(n, timeout)).value);
    var i :| 0 <= i < |names| && names[i] == n;
    FailureMessagesHas(d.image, names, watch, timeout, i);
    FailureMessagesReordered(d.image, order(names), names, watch, timeout);
    var errs := FailureMessages(d.image, order(names), watch, timeout);
    assert msg in multiset(errs);
    var k :| 0 <= k < |errs| && errs[k] == msg;
    JoinContainsPiece(errs, "; ", k);
  }

  /** When exactly one target fails, the error names that target alone. */
  lemma LifecycleSingleFailure(
    d: Model.DeploymentValue,
    list: string -> Result<seq<Application>, string>,
    watch: (string, int) -> WatchStream,
    timeout: int,
    order: seq<string> -> seq<string>,
    i: nat)
    requires IsSchedule(order)
    requires Resolve(d, Listed(d, list)).Success? && i < |Resolve(d, Listed(d, list)).value|
    requires WatchResult(d.image, watch(Resolve(d, Listed(d, list)).value[i], timeout)).Some?
    requires forall j | 0 <= j < |Resolve(d, Listed(d, list)).value| && j != i ::
      WatchResult(d.image, watch(Resolve(d, Listed(d, list)).value[j], timeout)) == None
    ensures var n := Resolve(d, Listed(d, list)).value[i];
      Lifecycle(d, list, watch, timeout, order)
        == Some(FailureMessage(n, WatchResult(d.image, watch(n, timeout)).value))
  {
    var names := Resolve(d, Listed(d, list)).value;
    FailureMessagesOnly(d.image, names, watch, timeout, i);
    FailureMessagesReordered(d.image, order(names), names, watch, timeout);
    var errs := FailureMessages(d.image, order(names), watch, timeout);
    assert |errs| == |multiset(errs)| == 1;
    assert errs[0] in multiset(errs);
  }

  /** The name-collecting loop: list order, skipping unnamed entries,
      stopping at the first unreadable name. */
  method CollectNames(items: seq<Application>) returns (r: Result<seq<string>, string>)
    ensures r == TargetNames(items)
  {
    var names: seq<string> := [];
    var i := 0;
    while i < |items|
      invariant 0 <= i <= |items|
      invariant TargetNames(items[..i]) == Success(names)
    {
      assert items[..i + 1][..i] == items[..i];
      match items[i].name {
        case Malformed(reason) =>
          TargetNamesFailurePersists(items, i + 1);
          return Failure(reason);
        case Absent =>
        case Found(n) =>
          names := names + [n];
      }
      i := i + 1;
    }
    assert items[..i] == items;
    return Success(names);
  }

  /** The watchers, taken in the order they finish: each failure sends its
      prefixed error to the channel. */
  method RunWatchers(image: string, order: seq<string>, watch: (string, int) -> WatchStream, timeout: int)
    returns (errCh: seq<string>)
    ensures errCh == FailureMessages(image, order, watch, timeout)
  {
    errCh := [];
    var k := 0;
    while k < |order|
      invariant 0 <= k <= |order|
      invariant errCh == FailureMessages(image, order[..k], watch, timeout)
    {
      var name := order[k];
      assert order[..k + 1][..k] == order[..k];
      var e := WatchApplicationLifecycle(image, watch(name, timeout));
      if e.Some? {
        errCh := errCh + [FailureMessage(name, e.value)];
      }
      k := k + 1;
    }
    assert order[..k] == order;
  }

  /** The fold over the closed channel: the first error, then each later one
      appended after "; ". */
  method CombineErrors(errCh: seq<string>) returns (combined: Option<string>)
    ensures combined == Combined(errCh)
  {
    combined := None;
    var j := 0;
    while j < |errCh|
      invariant 0 <= j <= |errCh|
      invariant combined == Combined(errCh[..j])
    {
      assert errCh[..j + 1] == errCh[..j] + [errCh[j]];
      if combined.None? {
        combined := Some(errCh[j]);
      } else {
        JoinSnoc(errCh[..j], errCh[j], "; ");
        combined := Some(combined.value + "; " + errCh[j]);
      }
      j := j + 1;
    }
    assert errCh[..j] == errCh;
  }

  /** `watchApplicationsLifecycle`: lists the applications, applies the
      0 / 1 / many rule, collects the names in list order, runs one watcher
      per name (finishing in the order `order` gives), and folds their errors
      into one. */
  method WatchApplicationsLifecycle(
    d: Model.DeploymentValue,
    list: string -> Result<seq<Application>, string>,
    watch: (string, int) -> WatchStream,
    timeout: int,
    order: seq<string> -> seq<string>) returns (err: Option<string>)
    requires IsSchedule(order)
    ensures err == Lifecycle(d, list, watch, timeout, order)
  {
    var listing := list(LabelSelector(d));
    if listing.Failure? {
      return Some(ResolveMessage(ListFailed(listing.error)));
    }
    var items := listing.value;
    if |items| == 0 {
      return Some(ResolveMessage(NotFound));
    }
    if |items| > 1 && !d.checkAllClusters {
      return Some(ResolveMessage(Ambiguous));
    }
    var names := CollectNames(items);
    if names.Failure? {
      return Some(ResolveMessage(NameUnreadable(names.error)));
    }
    var errCh := RunWatchers(d.image, order(names.value), watch, timeout);
    err := CombineErrors(errCh);
  }

  // ---------------------------------------------------------------------
  // PostDeployment
  // ---------------------------------------------------------------------

  /** Tokens are checked unless running locally, or when forced on for tests. */
  predicate AuthRequired(local: bool, testingEnableOidc: bool)
  {
    !local || testingEnableOidc
  }

  const DefaultTimeout: int := 3 * Minute

  /** The `X-Timeout` header: its parsed duration, or three minutes when it
      is absent or does not parse. */
  function RequestTimeout(header: string, parseDuration: string -> Option<int>): (t: int)
    ensures header == "" ==> t == DefaultTimeout
    ensures header != "" && parseDuration(header).None? ==> t == DefaultTimeout
    ensures header != "" && parseDuration(header).Some? ==> t == parseDuration(header).value
  {
    if header == "" then DefaultTimeout
    else match parseDuration(header)
      case None => DefaultTimeout
      case Some(t) => t
  }

  const SuccessMessage := "Application successfully deployed!"

  /** `PostDeployment`. The token check (key set `keyFunc`, verifier
      `verify`, clock `now`) runs first and, when it rejects, nothing else is
      looked at; then the bound body (`body`, the binder's error on failure)
      is validated, the timeout chosen, and the applications watched. */
  method PostDeployment<K>(
    local: bool,
    testingEnableOidc: bool,
    tokenHeader: string,
    keyFunc: Result<K, string>,
    verify: (K, string) -> Result<Model.TokenClaims, string>,
    now: int,
    body: Result<Model.DeploymentValue, string>,
    timeoutHeader: string,
    parseDuration: string -> Option<int>,
    list: string -> Result<seq<Application>, string>,
    watch: (string, int) -> WatchStream,
    order: seq<string> -> seq<string>) returns (resp: Response)
    requires IsSchedule(order)
    ensures AuthRequired(local, testingEnableOidc) && tokenHeader == "" ==>
      resp == Json(400, "error", MissingTokenMessage)
    ensures (AuthRequired(local, testingEnableOidc) && tokenHeader != ""
             && Model.ValidateToken(keyFunc, verify, tokenHeader, now).Failure?) ==>
      resp == Json(403, "error", "invalid token: "
        + Model.TokenMessage(Model.ValidateToken(keyFunc, verify, tokenHeader, now).error))
    ensures (!AuthRequired(local, testingEnableOidc)
             || (tokenHeader != "" && Model.ValidateToken(keyFunc, verify, tokenHeader, now).Success?)) ==>
      match body
      case Failure(e) => resp == Json(400, "error", "invalid deployment: " + e)
      case Success(v) =>
        match Model.Canonicalize(v)
        case Failure(e) => resp == Json(400, "error", "invalid deployment: " + Validation.Message(e))
        case Success(d) =>
          match Lifecycle(d, list, watch, RequestTimeout(timeoutHeader, parseDuration), order)
          case Some(e) => resp == Json(500, "error", e)
          case None => resp == Json(200, "message", SuccessMessage)
  {
    if AuthRequired(local, testingEnableOidc) {
      if tokenHeader == "" {
        return Json(400, "error", MissingTokenMessage);
      }
      var claims := Model.ValidateToken(keyFunc, verify, tokenHeader, now);
      if claims.Failure? {
        return Json(403, "error", "invalid token: " + Model.TokenMessage(claims.error));
      }
    }

    if body.Failure? {
      return Json(400, "error", "invalid deployment: " + body.error);
    }
    var deployment := new Model.Deployment(body.value);
    var validated := Model.ValidateDeployment(deployment);
    if validated.Failure? {
      return Json(400, "error", "invalid deployment: " + Validation.Message(validated.error));
    }
    var d := validated.value.deployment.Value();

    var timeout := RequestTimeout(timeoutHeader, parseDuration);
    var err := WatchApplicationsLifecycle(d, list, watch, timeout, order);
    if err.Some? {
      return Json(500, "error", err.value);
    }
    return Json(200, "message", SuccessMessage);
  }
}
