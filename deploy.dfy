/** pkg/deploy: the older deployment validator (deploy.go), which only checks
    and never rewrites the image, and the manifest path built from a validated
    deployment (git.go). */
module Deploy {
  import opened Wrappers
  import opened Text
  import opened Validation

  // ---------------------------------------------------------------------
  // deploy.go
  // ---------------------------------------------------------------------

  datatype Deployment = Deployment(
    applicationName: string,
    system: string,
    clusterType: string,
    environment: string,
    image: string)

  /** Certifies that the wrapped deployment passed validation. */
  datatype ValidatedDeployment = ValidatedDeployment(deployment: Deployment)

  /** Whether check number `stage` (1 to 7) of the chain rejects `d`. */
  predicate Rejects(d: Deployment, stage: nat)
  {
    match stage
    case 1 => d.system == ""
    case 2 => d.applicationName == ""
    case 3 => !IsName(d.system)
    case 4 => !IsName(d.applicationName)
    case 5 => d.clusterType == ""
    case 6 => d.environment == ""
    case 7 => d.image == ""
    case _ => false
  }

  /** `ValidateDeployment` (a nil pointer is `None`): the first failing check
      decides the error; on success the same deployment comes back, unchanged. */
  function ValidateDeployment(d: Option<Deployment>): (r: Result<ValidatedDeployment, ValidationError>)
    ensures d.None? ==> r == Failure(DeploymentNil)
    ensures r.Success? ==> d.Some? && r.value.deployment == d.value
    ensures r.Success? ==> forall s | 1 <= s <= 7 :: !Rejects(d.value, s)
    ensures d.Some? && r.Failure? ==>
      && 1 <= Stage(r.error) <= 7
      && Rejects(d.value, Stage(r.error))
      && forall s | 1 <= s < Stage(r.error) :: !Rejects(d.value, s)
  {
    match d
    case None => Failure(DeploymentNil)
    case Some(d) =>
      if d.system == "" then Failure(SystemRequired)
      else if d.applicationName == "" then Failure(ApplicationNameRequired)
      else if !IsName(d.system) then Failure(SystemNameInvalid)
      else if !IsName(d.applicationName) then Failure(ApplicationNameInvalid)
      else if d.clusterType == "" then Failure(ClusterTypeRequired)
      else if d.environment == "" then Failure(EnvironmentRequired)
      else if d.image == "" then Failure(ImageRequired)
      else Success(ValidatedDeployment(d))
  }

  /** Rejection examples: an underscore in the system, a path in the
      application name or the system, a slash in the application name. */
  lemma ValidateDeploymentRejectsExamples(d: Deployment)
    ensures ValidateDeployment(Some(d.(system := "core_1", applicationName := "demo-api"))) == Failure(SystemNameInvalid)
    ensures ValidateDeployment(Some(d.(system := "core", applicationName := "../demo-api"))) == Failure(ApplicationNameInvalid)
    ensures ValidateDeployment(Some(d.(system := "../test-system", applicationName := "test-app"))) == Failure(SystemNameInvalid)
    ensures ValidateDeployment(Some(d.(system := "test-system", applicationName := "test/app"))) == Failure(ApplicationNameInvalid)
  {
    assert !IsNameChar("core_1"[4]);
    assert !IsNameChar("../demo-api"[0]);
    assert !IsNameChar("../test-system"[0]);
    assert !IsNameChar("test/app"[4]);
    assert IsName("core") && IsName("demo-api") && IsName("test-system") && IsName("test-app");
  }

  // ---------------------------------------------------------------------
  // git.go
  // ---------------------------------------------------------------------

  const ManifestRoot := "/tmp/argocd"
  const SystemsDir := "manifests/applications/systems"
  const AtlasFile := "atlas.yml"

  /** The non-empty elements, in order. */
  function NonEmpty(elems: seq<string>): (r: seq<string>)
    ensures forall i | 0 <= i < |r| :: r[i] != ""
  {
    if |elems| == 0 then []
    else if elems[0] == "" then NonEmpty(elems[1..])
    else [elems[0]] + NonEmpty(elems[1..])
  }

  /** `filepath.Join` before its `Clean` step: the non-empty elements joined
      with `/`. */
  function JoinPath(elems: seq<string>): string
  {
    Join(NonEmpty(elems), "/")
  }

  /** `GetAtlasFileName`: the manifest path of the deployment's application. */
  function GetAtlasFileName(v: ValidatedDeployment): string
  {
    JoinPath([ManifestRoot, SystemsDir, v.deployment.system, v.deployment.applicationName, AtlasFile])
  }

  /** The path depends on the system and the application name only. */
  lemma AtlasFileNameDependsOnNames(v: ValidatedDeployment, w: ValidatedDeployment)
    requires v.deployment.system == w.deployment.system
    requires v.deployment.applicationName == w.deployment.applicationName
    ensures GetAtlasFileName(v) == GetAtlasFileName(w)
  {
  }

  /** The segments of a path whose system and application are `sys` and `app`. */
  function AtlasSegments(sys: string, app: string): seq<string>
  {
    ["", "tmp", "argocd", "manifests", "applications", "systems", sys, app, "atlas.yml"]
  }

  /** For a validated deployment the path is exactly
      `/tmp/argocd/manifests/applications/systems/<system>/<application>/atlas.yml`. */
  lemma AtlasFileNameExact(d: Deployment)
    requires ValidateDeployment(Some(d)).Success?
    ensures GetAtlasFileName(ValidateDeployment(Some(d)).value)
      == ManifestRoot + "/" + SystemsDir + "/" + d.system + "/" + d.applicationName + "/" + AtlasFile
  {
    var sys, app := d.system, d.applicationName;
    var elems := [ManifestRoot, SystemsDir, sys, app, AtlasFile];
    NonEmptyKeeps(elems);
    assert elems == [ManifestRoot] + [SystemsDir] + [sys] + [app] + [AtlasFile];
    JoinAppend([ManifestRoot] + [SystemsDir] + [sys] + [app], [AtlasFile], "/");
    JoinAppend([ManifestRoot] + [SystemsDir] + [sys], [app], "/");
    JoinAppend([ManifestRoot] + [SystemsDir], [sys], "/");
    JoinAppend([ManifestRoot], [SystemsDir], "/");
  }

  /** Cutting the path of a validated deployment at `/` gives the fixed
      prefix, the system, the application and `atlas.yml`. */
  lemma AtlasFileNameSegments(d: Deployment)
    requires ValidateDeployment(Some(d)).Success?
    ensures Split(GetAtlasFileName(ValidateDeployment(Some(d)).value), '/') == AtlasSegments(d.system, d.applicationName)
  {
    var sys, app := d.system, d.applicationName;
    AtlasFileNameExact(d);
    JoinAtlasSegments(sys, app);
    NameExcludes(sys, '/');
    NameExcludes(app, '/');
    SplitAtlasSegments(sys, app);
  }

  /** When the system and the application are names, as validation makes
      them, every segment after the root's empty one is neither empty, `.` nor
      `..`; with `AtlasFileNameSegments` the path keeps under the prefix. */
  lemma AtlasSegmentsPlain(sys: string, app: string)
    requires IsName(sys) && IsName(app)
    ensures forall i | 1 <= i < |AtlasSegments(sys, app)| :: AtlasSegments(sys, app)[i] !in {"", ".", ".."}
  {
    PlainSegment(sys);
    PlainSegment(app);
  }

  /** A name of the class `[a-zA-Z0-9-]+` is not empty and is neither `.`
      nor `..`. */
  lemma PlainSegment(s: string)
    requires IsName(s)
    ensures s !in {"", ".", ".."}
  {
    assert IsNameChar(s[0]);
  }

  /** Cutting the joined segments at `/` gives them back when the two names
      hold no `/`. */
  lemma SplitAtlasSegments(sys: string, app: string)
    requires '/' !in sys && '/' !in app
    ensures Split(Join(AtlasSegments(sys, app), "/"), '/') == AtlasSegments(sys, app)
  {
    var segs := AtlasSegments(sys, app);
    assert forall i | 0 <= i < |segs| :: '/' !in segs[i];
    SplitJoin(segs, '/');
  }

  /** The segments joined with `/` spell the path. */
  lemma JoinAtlasSegments(sys: string, app: string)
    ensures Join(AtlasSegments(sys, app), "/")
      == ManifestRoot + "/" + SystemsDir + "/" + sys + "/" + app + "/" + AtlasFile
  {
    var root, dir := ["", "tmp", "argocd"], ["manifests", "applications", "systems"];
    RootSegments();
    SystemsDirSegments();
    assert AtlasSegments(sys, app) == root + dir + [sys, app, AtlasFile];
    JoinPieces(root, dir, sys, app, AtlasFile, "/");
  }

  lemma RootSegments()
    ensures Join(["", "tmp", "argocd"], "/") == ManifestRoot
  {
  }

  lemma SystemsDirSegments()
    ensures Join(["manifests", "applications", "systems"], "/") == SystemsDir
  {
  }

  /** Joining two non-empty lists and three more pieces. */
  lemma JoinPieces(xs: seq<string>, ys: seq<string>, a: string, b: string, c: string, sep: string)
    requires |xs| > 0 && |ys| > 0
    ensures Join(xs + ys + [a, b, c], sep) == Join(xs, sep) + sep + Join(ys, sep) + sep + a + sep + b + sep + c
  {
    JoinAppend(xs, ys, sep);
    JoinAppend(xs + ys, [a, b, c], sep);
    Join3(a, b, c, sep);
  }

  /** Keeping the non-empty elements of a list without empty ones keeps it all. */
  lemma {:induction false} NonEmptyKeeps(elems: seq<string>)
    requires forall i | 0 <= i < |elems| :: elems[i] != ""
    ensures NonEmpty(elems) == elems
    decreases |elems|
  {
    if |elems| > 0 {
      NonEmptyKeeps(elems[1..]);
      assert [elems[0]] + elems[1..] == elems;
    }
  }

  /** Two validated deployments share a manifest path only when they share
      system and application name. */
  lemma AtlasFileNameInjective(d: Deployment, e: Deployment)
    requires ValidateDeployment(Some(d)).Success? && ValidateDeployment(Some(e)).Success?
    requires GetAtlasFileName(ValidateDeployment(Some(d)).value) == GetAtlasFileName(ValidateDeployment(Some(e)).value)
    ensures d.system == e.system && d.applicationName == e.applicationName
  {
    AtlasFileNameSegments(d);
    AtlasFileNameSegments(e);
    assert AtlasSegments(d.system, d.applicationName)[6] == d.system;
    assert AtlasSegments(e.system, e.applicationName)[6] == e.system;
  }

  /** The example `core` / `demo-api`: validated unchanged, and its path cut at
      `/` reads `/tmp/argocd/manifests/applications/systems/core/demo-api/atlas.yml`. */
  lemma AtlasFileNameExample()
    ensures var d := Deployment("demo-api", "core", "aks", "dev", "sha256:1234567890abcdef");
      && ValidateDeployment(Some(d)) == Success(ValidatedDeployment(d))
      && Split(GetAtlasFileName(ValidatedDeployment(d)), '/')
         == ["", "tmp", "argocd", "manifests", "applications", "systems", "core", "demo-api", "atlas.yml"]
  {
    var d := Deployment("demo-api", "core", "aks", "dev", "sha256:1234567890abcdef");
    assert IsName("core") && IsName("demo-api");
    AtlasFileNameSegments(d);
  }
}
