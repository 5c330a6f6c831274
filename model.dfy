/** internal/model: the deployment request with its validation and image
    canonicalisation (deploy.go), and the OIDC claim policy (oidc.go). */
module Model {
  import opened Wrappers
  import opened Text
  import opened Validation

  // ---------------------------------------------------------------------
  // deploy.go
  // ---------------------------------------------------------------------

  /** The contents of a `Deployment` struct at one moment. */
  datatype DeploymentValue = DeploymentValue(
    applicationName: string,
    system: string,
    clusterType: string,
    checkAllClusters: bool,
    environment: string,
    image: string)

  /** The request body as the handler binds it: a struct reached through a
      pointer, whose `Image` field validation overwrites in place. */
  class Deployment {
    var applicationName: string
    var system: string
    var clusterType: string
    var checkAllClusters: bool
    var environment: string
    var image: string

    constructor (v: DeploymentValue)
      ensures Value() == v
    {
      applicationName := v.applicationName;
      system := v.system;
      clusterType := v.clusterType;
      checkAllClusters := v.checkAllClusters;
      environment := v.environment;
      image := v.image;
    }

    function Value(): DeploymentValue
      reads this
    {
      DeploymentValue(applicationName, system, clusterType, checkAllClusters, environment, image)
    }
  }

  /** Certifies that the deployment it points to passed validation. */
  datatype ValidatedDeployment = ValidatedDeployment(deployment: Deployment)

  /** Whether check number `stage` (1 to 8) of the chain rejects `d`. */
  predicate Rejects(d: DeploymentValue, stage: nat)
  {
    match stage
    case 1 => d.system == ""
    case 2 => d.applicationName == ""
    case 3 => !IsName(d.system)
    case 4 => !IsName(d.applicationName)
    case 5 => d.clusterType == ""
    case 6 => d.environment == ""
    case 7 => d.image == ""
    case 8 => !Contains(d.image, d.environment) && Occurrences(d.image, '@') != 1
    case _ => false
  }

  /** What validation does to the value of a non-nil deployment: the first
      failing check decides the error; on success only the image may change,
      and it always names the environment afterwards. */
  function Canonicalize(d: DeploymentValue): (r: Result<DeploymentValue, ValidationError>)
    ensures r.Success? ==> forall s | 1 <= s <= 8 :: !Rejects(d, s)
    ensures r.Failure? ==>
      && 1 <= Stage(r.error) <= 8
      && Rejects(d, Stage(r.error))
      && forall s | 1 <= s < Stage(r.error) :: !Rejects(d, s)
    ensures r.Success? ==> r.value == d.(image := r.value.image)
    ensures r.Success? ==> Contains(r.value.image, d.environment)
    ensures r.Success? && Contains(d.image, d.environment) ==> r.value.image == d.image
  {
    if d.system == "" then Failure(SystemRequired)
    else if d.applicationName == "" then Failure(ApplicationNameRequired)
    else if !IsName(d.system) then Failure(SystemNameInvalid)
    else if !IsName(d.applicationName) then Failure(ApplicationNameInvalid)
    else if d.clusterType == "" then Failure(ClusterTypeRequired)
    else if d.environment == "" then Failure(EnvironmentRequired)
    else if d.image == "" then Failure(ImageRequired)
    else if Contains(d.image, d.environment) then Success(d)
    else
      var parts := Split(d.image, '@');
      if |parts| != 2 then Failure(ImageFormat)
      else
        var image := parts[0] + ":" + d.environment + "@" + parts[1];
        ContainsMiddle(parts[0] + ":", d.environment, "@" + parts[1]);
        assert image == parts[0] + ":" + d.environment + ("@" + parts[1]);
        Success(d.(image := image))
  }

  /** `ValidateDeployment`: runs the guard chain on the pointed-to struct and,
      when the image does not name the environment, rewrites
      `name@digest` to `name:environment@digest` in place. On success the
      wrapper points to the same struct; on failure the struct is untouched. */
  method ValidateDeployment(d: Deployment?) returns (r: Result<ValidatedDeployment, ValidationError>)
    modifies d
    ensures d == null ==> r == Failure(DeploymentNil)
    ensures d != null ==>
      match Canonicalize(old(d.Value()))
      case Success(v) => r == Success(ValidatedDeployment(d)) && d.Value() == v
      case Failure(e) => r == Failure(e) && d.Value() == old(d.Value())
  {
    if d == null {
      return Failure(DeploymentNil);
    }
    var checked := Canonicalize(d.Value());
    if checked.Failure? {
      return Failure(checked.error);
    }
    if checked.value.image != d.image {
      d.image := checked.value.image;
    }
    return Success(ValidatedDeployment(d));
  }

  /** Re-validating a validated deployment succeeds and changes nothing:
      the rewritten image already names the environment. */
  lemma CanonicalizeIdempotent(d: DeploymentValue)
    requires Canonicalize(d).Success?
    ensures Canonicalize(Canonicalize(d).value) == Canonicalize(d)
  {
  }

  /** A bare `name@digest` image (one `@`, no mention of the environment)
      becomes `name:environment@digest`. */
  lemma CanonicalizeTagsDigest(d: DeploymentValue, name: string, digest: string)
    requires forall s | 1 <= s <= 7 :: !Rejects(d, s)
    requires d.image == name + "@" + digest && '@' !in name && '@' !in digest
    requires !Contains(d.image, d.environment)
    ensures Canonicalize(d) == Success(d.(image := name + ":" + d.environment + "@" + digest))
  {
    SplitCons(name, '@', digest);
    SplitFree(digest, '@');
  }

  /** An image that does not name the environment and does not hold exactly
      one `@` is rejected with the format error. */
  lemma CanonicalizeRejectsFormat(d: DeploymentValue)
    requires forall s | 1 <= s <= 7 :: !Rejects(d, s)
    requires !Contains(d.image, d.environment) && Occurrences(d.image, '@') != 1
    ensures Canonicalize(d) == Failure(ImageFormat)
  {
  }

  /** Splitting the canonical image at `@` yields `name:environment` and the
      digest again, when the environment itself has no `@`. */
  lemma CanonicalImageReparses(d: DeploymentValue)
    requires Canonicalize(d).Success?
    requires !Contains(d.image, d.environment) && '@' !in d.environment
    ensures var parts := Split(d.image, '@');
      |parts| == 2 && Split(Canonicalize(d).value.image, '@') == [parts[0] + ":" + d.environment, parts[1]]
  {
    var parts := Split(d.image, '@');
    var image := Canonicalize(d).value.image;
    assert image == Join([parts[0] + ":" + d.environment, parts[1]], "@");
    SplitJoin([parts[0] + ":" + d.environment, parts[1]], '@');
  }

  /** Rejection examples: an underscore in the system, a path in the
      application name, a missing image. */
  lemma CanonicalizeRejectsExamples(d: DeploymentValue)
    ensures Canonicalize(d.(system := "core_1", applicationName := "demo-api")) == Failure(SystemNameInvalid)
    ensures Canonicalize(d.(system := "core", applicationName := "../demo-api")) == Failure(ApplicationNameInvalid)
    ensures Canonicalize(DeploymentValue("demo-api", "core", "gke", false, "dev", "")) == Failure(ImageRequired)
  {
    assert !IsNameChar("core_1"[4]);
    assert !IsNameChar("../demo-api"[0]);
    assert IsName("core") && IsName("demo-api");
  }

  // ---------------------------------------------------------------------
  // oidc.go
  // ---------------------------------------------------------------------

  const GitHubIssuer := "https://token.actions.githubusercontent.com"
  const ExpectedAudience := "https://github.com/3lvia"
  const ExpectedOwner := "3lvia"

  /** A claim of a `jwt.MapClaims`: absent, present with the wrong JSON type
      (the getter's error text), or present and well typed. */
  datatype Claim<T> = Missing | WrongType(reason: string) | Present(value: T)

  /** The claims the policy reads. Times are Unix seconds; the library reports
      an `exp` or `iat` of 0 as absent, so 0 stands for the zero time. */
  datatype MapClaims = MapClaims(
    iss: Claim<string>,
    aud: Claim<seq<string>>,
    exp: Claim<int>,
    iat: Claim<int>,
    repositoryOwner: Claim<string>,
    repository: Claim<string>)

  datatype ValidatedClaims = ValidatedClaims(repositoryOwner: string, repository: string)

  datatype ClaimError =
    | IssuerUnreadable(reason: string)
    | IssuerInvalid(issuer: string)
    | AudienceUnreadable(reason: string)
    | AudienceEmpty
    | AudienceInvalid(first: string)
    | ExpirationUnreadable(reason: string)
    | ExpirationZero
    | Expired
    | IssuedAtUnreadable(reason: string)
    | IssuedAtZero
    | NotYetValid
    | OwnerMissing
    | OwnerInvalid(owner: string)
    | RepositoryMissing

  function ClaimMessage(e: ClaimError): string
  {
    match e
    case IssuerUnreadable(r) => "error getting issuer: " + r
    case IssuerInvalid(i) => "invalid issuer: " + i
    case AudienceUnreadable(r) => "error getting audience: " + r
    case AudienceEmpty => "audience is empty"
    case AudienceInvalid(a) => "invalid audience: " + a
    case ExpirationUnreadable(r) => "error getting expiration time: " + r
    case ExpirationZero => "expiration time is zero"
    case Expired => "token is expired"
    case IssuedAtUnreadable(r) => "error getting issued at: " + r
    case IssuedAtZero => "issued at time is zero"
    case NotYetValid => "token is not yet valid"
    case OwnerMissing => "repository_owner claim is missing or not a string"
    case OwnerInvalid(o) => "repository owner " + o + " is not valid"
    case RepositoryMissing => "repository claim is missing or not a string"
  }

  /** The claim an error is about: 1 `iss`, 2 `aud`, 3 `exp`, 4 `iat`,
      5 `repository_owner`, 6 `repository`. */
  function ClaimStage(e: ClaimError): nat
  {
    match e
    case IssuerUnreadable(_) => 1
    case IssuerInvalid(_) => 1
    case AudienceUnreadable(_) => 2
    case AudienceEmpty => 2
    case AudienceInvalid(_) => 2
    case ExpirationUnreadable(_) => 3
    case ExpirationZero => 3
    case Expired => 3
    case IssuedAtUnreadable(_) => 4
    case IssuedAtZero => 4
    case NotYetValid => 4
    case OwnerMissing => 5
    case OwnerInvalid(_) => 5
    case RepositoryMissing => 6
  }

  /** The policy for each claim on its own, at time `now`. */
  predicate ClaimAccepted(c: MapClaims, now: int, stage: nat)
  {
    match stage
    case 1 => c.iss == Present(GitHubIssuer)
    case 2 => c.aud.Present? && |c.aud.value| > 0 && c.aud.value[0] == ExpectedAudience
    case 3 => c.exp.Present? && c.exp.value != 0 && now <= c.exp.value
    case 4 => c.iat.Present? && c.iat.value != 0 && c.iat.value <= now
    case 5 => c.repositoryOwner == Present(ExpectedOwner)
    case 6 => c.repository.Present?
    case _ => true
  }

  /** `validateClaims`: checks `iss`, `aud`, `exp`, `iat` (section 4.1 of
      RFC 7519), then `repository_owner` and `repository`, first failure
      wins; on success carries exactly the owner and the repository. */
  function ValidateClaims(c: MapClaims, now: int): (r: Result<ValidatedClaims, ClaimError>)
    ensures r.Success? ==> forall s | 1 <= s <= 6 :: ClaimAccepted(c, now, s)
    ensures r.Success? ==> c.repository.Present? && r.value == ValidatedClaims(ExpectedOwner, c.repository.value)
    ensures r.Failure? ==>
      && 1 <= ClaimStage(r.error) <= 6
      && !ClaimAccepted(c, now, ClaimStage(r.error))
      && forall s | 1 <= s < ClaimStage(r.error) :: ClaimAccepted(c, now, s)
  {
    // GetIssuer reads an absent `iss` as ""
    var iss := match c.iss case WrongType(r) => "" case Missing => "" case Present(i) => i;
    if c.iss.WrongType? then Failure(IssuerUnreadable(c.iss.reason))
    else if iss != GitHubIssuer then Failure(IssuerInvalid(iss))
    else if c.aud.WrongType? then Failure(AudienceUnreadable(c.aud.reason))
    else if c.aud.Missing? || |c.aud.value| == 0 then Failure(AudienceEmpty)
    else if c.aud.value[0] != ExpectedAudience then Failure(AudienceInvalid(c.aud.value[0]))
    else if c.exp.WrongType? then Failure(ExpirationUnreadable(c.exp.reason))
    else if c.exp.Missing? || c.exp.value == 0 then Failure(ExpirationZero)
    else if c.exp.value < now then Failure(Expired)
    else if c.iat.WrongType? then Failure(IssuedAtUnreadable(c.iat.reason))
    else if c.iat.Missing? || c.iat.value == 0 then Failure(IssuedAtZero)
    else if c.iat.value > now then Failure(NotYetValid)
    else if !c.repositoryOwner.Present? then Failure(OwnerMissing)
    else if c.repositoryOwner.value != ExpectedOwner then Failure(OwnerInvalid(c.repositoryOwner.value))
    else if !c.repository.Present? then Failure(RepositoryMissing)
    else Success(ValidatedClaims(c.repositoryOwner.value, c.repository.value))
  }

  /** `exp == now` is still accepted, one second later it is expired; an
      `iat` of exactly now is accepted, one second ahead it is not yet valid. */
  lemma ClaimTimeBoundaries(c: MapClaims, now: int)
    requires now != 0 && now + 1 != 0 && now - 1 != 0
    requires ClaimAccepted(c, now, 1) && ClaimAccepted(c, now, 2)
    ensures ClaimAccepted(c.(exp := Present(now)), now, 3)
    ensures ValidateClaims(c.(exp := Present(now - 1)), now) == Failure(Expired)
    ensures ClaimAccepted(c.(iat := Present(now)), now, 4)
    ensures ClaimAccepted(c, now, 3) ==>
      ValidateClaims(c.(iat := Present(now + 1)), now) == Failure(NotYetValid)
  {
  }

  /** Only the first audience is checked: later ones never change the outcome. */
  lemma AudienceFirstOnly(c: MapClaims, now: int, a: string, rest: seq<string>)
    ensures ValidateClaims(c.(aud := Present([a] + rest)), now) == ValidateClaims(c.(aud := Present([a])), now)
  {
    assert ([a] + rest)[0] == a;
  }

  /** What `jwt.Parse` hands back as the token's claims. */
  datatype TokenClaims = Claims(claims: MapClaims) | NotMapClaims

  datatype TokenError =
    | KeyFuncFailed(cause: string)
    | VerifyFailed(cause: string)
    | ClaimsNotMap
    | ClaimsInvalid(claimError: ClaimError)

  function TokenMessage(e: TokenError): string
  {
    match e
    // createKeyFunc wraps the cause and ValidateToken wraps it again
    case KeyFuncFailed(c) => "failed to create keyfunc: failed to create keyfunc: " + c
    case VerifyFailed(c) => "failed to verify token: " + c
    case ClaimsNotMap => "failed to parse claims"
    case ClaimsInvalid(e) => "failed to validate claims: " + ClaimMessage(e)
  }

  /** `ValidateToken` over abstract steps: `keyFunc` is the outcome of
      fetching the key set (RFC 7517), `verify` the parse-and-verify of a
      token string with those keys, `now` the current time. */
  function ValidateToken<K>(
    keyFunc: Result<K, string>,
    verify: (K, string) -> Result<TokenClaims, string>,
    token: string,
    now: int): (r: Result<ValidatedClaims, TokenError>)
    ensures r.Success? <==>
      && keyFunc.Success?
      && verify(keyFunc.value, token).Success?
      && verify(keyFunc.value, token).value.Claims?
      && ValidateClaims(verify(keyFunc.value, token).value.claims, now).Success?
    ensures r.Success? ==> r.value.repositoryOwner == ExpectedOwner
    ensures r.Success? ==> r.value == ValidateClaims(verify(keyFunc.value, token).value.claims, now).value
  {
    match keyFunc
    case Failure(e) => Failure(KeyFuncFailed(e))
    case Success(k) =>
      match verify(k, token)
      case Failure(e) => Failure(VerifyFailed(e))
      case Success(NotMapClaims) => Failure(ClaimsNotMap)
      case Success(Claims(c)) =>
        match ValidateClaims(c, now)
        case Failure(e) => Failure(ClaimsInvalid(e))
        case Success(v) => Success(v)
  }
}
