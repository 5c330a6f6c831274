# deployvia core, modelled in Dafny

deployvia is an HTTP service that a CI pipeline calls after it has pushed a
new image for an application. The service checks the caller's GitHub Actions
OIDC token and validates the deployment request. It then finds the Argo CD
`Application` objects that belong to the deployment, and it waits until they
have rolled out the requested image. The answer is 200 when the rollout
succeeds, 400 for a bad request, 403 for a bad token, and 500 when the
rollout fails or times out.

The project models:

- **`internal/model`** (`model.dfy`).
  - The deployment record is a class, because `ValidateDeployment` rewrites
    its image in place.
  - The guard chain is modelled with the image canonicalisation
    `name@digest` → `name:environment@digest`.
  - The GitHub OIDC claim policy (`validateClaims`) and the token pipeline
    (`ValidateToken`) are modelled. Fetching the key set and the JWT
    signature check are parameters.
- **`pkg/deploy`** (`deploy.dfy`).
  - The older validator, which checks fields but never rewrites them.
  - The manifest path `GetAtlasFileName`.
- **`internal/handler`** (`handler.dfy`).
  - `PostDeployment`: the token gate, binding and validation, and the
    `X-Timeout` header.
  - The label selector.
  - Resolution of the listed applications under the 0 / 1 / many rule.
  - The per-application watch loop, which waits for Synced, Healthy and the
    requested image.
  - The fan-out to one watcher per application, and the fold of their errors
    into one message.
- **`pkg/routes`** (`routes.dfy`).
  - The older handler.
  - It derives a single application name.
  - Its watch loop waits for OutOfSync followed by Synced and Healthy.
- **`variants.dfy`** compares the two validators and the two watch loops.
- **Shared modules.**
  - `validation.dfy`: the validation errors and their messages.
  - `argo.dfy`: Argo CD objects, watch events and watch errors.
  - `text.dfy`: Go's `strings.Contains` and `strings.Split`, the `[a-zA-Z0-9-]+` pattern, and joining.
  - `http.dfy`: responses.
  - `wrappers.dfy`: `Option` and `Result`.

Each watch is modelled as the sequence of events its `select` loop receives.
An event is one of:

- an object;
- a non-object event;
- the closed channel;
- the timer firing;
- the request context ending.

When the events run out, nothing more arrives, so the re-armed timer fires.
The goroutines of the handler finish in an arbitrary order. That order is a
parameter: a permutation of the application names. The lemmas show that the
set of reported errors does not depend on it.

## Model

| member | source | states |
|---|---|---|
| Model.Canonicalize | internal/model/deploy.go:30-69 | The first check that fails decides the error: that check rejects and no earlier one does. On success every check passes and only the image may differ. The image then always contains the environment, and it is unchanged when it already contained it. |
| Model.ValidateDeployment | internal/model/deploy.go:25-70 | A nil pointer gives "deployment is nil". Otherwise the struct is validated in place. On success the wrapper points to the same struct, whose value is the canonical one. On failure the struct is untouched. |
| Model.Deployment.constructor | internal/model/deploy.go:16-23 | A new record holds exactly the given field values. |
| Model.CanonicalizeIdempotent | internal/model/deploy.go:60-67 | Validating a validated deployment again succeeds and changes nothing. |
| Model.CanonicalizeTagsDigest | internal/model/deploy.go:60-66 | An image `name@digest` that does not mention the environment becomes `name:environment@digest`. |
| Model.CanonicalizeRejectsFormat | internal/model/deploy.go:60-64 | An image without the environment and without exactly one `@` is rejected with the format error. |
| Model.CanonicalImageReparses | internal/model/deploy.go:61-66 | Suppose the image did not contain the environment and the environment has no `@`. Then the rewritten image splits at `@` into `name:environment` and the original digest. |
| Model.CanonicalizeRejectsExamples | internal/model/deploy.go:38-58 | `core_1` and `../demo-api` are rejected as names, and an empty image is rejected as missing. |
| Model.ValidateClaims | internal/model/oidc.go:36-103 | Checks iss, aud, exp, iat, repository_owner and repository in that order, and the first failure wins. On success every claim is accepted, and the result is owner `3lvia` with the token's repository. |
| Model.ClaimTimeBoundaries | internal/model/oidc.go:59-83 | `exp` equal to the current time is still valid, and one second earlier it is expired. `iat` equal to the current time is valid, and one second later the token is not yet valid. |
| Model.AudienceFirstOnly | internal/model/oidc.go:46-57 | Only the first audience is compared. Whatever the first audience is, audiences after it never change the outcome. |
| Model.ValidateToken | internal/model/oidc.go:105-127 | Succeeds exactly when the key set loads, the token verifies, the claims are a claims map and the claims validate. A successful result is exactly the validated claims, with owner `3lvia` and the token's repository. |
| Model.ClaimMessage | internal/model/oidc.go:39-96 | The exact text of each claim error. A definition with no contract of its own. |
| Model.TokenMessage | internal/model/oidc.go:21-123 | The exact text of each token error, including the doubled "failed to create keyfunc: " prefix. A definition with no contract of its own. |
| Text.Split | internal/model/deploy.go:61-62 | `strings.Split` gives one more part than there are separators, and no part contains the separator. |
| Text.JoinSplit | internal/model/deploy.go:61 | Joining the parts of a split with the separator gives back the original string. |
| Text.SplitJoin | internal/model/deploy.go:61 | Splitting a join of separator-free parts gives back the parts. |
| Deploy.ValidateDeployment | pkg/deploy/deploy.go:23-59 | A nil pointer gives "deployment is nil". Otherwise the first failing check decides the error. On success the same deployment comes back unchanged, and every check passes. |
| Deploy.ValidateDeploymentRejectsExamples | pkg/deploy/deploy.go:36-44 | `core_1`, `../demo-api`, `../test-system` and `test/app` are rejected with the matching name error. |
| Deploy.NonEmpty | pkg/deploy/git.go:8-14 | Every element that path joining keeps is non-empty. |
| Deploy.GetAtlasFileName | pkg/deploy/git.go:7-15 | The manifest path: the non-empty elements joined with `/`. A definition; `AtlasFileNameExact`, `AtlasFileNameSegments` and `AtlasFileNameInjective` state what it gives. |
| Deploy.AtlasFileNameDependsOnNames | pkg/deploy/git.go:7-15 | The path depends only on the system and the application name. |
| Deploy.AtlasFileNameExact | pkg/deploy/git.go:7-15 | For a validated deployment the path is `/tmp/argocd/manifests/applications/systems/<system>/<application>/atlas.yml`. |
| Deploy.AtlasFileNameSegments | pkg/deploy/git.go:7-15 | Cut at `/`, the path of a validated deployment is exactly the root's empty segment, the fixed segments `tmp`, `argocd`, `manifests`, `applications` and `systems`, then the system, the application and `atlas.yml`. |
| Deploy.AtlasSegmentsPlain | pkg/deploy/git.go:7-15 | When the system and the application are names of the class `[a-zA-Z0-9-]+`, as validation requires, no segment after the root's empty one is empty, `.` or `..`. Together with `AtlasFileNameSegments`, `Clean` has nothing to change and the path stays under the manifest root. |
| Deploy.PlainSegment | pkg/deploy/deploy.go:36-44 | A name that passes the `[a-zA-Z0-9-]+` check is not empty and is neither `.` nor `..`. |
| Deploy.AtlasFileNameInjective | pkg/deploy/git.go:7-15 | Two validated deployments share a path only when they share system and application name. |
| Deploy.AtlasFileNameExample | pkg/deploy/git.go:7-15 | The `core` / `demo-api` deployment validates, and its path has the expected segments. |
| Handler.LabelSelectorTerms | internal/handler/deployment.go:296-315 | Suppose no system, application, environment or cluster type value holds a comma. Then the selector, cut at `,`, gives exactly the system, application and environment requirements. The cluster-type requirement is added exactly when `check_all_clusters` is false. |
| Handler.LabelSelector | internal/handler/deployment.go:296-315 | The selector string. A definition; `LabelSelectorTerms` and `LabelSelectorCommaBreaks` state what it holds. |
| Handler.LabelSelectorCommaBreaks | internal/handler/deployment.go:296-315 | An environment that holds a comma breaks the selector: cut at `,`, it no longer gives the intended requirements. |
| Handler.CommaEnvironmentValidates | internal/model/deploy.go:30-69 | Validation accepts such an environment (`dev,x`) unchanged, because only the system and application names are checked character by character. |
| Handler.TargetNames | internal/handler/deployment.go:134-144 | Collecting the names never gives more names than there are listed applications. |
| Handler.TargetNamesSpec | internal/handler/deployment.go:134-144 | Names are collected exactly when no name is unreadable. A string is then collected exactly when some listed application carries it as its name. |
| Handler.TargetNamesFailurePersists | internal/handler/deployment.go:136-139 | An unreadable name aborts the whole collection. |
| Handler.Resolve | internal/handler/deployment.go:116-144 | The rules, in order:<br>- a failed listing gives the listing error;<br>- nothing listed gives "application(s) not found";<br>- more than one listed with `check_all_clusters` false gives the "multiple applications" error;<br>- otherwise, with one item or with `check_all_clusters` set, the result is exactly the collected names, or the name error when a name is unreadable. |
| Handler.ResolveAllClusters | internal/handler/deployment.go:130-144 | With `check_all_clusters` set, every named application becomes a target, however many there are. |
| Handler.Decide | internal/handler/deployment.go:225-288 | An object event fails exactly when a label, a status or the image list is missing, or the image count is not one. It stops the loop exactly when the application is Synced and Healthy on the requested image. |
| Handler.RunEvents | internal/handler/deployment.go:216-292 | The loop's outcome over an event sequence. A definition; `RunEventsConverges` states when it succeeds. |
| Handler.WatchResult | internal/handler/deployment.go:192-293 | The outcome of one watch: the watch error, or the loop's outcome. A definition; `RunEventsConverges` and `WatchApplicationLifecycle` are about it. |
| Handler.RunEventsConverges | internal/handler/deployment.go:216-292 | A watch succeeds exactly when some event shows convergence and every earlier event kept the loop waiting. |
| Handler.WatchApplicationLifecycle | internal/handler/deployment.go:192-293 | The loop's result equals the specified outcome of its event stream. |
| Handler.FailureMessagesReordered | internal/handler/deployment.go:146-173 | Whatever order the watchers finish in, the same multiset of errors is sent. |
| Handler.FailureMessagesEmpty | internal/handler/deployment.go:164-168 | No error is sent exactly when every watcher succeeds. |
| Handler.LifecycleSucceeds | internal/handler/deployment.go:108-191 | The lifecycle succeeds exactly when resolution of the applications listed for the deployment's selector succeeds and every target's watch succeeds. |
| Handler.LifecycleReportsEachFailure | internal/handler/deployment.go:164-187 | Each failing target appears in the combined error as "failed to watch <name>: <cause>". |
| Handler.LifecycleSingleFailure | internal/handler/deployment.go:175-187 | When exactly one target fails, the error is that target's message alone. |
| Handler.FailureMessagesHas | internal/handler/deployment.go:164-168 | A failing watcher's prefixed error is among the errors sent. |
| Handler.FailureMessagesOnly | internal/handler/deployment.go:164-168 | When exactly one watcher fails, its error is the only one sent. |
| Handler.FailureMessagesNone | internal/handler/deployment.go:164-168 | When every watcher succeeds, nothing is sent. |
| Handler.FailureMessages | internal/handler/deployment.go:146-173 | The errors the watchers send, in the order of the names. A definition; `FailureMessagesEmpty`, `FailureMessagesHas`, `FailureMessagesOnly` and `FailureMessagesReordered` state its meaning. |
| Handler.Combined | internal/handler/deployment.go:175-190 | The combined error is absent exactly when no error was sent. Otherwise it contains every sent error. |
| Handler.Listed | internal/handler/deployment.go:116-121 | The applications the `List` call returns for the deployment's label selector. A definition. |
| Handler.Lifecycle | internal/handler/deployment.go:108-191 | The lifecycle result: the resolution error, or the combined watcher errors over the applications listed for the deployment's selector. A definition; `LifecycleSucceeds`, `LifecycleReportsEachFailure` and `LifecycleSingleFailure` state its meaning. |
| Handler.CollectNames | internal/handler/deployment.go:134-144 | The collecting loop gives exactly the specified names or the first unreadable name's error. |
| Handler.RunWatchers | internal/handler/deployment.go:146-173 | Taken in completion order, the watchers send exactly the specified prefixed errors. |
| Handler.CombineErrors | internal/handler/deployment.go:175-190 | The fold gives nothing for no errors. Otherwise it gives all errors in arrival order, joined with "; ". |
| Handler.WatchApplicationsLifecycle | internal/handler/deployment.go:108-191 | The loops give exactly the specified lifecycle result. This covers the name collection, one watcher per name, and the fold joining errors with "; ". |
| Handler.RequestTimeout | internal/handler/deployment.go:68-82 | An absent or unparsable `X-Timeout` gives three minutes. Otherwise the parsed duration is used. |
| Handler.PostDeployment | internal/handler/deployment.go:20-106 | Outside local mode, or with the test flag set, the token is checked. A missing token gives 400, and a rejected token gives 403 "invalid token: …". Then a bad body or a failed validation gives 400 "invalid deployment: …". A failed lifecycle gives 500 with its message. Otherwise the answer is 200 "Application successfully deployed!". |
| Routes.AppNameParts | pkg/routes/deployment.go:66-72 | For hyphen-free parts, cutting the name at `-` gives system, application, cluster type and environment back. |
| Routes.AppNameCollides | pkg/routes/deployment.go:66-72 | Two different valid deployments can map to the same application name. |
| Routes.AppName | pkg/routes/deployment.go:66-72 | The four parts joined by hyphens: the name's length is their lengths plus three. `AppNameParts` and `AppNameCollides` state when the parts can be read back. |
| Routes.RunEvents | pkg/routes/deployment.go:118-152 | The loop ends with an error only through the timeout, the closed channel or the context, never because a field is missing. |
| Routes.RunEventsConverges | pkg/routes/deployment.go:118-152 | The watch succeeds exactly when some event reports Synced and Healthy, an OutOfSync report came earlier, and every earlier event kept the loop waiting. |
| Routes.ConvergedEvent | pkg/routes/deployment.go:140-148 | A successful watch names the event it stopped at. |
| Routes.ConvergesAtSucceeds | pkg/routes/deployment.go:121-151 | Reaching such an event ends the watch in success. |
| Routes.WatchApplicationLifecycle | pkg/routes/deployment.go:92-153 | The get, the watch and the loop give exactly the specified outcome. |
| Routes.WatchResult | pkg/routes/deployment.go:92-153 | The get error in namespace `argocd`, then the watch error, then the loop's outcome. A definition; `RunEventsConverges` and `WatchApplicationLifecycle` are about it. |
| Routes.PostDeployment | pkg/routes/deployment.go:19-90 | Outside local mode a missing token gives 400 and a rejected token gives 403. A bad body or a failed validation gives 400. A failed watch gives 500 "failed to watch application lifecycle: …". Success writes no body. |
| Variants.ValidatorsAgree | internal/model/deploy.go:25-70 | Whatever the older validator rejects, the newer one rejects with the same error. The newer one accepts exactly what the older one accepts and the image-format check lets through. |
| Variants.AlreadyHealthyDiverges | pkg/routes/deployment.go:140-148 | An application that is already converged on the image satisfies the newer watcher at once. The older watcher ignores it and times out. |
| Variants.NoOutOfSyncNeverConverges | pkg/routes/deployment.go:140-148 | Without an OutOfSync report, the older watcher never succeeds. |

## Left out

- The JWKS download (`createKeyFunc`) and the JWT parse and signature check (`verifyToken`) are parameters. Only their success, their error text and the claims they hand back are modelled.
- `time.Now`, `time.ParseDuration` and the `LOCAL` and `TESTING_ENABLE_OIDC` environment variables are parameters of the request methods.
- The Kubernetes dynamic client is not modelled. Its List, Get and Watch calls are parameters: List is a function from the label selector to its result, Get gives a per-name error, and Watch gives a per-name event stream. The watch's server-side `TimeoutSeconds` is represented only by the channel closing in the stream.
- Goroutines, the wait group and the buffered channel are not modelled as concurrency. They appear only as the arbitrary completion order of the watchers.
- Logging, the `fmt.Printf` event trace and request metrics have no effect on results and are left out.
- JSON binding is a parameter: either the bound value or the binder's error text.
- `filepath.Join`'s `Clean` step is not modelled. `Deploy.AtlasFileNameSegments` shows that validated paths have no segment `Clean` would change.
- Model.ValidateClaims: an absent `exp` or `iat` is treated like a zero time. The Go code calls `IsZero` on the nil pointer that the JWT library returns for an absent claim, which is a nil dereference, so that path is not modelled.
- Model.ValidateClaims: times are whole seconds, as in the JWT `NumericDate`. Sub-second comparison against `time.Now` is not modelled.
- Handler.RequestTimeout: any duration is accepted as parsed, including zero or negative ones. The model does not describe what the Go timer does with them.
- Handler.Decide: a missing field with no read error is reported with Go's `%!w(<nil>)` text, as the Go code does.
- ctx.Err() is modelled as the reason string the context ends with.
- The HTTP routing, server start-up, configuration loading and the `pkg/deploy` token validator are not part of this model. The routes handler's token check is a parameter that gives the checker's error text.
- Handler.LabelSelectorTerms: holds only when no value holds a comma. Validation does not check the characters of the environment or the cluster type, so a value such as `dev,x` passes it (`Handler.CommaEnvironmentValidates`) and changes the selector's requirements (`Handler.LabelSelectorCommaBreaks`).
- Model.CanonicalImageReparses: holds only for an environment without `@`. Validation accepts an environment that holds `@`, and the rewritten image then splits into more than two parts.
- The order in which the goroutines finish is a parameter `order`, which may be any permutation of the names it is given.
- The error message for an empty listing follows the code ("application(s) not found"), not other wordings of that error.
