/** The Resource Store as the watchers see it: application objects read
    through `unstructured.NestedString`, watch events, and the errors a watch
    can end with. */
module Argo {
  import opened Wrappers

  /** Reading one nested field: not there, there but of the wrong shape (the
      accessor's error text), or found. */
  datatype Field<T> = Absent | Malformed(reason: string) | Found(value: T)

  /** The error a failed read carries: none for an absent field. */
  function Cause<T>(f: Field<T>): Option<string>
  {
    if f.Malformed? then Some(f.reason) else None
  }

  /** A field read the lenient way: anything but a found string reads as "". */
  function StringOrEmpty(f: Field<string>): string
  {
    if f.Found? then f.value else ""
  }

  /** The parts of an Argo CD `Application` object the core reads. */
  datatype Application = Application(
    name: Field<string>,              // metadata.name
    systemLabel: Field<string>,       // metadata.labels["elvia.no/system"]
    applicationLabel: Field<string>,  // metadata.labels["elvia.no/application"]
    environmentLabel: Field<string>,  // metadata.labels["kubernetes.io/environment"]
    clusterTypeLabel: Field<string>,  // metadata.labels["elvia.no/cluster-type"]
    syncStatus: Field<string>,        // status.sync.status
    healthStatus: Field<string>,      // status.health.status
    images: Field<seq<string>>)       // status.summary.images

  /** What one turn of the watch loop's `select` receives: an event carrying
      an unstructured object, an event carrying something else, the closed
      result channel, the re-armed timer, or the request context ending. */
  datatype Event =
    | Object(app: Application)
    | NotUnstructured
    | Closed
    | TimerFired
    | ContextDone(reason: string)

  /** A watch as the client opens it: the error of opening it, if any, then
      the events in the order the loop takes them. When the events run out,
      nothing more arrives and the timer fires. */
  datatype WatchStream = WatchStream(openError: Option<string>, events: seq<Event>)

  datatype WatchError =
    | WatchFailed(cause: string)
    | ClosedUnexpectedly
    | FieldMissing(field: string, readError: Option<string>)
    | ImageCount(count: nat)
    | TimedOut
    | ContextError(reason: string)
    | GetFailed(name: string, namespace: string, getError: string)

  /** Go's decimal `%d`. */
  function NatToString(n: nat): string
  {
    if n < 10 then ["0123456789"[n]] else NatToString(n / 10) + ["0123456789"[n % 10]]
  }

  /** The text `%w` prints: the wrapped error, or `%!w(<nil>)` for none. */
  function Wrapped(cause: Option<string>): string
  {
    if cause.Some? then cause.value else "%!w(<nil>)"
  }

  function WatchMessage(e: WatchError): string
  {
    match e
    case WatchFailed(c) => "failed to watch application: " + c
    case ClosedUnexpectedly => "watch closed unexpectedly"
    case FieldMissing(f, c) => "failed to get " + f + ": " + Wrapped(c)
    case ImageCount(n) => "Expected 1 image, got " + NatToString(n)
    case TimedOut => "timed out waiting for application lifecycle"
    case ContextError(r) => r
    case GetFailed(n, ns, c) => "failed to get application " + n + " in namespace " + ns + ": " + c
  }
}
