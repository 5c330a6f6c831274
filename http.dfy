/** What a handler writes back: a one-key JSON object with a status code, or
    nothing at all (the framework then answers 200 with an empty body). */
module Http {

  datatype Response = Json(status: int, key: string, text: string) | NoBody

  const MissingTokenMessage := "X-GitHub-OIDC-Token header is required"

  /** One minute in nanoseconds, the unit of Go's `time.Duration`. */
  const Minute: int := 60 * 1000000000
}
