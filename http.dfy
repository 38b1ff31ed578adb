/**
 * The slice of Go's `net/http` and `context` packages the router touches.
 * A request-scoped `context.Context` is a finite map from keys to values;
 * `context.WithValue(ctx, k, v)` is the map update `ctx[k := v]`, and a
 * lookup of a missing key is Go's `nil`.  The response writer is not
 * modelled as an object: each handler returns an outcome that records the
 * status the router wrote or the user code it handed the request to.
 */
module Http {
  import opened Resources

  /** The dynamically typed values the core stores in a context. */
  datatype CtxValue =
    | Str(s: string)
    | Flag(b: bool)
    | Segments(names: seq<ResourceName>)
    | Other(tag: nat)   // any other value an integrator stored

  type Context = map<string, CtxValue>

  /** The parts of an `*http.Request` the core reads. */
  datatype Request = Request(httpMethod: string, path: string, host: string, ctx: Context)

  const MethodGet := "GET"
  const MethodPost := "POST"
  const MethodPut := "PUT"
  const MethodPatch := "PATCH"
  const MethodDelete := "DELETE"

  const StatusNotFound := 404
  const StatusMethodNotAllowed := 405
}
