# resweave routing core in Dafny

resweave is a Go library for opinionated resource servers. A **server**
holds virtual **hosts**, and each host holds top-level **resources**. When a
request arrives, the server picks a host by the request's `Host` header,
with any `:port` removed. It falls back to the default host, which is filed
under the empty name. The host splits the URL path into segments and hands
the request to the resource named by the first meaningful segment. If there
is none, it uses the root resource filed under `""`, and if that is missing
too it writes 404. An API resource (`BaseAPIRes`) then does three things:

- it finds the segment after its own name and stores the identifier that
  its pattern finds there in the request context;
- it maps the HTTP method to an action (List, Fetch, Create, Update,
  Delete);
- it runs the registered function for that action, or writes 405, 404 or
  hands the request to a custom handler.

The model has one module per source file:

- `Resources` (resource.go): `ResourceName`, and `ResourceNames` as a loop
  filling a buffer.
- `Regexp`: the `ID` pattern type with `IsValid` and `Find`. Go's regular
  expression engine is a parameter (`Engine`), constrained by `GoRegexp`.
- `Api` (api.go): the `BaseAPIRes` class, whose setters update its fields in
  place. `Dispatch` and `IdentifierContext` are specification functions, and
  the methods `HandleCall` and `StoreID` are proved to compute them.
  `ApiProperties` derives whole-request consequences from them.
- `Hosts` (host.go): `StripPort`, the routing choice as the function
  `Resolve`, and the `Host` class. `Host.Serve` performs the source's
  segment arithmetic step by step and is proved to agree with `Resolve`.
- `Servers` (server.go): the `Server` class. Its invariant is that the
  default host is always present and every host is filed under its own name.
- `GoStrings` and `Http` hold the parts of Go's `strings` and `net/http`
  that the core uses:
  - `strings.Split`, with its round trip through `Join` proved in both
    directions;
  - the context as a finite map;
  - a request as method, path, host and context;
  - the response as an `Outcome` value that records the status written or
    the user code that ran.

`NewAPI` (api.go:101-106) never sets `id`, so a new resource's pattern is
the empty string, not `NumericID`. `EmptyPatternAcceptsAnySegment` shows
that any non-empty segment after the name is then accepted with identifier
`""`.

## Model

| member | source | states |
|---|---|---|
| Resources.ResourceName.String | resource.go:24-27 | converting a name to a string and back gives the same name |
| Resources.ResourceNames | resource.go:16-22 | the output has the input's length and element i names input string i, so the order is kept and empty input gives empty output |
| GoStrings.Split | api.go:170 | Go's `strings.Split` yields one piece more than there are separators; no piece contains the separator; the first piece is the text before the first separator |
| GoStrings.JoinSplit | host.go:85-89 | joining the pieces of a split gives the original path back |
| GoStrings.SplitJoin | host.go:85-89 | splitting the join of separator-free pieces gives the pieces back |
| GoStrings.TwoSegmentPath | api.go:170 | `/n/d` splits into `["", n, d]` |
| GoStrings.OneSegmentPath | api.go:170 | `/n` splits into `["", n]` |
| Regexp.IsValid | api.go:53-59 | true exactly when the pattern compiles, and an error is returned exactly when it does not |
| Regexp.Find | api.go:61-75 | `("", false)` when the pattern does not compile or does not match; a found value is a substring of the input; the empty pattern finds `""`; `NumericID` finds something iff the input has a digit, and then the leftmost maximal digit run |
| Regexp.LeftmostDigitRunFinds | api.go:29 | the `NumericID` search finds nothing exactly when there is no digit, and otherwise a leftmost maximal run of digits |
| Regexp.LeftmostMaximalRunIsFound | api.go:29 | conversely, a leftmost maximal digit run is what the `NumericID` search returns |
| Regexp.MinimalEngineIsGoRegexp | api.go:62-75 | the assumptions the model makes about the regexp engine can all be met at once |
| Api.ActionType.Ordinal | api.go:36-43 | every action has a position in the name table |
| Api.ActionType.String | api.go:49-51 | the name at the action's position in the six-name table, so always one of the six names |
| Api.ActionStringInjective | api.go:49-51 | distinct actions have distinct names |
| Api.KeysDistinct | api.go:32-33 | the `id_<name>` and `pathHasSubSegment_<name>` keys of different resources differ, never collide with each other and never collide with the request-ID key; they also differ from `"URI_SEGMENTS"`, the key chosen here for the URI segments |
| Api.SegmentAfterFirstOccurrence | api.go:177-185 | the identifier candidate is the segment after the first segment equal to the name, or `""` if that is the last segment |
| Api.SegmentAfterAbsent | api.go:177-185 | when the name does not occur, the identifier candidate is `""` |
| Api.GetIDValue | api.go:116-126 | succeeds iff `id_<name>` holds a string, and then returns it; otherwise returns `("", ErrIDNotFound)` |
| Api.WhichAction | api.go:205-221 | GET is Fetch iff `GetIDValue` succeeds and List otherwise; POST iff Create; DELETE iff Delete; PUT or PATCH iff Update; any other method iff unknown |
| Api.IdentifierContext | api.go:168-203 | the sub-segment flag is always set, to whether a non-empty segment follows the name; with no such segment nothing else is added; otherwise `ErrIDNotFound` is returned exactly when `Find` finds nothing, with only the flag set; on success `id_<name>` holds exactly the value `Find` returned, a substring of that segment; no other key changes |
| Api.DefaultHandle | api.go:245-256 | a registered action runs its function and an unregistered one writes 405; List with the flag true writes 404; the flag's type assertion panics when the flag is missing |
| Api.Dispatch | api.go:231-243 | a `storeID` error writes 404 and an unknown method writes 405, in both cases without calling any handler; otherwise the custom handler is called once with the action and context, or the default handler runs; dispatch never panics |
| Api.BaseAPIRes.constructor | api.go:101-106 | a new resource has no actions, the empty pattern and the default handler |
| Api.BaseAPIRes.SetID | api.go:128-134 | a compiling pattern replaces `id`; a pattern that does not compile returns an error and changes nothing |
| Api.BaseAPIRes.SetFunction | api.go:136-142 | `None` deletes the action's key and `Some(f)` maps it to `f`; no other key or field changes |
| Api.BaseAPIRes.SetFetch | api.go:144-146 | `setFunction` on Fetch |
| Api.BaseAPIRes.SetDelete | api.go:148-150 | `setFunction` on Delete |
| Api.BaseAPIRes.SetList | api.go:152-154 | `setFunction` on List |
| Api.BaseAPIRes.SetCreate | api.go:156-158 | `setFunction` on Create |
| Api.BaseAPIRes.SetUpdate | api.go:160-162 | `setFunction` on Update |
| Api.BaseAPIRes.SetHandler | api.go:223-229 | `None` reinstalls the default handler and `Some(h)` installs `h`; nothing else changes |
| Api.BaseAPIRes.StoreID | api.go:168-203 | the segment loop with its early exit computes exactly `IdentifierContext` |
| Api.BaseAPIRes.HandleCall | api.go:231-243 | computes exactly `Dispatch` on the resource's current state |
| ApiProperties.DigitsAreTheirOwnRun | api.go:29 | `NumericID` finds all of a segment made only of digits |
| ApiProperties.BareCollectionIsList | api.go:231-256 | `GET /<name>` runs the registered List function with the flag false, or writes 405 when none is registered |
| ApiProperties.FetchWithNumericID | api.go:168-221 | `GET /<name>/<digits>` with `NumericID` runs Fetch with `id_<name>` set to the digits and the flag true |
| ApiProperties.DigitRunBetween | api.go:29 | a digit run with no digit before it and none right after it is what `NumericID` finds |
| ApiProperties.FetchStoresLeftmostDigitRun | api.go:193-201 | `GET /<name>/<p><d><q>` with `NumericID` stores exactly the leftmost maximal digit run `d`, not the whole segment, and runs Fetch |
| ApiProperties.UsersA12bStores12 | api.go:193-201 | `GET /users/a12b` with `NumericID` stores the identifier `"12"` |
| ApiProperties.RejectedIdentifierIs404 | api.go:193-199 | with `NumericID`, a segment without digits after the name writes 404 for every method and every handler |
| ApiProperties.EmptyPatternAcceptsAnySegment | api.go:101-106 | with the default empty pattern, any non-empty segment after the name is accepted with identifier `""`, so GET resolves to Fetch |
| ApiProperties.RegisterThenRemoveRestores | api.go:136-142 | registering an absent action and then removing it gives back the original resource |
| ApiProperties.RemovedActionIs405 | api.go:245-256 | after `Set*(f)` and `Set*(None)`, the default handler writes 405 for that action, or 404 for a List with a sub-segment |
| Hosts.Resource.Name | api.go:108-110 | an API resource's name is its `name` field; a static-file resource's name is always `""` (html.go:23-25) |
| Hosts.StripPort | host.go:34-37 | the result is the prefix of the name before the first `:`, or the whole name when there is none, and contains no `:` |
| Hosts.StripPortIdempotent | host.go:35-37 | stripping the port twice is stripping it once |
| Hosts.StripPortRemovesPort | host.go:34-37 | `h:port` strips to `h` for a host name without `:` |
| Hosts.RequestPaths | host.go:84-89 | the segment list of a path, with at most one trailing `/` removed, is never empty |
| Hosts.FirstIndex | host.go:90-100 | the clamped first index is always within the segment list |
| Hosts.FirstIndexNamesFirstSegment | host.go:93-101 | the segment the index arithmetic looks up is the text before the next `/` once one leading `/` is dropped |
| Hosts.Resolve | host.go:101-109 | no resource iff neither the first segment nor `""` is registered; a first-segment match takes precedence; the fallback is the root resource; the segments handed over start with the chosen name and are a suffix of the path's segments, possibly behind an added `""` |
| Hosts.ResolveCollectionPath | host.go:84-112 | `/<n>/<d>` goes to resource `n` with segments `[n, d]` |
| Hosts.ResolveRootFallback | host.go:103-111 | `/<n>` with no resource `n` goes to the root resource with segments `["", n]` |
| Hosts.ResolveRelativeFallback | host.go:103-111 | `<n>` without a leading `/` and with no resource `n` goes to the root resource with `""` put in front: `["", n]` |
| Hosts.Host.constructor | host.go:48-52 | a new host has its name and no resources |
| Hosts.Host.GetResource | host.go:77-80 | found iff the name is in the map, and then returns the entry, which carries that name |
| Hosts.Host.AddResource | host.go:62-75 | nil is an error; a name already present is the already-exists error; in both cases the map is unchanged; otherwise the resource is filed under its name, the count grows by one and nothing else changes |
| Hosts.Host.Serve | host.go:82-117 | the step-by-step segment arithmetic yields exactly what `Resolve` picks: that resource's outcome, or 404 |
| Servers.Server.constructor | server.go:60-66 | the hosts map holds exactly a fresh, empty default host, and `Port()` is the given port |
| Servers.Server.DefaultHost | server.go:97-99 | the default host is present and carries the empty name |
| Servers.Server.ChooseHost | server.go:103-111 | the host filed under the stripped header name if there is one, otherwise the default host |
| Servers.Server.Serve | server.go:101-113 | exactly one host answers: the one `ChooseHost` picks |
| Servers.Server.AddResource | server.go:120-122 | the default host's nil and duplicate contract; the hosts map is unchanged |
| Servers.Server.GetResource | server.go:124-126 | lookup among the default host's resources |
| Servers.Server.AddHost | server.go:128-135 | a name already present, `""` included, returns no host and an error and leaves the map unchanged; otherwise a fresh empty host is filed under the name; no host is ever removed |
| Servers.Server.GetHost | server.go:137-140 | found iff the name is in the map, and then the host filed there, which carries that name |
| Servers.HeaderPortIgnored | server.go:104-106 | a `:port` in the `Host` header does not change which host answers |

## Left out

- Logging (logger.go, every `Infow`/`Debugw` call, `SetLogger` and the `recurse` helpers) is left out. It writes log lines and never affects routing.
- html.go is stubbed as `Hosts.Resource.Html`. Its name is always `""` (html.go:23-25), and serving it yields `FileServed(baseDir)`. The file server itself is not modelled.
- `Run`, `createHTTPServer`, `getRunAddr`, `setRequestIDInterceptor` and `AddInterceptor` (server.go) are left out. They open sockets, set timeouts, generate UUIDs and chain middleware closures.
- Go's `regexp` package is not modelled. `Engine` is a parameter, and only the empty pattern and `NumericID` get concrete behaviour, through `GoRegexp`.
- `KeyURISegments` and `FmtResourceAlreadyExists` are used by host.go but not defined in the files modelled. The first is a fixed key chosen here. The second becomes the error value `ResourceAlreadyExists(resource, host)` rather than its formatted text.
- Context keys are plain strings. Go keys them by type as well as text, so a Go context can hold an integrator's plain `string` key `"id_<name>"` next to the core's `Key` of the same text; the model merges the two, and `GetIDValue` would read the integrator's value where Go's would not.
- Errors are values of `Errors.Error`, not Go error strings.
- `IsValid`'s error is `BadPattern(pattern)` rather than the compiler's message.
- The response writer is modelled as the `Outcome` value, not as headers or a body.
- `ActionType.String` is modelled for the six declared constants only. The Go function panics on any other integer, and the model's `ActionType` has no such values.
- The sub-resource and child-resource APIs (`AddSubResource`, `AddInstancedSubResource`, `AddChildResource`, `ErrNilResource`) and recursive segment consumption are not part of this model. They are not defined in api.go.
- `Servers.Server.AddHost` returns `null` where Go returns a nil `Host` interface.
- Resources: Go interfaces are modelled as a closed choice, either an API resource object or a static-file stub.
- Hosts.Host.TopLevelResourceCount and Servers.Server.Port are plain getters. The constructor and `AddResource` contracts state their values.
