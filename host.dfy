/**
 * Hosts (host.go).  A host owns a map of top-level resources keyed by their
 * names.  Serving a request splits its path into segments, picks the
 * resource named by the first meaningful segment, falls back to the
 * resource registered under the empty name, and otherwise writes 404.
 * `Resolve` states that choice as a function of the registered names and
 * the path; `Host.Serve` performs it step by step and is proved to agree.
 */
module Hosts {
  import opened Wrappers
  import opened Errors
  import opened GoStrings
  import opened Resources
  import opened Regexp
  import opened Http
  import opened Api

  type HostName = string

  /** `HostName.StripPort`: the part of the name before the first `:`. */
  function StripPort(h: HostName): (r: HostName)
    ensures ':' !in r
    ensures HasPrefix(h, r)
    ensures ':' !in h ==> r == h
    ensures ':' in h ==> |r| < |h| && h[|r|] == ':'
  {
    PrefixBeforeShape(h, ':');
    Split(h, ':')[0]
  }

  /** Stripping the port twice is stripping it once. */
  lemma StripPortIdempotent(h: HostName)
    ensures StripPort(StripPort(h)) == StripPort(h)
  {
  }

  /** A `:<port>` suffix is exactly what `StripPort` removes. */
  lemma StripPortRemovesPort(h: HostName, p: string)
    requires ':' !in h
    ensures StripPort(h + ":" + p) == h
  {
    var s := h + ":" + p;
    assert s[|h|] == ':';
    assert s[..|h|] == h;
  }

  /**
   * A top-level resource: an API resource, or a static-file resource
   * (html.go), whose `Name()` is always the empty name.
   */
  datatype Resource = Api(res: BaseAPIRes) | Html(baseDir: string) {
    function Name(): (n: ResourceName)
      ensures Api? ==> n == res.name
      ensures Html? ==> n == ResourceName("")
    {
      match this
      case Api(res) => res.name
      case Html(_) => ResourceName("")
    }
  }

  /** The path's segments after removing at most one trailing `/`. */
  function RequestPaths(path: string): (reqPaths: seq<ResourceName>)
    ensures |reqPaths| >= 1
  {
    AsNames(if HasSuffix(path, "/") then Split(path[..|path| - 1], '/') else Split(path, '/'))
  }

  /** The index of the first meaningful segment: 1 after a leading `/`, clamped to the segments. */
  function FirstIndex(path: string): (i: nat)
    ensures i < |RequestPaths(path)|
  {
    var idx := if HasPrefix(path, "/") then 1 else 0;
    if idx >= |RequestPaths(path)| then 0 else idx
  }

  /**
   * The first meaningful segment, defined on the text of the path: what
   * comes before the next `/` once one leading `/` is dropped.
   */
  function FirstSegment(path: string): ResourceName {
    ResourceName(PrefixBefore(if HasPrefix(path, "/") then path[1..] else path, '/'))
  }

  /** The segment the step-by-step arithmetic looks up is the first meaningful segment. */
  lemma {:induction false} FirstIndexNamesFirstSegment(path: string)
    ensures RequestPaths(path)[FirstIndex(path)] == FirstSegment(path)
    ensures HasPrefix(path, "/") ==> RequestPaths(path)[0] == ResourceName("")
  {
    var trimmed := if HasSuffix(path, "/") then path[..|path| - 1] else path;
    assert RequestPaths(path) == AsNames(Split(trimmed, '/'));
    if HasSuffix(path, "/") {
      assert path == trimmed + ['/'];
    }
    if HasPrefix(path, "/") {
      if |trimmed| == 0 {
        assert path == "/";
        assert Split(trimmed, '/') == [""];
      } else {
        assert trimmed[0] == '/';
        assert Split(trimmed, '/') == [""] + Split(trimmed[1..], '/');
        if HasSuffix(path, "/") {
          assert path[1..] == trimmed[1..] + ['/'];
          PrefixBeforeTrailing(trimmed[1..], '/');
        } else {
          assert path[1..] == trimmed[1..];
        }
      }
    } else {
      if HasSuffix(path, "/") {
        PrefixBeforeTrailing(trimmed, '/');
      }
    }
  }

  /** The resource chosen for a request and the segments handed to it. */
  datatype Route = Route(target: ResourceName, segments: seq<ResourceName>)

  /**
   * The resource `Serve` hands a request to: the one named by the first
   * meaningful segment, which takes precedence; otherwise the one under the
   * empty name, with `""` put in front of the segments when the path had no
   * leading `/`; `None` when neither exists.  The segments handed over are a
   * suffix of the path's segments, possibly behind an added `""`, and start
   * with the chosen resource's name.
   */
  function Resolve(names: set<ResourceName>, path: string): (route: Option<Route>)
    ensures route.None? <==> FirstSegment(path) !in names && ResourceName("") !in names
    ensures FirstSegment(path) in names ==> route == Some(Route(FirstSegment(path), RequestPaths(path)[FirstIndex(path)..]))
    ensures FirstSegment(path) !in names && ResourceName("") in names ==> route.Some? && route.value.target == ResourceName("")
    ensures route.Some? ==>
              && route.value.target in names
              && |route.value.segments| >= 1
              && route.value.segments[0] == route.value.target
              && exists k :: 0 <= k <= |RequestPaths(path)| &&
                   (route.value.segments == RequestPaths(path)[k..] ||
                    route.value.segments == [ResourceName("")] + RequestPaths(path)[k..])
  {
    FirstIndexNamesFirstSegment(path);
    var reqPaths := RequestPaths(path);
    var pathIdx := FirstIndex(path);
    if reqPaths[pathIdx] in names then
      Some(Route(reqPaths[pathIdx], reqPaths[pathIdx..]))
    else if ResourceName("") in names then
      var fallback := if HasPrefix(path, "/") then reqPaths else [ResourceName("")] + reqPaths;
      assert reqPaths == reqPaths[0..];
      Some(Route(ResourceName(""), fallback))
    else
      None
  }

  /** `/<n>/<d>` goes to the resource named `n`, which is handed the segments `[n, d]`. */
  lemma ResolveCollectionPath(names: set<ResourceName>, n: string, d: string)
    requires n != "" && d != "" && '/' !in n && '/' !in d
    requires ResourceName(n) in names
    ensures Resolve(names, "/" + n + "/" + d) == Some(Route(ResourceName(n), [ResourceName(n), ResourceName(d)]))
  {
    var path := "/" + n + "/" + d;
    TwoSegmentPath(n, d);
    assert path[|path| - 1] == d[|d| - 1];
    assert RequestPaths(path) == [ResourceName(""), ResourceName(n), ResourceName(d)];
    FirstIndexNamesFirstSegment(path);
  }

  /**
   * `/<n>` with no resource named `n` falls back to the root resource, which
   * is handed the segments `["", n]`.
   */
  lemma ResolveRootFallback(names: set<ResourceName>, n: string)
    requires n != "" && '/' !in n
    requires ResourceName(n) !in names && ResourceName("") in names
    ensures Resolve(names, "/" + n) == Some(Route(ResourceName(""), [ResourceName(""), ResourceName(n)]))
  {
    var path := "/" + n;
    OneSegmentPath(n);
    assert path[|path| - 1] == n[|n| - 1];
    assert RequestPaths(path) == [ResourceName(""), ResourceName(n)];
    FirstIndexNamesFirstSegment(path);
  }

  /**
   * A path without a leading `/` that names no resource falls back to the
   * root resource with `""` put in front: `<n>` hands over `["", n]`.
   */
  lemma ResolveRelativeFallback(names: set<ResourceName>, n: string)
    requires n != "" && '/' !in n
    requires ResourceName(n) !in names && ResourceName("") in names
    ensures Resolve(names, n) == Some(Route(ResourceName(""), [ResourceName(""), ResourceName(n)]))
  {
    SplitJoin([n], '/');
    assert Join([n], '/') == n;
    assert !HasSuffix(n, "/") by { assert n[|n| - 1] != '/'; }
    assert !HasPrefix(n, "/") by { assert n[0] != '/'; }
    assert RequestPaths(n) == [ResourceName(n)];
    assert FirstIndex(n) == 0;
    assert [ResourceName("")] + RequestPaths(n) == [ResourceName(""), ResourceName(n)];
  }

  /** What a top-level resource does with a request. */
  function ResourceOutcome(r: Resource, e: Engine, c: Context, req: Request): Outcome
    requires GoRegexp(e)
    reads if r.Api? then {r.res} else {}
  {
    match r
    case Api(res) => Dispatch(e, res.State(), c, req)
    case Html(baseDir) => FileServed(baseDir)
  }

  class Host {
    const name: HostName
    var resources: map<ResourceName, Resource>

    /** Every resource is filed under its own name. */
    ghost predicate Valid()
      reads this
    {
      forall k :: k in resources ==> resources[k].Name() == k
    }

    /** The API resource objects the host can hand requests to. */
    ghost function Objects(): set<object>
      reads this
    {
      set k | k in resources && resources[k].Api? :: resources[k].res
    }

    /** `newHost`: a host with no resources. */
    constructor (name: HostName)
      ensures Valid() && this.name == name && resources == map[]
    {
      this.name := name;
      resources := map[];
    }

    function TopLevelResourceCount(): nat
      reads this
    {
      |resources|
    }

    /** `GetResource`: exact lookup by name. */
    function GetResource(n: ResourceName): (r: Option<Resource>)
      reads this
      ensures r.Some? <==> n in resources
      ensures r.Some? ==> r.value == resources[n]
      ensures Valid() && r.Some? ==> r.value.Name() == n
    {
      if n in resources then Some(resources[n]) else None
    }

    /**
     * `AddResource`: `None` (Go's nil) and a name already present are errors
     * that leave the map unchanged; otherwise the resource is filed under its
     * name and the count grows by one.
     */
    method AddResource(r: Option<Resource>) returns (err: Option<Error>)
      requires Valid()
      modifies this
      ensures Valid()
      ensures r.None? ==> err == Some(NilResource) && resources == old(resources)
      ensures r.Some? && r.value.Name() in old(resources) ==>
                err == Some(ResourceAlreadyExists(r.value.Name().String(), name)) && resources == old(resources)
      ensures r.Some? && r.value.Name() !in old(resources) ==>
                && err.None?
                && resources == old(resources)[r.value.Name() := r.value]
                && TopLevelResourceCount() == old(TopLevelResourceCount()) + 1
                && GetResource(r.value.Name()) == Some(r.value)
    {
      if r.None? {
        err := Some(NilResource);
        return;
      }
      var res := r.value;
      if res.Name() in resources {
        err := Some(ResourceAlreadyExists(res.Name().String(), name));
        return;
      }
      resources := resources[res.Name() := res];
      err := None;
    }

    /** The outcome of serving `req`, as `Resolve` picks the resource. */
    function Answer(e: Engine, req: Request): Outcome
      requires GoRegexp(e)
      requires Valid()
      reads this, Objects()
    {
      match Resolve(resources.Keys, req.path)
      case None => Wrote(StatusNotFound)
      case Some(route) =>
        ResourceOutcome(resources[route.target], e, req.ctx[KeyURISegments := Segments(route.segments)], req)
    }

    /** `Serve`: the segment arithmetic of the source, proved to agree with `Answer`. */
    method Serve(e: Engine, req: Request) returns (o: Outcome)
      requires GoRegexp(e)
      requires Valid()
      ensures o == Answer(e, req)
    {
      var reqPaths: seq<ResourceName>;
      if HasSuffix(req.path, "/") {
        reqPaths := ResourceNames(Split(req.path[..|req.path| - 1], '/'));
      } else {
        reqPaths := ResourceNames(Split(req.path, '/'));
      }
      var ctx := req.ctx;
      var pathIdx := 0;
      var leadSlash := false;
      if HasPrefix(req.path, "/") {
        pathIdx := 1;
        leadSlash := true;
      }
      if pathIdx >= |reqPaths| {
        pathIdx := 0;
      }
      assert reqPaths == RequestPaths(req.path) && pathIdx == FirstIndex(req.path);
      var res := GetResource(reqPaths[pathIdx]);
      if res.None? {
        pathIdx := 0;
        if !leadSlash {
          reqPaths := [ResourceName("")] + reqPaths;
        }
        res := GetResource(ResourceName(""));
        assert reqPaths[pathIdx..] == reqPaths;
      }
      if res.Some? {
        ctx := ctx[KeyURISegments := Segments(reqPaths[pathIdx..])];
        match res.value {
          case Api(api) =>
            o := api.HandleCall(e, ctx, req);
          case Html(baseDir) =>
            o := FileServed(baseDir);
        }
      } else {
        o := Wrote(StatusNotFound);
      }
    }
  }
}
