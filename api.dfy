/**
 * The API resource dispatcher (api.go).
 *
 * A `BaseAPIRes` object holds a name, an identifier pattern, a map from
 * actions to registered functions and a top-level handler; its setters
 * update those fields in place.  Handling a request is a deterministic
 * function of that state, the incoming context and the request: `Dispatch`
 * states it, and the method `HandleCall` is proved to compute it.  User
 * functions and handlers are opaque tokens; what matters is which one runs,
 * with which action and context.
 */
module Api {
  import opened Wrappers
  import opened Errors
  import opened GoStrings
  import opened Resources
  import opened Regexp
  import opened Http

  /** The semantic action a request resolves to (`unknown` is the zero value). */
  datatype ActionType = Unknown | Create | List | Fetch | Update | Delete {

    /** The position of the constant in the source's `iota` block. */
    function Ordinal(): (n: nat)
      ensures n < |ActionNames|
    {
      match this
      case Unknown => 0
      case Create => 1
      case List => 2
      case Fetch => 3
      case Update => 4
      case Delete => 5
    }

    /** `ActionType.String`: the name at the action's position in the name table. */
    function String(): (s: string)
      ensures s in ActionNames
    {
      ActionNames[Ordinal()]
    }
  }

  const ActionNames: seq<string> := ["Unknown", "Create", "List", "Fetch", "Update", "Delete"]

  /** Distinct actions print differently. */
  lemma ActionStringInjective(a: ActionType, b: ActionType)
    ensures a.String() == b.String() ==> a == b
  {
  }

  /** A user-supplied `ResweaveFunc`, known only by its identity. */
  datatype Func = Func(tag: nat)

  /** The resource's top-level handler: the built-in `defaultHandler` or a user `HandlerFunction`. */
  datatype Handler = DefaultHandler | CustomHandler(tag: nat)

  /** What handling a request amounted to. */
  datatype Outcome =
    | Wrote(status: int)                              // the router wrote only a status code
    | Ran(f: Func, ctx: Context)                      // a registered action function was called
    | Handled(tag: nat, at: ActionType, ctx: Context) // a custom handler was called
    | FileServed(baseDir: string)                     // a static-file resource took over
    | Panicked                                        // a failed type assertion

  /** The state of a `BaseAPIRes`, as a value. */
  datatype ApiRes = ApiRes(name: ResourceName, actionMap: map<ActionType, Func>, id: ID, handler: Handler)

  const KeyRequestID := "INCOMING_REQUEST_ID"
  /** `KeyURISegments` is used by the host; its text is not part of this model, any fixed key will do. */
  const KeyURISegments := "URI_SEGMENTS"

  /** The context key of a resource's identifier, `id_<name>`. */
  function IdKey(name: ResourceName): string {
    "id_" + name.String()
  }

  /** The context key of a resource's sub-segment flag, `pathHasSubSegment_<name>`. */
  function SubSegmentKey(name: ResourceName): string {
    "pathHasSubSegment_" + name.String()
  }

  /** Keys of different resources, and keys of different kinds, never collide. */
  lemma KeysDistinct(a: ResourceName, b: ResourceName)
    ensures IdKey(a) == IdKey(b) ==> a == b
    ensures SubSegmentKey(a) == SubSegmentKey(b) ==> a == b
    ensures IdKey(a) != SubSegmentKey(b)
    ensures IdKey(a) != KeyURISegments && SubSegmentKey(a) != KeyURISegments
    ensures IdKey(a) != KeyRequestID && SubSegmentKey(a) != KeyRequestID
  {
    if IdKey(a) == IdKey(b) {
      assert a.value == IdKey(a)[3..] == IdKey(b)[3..] == b.value;
    }
    if SubSegmentKey(a) == SubSegmentKey(b) {
      assert a.value == SubSegmentKey(a)[18..] == SubSegmentKey(b)[18..] == b.value;
    }
    assert IdKey(a)[0] == 'i' && SubSegmentKey(a)[0] == 'p' && SubSegmentKey(b)[0] == 'p';
    assert KeyRequestID[0] == 'I' && KeyURISegments[0] == 'U';
  }

  /** The segment after the first segment equal to `name`; `""` when there is none. */
  function SegmentAfter(segs: seq<string>, name: string): string {
    if |segs| == 0 then ""
    else if segs[0] == name then (if |segs| > 1 then segs[1] else "")
    else SegmentAfter(segs[1..], name)
  }

  /** When `name` first occurs at `k`, `SegmentAfter` is the segment at `k + 1`, or `""` if there is none. */
  lemma {:induction false} SegmentAfterFirstOccurrence(segs: seq<string>, name: string, k: nat)
    requires k < |segs| && segs[k] == name
    requires forall j :: 0 <= j < k ==> segs[j] != name
    ensures SegmentAfter(segs, name) == if k + 1 < |segs| then segs[k + 1] else ""
  {
    if k > 0 {
      SegmentAfterFirstOccurrence(segs[1..], name, k - 1);
    }
  }

  /** When `name` does not occur, `SegmentAfter` is `""`. */
  lemma {:induction false} SegmentAfterAbsent(segs: seq<string>, name: string)
    requires name !in segs
    ensures SegmentAfter(segs, name) == ""
  {
    if |segs| > 0 {
      SegmentAfterAbsent(segs[1..], name);
    }
  }

  /** Whether the path has a non-empty segment after the resource's name. */
  predicate HasSubSegment(name: ResourceName, path: string) {
    SegmentAfter(Split(path, '/'), name.String()) != ""
  }

  /**
   * `GetIDValue`: the string stored under `id_<name>`, or `("", ErrIDNotFound)`
   * when the key is missing or holds something other than a string.
   */
  function GetIDValue(name: ResourceName, ctx: Context): (r: (string, Option<Error>))
    ensures r.1.None? <==> IdKey(name) in ctx && ctx[IdKey(name)].Str?
    ensures r.1.None? ==> r.0 == ctx[IdKey(name)].s
    ensures r.1.Some? ==> r == ("", Some(IDNotFound))
  {
    var key := IdKey(name);
    if key in ctx && ctx[key].Str? then (ctx[key].s, None) else ("", Some(IDNotFound))
  }

  /**
   * `whichAction`: GET is Fetch when an identifier is in the context and List
   * otherwise; POST is Create, DELETE is Delete, PUT and PATCH are Update;
   * every other method is unknown.
   */
  function WhichAction(name: ResourceName, ctx: Context, httpMethod: string): (at: ActionType)
    ensures httpMethod == MethodGet ==> at in {Fetch, List} && (at == Fetch <==> GetIDValue(name, ctx).1.None?)
    ensures httpMethod == MethodPost <==> at == Create
    ensures httpMethod == MethodDelete <==> at == Delete
    ensures httpMethod in {MethodPut, MethodPatch} <==> at == Update
    ensures at == Unknown <==> httpMethod !in {MethodGet, MethodPost, MethodDelete, MethodPut, MethodPatch}
  {
    if httpMethod == MethodGet then
      (if GetIDValue(name, ctx).1.None? then Fetch else List)
    else if httpMethod == MethodPost then Create
    else if httpMethod == MethodDelete then Delete
    else if httpMethod == MethodPut || httpMethod == MethodPatch then Update
    else Unknown
  }

  /**
   * What `storeID` does to the context: the sub-segment flag is always set,
   * to whether a non-empty segment follows the resource's name; when one
   * does, the identifier found in it is stored, or `ErrIDNotFound` is
   * returned when the pattern finds none.  No other key changes.
   */
  function IdentifierContext(e: Engine, name: ResourceName, id: ID, c: Context, path: string): (r: (Context, Option<Error>))
    requires GoRegexp(e)
    ensures SubSegmentKey(name) in r.0 && r.0[SubSegmentKey(name)] == Flag(HasSubSegment(name, path))
    ensures forall k :: k != SubSegmentKey(name) && k != IdKey(name) ==> (k in r.0 <==> k in c) && (k in c ==> r.0[k] == c[k])
    ensures !HasSubSegment(name, path) ==> r.1.None? && r.0 == c[SubSegmentKey(name) := Flag(false)]
    ensures r.1.Some? ==> r.1 == Some(IDNotFound) && HasSubSegment(name, path)
    ensures r.1.Some? <==> HasSubSegment(name, path) && !Find(e, id, SegmentAfter(Split(path, '/'), name.String())).1
    ensures HasSubSegment(name, path) && r.1.None? ==>
              IdKey(name) in r.0 && r.0[IdKey(name)].Str? &&
              IsSubstring(r.0[IdKey(name)].s, SegmentAfter(Split(path, '/'), name.String()))
    ensures HasSubSegment(name, path) && r.1.None? ==>
              r.0 == c[SubSegmentKey(name) := Flag(true)][IdKey(name) := Str(Find(e, id, SegmentAfter(Split(path, '/'), name.String())).0)]
    ensures r.1.Some? ==> r.0 == c[SubSegmentKey(name) := Flag(true)]
  {
    KeysDistinct(name, name);
    var idVal := SegmentAfter(Split(path, '/'), name.String());
    if |idVal| == 0 then (c[SubSegmentKey(name) := Flag(false)], None)
    else
      var flagged := c[SubSegmentKey(name) := Flag(true)];
      var (v, found) := Find(e, id, idVal);
      if !found then (flagged, Some(IDNotFound))
      else (flagged[IdKey(name) := Str(v)], None)
  }

  /**
   * `defaultHandler`: run the function registered for the action, or write
   * 405 when there is none; a List on a path that had a sub-segment writes
   * 404 instead.  Reading the flag is a type assertion, which panics when the
   * flag is missing or not a boolean.
   */
  function DefaultHandle(r: ApiRes, at: ActionType, c: Context): (o: Outcome)
    ensures o == Panicked <==> at == List && !(SubSegmentKey(r.name) in c && c[SubSegmentKey(r.name)].Flag?)
    ensures at == List && SubSegmentKey(r.name) in c && c[SubSegmentKey(r.name)] == Flag(true) ==> o == Wrote(StatusNotFound)
    ensures at != List || (SubSegmentKey(r.name) in c && c[SubSegmentKey(r.name)] == Flag(false)) ==>
              o == if at in r.actionMap then Ran(r.actionMap[at], c) else Wrote(StatusMethodNotAllowed)
  {
    var fun := if at in r.actionMap then Ran(r.actionMap[at], c) else Wrote(StatusMethodNotAllowed);
    if at == List then
      var key := SubSegmentKey(r.name);
      if key in c && c[key].Flag? then
        (if c[key].b then Wrote(StatusNotFound) else fun)
      else Panicked
    else fun
  }

  /**
   * `HandleCall`: a `storeID` error writes 404; an unknown method writes 405;
   * in neither case is any handler called.  Otherwise the installed handler
   * is called exactly once, with the resolved action and the new context.
   */
  function Dispatch(e: Engine, r: ApiRes, c: Context, req: Request): (o: Outcome)
    requires GoRegexp(e)
    ensures o != Panicked
    ensures IdentifierContext(e, r.name, r.id, c, req.path).1.Some? ==> o == Wrote(StatusNotFound)
    ensures IdentifierContext(e, r.name, r.id, c, req.path).1.None? ==>
              var ctx := IdentifierContext(e, r.name, r.id, c, req.path).0;
              var at := WhichAction(r.name, ctx, req.httpMethod);
              && (at == Unknown ==> o == Wrote(StatusMethodNotAllowed))
              && (at != Unknown && r.handler.CustomHandler? ==> o == Handled(r.handler.tag, at, ctx))
              && (at != Unknown && r.handler == DefaultHandler ==> o == DefaultHandle(r, at, ctx))
  {
    var (ctx, err) := IdentifierContext(e, r.name, r.id, c, req.path);
    if err.Some? then Wrote(StatusNotFound)
    else
      var at := WhichAction(r.name, ctx, req.httpMethod);
      if at == Unknown then Wrote(StatusMethodNotAllowed)
      else match r.handler
        case CustomHandler(h) => Handled(h, at, ctx)
        case DefaultHandler => DefaultHandle(r, at, ctx)
  }

  /** `BaseAPIRes`: an API resource whose configuration is changed in place by its setters. */
  class BaseAPIRes {
    const name: ResourceName
    var actionMap: map<ActionType, Func>
    var id: ID
    var handler: Handler

    function State(): ApiRes
      reads this
    {
      ApiRes(name, actionMap, id, handler)
    }

    /** `NewAPI`: no action registered, the empty identifier pattern, the default handler. */
    constructor (name: ResourceName)
      ensures State() == ApiRes(name, map[], "", DefaultHandler)
    {
      this.name := name;
      actionMap := map[];
      id := "";
      handler := DefaultHandler;
    }

    /** `SetID`: installs a compiling pattern; a pattern that does not compile is an error and changes nothing. */
    method SetID(e: Engine, newId: ID) returns (err: Option<Error>)
      modifies this
      ensures e.compiles(newId) ==> err.None? && State() == old(State()).(id := newId)
      ensures !e.compiles(newId) ==> err == Some(BadPattern(newId)) && State() == old(State())
    {
      var (valid, compileErr) := IsValid(e, newId);
      if !valid {
        err := compileErr;
        return;
      }
      id := newId;
      err := None;
    }

    /** `setFunction`: `None` deletes the action's key, `Some(f)` maps it to `f`; no other key changes. */
    method SetFunction(at: ActionType, f: Option<Func>)
      modifies this
      ensures State() == old(State()).(actionMap := if f.None? then old(actionMap) - {at} else old(actionMap)[at := f.value])
      ensures forall a :: a != at ==> (a in actionMap <==> a in old(actionMap)) && (a in actionMap ==> actionMap[a] == old(actionMap)[a])
      ensures at in actionMap <==> f.Some?
    {
      if f.None? {
        actionMap := actionMap - {at};
        return;
      }
      actionMap := actionMap[at := f.value];
    }

    method SetFetch(f: Option<Func>)
      modifies this
      ensures State() == old(State()).(actionMap := if f.None? then old(actionMap) - {Fetch} else old(actionMap)[Fetch := f.value])
    {
      SetFunction(Fetch, f);
    }

    method SetDelete(f: Option<Func>)
      modifies this
      ensures State() == old(State()).(actionMap := if f.None? then old(actionMap) - {Delete} else old(actionMap)[Delete := f.value])
    {
      SetFunction(Delete, f);
    }

    method SetList(f: Option<Func>)
      modifies this
      ensures State() == old(State()).(actionMap := if f.None? then old(actionMap) - {List} else old(actionMap)[List := f.value])
    {
      SetFunction(List, f);
    }

    method SetCreate(f: Option<Func>)
      modifies this
      ensures State() == old(State()).(actionMap := if f.None? then old(actionMap) - {Create} else old(actionMap)[Create := f.value])
    {
      SetFunction(Create, f);
    }

    method SetUpdate(f: Option<Func>)
      modifies this
      ensures State() == old(State()).(actionMap := if f.None? then old(actionMap) - {Update} else old(actionMap)[Update := f.value])
    {
      SetFunction(Update, f);
    }

    /** `SetHandler`: `None` reinstalls the default handler. */
    method SetHandler(h: Option<nat>)
      modifies this
      ensures State() == old(State()).(handler := if h.None? then DefaultHandler else CustomHandler(h.value))
    {
      if h.None? {
        handler := DefaultHandler;
        return;
      }
      handler := CustomHandler(h.value);
    }

    /**
     * `storeID`: walks the path's segments to the first one equal to the
     * resource's name and takes the one after it as the identifier candidate.
     */
    method StoreID(e: Engine, c: Context, req: Request) returns (ctx: Context, err: Option<Error>)
      requires GoRegexp(e)
      ensures (ctx, err) == IdentifierContext(e, name, id, c, req.path)
    {
      var uriSegments := Split(req.path, '/');
      var nm := name.String();
      ctx := c;
      var uriSeg := -1;
      var idVal := "";
      var i := 0;
      while i < |uriSegments|
        invariant 0 <= i <= |uriSegments|
        invariant idVal == ""
        invariant uriSeg < 0 ==> SegmentAfter(uriSegments, nm) == SegmentAfter(uriSegments[i..], nm)
        invariant uriSeg >= 0 ==> SegmentAfter(uriSegments, nm) == if i < |uriSegments| then uriSegments[i] else ""
      {
        if uriSeg >= 0 {
          idVal := uriSegments[i];
          break;
        }
        if uriSegments[i] == nm {
          uriSeg := i;
        }
        assert uriSegments[i..][1..] == uriSegments[i + 1..];
        i := i + 1;
      }
      if |idVal| == 0 {
        ctx := ctx[SubSegmentKey(name) := Flag(false)];
        err := None;
        return;
      }
      ctx := ctx[SubSegmentKey(name) := Flag(true)];
      var (v, found) := Find(e, id, idVal);
      if !found {
        err := Some(IDNotFound);
        return;
      }
      ctx := ctx[IdKey(name) := Str(v)];
      err := None;
    }

    /**
     * `HandleCall`: the source's statements, one by one; `Dispatch` is the
     * specification it is proved to compute, so the two deliberately share
     * their shape.
     */
    method HandleCall(e: Engine, c: Context, req: Request) returns (o: Outcome)
      requires GoRegexp(e)
      ensures o == Dispatch(e, State(), c, req)
    {
      var ctx, err := StoreID(e, c, req);
      if err.Some? {
        o := Wrote(StatusNotFound);   // unknownResource
        return;
      }
      var at := WhichAction(name, ctx, req.httpMethod);
      if at == Unknown {
        o := Wrote(StatusMethodNotAllowed);   // defaultFunction
        return;
      }
      match handler
      case CustomHandler(h) =>
        o := Handled(h, at, ctx);
      case DefaultHandler =>
        o := DefaultHandle(State(), at, ctx);
    }
  }
}
