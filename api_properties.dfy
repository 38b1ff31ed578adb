/**
 * Consequences of the dispatcher's definitions for whole requests: the
 * request shapes `GET /<collection>`, `GET /<collection>/<id>` and a
 * rejected identifier, the empty default pattern, and the registration
 * round trip of the action setters.
 */
module ApiProperties {
  import opened Wrappers
  import opened Errors
  import opened GoStrings
  import opened Resources
  import opened Regexp
  import opened Http
  import opened Api

  /** A string of digits is its own leftmost maximal digit run. */
  lemma DigitsAreTheirOwnRun(d: string)
    requires |d| > 0 && forall j :: 0 <= j < |d| ==> IsDigit(d[j])
    ensures LeftmostDigitRun(d) == Some(d)
  {
    assert d[0..0 + |d|] == d;
    assert LeftmostMaximalRunAt(d, 0, d);
    LeftmostMaximalRunIsFound(d, 0, d);
  }

  /**
   * `GET /<collection>` resolves to List: with the default handler it runs
   * the registered List function, or writes 405 when none is registered.
   */
  lemma BareCollectionIsList(e: Engine, r: ApiRes, c: Context, host: string, rc: Context)
    requires GoRegexp(e)
    requires '/' !in r.name.value
    requires IdKey(r.name) !in c
    requires r.handler == DefaultHandler
    ensures var ctx := c[SubSegmentKey(r.name) := Flag(false)];
            Dispatch(e, r, c, Request(MethodGet, "/" + r.name.value, host, rc))
              == if List in r.actionMap then Ran(r.actionMap[List], ctx) else Wrote(StatusMethodNotAllowed)
  {
    OneSegmentPath(r.name.value);
    if r.name.value == "" {
      SegmentAfterFirstOccurrence(["", r.name.value], r.name.value, 0);
    } else {
      SegmentAfterFirstOccurrence(["", r.name.value], r.name.value, 1);
    }
    KeysDistinct(r.name, r.name);
  }

  /**
   * `GET /<collection>/<digits>` on a resource with `NumericID` resolves to
   * Fetch: the registered Fetch function runs with `id_<name>` holding the
   * digits and the sub-segment flag set.
   */
  lemma FetchWithNumericID(e: Engine, r: ApiRes, c: Context, d: string, host: string, rc: Context)
    requires GoRegexp(e)
    requires r.id == NumericID && r.handler == DefaultHandler && Fetch in r.actionMap
    requires r.name.value != "" && '/' !in r.name.value
    requires |d| > 0 && forall j :: 0 <= j < |d| ==> IsDigit(d[j])
    ensures Dispatch(e, r, c, Request(MethodGet, "/" + r.name.value + "/" + d, host, rc))
              == Ran(r.actionMap[Fetch], c[SubSegmentKey(r.name) := Flag(true)][IdKey(r.name) := Str(d)])
  {
    assert '/' !in d;
    TwoSegmentPath(r.name.value, d);
    SegmentAfterFirstOccurrence(["", r.name.value, d], r.name.value, 1);
    DigitsAreTheirOwnRun(d);
    KeysDistinct(r.name, r.name);
  }

  /** A run of digits with no digit before it and none right after it is the leftmost maximal run. */
  lemma DigitRunBetween(p: string, d: string, q: string)
    requires forall j :: 0 <= j < |p| ==> !IsDigit(p[j])
    requires |d| > 0 && forall j :: 0 <= j < |d| ==> IsDigit(d[j])
    requires |q| == 0 || !IsDigit(q[0])
    ensures LeftmostDigitRun(p + d + q) == Some(d)
  {
    var s := p + d + q;
    assert s[|p|..|p| + |d|] == d;
    assert forall j :: 0 <= j < |p| ==> s[j] == p[j];
    assert |p| + |d| < |s| ==> s[|p| + |d|] == q[0];
    LeftmostMaximalRunIsFound(s, |p|, d);
  }

  /**
   * `GET /<collection>/<p><d><q>` on a resource with `NumericID`, where `p`
   * holds no digit, `d` is a run of digits and `q` does not go on with a
   * digit, runs Fetch with `id_<name>` holding exactly `d`: the identifier is
   * the leftmost maximal digit run of the segment, not the whole segment.
   */
  lemma {:induction false} FetchStoresLeftmostDigitRun(e: Engine, r: ApiRes, c: Context, p: string, d: string, q: string, host: string, rc: Context)
    requires GoRegexp(e)
    requires r.id == NumericID && r.handler == DefaultHandler && Fetch in r.actionMap
    requires r.name.value != "" && '/' !in r.name.value
    requires '/' !in p + d + q
    requires forall j :: 0 <= j < |p| ==> !IsDigit(p[j])
    requires |d| > 0 && forall j :: 0 <= j < |d| ==> IsDigit(d[j])
    requires |q| == 0 || !IsDigit(q[0])
    ensures Dispatch(e, r, c, Request(MethodGet, "/" + r.name.value + "/" + (p + d + q), host, rc))
              == Ran(r.actionMap[Fetch], c[SubSegmentKey(r.name) := Flag(true)][IdKey(r.name) := Str(d)])
  {
    var s := p + d + q;
    TwoSegmentPath(r.name.value, s);
    SegmentAfterFirstOccurrence(["", r.name.value, s], r.name.value, 1);
    DigitRunBetween(p, d, q);
    KeysDistinct(r.name, r.name);
  }

  /** `GET /users/a12b` with `NumericID` stores the identifier `"12"`. */
  lemma UsersA12bStores12(e: Engine, r: ApiRes, c: Context, host: string, rc: Context)
    requires GoRegexp(e)
    requires r.name == ResourceName("users") && r.id == NumericID && r.handler == DefaultHandler && Fetch in r.actionMap
    ensures Dispatch(e, r, c, Request(MethodGet, "/users/a12b", host, rc))
              == Ran(r.actionMap[Fetch], c[SubSegmentKey(r.name) := Flag(true)][IdKey(r.name) := Str("12")])
  {
    assert "/" + "users" + "/" + ("a" + "12" + "b") == "/users/a12b";
    FetchStoresLeftmostDigitRun(e, r, c, "a", "12", "b", host, rc);
  }

  /**
   * `<method> /<collection>/<segment>` on a resource with `NumericID`, where
   * the segment holds no digit, writes 404 and calls no handler, whatever
   * the method and whatever handler is installed.
   */
  lemma RejectedIdentifierIs404(e: Engine, r: ApiRes, c: Context, s: string, httpMethod: string, host: string, rc: Context)
    requires GoRegexp(e)
    requires r.id == NumericID
    requires r.name.value != "" && '/' !in r.name.value
    requires |s| > 0 && '/' !in s && forall j :: 0 <= j < |s| ==> !IsDigit(s[j])
    ensures Dispatch(e, r, c, Request(httpMethod, "/" + r.name.value + "/" + s, host, rc)) == Wrote(StatusNotFound)
  {
    TwoSegmentPath(r.name.value, s);
    SegmentAfterFirstOccurrence(["", r.name.value, s], r.name.value, 1);
  }

  /**
   * A fresh resource's pattern is empty, and the empty pattern accepts any
   * segment after the name as an instance whose identifier is `""`: a GET
   * then resolves to Fetch.
   */
  lemma EmptyPatternAcceptsAnySegment(e: Engine, r: ApiRes, c: Context, s: string, host: string, rc: Context)
    requires GoRegexp(e)
    requires r.id == ""
    requires r.name.value != "" && '/' !in r.name.value
    requires |s| > 0 && '/' !in s
    ensures var path := "/" + r.name.value + "/" + s;
            && IdentifierContext(e, r.name, r.id, c, path) == (c[SubSegmentKey(r.name) := Flag(true)][IdKey(r.name) := Str("")], None)
            && WhichAction(r.name, IdentifierContext(e, r.name, r.id, c, path).0, MethodGet) == Fetch
  {
    TwoSegmentPath(r.name.value, s);
    SegmentAfterFirstOccurrence(["", r.name.value, s], r.name.value, 1);
  }

  /**
   * Registering a function for an action that had none and then setting it
   * to `None` gives back the resource as it was.
   */
  lemma RegisterThenRemoveRestores(r: ApiRes, at: ActionType, f: Func)
    requires at !in r.actionMap
    ensures r.(actionMap := r.actionMap[at := f] - {at}) == r
  {
    assert r.actionMap[at := f] - {at} == r.actionMap;
  }

  /**
   * After `Set*(f)` and `Set*(None)` the action is unregistered, so the
   * default handler writes 405 for it (unless it is a List on a path with a
   * sub-segment, which writes 404).
   */
  lemma RemovedActionIs405(e: Engine, r: ApiRes, f: Func, c: Context, req: Request)
    requires GoRegexp(e)
    requires r.handler == DefaultHandler
    requires IdentifierContext(e, r.name, r.id, c, req.path).1.None?
    ensures var ctx := IdentifierContext(e, r.name, r.id, c, req.path).0;
            var at := WhichAction(r.name, ctx, req.httpMethod);
            var cleared := r.(actionMap := r.actionMap[at := f] - {at});
            Dispatch(e, cleared, c, req)
              == if at == List && HasSubSegment(r.name, req.path) then Wrote(StatusNotFound) else Wrote(StatusMethodNotAllowed)
  {
  }
}
