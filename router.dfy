/**
 * The selections the router bridge computes from the state of the external
 * router: the slot name of the outlet, the anchor a link click navigates to,
 * and the loader data of one route. The router library itself, its
 * subscription and its navigation are external; their state is a value here.
 */
module Router {
  import opened Base

  /** One entry of the matched route chain; only the route id is used. */
  datatype Match = Match(routeId: string)

  /** Opaque data produced by a route loader. */
  type LoaderValue = nat

  /** The part of the router's state snapshot that the bridge reads. */
  datatype RouterState = RouterState(
    matches: Option<seq<Match>>,
    loaderData: Option<map<string, LoaderValue>>)

  // ---------------------------------------------------------------------------
  // Outlet

  /** The route ids of the matched chain, in match order (`matches?.map(...)`). */
  function ChildIds(state: Option<RouterState>): (ids: Option<seq<string>>)
    ensures ids.Some? <==> state.Some? && state.value.matches.Some?
    ensures ids.Some? ==>
      |ids.value| == |state.value.matches.value| &&
      forall i :: 0 <= i < |ids.value| ==> ids.value[i] == state.value.matches.value[i].routeId
  {
    match state
    case None => None
    case Some(s) =>
      match s.matches
      case None => None
      case Some(ms) => Some(seq(|ms|, i requires 0 <= i < |ms| => ms[i].routeId))
  }

  /** There is a second match whose route id names the slot. */
  predicate HasSecondMatch(state: Option<RouterState>)
  {
    state.Some? && state.value.matches.Some? && |state.value.matches.value| >= 2
  }

  /** The slot name the outlet renders: the second id of ChildIds, or "". */
  function OutletName(state: Option<RouterState>): (name: string)
    ensures HasSecondMatch(state) ==> name == state.value.matches.value[1].routeId
    ensures !HasSecondMatch(state) ==> name == ""
  {
    var ids := ChildIds(state);
    if ids.Some? && |ids.value| > 1 then ids.value[1] else ""
  }

  /** The slot name depends on nothing but the second match: matches after it
      and the loader data are irrelevant. */
  lemma OutletNameIgnoresDeeperMatches(ms: seq<Match>, extra: seq<Match>, d1: Option<map<string, LoaderValue>>,
                                       d2: Option<map<string, LoaderValue>>)
    requires |ms| >= 2
    ensures OutletName(Some(RouterState(Some(ms), d1))) == OutletName(Some(RouterState(Some(ms + extra), d2)))
  {
    assert (ms + extra)[1] == ms[1];
  }

  // ---------------------------------------------------------------------------
  // Loader data

  /** `loaderData?.[id]`: the data of route `id`, absent (not an error) when
      there is no loader data or no entry for `id`. */
  function LoaderData(state: RouterState, id: string): (data: Option<LoaderValue>)
    ensures data.Some? <==> state.loaderData.Some? && id in state.loaderData.value
    ensures data.Some? ==> data.value == state.loaderData.value[id]
  {
    match state.loaderData
    case None => None
    case Some(m) => if id in m then Some(m[id]) else None
  }

  // ---------------------------------------------------------------------------
  // Link handler

  /** An entry of an event's composed path. Only anchors matter; their `href`
      is the absolute URL the browser resolved. */
  datatype EventTarget = Anchor(href: string) | OtherTarget(id: nat)

  predicate IsAnchor(t: EventTarget)
  {
    t.Anchor?
  }

  /** The index of the first anchor in the composed path (`find`), if any. */
  function FindAnchor(path: seq<EventTarget>): (k: Option<nat>)
    ensures k.Some? ==>
      k.value < |path| && IsAnchor(path[k.value]) &&
      forall j :: 0 <= j < k.value ==> !IsAnchor(path[j])
    ensures k.None? ==> forall j :: 0 <= j < |path| ==> !IsAnchor(path[j])
  {
    if path == [] then None
    else if IsAnchor(path[0]) then Some(0)
    else
      match FindAnchor(path[1..])
      case None => None
      case Some(j) => Some(j + 1)
  }

  /** Why a link click was not turned into a navigation. */
  datatype LinkError =
    | MissingAnchor  // the handler's own Error: no anchor in the composed path
    | MissingRouter  // reading `navigate` of a router no provider supplied throws
    | InvalidUrl     // `new URL(href)` throws on an href that is not a URL

  /** What one call of the handler does: whether the default action was
      prevented, and the pathname passed to `navigate` or what was thrown. */
  datatype LinkOutcome = LinkOutcome(defaultPrevented: bool, result: Result<string, LinkError>)

  /**
   * The click handler. `routerProvided` says whether a router provider
   * answered the context request; `pathnameOf` stands for
   * `new URL(href).pathname`, `None` when the URL constructor throws.
   * The default is prevented before anything can throw.
   */
  function LinkHandler(path: seq<EventTarget>, routerProvided: bool,
                       pathnameOf: string -> Option<string>): (o: LinkOutcome)
    ensures o.defaultPrevented
    ensures o.result == Failure(MissingAnchor) <==> forall j :: 0 <= j < |path| ==> !IsAnchor(path[j])
    ensures o.result.Success? ==>
      exists k :: 0 <= k < |path| && IsAnchor(path[k]) && pathnameOf(path[k].href) == Some(o.result.value)
  {
    var prevented := true;
    match FindAnchor(path)
    case None => LinkOutcome(prevented, Failure(MissingAnchor))
    case Some(k) =>
      if !routerProvided then LinkOutcome(prevented, Failure(MissingRouter))
      else
        match pathnameOf(path[k].href)
        case None => LinkOutcome(prevented, Failure(InvalidUrl))
        case Some(p) => LinkOutcome(prevented, Success(p))
  }

  /** With a router, the handler navigates to the pathname of the FIRST anchor
      of the composed path, whatever later anchors say. */
  lemma {:induction false} LinkHandlerUsesFirstAnchor(path: seq<EventTarget>, k: nat,
                                                     pathnameOf: string -> Option<string>, p: string)
    requires k < |path| && IsAnchor(path[k])
    requires forall j :: 0 <= j < k ==> !IsAnchor(path[j])
    requires pathnameOf(path[k].href) == Some(p)
    ensures LinkHandler(path, true, pathnameOf) == LinkOutcome(true, Success(p))
  {
  }
}
