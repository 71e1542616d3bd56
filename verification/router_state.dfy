/**
 * The route registry: routes by path, and per UI mode an insertion-ordered set of
 * route patches per path. Every mutation that does not throw dispatches one
 * `update` event.
 */
module DeckyRouter {
  import opened Wrappers
  import opened UIModes
  import OrderedSets

  type Path = string
  /** A route patch is compared by reference identity; the identity is an opaque number. */
  type PatchRef = nat
  /** A reference to a React component type. */
  type ComponentRef = nat
  /** The route options bag (the route props without `path` and `children`), kept opaque. */
  type RouteProps = map<string, string>

  datatype RouterEntry = RouterEntry(props: RouteProps, component: ComponentRef)

  /** Per mode: path -> ordered set of patches. */
  type PatchMap = map<Path, seq<PatchRef>>

  /** What `publicState()` hands out: the routes and the mode-keyed patch container. */
  datatype PublicState = PublicState(routes: map<Path, RouterEntry>, routePatches: map<UIMode, PatchMap>)

  /** The patches registered at `path`, empty when none are. */
  function PatchesAt(pm: PatchMap, path: Path): seq<PatchRef> {
    if path in pm then pm[path] else []
  }

  /** Every stored patch set is a proper set and no empty set is left behind. */
  predicate PatchMapValid(pm: PatchMap) {
    forall path :: path in pm ==> pm[path] != [] && OrderedSets.NoDup(pm[path])
  }

  /** The registry's invariant: exactly the seeded modes, each holding valid patch sets. */
  predicate WellFormed(s: PublicState) {
    && s.routePatches.Keys == SeededModes
    && forall mode :: mode in s.routePatches ==> PatchMapValid(s.routePatches[mode])
  }

  /** The state right after construction. */
  function Initial(): (s: PublicState)
    ensures WellFormed(s)
    ensures s.routes == map[]
    ensures forall mode :: mode in s.routePatches ==> s.routePatches[mode] == map[]
  {
    PublicState(map[], Seed(map[]))
  }

  /** The `props = {}` default of `addRoute`. */
  function PropsOrEmpty(props: Option<RouteProps>): RouteProps {
    props.GetOr(map[])
  }

  /** `addRoute(path, component, props)`: unconditional overwrite at `path`. */
  function AddRouteTo(s: PublicState, path: Path, component: ComponentRef, props: Option<RouteProps>): (r: PublicState)
    ensures r.routes.Keys == s.routes.Keys + {path}
    ensures r.routes[path].component == component
    ensures r.routes[path].props == (if props.Some? then props.value else map[])
    ensures forall p :: p in s.routes && p != path ==> r.routes[p] == s.routes[p]
    ensures r.routePatches == s.routePatches
    ensures WellFormed(s) ==> WellFormed(r)
  {
    s.(routes := s.routes[path := RouterEntry(PropsOrEmpty(props), component)])
  }

  /** `removeRoute(path)`: `path` is absent afterwards; nothing else changes. */
  function RemoveRouteFrom(s: PublicState, path: Path): (r: PublicState)
    ensures r.routes.Keys == s.routes.Keys - {path}
    ensures forall p :: p in r.routes ==> r.routes[p] == s.routes[p]
    ensures path !in s.routes ==> r == s
    ensures r.routePatches == s.routePatches
    ensures WellFormed(s) ==> WellFormed(r)
  {
    s.(routes := s.routes - {path})
  }

  /**
   * `addPatch(path, patch, mode)`: throws on a mode without a slot; otherwise creates the
   * set at `path` if missing and adds `patch` to it.
   */
  function AddPatchTo(s: PublicState, path: Path, patch: PatchRef, mode: Option<UIMode>): (r: Result<PublicState, ModeError>)
    ensures r.Failure? <==> !Supports(s.routePatches, mode)
    ensures r.Failure? ==> r.error == UnsupportedMode(mode)
    ensures r.Success? ==> r.value.routes == s.routes && r.value.routePatches.Keys == s.routePatches.Keys
    ensures r.Success? ==>
      var m := mode.value;
      var before := s.routePatches[m];
      var after := r.value.routePatches[m];
      && (forall other :: other in s.routePatches && other != m ==> r.value.routePatches[other] == s.routePatches[other])
      && after.Keys == before.Keys + {path}
      && (forall p :: p in before && p != path ==> after[p] == before[p])
      && (forall x :: x in after[path] <==> x in PatchesAt(before, path) || x == patch)
      && PatchesAt(before, path) <= after[path]
      && (patch !in PatchesAt(before, path) ==> after[path] == PatchesAt(before, path) + [patch])
    ensures r.Success? && WellFormed(s) ==> WellFormed(r.value)
    ensures r.Success? && WellFormed(s) && patch in PatchesAt(s.routePatches[mode.value], path) ==> r.value == s
  {
    if !Supports(s.routePatches, mode) then Failure(UnsupportedMode(mode))
    else
      var patchesForMode := s.routePatches[mode.value];
      var patchList := PatchesAt(patchesForMode, path);
      var updated := patchesForMode[path := OrderedSets.Add(patchList, patch)];
      assert patch in patchList ==> updated == patchesForMode;
      Success(s.(routePatches := s.routePatches[mode.value := updated]))
  }

  /**
   * `removePatch(path, patch, mode)`: throws on a mode without a slot; otherwise deletes
   * `patch` from the set at `path` and deletes the path once its set is empty.
   */
  function RemovePatchFrom(s: PublicState, path: Path, patch: PatchRef, mode: Option<UIMode>): (r: Result<PublicState, ModeError>)
    ensures r.Failure? <==> !Supports(s.routePatches, mode)
    ensures r.Failure? ==> r.error == UnsupportedMode(mode)
    ensures r.Success? ==> r.value.routes == s.routes && r.value.routePatches.Keys == s.routePatches.Keys
    ensures r.Success? ==>
      var m := mode.value;
      var before := s.routePatches[m];
      var after := r.value.routePatches[m];
      && (forall other :: other in s.routePatches && other != m ==> r.value.routePatches[other] == s.routePatches[other])
      && (forall p :: p in before && p != path ==> p in after && after[p] == before[p])
      && (forall x :: x in PatchesAt(after, path) <==> x in PatchesAt(before, path) && x != patch)
      && (path in after <==> path in before && OrderedSets.Delete(before[path], patch) != [])
      && (path in after ==> after[path] == OrderedSets.Delete(before[path], patch))
      && after.Keys <= before.Keys
    ensures r.Success? && WellFormed(s) ==> WellFormed(r.value)
    ensures r.Success? && WellFormed(s) && patch !in PatchesAt(s.routePatches[mode.value], path) ==> r.value == s
  {
    if !Supports(s.routePatches, mode) then Failure(UnsupportedMode(mode))
    else
      var patchesForMode := s.routePatches[mode.value];
      if path !in patchesForMode then Success(s)
      else
        var patchList := OrderedSets.Delete(patchesForMode[path], patch);
        var updated := if patchList == [] then patchesForMode - {path} else patchesForMode[path := patchList];
        assert patchList == patchesForMode[path] && patchList != [] ==> updated == patchesForMode;
        Success(s.(routePatches := s.routePatches[mode.value := updated]))
  }

  /**
   * The registry object. `updateEvents` counts the `update` events dispatched on its
   * event bus.
   */
  class DeckyRouterState {
    var routes: map<Path, RouterEntry>
    var routePatches: map<UIMode, PatchMap>
    var updateEvents: nat

    ghost predicate Valid()
      reads this
    {
      WellFormed(PublicStateOf())
    }

    /** `publicState()`. */
    function PublicStateOf(): PublicState
      reads this
    {
      PublicState(routes, routePatches)
    }

    constructor ()
      ensures Valid()
      ensures PublicStateOf() == Initial()
      ensures updateEvents == 0
    {
      routes := map[];
      routePatches := Seed(map[]);
      updateEvents := 0;
    }

    /** `notifyUpdate()`: one `update` event, no other change. */
    method NotifyUpdate()
      modifies this
      ensures updateEvents == old(updateEvents) + 1
      ensures routes == old(routes) && routePatches == old(routePatches)
    {
      updateEvents := updateEvents + 1;
    }

    method AddRoute(path: Path, component: ComponentRef, props: Option<RouteProps>)
      requires Valid()
      modifies this
      ensures Valid()
      ensures PublicStateOf() == AddRouteTo(old(PublicStateOf()), path, component, props)
      ensures updateEvents == old(updateEvents) + 1
    {
      routes := routes[path := RouterEntry(PropsOrEmpty(props), component)];
      NotifyUpdate();
    }

    /** Returns the patch it was given, so the caller can remove it later; `Failure` is the throw. */
    method AddPatch(path: Path, patch: PatchRef, mode: Option<UIMode>) returns (r: Result<PatchRef, ModeError>)
      requires Valid()
      modifies this
      ensures Valid()
      ensures var spec := AddPatchTo(old(PublicStateOf()), path, patch, mode);
        && (spec.Failure? ==> r == Failure(spec.error) && PublicStateOf() == old(PublicStateOf()) && updateEvents == old(updateEvents))
        && (spec.Success? ==> r == Success(patch) && PublicStateOf() == spec.value && updateEvents == old(updateEvents) + 1)
    {
      if !Supports(routePatches, mode) {
        return Failure(UnsupportedMode(mode));
      }
      var patchesForMode := routePatches[mode.value];
      var patchList: seq<PatchRef>;
      if path in patchesForMode {
        patchList := patchesForMode[path];
      } else {
        patchList := [];
        patchesForMode := patchesForMode[path := patchList];
      }
      patchList := OrderedSets.Add(patchList, patch);
      assert patchesForMode[path := patchList] == routePatches[mode.value][path := patchList];
      routePatches := routePatches[mode.value := patchesForMode[path := patchList]];
      NotifyUpdate();
      return Success(patch);
    }

    /** `Failure` is the throw; every other outcome, no-ops included, notifies once. */
    method RemovePatch(path: Path, patch: PatchRef, mode: Option<UIMode>) returns (r: Result<(), ModeError>)
      requires Valid()
      modifies this
      ensures Valid()
      ensures var spec := RemovePatchFrom(old(PublicStateOf()), path, patch, mode);
        && (spec.Failure? ==> r == Failure(spec.error) && PublicStateOf() == old(PublicStateOf()) && updateEvents == old(updateEvents))
        && (spec.Success? ==> r == Success(()) && PublicStateOf() == spec.value && updateEvents == old(updateEvents) + 1)
    {
      if !Supports(routePatches, mode) {
        return Failure(UnsupportedMode(mode));
      }
      var patchesForMode := routePatches[mode.value];
      if path in patchesForMode {
        var patchList := OrderedSets.Delete(patchesForMode[path], patch);
        if patchList == [] {
          patchesForMode := patchesForMode - {path};
        } else {
          patchesForMode := patchesForMode[path := patchList];
        }
        routePatches := routePatches[mode.value := patchesForMode];
      }
      NotifyUpdate();
      return Success(());
    }

    method RemoveRoute(path: Path)
      requires Valid()
      modifies this
      ensures Valid()
      ensures PublicStateOf() == RemoveRouteFrom(old(PublicStateOf()), path)
      ensures updateEvents == old(updateEvents) + 1
    {
      routes := routes - {path};
      NotifyUpdate();
    }
  }

  /** One call on the registry, as a plugin makes it. */
  datatype RouterCall =
    | AddRouteCall(path: Path, component: ComponentRef, props: Option<RouteProps>)
    | RemoveRouteCall(path: Path)
    | AddPatchCall(path: Path, patch: PatchRef, mode: Option<UIMode>)
    | RemovePatchCall(path: Path, patch: PatchRef, mode: Option<UIMode>)

  /** The effect of one call: the new state, or the error it throws. */
  function Step(s: PublicState, call: RouterCall): Result<PublicState, ModeError> {
    match call
    case AddRouteCall(path, component, props) => Success(AddRouteTo(s, path, component, props))
    case RemoveRouteCall(path) => Success(RemoveRouteFrom(s, path))
    case AddPatchCall(path, patch, mode) => AddPatchTo(s, path, patch, mode)
    case RemovePatchCall(path, patch, mode) => RemovePatchFrom(s, path, patch, mode)
  }

  /** Whether a call names a mode outside the seeded ones (only patch calls take a mode). */
  predicate Throws(call: RouterCall) {
    match call
    case AddPatchCall(_, _, mode) => !(mode.Some? && mode.value in SeededModes)
    case RemovePatchCall(_, _, mode) => !(mode.Some? && mode.value in SeededModes)
    case _ => false
  }

  /**
   * Runs the calls in order, from independent callers: a call that throws leaves the
   * state as it was and the run goes on. Returns the final state and the number of
   * `update` events dispatched.
   */
  function Run(s: PublicState, calls: seq<RouterCall>): (PublicState, nat)
    decreases |calls|
  {
    if calls == [] then (s, 0)
    else
      match Step(s, calls[0])
      case Failure(_) => Run(s, calls[1..])
      case Success(s') => var (t, n) := Run(s', calls[1..]); (t, n + 1)
  }

  /** The calls of a sequence that do not throw. */
  function Accepted(calls: seq<RouterCall>): (r: seq<RouterCall>)
    ensures |r| <= |calls|
    ensures forall c :: c in r <==> c in calls && !Throws(c)
  {
    if calls == [] then []
    else if Throws(calls[0]) then Accepted(calls[1..])
    else [calls[0]] + Accepted(calls[1..])
  }

  /** The accepted calls of two runs in a row are those of the first, then those of the second. */
  lemma {:induction false} AcceptedAppend(a: seq<RouterCall>, b: seq<RouterCall>)
    ensures Accepted(a + b) == Accepted(a) + Accepted(b)
    decreases |a|
  {
    if a == [] {
      assert a + b == b;
    } else {
      assert (a + b)[0] == a[0] && (a + b)[1..] == a[1..] + b;
      AcceptedAppend(a[1..], b);
    }
  }

  /** On a well-formed registry, a call throws exactly when it names an unseeded mode. */
  lemma StepFailsIffThrows(s: PublicState, call: RouterCall)
    requires WellFormed(s)
    ensures Step(s, call).Failure? <==> Throws(call)
    ensures Step(s, call).Success? ==> WellFormed(Step(s, call).value)
  {
  }

  /**
   * Over any sequence of calls the registry stays well formed (the mode keys stay exactly
   * GamePad and Desktop, no empty patch set survives) and dispatches exactly one event per
   * call that does not throw.
   */
  lemma {:induction false} RunKeepsInvariantAndCountsEvents(s: PublicState, calls: seq<RouterCall>)
    requires WellFormed(s)
    ensures WellFormed(Run(s, calls).0)
    ensures Run(s, calls).0.routePatches.Keys == SeededModes
    ensures Run(s, calls).1 == |Accepted(calls)|
    decreases |calls|
  {
    if calls != [] {
      StepFailsIffThrows(s, calls[0]);
      match Step(s, calls[0])
      case Failure(_) =>
        RunKeepsInvariantAndCountsEvents(s, calls[1..]);
      case Success(s') =>
        RunKeepsInvariantAndCountsEvents(s', calls[1..]);
    }
  }

  /** Registering a path twice keeps only the second registration. */
  lemma AddRouteLastWriteWins(s: PublicState, path: Path, c1: ComponentRef, p1: Option<RouteProps>, c2: ComponentRef, p2: Option<RouteProps>)
    ensures AddRouteTo(AddRouteTo(s, path, c1, p1), path, c2, p2) == AddRouteTo(s, path, c2, p2)
  {
    assert AddRouteTo(AddRouteTo(s, path, c1, p1), path, c2, p2).routes == AddRouteTo(s, path, c2, p2).routes;
  }

  /** Removing a route twice is the same as removing it once. */
  lemma RemoveRouteIdempotent(s: PublicState, path: Path)
    ensures RemoveRouteFrom(RemoveRouteFrom(s, path), path) == RemoveRouteFrom(s, path)
  {
  }

  /**
   * Adding a patch that was not registered at `(mode, path)` and removing it again gives
   * back the registry as it was: the path is pruned if the add created it.
   */
  lemma AddThenRemovePatchRestores(s: PublicState, path: Path, patch: PatchRef, mode: UIMode)
    requires WellFormed(s) && mode in SeededModes
    requires patch !in PatchesAt(s.routePatches[mode], path)
    ensures AddPatchTo(s, path, patch, Some(mode)).Success?
    ensures RemovePatchFrom(AddPatchTo(s, path, patch, Some(mode)).value, path, patch, Some(mode)) == Success(s)
  {
    var before := s.routePatches[mode];
    var added := AddPatchTo(s, path, patch, Some(mode)).value;
    OrderedSets.AddThenDelete(PatchesAt(before, path), patch);
    var removed := RemovePatchFrom(added, path, patch, Some(mode)).value;
    if path in before {
      assert removed.routePatches[mode] == before;
    } else {
      assert removed.routePatches[mode] == before;
    }
    assert removed.routePatches == s.routePatches;
  }

  /**
   * Patches added under one mode are invisible to every other mode, and patches added
   * one after the other to the same `(mode, path)` iterate in the order they were added.
   */
  lemma PatchModeIsolationAndOrder(path: Path, a: PatchRef, b: PatchRef)
    requires a != b
    ensures var s1 := AddPatchTo(Initial(), path, a, Some(GamePad)).value;
      var s2 := AddPatchTo(s1, path, b, Some(GamePad)).value;
      && s2.routePatches[GamePad][path] == [a, b]
      && s2.routePatches[Desktop] == map[]
  {
  }
}
