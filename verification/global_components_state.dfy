/**
 * The global component registry: per UI mode, a map from key to component. Every
 * mutation that does not throw dispatches one `update` event.
 */
module GlobalComponents {
  import opened Wrappers
  import opened UIModes

  type Key = string
  /** A reference to a React function component. */
  type ComponentRef = nat

  /** What `publicState()` hands out: the mode-keyed component container. */
  datatype PublicState = PublicState(components: map<UIMode, map<Key, ComponentRef>>)

  /** The registry's invariant: the container holds exactly the seeded modes. */
  predicate WellFormed(s: PublicState) {
    s.components.Keys == SeededModes
  }

  /** The state right after construction. */
  function Initial(): (s: PublicState)
    ensures WellFormed(s)
    ensures forall mode :: mode in s.components ==> s.components[mode] == map[]
  {
    PublicState(Seed(map[]))
  }

  /** `addComponent(key, component, mode)`: throws on a mode without a slot; otherwise overwrites. */
  function AddComponentTo(s: PublicState, key: Key, component: ComponentRef, mode: Option<UIMode>): (r: Result<PublicState, ModeError>)
    ensures r.Failure? <==> !Supports(s.components, mode)
    ensures r.Failure? ==> r.error == UnsupportedMode(mode)
    ensures r.Success? ==> r.value.components.Keys == s.components.Keys
    ensures r.Success? ==>
      var before := s.components[mode.value];
      var after := r.value.components[mode.value];
      && after.Keys == before.Keys + {key}
      && after[key] == component
      && (forall k :: k in before && k != key ==> after[k] == before[k])
      && (forall other :: other in s.components && other != mode.value ==> r.value.components[other] == s.components[other])
    ensures r.Success? && WellFormed(s) ==> WellFormed(r.value)
  {
    if !Supports(s.components, mode) then Failure(UnsupportedMode(mode))
    else
      var components := s.components[mode.value];
      Success(PublicState(s.components[mode.value := components[key := component]]))
  }

  /** `removeComponent(key, mode)`: throws on a mode without a slot; otherwise deletes, silently if absent. */
  function RemoveComponentFrom(s: PublicState, key: Key, mode: Option<UIMode>): (r: Result<PublicState, ModeError>)
    ensures r.Failure? <==> !Supports(s.components, mode)
    ensures r.Failure? ==> r.error == UnsupportedMode(mode)
    ensures r.Success? ==> r.value.components.Keys == s.components.Keys
    ensures r.Success? ==>
      var before := s.components[mode.value];
      var after := r.value.components[mode.value];
      && after.Keys == before.Keys - {key}
      && (forall k :: k in after ==> after[k] == before[k])
      && (forall other :: other in s.components && other != mode.value ==> r.value.components[other] == s.components[other])
    ensures r.Success? && key !in s.components[mode.value] ==> r.value == s
    ensures r.Success? && WellFormed(s) ==> WellFormed(r.value)
  {
    if !Supports(s.components, mode) then Failure(UnsupportedMode(mode))
    else
      var components := s.components[mode.value];
      assert key !in components ==> components - {key} == components;
      Success(PublicState(s.components[mode.value := components - {key}]))
  }

  /**
   * The registry object. `updateEvents` counts the `update` events dispatched on its
   * event bus.
   */
  class DeckyGlobalComponentsState {
    var components: map<UIMode, map<Key, ComponentRef>>
    var updateEvents: nat

    ghost predicate Valid()
      reads this
    {
      WellFormed(PublicStateOf())
    }

    /** `publicState()`. */
    function PublicStateOf(): PublicState
      reads this
    {
      PublicState(components)
    }

    constructor ()
      ensures Valid()
      ensures PublicStateOf() == Initial()
      ensures updateEvents == 0
    {
      components := Seed(map[]);
      updateEvents := 0;
    }

    /** `notifyUpdate()`: one `update` event, no other change. */
    method NotifyUpdate()
      modifies this
      ensures updateEvents == old(updateEvents) + 1
      ensures components == old(components)
    {
      updateEvents := updateEvents + 1;
    }

    /** `Failure` is the throw, before any change or event. */
    method AddComponent(key: Key, component: ComponentRef, mode: Option<UIMode>) returns (r: Result<(), ModeError>)
      requires Valid()
      modifies this
      ensures Valid()
      ensures var spec := AddComponentTo(old(PublicStateOf()), key, component, mode);
        && (spec.Failure? ==> r == Failure(spec.error) && PublicStateOf() == old(PublicStateOf()) && updateEvents == old(updateEvents))
        && (spec.Success? ==> r == Success(()) && PublicStateOf() == spec.value && updateEvents == old(updateEvents) + 1)
    {
      if !Supports(components, mode) {
        return Failure(UnsupportedMode(mode));
      }
      var forMode := components[mode.value];
      components := components[mode.value := forMode[key := component]];
      NotifyUpdate();
      return Success(());
    }

    /** `Failure` is the throw; a removal of an absent key still notifies once. */
    method RemoveComponent(key: Key, mode: Option<UIMode>) returns (r: Result<(), ModeError>)
      requires Valid()
      modifies this
      ensures Valid()
      ensures var spec := RemoveComponentFrom(old(PublicStateOf()), key, mode);
        && (spec.Failure? ==> r == Failure(spec.error) && PublicStateOf() == old(PublicStateOf()) && updateEvents == old(updateEvents))
        && (spec.Success? ==> r == Success(()) && PublicStateOf() == spec.value && updateEvents == old(updateEvents) + 1)
    {
      if !Supports(components, mode) {
        return Failure(UnsupportedMode(mode));
      }
      var forMode := components[mode.value];
      components := components[mode.value := forMode - {key}];
      NotifyUpdate();
      return Success(());
    }
  }

  /** Adding twice under the same key and mode leaves only the second component. */
  lemma AddComponentLastWriteWins(s: PublicState, key: Key, c1: ComponentRef, c2: ComponentRef, mode: Option<UIMode>)
    requires AddComponentTo(s, key, c1, mode).Success?
    ensures AddComponentTo(AddComponentTo(s, key, c1, mode).value, key, c2, mode) == AddComponentTo(s, key, c2, mode)
  {
    var m := mode.value;
    var once := AddComponentTo(s, key, c2, mode).value;
    var twice := AddComponentTo(AddComponentTo(s, key, c1, mode).value, key, c2, mode).value;
    assert twice.components[m] == once.components[m];
    assert twice.components == once.components;
  }

  /** Adding under a key that was absent and removing it again restores the absence: the registry is as before. */
  lemma AddThenRemoveComponentRestores(s: PublicState, key: Key, c: ComponentRef, mode: Option<UIMode>)
    requires Supports(s.components, mode) && key !in s.components[mode.value]
    ensures AddComponentTo(s, key, c, mode).Success?
    ensures RemoveComponentFrom(AddComponentTo(s, key, c, mode).value, key, mode) == Success(s)
  {
    var m := mode.value;
    var back := RemoveComponentFrom(AddComponentTo(s, key, c, mode).value, key, mode).value;
    assert back.components[m] == s.components[m];
    assert back.components == s.components;
  }

  /** Removing twice is the same as removing once. */
  lemma RemoveComponentIdempotent(s: PublicState, key: Key, mode: Option<UIMode>)
    requires Supports(s.components, mode)
    ensures RemoveComponentFrom(RemoveComponentFrom(s, key, mode).value, key, mode) == RemoveComponentFrom(s, key, mode)
  {
  }
}
