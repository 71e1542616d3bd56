/**
 * UI modes and the mode-keyed container both registries share: a map from mode to a
 * per-mode collection, seeded with exactly GamePad and Desktop.
 */
module UIModes {
  import opened Wrappers

  /** The host's UI mode enumeration; `Other` stands for every mode that is not seeded. */
  datatype UIMode = GamePad | Desktop | Other(code: int)

  /** The modes both registries seed their containers with. */
  const SeededModes: set<UIMode> := {GamePad, Desktop}

  /** The one structured failure: `UI mode ${mode} not supported.` (`None` is an absent mode). */
  datatype ModeError = UnsupportedMode(mode: Option<UIMode>)

  /** A container seeded with `empty` for every supported mode. */
  function Seed<V>(empty: V): (m: map<UIMode, V>)
    ensures m.Keys == SeededModes
    ensures forall mode :: mode in m ==> m[mode] == empty
  {
    map[GamePad := empty, Desktop := empty]
  }

  /** `container.get(mode)` is defined: the mode is given and has a slot. */
  predicate Supports<V>(m: map<UIMode, V>, mode: Option<UIMode>) {
    mode.Some? && mode.value in m
  }

  /** Over a container keyed exactly by the seeded modes, support means: GamePad or Desktop. */
  lemma SupportsExactlySeeded<V>(m: map<UIMode, V>, mode: Option<UIMode>)
    requires m.Keys == SeededModes
    ensures Supports(m, mode) <==> mode == Some(GamePad) || mode == Some(Desktop)
  {
  }
}
