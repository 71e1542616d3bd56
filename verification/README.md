# Decky Loader extension registry and popup helpers, in Dafny

This project models the part of the Decky Loader frontend that plugins register
themselves with, together with two smaller helpers that build strings, and proves
properties of the model.

- **The route registry** (`DeckyRouterState`, module `DeckyRouter`). It holds routes
  by path. For each UI mode it also holds an insertion-ordered set of route patches per
  path. The container is seeded with exactly GamePad and Desktop, so a call naming any
  other mode throws. `None` stands for the absent mode that the context interface
  permits, and it throws the same way. A path whose patch set becomes empty is pruned.
  Every call that does not throw dispatches one `update` event; the class counts these
  in `updateEvents`.
- **The global component registry** (`DeckyGlobalComponentsState`, module
  `GlobalComponents`). Per UI mode it maps a key to a component. It uses the same
  seeded-mode rule and the same event count.
- **The desktop popup helper** (modules `Popup`, `PopupQuery` and `PopupStyles`):
  - the `CreationFlags` bit layout;
  - the window-features string and the `about:blank?…` URL that `CreatePopup` builds;
  - the stylesheet reconciliation `updateDocumentStyles`, which copies the main
    window's `<link>` stylesheets into a popup's `<head>`.
- **The plugin list of the quick-access panel** (module `PluginView`). It copies the
  loaded plugins and stable-sorts them by position in the user's plugin order. It then
  drops plugins without content, then hidden ones.

Each registry is a class whose methods change its fields. Each method is proved
against a pure function on the state that `publicState()` returns (`AddPatchTo`,
`RemoveComponentFrom`, …). The lemmas about those functions state the registry's
promises:
- last write wins;
- removal is idempotent;
- add-then-remove restores the state;
- modes are isolated;
- the mode keys never change;
- exactly one event per accepted call, over any sequence of calls.

The popup builders are methods that append step by step, as the source does. Each one
is proved equal to a function that states the source's rules per parameter.
`updateDocumentStyles` is a method on a `HeadElement` class. It is proved against a
scan function whose results are characterised by lemmas.

Shared modules:
- `Wrappers`: `Option` and `Result`.
- `UIModes`: modes and the seeded container.
- `OrderedSets`: JavaScript `Set` as a duplicate-free sequence.
- `Text`: decimal rendering, `join` and `split`.

## Model

| member | source | states |
|---|---|---|
| UIModes.Seed | frontend/src/components/DeckyRouterState.tsx:20-23 | the seeded container has exactly the keys GamePad and Desktop, each holding the empty collection |
| UIModes.SupportsExactlySeeded | frontend/src/components/DeckyRouterState.tsx:37-38 | over a seeded container, `get(mode)` succeeds exactly for GamePad and Desktop; any other mode, or none, throws |
| OrderedSets.Add | frontend/src/components/DeckyRouterState.tsx:44 | `Set.add`: the members are the old ones plus `x`; the old order is a prefix; at most one element is appended; no duplicates appear |
| OrderedSets.Delete | frontend/src/components/DeckyRouterState.tsx:53 | `Set.delete`: the members are the old ones minus `x`; deleting an absent element changes nothing; duplicate-freedom is kept |
| OrderedSets.DeleteAt | frontend/src/components/DeckyRouterState.tsx:53 | on a set, deleting a member cuts out exactly its one position and keeps the order of the rest |
| OrderedSets.AddThenDelete | frontend/src/components/DeckyRouterState.tsx:39-56 | adding a new element and deleting it again gives back the same set in the same order |
| OrderedSets.AddOrder | frontend/src/components/DeckyRouterState.tsx:44 | distinct elements added one after the other iterate in insertion order |
| DeckyRouter.Initial | frontend/src/components/DeckyRouterState.tsx:18-23 | a new registry has no routes, empty patch maps under exactly GamePad and Desktop, and satisfies the invariant |
| DeckyRouter.AddRouteTo | frontend/src/components/DeckyRouterState.tsx:31-32 | the path maps to the given component and props, with `{}` as the default props; other paths and all patches are unchanged; the invariant is kept |
| DeckyRouter.RemoveRouteFrom | frontend/src/components/DeckyRouterState.tsx:60-61 | the path is absent afterwards and the other routes are unchanged; removing an absent path changes nothing |
| DeckyRouter.AddPatchTo | frontend/src/components/DeckyRouterState.tsx:36-46 | throws exactly on an unseeded or absent mode, with that mode in the error; otherwise the patch joins the set at (mode, path), which is created if missing. The old patches stay first, a new patch is appended, and other paths and modes are unchanged. Re-adding a present patch changes nothing |
| DeckyRouter.RemovePatchFrom | frontend/src/components/DeckyRouterState.tsx:49-57 | throws exactly on an unseeded or absent mode; otherwise the patch leaves the set at (mode, path), and the remaining patches keep their insertion order. The path stays exactly when its set is still non-empty, other paths and modes are unchanged, and removing an absent patch changes nothing |
| DeckyRouter.DeckyRouterState.constructor | frontend/src/components/DeckyRouterState.tsx:17-25 | the new object's public state is the initial state, and no event has been dispatched |
| DeckyRouter.DeckyRouterState.NotifyUpdate | frontend/src/components/DeckyRouterState.tsx:65-67 | one more `update` event; routes and patches are unchanged |
| DeckyRouter.DeckyRouterState.AddRoute | frontend/src/components/DeckyRouterState.tsx:31-34 | the new public state is `AddRouteTo` of the old one, with one event |
| DeckyRouter.DeckyRouterState.AddPatch | frontend/src/components/DeckyRouterState.tsx:36-47 | on a throw, the state and the event count are unchanged; otherwise it returns the patch, the new state is `AddPatchTo` of the old one, and one event is dispatched |
| DeckyRouter.DeckyRouterState.RemovePatch | frontend/src/components/DeckyRouterState.tsx:49-58 | on a throw, the state and the event count are unchanged; otherwise the new state is `RemovePatchFrom` of the old one, with one event, no-op removals included |
| DeckyRouter.DeckyRouterState.RemoveRoute | frontend/src/components/DeckyRouterState.tsx:60-63 | the new public state is `RemoveRouteFrom` of the old one, with one event |
| DeckyRouter.Accepted | frontend/src/components/DeckyRouterState.tsx:36-58 | the calls of a sequence that do not throw: a call is accepted exactly when it is one of the calls and does not name an unseeded mode |
| DeckyRouter.AcceptedAppend | frontend/src/components/DeckyRouterState.tsx:36-58 | the accepted calls of two runs in a row are those of the first run, then those of the second, in order |
| DeckyRouter.StepFailsIffThrows | frontend/src/components/DeckyRouterState.tsx:36-58 | on a well-formed registry, a call throws exactly when it is a patch call naming a mode other than GamePad or Desktop, and a call that succeeds keeps the invariant |
| DeckyRouter.RunKeepsInvariantAndCountsEvents | frontend/src/components/DeckyRouterState.tsx:20-67 | over any sequence of calls, the mode keys stay exactly GamePad and Desktop and no empty patch set survives. The number of `update` events equals the number of calls that do not throw |
| DeckyRouter.AddRouteLastWriteWins | frontend/src/components/DeckyRouterState.tsx:31-32 | registering a path twice is the same as registering only the second entry |
| DeckyRouter.RemoveRouteIdempotent | frontend/src/components/DeckyRouterState.tsx:60-61 | removing a route twice is the same as removing it once |
| DeckyRouter.AddThenRemovePatchRestores | frontend/src/components/DeckyRouterState.tsx:36-57 | adding a patch that was absent at (mode, path) and removing it again gives back the exact registry, with the path pruned if the add created it |
| DeckyRouter.PatchModeIsolationAndOrder | frontend/src/components/DeckyRouterState.tsx:39-44 | two patches added under GamePad iterate in the order they were added, and Desktop stays empty |
| GlobalComponents.Initial | frontend/src/components/DeckyGlobalComponentsState.tsx:10-13 | a new registry has exactly GamePad and Desktop, each with no components |
| GlobalComponents.AddComponentTo | frontend/src/components/DeckyGlobalComponentsState.tsx:21-27 | throws exactly on an unseeded or absent mode; otherwise the key maps to the component, overwriting, and other keys and the other mode are unchanged |
| GlobalComponents.RemoveComponentFrom | frontend/src/components/DeckyGlobalComponentsState.tsx:29-35 | throws exactly on an unseeded or absent mode; otherwise the key is absent in that mode and the rest is unchanged. Removing an absent key changes nothing |
| GlobalComponents.DeckyGlobalComponentsState.constructor | frontend/src/components/DeckyGlobalComponentsState.tsx:8-15 | the new object's public state is the initial state, and no event has been dispatched |
| GlobalComponents.DeckyGlobalComponentsState.NotifyUpdate | frontend/src/components/DeckyGlobalComponentsState.tsx:37-39 | one more `update` event; the components are unchanged |
| GlobalComponents.DeckyGlobalComponentsState.AddComponent | frontend/src/components/DeckyGlobalComponentsState.tsx:21-27 | on a throw, the state and the event count are unchanged; otherwise the new state is `AddComponentTo` of the old one, with one event |
| GlobalComponents.DeckyGlobalComponentsState.RemoveComponent | frontend/src/components/DeckyGlobalComponentsState.tsx:29-35 | on a throw, the state and the event count are unchanged; otherwise the new state is `RemoveComponentFrom` of the old one, with one event |
| GlobalComponents.AddComponentLastWriteWins | frontend/src/components/DeckyGlobalComponentsState.tsx:21-25 | adding twice under the same key and mode is the same as adding only the second component |
| GlobalComponents.AddThenRemoveComponentRestores | frontend/src/components/DeckyGlobalComponentsState.tsx:21-35 | adding an absent key and removing it again gives back the exact registry |
| GlobalComponents.RemoveComponentIdempotent | frontend/src/components/DeckyGlobalComponentsState.tsx:29-33 | removing twice is the same as removing once |
| Text.IntToString | frontend/src/components/desktop/Popup.ts:136 | `${n}` for an integer is non-empty and holds only a minus sign and digits |
| Text.NatToStringRoundTrip | frontend/src/components/desktop/Popup.ts:136 | the decimal digits of a natural number read back as that number |
| Text.NatToStringNoLeadingZero | frontend/src/components/desktop/Popup.ts:136 | the digits start with `0` only for the number 0 |
| Text.IntToStringRoundTrip | frontend/src/components/desktop/Popup.ts:136 | `${n}` is a numeral, digits with an optional leading minus sign, that reads back as `n` |
| Popup.ShiftsAreABijection | frontend/src/components/desktop/Popup.ts:1-28 | each flag is declared with its own shift; the shifts 0 to 24 are each used by exactly one flag |
| Popup.FlagValueIsSingleBit | frontend/src/components/desktop/Popup.ts:1-28 | every flag value is a single set bit, `2^k` for its shift `k`, and `None` is 0 |
| Popup.FlagsAreDisjointBits | frontend/src/components/desktop/Popup.ts:1-28 | two different flags share no bit and have different values |
| Popup.SizeItems | frontend/src/components/desktop/Popup.ts:131-136 | the features start with `width=` and `height=` followed by the given size, or by `300` when the size is missing or zero |
| Popup.LeftReadBack | frontend/src/components/desktop/Popup.ts:137-139 | a features parser finds `left` exactly when `dimensions.left` is defined, and then finds its value |
| Popup.TopReadBack | frontend/src/components/desktop/Popup.ts:140-142 | a features parser finds `top` exactly when `dimensions.top` is defined, and then finds its value |
| Popup.FeatureItemsHaveNoComma | frontend/src/components/desktop/Popup.ts:136-143 | no item of the features string holds a comma, so splitting at commas recovers the items |
| Popup.FeaturesReadBack | frontend/src/components/desktop/Popup.ts:136-143 | the features start with `width=W,height=H` (300 when missing or zero), define `left` and `top` exactly when given, and end with `resizeable,status=0,toolbar=0,menubar=0,location=0` |
| Popup.WindowFeatures | frontend/src/components/desktop/Popup.ts:131-143 | the string built by the `+=` steps splits at commas into exactly the items `FeaturesReadBack` describes |
| PopupQuery.QueryParams | frontend/src/components/desktop/Popup.ts:145-193 | the pushed parameters are never empty, and the first one is always `createflags` |
| PopupQuery.ExpectedValues | frontend/src/components/desktop/Popup.ts:148-193 | the source's rule for each parameter, key by key, gives at most one value |
| PopupQuery.QueryValues | frontend/src/components/desktop/Popup.ts:148-193 | for every key, the values the built query holds are exactly what the per-key rules give |
| PopupQuery.QueryParamsAscend | frontend/src/components/desktop/Popup.ts:148-193 | the parameters appear in the source's push order, with every key strictly after the keys pushed before it |
| PopupQuery.QueryNamesEachParamOnce | frontend/src/components/desktop/Popup.ts:148-193 | no parameter name occurs twice in the query |
| PopupQuery.CreateFlagsAlwaysPresent | frontend/src/components/desktop/Popup.ts:148 | `createflags` is always present exactly once: the flags in decimal when given, the word `undefined` when not |
| PopupQuery.MaxSizeOnlyWhenFinite | frontend/src/components/desktop/Popup.ts:153-158 | `maxwidth` and `maxheight` appear exactly when given, non-zero and not `Infinity` |
| PopupQuery.BrowserTypePrecedence | frontend/src/components/desktop/Popup.ts:160-177 | at most one `browserType`: the target browser's own type if it is truthy, else the option's if truthy, else none |
| PopupQuery.BrowserIdentityOnlyWithTarget | frontend/src/components/desktop/Popup.ts:160-163 | `pid` and `browser` appear exactly when a target browser is given, with its PID and browser ID |
| PopupQuery.ScreenAvailOnlyWithTargetBrowser | frontend/src/components/desktop/Popup.ts:171-174 | `screenavailwidth` and `screenavailheight` appear together, exactly with a target browser and both sizes truthy |
| PopupQuery.CenterOnlyWhenUnpositioned | frontend/src/components/desktop/Popup.ts:185-188 | `centerOnBrowserID` appears exactly when a window to centre on is given and neither `left` nor `top` is defined |
| PopupQuery.UrlBeginsWithCreateFlags | frontend/src/components/desktop/Popup.ts:145-197 | the URL is never bare `about:blank`: it is `about:blank?` followed by the joined parameters, and it starts with `about:blank?createflags=` |
| PopupQuery.QueryReadBack | frontend/src/components/desktop/Popup.ts:195-197 | splitting the query at `&` gives back the rendered parameters, as long as no value holds an `&` |
| PopupQuery.PushSizeLimits | frontend/src/components/desktop/Popup.ts:150-158 | the conditional pushes append exactly the size-limit parameters of the rules |
| PopupQuery.PushBrowser | frontend/src/components/desktop/Popup.ts:160-177 | the target-browser branch and the fallback append exactly the browser parameters of the rules |
| PopupQuery.PushIdentity | frontend/src/components/desktop/Popup.ts:179-183 | the conditional pushes append exactly the overlay, restore, opener and parent-container parameters |
| PopupQuery.PushTrailing | frontend/src/components/desktop/Popup.ts:190-193 | the conditional pushes append exactly the user-agent, parent-window, `pinned` and `modal` parameters |
| PopupQuery.CreatePopupUrl | frontend/src/components/desktop/Popup.ts:145-197 | the step-by-step builder produces exactly the parameters of the rules and the URL made from them |
| PopupStyles.SetAttributeSets | frontend/src/components/desktop/Popup.ts:67 | after `setAttribute(name, value)` the element has that attribute with that value, and its attribute names gain only `name` |
| PopupStyles.CopyIsExact | frontend/src/components/desktop/Popup.ts:65-68 | copying the attributes of an element (whose names are distinct) one by one reproduces them exactly, in order |
| PopupStyles.CloneAll | frontend/src/components/desktop/Popup.ts:60-70 | the copies keep the number of links, their hrefs, and the distinctness of the hrefs |
| PopupStyles.CloneAllIsExact | frontend/src/components/desktop/Popup.ts:60-70 | when every source link has distinct attribute names, the copies equal the sources |
| PopupStyles.CloneLink | frontend/src/components/desktop/Popup.ts:62-68 | the attribute copy loop produces the clone of the source, and the source itself when its attribute names are distinct |
| PopupStyles.CloneLinks | frontend/src/components/desktop/Popup.ts:60-70 | the loop over the remaining styles collects their copies, in map order |
| PopupStyles.HeadElement.constructor | frontend/src/components/desktop/Popup.ts:48-49 | the head holds the given links |
| PopupStyles.HeadElement.RemoveChildAt | frontend/src/components/desktop/Popup.ts:55-56 | removing a link deletes exactly that position and keeps the order of the rest |
| PopupStyles.HeadElement.Prepend | frontend/src/components/desktop/Popup.ts:72 | `prepend` puts the added links, in order, in front of the existing ones |
| PopupStyles.AddedAreTheMissingStyles | frontend/src/components/desktop/Popup.ts:51-58 | (corrected, see Findings) the styles left to add are exactly the map's entries whose href is not already in the head, in map order |
| PopupStyles.NoRemovalKeepsHead | frontend/src/components/desktop/Popup.ts:51-58 | without `bRemoveExisting`, every existing link stays, in order |
| PopupStyles.RemovalKeepsOnlyMappedLinks | frontend/src/components/desktop/Popup.ts:51-58 | (corrected, see Findings) with `bRemoveExisting`, the links kept are the head's own links in document order, each the first in the head with an href the map holds: one per href the head and the map share |
| PopupStyles.SyncMakesHeadMatchStyles | frontend/src/components/desktop/Popup.ts:38-74 | (corrected, see Findings) with removal, the head afterwards holds each href of the style map exactly once and no other href |
| PopupStyles.UpdateDocumentStyles | frontend/src/components/desktop/Popup.ts:42-74 | (corrected, see Findings) visiting every link once, returns the copies of the styles the head lacked, and leaves the head as those copies followed by the links the scan kept, in order |
| PopupStyles.UpdateDocumentStylesAsWritten | frontend/src/components/desktop/Popup.ts:42-74 | as written: returns the copies of the styles the live scan left unmatched, and leaves the head as those copies followed by the links the live scan kept |
| PopupStyles.SyncStylesToWindow | frontend/src/components/desktop/Popup.ts:38-40 | (corrected, see Findings) after syncing, the head holds copies of the map's styles it lacked, in map order, followed by its own first link per mapped href, in document order; so its hrefs are exactly those of the style map, each once |
| PopupStyles.SyncStylesToWindowAsWritten | frontend/src/components/desktop/Popup.ts:38-40 | as written: the head becomes the live scan's copies followed by the links it kept; for a head with no links, as in the document `CreatePopup` writes, the head's hrefs are exactly those of the style map, each once |
| PopupStyles.LiveScanAgreesWithoutRemoval | frontend/src/components/desktop/Popup.ts:51-58 | without removal, or over a head with no links, the live scan ends exactly where the scan that visits every link once ends |
| PopupStyles.LiveScanSkipsAfterRemoval | frontend/src/components/desktop/Popup.ts:51-58 | with removal over the live collection, a link right after a removed one is never visited: for head `[a, b]` and an empty map, `b` stays |
| PopupStyles.LiveScanDuplicatesStyle | frontend/src/components/desktop/Popup.ts:51-58 | over the live collection, a skipped link that the map covers is added a second time: head `[x, a]` with map `[a]` ends with `a` twice |
| PluginView.IndexOf | frontend/src/components/PluginView.tsx:26 | `indexOf` is -1 exactly for a missing name; otherwise it is the first position holding the name |
| PluginView.SortIsSortedPermutation | frontend/src/components/PluginView.tsx:25-26 | the sort is non-decreasing in order rank and is a permutation of its input |
| PluginView.SortIsStable | frontend/src/components/PluginView.tsx:25-26 | plugins of equal rank keep their input order |
| PluginView.SortedPairwise | frontend/src/components/PluginView.tsx:26 | in a sorted list, any earlier plugin ranks no higher than any later one |
| PluginView.ShownOfIsShownPart | frontend/src/components/PluginView.tsx:27-28 | the shown plugins are a sub-multiset of the input, each with content and not hidden |
| PluginView.FiltersKeepShown | frontend/src/components/PluginView.tsx:27-28 | the two filters together keep exactly the plugins with content and a name not hidden, in order |
| PluginView.ShownOfSort | frontend/src/components/PluginView.tsx:25-28 | filtering after the sort equals sorting after the filter |
| PluginView.PluginListIsSortedShown | frontend/src/components/PluginView.tsx:25-28 | the list is the shown plugins, sorted: every entry has content and is not hidden; it is a permutation of the shown plugins and a sub-multiset of the loaded ones |
| PluginView.PluginListOrdered | frontend/src/components/PluginView.tsx:26 | the list is non-decreasing in `pluginOrder.indexOf(name)`, and plugins missing from the order come before all listed ones |
| PluginView.PluginListStable | frontend/src/components/PluginView.tsx:25-26 | for every rank, the list's plugins of that rank appear in the order the loaded plugins list them |

## Left out

- React glue is not modelled: the context providers, `useState`/`useEffect`, the `bind` calls, the `useMemo` dependency list of the plugin list and its log line. The event bus is reduced to a count of `update` events; listeners and `EventTarget` dispatch reentrancy are runtime behaviour.
- `publicState()` returns the live internal maps. The model returns a value, so aliasing between the returned maps and later mutations is not captured.
- DeckyRouter.AddRouteTo: the routes are a Dafny `map`, so the insertion order of the JavaScript `Map` that `publicState()` exposes is not modelled (re-adding a key keeps its place; deleting and re-adding moves it to the end).
- DeckyRouter.AddPatchTo: the per-mode path maps are Dafny `map`s, so the insertion order of their paths is not modelled. The order of the patches within a path is modelled.
- GlobalComponents.AddComponentTo: the per-mode component maps are Dafny `map`s, so the insertion order of their keys is not modelled.
- Route patches and components are opaque numbers compared by identity. The route props are an opaque map. Applying patches to a route happens outside these files.
- Browser and window effects are left out: `window.open`, `document.write`/`close`, `getElementById`, the title, and the owner window and CSS class options.
- `getCurrentDocumentStyles` is browser I/O. The style map is an input: a sequence of links with distinct hrefs, in key order. `href` is taken as given, without URL resolution.
- `SteamClient.Browser.GetBrowserID()` is a call into the Steam client. `centerOnWindow` carries the ID it reports.
- JavaScript numbers are modelled as integers rendered in decimal. Fractions, `NaN` and the float formatting of `${n}` are left out. `Infinity` is an explicit case of a maximum size.
- The null check on `attributes.item(j)`, the `parentNode` check and the truthiness of a style-map entry are taken as always satisfied. For a link in the head, inside the attribute bounds, they are.
- The copy `[...plugins]` leaves the caller's array as it was. In the value model every input is immutable, so this holds trivially.
- PopupQuery.QueryReadBack: the round trip is stated only for values without `&`. The source does not escape query values, so a value with `&` is read back as two parameters.

## Findings

| source | as written | input that shows it | evidently intended | confidence | as-written member | corrected member |
|---|---|---|---|---|---|---|
| frontend/src/components/desktop/Popup.ts:51-58 | removes links while indexing the live `getElementsByTagName('link')` collection with `++i`, so after a removal the next link slides into position `i` and is skipped | with `bRemoveExisting`: head `[a, b]` and an empty map keep `b`; head `[x, a]` with map `[a]` end with `a` twice | visit every existing link once, so that after a sync the head holds each mapped stylesheet exactly once | high (not executed); the only call site, in `CreatePopup`, syncs into a freshly written head with no links, where the two scans agree | PopupStyles.LiveScanDuplicatesStyle, PopupStyles.LiveScanSkipsAfterRemoval, PopupStyles.UpdateDocumentStylesAsWritten, PopupStyles.SyncStylesToWindowAsWritten | PopupStyles.SyncMakesHeadMatchStyles, PopupStyles.UpdateDocumentStyles, PopupStyles.SyncStylesToWindow, PopupStyles.AddedAreTheMissingStyles, PopupStyles.RemovalKeepsOnlyMappedLinks |
