/**
 * The desktop popup helper: the `CreationFlags` bit layout, the options `CreatePopup`
 * reads, and the window-features string it hands to `window.open`. The query URL is
 * built in module PopupQuery, the stylesheet reconciliation in module PopupStyles.
 */
module Popup {
  import opened Wrappers
  import opened Text

  // ---------------------------------------------------------------------------
  // CreationFlags

  datatype CreationFlag =
    | Minimized | Hidden | TooltipHint | NoTaskbarIcon | Resizable | ScalePosition | ScaleSize
    | Maximized | Composited | NotFocusable | FullScreen | FullscreenExclusive
    | ApplyBrowserScaleToDimensions | AlwaysOnTop | NoWindowShadow | NoMinimize | PopUpMenuHint
    | IgnoreSavedSize | NoRoundedCorners | ForceRoundedCorners | OverrideRedirect
    | IgnoreSteamDisplayScale | TransparentParentWindow | DisableDPIScale | ForceBrowserVisible

  /** `CreationFlags.None`. */
  const NoFlags: bv32 := 0

  /** The `k` of the member's `1 << k` initializer. */
  function Shift(f: CreationFlag): (k: nat)
    ensures k < 25
  {
    match f
    case Minimized => 0
    case Hidden => 1
    case TooltipHint => 2
    case NoTaskbarIcon => 3
    case Resizable => 4
    case ScalePosition => 5
    case ScaleSize => 6
    case Maximized => 7
    case Composited => 8
    case NotFocusable => 9
    case FullScreen => 10
    case FullscreenExclusive => 11
    case ApplyBrowserScaleToDimensions => 12
    case AlwaysOnTop => 13
    case NoWindowShadow => 14
    case NoMinimize => 15
    case PopUpMenuHint => 16
    case IgnoreSavedSize => 17
    case NoRoundedCorners => 18
    case ForceRoundedCorners => 19
    case OverrideRedirect => 20
    case IgnoreSteamDisplayScale => 21
    case TransparentParentWindow => 22
    case DisableDPIScale => 23
    case ForceBrowserVisible => 24
  }

  /** The member's value: JavaScript's 32-bit `1 << k`. */
  function FlagValue(f: CreationFlag): bv32 {
    1 << Shift(f)
  }

  /** The member declared with `1 << k`, if any. */
  function FlagAt(k: nat): Option<CreationFlag> {
    if k == 0 then Some(Minimized)
    else if k == 1 then Some(Hidden)
    else if k == 2 then Some(TooltipHint)
    else if k == 3 then Some(NoTaskbarIcon)
    else if k == 4 then Some(Resizable)
    else if k == 5 then Some(ScalePosition)
    else if k == 6 then Some(ScaleSize)
    else if k == 7 then Some(Maximized)
    else if k == 8 then Some(Composited)
    else if k == 9 then Some(NotFocusable)
    else if k == 10 then Some(FullScreen)
    else if k == 11 then Some(FullscreenExclusive)
    else if k == 12 then Some(ApplyBrowserScaleToDimensions)
    else if k == 13 then Some(AlwaysOnTop)
    else if k == 14 then Some(NoWindowShadow)
    else if k == 15 then Some(NoMinimize)
    else if k == 16 then Some(PopUpMenuHint)
    else if k == 17 then Some(IgnoreSavedSize)
    else if k == 18 then Some(NoRoundedCorners)
    else if k == 19 then Some(ForceRoundedCorners)
    else if k == 20 then Some(OverrideRedirect)
    else if k == 21 then Some(IgnoreSteamDisplayScale)
    else if k == 22 then Some(TransparentParentWindow)
    else if k == 23 then Some(DisableDPIScale)
    else if k == 24 then Some(ForceBrowserVisible)
    else None
  }

  /** Every member uses its own bit position: 0..24 are each used exactly once. */
  lemma ShiftsAreABijection(f: CreationFlag)
    ensures FlagAt(Shift(f)) == Some(f)
    ensures forall k: nat :: k < 25 ==> FlagAt(k).Some? && Shift(FlagAt(k).value) == k
  {
  }

  /** Member `k` is `2^k`: bit `k` is set and no other bit is; `None` has no bit set. */
  lemma FlagValueIsSingleBit(f: CreationFlag)
    ensures FlagValue(f) != 0 && FlagValue(f) & (FlagValue(f) - 1) == 0
    ensures FlagValue(f) >> Shift(f) == 1
    ensures NoFlags == 0
  {
    SingleBit(Shift(f));
  }

  lemma SingleBit(k: nat)
    requires k < 25
    ensures var v: bv32 := 1 << k; v != 0 && v & (v - 1) == 0 && v >> k == 1
  {
  }

  /** Two different members share no bit, so any set of them can be or-ed together and recovered. */
  lemma FlagsAreDisjointBits(f: CreationFlag, g: CreationFlag)
    requires f != g
    ensures FlagValue(f) & FlagValue(g) == 0
    ensures FlagValue(f) != FlagValue(g)
  {
    ShiftsAreABijection(f);
    ShiftsAreABijection(g);
    DistinctBits(Shift(f), Shift(g));
  }

  lemma DistinctBits(i: nat, j: nat)
    requires i < 25 && j < 25 && i != j
    ensures var a: bv32, b: bv32 := 1 << i, 1 << j; a & b == 0 && a != b
  {
  }

  // ---------------------------------------------------------------------------
  // CreatePopup: the window features and the query URL

  /** A JavaScript `number | string` option value (numbers are modelled as integers). */
  datatype JsValue = Num(n: int) | Str(s: string)

  /** JavaScript truthiness of an optional value: `undefined`, `0` and `""` are falsy. */
  predicate Truthy(v: Option<JsValue>) {
    v.Some? && match v.value
      case Num(n) => n != 0
      case Str(s) => s != ""
  }

  predicate TruthyInt(v: Option<int>) {
    v.Some? && v.value != 0
  }

  /** `${v}` for a value that is present. */
  function Show(v: JsValue): string {
    match v
    case Num(n) => IntToString(n)
    case Str(s) => s
  }

  /** `${v}` for an optional value: `undefined` prints as the word. */
  function ShowOpt(v: Option<JsValue>): string {
    if v.Some? then Show(v.value) else "undefined"
  }

  /** A maximum size: a number or `Infinity`. */
  datatype Extent = Finite(n: int) | Infinity

  datatype Dimensions = Dimensions(width: Option<int>, height: Option<int>, left: Option<int>, top: Option<int>)

  /** `options.dimensions || {}` when no dimensions are given. */
  const NoDimensions := Dimensions(None, None, None, None)

  datatype TargetBrowser = TargetBrowser(pid: int, browserId: int, browserType: Option<JsValue>)

  /**
   * The options `CreatePopup` reads to build the window features and the URL. An empty
   * string stands for an absent string option (both are falsy). `centerOnWindow` is
   * `None` when no `center_on_window` is given, and otherwise holds the browser ID that
   * window's `SteamClient.Browser.GetBrowserID()` reports (a call into the Steam client,
   * taken here as its result).
   */
  datatype PopupOptions = PopupOptions(
    dimensions: Option<Dimensions>,
    creationFlags: Option<int>,
    minWidth: Option<int>,
    minHeight: Option<int>,
    maxWidth: Option<Extent>,
    maxHeight: Option<Extent>,
    targetBrowser: Option<TargetBrowser>,
    browserType: Option<JsValue>,
    availScreenWidth: Option<int>,
    availScreenHeight: Option<int>,
    vrOverlayKey: string,
    restoreDetails: string,
    windowOpenerId: Option<JsValue>,
    parentContainerPopupId: Option<JsValue>,
    centerOnWindow: Option<JsValue>,
    userAgent: string,
    hwndParent: Option<JsValue>,
    pinned: bool,
    modal: bool)

  /** `dimension || 300`. */
  function SizeOrDefault(v: Option<int>): (n: int)
    ensures !TruthyInt(v) ==> n == 300
    ensures TruthyInt(v) ==> n == v.value
  {
    if TruthyInt(v) then v.value else 300
  }

  /** The fixed items every features string ends with, spelling as in the source. */
  const FeaturesTail: seq<string> := ["resizeable", "status=0", "toolbar=0", "menubar=0", "location=0"]

  /** `key=n`. */
  function NumberItem(key: string, n: int): string {
    key + "=" + IntToString(n)
  }

  /**
   * How a window-features parser reads the value of `key`: the rest of the first item
   * that starts with `key=`.
   */
  function FeatureValue(items: seq<string>, key: string): Option<string> {
    if items == [] then None
    else if HasPrefix(items[0], key + "=") then Some(items[0][|key| + 1..])
    else FeatureValue(items[1..], key)
  }

  lemma NumberItemFacts(key: string, n: int)
    requires ',' !in key && key != []
    ensures ',' !in NumberItem(key, n)
    ensures NumberItem(key, n)[0] == key[0]
    ensures HasPrefix(NumberItem(key, n), key + "=")
    ensures NumberItem(key, n)[|key| + 1..] == IntToString(n)
  {
    assert NumberItem(key, n) == (key + "=") + IntToString(n);
  }

  /** An item whose first character differs from the key's is skipped by the parser. */
  lemma SkipItem(items: seq<string>, key: string)
    requires items != [] && items[0] != [] && key != [] && items[0][0] != key[0]
    ensures FeatureValue(items, key) == FeatureValue(items[1..], key)
  {
    SkipItemAt(items, key, 0);
  }

  /** An item that differs from `key` at some position within the key is skipped by the parser. */
  lemma SkipItemAt(items: seq<string>, key: string, i: nat)
    requires items != [] && i < |items[0]| && i < |key| && items[0][i] != key[i]
    ensures FeatureValue(items, key) == FeatureValue(items[1..], key)
  {
    assert (key + "=")[i] == key[i];
  }

  /** The fixed tail defines neither `left` nor `top`. */
  lemma TailDefinesNoPosition()
    ensures FeatureValue(FeaturesTail, "left").None? && FeatureValue(FeaturesTail, "top").None?
  {
    var t := FeaturesTail;
    SkipItem(t, "left");
    SkipItem(t[1..], "left");
    SkipItem(t[2..], "left");
    SkipItem(t[3..], "left");
    SkipItemAt(t[4..], "left", 1);
    assert t[1..][1..] == t[2..] && t[2..][1..] == t[3..] && t[3..][1..] == t[4..] && t[4..][1..] == [];
    SkipItem(t, "top");
    SkipItem(t[1..], "top");
    SkipItemAt(t[2..], "top", 2);
    SkipItem(t[3..], "top");
    SkipItem(t[4..], "top");
  }

  lemma {:induction false} FeatureValueAppend(a: seq<string>, b: seq<string>, key: string)
    requires FeatureValue(a, key).None?
    ensures FeatureValue(a + b, key) == FeatureValue(b, key)
    decreases |a|
  {
    if a != [] {
      assert (a + b)[1..] == a[1..] + b;
      FeatureValueAppend(a[1..], b, key);
    } else {
      assert a + b == b;
    }
  }

  /** `,key=n` is appended exactly when `n` is defined. */
  function OptionalItem(key: string, n: Option<int>): seq<string> {
    if n.Some? then [NumberItem(key, n.value)] else []
  }

  /** The comma-separated items of the features string, in the order they are appended. */
  function FeatureItems(d: Dimensions): seq<string> {
    [NumberItem("width", SizeOrDefault(d.width)), NumberItem("height", SizeOrDefault(d.height))]
    + OptionalItem("left", d.left) + OptionalItem("top", d.top) + FeaturesTail
  }

  lemma OptionalItemHasNoComma(key: string, n: Option<int>)
    requires ',' !in key && key != []
    ensures forall item :: item in OptionalItem(key, n) ==> ',' !in item
  {
    if n.Some? { NumberItemFacts(key, n.value); }
  }

  lemma NoCommaInParts(a: seq<string>, b: seq<string>, c: seq<string>, e: seq<string>, f: seq<string>)
    requires forall item :: item in a ==> ',' !in item
    requires forall item :: item in b ==> ',' !in item
    requires forall item :: item in c ==> ',' !in item
    requires forall item :: item in e ==> ',' !in item
    requires forall item :: item in f ==> ',' !in item
    ensures forall item :: item in a + b + c + e + f ==> ',' !in item
  {
  }

  lemma TailHasNoComma()
    ensures forall item :: item in FeaturesTail ==> ',' !in item
  {
  }

  lemma FeatureItemsHaveNoComma(d: Dimensions)
    ensures forall i :: 0 <= i < |FeatureItems(d)| ==> ',' !in FeatureItems(d)[i]
  {
    var w := OptionalItem("width", Some(SizeOrDefault(d.width)));
    var h := OptionalItem("height", Some(SizeOrDefault(d.height)));
    var l := OptionalItem("left", d.left);
    var t := OptionalItem("top", d.top);
    OptionalItemHasNoComma("width", Some(SizeOrDefault(d.width)));
    OptionalItemHasNoComma("height", Some(SizeOrDefault(d.height)));
    OptionalItemHasNoComma("left", d.left);
    OptionalItemHasNoComma("top", d.top);
    TailHasNoComma();
    NoCommaInParts(w, h, l, t, FeaturesTail);
    var items := FeatureItems(d);
    assert items == w + h + l + t + FeaturesTail;
    forall i | 0 <= i < |items| ensures ',' !in items[i] {
      assert items[i] in items;
    }
  }

  /** The width and height items define neither `left` nor `top`. */
  lemma SizeItemsDefineNoPosition(d: Dimensions)
    ensures var fixed := [NumberItem("width", SizeOrDefault(d.width)), NumberItem("height", SizeOrDefault(d.height))];
      FeatureValue(fixed, "left").None? && FeatureValue(fixed, "top").None?
  {
    var fixed := [NumberItem("width", SizeOrDefault(d.width)), NumberItem("height", SizeOrDefault(d.height))];
    NumberItemFacts("width", SizeOrDefault(d.width));
    NumberItemFacts("height", SizeOrDefault(d.height));
    SkipItem(fixed, "left");
    SkipItem(fixed[1..], "left");
    SkipItem(fixed, "top");
    SkipItem(fixed[1..], "top");
    assert fixed[1..][1..] == [];
  }

  /** The parser finds an optional item under its own key exactly when the item is there. */
  lemma OptionalItemValue(key: string, n: Option<int>, rest: seq<string>)
    requires ',' !in key && key != []
    ensures FeatureValue(OptionalItem(key, n) + rest, key)
      == if n.Some? then Some(IntToString(n.value)) else FeatureValue(rest, key)
  {
    if n.Some? {
      NumberItemFacts(key, n.value);
      assert (OptionalItem(key, n) + rest)[0] == NumberItem(key, n.value);
    } else {
      assert OptionalItem(key, n) + rest == rest;
    }
  }

  /** An optional item under a key with another first letter is passed over. */
  lemma OptionalItemSkipped(other: string, n: Option<int>, rest: seq<string>, key: string)
    requires ',' !in other && other != [] && key != [] && other[0] != key[0]
    ensures FeatureValue(OptionalItem(other, n) + rest, key) == FeatureValue(rest, key)
  {
    var items := OptionalItem(other, n) + rest;
    if n.Some? {
      NumberItemFacts(other, n.value);
      assert items[0] == NumberItem(other, n.value);
      SkipItem(items, key);
      assert items[1..] == rest;
    } else {
      assert items == rest;
    }
  }

  /** Read back by a parser, the features define `left` exactly when it is given, with its value. */
  lemma LeftReadBack(d: Dimensions)
    ensures FeatureValue(FeatureItems(d), "left") == (if d.left.Some? then Some(IntToString(d.left.value)) else None)
  {
    var l := OptionalItem("left", d.left);
    var t := OptionalItem("top", d.top);
    var fixed := [NumberItem("width", SizeOrDefault(d.width)), NumberItem("height", SizeOrDefault(d.height))];
    assert FeatureItems(d) == fixed + (l + (t + FeaturesTail));
    SizeItemsDefineNoPosition(d);
    FeatureValueAppend(fixed, l + (t + FeaturesTail), "left");
    OptionalItemValue("left", d.left, t + FeaturesTail);
    OptionalItemSkipped("top", d.top, FeaturesTail, "left");
    TailDefinesNoPosition();
  }

  /** Read back by a parser, the features define `top` exactly when it is given, with its value. */
  lemma TopReadBack(d: Dimensions)
    ensures FeatureValue(FeatureItems(d), "top") == (if d.top.Some? then Some(IntToString(d.top.value)) else None)
  {
    var l := OptionalItem("left", d.left);
    var t := OptionalItem("top", d.top);
    var fixed := [NumberItem("width", SizeOrDefault(d.width)), NumberItem("height", SizeOrDefault(d.height))];
    assert FeatureItems(d) == fixed + (l + (t + FeaturesTail));
    SizeItemsDefineNoPosition(d);
    FeatureValueAppend(fixed, l + (t + FeaturesTail), "top");
    OptionalItemSkipped("left", d.left, t + FeaturesTail, "top");
    OptionalItemValue("top", d.top, FeaturesTail);
    TailDefinesNoPosition();
  }

  /**
   * Read back by a parser, the features give `width` and `height` first (300 when
   * missing or zero), `left` and `top` exactly when they are defined, and end with the
   * fixed tail.
   */
  lemma FeaturesReadBack(d: Dimensions)
    ensures var items := FeatureItems(d);
      && |items| >= 7
      && items[0] == "width=" + (if d.width.None? || d.width.value == 0 then "300" else IntToString(d.width.value))
      && items[1] == "height=" + (if d.height.None? || d.height.value == 0 then "300" else IntToString(d.height.value))
      && FeatureValue(items, "left") == (if d.left.Some? then Some(IntToString(d.left.value)) else None)
      && FeatureValue(items, "top") == (if d.top.Some? then Some(IntToString(d.top.value)) else None)
      && items[|items| - 5..] == FeaturesTail
  {
    var items := FeatureItems(d);
    assert |items| >= 7 && items[|items| - 5..] == FeaturesTail by {
      var fixed := [NumberItem("width", SizeOrDefault(d.width)), NumberItem("height", SizeOrDefault(d.height))];
      var middle := OptionalItem("left", d.left) + OptionalItem("top", d.top);
      assert items == fixed + middle + FeaturesTail;
      assert |FeaturesTail| == 5;
    }
    SizeItems(d);
    LeftReadBack(d);
    TopReadBack(d);
  }

  /** The width and height items: the given size, or 300 when it is missing or zero. */
  lemma SizeItems(d: Dimensions)
    ensures var items := FeatureItems(d);
      && |items| >= 2
      && items[0] == "width=" + (if d.width.None? || d.width.value == 0 then "300" else IntToString(d.width.value))
      && items[1] == "height=" + (if d.height.None? || d.height.value == 0 then "300" else IntToString(d.height.value))
  {
    SizeItem("width", d.width);
    SizeItem("height", d.height);
  }

  /** A size item: the given size, or 300 when it is missing or zero. */
  lemma SizeItem(key: string, v: Option<int>)
    ensures NumberItem(key, SizeOrDefault(v))
      == key + "=" + (if v.None? || v.value == 0 then "300" else IntToString(v.value))
  {
    DefaultSizeText();
  }

  lemma DefaultSizeText()
    ensures IntToString(300) == "300"
  {
    assert NatToString(3) == "3";
    assert NatToString(30) == NatToString(3) + "0";
    assert NatToString(300) == NatToString(30) + "0";
  }

  /** The first two items, written out as the source writes them. */
  lemma StartFeatures(width: int, height: int)
    ensures "width=" + IntToString(width) + ",height=" + IntToString(height)
      == Join([NumberItem("width", width), NumberItem("height", height)], ',')
  {
    var items := [NumberItem("width", width), NumberItem("height", height)];
    assert items[1..] == [NumberItem("height", height)];
    assert Join(items, ',') == NumberItem("width", width) + [','] + NumberItem("height", height);
  }

  /** Appending `,key=n` to the text of `items` gives the text of `items` and one more number item. */
  lemma AppendNumber(items: seq<string>, features: string, key: string, text: string, n: int)
    requires items != [] && features == Join(items, ',')
    requires text == [','] + key + "="
    ensures features + text + IntToString(n) == Join(items + [NumberItem(key, n)], ',')
  {
    JoinSnoc(items, NumberItem(key, n), ',');
  }

  /** Appending the fixed tail to the text of `items` gives the text of `items` and the tail. */
  lemma AppendTail(items: seq<string>, features: string)
    requires items != [] && features == Join(items, ',')
    ensures features + "," + Join(FeaturesTail, ',') == Join(items + FeaturesTail, ',')
  {
    JoinAppend(items, FeaturesTail, ',');
    assert "," == [','];
  }

  /** Builds the features string as the source does, by appending; it splits back into `FeatureItems`. */
  method WindowFeatures(dimensions: Option<Dimensions>) returns (features: string)
    ensures Split(features, ',') == FeatureItems(dimensions.GetOr(NoDimensions))
  {
    var d := dimensions.GetOr(NoDimensions);
    var width := SizeOrDefault(d.width);
    var height := SizeOrDefault(d.height);
    features := "width=" + IntToString(width) + ",height=" + IntToString(height);
    ghost var items := [NumberItem("width", width), NumberItem("height", height)];
    StartFeatures(width, height);
    if d.left.Some? {
      AppendNumber(items, features, "left", ",left=", d.left.value);
      features := features + ",left=" + IntToString(d.left.value);
      items := items + [NumberItem("left", d.left.value)];
    }
    if d.top.Some? {
      AppendNumber(items, features, "top", ",top=", d.top.value);
      features := features + ",top=" + IntToString(d.top.value);
      items := items + [NumberItem("top", d.top.value)];
    }
    assert items + FeaturesTail == FeatureItems(d);
    // The source appends the fixed text `,resizeable,status=0,toolbar=0,menubar=0,location=0`.
    AppendTail(items, features);
    features := features + "," + Join(FeaturesTail, ',');
    items := items + FeaturesTail;
    FeatureItemsHaveNoComma(d);
    SplitJoin(items, ',');
  }
}
