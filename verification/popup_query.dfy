/**
 * The `about:blank` URL that `CreatePopup` opens: the query parameters it pushes, in
 * order and under their conditions, and the URL they are joined into.
 */
module PopupQuery {
  import opened Wrappers
  import opened Text
  import opened Popup

  /** The query parameters `CreatePopup` knows, in the order it pushes them. */
  datatype QueryKey =
    | CreateFlags | MinWidth | MinHeight | MaxWidth | MaxHeight
    | Pid | Browser | BrowserType | ScreenAvailWidth | ScreenAvailHeight
    | VrOverlayKey | RestoreDetails | OpenerId | ParentContainerPopupId
    | CenterOnBrowserId | UserAgent | HwndParent | Pinned | Modal

  /** The parameter name as it appears in the URL. */
  function KeyName(k: QueryKey): string {
    match k
    case CreateFlags => "createflags"
    case MinWidth => "minwidth"
    case MinHeight => "minheight"
    case MaxWidth => "maxwidth"
    case MaxHeight => "maxheight"
    case Pid => "pid"
    case Browser => "browser"
    case BrowserType => "browserType"
    case ScreenAvailWidth => "screenavailwidth"
    case ScreenAvailHeight => "screenavailheight"
    case VrOverlayKey => "vrOverlayKey"
    case RestoreDetails => "restoredetails"
    case OpenerId => "openerid"
    case ParentContainerPopupId => "parentcontainerpopupid"
    case CenterOnBrowserId => "centerOnBrowserID"
    case UserAgent => "useragent"
    case HwndParent => "hwndParent"
    case Pinned => "pinned"
    case Modal => "modal"
  }

  /** The position of the key's `push` in the source. */
  function Rank(k: QueryKey): (r: nat)
    ensures r < 19
  {
    match k
    case CreateFlags => 0
    case MinWidth => 1
    case MinHeight => 2
    case MaxWidth => 3
    case MaxHeight => 4
    case Pid => 5
    case Browser => 6
    case BrowserType => 7
    case ScreenAvailWidth => 8
    case ScreenAvailHeight => 9
    case VrOverlayKey => 10
    case RestoreDetails => 11
    case OpenerId => 12
    case ParentContainerPopupId => 13
    case CenterOnBrowserId => 14
    case UserAgent => 15
    case HwndParent => 16
    case Pinned => 17
    case Modal => 18
  }

  /** One pushed `key=value` entry, kept apart until it is rendered into the URL. */
  datatype QueryParam = QueryParam(key: QueryKey, value: string)

  /** The text pushed onto `queryParams`. */
  function Render(p: QueryParam): string {
    KeyName(p.key) + "=" + p.value
  }

  function RenderAll(ps: seq<QueryParam>): (r: seq<string>)
    ensures |r| == |ps|
    ensures forall i :: 0 <= i < |ps| ==> r[i] == Render(ps[i])
  {
    if ps == [] then [] else [Render(ps[0])] + RenderAll(ps[1..])
  }

  /** `${options.eCreationFlags}`: the number, or the word `undefined` when it is not given. */
  function FlagsText(flags: Option<int>): (s: string)
    ensures flags.None? ==> s == "undefined"
    ensures flags.Some? ==> s == IntToString(flags.value)
  {
    if flags.Some? then IntToString(flags.value) else "undefined"
  }

  // ---------------------------------------------------------------------------
  // The parameters, phase by phase as the source pushes them

  /** `if (n) queryParams.push(...)` for a number. */
  function NumberParam(k: QueryKey, v: Option<int>): seq<QueryParam> {
    if TruthyInt(v) then [QueryParam(k, IntToString(v.value))] else []
  }

  /** `if (v) queryParams.push(...)` for a `number | string`. */
  function ValueParam(k: QueryKey, v: Option<JsValue>): seq<QueryParam> {
    if Truthy(v) then [QueryParam(k, Show(v.value))] else []
  }

  /** `if (s) queryParams.push(...)` for a string. */
  function TextParam(k: QueryKey, s: string): seq<QueryParam> {
    if s != "" then [QueryParam(k, s)] else []
  }

  /** `if (b) queryParams.push('key=true')`. */
  function SwitchParam(k: QueryKey, b: bool): seq<QueryParam> {
    if b then [QueryParam(k, "true")] else []
  }

  /** `max && max !== Infinity`: a finite, non-zero maximum. */
  predicate FiniteMax(e: Option<Extent>) {
    e.Some? && e.value.Finite? && e.value.n != 0
  }

  function MaxParam(k: QueryKey, e: Option<Extent>): seq<QueryParam> {
    if FiniteMax(e) then [QueryParam(k, IntToString(e.value.n))] else []
  }

  /** The minimum and maximum sizes. */
  function SizeLimitParams(o: PopupOptions): seq<QueryParam> {
    NumberParam(MinWidth, o.minWidth) + NumberParam(MinHeight, o.minHeight)
      + MaxParam(MaxWidth, o.maxWidth) + MaxParam(MaxHeight, o.maxHeight)
  }

  /** The target browser's identity, the browser type and the available screen size. */
  function BrowserParams(o: PopupOptions): seq<QueryParam> {
    match o.targetBrowser
    case Some(b) =>
      [QueryParam(Pid, IntToString(b.pid)), QueryParam(Browser, IntToString(b.browserId))]
        + (if Truthy(b.browserType) then [QueryParam(BrowserType, Show(b.browserType.value))]
           else ValueParam(BrowserType, o.browserType))
        + (if TruthyInt(o.availScreenWidth) && TruthyInt(o.availScreenHeight)
           then [QueryParam(ScreenAvailWidth, IntToString(o.availScreenWidth.value)),
                 QueryParam(ScreenAvailHeight, IntToString(o.availScreenHeight.value))]
           else [])
    case None => ValueParam(BrowserType, o.browserType)
  }

  /** The overlay key, restore details, opener and parent container. */
  function IdentityParams(o: PopupOptions): seq<QueryParam> {
    TextParam(VrOverlayKey, o.vrOverlayKey) + TextParam(RestoreDetails, o.restoreDetails)
      + ValueParam(OpenerId, o.windowOpenerId) + ValueParam(ParentContainerPopupId, o.parentContainerPopupId)
  }

  /** Whether the popup is placed nowhere in particular. */
  predicate Unpositioned(o: PopupOptions) {
    var d := o.dimensions.GetOr(NoDimensions);
    d.left.None? && d.top.None?
  }

  /** Centring on another window, only for a popup with no position of its own. */
  function CenterParams(o: PopupOptions): seq<QueryParam> {
    if o.centerOnWindow.Some? && Unpositioned(o) then [QueryParam(CenterOnBrowserId, Show(o.centerOnWindow.value))]
    else []
  }

  /** The user agent, parent window handle and the two switches. */
  function TrailingParams(o: PopupOptions): seq<QueryParam> {
    TextParam(UserAgent, o.userAgent) + ValueParam(HwndParent, o.hwndParent)
      + SwitchParam(Pinned, o.pinned) + SwitchParam(Modal, o.modal)
  }

  /** Every parameter `CreatePopup` pushes, in push order. */
  function QueryParams(o: PopupOptions): (ps: seq<QueryParam>)
    ensures ps != [] && ps[0] == QueryParam(CreateFlags, FlagsText(o.creationFlags))
  {
    [QueryParam(CreateFlags, FlagsText(o.creationFlags))] + SizeLimitParams(o) + BrowserParams(o)
      + IdentityParams(o) + CenterParams(o) + TrailingParams(o)
  }

  /** `url`, with `?` and the `&`-joined parameters appended when there are any. */
  function PopupUrl(ps: seq<QueryParam>): string {
    if |ps| > 0 then "about:blank" + "?" + Join(RenderAll(ps), '&') else "about:blank"
  }

  // ---------------------------------------------------------------------------
  // Reading the parameters back

  /** The values pushed under `k`, in order. */
  function ValuesOf(ps: seq<QueryParam>, k: QueryKey): (r: seq<string>)
    ensures |r| <= |ps|
  {
    if ps == [] then []
    else (if ps[0].key == k then [ps[0].value] else []) + ValuesOf(ps[1..], k)
  }

  /** No value is read back for `k` exactly when nothing was pushed under `k`. */
  lemma {:induction false} ValuesOfEmpty(ps: seq<QueryParam>, k: QueryKey)
    ensures ValuesOf(ps, k) == [] <==> forall p :: p in ps ==> p.key != k
    decreases |ps|
  {
    if ps != [] {
      ValuesOfEmpty(ps[1..], k);
      assert forall p :: p in ps <==> p == ps[0] || p in ps[1..];
    }
  }

  lemma {:induction false} ValuesOfAppend(a: seq<QueryParam>, b: seq<QueryParam>, k: QueryKey)
    ensures ValuesOf(a + b, k) == ValuesOf(a, k) + ValuesOf(b, k)
    decreases |a|
  {
    if a == [] {
      assert a + b == b;
    } else {
      var first := if a[0].key == k then [a[0].value] else [];
      calc {
        ValuesOf(a + b, k);
      == { assert (a + b)[0] == a[0] && (a + b)[1..] == a[1..] + b; }
        first + ValuesOf(a[1..] + b, k);
      == { ValuesOfAppend(a[1..], b, k); }
        first + (ValuesOf(a[1..], k) + ValuesOf(b, k));
      ==
        ValuesOf(a, k) + ValuesOf(b, k);
      }
    }
  }

  /** The rank of the last push. */
  const LastRank := 18

  /** Every key in `ps` has a rank between `lo` and `hi`. */
  predicate RanksIn(ps: seq<QueryParam>, lo: int, hi: int)
    decreases |ps|
  {
    ps == [] || (lo <= Rank(ps[0].key) <= hi && RanksIn(ps[1..], lo, hi))
  }

  /** Keys strictly increase in rank: each key at most once, in push order. */
  predicate Ascending(ps: seq<QueryParam>)
    decreases |ps|
  {
    ps == [] || (RanksIn(ps[1..], Rank(ps[0].key) + 1, LastRank) && Ascending(ps[1..]))
  }

  lemma {:induction false} RanksInAppend(a: seq<QueryParam>, b: seq<QueryParam>, lo: int, hi: int)
    ensures RanksIn(a + b, lo, hi) <==> RanksIn(a, lo, hi) && RanksIn(b, lo, hi)
    decreases |a|
  {
    if a == [] {
      assert a + b == b;
    } else {
      assert (a + b)[0] == a[0] && (a + b)[1..] == a[1..] + b;
      RanksInAppend(a[1..], b, lo, hi);
    }
  }

  lemma {:induction false} RanksInWiden(ps: seq<QueryParam>, lo: int, hi: int, lo': int, hi': int)
    requires RanksIn(ps, lo, hi) && lo' <= lo && hi <= hi'
    ensures RanksIn(ps, lo', hi')
    decreases |ps|
  {
    if ps != [] {
      RanksInWiden(ps[1..], lo, hi, lo', hi');
    }
  }

  /** Two ascending runs, the second ranked above the first, make one ascending run. */
  lemma AscendingAppend(a: seq<QueryParam>, b: seq<QueryParam>, lo: int, mid: int, hi: int)
    requires lo <= mid < hi <= LastRank
    requires Ascending(a) && RanksIn(a, lo, mid)
    requires Ascending(b) && RanksIn(b, mid + 1, hi)
    ensures Ascending(a + b) && RanksIn(a + b, lo, hi)
  {
    RanksInWiden(a, lo, mid, lo, hi);
    RanksInWiden(b, mid + 1, hi, lo, hi);
    RanksInAppend(a, b, lo, hi);
    RanksInWiden(b, mid + 1, hi, mid + 1, LastRank);
    AscendingJoin(a, b, lo, mid);
  }

  lemma {:induction false} AscendingJoin(a: seq<QueryParam>, b: seq<QueryParam>, lo: int, mid: int)
    requires Ascending(a) && RanksIn(a, lo, mid)
    requires Ascending(b) && RanksIn(b, mid + 1, LastRank)
    ensures Ascending(a + b)
    decreases |a|
  {
    if a == [] {
      assert a + b == b;
    } else {
      var r := Rank(a[0].key);
      AscendingJoin(a[1..], b, lo, mid);
      assert RanksIn(a[1..] + b, r + 1, LastRank) by {
        RanksInWiden(b, mid + 1, LastRank, r + 1, LastRank);
        RanksInAppend(a[1..], b, r + 1, LastRank);
      }
      AscendingCons(a[0], a[1..] + b);
      ConsAppend(a, b);
    }
  }

  lemma AscendingCons(p: QueryParam, rest: seq<QueryParam>)
    requires RanksIn(rest, Rank(p.key) + 1, LastRank) && Ascending(rest)
    ensures Ascending([p] + rest)
  {
    assert ([p] + rest)[1..] == rest;
  }

  lemma ConsAppend<T>(a: seq<T>, b: seq<T>)
    requires a != []
    ensures a + b == [a[0]] + (a[1..] + b)
  {
  }

  /** A phase whose keys lie outside a range holds no value for a key inside it. */
  lemma {:induction false} NoValuesOutside(ps: seq<QueryParam>, lo: int, hi: int, k: QueryKey)
    requires RanksIn(ps, lo, hi) && !(lo <= Rank(k) <= hi)
    ensures ValuesOf(ps, k) == []
    decreases |ps|
  {
    if ps != [] {
      NoValuesOutside(ps[1..], lo, hi, k);
    }
  }

  /** Under ascending keys a parameter is given at most once. */
  lemma {:induction false} AtMostOneValue(ps: seq<QueryParam>, k: QueryKey)
    requires Ascending(ps)
    ensures |ValuesOf(ps, k)| <= 1
    decreases |ps|
  {
    if ps != [] {
      if ps[0].key == k {
        NoValuesOutside(ps[1..], Rank(k) + 1, LastRank, k);
      } else {
        AtMostOneValue(ps[1..], k);
      }
    }
  }

  /** At most one push, under `key`. */
  predicate SinglePush(ps: seq<QueryParam>, key: QueryKey) {
    |ps| <= 1 && (ps != [] ==> ps[0].key == key)
  }

  lemma SinglePushAscends(ps: seq<QueryParam>, key: QueryKey)
    requires SinglePush(ps, key)
    ensures Ascending(ps) && RanksIn(ps, Rank(key), Rank(key))
  {
    if ps != [] {
      assert ps[1..] == [];
    }
  }

  /** Four consecutive optional pushes under keys of increasing rank ascend. */
  lemma FourAscend(a: seq<QueryParam>, b: seq<QueryParam>, c: seq<QueryParam>, d: seq<QueryParam>,
                   ka: QueryKey, kb: QueryKey, kc: QueryKey, kd: QueryKey)
    requires SinglePush(a, ka) && SinglePush(b, kb) && SinglePush(c, kc) && SinglePush(d, kd)
    requires Rank(kb) == Rank(ka) + 1 && Rank(kc) == Rank(kb) + 1 && Rank(kd) == Rank(kc) + 1
    ensures Ascending(a + b + c + d) && RanksIn(a + b + c + d, Rank(ka), Rank(kd))
  {
    SinglePushAscends(a, ka);
    SinglePushAscends(b, kb);
    SinglePushAscends(c, kc);
    SinglePushAscends(d, kd);
    AscendingAppend(a, b, Rank(ka), Rank(ka), Rank(kb));
    AscendingAppend(a + b, c, Rank(ka), Rank(kb), Rank(kc));
    AscendingAppend(a + b + c, d, Rank(ka), Rank(kc), Rank(kd));
  }

  lemma SizeLimitsAscend(o: PopupOptions)
    ensures Ascending(SizeLimitParams(o)) && RanksIn(SizeLimitParams(o), 1, 4)
  {
    FourAscend(NumberParam(MinWidth, o.minWidth), NumberParam(MinHeight, o.minHeight),
      MaxParam(MaxWidth, o.maxWidth), MaxParam(MaxHeight, o.maxHeight), MinWidth, MinHeight, MaxWidth, MaxHeight);
  }

  /** The browser phase, split into its optional pushes. */
  lemma BrowserPushes(o: PopupOptions)
    requires o.targetBrowser.Some?
    ensures var b := o.targetBrowser.value;
      var avail := TruthyInt(o.availScreenWidth) && TruthyInt(o.availScreenHeight);
      BrowserParams(o)
        == [QueryParam(Pid, IntToString(b.pid))] + [QueryParam(Browser, IntToString(b.browserId))]
         + (if Truthy(b.browserType) then [QueryParam(BrowserType, Show(b.browserType.value))]
            else ValueParam(BrowserType, o.browserType))
         + ((if avail then [QueryParam(ScreenAvailWidth, IntToString(o.availScreenWidth.value))] else [])
            + (if avail then [QueryParam(ScreenAvailHeight, IntToString(o.availScreenHeight.value))] else []))
  {
  }

  lemma BrowserParamsAscend(o: PopupOptions)
    ensures Ascending(BrowserParams(o)) && RanksIn(BrowserParams(o), 5, 9)
  {
    if o.targetBrowser.Some? {
      var b := o.targetBrowser.value;
      var avail := TruthyInt(o.availScreenWidth) && TruthyInt(o.availScreenHeight);
      var pid, id := [QueryParam(Pid, IntToString(b.pid))], [QueryParam(Browser, IntToString(b.browserId))];
      var kind := if Truthy(b.browserType) then [QueryParam(BrowserType, Show(b.browserType.value))]
        else ValueParam(BrowserType, o.browserType);
      var width := if avail then [QueryParam(ScreenAvailWidth, IntToString(o.availScreenWidth.value))] else [];
      var height := if avail then [QueryParam(ScreenAvailHeight, IntToString(o.availScreenHeight.value))] else [];
      BrowserPushes(o);
      FourAscend(pid, id, kind, width, Pid, Browser, BrowserType, ScreenAvailWidth);
      SinglePushAscends(height, ScreenAvailHeight);
      AscendingAppend(pid + id + kind + width, height, 5, 8, 9);
      assert pid + id + kind + width + height == pid + id + kind + (width + height);
    } else {
      SinglePushAscends(ValueParam(BrowserType, o.browserType), BrowserType);
      RanksInWiden(ValueParam(BrowserType, o.browserType), 7, 7, 5, 9);
    }
  }

  lemma IdentityParamsAscend(o: PopupOptions)
    ensures Ascending(IdentityParams(o)) && RanksIn(IdentityParams(o), 10, 13)
  {
    FourAscend(TextParam(VrOverlayKey, o.vrOverlayKey), TextParam(RestoreDetails, o.restoreDetails),
      ValueParam(OpenerId, o.windowOpenerId), ValueParam(ParentContainerPopupId, o.parentContainerPopupId),
      VrOverlayKey, RestoreDetails, OpenerId, ParentContainerPopupId);
  }

  lemma CenterParamsAscend(o: PopupOptions)
    ensures Ascending(CenterParams(o)) && RanksIn(CenterParams(o), 14, 14)
  {
    SinglePushAscends(CenterParams(o), CenterOnBrowserId);
  }

  lemma TrailingParamsAscend(o: PopupOptions)
    ensures Ascending(TrailingParams(o)) && RanksIn(TrailingParams(o), 15, 18)
  {
    FourAscend(TextParam(UserAgent, o.userAgent), ValueParam(HwndParent, o.hwndParent),
      SwitchParam(Pinned, o.pinned), SwitchParam(Modal, o.modal), UserAgent, HwndParent, Pinned, Modal);
  }

  /** The query names its parameters in the order of the source's pushes, each at most once. */
  lemma QueryParamsAscend(o: PopupOptions)
    ensures Ascending(QueryParams(o))
  {
    var head := [QueryParam(CreateFlags, FlagsText(o.creationFlags))];
    var size, browser, identity := SizeLimitParams(o), BrowserParams(o), IdentityParams(o);
    var center, trailing := CenterParams(o), TrailingParams(o);
    assert QueryParams(o) == head + size + browser + identity + center + trailing;
    SizeLimitsAscend(o);
    BrowserParamsAscend(o);
    IdentityParamsAscend(o);
    CenterParamsAscend(o);
    TrailingParamsAscend(o);
    SinglePushAscends(head, CreateFlags);
    AscendingAppend(head, size, 0, 0, 4);
    AscendingAppend(head + size, browser, 0, 4, 9);
    AscendingAppend(head + size + browser, identity, 0, 9, 13);
    AscendingAppend(head + size + browser + identity, center, 0, 13, 14);
    AscendingAppend(head + size + browser + identity + center, trailing, 0, 14, 18);
  }

  /** No parameter appears twice in the query. */
  lemma QueryNamesEachParamOnce(o: PopupOptions, k: QueryKey)
    ensures |ValuesOf(QueryParams(o), k)| <= 1
  {
    QueryParamsAscend(o);
    AtMostOneValue(QueryParams(o), k);
  }

  // ---------------------------------------------------------------------------
  // What each parameter carries, key by key

  function NumberValue(v: Option<int>): seq<string> {
    if TruthyInt(v) then [IntToString(v.value)] else []
  }

  function JsValues(v: Option<JsValue>): seq<string> {
    if Truthy(v) then [Show(v.value)] else []
  }

  function TextValue(s: string): seq<string> {
    if s != "" then [s] else []
  }

  /**
   * The values the source's rules give each parameter, stated key by key rather than in
   * push order: the reference the query is checked against.
   */
  function ExpectedValues(o: PopupOptions, k: QueryKey): (r: seq<string>)
    ensures |r| <= 1
  {
    var tb := o.targetBrowser;
    var avail := tb.Some? && TruthyInt(o.availScreenWidth) && TruthyInt(o.availScreenHeight);
    match k
    case CreateFlags => [FlagsText(o.creationFlags)]
    case MinWidth => NumberValue(o.minWidth)
    case MinHeight => NumberValue(o.minHeight)
    case MaxWidth => if FiniteMax(o.maxWidth) then [IntToString(o.maxWidth.value.n)] else []
    case MaxHeight => if FiniteMax(o.maxHeight) then [IntToString(o.maxHeight.value.n)] else []
    case Pid => if tb.Some? then [IntToString(tb.value.pid)] else []
    case Browser => if tb.Some? then [IntToString(tb.value.browserId)] else []
    case BrowserType =>
      if tb.Some? && Truthy(tb.value.browserType) then [Show(tb.value.browserType.value)]
      else JsValues(o.browserType)
    case ScreenAvailWidth => if avail then [IntToString(o.availScreenWidth.value)] else []
    case ScreenAvailHeight => if avail then [IntToString(o.availScreenHeight.value)] else []
    case VrOverlayKey => TextValue(o.vrOverlayKey)
    case RestoreDetails => TextValue(o.restoreDetails)
    case OpenerId => JsValues(o.windowOpenerId)
    case ParentContainerPopupId => JsValues(o.parentContainerPopupId)
    case CenterOnBrowserId => if o.centerOnWindow.Some? && Unpositioned(o) then [Show(o.centerOnWindow.value)] else []
    case UserAgent => TextValue(o.userAgent)
    case HwndParent => JsValues(o.hwndParent)
    case Pinned => if o.pinned then ["true"] else []
    case Modal => if o.modal then ["true"] else []
  }


  /** The value of an optional push: the pushed value, if there was a push. */
  function Pushed(ps: seq<QueryParam>): seq<string> {
    if ps == [] then [] else [ps[0].value]
  }


  /** An optional push under `key` yields its value for `key` and nothing for any other key. */
  lemma ValuesOfOne(ps: seq<QueryParam>, key: QueryKey, k: QueryKey)
    requires SinglePush(ps, key)
    ensures ValuesOf(ps, k) == (if key == k then Pushed(ps) else [])
  {
    if ps != [] {
      assert ps[1..] == [];
    }
  }

  /** Four consecutive optional pushes under four keys: a key reads back its own push. */
  lemma ValuesOfFour(a: seq<QueryParam>, b: seq<QueryParam>, c: seq<QueryParam>, d: seq<QueryParam>,
                     ka: QueryKey, kb: QueryKey, kc: QueryKey, kd: QueryKey, k: QueryKey)
    requires SinglePush(a, ka) && SinglePush(b, kb) && SinglePush(c, kc) && SinglePush(d, kd)
    requires k in {ka, kb, kc, kd} && ka != kb && ka != kc && ka != kd && kb != kc && kb != kd && kc != kd
    ensures ValuesOf(a + b + c + d, k)
      == if k == ka then Pushed(a) else if k == kb then Pushed(b) else if k == kc then Pushed(c) else Pushed(d)
  {
    ValuesOfAppend(a + b + c, d, k);
    ValuesOfAppend(a + b, c, k);
    ValuesOfAppend(a, b, k);
    ValuesOfOne(a, ka, k);
    ValuesOfOne(b, kb, k);
    ValuesOfOne(c, kc, k);
    ValuesOfOne(d, kd, k);
  }

  /** Five consecutive optional pushes under five keys: a key reads back its own push. */
  lemma ValuesOfFive(a: seq<QueryParam>, b: seq<QueryParam>, c: seq<QueryParam>, d: seq<QueryParam>, e: seq<QueryParam>,
                     ka: QueryKey, kb: QueryKey, kc: QueryKey, kd: QueryKey, ke: QueryKey, k: QueryKey)
    requires SinglePush(a, ka) && SinglePush(b, kb) && SinglePush(c, kc) && SinglePush(d, kd) && SinglePush(e, ke)
    requires k in {ka, kb, kc, kd, ke}
    requires ka != kb && ka != kc && ka != kd && kb != kc && kb != kd && kc != kd
    requires ke != ka && ke != kb && ke != kc && ke != kd
    ensures ValuesOf(a + b + c + d + e, k)
      == if k == ka then Pushed(a) else if k == kb then Pushed(b) else if k == kc then Pushed(c)
         else if k == kd then Pushed(d) else Pushed(e)
  {
    ValuesOfAppend(a + b + c + d, e, k);
    ValuesOfAppend(a + b + c, d, k);
    ValuesOfAppend(a + b, c, k);
    ValuesOfAppend(a, b, k);
    ValuesOfOne(a, ka, k);
    ValuesOfOne(b, kb, k);
    ValuesOfOne(c, kc, k);
    ValuesOfOne(d, kd, k);
    ValuesOfOne(e, ke, k);
  }

  lemma SizeLimitValues(o: PopupOptions, k: QueryKey)
    requires 1 <= Rank(k) <= 4
    ensures ValuesOf(SizeLimitParams(o), k) == ExpectedValues(o, k)
  {
    var a, b := NumberParam(MinWidth, o.minWidth), NumberParam(MinHeight, o.minHeight);
    var c, d := MaxParam(MaxWidth, o.maxWidth), MaxParam(MaxHeight, o.maxHeight);
    assert k in {MinWidth, MinHeight, MaxWidth, MaxHeight};
    ValuesOfFour(a, b, c, d, MinWidth, MinHeight, MaxWidth, MaxHeight, k);
    match k {
      case MinWidth => assert ExpectedValues(o, k) == Pushed(a);
      case MinHeight => assert ExpectedValues(o, k) == Pushed(b);
      case MaxWidth => assert ExpectedValues(o, k) == Pushed(c);
      case MaxHeight => assert ExpectedValues(o, k) == Pushed(d);
    }
  }

  lemma BrowserValues(o: PopupOptions, k: QueryKey)
    requires 5 <= Rank(k) <= 9
    ensures ValuesOf(BrowserParams(o), k) == ExpectedValues(o, k)
  {
    if o.targetBrowser.Some? {
      TargetBrowserValues(o, k);
    } else {
      ValuesOfOne(ValueParam(BrowserType, o.browserType), BrowserType, k);
    }
  }

  lemma TargetBrowserValues(o: PopupOptions, k: QueryKey)
    requires 5 <= Rank(k) <= 9 && o.targetBrowser.Some?
    ensures ValuesOf(BrowserParams(o), k) == ExpectedValues(o, k)
  {
    var b := o.targetBrowser.value;
    var avail := TruthyInt(o.availScreenWidth) && TruthyInt(o.availScreenHeight);
    var pid, id := [QueryParam(Pid, IntToString(b.pid))], [QueryParam(Browser, IntToString(b.browserId))];
    var kind := if Truthy(b.browserType) then [QueryParam(BrowserType, Show(b.browserType.value))]
      else ValueParam(BrowserType, o.browserType);
    var width := if avail then [QueryParam(ScreenAvailWidth, IntToString(o.availScreenWidth.value))] else [];
    var height := if avail then [QueryParam(ScreenAvailHeight, IntToString(o.availScreenHeight.value))] else [];
    BrowserPushes(o);
    assert BrowserParams(o) == pid + id + kind + width + height;
    assert k in {Pid, Browser, BrowserType, ScreenAvailWidth, ScreenAvailHeight};
    ValuesOfFive(pid, id, kind, width, height, Pid, Browser, BrowserType, ScreenAvailWidth, ScreenAvailHeight, k);
    match k {
      case Pid => assert ExpectedValues(o, k) == Pushed(pid);
      case Browser => assert ExpectedValues(o, k) == Pushed(id);
      case BrowserType => assert ExpectedValues(o, k) == Pushed(kind);
      case ScreenAvailWidth => assert ExpectedValues(o, k) == Pushed(width);
      case ScreenAvailHeight => assert ExpectedValues(o, k) == Pushed(height);
    }
  }

  lemma IdentityValues(o: PopupOptions, k: QueryKey)
    requires 10 <= Rank(k) <= 13
    ensures ValuesOf(IdentityParams(o), k) == ExpectedValues(o, k)
  {
    var a, b := TextParam(VrOverlayKey, o.vrOverlayKey), TextParam(RestoreDetails, o.restoreDetails);
    var c, d := ValueParam(OpenerId, o.windowOpenerId), ValueParam(ParentContainerPopupId, o.parentContainerPopupId);
    assert k in {VrOverlayKey, RestoreDetails, OpenerId, ParentContainerPopupId};
    ValuesOfFour(a, b, c, d, VrOverlayKey, RestoreDetails, OpenerId, ParentContainerPopupId, k);
    match k {
      case VrOverlayKey => assert ExpectedValues(o, k) == Pushed(a);
      case RestoreDetails => assert ExpectedValues(o, k) == Pushed(b);
      case OpenerId => assert ExpectedValues(o, k) == Pushed(c);
      case ParentContainerPopupId => assert ExpectedValues(o, k) == Pushed(d);
    }
  }

  lemma TrailingValues(o: PopupOptions, k: QueryKey)
    requires 15 <= Rank(k) <= 18
    ensures ValuesOf(TrailingParams(o), k) == ExpectedValues(o, k)
  {
    var a, b := TextParam(UserAgent, o.userAgent), ValueParam(HwndParent, o.hwndParent);
    var c, d := SwitchParam(Pinned, o.pinned), SwitchParam(Modal, o.modal);
    assert k in {UserAgent, HwndParent, Pinned, Modal};
    ValuesOfFour(a, b, c, d, UserAgent, HwndParent, Pinned, Modal, k);
    match k {
      case UserAgent => assert ExpectedValues(o, k) == Pushed(a);
      case HwndParent => assert ExpectedValues(o, k) == Pushed(b);
      case Pinned => assert ExpectedValues(o, k) == Pushed(c);
      case Modal => assert ExpectedValues(o, k) == Pushed(d);
    }
  }

  /** The query, phase by phase, for one key. */
  lemma ValuesByPhase(o: PopupOptions, k: QueryKey)
    ensures ValuesOf(QueryParams(o), k)
      == ValuesOf([QueryParam(CreateFlags, FlagsText(o.creationFlags))], k) + ValuesOf(SizeLimitParams(o), k)
       + ValuesOf(BrowserParams(o), k) + ValuesOf(IdentityParams(o), k) + ValuesOf(CenterParams(o), k)
       + ValuesOf(TrailingParams(o), k)
  {
    var head := [QueryParam(CreateFlags, FlagsText(o.creationFlags))];
    var size, browser, identity := SizeLimitParams(o), BrowserParams(o), IdentityParams(o);
    var center, trailing := CenterParams(o), TrailingParams(o);
    assert QueryParams(o) == head + size + browser + identity + center + trailing;
    ValuesOfAppend(head + size + browser + identity + center, trailing, k);
    ValuesOfAppend(head + size + browser + identity, center, k);
    ValuesOfAppend(head + size + browser, identity, k);
    ValuesOfAppend(head + size, browser, k);
    ValuesOfAppend(head, size, k);
  }

  /** The keys of every phase stay within the phase's own ranks. */
  lemma PhaseRanks(o: PopupOptions)
    ensures RanksIn(SizeLimitParams(o), 1, 4) && RanksIn(BrowserParams(o), 5, 9)
    ensures RanksIn(IdentityParams(o), 10, 13) && RanksIn(CenterParams(o), 14, 14)
    ensures RanksIn(TrailingParams(o), 15, 18)
  {
    SizeLimitsAscend(o);
    BrowserParamsAscend(o);
    IdentityParamsAscend(o);
    CenterParamsAscend(o);
    TrailingParamsAscend(o);
  }

  /** `createflags` reads back from the first push alone. */
  lemma CreateFlagsValue(o: PopupOptions, k: QueryKey)
    requires Rank(k) == 0
    ensures ValuesOf(QueryParams(o), k) == [FlagsText(o.creationFlags)]
  {
    ValuesByPhase(o, k);
    PhaseRanks(o);
    ValuesOfOne([QueryParam(CreateFlags, FlagsText(o.creationFlags))], CreateFlags, k);
    NoValuesOutside(SizeLimitParams(o), 1, 4, k);
    NoValuesOutside(BrowserParams(o), 5, 9, k);
    NoValuesOutside(IdentityParams(o), 10, 13, k);
    NoValuesOutside(CenterParams(o), 14, 14, k);
    NoValuesOutside(TrailingParams(o), 15, 18, k);
    assert k == CreateFlags;
  }

  /** Only its own phase pushes the size limits. */
  lemma SizeLimitPhaseOnly(o: PopupOptions, k: QueryKey)
    requires 1 <= Rank(k) <= 4
    ensures ValuesOf(QueryParams(o), k) == ValuesOf(SizeLimitParams(o), k)
  {
    ValuesByPhase(o, k);
    PhaseRanks(o);
    ValuesOfOne([QueryParam(CreateFlags, FlagsText(o.creationFlags))], CreateFlags, k);
    NoValuesOutside(BrowserParams(o), 5, 9, k);
    NoValuesOutside(IdentityParams(o), 10, 13, k);
    NoValuesOutside(CenterParams(o), 14, 14, k);
    NoValuesOutside(TrailingParams(o), 15, 18, k);
  }

  /** Only its own phase pushes the browser parameters. */
  lemma BrowserPhaseOnly(o: PopupOptions, k: QueryKey)
    requires 5 <= Rank(k) <= 9
    ensures ValuesOf(QueryParams(o), k) == ValuesOf(BrowserParams(o), k)
  {
    ValuesByPhase(o, k);
    PhaseRanks(o);
    ValuesOfOne([QueryParam(CreateFlags, FlagsText(o.creationFlags))], CreateFlags, k);
    NoValuesOutside(SizeLimitParams(o), 1, 4, k);
    NoValuesOutside(IdentityParams(o), 10, 13, k);
    NoValuesOutside(CenterParams(o), 14, 14, k);
    NoValuesOutside(TrailingParams(o), 15, 18, k);
  }

  /** Only its own phase pushes the identity parameters. */
  lemma IdentityPhaseOnly(o: PopupOptions, k: QueryKey)
    requires 10 <= Rank(k) <= 13
    ensures ValuesOf(QueryParams(o), k) == ValuesOf(IdentityParams(o), k)
  {
    ValuesByPhase(o, k);
    PhaseRanks(o);
    ValuesOfOne([QueryParam(CreateFlags, FlagsText(o.creationFlags))], CreateFlags, k);
    NoValuesOutside(SizeLimitParams(o), 1, 4, k);
    NoValuesOutside(BrowserParams(o), 5, 9, k);
    NoValuesOutside(CenterParams(o), 14, 14, k);
    NoValuesOutside(TrailingParams(o), 15, 18, k);
  }

  /** Only its own phase pushes `centerOnBrowserID`. */
  lemma CenterPhaseOnly(o: PopupOptions, k: QueryKey)
    requires Rank(k) == 14
    ensures ValuesOf(QueryParams(o), k) == ValuesOf(CenterParams(o), k)
  {
    ValuesByPhase(o, k);
    PhaseRanks(o);
    ValuesOfOne([QueryParam(CreateFlags, FlagsText(o.creationFlags))], CreateFlags, k);
    NoValuesOutside(SizeLimitParams(o), 1, 4, k);
    NoValuesOutside(BrowserParams(o), 5, 9, k);
    NoValuesOutside(IdentityParams(o), 10, 13, k);
    NoValuesOutside(TrailingParams(o), 15, 18, k);
  }

  /** Only its own phase pushes the trailing parameters. */
  lemma TrailingPhaseOnly(o: PopupOptions, k: QueryKey)
    requires 15 <= Rank(k)
    ensures ValuesOf(QueryParams(o), k) == ValuesOf(TrailingParams(o), k)
  {
    ValuesByPhase(o, k);
    PhaseRanks(o);
    ValuesOfOne([QueryParam(CreateFlags, FlagsText(o.creationFlags))], CreateFlags, k);
    NoValuesOutside(SizeLimitParams(o), 1, 4, k);
    NoValuesOutside(BrowserParams(o), 5, 9, k);
    NoValuesOutside(IdentityParams(o), 10, 13, k);
    NoValuesOutside(CenterParams(o), 14, 14, k);
  }

  /** Every parameter of the query carries exactly what the source's rule for it gives. */
  lemma QueryValues(o: PopupOptions, k: QueryKey)
    ensures ValuesOf(QueryParams(o), k) == ExpectedValues(o, k)
  {
    var r := Rank(k);
    if r == 0 {
      CreateFlagsValue(o, k);
      assert k == CreateFlags;
    } else if r <= 4 {
      SizeLimitPhaseOnly(o, k);
      SizeLimitValues(o, k);
    } else if r <= 9 {
      BrowserPhaseOnly(o, k);
      BrowserValues(o, k);
    } else if r <= 13 {
      IdentityPhaseOnly(o, k);
      IdentityValues(o, k);
    } else if r == 14 {
      CenterPhaseOnly(o, k);
      assert k == CenterOnBrowserId;
      ValuesOfOne(CenterParams(o), CenterOnBrowserId, k);
    } else {
      TrailingPhaseOnly(o, k);
      TrailingValues(o, k);
    }
  }

  // ---------------------------------------------------------------------------
  // The rules the source states, one by one

  /** `maxwidth`/`maxheight` are given only for a finite, non-zero maximum, and then with its value. */
  lemma MaxSizeOnlyWhenFinite(o: PopupOptions)
    ensures ValuesOf(QueryParams(o), MaxWidth)
      == if o.maxWidth.Some? && o.maxWidth.value.Finite? && o.maxWidth.value.n != 0
         then [IntToString(o.maxWidth.value.n)] else []
    ensures ValuesOf(QueryParams(o), MaxHeight)
      == if o.maxHeight.Some? && o.maxHeight.value.Finite? && o.maxHeight.value.n != 0
         then [IntToString(o.maxHeight.value.n)] else []
  {
    QueryValues(o, MaxWidth);
    QueryValues(o, MaxHeight);
  }

  /**
   * At most one `browserType`: the target browser's own type when it has a truthy one,
   * otherwise the option's when that is truthy, otherwise none, with or without a
   * target browser.
   */
  lemma BrowserTypePrecedence(o: PopupOptions)
    ensures ValuesOf(QueryParams(o), BrowserType)
      == if o.targetBrowser.Some? && Truthy(o.targetBrowser.value.browserType)
         then [Show(o.targetBrowser.value.browserType.value)]
         else if Truthy(o.browserType) then [Show(o.browserType.value)]
         else []
  {
    QueryValues(o, BrowserType);
  }

  /** `pid` and `browser` come with a target browser and only with one. */
  lemma BrowserIdentityOnlyWithTarget(o: PopupOptions)
    ensures ValuesOf(QueryParams(o), Pid)
      == if o.targetBrowser.Some? then [IntToString(o.targetBrowser.value.pid)] else []
    ensures ValuesOf(QueryParams(o), Browser)
      == if o.targetBrowser.Some? then [IntToString(o.targetBrowser.value.browserId)] else []
  {
    QueryValues(o, Pid);
    QueryValues(o, Browser);
  }

  /** Both `screenavail*` parameters appear together, and only with a target browser and both sizes truthy. */
  lemma ScreenAvailOnlyWithTargetBrowser(o: PopupOptions)
    ensures var both := o.targetBrowser.Some? && TruthyInt(o.availScreenWidth) && TruthyInt(o.availScreenHeight);
      && ValuesOf(QueryParams(o), ScreenAvailWidth) == (if both then [IntToString(o.availScreenWidth.value)] else [])
      && ValuesOf(QueryParams(o), ScreenAvailHeight) == (if both then [IntToString(o.availScreenHeight.value)] else [])
  {
    QueryValues(o, ScreenAvailWidth);
    QueryValues(o, ScreenAvailHeight);
  }

  /** `centerOnBrowserID` appears only for a window to centre on and a popup with neither `left` nor `top`. */
  lemma CenterOnlyWhenUnpositioned(o: PopupOptions)
    ensures var d := o.dimensions.GetOr(NoDimensions);
      ValuesOf(QueryParams(o), CenterOnBrowserId)
        == if o.centerOnWindow.Some? && d.left.None? && d.top.None? then [Show(o.centerOnWindow.value)] else []
  {
    QueryValues(o, CenterOnBrowserId);
  }

  /** `createflags` is always present, as a number or as the word `undefined`. */
  lemma CreateFlagsAlwaysPresent(o: PopupOptions)
    ensures ValuesOf(QueryParams(o), CreateFlags) == [FlagsText(o.creationFlags)]
    ensures o.creationFlags.None? ==> ValuesOf(QueryParams(o), CreateFlags) == ["undefined"]
    ensures o.creationFlags.Some? ==> ValuesOf(QueryParams(o), CreateFlags) == [IntToString(o.creationFlags.value)]
  {
    QueryValues(o, CreateFlags);
  }

  // ---------------------------------------------------------------------------
  // The URL

  /** The URL is never bare: it always carries a query that starts with `createflags=`. */
  lemma UrlBeginsWithCreateFlags(o: PopupOptions)
    ensures var ps := QueryParams(o);
      && PopupUrl(ps) == "about:blank?" + Join(RenderAll(ps), '&')
      && "about:blank?createflags=" + FlagsText(o.creationFlags) <= PopupUrl(ps)
  {
    var ps := QueryParams(o);
    var parts := RenderAll(ps);
    var flags := FlagsText(o.creationFlags);
    assert parts[0] == KeyName(CreateFlags) + "=" + flags;
    JoinStartsWithFirst(parts, '&');
    PrefixUnder("about:blank?", parts[0], Join(parts, '&'));
    UrlLiterals(flags);
  }

  lemma PrefixUnder(a: string, p: string, s: string)
    requires p <= s
    ensures a + p <= a + s
  {
    assert (a + s)[..|a + p|] == a + p;
  }

  lemma UrlLiterals(flags: string)
    ensures "about:blank" + "?" == "about:blank?"
    ensures "about:blank?" + (KeyName(CreateFlags) + "=" + flags) == "about:blank?createflags=" + flags
  {
  }

  /** No parameter name holds `&`. */
  lemma KeyNameHasNoAmpersand(k: QueryKey)
    ensures '&' !in KeyName(k)
  {
    if k in {CreateFlags, MinWidth, MinHeight, MaxWidth, MaxHeight} {
      KeyNamesHaveNoAmpersand1(k);
    } else if k in {Pid, Browser, BrowserType, ScreenAvailWidth, ScreenAvailHeight} {
      KeyNamesHaveNoAmpersand2(k);
    } else if k in {VrOverlayKey, RestoreDetails, OpenerId, ParentContainerPopupId} {
      KeyNamesHaveNoAmpersand3(k);
    } else {
      KeyNamesHaveNoAmpersand4(k);
    }
  }

  lemma KeyNamesHaveNoAmpersand1(k: QueryKey)
    requires k in {CreateFlags, MinWidth, MinHeight, MaxWidth, MaxHeight}
    ensures '&' !in KeyName(k)
  {
  }

  lemma KeyNamesHaveNoAmpersand2(k: QueryKey)
    requires k in {Pid, Browser, BrowserType, ScreenAvailWidth, ScreenAvailHeight}
    ensures '&' !in KeyName(k)
  {
  }

  lemma KeyNamesHaveNoAmpersand3(k: QueryKey)
    requires k in {VrOverlayKey, RestoreDetails, OpenerId, ParentContainerPopupId}
    ensures '&' !in KeyName(k)
  {
  }

  lemma KeyNamesHaveNoAmpersand4(k: QueryKey)
    requires k in {CenterOnBrowserId, UserAgent, HwndParent, Pinned, Modal}
    ensures '&' !in KeyName(k)
  {
  }

  /**
   * Splitting the query at `&` gives back the pushed parameters, as long as no value
   * holds an `&` of its own (the source does not escape values).
   */
  lemma QueryReadBack(ps: seq<QueryParam>)
    requires ps != []
    requires forall p :: p in ps ==> '&' !in p.value
    ensures PopupUrl(ps) == "about:blank?" + Join(RenderAll(ps), '&')
    ensures Split(Join(RenderAll(ps), '&'), '&') == RenderAll(ps)
  {
    var parts := RenderAll(ps);
    forall i | 0 <= i < |parts| ensures '&' !in parts[i] {
      assert ps[i] in ps;
      RenderHasNoAmpersand(ps[i]);
    }
    SplitJoin(parts, '&');
  }

  /** A rendered parameter holds `&` only if its value does. */
  lemma RenderHasNoAmpersand(p: QueryParam)
    requires '&' !in p.value
    ensures '&' !in Render(p)
  {
    KeyNameHasNoAmpersand(p.key);
  }

  // ---------------------------------------------------------------------------
  // The builder, step by step

  /** The size-limit pushes of `CreatePopup`. */
  method PushSizeLimits(o: PopupOptions, queryParams: seq<QueryParam>) returns (ps: seq<QueryParam>)
    ensures ps == queryParams + SizeLimitParams(o)
  {
    ps := queryParams;
    if TruthyInt(o.minWidth) { ps := ps + [QueryParam(MinWidth, IntToString(o.minWidth.value))]; }
    assert ps == queryParams + NumberParam(MinWidth, o.minWidth);
    if TruthyInt(o.minHeight) { ps := ps + [QueryParam(MinHeight, IntToString(o.minHeight.value))]; }
    assert ps == queryParams + NumberParam(MinWidth, o.minWidth) + NumberParam(MinHeight, o.minHeight);
    if FiniteMax(o.maxWidth) { ps := ps + [QueryParam(MaxWidth, IntToString(o.maxWidth.value.n))]; }
    assert ps == queryParams + NumberParam(MinWidth, o.minWidth) + NumberParam(MinHeight, o.minHeight)
      + MaxParam(MaxWidth, o.maxWidth);
    if FiniteMax(o.maxHeight) { ps := ps + [QueryParam(MaxHeight, IntToString(o.maxHeight.value.n))]; }
  }

  /** The target-browser and browser-type pushes of `CreatePopup`. */
  method PushBrowser(o: PopupOptions, queryParams: seq<QueryParam>) returns (ps: seq<QueryParam>)
    ensures ps == queryParams + BrowserParams(o)
  {
    ps := queryParams;
    if o.targetBrowser.Some? {
      var browser := o.targetBrowser.value;
      ps := ps + [QueryParam(Pid, IntToString(browser.pid))];
      ps := ps + [QueryParam(Browser, IntToString(browser.browserId))];
      ghost var ids := ps;
      if Truthy(browser.browserType) {
        ps := ps + [QueryParam(BrowserType, Show(browser.browserType.value))];
      } else if Truthy(o.browserType) {
        ps := ps + [QueryParam(BrowserType, Show(o.browserType.value))];
      }
      ghost var kind := ps[|ids|..];
      assert ps == ids + kind;
      if TruthyInt(o.availScreenWidth) && TruthyInt(o.availScreenHeight) {
        ps := ps + [QueryParam(ScreenAvailWidth, IntToString(o.availScreenWidth.value))];
        ps := ps + [QueryParam(ScreenAvailHeight, IntToString(o.availScreenHeight.value))];
      }
      BrowserPushes(o);
    } else if Truthy(o.browserType) {
      ps := ps + [QueryParam(BrowserType, Show(o.browserType.value))];
    }
  }

  /** The overlay, restore, opener and parent-container pushes of `CreatePopup`. */
  method PushIdentity(o: PopupOptions, queryParams: seq<QueryParam>) returns (ps: seq<QueryParam>)
    ensures ps == queryParams + IdentityParams(o)
  {
    ps := queryParams;
    if o.vrOverlayKey != "" { ps := ps + [QueryParam(VrOverlayKey, o.vrOverlayKey)]; }
    assert ps == queryParams + TextParam(VrOverlayKey, o.vrOverlayKey);
    if o.restoreDetails != "" { ps := ps + [QueryParam(RestoreDetails, o.restoreDetails)]; }
    assert ps == queryParams + TextParam(VrOverlayKey, o.vrOverlayKey) + TextParam(RestoreDetails, o.restoreDetails);
    if Truthy(o.windowOpenerId) { ps := ps + [QueryParam(OpenerId, Show(o.windowOpenerId.value))]; }
    assert ps == queryParams + TextParam(VrOverlayKey, o.vrOverlayKey) + TextParam(RestoreDetails, o.restoreDetails)
      + ValueParam(OpenerId, o.windowOpenerId);
    if Truthy(o.parentContainerPopupId) {
      ps := ps + [QueryParam(ParentContainerPopupId, Show(o.parentContainerPopupId.value))];
    }
  }

  /** The user-agent, parent-window and switch pushes of `CreatePopup`. */
  method PushTrailing(o: PopupOptions, queryParams: seq<QueryParam>) returns (ps: seq<QueryParam>)
    ensures ps == queryParams + TrailingParams(o)
  {
    ps := queryParams;
    if o.userAgent != "" { ps := ps + [QueryParam(UserAgent, o.userAgent)]; }
    assert ps == queryParams + TextParam(UserAgent, o.userAgent);
    if Truthy(o.hwndParent) { ps := ps + [QueryParam(HwndParent, Show(o.hwndParent.value))]; }
    assert ps == queryParams + TextParam(UserAgent, o.userAgent) + ValueParam(HwndParent, o.hwndParent);
    if o.pinned { ps := ps + [QueryParam(Pinned, "true")]; }
    assert ps == queryParams + TextParam(UserAgent, o.userAgent) + ValueParam(HwndParent, o.hwndParent)
      + SwitchParam(Pinned, o.pinned);
    if o.modal { ps := ps + [QueryParam(Modal, "true")]; }
  }

  /**
   * Builds the URL as `CreatePopup` does: pushes every parameter under its condition and
   * appends `?` and the joined parameters when there are any.
   */
  method CreatePopupUrl(o: PopupOptions) returns (url: string, queryParams: seq<QueryParam>)
    ensures queryParams == QueryParams(o)
    ensures url == PopupUrl(queryParams)
  {
    url := "about:blank";
    queryParams := [];
    queryParams := queryParams + [QueryParam(CreateFlags, FlagsText(o.creationFlags))];
    ghost var head := queryParams;
    assert head == [QueryParam(CreateFlags, FlagsText(o.creationFlags))];
    queryParams := PushSizeLimits(o, queryParams);
    queryParams := PushBrowser(o, queryParams);
    queryParams := PushIdentity(o, queryParams);
    ghost var beforeCenter := queryParams;
    assert beforeCenter == head + SizeLimitParams(o) + BrowserParams(o) + IdentityParams(o);
    if o.centerOnWindow.Some? && Unpositioned(o) {
      // The browser ID the window reports.
      var parentBrowserId := o.centerOnWindow.value;
      queryParams := queryParams + [QueryParam(CenterOnBrowserId, Show(parentBrowserId))];
    }
    assert queryParams == beforeCenter + CenterParams(o);
    ghost var beforeTrailing := queryParams;
    queryParams := PushTrailing(o, queryParams);
    assert queryParams == beforeTrailing + TrailingParams(o);
    if |queryParams| > 0 {
      url := url + "?" + Join(RenderAll(queryParams), '&');
    }
  }
}
