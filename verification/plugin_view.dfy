/**
 * The list of plugins the quick-access panel shows: a copy of the loaded plugins,
 * ordered by each name's position in the user's plugin order (names missing from it
 * rank -1), then only those with content, then only those not hidden.
 *
 * `Array.prototype.sort` is stable, so the ordering is modelled as a stable insertion
 * sort: among plugins of equal rank the loaded order is kept.
 */
module PluginView {

  /** A loaded plugin, reduced to its name and whether its `content` is truthy. */
  datatype Plugin = Plugin(name: string, hasContent: bool)

  /** `order.indexOf(name)`: the first position of `name`, or -1 when it is missing. */
  function IndexOf(order: seq<string>, name: string): (r: int)
    ensures -1 <= r < |order|
    ensures r == -1 <==> name !in order
    ensures r >= 0 ==> order[r] == name && name !in order[..r]
    decreases |order|
  {
    if order == [] then -1
    else if order[0] == name then 0
    else
      var i := IndexOf(order[1..], name);
      if i == -1 then -1
      else
        assert order[..i + 1] == [order[0]] + order[1..][..i];
        i + 1
  }

  /** The sort key of a plugin. */
  function Rank(order: seq<string>, p: Plugin): int {
    IndexOf(order, p.name)
  }

  // ---------------------------------------------------------------------------
  // The stable sort

  /** Every plugin of `s` ranks at most `k`. */
  ghost predicate AllAtMost(s: seq<Plugin>, order: seq<string>, k: int) {
    forall y :: y in s ==> Rank(order, y) <= k
  }

  /** Non-decreasing in rank: every plugin ranks at least as high as all before it. */
  ghost predicate Sorted(s: seq<Plugin>, order: seq<string>)
    decreases |s|
  {
    s == [] || (AllAtMost(s[..|s| - 1], order, Rank(order, s[|s| - 1])) && Sorted(s[..|s| - 1], order))
  }

  /** Puts `x` after every plugin of `sorted` that ranks at most as high as `x`. */
  function Insert(sorted: seq<Plugin>, x: Plugin, order: seq<string>): seq<Plugin>
    decreases |sorted|
  {
    if sorted == [] then [x]
    else
      var n := |sorted| - 1;
      if Rank(order, sorted[n]) <= Rank(order, x) then sorted + [x]
      else Insert(sorted[..n], x, order) + [sorted[n]]
  }

  /** The comparator sort `(a, b) => indexOf(a.name) - indexOf(b.name)`, stable. */
  function SortByRank(ps: seq<Plugin>, order: seq<string>): seq<Plugin>
    decreases |ps|
  {
    if ps == [] then []
    else
      var n := |ps| - 1;
      Insert(SortByRank(ps[..n], order), ps[n], order)
  }

  lemma {:induction false} InsertPermutes(s: seq<Plugin>, x: Plugin, order: seq<string>)
    ensures multiset(Insert(s, x, order)) == multiset(s) + multiset{x}
    decreases |s|
  {
    if s != [] {
      var n := |s| - 1;
      if Rank(order, s[n]) > Rank(order, x) {
        InsertPermutes(s[..n], x, order);
        MultisetSnoc(s);
      }
    }
  }

  lemma InsertKeepsSorted(s: seq<Plugin>, x: Plugin, order: seq<string>)
    requires Sorted(s, order)
    ensures Sorted(Insert(s, x, order), order)
    decreases |s|
  {
    if s == [] {
      assert [x][..0] == [];
    } else {
      var n := |s| - 1;
      var last := s[n];
      if Rank(order, last) <= Rank(order, x) {
        SortedBound(s, order, Rank(order, x));
        assert (s + [x])[..|s|] == s;
      } else {
        var t := Insert(s[..n], x, order);
        InsertKeepsSorted(s[..n], x, order);
        InsertPermutes(s[..n], x, order);
        forall y | y in t ensures Rank(order, y) <= Rank(order, last) {
          assert y in multiset(t);
        }
        assert (t + [last])[..|t|] == t;
      }
    }
  }

  /** Sorting gives a non-decreasing arrangement of the same plugins. */
  lemma {:induction false} SortIsSortedPermutation(ps: seq<Plugin>, order: seq<string>)
    ensures Sorted(SortByRank(ps, order), order)
    ensures multiset(SortByRank(ps, order)) == multiset(ps)
    decreases |ps|
  {
    if ps != [] {
      var n := |ps| - 1;
      SortIsSortedPermutation(ps[..n], order);
      InsertKeepsSorted(SortByRank(ps[..n], order), ps[n], order);
      InsertPermutes(SortByRank(ps[..n], order), ps[n], order);
      MultisetSnoc(ps);
    }
  }

  /** The plugins of rank `k`, in order. */
  function WithRank(s: seq<Plugin>, order: seq<string>, k: int): seq<Plugin>
    decreases |s|
  {
    if s == [] then []
    else
      var n := |s| - 1;
      WithRank(s[..n], order, k) + (if Rank(order, s[n]) == k then [s[n]] else [])
  }

  lemma WithRankSnoc(t: seq<Plugin>, y: Plugin, order: seq<string>, k: int)
    ensures WithRank(t + [y], order, k) == WithRank(t, order, k) + (if Rank(order, y) == k then [y] else [])
  {
    assert (t + [y])[..|t|] == t;
  }

  lemma {:induction false} InsertIsStable(s: seq<Plugin>, x: Plugin, order: seq<string>, k: int)
    ensures WithRank(Insert(s, x, order), order, k)
      == WithRank(s, order, k) + (if Rank(order, x) == k then [x] else [])
    decreases |s|
  {
    if s == [] {
      assert [x][..0] == [];
    } else {
      var n := |s| - 1;
      if Rank(order, s[n]) <= Rank(order, x) {
        assert Insert(s, x, order) == s + [x];
        WithRankSnoc(s, x, order, k);
      } else {
        var t := Insert(s[..n], x, order);
        assert Insert(s, x, order) == t + [s[n]];
        InsertIsStable(s[..n], x, order, k);
        WithRankSnoc(t, s[n], order, k);
        if Rank(order, x) == k {
          assert WithRank(s, order, k) == WithRank(s[..n], order, k);
        }
      }
    }
  }

  /** Plugins of equal rank come out in the order they went in. */
  lemma {:induction false} SortIsStable(ps: seq<Plugin>, order: seq<string>, k: int)
    ensures WithRank(SortByRank(ps, order), order, k) == WithRank(ps, order, k)
    decreases |ps|
  {
    if ps != [] {
      var n := |ps| - 1;
      SortIsStable(ps[..n], order, k);
      InsertIsStable(SortByRank(ps[..n], order), ps[n], order, k);
    }
  }

  lemma {:induction false} SortedPairwise(s: seq<Plugin>, order: seq<string>)
    requires Sorted(s, order)
    ensures forall i, j :: 0 <= i < j < |s| ==> Rank(order, s[i]) <= Rank(order, s[j])
    decreases |s|
  {
    if s != [] {
      var n := |s| - 1;
      var prefix := s[..n];
      SortedPairwise(prefix, order);
      forall i, j | 0 <= i < j < |s| ensures Rank(order, s[i]) <= Rank(order, s[j]) {
        assert s[i] == prefix[i];
        if j < n {
          assert s[j] == prefix[j];
        } else {
          assert s[i] in prefix;
        }
      }
    }
  }

  // ---------------------------------------------------------------------------
  // The two filters

  /** `.filter((p) => p.content)`. */
  function WithContent(s: seq<Plugin>): seq<Plugin>
    decreases |s|
  {
    if s == [] then []
    else
      var n := |s| - 1;
      WithContent(s[..n]) + (if s[n].hasContent then [s[n]] else [])
  }

  /** `.filter(({ name }) => !hiddenPlugins.includes(name))`. */
  function NotHidden(s: seq<Plugin>, hidden: seq<string>): seq<Plugin>
    decreases |s|
  {
    if s == [] then []
    else
      var n := |s| - 1;
      NotHidden(s[..n], hidden) + (if s[n].name !in hidden then [s[n]] else [])
  }

  /** What the panel lists: content, and a name that is not hidden. */
  predicate Shown(p: Plugin, hidden: seq<string>) {
    p.hasContent && p.name !in hidden
  }

  /** The shown plugins of `s`, in order. */
  function ShownOf(s: seq<Plugin>, hidden: seq<string>): seq<Plugin>
    decreases |s|
  {
    if s == [] then []
    else
      var n := |s| - 1;
      ShownOf(s[..n], hidden) + (if Shown(s[n], hidden) then [s[n]] else [])
  }

  lemma MultisetSnoc(s: seq<Plugin>)
    requires s != []
    ensures multiset(s) == multiset(s[..|s| - 1]) + multiset{s[|s| - 1]}
  {
    assert s == s[..|s| - 1] + [s[|s| - 1]];
  }

  /** The shown plugins are some of the plugins, each of them shown. */
  lemma {:induction false} ShownOfIsShownPart(s: seq<Plugin>, hidden: seq<string>)
    ensures multiset(ShownOf(s, hidden)) <= multiset(s)
    ensures forall p :: p in ShownOf(s, hidden) ==> Shown(p, hidden)
    decreases |s|
  {
    if s != [] {
      var n := |s| - 1;
      ShownOfIsShownPart(s[..n], hidden);
      MultisetSnoc(s);
    }
  }

  /** The two filters one after the other keep exactly the shown plugins. */
  lemma {:induction false} FiltersKeepShown(s: seq<Plugin>, hidden: seq<string>)
    ensures NotHidden(WithContent(s), hidden) == ShownOf(s, hidden)
    decreases |s|
  {
    if s != [] {
      var n := |s| - 1;
      FiltersKeepShown(s[..n], hidden);
      var w := WithContent(s[..n]);
      if s[n].hasContent {
        assert WithContent(s) == w + [s[n]];
        assert (w + [s[n]])[..|w|] == w && (w + [s[n]])[|w|] == s[n];
      } else {
        assert WithContent(s) == w;
      }
    }
  }

  lemma {:induction false} ShownAppendOne(s: seq<Plugin>, x: Plugin, hidden: seq<string>)
    ensures ShownOf(s + [x], hidden) == ShownOf(s, hidden) + (if Shown(x, hidden) then [x] else [])
  {
    assert (s + [x])[..|s|] == s;
  }

  /** A sorted list whose last plugin ranks at most `k` ranks at most `k` throughout. */
  lemma SortedBound(s: seq<Plugin>, order: seq<string>, k: int)
    requires Sorted(s, order) && s != [] && Rank(order, s[|s| - 1]) <= k
    ensures AllAtMost(s, order, k)
  {
    var n := |s| - 1;
    forall y | y in s ensures Rank(order, y) <= k {
      var i :| 0 <= i < |s| && s[i] == y;
      if i < n {
        assert s[..n][i] == y;
      }
    }
  }

  /** Inserting a plugin that ranks at least as high as all others appends it. */
  lemma InsertAtEnd(t: seq<Plugin>, x: Plugin, order: seq<string>)
    requires AllAtMost(t, order, Rank(order, x))
    ensures Insert(t, x, order) == t + [x]
  {
    if t != [] {
      assert t[|t| - 1] in t;
    }
  }

  /** Inserting before a higher-ranked last plugin goes past it. */
  lemma InsertBeforeLast(t: seq<Plugin>, last: Plugin, x: Plugin, order: seq<string>)
    requires Rank(order, last) > Rank(order, x)
    ensures Insert(t + [last], x, order) == Insert(t, x, order) + [last]
  {
    assert (t + [last])[..|t|] == t;
  }

  /** Filtering an insertion at the end. */
  lemma ShownOfInsertAtEnd(s: seq<Plugin>, x: Plugin, order: seq<string>, hidden: seq<string>)
    requires Sorted(s, order) && s != [] && Rank(order, s[|s| - 1]) <= Rank(order, x)
    ensures ShownOf(Insert(s, x, order), hidden)
      == if Shown(x, hidden) then Insert(ShownOf(s, hidden), x, order) else ShownOf(s, hidden)
  {
    assert Insert(s, x, order) == s + [x];
    ShownAppendOne(s, x, hidden);
    if Shown(x, hidden) {
      SortedBound(s, order, Rank(order, x));
      ShownBound(s, order, hidden, Rank(order, x));
      InsertAtEnd(ShownOf(s, hidden), x, order);
    }
  }

  /** Filtering an insertion that goes past a higher-ranked last plugin. */
  lemma ShownOfInsertPast(s: seq<Plugin>, x: Plugin, order: seq<string>, hidden: seq<string>)
    requires s != [] && Rank(order, s[|s| - 1]) > Rank(order, x)
    requires var rest := s[..|s| - 1];
      ShownOf(Insert(rest, x, order), hidden)
      == if Shown(x, hidden) then Insert(ShownOf(rest, hidden), x, order) else ShownOf(rest, hidden)
    ensures ShownOf(Insert(s, x, order), hidden)
      == if Shown(x, hidden) then Insert(ShownOf(s, hidden), x, order) else ShownOf(s, hidden)
  {
    var n := |s| - 1;
    var rest, last := s[..n], s[n];
    var kept := ShownOf(rest, hidden);
    var ins := Insert(rest, x, order);
    assert Insert(s, x, order) == ins + [last];
    ShownAppendOne(ins, last, hidden);
    if Shown(last, hidden) {
      assert ShownOf(ins + [last], hidden) == ShownOf(ins, hidden) + [last];
      assert ShownOf(s, hidden) == kept + [last];
      if Shown(x, hidden) {
        InsertBeforeLast(kept, last, x, order);
      }
    } else {
      assert ShownOf(ins + [last], hidden) == ShownOf(ins, hidden) + [];
      assert ShownOf(s, hidden) == kept + [];
      assert kept + [] == kept;
      assert ShownOf(ins, hidden) + [] == ShownOf(ins, hidden);
    }
  }

  /** Filtering commutes with inserting into a sorted list. */
  lemma {:induction false} ShownOfInsert(s: seq<Plugin>, x: Plugin, order: seq<string>, hidden: seq<string>)
    requires Sorted(s, order)
    ensures ShownOf(Insert(s, x, order), hidden)
      == if Shown(x, hidden) then Insert(ShownOf(s, hidden), x, order) else ShownOf(s, hidden)
    decreases |s|
  {
    if s == [] {
      assert [x][..0] == [];
    } else {
      var n := |s| - 1;
      if Rank(order, s[n]) <= Rank(order, x) {
        ShownOfInsertAtEnd(s, x, order, hidden);
      } else {
        ShownOfInsert(s[..n], x, order, hidden);
        ShownOfInsertPast(s, x, order, hidden);
      }
    }
  }

  lemma ShownBound(s: seq<Plugin>, order: seq<string>, hidden: seq<string>, k: int)
    requires AllAtMost(s, order, k)
    ensures AllAtMost(ShownOf(s, hidden), order, k)
  {
    ShownOfIsShownPart(s, hidden);
    forall y | y in ShownOf(s, hidden) ensures Rank(order, y) <= k {
      assert y in multiset(ShownOf(s, hidden));
    }
  }

  /** Sorting then filtering is filtering then sorting. */
  lemma {:induction false} ShownOfSort(ps: seq<Plugin>, order: seq<string>, hidden: seq<string>)
    ensures ShownOf(SortByRank(ps, order), hidden) == SortByRank(ShownOf(ps, hidden), order)
    decreases |ps|
  {
    if ps != [] {
      var n := |ps| - 1;
      var rest, x := ps[..n], ps[n];
      var t := ShownOf(rest, hidden);
      ShownOfSort(rest, order, hidden);
      SortIsSortedPermutation(rest, order);
      ShownOfInsert(SortByRank(rest, order), x, order, hidden);
      assert SortByRank(ps, order) == Insert(SortByRank(rest, order), x, order);
      if Shown(x, hidden) {
        assert ShownOf(ps, hidden) == t + [x];
        assert (t + [x])[..|t|] == t;
        assert SortByRank(t + [x], order) == Insert(SortByRank(t, order), x, order);
      } else {
        assert ShownOf(ps, hidden) == t;
      }
    }
  }

  // ---------------------------------------------------------------------------
  // pluginList

  /** `[...plugins].sort(byOrder).filter(hasContent).filter(notHidden)`. */
  function PluginList(plugins: seq<Plugin>, order: seq<string>, hidden: seq<string>): seq<Plugin> {
    NotHidden(WithContent(SortByRank(plugins, order)), hidden)
  }

  /** The list is the shown plugins, sorted: only those, and all of them. */
  lemma PluginListIsSortedShown(plugins: seq<Plugin>, order: seq<string>, hidden: seq<string>)
    ensures PluginList(plugins, order, hidden) == SortByRank(ShownOf(plugins, hidden), order)
    ensures forall p :: p in PluginList(plugins, order, hidden) ==> p.hasContent && p.name !in hidden
    ensures multiset(PluginList(plugins, order, hidden)) == multiset(ShownOf(plugins, hidden))
    ensures multiset(PluginList(plugins, order, hidden)) <= multiset(plugins)
  {
    FiltersKeepShown(SortByRank(plugins, order), hidden);
    ShownOfSort(plugins, order, hidden);
    SortIsSortedPermutation(ShownOf(plugins, hidden), order);
    ShownOfIsShownPart(plugins, hidden);
    var r := PluginList(plugins, order, hidden);
    forall p | p in r ensures Shown(p, hidden) {
      assert p in multiset(r);
    }
  }

  /**
   * The list is non-decreasing in `pluginOrder.indexOf(name)`, so plugins missing
   * from the order come first.
   */
  lemma PluginListOrdered(plugins: seq<Plugin>, order: seq<string>, hidden: seq<string>)
    ensures var r := PluginList(plugins, order, hidden);
      && (forall i, j :: 0 <= i < j < |r| ==> IndexOf(order, r[i].name) <= IndexOf(order, r[j].name))
      && (forall i, j :: 0 <= i < j < |r| && r[j].name !in order ==> r[i].name !in order)
  {
    var r := PluginList(plugins, order, hidden);
    PluginListIsSortedShown(plugins, order, hidden);
    SortIsSortedPermutation(ShownOf(plugins, hidden), order);
    SortedPairwise(r, order);
  }

  /** Plugins of equal rank appear in the order they were loaded. */
  lemma PluginListStable(plugins: seq<Plugin>, order: seq<string>, hidden: seq<string>, k: int)
    ensures WithRank(PluginList(plugins, order, hidden), order, k) == WithRank(ShownOf(plugins, hidden), order, k)
  {
    PluginListIsSortedShown(plugins, order, hidden);
    SortIsStable(ShownOf(plugins, hidden), order, k);
  }
}
