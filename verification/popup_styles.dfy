/**
 * The stylesheet reconciliation `updateDocumentStyles` uses to copy the main window's
 * stylesheets into a popup. The `<link>` elements of the popup's `<head>` are matched
 * by `href` against a style map; links the map already covers are kept, the others are
 * removed when asked, and a copy of every map entry the head lacks is put in front.
 *
 * The style map is a `Record<href, link>` built by `getCurrentDocumentStyles`: a
 * sequence of links with distinct `href`s, in key-insertion order (an `href` is an
 * absolute URL, never an integer-like key, so `for ... in` visits keys in that order).
 */
module PopupStyles {

  /** An attribute of an element, as `attributes.item(j)` reports it. */
  datatype Attr = Attr(name: string, value: string)

  /** A `<link>` element: the URL its `href` resolves to, and its attributes in order. */
  datatype Link = Link(href: string, attributes: seq<Attr>)

  // ---------------------------------------------------------------------------
  // Hrefs of a list of links

  function HrefSet(links: seq<Link>): set<string>
    decreases |links|
  {
    if links == [] then {} else {links[0].href} + HrefSet(links[1..])
  }

  /** No two links share an `href`. */
  predicate DistinctHrefs(links: seq<Link>)
    decreases |links|
  {
    links == [] || (links[0].href !in HrefSet(links[1..]) && DistinctHrefs(links[1..]))
  }

  lemma {:induction false} HrefSetAppend(a: seq<Link>, b: seq<Link>)
    ensures HrefSet(a + b) == HrefSet(a) + HrefSet(b)
    decreases |a|
  {
    if a == [] {
      assert a + b == b;
    } else {
      assert (a + b)[1..] == a[1..] + b;
      HrefSetAppend(a[1..], b);
    }
  }

  lemma HrefSetOne(l: Link)
    ensures HrefSet([l]) == {l.href} && DistinctHrefs([l])
  {
    assert [l][1..] == [];
  }

  /** Two lists without repeated hrefs and without a shared href concatenate to such a list. */
  lemma {:induction false} DistinctAppend(a: seq<Link>, b: seq<Link>)
    requires DistinctHrefs(a) && DistinctHrefs(b) && HrefSet(a) !! HrefSet(b)
    ensures DistinctHrefs(a + b)
    decreases |a|
  {
    if a == [] {
      assert a + b == b;
    } else {
      assert (a + b)[1..] == a[1..] + b;
      HrefSetAppend(a[1..], b);
      DistinctAppend(a[1..], b);
    }
  }

  /** The links whose href is not in `hrefs`, in order: what `delete newStyles[href]` leaves. */
  function Without(links: seq<Link>, hrefs: set<string>): seq<Link>
    decreases |links|
  {
    if links == [] then []
    else if links[0].href in hrefs then Without(links[1..], hrefs)
    else [links[0]] + Without(links[1..], hrefs)
  }

  lemma {:induction false} WithoutHrefs(links: seq<Link>, hrefs: set<string>)
    ensures HrefSet(Without(links, hrefs)) == HrefSet(links) - hrefs
    decreases |links|
  {
    if links != [] {
      WithoutHrefs(links[1..], hrefs);
      if links[0].href !in hrefs {
        assert ([links[0]] + Without(links[1..], hrefs))[1..] == Without(links[1..], hrefs);
      }
    }
  }

  lemma {:induction false} WithoutKeepsDistinct(links: seq<Link>, hrefs: set<string>)
    requires DistinctHrefs(links)
    ensures DistinctHrefs(Without(links, hrefs))
    decreases |links|
  {
    if links != [] {
      WithoutKeepsDistinct(links[1..], hrefs);
      if links[0].href !in hrefs {
        WithoutHrefs(links[1..], hrefs);
        assert ([links[0]] + Without(links[1..], hrefs))[1..] == Without(links[1..], hrefs);
      }
    }
  }

  lemma {:induction false} WithoutNone(links: seq<Link>)
    ensures Without(links, {}) == links
    decreases |links|
  {
    if links != [] {
      WithoutNone(links[1..]);
      assert [links[0]] + links[1..] == links;
    }
  }

  /** Deleting one more href is deleting the larger set at once. */
  lemma {:induction false} WithoutMore(links: seq<Link>, hrefs: set<string>, href: string)
    ensures Without(Without(links, hrefs), {href}) == Without(links, hrefs + {href})
    decreases |links|
  {
    if links != [] {
      WithoutMore(links[1..], hrefs, href);
      if links[0].href !in hrefs {
        assert ([links[0]] + Without(links[1..], hrefs))[1..] == Without(links[1..], hrefs);
      }
    }
  }

  /** Deleting an absent href changes nothing. */
  lemma {:induction false} WithoutAbsent(links: seq<Link>, href: string)
    requires href !in HrefSet(links)
    ensures Without(links, {href}) == links
    decreases |links|
  {
    if links != [] {
      WithoutAbsent(links[1..], href);
      assert [links[0]] + links[1..] == links;
    }
  }

  // ---------------------------------------------------------------------------
  // Copying a link: `createElement('link')` and one `setAttribute` per attribute

  function Names(attrs: seq<Attr>): set<string>
    decreases |attrs|
  {
    if attrs == [] then {} else {attrs[0].name} + Names(attrs[1..])
  }

  /** An element never holds two attributes of the same name. */
  predicate DistinctNames(attrs: seq<Attr>)
    decreases |attrs|
  {
    attrs == [] || (attrs[0].name !in Names(attrs[1..]) && DistinctNames(attrs[1..]))
  }

  /** `setAttribute(name, value)`: overwrites the attribute of that name in place, or appends a new one. */
  function SetAttribute(attrs: seq<Attr>, name: string, value: string): seq<Attr>
    decreases |attrs|
  {
    if attrs == [] then [Attr(name, value)]
    else if attrs[0].name == name then [Attr(name, value)] + attrs[1..]
    else [attrs[0]] + SetAttribute(attrs[1..], name, value)
  }

  /** After `setAttribute(name, value)` the element has `name`, with `value`, and no other new name. */
  lemma {:induction false} SetAttributeSets(attrs: seq<Attr>, name: string, value: string)
    ensures Names(SetAttribute(attrs, name, value)) == Names(attrs) + {name}
    ensures Attr(name, value) in SetAttribute(attrs, name, value)
    decreases |attrs|
  {
    if attrs != [] && attrs[0].name != name {
      SetAttributeSets(attrs[1..], name, value);
      var r := SetAttribute(attrs, name, value);
      assert r[1..] == SetAttribute(attrs[1..], name, value);
    } else if attrs != [] {
      var r := SetAttribute(attrs, name, value);
      assert r[1..] == attrs[1..];
    }
  }

  lemma {:induction false} NamesAppend(a: seq<Attr>, b: seq<Attr>)
    ensures Names(a + b) == Names(a) + Names(b)
    decreases |a|
  {
    if a == [] {
      assert a + b == b;
    } else {
      assert (a + b)[1..] == a[1..] + b;
      NamesAppend(a[1..], b);
    }
  }

  /** Setting an attribute the element does not have yet appends it. */
  lemma {:induction false} SetNewAttribute(attrs: seq<Attr>, name: string, value: string)
    requires name !in Names(attrs)
    ensures SetAttribute(attrs, name, value) == attrs + [Attr(name, value)]
    decreases |attrs|
  {
    if attrs != [] {
      SetNewAttribute(attrs[1..], name, value);
      assert [attrs[0]] + (attrs[1..] + [Attr(name, value)]) == attrs + [Attr(name, value)];
    }
  }

  /** `setAttribute` for each of `rest` in turn, starting from `acc`. */
  function SetAll(acc: seq<Attr>, rest: seq<Attr>): seq<Attr>
    decreases |rest|
  {
    if rest == [] then acc else SetAll(SetAttribute(acc, rest[0].name, rest[0].value), rest[1..])
  }

  /** The attributes of the new element after the copy loop. */
  function Copied(attrs: seq<Attr>): seq<Attr> {
    SetAll([], attrs)
  }

  lemma {:induction false} SetAllFresh(acc: seq<Attr>, rest: seq<Attr>)
    requires DistinctNames(rest) && Names(acc) !! Names(rest)
    ensures SetAll(acc, rest) == acc + rest
    decreases |rest|
  {
    if rest != [] {
      var a := rest[0];
      var next := acc + [a];
      assert SetAttribute(acc, a.name, a.value) == next by {
        assert Names(rest) == {a.name} + Names(rest[1..]);
        SetNewAttribute(acc, a.name, a.value);
      }
      assert Names(next) !! Names(rest[1..]) by {
        assert Names(rest) == {a.name} + Names(rest[1..]);
        NamesAppend(acc, [a]);
        assert [a][1..] == [];
      }
      SetAllFresh(next, rest[1..]);
      assert next + rest[1..] == acc + rest;
    }
  }

  /** The copy loop reproduces the source's attributes exactly, in order. */
  lemma CopyIsExact(attrs: seq<Attr>)
    requires DistinctNames(attrs)
    ensures Copied(attrs) == attrs
  {
    SetAllFresh([], attrs);
  }

  /** The new element made from `source`; its `href` attribute resolves to the source's URL. */
  function Clone(source: Link): Link {
    Link(source.href, Copied(source.attributes))
  }

  /** The copies of `links`, in order. */
  function CloneAll(links: seq<Link>): (r: seq<Link>)
    ensures |r| == |links|
    ensures HrefSet(r) == HrefSet(links)
    ensures DistinctHrefs(links) ==> DistinctHrefs(r)
    decreases |links|
  {
    if links == [] then []
    else
      var r := [Clone(links[0])] + CloneAll(links[1..]);
      assert r[1..] == CloneAll(links[1..]);
      r
  }

  lemma {:induction false} CloneAllSnoc(links: seq<Link>, l: Link)
    ensures CloneAll(links + [l]) == CloneAll(links) + [Clone(l)]
    decreases |links|
  {
    if links == [] {
      assert links + [l] == [l];
      assert [l][1..] == [];
    } else {
      assert (links + [l])[1..] == links[1..] + [l];
      CloneAllSnoc(links[1..], l);
    }
  }

  /** Copies of links with well-formed attribute lists are equal to the links themselves. */
  lemma {:induction false} CloneAllIsExact(links: seq<Link>)
    requires forall i :: 0 <= i < |links| ==> DistinctNames(links[i].attributes)
    ensures CloneAll(links) == links
    decreases |links|
  {
    if links != [] {
      CopyIsExact(links[0].attributes);
      CloneAllIsExact(links[1..]);
      assert [links[0]] + links[1..] == links;
    }
  }

  // ---------------------------------------------------------------------------
  // The scan over the head's links

  /** The head's links still in place, and the style-map entries not yet matched. */
  datatype Scanned = Scanned(kept: seq<Link>, remaining: seq<Link>)

  /** One turn of the scan: keep a link the map covers, else remove it if asked. */
  function Step(s: Scanned, link: Link, removeExisting: bool): Scanned {
    if link.href in HrefSet(s.remaining) then Scanned(s.kept + [link], Without(s.remaining, {link.href}))
    else if removeExisting then s
    else Scanned(s.kept + [link], s.remaining)
  }

  /** The scan over `existing`, each link visited once, in document order. */
  function Scan(existing: seq<Link>, styles: seq<Link>, removeExisting: bool): Scanned
    decreases |existing|
  {
    if existing == [] then Scanned([], styles)
    else
      var n := |existing| - 1;
      Step(Scan(existing[..n], styles, removeExisting), existing[n], removeExisting)
  }

  /**
   * The links still to add are exactly the style-map entries whose href the head does
   * not have, in the map's order, whether or not existing links are removed.
   */
  lemma {:induction false} AddedAreTheMissingStyles(existing: seq<Link>, styles: seq<Link>, removeExisting: bool)
    ensures Scan(existing, styles, removeExisting).remaining == Without(styles, HrefSet(existing))
    decreases |existing|
  {
    if existing == [] {
      WithoutNone(styles);
    } else {
      var n := |existing| - 1;
      var prefix, last := existing[..n], existing[n];
      AddedAreTheMissingStyles(prefix, styles, removeExisting);
      assert existing == prefix + [last];
      HrefSetAppend(prefix, [last]);
      HrefSetOne(last);
      var rem := Without(styles, HrefSet(prefix));
      if last.href !in HrefSet(rem) {
        WithoutAbsent(rem, last.href);
      }
      WithoutMore(styles, HrefSet(prefix), last.href);
    }
  }

  /** Without `bRemoveExisting` every existing link stays, in its place. */
  lemma {:induction false} NoRemovalKeepsHead(existing: seq<Link>, styles: seq<Link>)
    ensures Scan(existing, styles, false).kept == existing
    decreases |existing|
  {
    if existing != [] {
      var n := |existing| - 1;
      NoRemovalKeepsHead(existing[..n], styles);
      assert existing == existing[..n] + [existing[n]];
    }
  }

  /**
   * The links of `links`, in document order, whose href is in `hrefs` and has not
   * occurred earlier in `links`: the first link per href in `hrefs`.
   */
  function FirstMapped(links: seq<Link>, hrefs: set<string>): seq<Link>
    decreases |links|
  {
    if links == [] then []
    else
      var n := |links| - 1;
      FirstMapped(links[..n], hrefs)
        + (if links[n].href in hrefs && links[n].href !in HrefSet(links[..n]) then [links[n]] else [])
  }

  /**
   * With `bRemoveExisting` the links that stay are the head's own links, in document
   * order, one per href the map and the head share: the first in the head with that href.
   */
  lemma RemovalKeepsOnlyMappedLinks(existing: seq<Link>, styles: seq<Link>)
    ensures var s := Scan(existing, styles, true);
      && s.kept == FirstMapped(existing, HrefSet(styles))
      && DistinctHrefs(s.kept) && HrefSet(s.kept) == HrefSet(existing) * HrefSet(styles)
  {
    KeptAreFirstMapped(existing, styles);
    KeptHrefs(existing, styles);
  }

  lemma {:induction false} KeptAreFirstMapped(existing: seq<Link>, styles: seq<Link>)
    ensures Scan(existing, styles, true).kept == FirstMapped(existing, HrefSet(styles))
    decreases |existing|
  {
    if existing != [] {
      var n := |existing| - 1;
      var prefix, last := existing[..n], existing[n];
      var s := Scan(prefix, styles, true);
      KeptAreFirstMapped(prefix, styles);
      AddedAreTheMissingStyles(prefix, styles, true);
      WithoutHrefs(styles, HrefSet(prefix));
      if last.href !in HrefSet(s.remaining) {
        assert s.kept + [] == s.kept;
      }
    }
  }

  lemma {:induction false} KeptHrefs(existing: seq<Link>, styles: seq<Link>)
    ensures var s := Scan(existing, styles, true);
      DistinctHrefs(s.kept) && HrefSet(s.kept) == HrefSet(existing) * HrefSet(styles)
    decreases |existing|
  {
    if existing != [] {
      var n := |existing| - 1;
      var prefix, last := existing[..n], existing[n];
      var s := Scan(prefix, styles, true);
      KeptHrefs(prefix, styles);
      AddedAreTheMissingStyles(prefix, styles, true);
      WithoutHrefs(styles, HrefSet(prefix));
      assert existing == prefix + [last];
      HrefSetAppend(prefix, [last]);
      HrefSetOne(last);
      if last.href in HrefSet(s.remaining) {
        HrefSetAppend(s.kept, [last]);
        DistinctAppend(s.kept, [last]);
      }
    }
  }

  /**
   * `syncStylesToWindow`: after the reconciliation the head's links carry exactly the
   * style map's hrefs, each once.
   */
  lemma SyncMakesHeadMatchStyles(existing: seq<Link>, styles: seq<Link>)
    requires DistinctHrefs(styles)
    ensures var s := Scan(existing, styles, true);
      var head := CloneAll(s.remaining) + s.kept;
      HrefSet(head) == HrefSet(styles) && DistinctHrefs(head)
  {
    var s := Scan(existing, styles, true);
    RemovalKeepsOnlyMappedLinks(existing, styles);
    AddedAreTheMissingStyles(existing, styles, true);
    WithoutHrefs(styles, HrefSet(existing));
    WithoutKeepsDistinct(styles, HrefSet(existing));
    var added := CloneAll(s.remaining);
    HrefSetAppend(added, s.kept);
    DistinctAppend(added, s.kept);
  }

  // ---------------------------------------------------------------------------
  // The scan as written: `++i` over the live collection

  /**
   * The loop over `head.getElementsByTagName('link')`, a live collection: removing the
   * link at `i` moves the next one down to `i`, and `++i` then passes over it.
   */
  function LiveScan(links: seq<Link>, i: nat, styles: seq<Link>, removeExisting: bool): Scanned
    decreases |links| - i
  {
    if i >= |links| then Scanned(links, styles)
    else if links[i].href in HrefSet(styles) then LiveScan(links, i + 1, Without(styles, {links[i].href}), removeExisting)
    else if removeExisting then LiveScan(links[..i] + links[i + 1..], i + 1, styles, removeExisting)
    else LiveScan(links, i + 1, styles, removeExisting)
  }

  /** Two unmapped links in a row: the second survives a removal it should not. */
  lemma LiveScanSkipsAfterRemoval()
    ensures var a, b := Link("a", []), Link("b", []);
      && LiveScan([a, b], 0, [], true) == Scanned([b], [])
      && Scan([a, b], [], true) == Scanned([], [])
  {
    var a, b := Link("a", []), Link("b", []);
    assert [a, b][..0] + [a, b][1..] == [b];
    assert [a, b][..1] == [a];
    assert [a][..0] == [];
    assert Scan([a], [], true) == Scanned([], []);
  }

  /**
   * An unmapped link followed by a mapped one: the mapped link is passed over, so its
   * map entry is added again and the head ends up with its href twice.
   */
  lemma LiveScanDuplicatesStyle()
    ensures var x, a := Link("x", []), Link("a", []);
      var live := LiveScan([x, a], 0, [a], true);
      && live == Scanned([a], [a])
      && !DistinctHrefs(CloneAll(live.remaining) + live.kept)
      && Scan([x, a], [a], true) == Scanned([a], [])
  {
    var x, a := Link("x", []), Link("a", []);
    assert HrefSet([a]) == {"a"} by { HrefSetOne(a); }
    assert [x, a][..0] + [x, a][1..] == [a];
    assert [x, a][..1] == [x];
    assert [x, a][..1][..0] == [];
    assert Without([a], {"a"}) == [];
    assert Clone(a) == a by { assert Copied([]) == []; }
    assert CloneAll([a]) == [a] by { assert [a][1..] == []; }
    var head := [a] + [a];
    assert head[1..] == [a];
    assert [x, a][..1] == [x];
    assert [x][..0] == [];
    assert Scan([x], [a], true) == Scanned([], [a]);
  }

  /**
   * Where the live scan does no harm: without removal, or over a head that holds no
   * links (the freshly written popup document `CreatePopup` syncs into), it ends exactly
   * where the scan that visits every link once ends.
   */
  lemma LiveScanAgreesWithoutRemoval(links: seq<Link>, styles: seq<Link>, removeExisting: bool)
    ensures !removeExisting || links == [] ==>
      LiveScan(links, 0, styles, removeExisting) == Scan(links, styles, removeExisting)
  {
    if !removeExisting && links != [] {
      assert links[..0] == [];
      NoRemovalLiveScan(links, 0, styles, styles);
    }
  }

  lemma {:induction false} NoRemovalLiveScan(links: seq<Link>, i: nat, styles: seq<Link>, remaining: seq<Link>)
    requires i <= |links|
    requires Scan(links[..i], styles, false) == Scanned(links[..i], remaining)
    ensures LiveScan(links, i, remaining, false) == Scan(links, styles, false)
    decreases |links| - i
  {
    if i == |links| {
      assert links[..i] == links;
    } else {
      ScanSnoc(links, i, styles, false);
      TakeOneMore(links, i);
      var next := if links[i].href in HrefSet(remaining) then Without(remaining, {links[i].href}) else remaining;
      NoRemovalLiveScan(links, i + 1, styles, next);
    }
  }

  lemma TakeOneMore(links: seq<Link>, i: nat)
    requires i < |links|
    ensures links[..i + 1] == links[..i] + [links[i]]
  {
  }

  // ---------------------------------------------------------------------------
  // The document's head and the reconciliation itself

  /** The `<head>` element, reduced to the `<link>` elements it holds, in document order. */
  class HeadElement {
    var links: seq<Link>

    constructor (links: seq<Link>)
      ensures this.links == links
    {
      this.links := links;
    }

    /** `link.parentNode.removeChild(link)` for the link at position `i`. */
    method RemoveChildAt(i: nat)
      requires i < |links|
      modifies this
      ensures links == old(links[..i] + links[i + 1..])
    {
      links := links[..i] + links[i + 1..];
    }

    /** `head.prepend(...added)`. */
    method Prepend(added: seq<Link>)
      modifies this
      ensures links == added + old(links)
    {
      links := added + links;
    }
  }

  /** `doc.createElement('link')` followed by the attribute copy loop. */
  method CloneLink(source: Link) returns (copy: Link)
    ensures copy == Clone(source)
    ensures DistinctNames(source.attributes) ==> copy == source
  {
    var attrs: seq<Attr> := [];
    for j := 0 to |source.attributes|
      invariant SetAll(attrs, source.attributes[j..]) == Copied(source.attributes)
    {
      var attr := source.attributes[j];
      assert source.attributes[j..][1..] == source.attributes[j + 1..];
      attrs := SetAttribute(attrs, attr.name, attr.value);
    }
    copy := Link(source.href, attrs);
    if DistinctNames(source.attributes) {
      CopyIsExact(source.attributes);
    }
  }

  /** The `for (const href in newStyles)` loop: one copy per remaining entry, in order. */
  method CloneLinks(remaining: seq<Link>) returns (added: seq<Link>)
    ensures added == CloneAll(remaining)
  {
    added := [];
    for j := 0 to |remaining|
      invariant added == CloneAll(remaining[..j])
    {
      var copy := CloneLink(remaining[j]);
      assert remaining[..j + 1] == remaining[..j] + [remaining[j]];
      CloneAllSnoc(remaining[..j], remaining[j]);
      added := added + [copy];
    }
    assert remaining[..|remaining|] == remaining;
  }

  lemma ScanSnoc(existing: seq<Link>, i: nat, styles: seq<Link>, removeExisting: bool)
    requires i < |existing|
    ensures Scan(existing[..i + 1], styles, removeExisting)
      == Step(Scan(existing[..i], styles, removeExisting), existing[i], removeExisting)
  {
    assert existing[..i + 1][..i] == existing[..i];
  }

  /** Around the link at `i`: keeping it, or cutting it out of the head. */
  lemma CutOut(kept: seq<Link>, link: Link, existing: seq<Link>, i: nat)
    requires i < |existing| && link == existing[i]
    ensures var links := kept + existing[i..];
      && |kept| < |links|
      && links[..|kept|] + links[|kept| + 1..] == kept + existing[i + 1..]
      && links == (kept + [link]) + existing[i + 1..]
  {
    var rest := existing[i + 1..];
    assert existing[i..] == [link] + rest;
    var links := kept + existing[i..];
    assert links[..|kept|] == kept;
    assert links[|kept| + 1..] == rest;
  }

  /**
   * `updateDocumentStyles`, visiting every link of the head once: the head's links are
   * read into a list first, so a removal does not shift the ones still to visit.
   */
  method UpdateDocumentStyles(head: HeadElement, styleMap: seq<Link>, removeExisting: bool) returns (added: seq<Link>)
    modifies head
    ensures var s := Scan(old(head.links), styleMap, removeExisting);
      && added == CloneAll(s.remaining)
      && head.links == added + s.kept
  {
    var newStyles := styleMap;
    var existing := head.links;
    ghost var kept: seq<Link> := [];
    var keptCount := 0;
    for i := 0 to |existing|
      invariant Scan(existing[..i], styleMap, removeExisting) == Scanned(kept, newStyles)
      invariant head.links == kept + existing[i..]
      invariant keptCount == |kept|
    {
      var link := existing[i];
      ScanSnoc(existing, i, styleMap, removeExisting);
      ghost var rest := existing[i + 1..];
      CutOut(kept, link, existing, i);
      if link.href in HrefSet(newStyles) {
        newStyles := Without(newStyles, {link.href});
        kept := kept + [link];
        keptCount := keptCount + 1;
      } else if removeExisting {
        head.RemoveChildAt(keptCount);
      } else {
        kept := kept + [link];
        keptCount := keptCount + 1;
      }
    }
    assert existing[..|existing|] == existing;
    added := CloneLinks(newStyles);
    head.Prepend(added);
  }

  /** `updateDocumentStyles` exactly as written, indexing the live collection. */
  method UpdateDocumentStylesAsWritten(head: HeadElement, styleMap: seq<Link>, removeExisting: bool) returns (added: seq<Link>)
    modifies head
    ensures var s := LiveScan(old(head.links), 0, styleMap, removeExisting);
      && added == CloneAll(s.remaining)
      && head.links == added + s.kept
  {
    var newStyles := styleMap;
    var i := 0;
    while i < |head.links|
      invariant LiveScan(head.links, i, newStyles, removeExisting) == LiveScan(old(head.links), 0, styleMap, removeExisting)
      decreases |head.links| - i
    {
      var link := head.links[i];
      if link.href in HrefSet(newStyles) {
        newStyles := Without(newStyles, {link.href});
      } else if removeExisting {
        head.RemoveChildAt(i);
      }
      i := i + 1;
    }
    added := CloneLinks(newStyles);
    head.Prepend(added);
  }

  /**
   * `syncStylesToWindow` as written, over the live collection: in general the head may
   * keep unmapped links or gain a style twice, but a head with no links, as in the
   * popup `CreatePopup` has just written, ends up with exactly the style map's hrefs,
   * each once.
   */
  method SyncStylesToWindowAsWritten(head: HeadElement, styleMap: seq<Link>)
    requires DistinctHrefs(styleMap)
    modifies head
    ensures var s := LiveScan(old(head.links), 0, styleMap, true);
      head.links == CloneAll(s.remaining) + s.kept
    ensures old(head.links) == [] ==> HrefSet(head.links) == HrefSet(styleMap) && DistinctHrefs(head.links)
  {
    ghost var existing := head.links;
    var added := UpdateDocumentStylesAsWritten(head, styleMap, true);
    LiveScanAgreesWithoutRemoval(existing, styleMap, true);
    SyncMakesHeadMatchStyles(existing, styleMap);
  }

  /**
   * `syncStylesToWindow`: the popup's head becomes copies of the styles it lacked, in
   * the map's order, followed by its first link per mapped href, in document order; so
   * it ends up with exactly the style map's hrefs, each once.
   */
  method SyncStylesToWindow(head: HeadElement, styleMap: seq<Link>)
    requires DistinctHrefs(styleMap)
    modifies head
    ensures var s := Scan(old(head.links), styleMap, true);
      head.links == CloneAll(s.remaining) + s.kept
    ensures head.links == CloneAll(Without(styleMap, HrefSet(old(head.links))))
      + FirstMapped(old(head.links), HrefSet(styleMap))
    ensures HrefSet(head.links) == HrefSet(styleMap) && DistinctHrefs(head.links)
  {
    ghost var existing := head.links;
    var added := UpdateDocumentStyles(head, styleMap, true);
    AddedAreTheMissingStyles(existing, styleMap, true);
    RemovalKeepsOnlyMappedLinks(existing, styleMap);
    SyncMakesHeadMatchStyles(existing, styleMap);
  }
}
