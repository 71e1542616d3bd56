/**
 * JavaScript `Set` semantics over a duplicate-free sequence: iteration order is
 * insertion order, `add` of a present element changes nothing, `delete` of an absent
 * element changes nothing.
 */
module OrderedSets {

  predicate NoDup<T(==)>(s: seq<T>) {
    forall i, j :: 0 <= i < j < |s| ==> s[i] != s[j]
  }

  /** `set.add(x)`. */
  function Add<T(==, !new)>(s: seq<T>, x: T): (r: seq<T>)
    ensures forall y :: y in r <==> y in s || y == x
    ensures s <= r && |r| <= |s| + 1
    ensures NoDup(s) ==> NoDup(r)
  {
    if x in s then s else s + [x]
  }

  /** `set.delete(x)`: every occurrence of `x` goes, the rest keep their order. */
  function Delete<T(==, !new)>(s: seq<T>, x: T): (r: seq<T>)
    ensures forall y :: y in r <==> y in s && y != x
    ensures x !in s ==> r == s
    ensures |r| <= |s|
    ensures NoDup(s) ==> NoDup(r)
  {
    if s == [] then []
    else if s[0] == x then Delete(s[1..], x)
    else
      NoDupTail(s);
      [s[0]] + Delete(s[1..], x)
  }

  /** The tail of a set is a set without its head. */
  lemma NoDupTail<T>(s: seq<T>)
    requires s != []
    ensures NoDup(s) ==> NoDup(s[1..]) && s[0] !in s[1..]
  {
    if NoDup(s) {
      forall a, b | 0 <= a < b < |s[1..]| ensures s[1..][a] != s[1..][b] {
        assert s[1..][a] == s[a + 1] && s[1..][b] == s[b + 1];
      }
      forall k | 0 <= k < |s[1..]| ensures s[1..][k] != s[0] {
        assert s[1..][k] == s[k + 1];
      }
    }
  }

  /** Deleting distributes over concatenation. */
  lemma {:induction false} DeleteAppend<T(!new)>(a: seq<T>, b: seq<T>, x: T)
    ensures Delete(a + b, x) == Delete(a, x) + Delete(b, x)
  {
    if a == [] {
      assert a + b == b;
    } else {
      assert (a + b)[1..] == a[1..] + b;
      DeleteAppend(a[1..], b, x);
    }
  }

  /** On a set, `delete` cuts out exactly the one position holding `x`. */
  lemma DeleteAt<T(!new)>(s: seq<T>, i: nat)
    requires NoDup(s) && i < |s|
    ensures Delete(s, s[i]) == s[..i] + s[i + 1..]
  {
    NoDupSplit(s, i);
    CutAt(s, i);
    DeleteBetween(s[..i], s[i], s[i + 1..]);
  }

  lemma CutAt<T>(s: seq<T>, i: nat)
    requires i < |s|
    ensures s == s[..i] + [s[i]] + s[i + 1..]
  {
  }

  /** In a set, the element at `i` occurs neither before nor after `i`. */
  lemma NoDupSplit<T>(s: seq<T>, i: nat)
    requires NoDup(s) && i < |s|
    ensures s[i] !in s[..i] && s[i] !in s[i + 1..]
  {
    var x, before, after := s[i], s[..i], s[i + 1..];
    forall y | y in before ensures y != x {
      var k :| 0 <= k < |before| && before[k] == y;
      assert before[k] == s[k];
    }
    forall y | y in after ensures y != x {
      var k :| 0 <= k < |after| && after[k] == y;
      assert after[k] == s[i + 1 + k];
    }
  }

  /** Deleting an element that occurs once cuts out that one occurrence. */
  lemma DeleteBetween<T(!new)>(before: seq<T>, x: T, after: seq<T>)
    requires x !in before && x !in after
    ensures Delete(before + [x] + after, x) == before + after
  {
    var gone := Delete([x], x);
    assert gone == [] by {
      assert [x][1..] == [];
    }
    calc {
      Delete(before + [x] + after, x);
    == { DeleteAppend(before + [x], after, x); }
      Delete(before + [x], x) + Delete(after, x);
    == { DeleteAppend(before, [x], x); }
      Delete(before, x) + gone + Delete(after, x);
    == 
      before + after;
    }
  }

  /** Adding a new element and deleting it again gives back the original set, order included. */
  lemma AddThenDelete<T(!new)>(s: seq<T>, x: T)
    requires x !in s
    ensures Delete(Add(s, x), x) == s
  {
    DeleteAppend(s, [x], x);
    assert Delete([x], x) == [];
  }

  /** Adds are appended in call order: adding `a` then a different `b` to an empty set iterates `a` first. */
  lemma AddOrder<T(!new)>(a: T, b: T)
    requires a != b
    ensures Add(Add([], a), b) == [a, b]
  {
  }
}
