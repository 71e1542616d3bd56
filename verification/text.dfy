/**
 * String helpers for the popup's feature and query strings: decimal rendering of
 * integers (the `${n}` of a template literal, integers only), `Array.prototype.join`
 * and its inverse, splitting at a separator.
 */
module Text {

  predicate IsDigit(c: char) {
    '0' <= c <= '9'
  }

  function DigitChar(d: nat): (c: char)
    requires d < 10
    ensures IsDigit(c)
  {
    "0123456789"[d]
  }

  /** Decimal digits of `n`, most significant first, with no leading zero. */
  function NatToString(n: nat): (s: string)
    ensures s != []
    ensures forall c :: c in s ==> IsDigit(c)
    decreases n
  {
    if n < 10 then [DigitChar(n)] else NatToString(n / 10) + [DigitChar(n % 10)]
  }

  /** Decimal rendering of an integer: a minus sign for negatives, then the digits. */
  function IntToString(n: int): (s: string)
    ensures s != []
    ensures forall c :: c in s ==> c == '-' || IsDigit(c)
  {
    if n < 0 then "-" + NatToString(-n) else NatToString(n)
  }

  predicate AllDigits(s: string) {
    forall i :: 0 <= i < |s| ==> IsDigit(s[i])
  }

  function DigitValue(c: char): (d: nat)
    requires IsDigit(c)
    ensures d < 10
  {
    c as int - '0' as int
  }

  /** The number a string of decimal digits denotes, most significant first. */
  function ParseNat(s: string): nat
    requires AllDigits(s)
    decreases |s|
  {
    if s == [] then 0
    else
      var n := |s| - 1;
      assert AllDigits(s[..n]) by {
        forall i | 0 <= i < n ensures IsDigit(s[..n][i]) {
          assert s[..n][i] == s[i];
        }
      }
      ParseNat(s[..n]) * 10 + DigitValue(s[n])
  }

  /** The number a decimal numeral denotes: digits, with an optional leading minus sign. */
  function ParseInt(s: string): int
    requires AllDigits(s) || (s != [] && s[0] == '-' && AllDigits(s[1..]))
  {
    if AllDigits(s) then ParseNat(s) else -(ParseNat(s[1..]) as int)
  }

  lemma DigitRoundTrip(d: nat)
    requires d < 10
    ensures DigitValue(DigitChar(d)) == d
  {
  }

  /** Reading the digits of `n` back gives `n`. */
  lemma {:induction false} NatToStringRoundTrip(n: nat)
    ensures AllDigits(NatToString(n)) && ParseNat(NatToString(n)) == n
    decreases n
  {
    var s := NatToString(n);
    assert AllDigits(s) by {
      forall i | 0 <= i < |s| ensures IsDigit(s[i]) {
        assert s[i] in s;
      }
    }
    if n < 10 {
      DigitRoundTrip(n);
      assert s[..0] == [];
    } else {
      var prefix := NatToString(n / 10);
      NatToStringRoundTrip(n / 10);
      DigitRoundTrip(n % 10);
      assert s[..|s| - 1] == prefix;
    }
  }

  /** The digits of `n` start with `0` only for `n == 0`: no leading zero. */
  lemma {:induction false} NatToStringNoLeadingZero(n: nat)
    ensures NatToString(n)[0] == '0' <==> n == 0
    decreases n
  {
    if n < 10 {
      DigitRoundTrip(n);
    } else {
      NatToStringNoLeadingZero(n / 10);
      assert NatToString(n)[0] == NatToString(n / 10)[0];
    }
  }

  /** Reading `${n}` back as a numeral gives `n`. */
  lemma IntToStringRoundTrip(n: int)
    ensures var s := IntToString(n);
      && (AllDigits(s) || (s != [] && s[0] == '-' && AllDigits(s[1..])))
      && ParseInt(s) == n
  {
    if n < 0 {
      var digits := NatToString(-n);
      NatToStringRoundTrip(-n);
      var s := "-" + digits;
      assert s[1..] == digits;
      assert !AllDigits(s) by {
        assert !IsDigit(s[0]);
      }
    } else {
      NatToStringRoundTrip(n);
    }
  }

  /** `parts.join(sep)`. */
  function Join(parts: seq<string>, sep: char): string
    decreases |parts|
  {
    if parts == [] then ""
    else if |parts| == 1 then parts[0]
    else parts[0] + [sep] + Join(parts[1..], sep)
  }

  /** `s.split(sep)`: the pieces between separators, in order; always at least one. */
  function Split(s: string, sep: char): (r: seq<string>)
    ensures |r| >= 1
    decreases |s|
  {
    if s == [] then [""]
    else
      var rest := Split(s[1..], sep);
      if s[0] == sep then [""] + rest else [[s[0]] + rest[0]] + rest[1..]
  }

  /** Joining one more part appends the separator and the part. */
  lemma {:induction false} JoinSnoc(parts: seq<string>, x: string, sep: char)
    requires parts != []
    ensures Join(parts + [x], sep) == Join(parts, sep) + [sep] + x
    decreases |parts|
  {
    if |parts| == 1 {
      assert parts + [x] == [parts[0], x];
      assert [parts[0], x][1..] == [x];
    } else {
      assert (parts + [x])[1..] == parts[1..] + [x];
      JoinSnoc(parts[1..], x, sep);
    }
  }

  /** A string without the separator splits into itself. */
  lemma {:induction false} SplitNoSep(s: string, sep: char)
    requires sep !in s
    ensures Split(s, sep) == [s]
    decreases |s|
  {
    if s != [] {
      SplitNoSep(s[1..], sep);
      assert [s[0]] + s[1..] == s;
    }
  }

  /** Splitting stops at the first separator. */
  lemma {:induction false} SplitAtFirst(a: string, b: string, sep: char)
    requires sep !in a
    ensures Split(a + [sep] + b, sep) == [a] + Split(b, sep)
    decreases |a|
  {
    if a == [] {
      assert a + [sep] + b == [sep] + b;
      assert ([sep] + b)[1..] == b;
    } else {
      var s := a + [sep] + b;
      assert s[1..] == a[1..] + [sep] + b;
      SplitAtFirst(a[1..], b, sep);
      assert [a[0]] + a[1..] == a;
    }
  }

  /** Splitting undoes joining, when no part holds the separator. */
  lemma {:induction false} SplitJoin(parts: seq<string>, sep: char)
    requires parts != []
    requires forall i :: 0 <= i < |parts| ==> sep !in parts[i]
    ensures Split(Join(parts, sep), sep) == parts
    decreases |parts|
  {
    if |parts| == 1 {
      SplitNoSep(parts[0], sep);
    } else {
      SplitJoin(parts[1..], sep);
      SplitAtFirst(parts[0], Join(parts[1..], sep), sep);
      assert [parts[0]] + parts[1..] == parts;
    }
  }

  /** Joining two non-empty lists puts one separator between their joins. */
  lemma {:induction false} JoinAppend(a: seq<string>, b: seq<string>, sep: char)
    requires a != [] && b != []
    ensures Join(a + b, sep) == Join(a, sep) + [sep] + Join(b, sep)
    decreases |a|
  {
    if |a| == 1 {
      assert (a + b)[1..] == b;
    } else {
      assert (a + b)[1..] == a[1..] + b;
      JoinAppend(a[1..], b, sep);
    }
  }

  /** A joined list starts with its first part. */
  lemma JoinStartsWithFirst(parts: seq<string>, sep: char)
    requires parts != []
    ensures parts[0] <= Join(parts, sep)
  {
  }

  predicate HasPrefix(s: string, p: string) {
    |p| <= |s| && s[..|p|] == p
  }

  /** Only the first part of a concatenation decides a prefix no longer than it. */
  lemma PrefixOfConcat(a: string, b: string, p: string)
    requires |p| <= |a|
    ensures HasPrefix(a + b, p) <==> HasPrefix(a, p)
  {
    assert (a + b)[..|p|] == a[..|p|];
  }
}
