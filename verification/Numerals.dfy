/** Digits, fixed-width and shortest numerals, and strings split at dots. */
module Numerals {

  datatype Base = Ten | Sixteen

  function Size(b: Base): nat {
    match b case Ten => 10 case Sixteen => 16
  }

  function Times(b: Base, n: nat): nat {
    match b case Ten => n * 10 case Sixteen => n * 16
  }

  function Quotient(b: Base, n: nat): nat {
    match b case Ten => n / 10 case Sixteen => n / 16
  }

  function Remainder(b: Base, n: nat): nat {
    match b case Ten => n % 10 case Sixteen => n % 16
  }

  function Power(b: Base, k: nat): nat {
    if k == 0 then 1 else Times(b, Power(b, k - 1))
  }

  function Digit(d: nat): char
    requires d < 16
  {
    if d < 10 then '0' + d as char else 'a' + (d - 10) as char
  }

  function DigitValue(c: char): nat {
    if '0' <= c <= '9' then (c - '0') as nat else if 'a' <= c <= 'f' then (c - 'a') as nat + 10 else 16
  }

  predicate Digits(b: Base, s: string) {
    s == [] || (Digits(b, s[..|s| - 1]) && DigitValue(s[|s| - 1]) < Size(b))
  }

  function ValueOf(b: Base, s: string): nat {
    if s == [] then 0 else Times(b, ValueOf(b, s[..|s| - 1])) + DigitValue(s[|s| - 1])
  }

  /** Exactly `width` digits, padded with zeros. */
  function Padded(b: Base, n: nat, width: nat): string
    decreases width, n
  {
    if width == 0 then [] else Padded(b, Quotient(b, n), width - 1) + [Digit(Remainder(b, n))]
  }

  /** Without leading zeros. */
  function Decimal(n: nat): string {
    if n < 10 then [Digit(n)] else Decimal(n / 10) + [Digit(n % 10)]
  }

  lemma DigitRoundTrip(d: nat, c: char)
    requires d < 16
    ensures DigitValue(Digit(d)) == d && Digit(d) != '.' && Digit(d) != '-'
    ensures DigitValue(c) < 16 ==> Digit(DigitValue(c)) == c
  {
  }

  lemma Snoc(b: Base, s: string, c: char)
    ensures ValueOf(b, s + [c]) == Times(b, ValueOf(b, s)) + DigitValue(c)
    ensures Digits(b, s + [c]) <==> Digits(b, s) && DigitValue(c) < Size(b)
  {
    assert (s + [c])[..|s|] == s;
  }

  lemma Divides(b: Base, n: nat, m: nat)
    ensures Quotient(b, n) < m <==> n < Times(b, m)
    ensures n == Times(b, Quotient(b, n)) + Remainder(b, n) && Remainder(b, n) < Size(b)
  {
  }

  lemma {:induction false} PaddedReads(b: Base, n: nat, width: nat)
    requires n < Power(b, width)
    ensures |Padded(b, n, width)| == width && Digits(b, Padded(b, n, width))
    ensures ValueOf(b, Padded(b, n, width)) == n
    decreases width, n
  {
    if width > 0 {
      Divides(b, n, Power(b, width - 1));
      PaddedReads(b, Quotient(b, n), width - 1);
      DigitRoundTrip(Remainder(b, n), '0');
      Snoc(b, Padded(b, Quotient(b, n), width - 1), Digit(Remainder(b, n)));
    }
  }

  lemma {:induction false} ValueBound(b: Base, s: string)
    requires Digits(b, s)
    ensures ValueOf(b, s) < Power(b, |s|)
  {
    if s != [] { ValueBound(b, s[..|s| - 1]); }
  }

  lemma {:induction false} DecimalReads(n: nat)
    ensures Digits(Ten, Decimal(n)) && ValueOf(Ten, Decimal(n)) == n && |Decimal(n)| >= 1
  {
    DigitRoundTrip(n % 10, '0');
    if n < 10 {
      Snoc(Ten, [], Digit(n));
      assert [] + [Digit(n)] == [Digit(n)];
    } else {
      DecimalReads(n / 10);
      Snoc(Ten, Decimal(n / 10), Digit(n % 10));
    }
  }

  /** n has at most k digits exactly when it is below the k-th power. */
  lemma {:induction false} DecimalLength(n: nat, k: nat)
    requires k >= 1
    ensures |Decimal(n)| <= k <==> n < Power(Ten, k)
    decreases k
  {
    PowerPositive(Ten, k - 1);
    if k == 1 {
      assert Power(Ten, 1) == 10;
      if n >= 10 { DecimalReads(n / 10); }
    } else if n >= 10 {
      DecimalLength(n / 10, k - 1);
    }
  }

  lemma {:induction false} PowerPositive(b: Base, k: nat)
    ensures Power(b, k) >= 1
  {
    if k > 0 { PowerPositive(b, k - 1); }
  }

  // ---- Splitting at dots ----

  predicate Dotless(s: string) {
    s == [] || (Dotless(s[..|s| - 1]) && s[|s| - 1] != '.')
  }

  predicate AllDotless(parts: seq<string>) {
    forall k :: 0 <= k < |parts| ==> Dotless(parts[k])
  }

  function Split(s: string): (parts: seq<string>)
    ensures |parts| >= 1
  {
    if s == [] then [[]]
    else
      var parts := Split(s[..|s| - 1]);
      if s[|s| - 1] == '.' then parts + [[]] else Extend(parts, [s[|s| - 1]])
  }

  function Join(parts: seq<string>): string {
    if parts == [] then []
    else if |parts| == 1 then parts[0]
    else Join(parts[..|parts| - 1]) + ['.'] + parts[|parts| - 1]
  }

  /** The pieces with `t` appended to the last. */
  function Extend(parts: seq<string>, t: string): seq<string>
    requires parts != []
  {
    parts[|parts| - 1 := parts[|parts| - 1] + t]
  }

  lemma ExtendTwice(parts: seq<string>, t: string, u: string)
    requires parts != []
    ensures Extend(Extend(parts, t), u) == Extend(parts, t + u)
    ensures Extend(parts, []) == parts
  {
    var last := parts[|parts| - 1];
    assert last + t + u == last + (t + u) && last + [] == last;
  }

  lemma SplitSnoc(s: string, c: char)
    ensures Split(s + [c]) == if c == '.' then Split(s) + [[]] else Extend(Split(s), [c])
  {
    assert (s + [c])[..|s|] == s;
  }

  lemma {:induction false} SplitAppends(s: string, t: string)
    requires Dotless(t)
    ensures Split(s + t) == Extend(Split(s), t)
  {
    if t == [] {
      assert s + t == s;
      ExtendTwice(Split(s), [], []);
    } else {
      var init, c := t[..|t| - 1], t[|t| - 1];
      SplitAppends(s, init);
      SplitSnoc(s + init, c);
      assert s + t == s + init + [c] && t == init + [c];
      ExtendTwice(Split(s), init, [c]);
    }
  }

  lemma JoinSnoc(parts: seq<string>, last: string)
    requires parts != []
    ensures Join(parts + [last]) == Join(parts) + ['.'] + last
  {
    assert (parts + [last])[..|parts|] == parts;
  }

  lemma {:induction false} SplitJoins(parts: seq<string>)
    requires parts != [] && AllDotless(parts)
    ensures Split(Join(parts)) == parts
  {
    var init, last := parts[..|parts| - 1], parts[|parts| - 1];
    assert parts == init + [last];
    if init == [] {
      SplitAppends([], last);
      assert [] + last == last;
    } else {
      assert AllDotless(init);
      SplitJoins(init);
      JoinSnoc(init, last);
      SplitSnoc(Join(init), '.');
      SplitAppends(Join(init) + ['.'], last);
      assert [] + last == last && Extend(init + [[]], last) == parts;
    }
  }

  lemma JoinExtends(parts: seq<string>, t: string)
    requires parts != []
    ensures Join(Extend(parts, t)) == Join(parts) + t
  {
    var init, last := parts[..|parts| - 1], parts[|parts| - 1];
    if init != [] {
      assert parts == init + [last] && Extend(parts, t) == init + [last + t];
      JoinSnoc(init, last);
      JoinSnoc(init, last + t);
    }
  }

  lemma {:induction false} JoinSplits(s: string)
    ensures Join(Split(s)) == s
  {
    if s != [] {
      var init, c := s[..|s| - 1], s[|s| - 1];
      JoinSplits(init);
      SplitSnoc(init, c);
      assert s == init + [c];
      if c == '.' {
        JoinSnoc(Split(init), []);
      } else {
        JoinExtends(Split(init), [c]);
      }
    }
  }

  lemma {:induction false} DigitsAreDotless(b: Base, s: string)
    requires Digits(b, s)
    ensures Dotless(s)
  {
    if s != [] { DigitsAreDotless(b, s[..|s| - 1]); }
  }
}
