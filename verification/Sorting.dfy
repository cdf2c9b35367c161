/** Sorting by keys compared as tuples of strings, and when its result is canonical. */
module Sorting {

  type Key = seq<string>

  /** Lexicographic by code point. */
  predicate TextLe(a: string, b: string) {
    a == [] || (b != [] && (a[0] < b[0] || (a[0] == b[0] && TextLe(a[1..], b[1..]))))
  }

  predicate KeyLe(a: Key, b: Key) {
    a == [] || (b != [] && if a[0] == b[0] then KeyLe(a[1..], b[1..]) else TextLe(a[0], b[0]))
  }

  lemma {:induction false} TextOrder(a: string, b: string, c: string)
    ensures TextLe(a, b) || TextLe(b, a)
    ensures TextLe(a, b) && TextLe(b, a) ==> a == b
    ensures TextLe(a, b) && TextLe(b, c) ==> TextLe(a, c)
  {
    if a != [] && b != [] {
      TextOrder(a[1..], b[1..], if c == [] then [] else c[1..]);
      assert a == [a[0]] + a[1..] && b == [b[0]] + b[1..];
    }
  }

  lemma {:induction false} KeyOrder(a: Key, b: Key, c: Key)
    ensures KeyLe(a, b) || KeyLe(b, a)
    ensures KeyLe(a, b) && KeyLe(b, a) ==> a == b
    ensures KeyLe(a, b) && KeyLe(b, c) ==> KeyLe(a, c)
  {
    if a != [] && b != [] {
      KeyOrder(a[1..], b[1..], if c == [] then [] else c[1..]);
      TextOrder(a[0], b[0], if c == [] then [] else c[0]);
      if c != [] { TextOrder(b[0], c[0], a[0]); }
      assert a == [a[0]] + a[1..] && b == [b[0]] + b[1..];
    }
  }

  /** A stable sort: an item goes before the later ones it does not exceed. */
  function Insert<T>(x: T, s: seq<T>, key: T -> Key): seq<T> {
    if s == [] || KeyLe(key(x), key(s[0])) then [x] + s else [s[0]] + Insert(x, s[1..], key)
  }

  function Sort<T>(s: seq<T>, key: T -> Key): seq<T> {
    if s == [] then [] else Insert(s[0], Sort(s[1..], key), key)
  }

  predicate Ordered<T>(s: seq<T>, key: T -> Key) {
    forall i, k :: 0 <= i < k < |s| ==> KeyLe(key(s[i]), key(s[k]))
  }

  lemma {:induction false} InsertOrders<T>(x: T, s: seq<T>, key: T -> Key)
    requires Ordered(s, key)
    ensures Ordered(Insert(x, s, key), key) && multiset(Insert(x, s, key)) == multiset(s) + multiset{x}
  {
    var r := Insert(x, s, key);
    if s == [] {
      assert r == [x];
    } else if KeyLe(key(x), key(s[0])) {
      forall i, k | 0 <= i < k < |r| ensures KeyLe(key(r[i]), key(r[k])) {
        if i == 0 && k > 1 { KeyOrder(key(x), key(s[0]), key(s[k - 1])); }
      }
    } else {
      var rest := Insert(x, s[1..], key);
      InsertOrders(x, s[1..], key);
      assert s == [s[0]] + s[1..];
      KeyOrder(key(x), key(s[0]), key(x));
      forall k | 0 <= k < |rest| ensures KeyLe(key(s[0]), key(rest[k])) {
        assert rest[k] in multiset(rest);
        assert rest[k] == x || rest[k] in s[1..];
      }
    }
  }

  /** The result is a permutation of the input, in key order. */
  lemma {:induction false} SortOrders<T>(s: seq<T>, key: T -> Key)
    ensures Ordered(Sort(s, key), key) && multiset(Sort(s, key)) == multiset(s)
  {
    if s != [] {
      SortOrders(s[1..], key);
      InsertOrders(s[0], Sort(s[1..], key), key);
      assert s == [s[0]] + s[1..];
    }
  }

  /** Items with the same key are the same item. */
  ghost predicate KeysIdentify<T(!new)>(s: seq<T>, key: T -> Key) {
    forall x, y :: x in s && y in s && key(x) == key(y) ==> x == y
  }

  lemma FirstsAgree<T(!new)>(a: seq<T>, b: seq<T>, key: T -> Key)
    requires Ordered(a, key) && Ordered(b, key) && multiset(a) == multiset(b) && KeysIdentify(a, key)
    requires a != [] && b != []
    ensures a[0] == b[0]
  {
    assert a[0] in multiset(b) && b[0] in multiset(a);
    KeyOrder(key(a[0]), key(b[0]), []);
    KeyOrder(key(a[0]), key(a[0]), []);
  }

  lemma {:induction false} OrderedIsUnique<T(!new)>(a: seq<T>, b: seq<T>, key: T -> Key)
    requires Ordered(a, key) && Ordered(b, key) && multiset(a) == multiset(b) && KeysIdentify(a, key)
    ensures a == b
  {
    SameSize(a, b);
    if a != [] {
      FirstsAgree(a, b, key);
      Tail(a, key);
      Tail(b, key);
      Cancel(multiset(a[1..]), multiset(b[1..]), a[0]);
      OrderedIsUnique(a[1..], b[1..], key);
    }
  }

  lemma Tail<T(!new)>(s: seq<T>, key: T -> Key)
    requires s != [] && Ordered(s, key)
    ensures s == [s[0]] + s[1..] && multiset(s) == multiset(s[1..]) + multiset{s[0]} && Ordered(s[1..], key)
    ensures KeysIdentify(s, key) ==> KeysIdentify(s[1..], key)
  {
    assert s == [s[0]] + s[1..];
  }

  lemma Cancel<T>(x: multiset<T>, y: multiset<T>, e: T)
    requires x + multiset{e} == y + multiset{e}
    ensures x == y
  {
    assert x == x + multiset{e} - multiset{e} && y == y + multiset{e} - multiset{e};
  }

  lemma SameSize<T>(a: seq<T>, b: seq<T>)
    requires multiset(a) == multiset(b)
    ensures |a| == |b|
  {
    assert |multiset(a)| == |a| && |multiset(b)| == |b|;
  }

  /** Where keys identify items, sorting forgets the order it was given, and only that. */
  lemma SortIsCanonical<T(!new)>(a: seq<T>, b: seq<T>, key: T -> Key)
    requires KeysIdentify(a, key)
    ensures Sort(a, key) == Sort(b, key) <==> multiset(a) == multiset(b)
  {
    SortOrders(a, key);
    SortOrders(b, key);
    if multiset(a) == multiset(b) {
      forall x | x in Sort(a, key) ensures x in a { assert x in multiset(Sort(a, key)); }
      OrderedIsUnique(Sort(a, key), Sort(b, key), key);
    }
  }

  function Mapped<S, T>(s: seq<S>, f: S -> T): seq<T> {
    seq(|s|, i requires 0 <= i < |s| => f(s[i]))
  }

  function Remove<T>(s: seq<T>, j: nat): seq<T>
    requires j < |s|
  {
    s[..j] + s[j + 1..]
  }

  lemma RemoveMultiset<T>(s: seq<T>, j: nat)
    requires j < |s|
    ensures multiset(Remove(s, j)) == multiset(s) - multiset{s[j]}
  {
    assert s == s[..j] + [s[j]] + s[j + 1..];
  }

  lemma MappedRemove<S, T>(s: seq<S>, f: S -> T, j: nat)
    requires j < |s|
    ensures multiset(Mapped(s, f)) == multiset(Mapped(Remove(s, j), f)) + multiset{f(s[j])}
  {
    RemoveMultiset(Mapped(s, f), j);
    assert Mapped(Remove(s, j), f) == Remove(Mapped(s, f), j);
    assert f(s[j]) == Mapped(s, f)[j];
  }

  /** If one view of the items determines another, permuting the first permutes the second. */
  lemma {:induction false} ViewsAgree<S(!new), L, T>(a: seq<S>, b: seq<S>, l: S -> L, n: S -> T)
    requires multiset(Mapped(a, l)) == multiset(Mapped(b, l))
    requires forall x, y :: x in a && y in b && l(x) == l(y) ==> n(x) == n(y)
    ensures multiset(Mapped(a, n)) == multiset(Mapped(b, n))
  {
    SameSize(Mapped(a, l), Mapped(b, l));
    if a != [] {
      var j := Find(b, l, l(a[0])) by { assert Mapped(a, l)[0] in multiset(Mapped(b, l)); }
      MappedRemove(a, l, 0);
      MappedRemove(b, l, j);
      Cancel(multiset(Mapped(Remove(a, 0), l)), multiset(Mapped(Remove(b, j), l)), l(a[0]));
      ViewsAgree(Remove(a, 0), Remove(b, j), l, n);
      MappedRemove(a, n, 0);
      MappedRemove(b, n, j);
    }
  }

  lemma Find<S, L>(s: seq<S>, l: S -> L, x: L) returns (j: nat)
    requires x in Mapped(s, l)
    ensures j < |s| && l(s[j]) == x
  {
    j :| j < |s| && Mapped(s, l)[j] == x;
  }

  lemma SortKeepsIdentity<T(!new)>(s: seq<T>, key: T -> Key)
    requires KeysIdentify(s, key)
    ensures KeysIdentify(Sort(s, key), key)
  {
    SortOrders(s, key);
    forall x | x in Sort(s, key) ensures x in s { assert x in multiset(Sort(s, key)); }
  }

  /** Rewriting items without touching their keys keeps them ordered ... */
  lemma MappedOrders<T(!new)>(s: seq<T>, f: T -> T, key: T -> Key)
    requires Ordered(s, key) && forall x :: x in s ==> key(f(x)) == key(x)
    ensures Ordered(Mapped(s, f), key)
  {
    var m := Mapped(s, f);
    forall i, k | 0 <= i < k < |m| ensures KeyLe(key(m[i]), key(m[k])) {
      assert s[i] in s && s[k] in s;
    }
  }

  /** ... and identified. */
  lemma MappedIdentifies<T(!new)>(s: seq<T>, f: T -> T, key: T -> Key)
    requires KeysIdentify(s, key) && forall x :: x in s ==> key(f(x)) == key(x)
    ensures KeysIdentify(Mapped(s, f), key)
  {
    var m := Mapped(s, f);
    forall x, y | x in m && y in m && key(x) == key(y) ensures x == y {
      var i := Find(s, f, x);
      var k := Find(s, f, y);
      assert s[i] in s && s[k] in s;
    }
  }
}
