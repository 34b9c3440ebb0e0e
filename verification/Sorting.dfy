/** The order of strings and a stable sort by key. */
module Sorting {

  predicate LexLeq(a: string, b: string) {
    a == "" || (b != "" && (a[0] < b[0] || (a[0] == b[0] && LexLeq(a[1..], b[1..]))))
  }

  predicate LexLess(a: string, b: string) {
    LexLeq(a, b) && a != b
  }

  lemma {:induction false} LexReflexive(a: string)
    ensures LexLeq(a, a)
  {
    if a != "" { LexReflexive(a[1..]); }
  }

  lemma {:induction false} LexTotal(a: string, b: string)
    ensures LexLeq(a, b) || LexLeq(b, a)
  {
    if a != "" && b != "" { LexTotal(a[1..], b[1..]); }
  }

  lemma {:induction false} LexAntisymmetric(a: string, b: string)
    requires LexLeq(a, b) && LexLeq(b, a)
    ensures a == b
  {
    if a == "" {
    } else {
      LexAntisymmetric(a[1..], b[1..]);
      assert a == [a[0]] + a[1..] && b == [b[0]] + b[1..];
    }
  }

  lemma {:induction false} LexTransitive(a: string, b: string, c: string)
    requires LexLeq(a, b) && LexLeq(b, c)
    ensures LexLeq(a, c)
  {
    if a != "" && a[0] == b[0] && b[0] == c[0] { LexTransitive(a[1..], b[1..], c[1..]); }
  }

  /** Strictly before, then not after: strictly before. */
  lemma LexLessThrough(a: string, b: string, c: string)
    requires (LexLess(a, b) && LexLeq(b, c)) || (LexLeq(a, b) && LexLess(b, c))
    ensures LexLess(a, c)
  {
    LexTransitive(a, b, c);
    if a == c { LexAntisymmetric(a, b); }
  }

  datatype Key = Key(rank: int, order: string, name: string)

  predicate KeyLeq(a: Key, b: Key) {
    a.rank < b.rank
    || (a.rank == b.rank && (LexLess(a.order, b.order) || (a.order == b.order && LexLeq(a.name, b.name))))
  }

  lemma KeyTotal(a: Key, b: Key)
    ensures KeyLeq(a, b) || KeyLeq(b, a)
  {
    LexTotal(a.order, b.order);
    LexTotal(a.name, b.name);
  }

  lemma KeyTransitive(a: Key, b: Key, c: Key)
    requires KeyLeq(a, b) && KeyLeq(b, c)
    ensures KeyLeq(a, c)
  {
    if LexLess(a.order, b.order) && LexLess(b.order, c.order) { LexLessThrough(a.order, b.order, c.order); }
    if LexLeq(a.name, b.name) && LexLeq(b.name, c.name) { LexTransitive(a.name, b.name, c.name); }
  }

  /** After every element whose key is not greater. */
  function Insert<T>(key: T -> Key, xs: seq<T>, x: T): seq<T> {
    if xs == [] || KeyLeq(key(xs[|xs| - 1]), key(x)) then xs + [x]
    else Insert(key, xs[..|xs| - 1], x) + [xs[|xs| - 1]]
  }

  function Sort<T>(key: T -> Key, xs: seq<T>): seq<T> {
    if xs == [] then [] else Insert(key, Sort(key, xs[..|xs| - 1]), xs[|xs| - 1])
  }

  lemma InsertAtLast<T>(key: T -> Key, xs: seq<T>, y: T, x: T)
    ensures Insert(key, xs + [y], x) == if KeyLeq(key(y), key(x)) then xs + [y] + [x] else Insert(key, xs, x) + [y]
  {
    assert (xs + [y])[..|xs|] == xs;
  }

  predicate Sorted<T>(key: T -> Key, xs: seq<T>) {
    forall i, j :: 0 <= i < j < |xs| ==> KeyLeq(key(xs[i]), key(xs[j]))
  }

  lemma InsertedStaysBelow<T>(key: T -> Key, init: seq<T>, x: T, last: T)
    requires multiset(Insert(key, init, x)) == multiset(init) + multiset{x} && KeyLeq(key(x), key(last))
    requires forall i :: 0 <= i < |init| ==> KeyLeq(key(init[i]), key(last))
    ensures forall i :: 0 <= i < |Insert(key, init, x)| ==> KeyLeq(key(Insert(key, init, x)[i]), key(last))
  {
    var r := Insert(key, init, x);
    forall i | 0 <= i < |r| ensures KeyLeq(key(r[i]), key(last)) {
      assert r[i] in multiset(r);
      if r[i] != x {
        assert r[i] in multiset(init);
      }
    }
  }

  lemma SortedOneMore<T>(key: T -> Key, xs: seq<T>, x: T)
    requires Sorted(key, xs) && forall i :: 0 <= i < |xs| ==> KeyLeq(key(xs[i]), key(x))
    ensures Sorted(key, xs + [x])
  {
  }

  lemma {:induction false} InsertSorts<T>(key: T -> Key, xs: seq<T>, x: T)
    requires Sorted(key, xs)
    ensures Sorted(key, Insert(key, xs, x))
    ensures multiset(Insert(key, xs, x)) == multiset(xs) + multiset{x}
  {
    if xs != [] && !KeyLeq(key(xs[|xs| - 1]), key(x)) {
      var init, last := xs[..|xs| - 1], xs[|xs| - 1];
      InsertSorts(key, init, x);
      KeyTotal(key(last), key(x));
      assert xs == init + [last];
      InsertedStaysBelow(key, init, x, last);
      SortedOneMore(key, Insert(key, init, x), last);
    } else if xs != [] {
      forall i | 0 <= i < |xs| ensures KeyLeq(key(xs[i]), key(x)) {
        if i < |xs| - 1 { KeyTransitive(key(xs[i]), key(xs[|xs| - 1]), key(x)); }
      }
      SortedOneMore(key, xs, x);
    }
  }

  lemma {:induction false} SortSorts<T>(key: T -> Key, xs: seq<T>)
    ensures Sorted(key, Sort(key, xs)) && multiset(Sort(key, xs)) == multiset(xs)
  {
    if xs == [] {
    } else {
      SortSorts(key, xs[..|xs| - 1]);
      InsertSorts(key, Sort(key, xs[..|xs| - 1]), xs[|xs| - 1]);
      assert xs == xs[..|xs| - 1] + [xs[|xs| - 1]];
    }
  }

  /** The elements with key `k`, in order. */
  function WithKey<T>(key: T -> Key, xs: seq<T>, k: Key): seq<T> {
    if xs == [] then []
    else
      var last := xs[|xs| - 1];
      WithKey(key, xs[..|xs| - 1], k) + if key(last) == k then [last] else []
  }

  /** For every key, the elements with it come in the same order. */
  ghost predicate SameRuns<T>(key: T -> Key, xs: seq<T>, ys: seq<T>) {
    forall k :: WithKey(key, xs, k) == WithKey(key, ys, k)
  }

  lemma WithKeyAppend<T>(key: T -> Key, xs: seq<T>, x: T, k: Key)
    ensures WithKey(key, xs + [x], k) == WithKey(key, xs, k) + if key(x) == k then [x] else []
  {
    assert (xs + [x])[..|xs|] == xs;
  }

  lemma {:induction false} InsertIsStable<T>(key: T -> Key, xs: seq<T>, x: T, k: Key)
    ensures WithKey(key, Insert(key, xs, x), k) == WithKey(key, xs, k) + if key(x) == k then [x] else []
  {
    if xs == [] || KeyLeq(key(xs[|xs| - 1]), key(x)) {
      WithKeyAppend(key, xs, x, k);
    } else {
      var init, last := xs[..|xs| - 1], xs[|xs| - 1];
      InsertIsStable(key, init, x, k);
      WithKeyAppend(key, Insert(key, init, x), last, k);
      KeyTotal(key(x), key(x));
      assert key(last) != key(x);
    }
  }

  /** The sort is stable: elements with the same key keep their order. */
  lemma {:induction false} SortIsStable<T>(key: T -> Key, xs: seq<T>, k: Key)
    ensures WithKey(key, Sort(key, xs), k) == WithKey(key, xs, k)
  {
    if xs == [] {
    } else {
      SortIsStable(key, xs[..|xs| - 1], k);
      InsertIsStable(key, Sort(key, xs[..|xs| - 1]), xs[|xs| - 1], k);
    }
  }

  lemma KeyAntisymmetric(a: Key, b: Key)
    requires KeyLeq(a, b) && KeyLeq(b, a)
    ensures a == b
  {
    if LexLess(a.order, b.order) && LexLess(b.order, a.order) { LexAntisymmetric(a.order, b.order); }
    if a.order == b.order { LexAntisymmetric(a.name, b.name); }
  }

  lemma {:induction false} KeyOccurs<T>(key: T -> Key, xs: seq<T>, k: Key)
    ensures WithKey(key, xs, k) != [] <==> exists i :: 0 <= i < |xs| && key(xs[i]) == k
  {
    if xs == [] {
    } else {
      var init := xs[..|xs| - 1];
      KeyOccurs(key, init, k);
      if i :| 0 <= i < |xs| && key(xs[i]) == k {
        if i < |init| { assert key(init[i]) == k; }
      }
      if i :| 0 <= i < |init| && key(init[i]) == k {
        assert key(xs[i]) == k;
      }
    }
  }

  lemma GreatestKey<T>(key: T -> Key, xs: seq<T>, ys: seq<T>)
    requires xs != [] && ys != [] && Sorted(key, xs) && SameRuns(key, xs, ys)
    ensures KeyLeq(key(ys[|ys| - 1]), key(xs[|xs| - 1]))
  {
    var k := key(ys[|ys| - 1]);
    KeyOccurs(key, ys, k);
    KeyOccurs(key, xs, k);
    var i :| 0 <= i < |xs| && key(xs[i]) == k;
    KeyTotal(k, k);
  }

  /** Any stable sort gives this result: order and stability leave no choice. */
  lemma {:induction false} StableSortIsUnique<T>(key: T -> Key, xs: seq<T>, ys: seq<T>)
    requires Sorted(key, xs) && Sorted(key, ys) && SameRuns(key, xs, ys)
    ensures xs == ys
    decreases |xs|
  {
    if xs == [] {
      if ys != [] {
        KeyOccurs(key, ys, key(ys[0]));
        KeyOccurs(key, xs, key(ys[0]));
      }
    } else {
      var k := key(xs[|xs| - 1]);
      KeyOccurs(key, xs, k);
      KeyOccurs(key, ys, k);
      GreatestKey(key, xs, ys);
      GreatestKey(key, ys, xs);
      KeyAntisymmetric(k, key(ys[|ys| - 1]));
      var a, b := xs[..|xs| - 1], ys[..|ys| - 1];
      assert xs == a + [xs[|xs| - 1]] && ys == b + [ys[|ys| - 1]];
      SameLast(key, a, xs[|xs| - 1], b, ys[|ys| - 1]);
      StableSortIsUnique(key, a, b);
    }
  }

  lemma LastOfRun<T>(key: T -> Key, a: seq<T>, x: T, b: seq<T>, y: T, k: Key)
    requires key(x) == key(y) && WithKey(key, a + [x], k) == WithKey(key, b + [y], k)
    ensures WithKey(key, a, k) == WithKey(key, b, k) && (k == key(x) ==> x == y)
  {
    WithKeyAppend(key, a, x, k);
    WithKeyAppend(key, b, y, k);
    var u, v := WithKey(key, a, k), WithKey(key, b, k);
    if k == key(x) {
      assert u + [x] == v + [y];
      assert (u + [x])[..|u|] == u && (v + [y])[..|v|] == v;
      assert (u + [x])[|u|] == x && (v + [y])[|v|] == y;
    } else {
      assert u + [] == u && v + [] == v;
    }
  }

  lemma SameLast<T>(key: T -> Key, a: seq<T>, x: T, b: seq<T>, y: T)
    requires key(x) == key(y) && SameRuns(key, a + [x], b + [y])
    ensures x == y && SameRuns(key, a, b)
  {
    LastOfRun(key, a, x, b, y, key(x));
    forall k ensures WithKey(key, a, k) == WithKey(key, b, k) {
      LastOfRun(key, a, x, b, y, k);
    }
  }

  // ---- what the order of migration numbers means -------------------------------------------

  predicate Digits(s: string) {
    forall i :: 0 <= i < |s| ==> '0' <= s[i] <= '9'
  }

  function Power(n: nat): nat {
    if n == 0 then 1 else 10 * Power(n - 1)
  }

  function Digit(c: char): int {
    c as int - '0' as int
  }

  /** The number a string of digits writes. */
  function Value(s: string): int {
    if s == "" then 0 else Digit(s[0]) * Power(|s| - 1) + Value(s[1..])
  }

  lemma DigitBelowTen(d: int, p: int, v: int)
    requires 0 <= d <= 9 && 0 <= v < p
    ensures 0 <= d * p + v < 10 * p
  {
    assert 0 <= d * p;
    assert (9 - d) * p >= 0;
  }

  lemma {:induction false} ValueBelowPower(s: string)
    requires Digits(s)
    ensures 0 <= Value(s) < Power(|s|)
  {
    if s == "" {
    } else {
      ValueBelowPower(s[1..]);
      DigitBelowTen(Digit(s[0]), Power(|s| - 1), Value(s[1..]));
    }
  }

  /** Numbers written with the same count of digits are compared as numbers, so timestamps are compared as times. */
  lemma {:induction false} DigitsCompareAsNumbers(a: string, b: string)
    requires Digits(a) && Digits(b) && |a| == |b|
    ensures LexLeq(a, b) <==> Value(a) <= Value(b)
  {
    if a == "" {
    } else {
      DigitsCompareAsNumbers(a[1..], b[1..]);
      ValueBelowPower(a[1..]);
      ValueBelowPower(b[1..]);
      var p := Power(|a| - 1);
      if a[0] < b[0] {
        HigherDigitWins(Digit(a[0]), Digit(b[0]), p, Value(a[1..]), Value(b[1..]));
      } else if b[0] < a[0] {
        HigherDigitWins(Digit(b[0]), Digit(a[0]), p, Value(b[1..]), Value(a[1..]));
      }
    }
  }

  lemma HigherDigitWins(x: int, y: int, p: int, u: int, v: int)
    requires 0 <= u < p && 0 <= v < p && x < y
    ensures x * p + u < y * p + v
  {
    assert (x + 1) * p <= y * p;
  }
}
