/** `ORDER BY ... LIMIT n`: which of the eligible rows a claim takes. */
module Claims {

  type Order = (nat, nat) -> bool

  /** `before` puts the rows of `ids` in a line. */
  ghost predicate Lines(before: Order, ids: set<nat>) {
    && (forall a, b :: a in ids && b in ids && a != b ==> (before(a, b) <==> !before(b, a)))
    && (forall a, b, c :: a in ids && b in ids && c in ids && before(a, b) && before(b, c) ==> before(a, c))
  }

  ghost predicate IsFirst(before: Order, ids: set<nat>, m: nat) {
    m in ids && forall x :: x in ids && x != m ==> before(m, x)
  }

  lemma FirstExists(before: Order, ids: set<nat>)
    requires ids != {} && Lines(before, ids)
    ensures exists m :: IsFirst(before, ids, m)
  {
    var c :| c in ids;
    var rest := ids - {c};
    if rest == {} {
      assert ids == {c};
      assert IsFirst(before, ids, c);
    } else {
      FirstExists(before, rest);
      var m :| IsFirst(before, rest, m);
      FirstOfTwo(before, ids, c, m);
    }
  }

  lemma FirstOfTwo(before: Order, ids: set<nat>, c: nat, m: nat)
    requires Lines(before, ids) && c in ids && IsFirst(before, ids - {c}, m)
    ensures exists f :: IsFirst(before, ids, f)
  {
    var f := if before(c, m) then c else m;
    assert forall x :: x in ids && x != c ==> x in ids - {c};
    assert IsFirst(before, ids, f);
  }

  function First(before: Order, ids: set<nat>): (m: nat)
    requires ids != {} && Lines(before, ids)
    ensures m in ids && forall x :: x in ids && x != m ==> before(m, x)
  {
    FirstExists(before, ids);
    var m :| m in ids && forall x :: x in ids && x != m ==> before(m, x);
    m
  }

  function Front(before: Order, ids: set<nat>, n: nat): set<nat>
    requires Lines(before, ids)
    decreases n
  {
    if n == 0 || ids == {} then {}
    else {First(before, ids)} + Front(before, ids - {First(before, ids)}, n - 1)
  }

  /** As many as the limit allows, and every eligible row left out comes after every row taken. */
  ghost predicate FrontOf(before: Order, eligible: set<nat>, n: nat, taken: set<nat>) {
    && taken <= eligible && |taken| == (if |eligible| < n then |eligible| else n)
    && forall a, b :: a in taken && b in eligible && b !in taken ==> before(a, b)
  }

  lemma FrontGrows(before: Order, ids: set<nat>, n: nat, first: nat, rest: set<nat>)
    requires IsFirst(before, ids, first) && n > 0 && FrontOf(before, ids - {first}, n - 1, rest)
    ensures FrontOf(before, ids, n, {first} + rest)
  {
    var taken := {first} + rest;
    assert taken - {first} == rest && first !in rest;
    assert ids == ids - {first} + {first};
    forall a, b | a in taken && b in ids && b !in taken ensures before(a, b) {
      if a != first { assert a in rest && b in ids - {first} && b !in rest; }
    }
  }

  lemma {:induction false} FrontIsFrontOf(before: Order, ids: set<nat>, n: nat)
    requires Lines(before, ids)
    ensures FrontOf(before, ids, n, Front(before, ids, n))
    decreases n
  {
    if n == 0 || ids == {} {
    } else {
      var first := First(before, ids);
      FrontIsFrontOf(before, ids - {first}, n - 1);
      FrontGrows(before, ids, n, first, Front(before, ids - {first}, n - 1));
    }
  }

  /** With fewer rows taken than the limit allows, nobody eligible is left out. */
  lemma ShortFrontTakesAll(before: Order, eligible: set<nat>, n: nat, taken: set<nat>)
    requires FrontOf(before, eligible, n, taken) && |taken| < n
    ensures taken == eligible
  {
    SubsetOfSameSize(taken, eligible);
  }

  /** Order and limit determine the claim. */
  lemma FrontIsUnique(before: Order, eligible: set<nat>, n: nat, a: set<nat>, b: set<nat>)
    requires Lines(before, eligible) && FrontOf(before, eligible, n, a) && FrontOf(before, eligible, n, b)
    ensures a == b
  {
    if a != b {
      SameSizeDiffer(a, b);
      SameSizeDiffer(b, a);
      var y :| y in b && y !in a;
      var x :| x in a && x !in b;
      var _ := before(x, y);
    }
  }

  lemma SameSizeDiffer(a: set<nat>, b: set<nat>)
    requires |a| == |b| && a != b
    ensures exists y :: y in b && y !in a
  {
    if b <= a { SubsetOfSameSize(b, a); }
  }

  lemma SubsetOfSameSize(a: set<nat>, b: set<nat>)
    requires a <= b && |a| == |b|
    ensures a == b
  {
    assert |b - a| == 0;
  }
}
