/**
 Binary heaps in a flat sequence, as the priority mailbox and the passivation
 manager keep them: what "ordered except around one slot" means, and how one swap
 of either sift moves that slot.
 */
module Heap {

  /** `less` is a strict weak order, stated so that each instance is asked for by name. */
  ghost predicate WeakOrder<E(!new)>(less: (E, E) -> bool) {
    && (forall a, b :: Asymmetric(less, a, b))
    && (forall a, b, c :: Chained(less, a, b, c))
  }

  ghost predicate Asymmetric<E>(less: (E, E) -> bool, a: E, b: E) {
    !(less(a, b) && less(b, a))
  }

  /** Not being outranked is transitive. */
  ghost predicate Chained<E>(less: (E, E) -> bool, a: E, b: E, c: E) {
    less(a, c) ==> less(a, b) || less(b, c)
  }

  predicate Child(p: int, c: int) {
    0 <= p && (c == 2 * p + 1 || c == 2 * p + 2)
  }

  function Parent(c: int): int {
    (c - 1) / 2
  }

  /** No slot outranks its parent. */
  ghost predicate Ordered<E>(less: (E, E) -> bool, h: seq<E>) {
    forall p, c {:trigger Child(p, c)} | Child(p, c) && c < |h| :: !less(h[c], h[p])
  }

  /** Ordered except that slot `k` may outrank its parent (`up`) or be outranked by
      its children (`down`). Those children are still not above that parent. */
  ghost predicate Hole<E>(less: (E, E) -> bool, h: seq<E>, k: nat, up: bool, down: bool) {
    && (forall p, c {:trigger Child(p, c)} | Child(p, c) && c < |h| && !(up && c == k) && !(down && p == k) ::
          !less(h[c], h[p]))
    && (forall p, c {:trigger Child(p, k), Child(k, c)} | Child(p, k) && Child(k, c) && c < |h| ::
          !less(h[c], h[p]))
  }

  function Swap<E>(h: seq<E>, i: nat, j: nat): (s: seq<E>)
    requires i < |h| && j < |h|
    ensures multiset(s) == multiset(h) && |s| == |h|
  {
    h[i := h[j]][j := h[i]]
  }

  lemma ClosedHole<E(!new)>(less: (E, E) -> bool, h: seq<E>, k: nat)
    requires WeakOrder(less) && Ordered(less, h)
    ensures Hole(less, h, k, true, false) && Hole(less, h, k, false, true)
  {
    forall p, c | Child(p, k) && Child(k, c) && c < |h| ensures !less(h[c], h[p]) {
      assert Chained(less, h[c], h[k], h[p]);
    }
  }

  lemma SiftUpStep<E(!new)>(less: (E, E) -> bool, h: seq<E>, j: nat)
    requires WeakOrder(less) && 0 < j < |h| && Hole(less, h, j, true, false) && less(h[j], h[Parent(j)])
    ensures Hole(less, Swap(h, Parent(j), j), Parent(j), true, false)
  {
    var i := Parent(j);
    var s := Swap(h, i, j);
    assert Child(i, j);
    forall p, c | Child(p, c) && c < |s| && c != i ensures !less(s[c], s[p]) {
      assert Asymmetric(less, h[j], h[i]);
      if p == i && c != j { assert Chained(less, h[c], h[i], h[j]); }
    }
    forall p, c | Child(p, i) && Child(i, c) && c < |s| ensures !less(s[c], s[p]) {
      assert Chained(less, h[c], h[i], h[p]);
    }
  }

  lemma SiftUpDone<E>(less: (E, E) -> bool, h: seq<E>, j: nat)
    requires Hole(less, h, j, true, false) && (j == 0 || j >= |h| || !less(h[j], h[Parent(j)]))
    ensures Ordered(less, h)
  {
  }

  /** `c` is a child of `k` that `k`'s other child does not outrank. */
  ghost predicate Upper<E>(less: (E, E) -> bool, h: seq<E>, k: nat, c: nat) {
    Child(k, c) && c < |h| && (forall d {:trigger Child(k, d)} | Child(k, d) && d < |h| :: !less(h[d], h[c]))
  }

  /** The child that is not outranked by its sibling is the upper one. */
  lemma PickUpper<E(!new)>(less: (E, E) -> bool, h: seq<E>, k: nat, c: nat)
    requires WeakOrder(less) && Child(k, c) && c < |h|
    requires c == 2 * k + 1 ==> c + 1 >= |h| || !less(h[c + 1], h[c])
    requires c == 2 * k + 2 ==> less(h[c], h[c - 1])
    ensures Upper(less, h, k, c)
  {
    assert Asymmetric(less, h[c], h[c]);
    if c == 2 * k + 2 { assert Asymmetric(less, h[c], h[c - 1]); }
  }

  /** When the upper child does not outrank its parent, no child does. */
  lemma NoChildOutranks<E(!new)>(less: (E, E) -> bool, h: seq<E>, k: nat, c: nat)
    requires WeakOrder(less) && k < |h| && Upper(less, h, k, c) && !less(h[c], h[k])
    ensures forall d {:trigger Child(k, d)} | Child(k, d) && d < |h| :: !less(h[d], h[k])
  {
    forall d | Child(k, d) && d < |h| ensures !less(h[d], h[k]) {
      assert Chained(less, h[d], h[c], h[k]);
    }
  }

  lemma SiftDownStep<E(!new)>(less: (E, E) -> bool, h: seq<E>, k: nat, m: nat, up: bool)
    requires WeakOrder(less) && k < |h| && Hole(less, h, k, up, true) && Upper(less, h, k, m) && less(h[m], h[k])
    ensures Hole(less, Swap(h, k, m), m, false, true)
  {
    var s := Swap(h, k, m);
    forall p, c | Child(p, c) && c < |s| && p != m ensures !less(s[c], s[p]) {
      assert Asymmetric(less, h[m], h[k]);
      assert Child(k, m);
    }
    forall c | Child(m, c) && c < |s| ensures !less(s[c], s[k]) {
      assert Child(m, c);
    }
  }

  lemma SiftDownDone<E>(less: (E, E) -> bool, h: seq<E>, k: nat, up: bool)
    requires Hole(less, h, k, up, true)
    requires forall c {:trigger Child(k, c)} | Child(k, c) && c < |h| :: !less(h[c], h[k])
    ensures Hole(less, h, k, up, false)
  {
  }

  lemma HoleClosed<E>(less: (E, E) -> bool, h: seq<E>, k: nat)
    requires Hole(less, h, k, false, false)
    ensures Ordered(less, h)
  {
  }

  /** Nothing in an ordered heap outranks its root. */
  lemma {:induction false} RootIsFirst<E(!new)>(less: (E, E) -> bool, h: seq<E>, i: nat)
    requires WeakOrder(less) && Ordered(less, h) && i < |h|
    ensures !less(h[i], h[0])
  {
    if i == 0 {
      assert Asymmetric(less, h[0], h[0]);
    } else {
      RootIsFirst(less, h, Parent(i));
      assert Child(Parent(i), i);
      assert Chained(less, h[i], h[Parent(i)], h[0]);
    }
  }

  /** Dropping the last slot keeps a heap ordered. */
  lemma PopKeepsOrder<E>(less: (E, E) -> bool, h: seq<E>)
    requires Ordered(less, h) && h != []
    ensures Ordered(less, h[..|h| - 1])
  {
  }

  /** A value written over slot `i` leaves a hole there. */
  lemma WriteOpensHole<E(!new)>(less: (E, E) -> bool, h: seq<E>, i: nat, e: E)
    requires WeakOrder(less) && Ordered(less, h) && i < |h|
    ensures Hole(less, h[i := e], i, true, true)
  {
    forall p, c | Child(p, i) && Child(i, c) && c < |h| ensures !less(h[i := e][c], h[i := e][p]) {
      assert Chained(less, h[c], h[i], h[p]);
    }
  }

  /** A value added at the end leaves a hole there that only points up. */
  lemma PushOpensHole<E>(less: (E, E) -> bool, h: seq<E>, e: E)
    requires Ordered(less, h)
    ensures Hole(less, h + [e], |h|, true, false)
  {
  }

  /** The heap with its last slot written over its root. */
  function DropRoot<E>(h: seq<E>): seq<E>
    requires h != []
  {
    if |h| == 1 then [] else h[..|h| - 1][0 := h[|h| - 1]]
  }

  lemma DropRootDrops<E>(h: seq<E>)
    requires h != []
    ensures multiset(DropRoot(h)) == multiset(h) - multiset{h[0]}
  {
    assert h == h[..|h| - 1] + [h[|h| - 1]];
  }

  lemma DropRootOpensHole<E(!new)>(less: (E, E) -> bool, h: seq<E>)
    requires WeakOrder(less) && Ordered(less, h) && h != []
    ensures Hole(less, DropRoot(h), 0, false, true)
  {
    if |h| > 1 { WriteOpensHole(less, h[..|h| - 1], 0, h[|h| - 1]); }
  }
}
