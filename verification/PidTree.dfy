/**
 The actor tree: parent links carried by the actors, children and death-watch
 relations kept in maps. An actor joins at most once, and it is in no watch set
 before it joins.
 */
module PidTree {
  import opened Common

  /** An actor: its name and the actor that spawned it. */
  datatype Pid = Pid(uid: nat, name: nat, parent: Option<Pid>)

  /** How far an actor is from the top of its spawn chain. */
  function Depth(p: Pid): nat {
    match p.parent
    case None => 0
    case Some(q) => 1 + Depth(q)
  }

  /** Children by name, for every actor that has any. */
  type Children = map<Pid, map<nat, Pid>>

  /** One of the two watch indexes. */
  type Index = map<Pid, set<Pid>>

  predicate Has(m: Index, k: Pid, v: Pid) {
    k in m && v in m[k]
  }

  function Plus(m: Index, k: Pid, v: Pid): Index {
    m[k := (if k in m then m[k] else {}) + {v}]
  }

  /** A member leaves its set; an empty set leaves the index. */
  function Minus(m: Index, k: Pid, v: Pid): Index {
    if k !in m then m else if m[k] - {v} == {} then m - {k} else m[k := m[k] - {v}]
  }

  lemma PlusHas(m: Index, k: Pid, v: Pid)
    ensures forall a, b :: Has(Plus(m, k, v), a, b) <==> Has(m, a, b) || (a == k && b == v)
  {
  }

  lemma MinusHas(m: Index, k: Pid, v: Pid)
    ensures forall a, b :: Has(Minus(m, k, v), a, b) <==> Has(m, a, b) && !(a == k && b == v)
  {
    if k in m && m[k] - {v} == {} {
      assert forall b :: b in m[k] ==> b in m[k] - {v} || b == v;
    }
  }

  /** The tree as a value. */
  datatype Tree = Tree(forest: set<Pid>, childrenOf: Children, inTree: set<Pid>)

  /** The parent's child map holds the actor under its name. */
  predicate Adopted(t: Tree, p: Pid) {
    && p.parent.Some? && p.parent.value in t.childrenOf
    && p.name in t.childrenOf[p.parent.value] && t.childrenOf[p.parent.value][p.name] == p
  }

  predicate NodeOk(t: Tree, p: Pid) {
    (Adopted(t, p) && p !in t.forest && p.parent.value in t.inTree) || (!Adopted(t, p) && p in t.forest)
  }

  /** A child map belongs to a registered actor and holds registered children of it. */
  predicate MapOk(t: Tree, p: Pid)
    requires p in t.childrenOf
  {
    && p in t.inTree && t.childrenOf[p] != map[]
    && (forall n | n in t.childrenOf[p] ::
          var c := t.childrenOf[p][n]; c in t.inTree && c.parent == Some(p) && c.name == n)
  }

  predicate Rooted(t: Tree) {
    && (forall p | p in t.inTree :: NodeOk(t, p))
    && (forall p | p in t.childrenOf :: MapOk(t, p))
    && t.forest <= t.inTree
  }

  /** Whether `q` is `p` or hangs below it. */
  predicate Under(t: Tree, q: Pid, p: Pid)
    decreases q
  {
    q == p || (Adopted(t, q) && Under(t, q.parent.value, p))
  }

  /** An actor and its descendants. */
  ghost function Subtree(t: Tree, p: Pid): set<Pid> {
    set q | q in t.inTree && Under(t, q, p)
  }

  /** A registered actor with no children leaves the tree. */
  function Removed(t: Tree, p: Pid): Tree {
    var inTree := t.inTree - {p};
    if Adopted(t, p) then
      var siblings := t.childrenOf[p.parent.value] - {p.name};
      var maps := t.childrenOf - {p};
      Tree(t.forest, if siblings == map[] then maps - {p.parent.value} else maps[p.parent.value := siblings], inTree)
    else Tree(t.forest - {p}, t.childrenOf - {p}, inTree)
  }

  lemma RemoveKeepsAdopted(t: Tree, p: Pid, q: Pid)
    requires Rooted(t) && p in t.inTree && p !in t.childrenOf && q != p
    ensures Adopted(Removed(t, p), q) == Adopted(t, q)
  {
    if Adopted(t, p) && Adopted(t, q) && q.parent == p.parent {
      assert q.name in t.childrenOf[p.parent.value] - {p.name};
    }
  }

  lemma RemoveKeepsMaps(t: Tree, p: Pid, q: Pid)
    requires Rooted(t) && p in t.inTree && p !in t.childrenOf && q in Removed(t, p).childrenOf
    ensures MapOk(Removed(t, p), q)
  {
    assert MapOk(t, q) && NodeOk(t, p);
  }

  lemma RemoveKeepsRooted(t: Tree, p: Pid)
    requires Rooted(t) && p in t.inTree && p !in t.childrenOf
    ensures Rooted(Removed(t, p))
    ensures forall q | q in t.inTree && q != p :: Adopted(Removed(t, p), q) == Adopted(t, q)
  {
    var u := Removed(t, p);
    assert NodeOk(t, p);
    forall q | q in t.inTree && q != p ensures Adopted(u, q) == Adopted(t, q) && NodeOk(u, q) {
      assert NodeOk(t, q);
      RemoveKeepsAdopted(t, p, q);
    }
    forall q | q in u.childrenOf ensures MapOk(u, q) { RemoveKeepsMaps(t, p, q); }
  }

  /** A new actor joins: under its parent when that is registered, else on its own. */
  function Added(t: Tree, p: Pid): Tree {
    var inTree := t.inTree + {p};
    if p.parent.Some? && p.parent.value in t.inTree then
      var siblings := if p.parent.value in t.childrenOf then t.childrenOf[p.parent.value] else map[];
      Tree(t.forest, t.childrenOf[p.parent.value := siblings[p.name := p]], inTree)
    else Tree(t.forest + {p}, t.childrenOf, inTree)
  }

  /** No registered actor has the place the new one would take. */
  predicate Vacant(t: Tree, p: Pid) {
    && p !in t.inTree
    && (p.parent.Some? && p.parent.value in t.childrenOf ==> p.name !in t.childrenOf[p.parent.value])
  }

  lemma AddKeepsRooted(t: Tree, p: Pid)
    requires Rooted(t) && Vacant(t, p)
    ensures Rooted(Added(t, p))
  {
    var u := Added(t, p);
    assert p !in t.childrenOf;
    forall q | q in u.inTree ensures NodeOk(u, q) {
      if q != p { assert NodeOk(t, q); }
    }
    forall q | q in u.childrenOf ensures MapOk(u, q) {
      if q in t.childrenOf { assert MapOk(t, q); }
    }
  }

  /** The registered actor whose place a new one takes: its parent's child of that
      name, or, for a new root, the root with the same path, if the forest has one. */
  function Occupant(t: Tree, p: Pid, twin: Option<Pid>): Option<Pid> {
    if p.parent.Some? && p.parent.value in t.inTree then
      if p.parent.value in t.childrenOf && p.name in t.childrenOf[p.parent.value]
      then Some(t.childrenOf[p.parent.value][p.name]) else None
    else twin
  }

  /** A replaced actor leaves its place, but its own children stay in their map. */
  function Detached(t: Tree, e: Pid): Tree {
    var inTree := t.inTree - {e};
    if Adopted(t, e) then
      var siblings := t.childrenOf[e.parent.value] - {e.name};
      var maps := t.childrenOf;
      Tree(t.forest, if siblings == map[] then maps - {e.parent.value} else maps[e.parent.value := siblings], inTree)
    else Tree(t.forest - {e}, t.childrenOf, inTree)
  }

  function Vacated(t: Tree, e: Option<Pid>): Tree {
    if e.None? then t else Detached(t, e.value)
  }

  /** What a call to add `p` finds in its place. */
  predicate Finds(t: Tree, p: Pid, e: Option<Pid>) {
    && p !in t.inTree
    && (p.parent.Some? && p.parent.value in t.inTree ==> e == Occupant(t, p, None))
    && (!(p.parent.Some? && p.parent.value in t.inTree) && e.Some? ==> e.value in t.forest)
  }

  lemma OccupantIsRegistered(t: Tree, p: Pid, e: Option<Pid>)
    requires Rooted(t) && Finds(t, p, e) && e.Some?
    ensures e.value in t.inTree && e.value != p && p.parent != e
  {
    if p.parent.Some? && p.parent.value in t.inTree { assert MapOk(t, p.parent.value); }
  }

  lemma DetachLeaf(t: Tree, e: Pid)
    requires e !in t.childrenOf
    ensures Detached(t, e) == Removed(t, e)
  {
    assert t.childrenOf - {e} == t.childrenOf;
  }

  /** Without children of its own the replaced actor leaves as any leaf does. */
  lemma VacateLeaf(t: Tree, p: Pid, e: Option<Pid>)
    requires Rooted(t) && Finds(t, p, e) && (e.Some? ==> e.value !in t.childrenOf)
    ensures Rooted(Vacated(t, e)) && Vacant(Vacated(t, e), p)
  {
    if e.Some? {
      OccupantIsRegistered(t, p, e);
      DetachLeaf(t, e.value);
      RemoveKeepsRooted(t, e.value);
    }
    VacatedIsVacant(t, p, e);
  }

  lemma VacatedIsVacant(t: Tree, p: Pid, e: Option<Pid>)
    requires Rooted(t) && Finds(t, p, e)
    ensures Vacant(Vacated(t, e), p)
  {
    if p.parent.Some? && p.parent.value in t.childrenOf {
      assert MapOk(t, p.parent.value);
    }
  }

  /** The children of a replaced actor hang below nobody. */
  lemma VacateParentBreaks(t: Tree, p: Pid, e: Option<Pid>)
    requires Rooted(t) && Finds(t, p, e) && e.Some? && e.value in t.childrenOf
    ensures !Rooted(Added(Vacated(t, e), p))
  {
    OccupantIsRegistered(t, p, e);
    assert NodeOk(t, e.value);
    BelowItself(e.value);
    var u := Added(Vacated(t, e), p);
    assert e.value in u.childrenOf && e.value !in u.inTree;
    assert !MapOk(u, e.value);
  }

  lemma BelowItself(p: Pid)
    ensures p.parent != Some(p)
  {
    assert p.parent.Some? ==> Depth(p) == 1 + Depth(p.parent.value);
  }

  /* ---------- death watch ---------- */

  /** The two indexes are mirror images for registered watchers, only registered actors
      are watched, and nobody who left is mentioned. */
  ghost predicate Mirrored(watchers: Index, watchees: Index, inTree: set<Pid>, gone: set<Pid>) {
    && (forall p, w | Has(watchers, p, w) :: p in inTree && w !in gone && (w in inTree ==> Has(watchees, w, p)))
    && (forall w, p | Has(watchees, w, p) :: w in inTree && Has(watchers, p, w))
    && (forall k | k in watchers :: watchers[k] != {})
    && (forall k | k in watchees :: watchees[k] != {})
  }

  lemma AddKeepsMirror(watchers: Index, watchees: Index, inTree: set<Pid>, gone: set<Pid>, p: Pid, w: Pid)
    requires Mirrored(watchers, watchees, inTree, gone) && p in inTree && w !in gone
    ensures Mirrored(Plus(watchers, p, w), if w in inTree then Plus(watchees, w, p) else watchees, inTree, gone)
  {
    PlusHas(watchers, p, w);
    PlusHas(watchees, w, p);
  }

  lemma DropKeepsMirror(watchers: Index, watchees: Index, inTree: set<Pid>, gone: set<Pid>, p: Pid, w: Pid)
    requires Mirrored(watchers, watchees, inTree, gone)
    ensures Mirrored(Minus(watchers, p, w), Minus(watchees, w, p), inTree, gone)
  {
    MinusHas(watchers, p, w);
    MinusHas(watchees, w, p);
  }

  lemma JoinKeepsMirror(watchers: Index, watchees: Index, inTree: set<Pid>, gone: set<Pid>, p: Pid)
    requires Mirrored(watchers, watchees, inTree, gone) && p !in inTree && forall q :: !Has(watchers, q, p)
    ensures Mirrored(watchers, watchees, inTree + {p}, gone)
  {
  }

  /** An index without every entry of one member. */
  ghost predicate Cleared(m: Index, r: Index, v: Pid, keys: set<Pid>) {
    && (forall a, b :: Has(r, a, b) <==> Has(m, a, b) && !(b == v && a in keys))
    && (forall k | k in r :: r[k] != {})
  }

  /** The cleanup loop of one index: a member leaves the sets of all the given actors. */
  method ClearMember(m: Index, v: Pid, keys: set<Pid>) returns (r: Index)
    requires forall k | k in m :: m[k] != {}
    ensures Cleared(m, r, v, keys)
  {
    r := m;
    var todo := keys;
    while todo != {}
      invariant todo <= keys && Cleared(m, r, v, keys - todo)
    {
      var k :| k in todo;
      MinusHas(r, k, v);
      r := Minus(r, k, v);
      todo := todo - {k};
    }
  }

  lemma LeaveKeepsMirror(watchers: Index, watchees: Index, inTree: set<Pid>, gone: set<Pid>, p: Pid,
                         watchers': Index, watchees': Index)
    requires Mirrored(watchers, watchees, inTree, gone) && p in inTree
    requires Cleared(watchees, watchees', p, if p in watchers then watchers[p] else {})
    requires Cleared(watchers, watchers', p, if p in watchees then watchees[p] else {})
    ensures Mirrored(watchers' - {p}, watchees' - {p}, inTree - {p}, gone + {p})
  {
    forall a, b | Has(watchers' - {p}, a, b)
      ensures a in inTree - {p} && b !in gone + {p} && (b in inTree - {p} ==> Has(watchees' - {p}, b, a))
    {
      assert Has(watchers', a, b) && Has(watchers, a, b);
    }
    forall a, b | Has(watchees' - {p}, a, b) ensures a in inTree - {p} && Has(watchers' - {p}, b, a) {
      assert Has(watchees', a, b) && Has(watchees, a, b) && Has(watchers, b, a);
    }
  }

  /* ---------- walking the tree ---------- */

  /** The direct children of an actor. */
  ghost function Kids(t: Tree, p: Pid): set<Pid> {
    if p in t.childrenOf then t.childrenOf[p].Values else {}
  }

  lemma KidsAreAdopted(t: Tree, p: Pid, c: Pid)
    requires Rooted(t)
    ensures c in Kids(t, p) <==> c in t.inTree && Adopted(t, c) && c.parent == Some(p)
  {
    if p in t.childrenOf {
      assert MapOk(t, p);
    }
  }

  /** The children of an actor as a list, in some order. */
  method ListKids(t: Tree, p: Pid) returns (kids: seq<Pid>)
    ensures forall c :: multiset(kids)[c] == if c in Kids(t, p) then 1 else 0
  {
    kids := [];
    var todo := if p in t.childrenOf then t.childrenOf[p].Values else {};
    while todo != {}
      invariant todo <= Kids(t, p)
      invariant forall c :: multiset(kids)[c] == if c in Kids(t, p) && c !in todo then 1 else 0
    {
      var c :| c in todo;
      kids, todo := kids + [c], todo - {c};
    }
  }

  /** How often a walk has met an actor. */
  function Met(done: seq<Pid>, stack: seq<Pid>, x: Pid): nat {
    multiset(done)[x] + multiset(stack)[x]
  }

  /** An actor other than the top was met through its parent, already done. */
  predicate Via(t: Tree, top: Pid, x: Pid, done: seq<Pid>) {
    x == top || (Adopted(t, x) && x.parent.value in done)
  }

  /** What the walk below an actor keeps: everything met was met once, through its
      parent, and is registered at or below the top's depth; the children of everything
      done have been met. */
  ghost predicate Walk(t: Tree, top: Pid, done: seq<Pid>, stack: seq<Pid>) {
    && (forall x :: Met(done, stack, x) <= 1)
    && (forall x | Met(done, stack, x) > 0 :: x in t.inTree && Depth(x) >= Depth(top))
    && (forall i | 0 <= i < |done| :: Via(t, top, done[i], done[..i]))
    && (forall x | x in stack :: Via(t, top, x, done))
    && (forall x, c | x in done && c in Kids(t, x) :: Met(done, stack, c) > 0)
    && Met(done, stack, top) > 0
  }

  lemma MetVia(t: Tree, top: Pid, done: seq<Pid>, stack: seq<Pid>, x: Pid)
    requires Walk(t, top, done, stack) && Met(done, stack, x) > 0
    ensures Via(t, top, x, done)
  {
    if x in done {
      var i :| 0 <= i < |done| && done[i] == x;
      assert Via(t, top, done[i], done[..i]);
      assert forall y | y in done[..i] :: y in done;
    } else {
      assert x in stack;
    }
  }

  /** A child of the actor on top of the stack has not been met before. */
  lemma KidIsNew(t: Tree, top: Pid, done: seq<Pid>, stack: seq<Pid>, n: Pid, c: Pid)
    requires Rooted(t) && Walk(t, top, done, stack) && n in stack && c in Kids(t, n)
    ensures Met(done, stack, c) == 0 && c in t.inTree && Adopted(t, c) && c.parent == Some(n)
    ensures Depth(c) > Depth(top)
  {
    KidsAreAdopted(t, n, c);
    assert Met(done, stack, n) <= 1 && multiset(stack)[n] > 0;
    assert n !in done && Depth(n) >= Depth(top) && Depth(c) == Depth(n) + 1;
    if Met(done, stack, c) > 0 { MetVia(t, top, done, stack, c); }
  }

  lemma MetAfter(done: seq<Pid>, rest: seq<Pid>, n: Pid, kids: seq<Pid>, x: Pid)
    ensures Met(done + [n], rest + kids, x) == Met(done, rest + [n], x) + multiset(kids)[x]
  {
    assert multiset(done + [n]) == multiset(done) + multiset{n};
    assert multiset(rest + kids) == multiset(rest) + multiset(kids);
    assert multiset(rest + [n]) == multiset(rest) + multiset{n};
  }

  lemma WalkStep(t: Tree, top: Pid, done: seq<Pid>, rest: seq<Pid>, n: Pid, kids: seq<Pid>)
    requires Rooted(t) && Walk(t, top, done, rest + [n])
    requires forall c :: multiset(kids)[c] == if c in Kids(t, n) then 1 else 0
    ensures Walk(t, top, done + [n], rest + kids)
  {
    var stack := rest + [n];
    assert stack[|rest|] == n;
    forall x ensures Met(done + [n], rest + kids, x) == Met(done, stack, x) + multiset(kids)[x]
             ensures Met(done + [n], rest + kids, x) <= 1
             ensures Met(done + [n], rest + kids, x) > 0 ==> x in t.inTree && Depth(x) >= Depth(top)
    {
      MetAfter(done, rest, n, kids, x);
      if x in Kids(t, n) { KidIsNew(t, top, done, stack, n, x); }
    }
    forall i | 0 <= i < |done + [n]| ensures Via(t, top, (done + [n])[i], (done + [n])[..i]) {
      if i < |done| {
        assert (done + [n])[..i] == done[..i];
      } else {
        assert (done + [n])[..i] == done && Via(t, top, n, done);
      }
    }
    forall x | x in rest + kids ensures Via(t, top, x, done + [n]) {
      if x in kids {
        assert multiset(kids)[x] > 0;
        KidIsNew(t, top, done, stack, n, x);
        assert (done + [n])[|done|] == n;
      } else {
        assert x in stack && Via(t, top, x, done);
      }
    }
  }

  /** A finished walk has met exactly the top and its descendants. */
  lemma {:induction false} WalkIsBelow(t: Tree, top: Pid, done: seq<Pid>, i: nat)
    requires Rooted(t) && Walk(t, top, done, []) && i < |done|
    ensures Under(t, done[i], top)
    decreases i
  {
    assert Via(t, top, done[i], done[..i]);
    if done[i] != top {
      var j :| 0 <= j < i && done[j] == done[i].parent.value;
      WalkIsBelow(t, top, done, j);
    }
  }

  lemma {:induction false} BelowIsWalked(t: Tree, top: Pid, done: seq<Pid>, x: Pid)
    requires Rooted(t) && Walk(t, top, done, []) && x in t.inTree && Under(t, x, top)
    ensures x in done
    decreases x
  {
    assert NodeOk(t, x);
    if x == top {
      assert Met(done, [], top) > 0;
    } else {
      BelowIsWalked(t, top, done, x.parent.value);
      KidsAreAdopted(t, x.parent.value, x);
      assert Met(done, [], x) > 0;
    }
  }

  lemma WalkIsSubtree(t: Tree, top: Pid, done: seq<Pid>, x: Pid)
    requires Rooted(t) && Walk(t, top, done, [])
    ensures multiset(done)[x] == if x in Subtree(t, top) then 1 else 0
  {
    assert Met(done, [], x) == multiset(done)[x];
    if x in done {
      var i :| 0 <= i < |done| && done[i] == x;
      WalkIsBelow(t, top, done, i);
    } else if x in t.inTree && Under(t, x, top) {
      BelowIsWalked(t, top, done, x);
    }
  }

  /** The registered actors a walk has not done yet. */
  ghost predicate Left(t: Tree, done: seq<Pid>, left: set<Pid>) {
    forall x :: x in left <==> x in t.inTree && x !in done
  }

  lemma PopLeaves(t: Tree, top: Pid, done: seq<Pid>, rest: seq<Pid>, n: Pid, left: set<Pid>)
    requires Walk(t, top, done, rest + [n]) && Left(t, done, left)
    ensures n in left && Left(t, done + [n], left - {n})
  {
    assert (rest + [n])[|rest|] == n;
    assert Met(done, rest + [n], n) <= 1 && multiset(rest + [n])[n] > 0;
  }

  /** Lists an actor and its descendants, each once, parents before their children. */
  method CollectSubtree(t: Tree, top: Pid) returns (done: seq<Pid>)
    requires Rooted(t) && top in t.inTree
    ensures Listing(t, top, done)
  {
    var stack := [top];
    done := [];
    ghost var left := t.inTree;
    while stack != []
      invariant Walk(t, top, done, stack) && Left(t, done, left)
      decreases left
    {
      var n, rest := stack[|stack| - 1], stack[..|stack| - 1];
      assert stack == rest + [n];
      var kids := ListKids(t, n);
      WalkStep(t, top, done, rest, n, kids);
      PopLeaves(t, top, done, rest, n, left);
      done, stack := done + [n], rest + kids;
      left := left - {n};
    }
    forall x ensures multiset(done)[x] == if x in Subtree(t, top) then 1 else 0 { WalkIsSubtree(t, top, done, x); }
  }

  /** What the scan of the whole forest keeps. */
  ghost predicate Scan(t: Tree, out: seq<Pid>, stack: seq<Pid>) {
    && (forall x :: multiset(out)[x] <= 1)
    && (forall x | x in out || x in stack :: x in t.inTree)
    && (forall f | f in t.forest :: f in out || f in stack)
    && (forall x, c | x in out && c in Kids(t, x) :: c in out || c in stack)
  }

  lemma ScanSkip(t: Tree, out: seq<Pid>, rest: seq<Pid>, n: Pid)
    requires Scan(t, out, rest + [n]) && n in out
    ensures Scan(t, out, rest)
  {
    assert forall x | x in rest + [n] :: x in rest || x == n;
    assert forall x | x in rest :: x in rest + [n];
  }

  lemma ScanStep(t: Tree, out: seq<Pid>, rest: seq<Pid>, n: Pid, kids: seq<Pid>)
    requires Rooted(t) && Scan(t, out, rest + [n]) && n !in out
    requires forall c :: multiset(kids)[c] == if c in Kids(t, n) then 1 else 0
    ensures Scan(t, out + [n], rest + kids)
  {
    assert (rest + [n])[|rest|] == n;
    assert forall x | x in rest + [n] :: x in rest || x == n;
    assert forall x | x in rest :: x in rest + [n];
    forall c ensures c in kids <==> c in Kids(t, n) { assert c in multiset(kids) <==> c in kids; }
    forall x | x in out + [n] || x in rest + kids ensures x in t.inTree {
      if x in kids { KidsAreAdopted(t, n, x); }
    }
    forall x ensures multiset(out + [n])[x] <= 1 {
      assert multiset(out + [n]) == multiset(out) + multiset{n};
    }
  }

  /** A finished scan has found every registered actor. */
  lemma {:induction false} ScanFinds(t: Tree, out: seq<Pid>, p: Pid)
    requires Rooted(t) && Scan(t, out, []) && p in t.inTree
    ensures p in out
    decreases p
  {
    assert NodeOk(t, p);
    if Adopted(t, p) {
      ScanFinds(t, out, p.parent.value);
      KidsAreAdopted(t, p.parent.value, p);
    }
  }

  method ListAll(s: set<Pid>) returns (l: seq<Pid>)
    ensures forall x :: x in l <==> x in s
  {
    l := [];
    var todo := s;
    while todo != {}
      invariant todo <= s && forall x :: x in l <==> x in s && x !in todo
    {
      var x :| x in todo;
      l, todo := l + [x], todo - {x};
    }
  }

  /** Lists every registered actor exactly once. */
  method ListNodes(t: Tree, root: Option<Pid>) returns (out: seq<Pid>)
    requires Rooted(t) && (root.Some? ==> root.value in t.inTree)
    ensures forall x :: multiset(out)[x] == if x in t.inTree then 1 else 0
  {
    var forest := ListAll(t.forest);
    var stack := (if root.Some? then [root.value] else []) + forest;
    out := [];
    var seen: set<Pid> := {};
    ghost var left := t.inTree;
    while stack != []
      invariant Scan(t, out, stack) && Left(t, out, left) && forall x :: x in seen <==> x in out
      decreases left, |stack|
    {
      var n, rest := stack[|stack| - 1], stack[..|stack| - 1];
      assert stack == rest + [n];
      if n in seen {
        ScanSkip(t, out, rest, n);
        stack := rest;
        continue;
      }
      var kids := ListKids(t, n);
      ScanStep(t, out, rest, n, kids);
      seen, out, stack := seen + {n}, out + [n], rest + kids;
      left := left - {n};
    }
    forall x ensures multiset(out)[x] == if x in t.inTree then 1 else 0 {
      if x in t.inTree { ScanFinds(t, out, x); }
    }
  }

  /** A join keeps the tree and the indexes exactly when nothing hangs on the actor it
      replaces. */
  lemma JoinOrBreak(t: Tree, watchers: Index, watchees: Index, gone: set<Pid>, p: Pid, e: Option<Pid>)
    requires Rooted(t) && Mirrored(watchers, watchees, t.inTree, gone) && Finds(t, p, e)
    requires forall q :: !Has(watchers, q, p)
    ensures var u, left := Added(Vacated(t, e), p), gone + (if e.Some? then {e.value} else {});
      Rooted(u) && Mirrored(watchers, watchees, u.inTree, left) <==>
        (e.Some? ==> e.value !in t.childrenOf && e.value !in watchers && e.value !in watchees)
  {
    var u, left := Added(Vacated(t, e), p), gone + (if e.Some? then {e.value} else {});
    if e.Some? { OccupantIsRegistered(t, p, e); }
    if e.Some? && e.value in t.childrenOf {
      VacateParentBreaks(t, p, e);
    } else {
      VacateLeaf(t, p, e);
      AddKeepsRooted(Vacated(t, e), p);
      WatchesOfReplaced(watchers, watchees, t.inTree, gone, e);
      if e.None? || (e.value !in watchers && e.value !in watchees) {
        JoinKeepsMirror(watchers, watchees, Vacated(t, e).inTree, left, p);
      } else {
        StaleMirror(watchers, watchees, u.inTree, left, e.value);
      }
    }
  }

  /** What the class keeps, as a condition on its fields. */
  ghost predicate Sound(t: Tree, watchers: Index, watchees: Index, gone: set<Pid>, root: Option<Pid>, count: nat) {
    && Rooted(t) && Mirrored(watchers, watchees, t.inTree, gone)
    && count == |t.inTree| && t.inTree !! gone
    && (root.Some? ==> root.value in t.inTree)
  }

  ghost predicate Loose(t: Tree, watchers: Index, watchees: Index, e: Option<Pid>) {
    e.Some? ==> e.value !in t.childrenOf && e.value !in watchers && e.value !in watchees
  }

  lemma JoinIsSound(t: Tree, watchers: Index, watchees: Index, gone: set<Pid>, root: Option<Pid>, count: nat,
                    p: Pid, e: Option<Pid>, u: Tree, left: set<Pid>, root': Option<Pid>, count': nat)
    requires Sound(t, watchers, watchees, gone, root, count) && Finds(t, p, e)
    requires p !in gone && forall q :: !Has(watchers, q, p)
    requires u == Added(Vacated(t, e), p) && left == gone + (if e.Some? then {e.value} else {})
    requires root'.Some? ==> root' == Some(p) || (root' == root && root' != e)
    requires count' == (if e.Some? then count else count + 1)
    ensures Sound(u, watchers, watchees, left, root', count') <==> Loose(t, watchers, watchees, e)
  {
    JoinOrBreak(t, watchers, watchees, gone, p, e);
    JoinMembers(t, p, e, u);
  }

  lemma JoinMembers(t: Tree, p: Pid, e: Option<Pid>, u: Tree)
    requires Rooted(t) && Finds(t, p, e) && u == Added(Vacated(t, e), p)
    ensures u.inTree == (if e.Some? then t.inTree - {e.value} else t.inTree) + {p}
    ensures |u.inTree| == if e.Some? then |t.inTree| else |t.inTree| + 1
    ensures e.Some? ==> e.value in t.inTree && e.value !in u.inTree
  {
    if e.Some? { OccupantIsRegistered(t, p, e); }
  }

  lemma WatchesOfReplaced(watchers: Index, watchees: Index, inTree: set<Pid>, gone: set<Pid>, e: Option<Pid>)
    requires Mirrored(watchers, watchees, inTree, gone) && (e.Some? ==> e.value in inTree)
    ensures (e.Some? ==> e.value !in watchers && e.value !in watchees) ==>
      var left := if e.Some? then {e.value} else {};
      Mirrored(watchers, watchees, inTree - left, gone + left)
    ensures e.Some? && e.value in watchers ==> exists w :: Has(watchers, e.value, w)
    ensures e.Some? && e.value in watchees ==> exists p :: Has(watchees, e.value, p)
  {
    if e.Some? && e.value in watchers {
      var w :| w in watchers[e.value];
      assert Has(watchers, e.value, w);
    }
    if e.Some? && e.value in watchees {
      var p :| p in watchees[e.value];
      assert Has(watchees, e.value, p);
    }
  }

  lemma StaleMirror(watchers: Index, watchees: Index, inTree: set<Pid>, gone: set<Pid>, e: Pid)
    requires e !in inTree
    requires (exists w :: Has(watchers, e, w)) || (exists p :: Has(watchees, e, p))
    ensures !Mirrored(watchers, watchees, inTree, gone)
  {
  }

  /* ---------- the tree with its watch indexes ---------- */

  class PidTree {
    var tree: Tree
    var watchersOf: Index
    var watcheesOf: Index
    var root: Option<Pid>
    var count: nat

    /** The actors that have left. */
    ghost var gone: set<Pid>

    ghost predicate Valid()
      reads this
    {
      Sound(tree, watchersOf, watcheesOf, gone, root, count)
    }

    constructor ()
      ensures Valid() && tree == Tree({}, map[], {}) && watchersOf == map[] && gone == {}
    {
      tree, watchersOf, watcheesOf, root, count := Tree({}, map[], {}), map[], map[], None, 0;
      gone := {};
    }

    /** A new actor joins under its registered parent or as a root, replacing the actor
        in its place. The replaced one's children and watches stay behind, so the tree
        stays well-formed exactly when it had none. */
    method AddNode(pid: Pid, twin: Option<Pid>)
      requires Valid() && pid !in tree.inTree && pid !in gone && forall q :: !Has(watchersOf, q, pid)
      requires twin.Some? ==> twin.value in tree.forest
      modifies this`tree, this`root, this`count, this`gone
      ensures var e := Occupant(old(tree), pid, twin);
        && tree == Added(Vacated(old(tree), e), pid)
        && gone == old(gone) + (if e.Some? then {e.value} else {})
        && (Valid() <==> Loose(old(tree), watchersOf, watcheesOf, e))
    {
      var e := Occupant(tree, pid, twin);
      var joined := Added(Vacated(tree, e), pid);
      var first := if e.Some? && root == e then None else root;
      if !(pid.parent.Some? && pid.parent.value in tree.inTree) && first.None? {
        first := Some(pid);
      }
      var size := if e.Some? then count else count + 1;
      ghost var left := gone + (if e.Some? then {e.value} else {});
      JoinIsSound(tree, watchersOf, watcheesOf, gone, root, count, pid, e, joined, left, first, size);
      tree, root, count := joined, first, size;
      gone := left;
    }

    /** Reports whether the registration is new. A watcher that has left the tree is
        accepted all the same, and its entry stays until the watched actor leaves or the
        registration is removed. */
    method AddWatcher(watched: Pid, watcher: Pid) returns (added: bool)
      requires Valid()
      modifies this`watchersOf, this`watcheesOf
      ensures Valid() <==> (watched in tree.inTree ==> watcher !in gone)
      ensures added == (watched in tree.inTree && !old(Has(watchersOf, watched, watcher)))
      ensures forall a, b :: Has(watchersOf, a, b) <==>
                old(Has(watchersOf, a, b)) || (watched in tree.inTree && a == watched && b == watcher)
    {
      if watched !in tree.inTree {
        return false;
      }
      added := !Has(watchersOf, watched, watcher);
      if watcher !in gone {
        AddKeepsMirror(watchersOf, watcheesOf, tree.inTree, gone, watched, watcher);
      }
      PlusHas(watchersOf, watched, watcher);
      watchersOf := Plus(watchersOf, watched, watcher);
      if watcher in tree.inTree {
        watcheesOf := Plus(watcheesOf, watcher, watched);
      }
    }

    /** Reports whether a registration was removed. */
    method RemoveWatcher(watched: Pid, watcher: Pid) returns (removed: bool)
      requires Valid()
      modifies this`watchersOf, this`watcheesOf
      ensures Valid() && removed == old(Has(watchersOf, watched, watcher))
      ensures forall a, b :: Has(watchersOf, a, b) <==> old(Has(watchersOf, a, b)) && !(a == watched && b == watcher)
    {
      removed := Has(watchersOf, watched, watcher);
      DropKeepsMirror(watchersOf, watcheesOf, tree.inTree, gone, watched, watcher);
      MinusHas(watchersOf, watched, watcher);
      watchersOf, watcheesOf := Minus(watchersOf, watched, watcher), Minus(watcheesOf, watcher, watched);
    }

    /** Removes one registered actor with no children: its watches go both ways. */
    method Unlink(p: Pid)
      requires Valid() && p in tree.inTree && p !in tree.childrenOf
      modifies this
      ensures Valid() && tree == Removed(old(tree), p) && gone == old(gone) + {p}
    {
      var watchees := ClearMember(watcheesOf, p, if p in watchersOf then watchersOf[p] else {});
      var watchers := ClearMember(watchersOf, p, if p in watcheesOf then watcheesOf[p] else {});
      LeaveKeepsMirror(watchersOf, watcheesOf, tree.inTree, gone, p, watchers, watchees);
      RemoveKeepsRooted(tree, p);
      watchersOf, watcheesOf := watchers - {p}, watchees - {p};
      tree := Removed(tree, p);
      count := count - 1;
      if root == Some(p) {
        root := None;
      }
      gone := gone + {p};
    }

    /** Unlinks a listed subtree from the last to the first. */
    method Unwind(top: Pid, post: seq<Pid>)
      requires Valid() && Listing(tree, top, post)
      modifies this
      ensures Valid() && Unwound(old(tree), tree, top, post, 0)
      ensures gone == old(gone) + Members(post, 0)
    {
      var i := |post|;
      while i > 0
        invariant 0 <= i <= |post| && Valid() && Unwound(old(tree), tree, top, post, i)
        invariant gone == old(gone) + Members(post, i)
      {
        i := i - 1;
        LeafAtUnwind(old(tree), tree, top, post, i);
        UnwindStep(old(tree), tree, top, post, i);
        MembersStep(post, i);
        Unlink(post[i]);
      }
    }

    /** Removes exactly an actor and its descendants, each once. */
    method DeleteNode(pid: Pid)
      requires Valid()
      modifies this
      ensures Valid()
      ensures tree.inTree == old(tree.inTree) - old(Subtree(tree, pid))
      ensures gone == old(gone) + old(Subtree(tree, pid))
    {
      if pid !in tree.inTree {
        NoSubtreeOutside(tree, pid);
        return;
      }
      var post := CollectSubtree(tree, pid);
      ListingMembers(tree, pid, post);
      Unwind(pid, post);
    }

    /** Lists every registered actor once, so the list is as long as the count. */
    method Nodes() returns (out: seq<Pid>)
      requires Valid()
      ensures |out| == count && forall x :: multiset(out)[x] == if x in tree.inTree then 1 else 0
    {
      out := ListNodes(tree, root);
      OnceIsSize(out, tree.inTree);
    }
  }

  /** A second actor of a name whose first has a child. */
  method ReplacedParent() returns (t: PidTree)
    ensures !t.Valid()
  {
    t := new PidTree();
    var top := Pid(0, 0, None);
    var first, second := Pid(1, 1, Some(top)), Pid(2, 1, Some(top));
    t.AddNode(top, None);
    t.AddNode(first, None);
    t.AddNode(Pid(3, 0, Some(first)), None);
    t.AddNode(second, None);
  }

  /** A watcher that left before its registration arrived. */
  method LateWatcher() returns (t: PidTree)
    ensures !t.Valid()
  {
    t := new PidTree();
    var watched, watcher := Pid(0, 0, None), Pid(1, 1, None);
    t.AddNode(watched, None);
    t.AddNode(watcher, None);
    assert watcher in Subtree(t.tree, watcher) && watched !in Subtree(t.tree, watcher);
    t.DeleteNode(watcher);
    var added := t.AddWatcher(watched, watcher);
  }

  /** Nothing hangs below an actor that is not registered. */
  lemma {:induction false} OutsideHasNoneBelow(t: Tree, q: Pid, p: Pid)
    requires Rooted(t) && q in t.inTree && p !in t.inTree
    ensures !Under(t, q, p)
    decreases q
  {
    assert NodeOk(t, q);
    if Adopted(t, q) { OutsideHasNoneBelow(t, q.parent.value, p); }
  }

  lemma NoSubtreeOutside(t: Tree, p: Pid)
    requires Rooted(t) && p !in t.inTree
    ensures Subtree(t, p) == {}
  {
    forall q | q in t.inTree ensures !Under(t, q, p) { OutsideHasNoneBelow(t, q, p); }
  }

  /** The actors listed from an index on. */
  ghost function Members(post: seq<Pid>, i: nat): set<Pid>
    requires i <= |post|
  {
    set x | x in post[i..]
  }

  lemma MembersStep(post: seq<Pid>, i: nat)
    requires i < |post|
    ensures Members(post, i) == Members(post, i + 1) + {post[i]}
  {
    assert post[i..] == [post[i]] + post[i + 1..];
  }

  lemma ListingMembers(t: Tree, top: Pid, post: seq<Pid>)
    requires Listing(t, top, post)
    ensures Members(post, 0) == Subtree(t, top) && post[0..] == post
  {
    forall x ensures x in post <==> x in Subtree(t, top) { assert x in multiset(post) <==> x in post; }
  }

  /** A list that holds each member of a set once is as long as the set. */
  lemma {:induction false} OnceIsSize(l: seq<Pid>, s: set<Pid>)
    requires forall x :: multiset(l)[x] == if x in s then 1 else 0
    ensures |l| == |s|
    decreases |l|
  {
    if l == [] {
      assert forall x | x in s :: multiset(l)[x] == 1;
    } else {
      var n, rest := l[|l| - 1], l[..|l| - 1];
      assert l == rest + [n];
      assert multiset(l) == multiset(rest) + multiset{n};
      assert multiset(l)[n] >= 1;
      OnceIsSize(rest, s - {n});
    }
  }

  /** How far the removal has come: the tail of the list is out, the rest is as it was. */
  ghost predicate Unwound(t: Tree, u: Tree, top: Pid, post: seq<Pid>, i: nat)
    requires i <= |post|
  {
    && (forall x :: x in u.inTree <==> x in t.inTree && x !in post[i..])
    && (forall x | x in u.inTree :: Adopted(u, x) == Adopted(t, x))
  }

  /** The list holds each actor of a subtree once, parents before their children. */
  ghost predicate Listing(t: Tree, top: Pid, post: seq<Pid>) {
    && (forall x :: multiset(post)[x] == if x in Subtree(t, top) then 1 else 0)
    && (forall i | 0 <= i < |post| :: Via(t, top, post[i], post[..i]))
  }

  lemma {:induction false} BelowIsDeeper(t: Tree, q: Pid, p: Pid)
    requires Under(t, q, p)
    ensures Depth(q) >= Depth(p)
    decreases q
  {
    if q != p { BelowIsDeeper(t, q.parent.value, p); }
  }

  lemma SameIndex(post: seq<Pid>, i: nat, j: nat)
    requires i < |post| && j < |post| && post[i] == post[j] && multiset(post)[post[i]] <= 1
    ensures i == j
  {
    if i < j { TwiceCounts(post, i, j); }
    if j < i { TwiceCounts(post, j, i); }
  }

  /** A child in the tree comes later in the list than its parent. */
  lemma ChildComesLater(t: Tree, top: Pid, post: seq<Pid>, i: nat, c: Pid)
    requires Rooted(t) && Listing(t, top, post) && i < |post|
    requires c in t.inTree && Adopted(t, c) && c.parent == Some(post[i])
    ensures c in post[i + 1..]
  {
    assert multiset(post)[post[i]] == 1;
    assert Under(t, c, top);
    BelowIsDeeper(t, post[i], top);
    assert multiset(post)[c] == 1;
    var j :| 0 <= j < |post| && post[j] == c;
    assert Via(t, top, post[j], post[..j]);
    var k :| 0 <= k < j && post[k] == post[i];
    SameIndex(post, i, k);
    assert post[i + 1..][j - i - 1] == c;
  }

  lemma NotYetUnwound(t: Tree, top: Pid, post: seq<Pid>, i: nat)
    requires Listing(t, top, post) && i < |post|
    ensures post[i] !in post[i + 1..] && post[i] in Subtree(t, top)
  {
    assert multiset(post)[post[i]] >= 1;
    if post[i] in post[i + 1..] {
      var j :| 0 <= j < |post[i + 1..]| && post[i + 1..][j] == post[i];
      TwiceCounts(post, i, i + 1 + j);
    }
  }

  /** When its turn comes, an actor is still registered and has no children left. */
  lemma LeafAtUnwind(t: Tree, u: Tree, top: Pid, post: seq<Pid>, i: nat)
    requires Rooted(t) && Rooted(u) && Listing(t, top, post) && i < |post| && Unwound(t, u, top, post, i + 1)
    ensures post[i] in u.inTree && post[i] !in u.childrenOf
  {
    NotYetUnwound(t, top, post, i);
    if post[i] in u.childrenOf {
      assert MapOk(u, post[i]);
      var name :| name in u.childrenOf[post[i]];
      ChildComesLater(t, top, post, i, u.childrenOf[post[i]][name]);
    }
  }

  lemma UnwindStep(t: Tree, u: Tree, top: Pid, post: seq<Pid>, i: nat)
    requires Rooted(u) && i < |post| && Unwound(t, u, top, post, i + 1)
    requires post[i] in u.inTree && post[i] !in u.childrenOf
    ensures Unwound(t, Removed(u, post[i]), top, post, i)
  {
    RemoveKeepsRooted(u, post[i]);
    assert post[i..] == [post[i]] + post[i + 1..];
  }
}
