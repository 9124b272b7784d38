/**
 The generations of the ask wheel side by side: linking a context into one, or
 unlinking it, leaves every other one well-formed, and the linked objects go on
 spelling out the wheel's store.
 */
module AskLinks {
  import opened Common
  import opened AskGenerations
  import opened AskTimeouts
  import opened AskWheel

  /** Contexts of other generations are neither in `g` nor in none. */
  lemma LinkedElsewhere(g: AskGeneration, h: AskGeneration, c: AskContext)
    requires g.Valid() && h.Valid() && g != h && c in h.items
    ensures c !in g.items && c.gen != null
  {
    assert c.gen == h;
  }

  /** A generation none of whose objects changed is as well-formed as before. */
  twostate lemma StillValid(h: AskGeneration)
    requires old(h.Valid()) && unchanged(h) && forall c | c in h.items :: unchanged(c)
    ensures h.Valid()
  {
    assert old(h.Owned()) && old(h.Mirrored());
    forall i | 0 <= i < |h.items| ensures h.links[i] == Link(h.items[i].prev, h.items[i].next) {
      assert h.items[i] in h.items;
    }
  }

  /** Appending to one generation keeps all of them well-formed. */
  method Join(g: AskGeneration, ctx: AskContext, ghost all: set<AskGeneration>)
    requires g in all && (forall h | h in all :: h.Valid())
    requires ctx.gen == null && ctx.prev == null && ctx.next == null
    modifies g, g.items`next, ctx`gen, ctx`prev
    ensures g.items == old(g.items) + [ctx] && ctx.gen == g
    ensures forall h | h in all :: h.Valid() && (h != g ==> h.items == old(h.items))
    ensures forall c | c in old(g.items) :: c.gen == g
  {
    forall h, c | h in all && h != g && c in h.items ensures c !in g.items && c != ctx {
      LinkedElsewhere(g, h, c);
    }
    g.Append(ctx);
    assert ctx in g.items;
    forall h | h in all && h != g ensures h.Valid() {
      forall c | c in h.items ensures unchanged(c) {}
      StillValid(h);
    }
  }

  /** Removing from one generation keeps all of them well-formed. */
  method Leave(ctx: AskContext, ghost all: set<AskGeneration>)
    requires ctx.gen != null && ctx.gen in all && ctx in ctx.gen.items && (forall h | h in all :: h.Valid())
    modifies ctx.gen, set c | c in ctx.gen.items
    ensures ctx.gen == null && ctx.prev == null && ctx.next == null
    ensures forall h | h in all :: h.Valid() && (h != old(ctx.gen) ==> h.items == old(h.items))
    ensures old(ctx.gen).items == Without(old(ctx.gen.items), Index(old(ctx.gen.items), ctx))
  {
    ghost var g := ctx.gen;
    forall h, c | h in all && h != g && c in h.items ensures c !in g.items {
      LinkedElsewhere(g, h, c);
    }
    ctx.gen.Remove(ctx);
    forall h | h in all && h != g ensures h.Valid() {
      forall c | c in h.items ensures unchanged(c) {}
      StillValid(h);
    }
  }

  /** What detaching a context does to the generations and the other contexts. */
  lemma Detaching(s: Store, c: nat) returns (k: nat, t: Store)
    requires Shaped(s) && c in s.ctxs && s.ctxs[c].gen.Some?
    ensures var g := s.ctxs[c].gen.value;
      && g in s.gens && k < |s.gens[g]| && s.gens[g][k] == c
      && t == Detached(s, c) && Shaped(t) && t.gens == s.gens[g := Without(s.gens[g], k)]
    ensures forall e | e in t.ctxs && t.ctxs[e].gen == None :: e == c || (e in s.ctxs && s.ctxs[e].gen == None)
  {
    var g := s.ctxs[c].gen.value;
    assert CtxOk(s, c) && GenOk(s, g);
    k :| 0 <= k < |s.gens[g]| && s.gens[g][k] == c;
    RemovedAt(s.gens[g], k);
    DetachKeepsShape(s, c, k);
    t := Detached(s, c);
  }

  lemma ReadiedShape(s: Store, d: real, first: nat)
    requires Shaped(s) && forall g | g in s.gens :: g < first
    ensures Shaped(Readied(s, d, first))
  {
    if d !in s.lists { OpenKeepsShape(s, d, first, first + 1); }
  }

  ghost predicate Injective<K(!new), V>(m: map<K, V>) {
    forall a, b | a in m && b in m && a != b :: m[a] != m[b]
  }

  /** The objects behind the names of a store. */
  class Linked {
    var contexts: map<nat, AskContext>
    var generations: map<nat, AskGeneration>

    constructor ()
      ensures contexts == map[] && generations == map[] && Spells(Store(map[], map[], map[]))
    {
      contexts, generations := map[], map[];
    }

    /** The names list the objects. */
    ghost predicate Listed(items: seq<AskContext>, names: seq<nat>)
      reads this
    {
      |items| == |names| && forall i | 0 <= i < |names| :: names[i] in contexts && contexts[names[i]] == items[i]
    }

    lemma ListedWithout(items: seq<AskContext>, names: seq<nat>, k: nat)
      requires Listed(items, names) && k < |names|
      ensures Listed(Without(items, k), Without(names, k))
    {
    }

    lemma ListedAppend(items: seq<AskContext>, names: seq<nat>, c: nat)
      requires Listed(items, names) && c in contexts
      ensures Listed(items + [contexts[c]], names + [c])
    {
    }

    ghost predicate SpellsGen(g: nat, names: seq<nat>)
      reads *
    {
      g in generations && generations[g].Valid() && Listed(generations[g].items, names)
    }

    /** Every generation is a well-formed linked list of its contexts. */
    ghost predicate SpellsGens(gens: map<nat, seq<nat>>)
      reads *
    {
      && Injective(contexts) && Injective(generations)
      && (forall g | g in gens :: SpellsGen(g, gens[g]))
    }

    ghost predicate Unlinked(c: nat)
      reads *
    {
      c in contexts && contexts[c].gen == null && contexts[c].prev == null && contexts[c].next == null
    }

    /** Every context points at the generation that lists it, or is unlinked. */
    ghost predicate SpellsCtxs(ctxs: map<nat, Ctx>)
      reads *
    {
      forall c | c in ctxs ::
        match ctxs[c].gen
        case None => Unlinked(c)
        case Some(g) => c in contexts && g in generations && contexts[c].gen == generations[g]
    }

    ghost predicate Spells(s: Store)
      reads *
    {
      SpellsGens(s.gens) && SpellsCtxs(s.ctxs)
    }

    /** The generations' lists say where every linked context stands. */
    lemma SpellsFromGens(s: Store)
      requires Shaped(s) && SpellsGens(s.gens)
      requires forall c | c in s.ctxs && s.ctxs[c].gen == None :: Unlinked(c)
      ensures Spells(s)
    {
      forall c | c in s.ctxs && s.ctxs[c].gen.Some?
        ensures c in contexts && s.ctxs[c].gen.value in generations
        ensures contexts[c].gen == generations[s.ctxs[c].gen.value]
      {
        var g := s.ctxs[c].gen.value;
        assert CtxOk(s, c) && SpellsGen(g, s.gens[g]);
        var i :| 0 <= i < |s.gens[g]| && s.gens[g][i] == c;
        assert generations[g].items[i] in generations[g].items;
      }
    }

    /** The object of the `k`-th name is the `k`-th object. */
    lemma SameIndex(gens: map<nat, seq<nat>>, g: nat, k: nat)
      requires SpellsGens(gens) && g in gens && k < |gens[g]|
      ensures g in generations && generations[g].Valid() && gens[g][k] in contexts
      ensures var c := contexts[gens[g][k]];
        c.gen == generations[g] && c in generations[g].items && Index(generations[g].items, c) == k
    {
      assert SpellsGen(g, gens[g]);
      assert generations[g].items[k] in generations[g].items;
    }

    lemma GenIs(h: nat, items: seq<AskContext>, names: seq<nat>)
      requires h in generations && generations[h].Valid() && generations[h].items == items && Listed(items, names)
      ensures SpellsGen(h, names)
    {
    }

    /** Unlinking an object takes its name out of its generation's list and leaves the
        other generations and the unlinked contexts alone. */
    method Detach(ctx: AskContext, ghost c: nat, ghost g: nat, ghost k: nat, ghost gens: map<nat, seq<nat>>)
      requires SpellsGens(gens) && g in gens && k < |gens[g]| && gens[g][k] == c
      requires c in contexts && contexts[c] == ctx
      modifies ctx.gen, if ctx.gen == null then {} else set o | o in ctx.gen.items
      ensures unchanged(this) && SpellsGens(gens[g := Without(gens[g], k)]) && Unlinked(c)
      ensures forall e | e in contexts && old(Unlinked(e)) :: Unlinked(e)
    {
      ghost var all := set h | h in gens :: generations[h];
      assert forall h | h in gens :: SpellsGen(h, gens[h]);
      SameIndex(gens, g, k);
      Leave(ctx, all);
      forall h | h in gens ensures SpellsGen(h, gens[g := Without(gens[g], k)][h]) {
        assert generations[h] in all && old(SpellsGen(h, gens[h]));
        if h == g {
          ListedWithout(old(generations[g].items), gens[g], k);
          GenIs(g, Without(old(generations[g].items), k), Without(gens[g], k));
        } else {
          assert generations[h] != generations[g];
          GenIs(h, old(generations[h].items), gens[h]);
        }
      }
    }

    /** Linking an unlinked object at the end of a generation appends its name. */
    method Attach(c: nat, g: nat, ghost gens: map<nat, seq<nat>>)
      requires SpellsGens(gens) && g in gens && Unlinked(c) && g in generations
      modifies generations[g], generations[g].items, contexts[c]
      ensures unchanged(this) && SpellsGens(gens[g := gens[g] + [c]])
      ensures forall e | e in contexts && e != c && old(Unlinked(e)) :: Unlinked(e)
    {
      ghost var all := set h | h in gens :: generations[h];
      assert forall h | h in gens :: SpellsGen(h, gens[h]);
      Join(generations[g], contexts[c], all);
      forall h | h in gens ensures SpellsGen(h, gens[g := gens[g] + [c]][h]) {
        assert generations[h] in all && old(SpellsGen(h, gens[h]));
        if h == g {
          ListedAppend(old(generations[g].items), gens[g], c);
          GenIs(g, old(generations[g].items) + [contexts[c]], gens[g] + [c]);
        } else {
          assert generations[h] != generations[g];
          GenIs(h, old(generations[h].items), gens[h]);
        }
      }
    }

    /** A context of the store that settles or expires: its object leaves its list. */
    method Settle(ctx: AskContext, ghost c: nat, ghost s: Store)
      requires Shaped(s) && Spells(s) && c in s.ctxs && s.ctxs[c].gen.Some?
      requires c in contexts && contexts[c] == ctx
      modifies ctx.gen, if ctx.gen == null then {} else set o | o in ctx.gen.items
      ensures unchanged(this) && s.ctxs[c].gen.value in s.gens && Spells(Detached(s, c))
    {
      ghost var k, t := Detaching(s, c);
      Detach(ctx, c, s.ctxs[c].gen.value, k, s.gens);
      forall e | e in t.ctxs && t.ctxs[e].gen == None ensures Unlinked(e) {
        assert e != c ==> old(Unlinked(e));
      }
      SpellsFromGens(t);
    }

    /** A context made for an ask that the pool has none for. */
    method Mint(c: nat, ghost s: Store)
      requires Spells(s) && c !in contexts
      modifies this
      ensures generations == old(generations) && contexts.Keys == old(contexts).Keys + {c}
      ensures Unlinked(c) && Spells(s) && fresh(contexts.Values - old(contexts.Values))
    {
      var made := new AskContext();
      assert forall g | g in s.gens :: SpellsGen(g, s.gens[g]);
      contexts := contexts[c := made];
      forall g | g in s.gens ensures SpellsGen(g, s.gens[g]) {
        assert old(SpellsGen(g, s.gens[g]));
        StillValid(generations[g]);
      }
    }

    /** A context armed for an ask: its object joins the young list of its duration. */
    method Enlist(c: nat, young: nat, ghost s: Store, ghost ask: nat, ghost d: real, ghost now: real)
      requires Shaped(s) && Spells(s) && d in s.lists && s.lists[d].young == young && young in generations
      requires Unlinked(c) && (c in s.ctxs ==> s.ctxs[c].gen == None)
      modifies generations[young], generations[young].items, contexts[c]
      ensures unchanged(this) && young in s.gens && Spells(Joined(s, c, ask, d, now))
    {
      assert forall e | e in s.ctxs && s.ctxs[e].gen == None :: Unlinked(e);
      JoinKeepsShape(s, c, ask, d, now);
      Attach(c, young, s.gens);
      SpellsFromGens(Joined(s, c, ask, d, now));
    }

    /** A new, empty list beside the others. */
    method Grow(g: nat, ghost gens: map<nat, seq<nat>>, ghost ctxs: map<nat, Ctx>)
      requires SpellsGens(gens) && SpellsCtxs(ctxs) && g !in generations
      modifies this
      ensures contexts == old(contexts) && generations.Keys == old(generations).Keys + {g}
      ensures SpellsGens(gens[g := []]) && SpellsCtxs(ctxs)
      ensures fresh(generations.Values - old(generations.Values))
      ensures forall e | old(Unlinked(e)) :: Unlinked(e)
    {
      var added := new AskGeneration();
      assert forall h | h in gens :: SpellsGen(h, gens[h]);
      generations := generations[g := added];
      forall h | h in gens && h != g ensures SpellsGen(h, gens[h]) {
        assert old(SpellsGen(h, gens[h]));
        StillValid(generations[h]);
      }
      assert SpellsGen(g, []);
    }

    /** A new duration: two empty lists. */
    method Open(d: real, young: nat, aged: nat, ghost s: Store)
      requires Spells(s) && young !in generations && aged !in generations && young != aged
      modifies this
      ensures contexts == old(contexts) && Spells(Opened(s, d, young, aged))
      ensures generations.Keys == old(generations).Keys + {young, aged}
      ensures fresh(generations.Values - old(generations.Values))
      ensures forall e | old(Unlinked(e)) :: Unlinked(e)
    {
      Grow(young, s.gens, s.ctxs);
      Grow(aged, s.gens[young := []], s.ctxs);
    }

    /** The head of a list is the object of its first name. */
    lemma HeadIsFirst(gens: map<nat, seq<nat>>, g: nat)
      requires SpellsGens(gens) && g in gens
      ensures g in generations
      ensures generations[g].head == null <==> gens[g] == []
      ensures gens[g] != [] ==>
        && gens[g][0] in contexts && contexts[gens[g][0]] == generations[g].head
        && generations[g].head.gen == generations[g] && (forall o | o in generations[g].items :: o in contexts.Values)
    {
      assert SpellsGen(g, gens[g]);
      if gens[g] != [] { assert generations[g].items[0] in generations[g].items; }
    }

    /** The timer of a duration's list fires: the old list expires head by head until it
        is empty, and the lists trade places, which moves no context. */
    method Sweep(d: real, aged: nat, ghost s: Store, ghost now: real)
      requires Shaped(s) && Spells(s) && d in s.lists && s.lists[d].aged == aged && aged in generations
      modifies generations[aged], contexts.Values
      ensures unchanged(this) && s.lists[d].young in s.gens && Spells(SweptStore(s, d, now))
    {
      ghost var t := s;
      HeadIsFirst(t.gens, aged);
      while generations[aged].head != null
        invariant Shaped(t) && Spells(t) && aged in t.gens && Expired(t, aged) == Expired(s, aged) && unchanged(this)
        invariant generations[aged].head == null <==> t.gens[aged] == []
        decreases |t.gens[aged]|
      {
        ghost var c := t.gens[aged][0];
        HeadIsFirst(t.gens, aged);
        ExpireOne(t, aged);
        Settle(generations[aged].head, c, t);
        t := Detached(t, c);
        HeadIsFirst(t.gens, aged);
      }
      ExpireNone(t, aged);
    }

    /** A live context's object is linked among the objects of its list. */
    lemma LinkedWithin(s: Store, c: nat)
      requires Shaped(s) && Spells(s) && c in s.ctxs && s.ctxs[c].live
      ensures s.ctxs[c].gen.Some? && c in contexts && contexts[c].gen != null
      ensures contexts[c].gen in generations.Values && forall o | o in contexts[c].gen.items :: o in contexts.Values
    {
      assert CtxOk(s, c);
      assert SpellsGen(s.ctxs[c].gen.value, s.gens[s.ctxs[c].gen.value]);
    }

    /** Names not given out yet stand for nothing. */
    ghost predicate Below(made: nat)
      reads this
    {
      (forall c | c in contexts :: c < made) && (forall g | g in generations :: g < made)
    }

    /** A live ask of a whole wheel settles: its object leaves its list. */
    method SettleLive(c: nat, ghost w: AskWheel)
      requires w.Valid() && Spells(w.store) && c in w.store.ctxs && w.store.ctxs[c].live
      modifies generations.Values, contexts.Values
      ensures unchanged(this) && w.store.ctxs[c].gen.Some? && w.store.ctxs[c].gen.value in w.store.gens
      ensures Spells(Detached(w.store, c))
    {
      WholeIsShaped(w.store, w.pool, w.lastDuration, w.made, w.arming, w.wheel);
      LinkedWithin(w.store, c);
      Settle(contexts[c], c, w.store);
    }

    lemma NamesBelow(gens: map<nat, seq<nat>>, made: nat)
      requires SpellsGens(gens) && Below(made)
      ensures forall g | g in gens :: g < made
    {
      forall g | g in gens ensures g < made { assert SpellsGen(g, gens[g]); }
    }

    /** A duration's lists, opened under two new names unless they are known. */
    method Ready(d: real, known: bool, first: nat, ghost s: Store)
      requires Shaped(s) && Spells(s) && Below(first) && known == (d in s.lists)
      modifies this
      ensures contexts == old(contexts) && Below(NextName(s, d, first))
      ensures Shaped(Readied(s, d, first)) && Spells(Readied(s, d, first))
      ensures fresh(generations.Values - old(generations.Values))
      ensures forall e | old(Unlinked(e)) :: Unlinked(e)
    {
      NamesBelow(s.gens, first);
      ReadiedShape(s, d, first);
      if !known {
        Open(d, first, first + 1, s);
      }
    }

    /** The contexts of a listed generation are among the contexts. */
    lemma ItemsWithin(gens: map<nat, seq<nat>>, g: nat)
      requires SpellsGens(gens) && g in gens
      ensures g in generations && generations[g] in generations.Values
      ensures forall o | o in generations[g].items :: o in contexts.Values
    {
      assert SpellsGen(g, gens[g]);
    }

    /** An unlinked context is armed for an ask. */
    method Request(c: nat, known: bool, d: real, first: nat, young: nat,
                   ghost s: Store, ghost ask: nat, ghost now: real)
      requires Shaped(s) && Spells(s) && known == (d in s.lists) && young == Readied(s, d, first).lists[d].young
      requires Unlinked(c) && (c in s.ctxs ==> s.ctxs[c].gen == None) && Below(first)
      modifies this, generations.Values, contexts.Values
      ensures Below(NextName(s, d, first)) && young in Readied(s, d, first).gens
      ensures Spells(Joined(Readied(s, d, first), c, ask, d, now))
    {
      Ready(d, known, first, s);
      ghost var r := Readied(s, d, first);
      ItemsWithin(r.gens, young);
      Enlist(c, young, r, ask, d, now);
    }

    /** The next context of a whole wheel, from its pool or new. */
    method Fetch(w: AskWheel) returns (c: nat, first: nat)
      requires w.Valid() && Spells(w.store) && Below(w.made)
      modifies this
      ensures generations == old(generations) && fresh(contexts.Values - old(contexts.Values))
      ensures c == NextContext(w.pool, w.made) && first == AfterContext(w.pool, w.made)
      ensures Spells(w.store) && Unlinked(c) && (c in w.store.ctxs ==> w.store.ctxs[c].gen == None) && Below(first)
    {
      if w.pool == [] {
        MintKeepsWhole(w.store, w.pool, w.lastDuration, w.made, w.arming, w.wheel);
        Mint(w.made, w.store);
        return w.made, w.made + 1;
      }
      PopKeepsWhole(w.store, w.pool, w.lastDuration, w.made, w.arming, w.wheel);
      return w.pool[|w.pool| - 1], w.made;
    }

    /** That context is armed for an ask. */
    method RequestFrom(timeout: real, now: real, w: AskWheel) returns (c: nat, ghost t: Store)
      requires w.Valid() && Spells(w.store) && Below(w.made)
      modifies this, generations.Values, contexts.Values
      ensures c == NextContext(w.pool, w.made) && Spells(t)
      ensures Enlisted(w.store, c, w.arming, timeout, now, AfterContext(w.pool, w.made), t)
      ensures Below(NextName(w.store, timeout, AfterContext(w.pool, w.made)))
    {
      var first;
      c, first := Fetch(w);
      WholeIsShaped(w.store, w.pool, w.lastDuration, w.made, w.arming, w.wheel);
      var known := timeout in w.store.lists;
      var young := if known then w.store.lists[timeout].young else first;
      Request(c, known, timeout, first, young, w.store, w.arming, now);
      ghost var r := Readied(w.store, timeout, first);
      t := Joined(r, c, w.arming, timeout, now);
      EnlistedBy(w.store, c, w.arming, timeout, now, first, r, t);
    }

    /** The old list of a whole wheel's duration expires. */
    method SweepIn(d: real, now: real, w: AskWheel)
      requires w.Valid() && Spells(w.store) && d in w.store.lists
      modifies generations.Values, contexts.Values
      ensures unchanged(this) && w.store.lists[d].young in w.store.gens && Spells(SweptStore(w.store, d, now))
    {
      WholeIsShaped(w.store, w.pool, w.lastDuration, w.made, w.arming, w.wheel);
      ItemsWithin(w.store.gens, w.store.lists[d].aged);
      Sweep(d, w.store.lists[d].aged, w.store, now);
    }

    /** The links spell out a store for as long as none of the objects changes. */
    twostate lemma StillSpells(s: Store)
      requires old(Spells(s)) && unchanged(this)
      requires forall g | g in generations ::
        unchanged(generations[g]) && forall o | o in generations[g].items :: unchanged(o)
      requires forall c | c in contexts :: unchanged(contexts[c])
      ensures Spells(s)
    {
      forall g | g in s.gens ensures SpellsGen(g, s.gens[g]) {
        assert old(SpellsGen(g, s.gens[g]));
        StillValid(generations[g]);
      }
    }
  }

  /** The wheel together with the objects its names stand for. Each operation first
      moves the objects and then the wheel, which takes on the store they spell out. */
  class LinkedWheel {
    const wheel: AskWheel
    const links: Linked

    /** The wheel is whole, and its lists are linked through their contexts. */
    ghost predicate Valid()
      reads *
    {
      wheel.Valid() && links.Spells(wheel.store) && links.Below(wheel.made)
    }

    constructor ()
      ensures Valid() && wheel.wheel == EMPTY
    {
      wheel := new AskWheel();
      links := new Linked();
    }

    method FollowSettle(c: nat, outcome: Outcome, now: real, ghost t: Store) returns (settled: bool)
      requires wheel.Valid() && links.Spells(t) && links.Below(wheel.made) && c in wheel.store.ctxs
      requires var x := wheel.store.ctxs[c];
        if x.live then x.gen.Some? && x.gen.value in wheel.store.gens && t == Detached(wheel.store, c)
        else t == wheel.store
      modifies wheel
      ensures Valid() && settled == old(wheel.store.ctxs[c].live)
      ensures wheel.wheel == if settled then Settle(old(wheel.wheel), old(wheel.store).ctxs[c].ask, outcome, now)
                             else old(wheel.wheel)
      ensures settled ==> Fated(wheel.wheel, old(wheel.store).ctxs[c].ask, Some(Fate(outcome, now)))
    {
      settled := wheel.SettleAsk(c, outcome, now);
      links.StillSpells(t);
    }

    /** An answered, rejected or cancelled ask: its object leaves its list. */
    method SettleAsk(c: nat, outcome: Outcome, now: real) returns (settled: bool)
      requires Valid() && c in wheel.store.ctxs
      modifies wheel, links.generations.Values, links.contexts.Values
      ensures Valid() && settled == old(wheel.store.ctxs[c].live)
      ensures wheel.wheel == if settled then Settle(old(wheel.wheel), old(wheel.store).ctxs[c].ask, outcome, now)
                             else old(wheel.wheel)
      ensures settled ==> Fated(wheel.wheel, old(wheel.store).ctxs[c].ask, Some(Fate(outcome, now)))
    {
      ghost var t := wheel.store;
      if wheel.store.ctxs[c].live {
        links.SettleLive(c, wheel);
        t := Detached(t, c);
      }
      settled := FollowSettle(c, outcome, now, t);
    }

    method FollowCreate(timeout: real, now: real, ghost t: Store) returns (c: nat)
      requires wheel.Valid() && links.Spells(t)
      requires Enlisted(wheel.store, NextContext(wheel.pool, wheel.made), wheel.arming, timeout, now,
                        AfterContext(wheel.pool, wheel.made), t)
      requires links.Below(NextName(wheel.store, timeout, AfterContext(wheel.pool, wheel.made)))
      modifies wheel
      ensures Valid() && wheel.wheel == Enlist(old(wheel.wheel), old(wheel.arming), timeout, now)
      ensures c in wheel.store.ctxs && wheel.store.ctxs[c].live && wheel.store.ctxs[c].ask == old(wheel.arming)
    {
      c := wheel.CreateRequest(timeout, now);
      links.StillSpells(t);
    }

    /** A pooled or new context is armed and linked at the end of its young list. */
    method CreateRequest(timeout: real, now: real) returns (c: nat)
      requires Valid()
      modifies wheel, links, links.generations.Values, links.contexts.Values
      ensures Valid() && wheel.wheel == Enlist(old(wheel.wheel), old(wheel.arming), timeout, now)
      ensures c in wheel.store.ctxs && wheel.store.ctxs[c].live && wheel.store.ctxs[c].ask == old(wheel.arming)
    {
      ghost var t;
      c, t := links.RequestFrom(timeout, now, wheel);
      c := FollowCreate(timeout, now, t);
    }

    method FollowSweep(d: real, now: real, ghost t: Store)
      requires wheel.Valid() && links.Spells(t) && links.Below(wheel.made) && d in wheel.store.lists
      requires wheel.store.lists[d].young in wheel.store.gens && t == SweptStore(wheel.store, d, now)
      modifies wheel
      ensures Valid() && d in old(wheel.wheel).lists && wheel.wheel == Sweep(old(wheel.wheel), d, now)
    {
      wheel.SweepAsks(d, now);
      links.StillSpells(t);
    }

    /** The timer of a duration's list fires. */
    method SweepAsks(d: real, now: real)
      requires Valid() && d in wheel.store.lists
      modifies wheel, links.generations.Values, links.contexts.Values
      ensures Valid() && d in old(wheel.wheel).lists && wheel.wheel == Sweep(old(wheel.wheel), d, now)
    {
      links.SweepIn(d, now, wheel);
      FollowSweep(d, now, SweptStore(wheel.store, d, now));
    }
  }
}
