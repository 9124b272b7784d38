/**
 The ask timeout wheel as the runtime keeps it: pooled contexts, each pointing at the
 generation that holds it, two generations per duration that trade places at every
 sweep. A generation is named by a number and stands for its list of contexts, whose
 linked form is `AskGenerations`. Every operation refines its counterpart in
 `AskTimeouts`.
 */
module AskWheel {
  import opened Common
  import opened AskTimeouts

  const ASK_POOL_LIMIT := 256

  /** A context: whether its reply channel is there, the generation that holds it, and
      which arming of it is current. */
  datatype Ctx = Ctx(live: bool, gen: Option<nat>, ask: nat)

  /** The pending asks that share one duration. */
  datatype Lists = Lists(young: nat, aged: nat, timer: Option<real>)

  /** Contexts, generations and lists. */
  datatype Store = Store(ctxs: map<nat, Ctx>, gens: map<nat, seq<nat>>, lists: map<real, Lists>)

  /** A context is in the generation it points at and live, or in none and settled. */
  predicate CtxOk(s: Store, c: nat)
    requires c in s.ctxs
  {
    match s.ctxs[c].gen
    case None => !s.ctxs[c].live
    case Some(g) => s.ctxs[c].live && g in s.gens && c in s.gens[g]
  }

  predicate GenOk(s: Store, g: nat)
    requires g in s.gens
  {
    && (forall c | c in s.gens[g] :: c in s.ctxs && s.ctxs[c].gen == Some(g))
    && (forall i, j | 0 <= i < j < |s.gens[g]| :: s.gens[g][i] != s.gens[g][j])
  }

  predicate Apart(a: Lists, b: Lists) {
    a.young != b.young && a.young != b.aged && a.aged != b.young && a.aged != b.aged
  }

  predicate Shaped(s: Store) {
    && (forall c | c in s.ctxs :: CtxOk(s, c))
    && (forall g | g in s.gens :: GenOk(s, g))
    && (forall d | d in s.lists :: s.lists[d].young in s.gens && s.lists[d].aged in s.gens
                                   && s.lists[d].young != s.lists[d].aged)
    && (forall d, e | d in s.lists && e in s.lists && d != e :: Apart(s.lists[d], s.lists[e]))
  }

  /** `asks` lists the current armings of the contexts. */
  predicate Armings(ctxs: map<nat, Ctx>, items: seq<nat>, asks: seq<nat>) {
    |asks| == |items| && forall i | 0 <= i < |items| :: items[i] in ctxs && ctxs[items[i]].ask == asks[i]
  }

  predicate Means(s: Store, w: Wheel, d: real)
    requires d in s.lists
  {
    var l := s.lists[d];
    && d in w.lists && l.young in s.gens && l.aged in s.gens && w.lists[d].timer == l.timer
    && Armings(s.ctxs, s.gens[l.young], w.lists[d].young) && Armings(s.ctxs, s.gens[l.aged], w.lists[d].aged)
  }

  predicate Home(s: Store, w: Wheel, c: nat)
    requires c in s.ctxs
  {
    s.ctxs[c].gen.Some? ==>
      && s.ctxs[c].ask in w.sent && w.sent[s.ctxs[c].ask].duration in s.lists
      && var l := s.lists[w.sent[s.ctxs[c].ask].duration]; s.ctxs[c].gen.value in {l.young, l.aged}
  }

  /** The store means the wheel. */
  predicate Faithful(s: Store, w: Wheel) {
    && s.lists.Keys == w.lists.Keys
    && (forall d | d in s.lists :: Means(s, w, d))
    && (forall c | c in s.ctxs :: Home(s, w, c))
  }

  /** Well-shaped, faithful to the wheel, and every ask in one place. */
  ghost predicate Sound(s: Store, w: Wheel) {
    true == forall t {:trigger Look(t)} :: Look(t) ==> Shaped(s) && Faithful(s, w) && AllOnce(w)
  }

  /** Always true, and mentioned only where a definition is to be looked into. The big
      predicates here are quantified over a token that this one guards, so that they
      pass through a proof as names, and `assert Look(0)` is what unfolds them; the
      `true ==` in front keeps a goal of that form from being taken apart. */
  predicate Look(t: int) { true }

  /** Pooled contexts are settled and unlinked, and none is pooled twice; the cached
      duration has a list; armings count up. */
  ghost predicate Kept(s: Store, pool: seq<nat>, last: Option<real>, arming: nat, w: Wheel) {
    var ctxs, lists := s.ctxs, s.lists;
    true == forall t {:trigger Look(t)} :: Look(t) ==>
      && |pool| <= ASK_POOL_LIMIT
      && (forall i | 0 <= i < |pool| :: pool[i] in ctxs && ctxs[pool[i]].gen == None)
      && (forall i, j | 0 <= i < j < |pool| :: pool[i] != pool[j])
      && (last.Some? ==> last.value in lists)
      && (forall id | id in w.sent :: id < arming)
  }

  /** Names given out so far are below `made`. */
  ghost predicate Named(s: Store, made: nat) {
    true == forall t {:trigger Look(t)} :: Look(t) ==>
      (forall c | c in s.ctxs :: c < made) && (forall g | g in s.gens :: g < made)
  }

  /** The list of contexts without one of them. */
  function Removed(s: seq<nat>, c: nat): seq<nat> {
    if s == [] then [] else if s[0] == c then s[1..] else [s[0]] + Removed(s[1..], c)
  }

  lemma {:induction false} RemovedAt(s: seq<nat>, k: nat)
    requires k < |s| && forall i, j | 0 <= i < j < |s| :: s[i] != s[j]
    ensures Removed(s, s[k]) == Without(s, k)
  {
    if k > 0 {
      assert s[1..][k - 1] == s[k] && s[0] != s[k];
      RemovedAt(s[1..], k - 1);
    }
  }

  /** A context loses its reply channel and leaves its generation. */
  function Detached(s: Store, c: nat): Store
    requires c in s.ctxs && s.ctxs[c].gen.Some? && s.ctxs[c].gen.value in s.gens
  {
    var g := s.ctxs[c].gen.value;
    s.(ctxs := s.ctxs[c := s.ctxs[c].(live := false, gen := None)], gens := s.gens[g := Removed(s.gens[g], c)])
  }

  lemma WithoutMembers<T>(s: seq<T>, k: nat)
    requires k < |s| && forall i, j | 0 <= i < j < |s| :: s[i] != s[j]
    ensures forall x :: x in Without(s, k) <==> x in s && x != s[k]
  {
    forall x | x in s && x != s[k] ensures x in Without(s, k) {
      var i :| 0 <= i < |s| && s[i] == x;
      assert i < k ==> Without(s, k)[i] == x;
      assert i > k ==> Without(s, k)[i - 1] == x;
    }
  }

  lemma RemovedFacts(s: seq<nat>, k: nat)
    requires k < |s| && forall i, j | 0 <= i < j < |s| :: s[i] != s[j]
    ensures forall i, j | 0 <= i < j < |Removed(s, s[k])| :: Removed(s, s[k])[i] != Removed(s, s[k])[j]
    ensures forall x :: x in Removed(s, s[k]) <==> x in s && x != s[k]
  {
    RemovedAt(s, k);
    WithoutMembers(s, k);
  }

  lemma DetachKeepsGens(s: Store, c: nat, k: nat, h: nat)
    requires Shaped(s) && c in s.ctxs && s.ctxs[c].gen.Some? && s.ctxs[c].gen.value in s.gens && h in s.gens
    requires k < |s.gens[s.ctxs[c].gen.value]| && s.gens[s.ctxs[c].gen.value][k] == c
    ensures GenOk(Detached(s, c), h)
    ensures forall x :: x in Detached(s, c).gens[h] <==> x in s.gens[h] && x != c
  {
    assert GenOk(s, h);
    if h == s.ctxs[c].gen.value {
      RemovedFacts(s.gens[h], k);
    }
  }

  lemma DetachKeepsShape(s: Store, c: nat, k: nat)
    requires Shaped(s) && c in s.ctxs && s.ctxs[c].gen.Some? && s.ctxs[c].gen.value in s.gens
    requires k < |s.gens[s.ctxs[c].gen.value]| && s.gens[s.ctxs[c].gen.value][k] == c
    ensures Shaped(Detached(s, c))
  {
    var t := Detached(s, c);
    forall h | h in t.gens ensures GenOk(t, h) { DetachKeepsGens(s, c, k, h); }
    forall x | x in t.ctxs ensures CtxOk(t, x) {
      assert CtxOk(s, x);
      if x != c && s.ctxs[x].gen.Some? { DetachKeepsGens(s, c, k, s.ctxs[x].gen.value); }
    }
  }

  /** Where in its generation a linked context is. */
  predicate At(s: Store, c: nat, k: nat) {
    && c in s.ctxs && s.ctxs[c].gen.Some? && s.ctxs[c].gen.value in s.gens
    && k < |s.gens[s.ctxs[c].gen.value]| && s.gens[s.ctxs[c].gen.value][k] == c
  }

  /** The list of asks with the `k`-th ask of one generation taken out. */
  predicate TakenOut(l: AskList, young: bool, k: nat, r: AskList) {
    && r.timer == l.timer
    && (if young then k < |l.young| && r.young == Without(l.young, k) && r.aged == l.aged
        else k < |l.aged| && r.aged == Without(l.aged, k) && r.young == l.young)
  }

  lemma ArmingsFrame(ctxs: map<nat, Ctx>, ctxs': map<nat, Ctx>, items: seq<nat>, asks: seq<nat>)
    requires Armings(ctxs, items, asks)
    requires forall c | c in ctxs && c in items :: c in ctxs' && ctxs'[c].ask == ctxs[c].ask
    ensures Armings(ctxs', items, asks)
  {
  }

  lemma ArmingsWithout(ctxs: map<nat, Ctx>, items: seq<nat>, asks: seq<nat>, k: nat)
    requires Armings(ctxs, items, asks) && k < |items|
    ensures Armings(ctxs, Without(items, k), Without(asks, k))
  {
  }

  lemma DetachKeepsMeaning(s: Store, w: Wheel, c: nat, k: nat, w': Wheel, d: real)
    requires Shaped(s) && Faithful(s, w) && At(s, c, k) && d in s.lists && w'.sent == w.sent
    requires var home := w.sent[s.ctxs[c].ask].duration;
             && w'.lists.Keys == w.lists.Keys
             && TakenOut(w.lists[home], s.ctxs[c].gen.value == s.lists[home].young, k, w'.lists[home])
             && (d != home ==> w'.lists[d] == w.lists[d])
    ensures Means(Detached(s, c), w', d)
  {
    assert Means(s, w, d) && Home(s, w, c);
    var home, l := w.sent[s.ctxs[c].ask].duration, s.lists[d];
    var t, g := Detached(s, c), s.ctxs[c].gen.value;
    ArmingsFrame(s.ctxs, t.ctxs, s.gens[l.young], w.lists[d].young);
    ArmingsFrame(s.ctxs, t.ctxs, s.gens[l.aged], w.lists[d].aged);
    assert GenOk(s, g);
    RemovedAt(s.gens[g], k);
    if d != home {
      assert Apart(s.lists[d], s.lists[home]);
    } else if g == l.young {
      ArmingsWithout(t.ctxs, s.gens[l.young], w.lists[d].young, k);
    } else {
      ArmingsWithout(t.ctxs, s.gens[l.aged], w.lists[d].aged, k);
    }
  }

  lemma DetachKeepsFaith(s: Store, w: Wheel, c: nat, k: nat, w': Wheel)
    requires Shaped(s) && Faithful(s, w) && At(s, c, k) && w'.sent == w.sent
    requires var home := w.sent[s.ctxs[c].ask].duration;
             && w'.lists.Keys == w.lists.Keys
             && TakenOut(w.lists[home], s.ctxs[c].gen.value == s.lists[home].young, k, w'.lists[home])
             && (forall d | d in w.lists && d != home :: w'.lists[d] == w.lists[d])
    ensures Faithful(Detached(s, c), w')
  {
    var t := Detached(s, c);
    forall d | d in t.lists ensures Means(t, w', d) { DetachKeepsMeaning(s, w, c, k, w', d); }
    forall x | x in t.ctxs ensures Home(t, w', x) { assert Home(s, w, x); }
  }

  /** Dropping the only occurrence of an arming is dropping its context. */
  lemma DropIsWithout(s: seq<nat>, k: nat)
    requires k < |s| && multiset(s)[s[k]] <= 1
    ensures Drop(s, s[k]) == Without(s, k)
  {
    var j :| 0 <= j < |s| && s[j] == s[k] && Drop(s, s[k]) == s[..j] + s[j + 1..];
    if j < k { TwiceCounts(s, j, k); }
    if k < j { TwiceCounts(s, k, j); }
  }

  /** Settling an ask takes it out of the one generation that holds it. */
  lemma SettleTakesOut(w: Wheel, id: nat, outcome: Outcome, now: real, young: bool, k: nat)
    requires Once(w, id) && id in w.sent && w.sent[id].duration in w.lists
    requires var l := w.lists[w.sent[id].duration];
             if young then k < |l.young| && l.young[k] == id else k < |l.aged| && l.aged[k] == id
    ensures Pending(w, id)
    ensures TakenOut(w.lists[w.sent[id].duration], young, k, Settle(w, id, outcome, now).lists[w.sent[id].duration])
  {
    var l := w.lists[w.sent[id].duration];
    assert Waiting(l, id) <= 1;
    assert id in (if young then l.young else l.aged);
    if young {
      assert multiset(l.young)[id] == 1 && id !in l.aged;
      DropIsWithout(l.young, k);
    } else {
      assert multiset(l.aged)[id] == 1 && id !in l.young;
      DropIsWithout(l.aged, k);
    }
  }

  /** A live context's place in its generation is its ask's place in the wheel. */
  lemma Located(s: Store, w: Wheel, c: nat) returns (k: nat)
    requires Shaped(s) && Faithful(s, w) && c in s.ctxs && s.ctxs[c].live
    ensures At(s, c, k) && s.ctxs[c].ask in w.sent
    ensures var id := s.ctxs[c].ask;
            var d := w.sent[id].duration;
            && d in s.lists && d in w.lists
            && if s.ctxs[c].gen.value == s.lists[d].young then k < |w.lists[d].young| && w.lists[d].young[k] == id
               else k < |w.lists[d].aged| && w.lists[d].aged[k] == id
  {
    assert CtxOk(s, c) && Home(s, w, c);
    var g := s.ctxs[c].gen.value;
    k :| 0 <= k < |s.gens[g]| && s.gens[g][k] == c;
    assert Means(s, w, w.sent[s.ctxs[c].ask].duration);
  }

  lemma SettleFrame(w: Wheel, id: nat, outcome: Outcome, now: real)
    requires Pending(w, id)
    ensures var t := Settle(w, id, outcome, now);
            && t.sent == w.sent && t.lists.Keys == w.lists.Keys
            && (forall d | d in w.lists && d != w.sent[id].duration :: t.lists[d] == w.lists[d])
  {
  }

  lemma SettleKeepsFaith(s: Store, w: Wheel, c: nat, outcome: Outcome, now: real)
    requires Shaped(s) && Faithful(s, w) && c in s.ctxs && s.ctxs[c].live && Once(w, s.ctxs[c].ask)
    ensures s.ctxs[c].gen.Some? && s.ctxs[c].gen.value in s.gens
    ensures Faithful(Detached(s, c), Settle(w, s.ctxs[c].ask, outcome, now))
  {
    var k := Located(s, w, c);
    var id := s.ctxs[c].ask;
    SettleTakesOut(w, id, outcome, now, s.ctxs[c].gen.value == s.lists[w.sent[id].duration].young, k);
    SettleFrame(w, id, outcome, now);
    DetachKeepsFaith(s, w, c, k, Settle(w, id, outcome, now));
  }

  lemma SettleKeepsSound(s: Store, w: Wheel, c: nat, outcome: Outcome, now: real)
    requires Sound(s, w) && c in s.ctxs && s.ctxs[c].live
    ensures s.ctxs[c].gen.Some? && s.ctxs[c].gen.value in s.gens
    ensures Sound(Detached(s, c), Settle(w, s.ctxs[c].ask, outcome, now))
    ensures Fated(Settle(w, s.ctxs[c].ask, outcome, now), s.ctxs[c].ask, Some(Fate(outcome, now)))
  {
    assert Look(0);
    var k := Located(s, w, c);
    DetachKeepsShape(s, c, k);
    assert Once(w, s.ctxs[c].ask);
    SettleKeepsFaith(s, w, c, outcome, now);
    SettleKeepsAllOnce(w, s.ctxs[c].ask, outcome, now);
  }

  lemma DetachKeepsKept(s: Store, pool: seq<nat>, last: Option<real>, arming: nat, w: Wheel, made: nat, c: nat)
    requires Kept(s, pool, last, arming, w) && Named(s, made)
    requires c in s.ctxs && s.ctxs[c].gen.Some? && s.ctxs[c].gen.value in s.gens
    ensures Kept(Detached(s, c), pool, last, arming, w) && Named(Detached(s, c), made)
  {
    assert Look(0);
  }

  /** What is kept about a wheel is only what it has sent. */
  lemma KeptBySent(s: Store, pool: seq<nat>, last: Option<real>, arming: nat, w: Wheel, w': Wheel)
    requires Kept(s, pool, last, arming, w) && w'.sent == w.sent
    ensures Kept(s, pool, last, arming, w')
  {
    assert Look(0);
  }

  lemma OpenKeepsKept(s: Store, pool: seq<nat>, last: Option<real>, arming: nat, w: Wheel, made: nat, d: real)
    requires Kept(s, pool, last, arming, w) && Named(s, made)
    ensures Kept(Opened(s, d, made, made + 1), pool, last, arming, w) && Named(Opened(s, d, made, made + 1), made + 2)
    ensures made !in s.gens && made + 1 !in s.gens && made !in s.ctxs
  {
    assert Look(0);
  }

  lemma JoinKeepsKept(s: Store, pool: seq<nat>, last: Option<real>, arming: nat, w: Wheel, made: nat,
                      c: nat, d: real, now: real)
    requires Kept(s, pool, last, arming, w) && Named(s, made) && c < made && c !in pool
    requires d in s.lists && s.lists[d].young in s.gens
    ensures Kept(Joined(s, c, arming, d, now), pool, Some(d), arming + 1, Enlist(w, arming, d, now))
    ensures Named(Joined(s, c, arming, d, now), made)
  {
    assert Look(0);
  }

  /** A store with an empty list for a new duration. */
  function Opened(s: Store, d: real, young: nat, aged: nat): Store {
    s.(gens := s.gens[young := []][aged := []], lists := s.lists[d := Lists(young, aged, None)])
  }

  /** The store once it has a list for a duration, made with the next two names if need be. */
  function Readied(s: Store, d: real, made: nat): Store {
    if d in s.lists then s else Opened(s, d, made, made + 1)
  }

  function NextName(s: Store, d: real, made: nat): nat {
    if d in s.lists then made else made + 2
  }

  /** The context the next ask gets: the last one pooled, or a new one. */
  function NextContext(pool: seq<nat>, made: nat): nat {
    if pool == [] then made else pool[|pool| - 1]
  }

  function AfterContext(pool: seq<nat>, made: nat): nat {
    if pool == [] then made + 1 else made
  }

  /** The store once a context is armed for an ask of some duration. */
  predicate Enlisted(s: Store, c: nat, ask: nat, d: real, now: real, made: nat, t: Store) {
    var r := Readied(s, d, made);
    d in r.lists && r.lists[d].young in r.gens && t == Joined(r, c, ask, d, now)
  }

  lemma EnlistedBy(s: Store, c: nat, ask: nat, d: real, now: real, made: nat, r: Store, t: Store)
    requires r == Readied(s, d, made) && d in r.lists && r.lists[d].young in r.gens && t == Joined(r, c, ask, d, now)
    ensures Enlisted(s, c, ask, d, now, made, t)
  {
  }

  function OpenedWheel(w: Wheel, d: real): Wheel {
    w.(lists := w.lists[d := AskList([], [], None)])
  }

  lemma OpenKeepsShape(s: Store, d: real, young: nat, aged: nat)
    requires Shaped(s) && d !in s.lists && young !in s.gens && aged !in s.gens && young != aged
    ensures Shaped(Opened(s, d, young, aged))
  {
    var t := Opened(s, d, young, aged);
    forall c | c in t.ctxs ensures CtxOk(t, c) { assert CtxOk(s, c); }
    forall g | g in t.gens ensures GenOk(t, g) { if g in s.gens { assert GenOk(s, g); } }
  }

  lemma OpenKeepsFaith(s: Store, w: Wheel, d: real, young: nat, aged: nat)
    requires Shaped(s) && Faithful(s, w) && d !in s.lists && young !in s.gens && aged !in s.gens && young != aged
    ensures Faithful(Opened(s, d, young, aged), OpenedWheel(w, d))
  {
    var t, v := Opened(s, d, young, aged), OpenedWheel(w, d);
    forall c | c in t.ctxs ensures Home(t, v, c) { assert Home(s, w, c); }
    forall e | e in t.lists ensures Means(t, v, e) { if e in s.lists { assert Means(s, w, e); } }
  }

  lemma OpenKeepsSound(s: Store, w: Wheel, d: real, young: nat, aged: nat)
    requires Sound(s, w) && d !in s.lists && young !in s.gens && aged !in s.gens && young != aged
    ensures Sound(Opened(s, d, young, aged), OpenedWheel(w, d))
  {
    assert Look(0);
    var v := OpenedWheel(w, d);
    OpenKeepsShape(s, d, young, aged);
    OpenKeepsFaith(s, w, d, young, aged);
    forall id ensures Once(v, id) { assert Once(w, id); }
  }

  /** A context armed for a new ask joins the young generation of its duration, whose
      timer runs if it did not already. */
  function Joined(s: Store, c: nat, ask: nat, d: real, now: real): Store
    requires d in s.lists && s.lists[d].young in s.gens
  {
    var l := s.lists[d];
    Store(s.ctxs[c := Ctx(true, Some(l.young), ask)], s.gens[l.young := s.gens[l.young] + [c]],
          s.lists[d := l.(timer := if l.timer.None? then Some(now + d) else l.timer)])
  }

  lemma JoinKeepsShape(s: Store, c: nat, ask: nat, d: real, now: real)
    requires Shaped(s) && d in s.lists && (c in s.ctxs ==> s.ctxs[c].gen == None)
    ensures Shaped(Joined(s, c, ask, d, now))
  {
    var t, y := Joined(s, c, ask, d, now), s.lists[d].young;
    assert GenOk(s, y);
    assert c !in s.gens[y];
    assert (s.gens[y] + [c])[|s.gens[y]|] == c;
    forall x | x in t.ctxs ensures CtxOk(t, x) {
      if x != c {
        assert CtxOk(s, x);
        assert forall i | 0 <= i < |s.gens[y]| :: (s.gens[y] + [c])[i] == s.gens[y][i];
      }
    }
    forall g | g in t.gens ensures GenOk(t, g) {
      assert GenOk(s, g);
    }
    forall e | e in t.lists ensures t.lists[e].young == s.lists[e].young && t.lists[e].aged == s.lists[e].aged {}
    forall e, f | e in t.lists && f in t.lists && e != f ensures Apart(t.lists[e], t.lists[f]) {
      assert Apart(s.lists[e], s.lists[f]);
    }
  }

  lemma JoinKeepsMeaning(s: Store, w: Wheel, c: nat, ask: nat, d: real, now: real, e: real)
    requires Shaped(s) && Faithful(s, w) && d in s.lists && e in s.lists && (c in s.ctxs ==> s.ctxs[c].gen == None)
    ensures Means(Joined(s, c, ask, d, now), Enlist(w, ask, d, now), e)
  {
    assert Means(s, w, e) && Means(s, w, d);
    var l, t := s.lists[e], Joined(s, c, ask, d, now);
    assert GenOk(s, l.young) && GenOk(s, l.aged);
    ArmingsFrame(s.ctxs, t.ctxs, s.gens[l.young], w.lists[e].young);
    ArmingsFrame(s.ctxs, t.ctxs, s.gens[l.aged], w.lists[e].aged);
    if e != d { assert Apart(l, s.lists[d]); }
  }

  lemma JoinKeepsFaith(s: Store, w: Wheel, c: nat, ask: nat, d: real, now: real)
    requires Shaped(s) && Faithful(s, w) && d in s.lists && (c in s.ctxs ==> s.ctxs[c].gen == None) && ask !in w.sent
    ensures Faithful(Joined(s, c, ask, d, now), Enlist(w, ask, d, now))
  {
    var t, v := Joined(s, c, ask, d, now), Enlist(w, ask, d, now);
    forall e | e in t.lists ensures Means(t, v, e) { JoinKeepsMeaning(s, w, c, ask, d, now, e); }
    forall x | x in t.ctxs ensures Home(t, v, x) {
      if x != c { assert Home(s, w, x); }
    }
  }

  lemma JoinKeepsSound(s: Store, w: Wheel, c: nat, ask: nat, d: real, now: real)
    requires Sound(s, w) && d in s.lists && (c in s.ctxs ==> s.ctxs[c].gen == None) && ask !in w.sent
    ensures s.lists[d].young in s.gens && Sound(Joined(s, c, ask, d, now), Enlist(w, ask, d, now))
  {
    assert Look(0);
    JoinKeepsShape(s, c, ask, d, now);
    JoinKeepsFaith(s, w, c, ask, d, now);
    forall id ensures Once(Enlist(w, ask, d, now), id) {
      assert Once(w, id) && Once(w, ask);
      EnlistKeepsOnce(w, ask, d, now, id);
    }
  }

  /** The wheel in the middle of a sweep: `i` asks of the old generation have expired. */
  function Sweeping(w: Wheel, d: real, i: nat, now: real): Wheel
    requires d in w.lists && i <= |w.lists[d].aged|
  {
    var l := w.lists[d];
    w.(lists := w.lists[d := AskList(l.young, l.aged[i..], None)], log := w.log + l.aged[..i],
       fates := w.fates + Expiries(l.aged[..i], now))
  }

  /** The oldest pending context expires: the sweep has come one ask further. */
  lemma ExpireKeepsFaith(s: Store, w: Wheel, d: real, i: nat, now: real)
    requires d in w.lists && i < |w.lists[d].aged|
    requires Shaped(s) && Faithful(s, Sweeping(w, d, i, now))
    ensures d in s.lists && s.lists[d].aged in s.gens && s.gens[s.lists[d].aged] != []
    ensures var c := s.gens[s.lists[d].aged][0];
            && c in s.ctxs && s.ctxs[c].gen == Some(s.lists[d].aged) && s.ctxs[c].ask == w.lists[d].aged[i]
            && Shaped(Detached(s, c)) && Faithful(Detached(s, c), Sweeping(w, d, i + 1, now))
  {
    var v, v' := Sweeping(w, d, i, now), Sweeping(w, d, i + 1, now);
    assert Means(s, v, d);
    var g := s.lists[d].aged;
    var c := s.gens[g][0];
    assert GenOk(s, g) && Home(s, v, c);
    var home := v.sent[s.ctxs[c].ask].duration;
    assert home == d;
    assert v'.lists[d].aged == Without(v.lists[d].aged, 0);
    DetachKeepsShape(s, c, 0);
    DetachKeepsFaith(s, v, c, 0, v');
  }

  /** Every context of a generation loses its reply channel and leaves. */
  function Expired(s: Store, g: nat): Store {
    Store(map c | c in s.ctxs :: if s.ctxs[c].gen == Some(g) then s.ctxs[c].(live := false, gen := None) else s.ctxs[c],
          s.gens[g := []], s.lists)
  }

  /** One context at a time leads to the same store. */
  lemma ExpireOne(s: Store, g: nat)
    requires Shaped(s) && g in s.gens && s.gens[g] != []
    ensures var c := s.gens[g][0];
      && c in s.ctxs && s.ctxs[c].gen == Some(g)
      && Shaped(Detached(s, c)) && Expired(Detached(s, c), g) == Expired(s, g)
      && Detached(s, c).lists == s.lists && Detached(s, c).gens == s.gens[g := s.gens[g][1..]]
  {
    assert GenOk(s, g);
    RemovedAt(s.gens[g], 0);
    DetachKeepsShape(s, s.gens[g][0], 0);
  }

  lemma ExpireNone(s: Store, g: nat)
    requires Shaped(s) && g in s.gens && s.gens[g] == []
    ensures Expired(s, g) == s
  {
    forall c | c in s.ctxs ensures s.ctxs[c].gen != Some(g) { assert CtxOk(s, c); }
  }

  /** The generations of a list trade places. */
  function Swapped(s: Store, d: real, now: real): Store
    requires d in s.lists && s.lists[d].young in s.gens
  {
    var l := s.lists[d];
    s.(lists := s.lists[d := Lists(l.aged, l.young, if s.gens[l.young] == [] then None else Some(now + d))])
  }

  /** What a sweep makes of the store: the old generation expires, and the generations
      trade places. */
  function SweptStore(s: Store, d: real, now: real): Store
    requires d in s.lists && s.lists[d].young in s.gens
  {
    Swapped(Expired(s, s.lists[d].aged), d, now)
  }

  lemma SwapKeepsShape(s: Store, d: real, now: real)
    requires Shaped(s) && d in s.lists
    ensures Shaped(Swapped(s, d, now))
  {
    var t := Swapped(s, d, now);
    forall c | c in t.ctxs ensures CtxOk(t, c) { assert CtxOk(s, c); }
    forall g | g in t.gens ensures GenOk(t, g) { assert GenOk(s, g); }
    forall e, f | e in t.lists && f in t.lists && e != f ensures Apart(t.lists[e], t.lists[f]) {
      assert Apart(s.lists[e], s.lists[f]);
    }
  }

  lemma SwapKeepsFaith(s: Store, w: Wheel, d: real, now: real)
    requires d in w.lists && Shaped(s) && Faithful(s, Sweeping(w, d, |w.lists[d].aged|, now))
    ensures d in s.lists && Faithful(Swapped(s, d, now), Sweep(w, d, now))
  {
    var v, t, u := Sweeping(w, d, |w.lists[d].aged|, now), Swapped(s, d, now), Sweep(w, d, now);
    forall e | e in t.lists ensures Means(t, u, e) { assert Means(s, v, e); }
    forall c | c in t.ctxs ensures Home(t, u, c) { assert Home(s, v, c); }
  }

  /** Everything the wheel keeps, behind one name. */
  ghost predicate Whole(s: Store, pool: seq<nat>, last: Option<real>, made: nat, arming: nat, w: Wheel) {
    true == (Sound(s, w) && Kept(s, pool, last, arming, w) && Named(s, made))
  }

  lemma SettleKeepsWhole(s: Store, pool: seq<nat>, last: Option<real>, made: nat, arming: nat, w: Wheel,
                         c: nat, outcome: Outcome, now: real)
    requires Whole(s, pool, last, made, arming, w) && c in s.ctxs && s.ctxs[c].live
    ensures s.ctxs[c].gen.Some? && s.ctxs[c].gen.value in s.gens
    ensures Whole(Detached(s, c), pool, last, made, arming, Settle(w, s.ctxs[c].ask, outcome, now))
    ensures Fated(Settle(w, s.ctxs[c].ask, outcome, now), s.ctxs[c].ask, Some(Fate(outcome, now)))
  {
    SettleKeepsSound(s, w, c, outcome, now);
    DetachKeepsKept(s, pool, last, arming, w, made, c);
    KeptBySent(Detached(s, c), pool, last, arming, w, Settle(w, s.ctxs[c].ask, outcome, now));
  }

  lemma OpenKeepsWhole(s: Store, pool: seq<nat>, last: Option<real>, made: nat, arming: nat, w: Wheel, d: real,
                       t: Store, v: Wheel)
    requires Whole(s, pool, last, made, arming, w) && d !in s.lists
    requires t == Opened(s, d, made, made + 1) && v == OpenedWheel(w, d)
    ensures Whole(t, pool, last, made + 2, arming, v) && d !in w.lists
  {
    OpenKeepsKept(s, pool, last, arming, w, made, d);
    OpenKeepsSound(s, w, d, made, made + 1);
    KeptBySent(Opened(s, d, made, made + 1), pool, last, arming, w, OpenedWheel(w, d));
    assert d !in w.lists by { assert Look(0); }
  }

  /** Opening the list first makes no difference to enlisting. */
  lemma EnlistOpened(w: Wheel, id: nat, d: real, now: real)
    requires d !in w.lists
    ensures Enlist(OpenedWheel(w, d), id, d, now) == Enlist(w, id, d, now)
  {
    assert w.lists[d := AskList([], [], None)][d := AskList([] + [id], [], Some(now + d))]
        == w.lists[d := AskList([] + [id], [], Some(now + d))];
  }

  /** A context taken from the pool is settled, unlinked and no longer pooled. */
  lemma PopKeepsWhole(s: Store, pool: seq<nat>, last: Option<real>, made: nat, arming: nat, w: Wheel)
    requires Whole(s, pool, last, made, arming, w) && pool != []
    ensures Whole(s, pool[..|pool| - 1], last, made, arming, w)
    ensures var c := pool[|pool| - 1];
            c < made && c in s.ctxs && s.ctxs[c].gen == None && c !in pool[..|pool| - 1]
  {
    assert Look(0);
  }

  lemma MintKeepsWhole(s: Store, pool: seq<nat>, last: Option<real>, made: nat, arming: nat, w: Wheel)
    requires Whole(s, pool, last, made, arming, w)
    ensures Whole(s, pool, last, made + 1, arming, w) && made !in s.ctxs && made !in pool
  {
    assert Look(0);
  }

  lemma WholeIsShaped(s: Store, pool: seq<nat>, last: Option<real>, made: nat, arming: nat, w: Wheel)
    requires Whole(s, pool, last, made, arming, w)
    ensures Shaped(s)
  {
    assert Look(0);
  }

  lemma YoungIsMade(s: Store, pool: seq<nat>, last: Option<real>, made: nat, arming: nat, w: Wheel, d: real)
    requires Whole(s, pool, last, made, arming, w) && d in s.lists
    ensures s.lists[d].young in s.gens
  {
    assert Look(0);
  }

  lemma JoinKeepsWhole(s: Store, pool: seq<nat>, last: Option<real>, made: nat, arming: nat, w: Wheel,
                       c: nat, d: real, now: real, t: Store, v: Wheel)
    requires Whole(s, pool, last, made, arming, w) && d in s.lists && s.lists[d].young in s.gens
    requires c < made && c !in pool && (c in s.ctxs ==> s.ctxs[c].gen == None)
    requires t == Joined(s, c, arming, d, now) && v == Enlist(w, arming, d, now)
    ensures Whole(t, pool, Some(d), made, arming + 1, v)
  {
    assert arming !in w.sent by { assert Look(0); }
    JoinKeepsSound(s, w, c, arming, d, now);
    JoinKeepsKept(s, pool, last, arming, w, made, c, d, now);
  }

  lemma CachedIsListed(s: Store, pool: seq<nat>, last: Option<real>, made: nat, arming: nat, w: Wheel)
    requires Whole(s, pool, last, made, arming, w) && last.Some?
    ensures last.value in s.lists
  {
    assert Look(0);
  }

  lemma CacheKeepsWhole(s: Store, pool: seq<nat>, last: Option<real>, made: nat, arming: nat, w: Wheel, d: real)
    requires Whole(s, pool, last, made, arming, w) && d in s.lists
    ensures Whole(s, pool, Some(d), made, arming, w)
  {
    assert Look(0);
  }

  /** A settled, unlinked context may be pooled exactly when it is not in the pool yet. */
  lemma PushKeepsWhole(s: Store, pool: seq<nat>, last: Option<real>, made: nat, arming: nat, w: Wheel, c: nat)
    requires Whole(s, pool, last, made, arming, w) && |pool| < ASK_POOL_LIMIT
    requires c in s.ctxs && s.ctxs[c].gen == None
    ensures Whole(s, pool + [c], last, made, arming, w) <==> c !in pool
  {
    assert Look(0);
    if c in pool {
      var i :| 0 <= i < |pool| && pool[i] == c;
      assert (pool + [c])[i] == (pool + [c])[|pool|];
    }
  }

  /** What holds in the middle of a sweep that began at wheel `w`. */
  ghost predicate Swept(s: Store, pool: seq<nat>, last: Option<real>, made: nat, arming: nat, w: Wheel,
                        d: real, i: nat, now: real)
  {
    true == forall t {:trigger Look(t)} :: Look(t) ==>
      && d in w.lists && i <= |w.lists[d].aged| && AllOnce(w)
      && Shaped(s) && Faithful(s, Sweeping(w, d, i, now))
      && Kept(s, pool, last, arming, w) && Named(s, made)
  }

  lemma StartKeepsSwept(s: Store, pool: seq<nat>, last: Option<real>, made: nat, arming: nat, w: Wheel,
                        d: real, now: real)
    requires Whole(s, pool, last, made, arming, w) && d in s.lists
    ensures d in w.lists && s.lists[d].aged in s.gens && |s.gens[s.lists[d].aged]| == |w.lists[d].aged|
    ensures Swept(s.(lists := s.lists[d := s.lists[d].(timer := None)]), pool, last, made, arming, w, d, 0, now)
  {
    assert Look(0);
    var t, v := s.(lists := s.lists[d := s.lists[d].(timer := None)]), Sweeping(w, d, 0, now);
    assert Means(s, w, d);
    forall c | c in t.ctxs ensures CtxOk(t, c) && Home(t, v, c) { assert CtxOk(s, c) && Home(s, w, c); }
    forall g | g in t.gens ensures GenOk(t, g) { assert GenOk(s, g); }
    forall e | e in t.lists ensures Means(t, v, e) { assert Means(s, w, e); }
    forall e, f | e in t.lists && f in t.lists && e != f ensures Apart(t.lists[e], t.lists[f]) {
      assert Apart(s.lists[e], s.lists[f]);
    }
  }

  /** The sweep sets the timer anew, so clearing it first makes no difference. */
  lemma ClearedTimer(s: Store, d: real, now: real, t: Store)
    requires d in s.lists && s.lists[d].young in s.gens
    requires t == s.(lists := s.lists[d := s.lists[d].(timer := None)])
    ensures SweptStore(t, d, now) == SweptStore(s, d, now)
  {
  }

  lemma ExpireKeepsSwept(s: Store, pool: seq<nat>, last: Option<real>, made: nat, arming: nat, w: Wheel,
                         d: real, i: nat, now: real)
    requires Swept(s, pool, last, made, arming, w, d, i, now)
    requires d in s.lists && s.lists[d].aged in s.gens && s.gens[s.lists[d].aged] != []
    ensures var c := s.gens[s.lists[d].aged][0];
            && c in s.ctxs && s.ctxs[c].gen == Some(s.lists[d].aged)
            && d in w.lists && i < |w.lists[d].aged| && s.ctxs[c].ask == w.lists[d].aged[i]
            && Swept(Detached(s, c), pool, last, made, arming, w, d, i + 1, now)
            && Removed(s.gens[s.lists[d].aged], c) == s.gens[s.lists[d].aged][1..]
    ensures s.lists[d].young in s.gens
    ensures SweptStore(Detached(s, s.gens[s.lists[d].aged][0]), d, now) == SweptStore(s, d, now)
  {
    assert Look(0);
    ExpireOne(s, s.lists[d].aged);
    assert Means(s, Sweeping(w, d, i, now), d);
    ExpireKeepsFaith(s, w, d, i, now);
    DetachKeepsKept(s, pool, last, arming, w, made, s.gens[s.lists[d].aged][0]);
  }

  lemma FinishSweep(s: Store, pool: seq<nat>, last: Option<real>, made: nat, arming: nat, w: Wheel, d: real, now: real)
    requires d in w.lists && Swept(s, pool, last, made, arming, w, d, |w.lists[d].aged|, now)
    ensures d in s.lists && s.lists[d].young in s.gens
    ensures Whole(Swapped(s, d, now), pool, last, made, arming, Sweep(w, d, now))
    ensures s.lists[d].aged in s.gens && s.gens[s.lists[d].aged] == [] ==> SweptStore(s, d, now) == Swapped(s, d, now)
  {
    assert Look(0);
    if s.lists[d].aged in s.gens && s.gens[s.lists[d].aged] == [] { ExpireNone(s, s.lists[d].aged); }
    SwapKeepsFaith(s, w, d, now);
    SwapKeepsShape(s, d, now);
    forall id ensures Once(Sweep(w, d, now), id) {
      assert Once(w, id);
      SweepKeepsOnce(w, d, now, id);
    }
  }

  /** A callback that ran: whose ask, and what it was told when. */
  datatype Call = Call(ask: nat, fate: Fate)

  /** The callbacks that ran are those of the settled asks, in that order, each told what
      its ask came to. */
  ghost predicate Told(calls: seq<Call>, w: Wheel) {
    && |calls| == |w.log|
    && forall i | 0 <= i < |calls| ::
         calls[i].ask == w.log[i] && calls[i].ask in w.fates && w.fates[calls[i].ask] == calls[i].fate
  }

  /** Where nothing is settled, nobody is told anything. */
  lemma SameTold(calls: seq<Call>, v: Wheel, w: Wheel)
    requires Told(calls, v) && w.log == v.log && w.fates == v.fates
    ensures Told(calls, w)
  {
  }

  lemma SettleTells(calls: seq<Call>, w: Wheel, id: nat, outcome: Outcome, now: real)
    requires Told(calls, w) && Once(w, id) && Pending(w, id)
    ensures Told(calls + [Call(id, Fate(outcome, now))], Settle(w, id, outcome, now))
  {
    PendingOrSettled(w, id);
    ToldMore(calls, w, Settle(w, id, outcome, now), Call(id, Fate(outcome, now)));
  }

  lemma LiveTells(s: Store, pool: seq<nat>, last: Option<real>, made: nat, arming: nat, w: Wheel, c: nat,
                  calls: seq<Call>, outcome: Outcome, now: real)
    requires Whole(s, pool, last, made, arming, w) && c in s.ctxs && s.ctxs[c].live && Told(calls, w)
    ensures Told(calls + [Call(s.ctxs[c].ask, Fate(outcome, now))], Settle(w, s.ctxs[c].ask, outcome, now))
  {
    assert Look(0);
    assert Home(s, w, c) && CtxOk(s, c) && Once(w, s.ctxs[c].ask);
    SettleTells(calls, w, s.ctxs[c].ask, outcome, now);
  }

  /** The callbacks that ran up to the `i`-th expiry of a sweep that began at wheel `w`. */
  ghost predicate Telling(calls: seq<Call>, w: Wheel, d: real, i: nat, now: real) {
    true == forall t {:trigger Look(t)} :: Look(t) ==>
      d in w.lists && i <= |w.lists[d].aged| && Told(calls, Sweeping(w, d, i, now))
  }

  lemma StartTells(calls: seq<Call>, w: Wheel, d: real, now: real)
    requires d in w.lists && Told(calls, w)
    ensures Telling(calls, w, d, 0, now)
  {
  }

  lemma ExpiriesSnoc(fates: map<nat, Fate>, ids: seq<nat>, id: nat, now: real)
    ensures fates + Expiries(ids + [id], now) == (fates + Expiries(ids, now))[id := Fate(TimedOut, now)]
  {
    assert Expiries(ids + [id], now) == Expiries(ids, now)[id := Fate(TimedOut, now)];
  }

  lemma SweepingNext(w: Wheel, d: real, i: nat, now: real)
    requires d in w.lists && i < |w.lists[d].aged|
    ensures var v, v' := Sweeping(w, d, i, now), Sweeping(w, d, i + 1, now);
      var id := w.lists[d].aged[i];
      v'.log == v.log + [id] && v'.fates == v.fates[id := Fate(TimedOut, now)]
  {
    var aged := w.lists[d].aged;
    assert aged[..i + 1] == aged[..i] + [aged[i]];
    ExpiriesSnoc(w.fates, aged[..i], aged[i], now);
  }

  lemma ExpiryTells(calls: seq<Call>, w: Wheel, d: real, i: nat, now: real)
    requires d in w.lists && i < |w.lists[d].aged| && Once(w, w.lists[d].aged[i])
    requires Told(calls, Sweeping(w, d, i, now))
    ensures Told(calls + [Call(w.lists[d].aged[i], Fate(TimedOut, now))], Sweeping(w, d, i + 1, now))
  {
    var aged := w.lists[d].aged;
    var v, v' := Sweeping(w, d, i, now), Sweeping(w, d, i + 1, now);
    SweepingNext(w, d, i, now);
    ExpiredOnce(w, d, i);
    ToldMore(calls, v, v', Call(aged[i], Fate(TimedOut, now)));
  }

  /** An old ask has not been told yet, nor is it told twice in one sweep. */
  lemma ExpiredOnce(w: Wheel, d: real, i: nat)
    requires d in w.lists && i < |w.lists[d].aged| && Once(w, w.lists[d].aged[i])
    ensures w.lists[d].aged[i] !in w.log + w.lists[d].aged[..i]
  {
    var aged := w.lists[d].aged;
    assert aged == aged[..i] + [aged[i]] + aged[i + 1..];
    assert multiset(aged) == multiset(aged[..i]) + multiset{aged[i]} + multiset(aged[i + 1..]);
  }

  lemma ToldMore(calls: seq<Call>, v: Wheel, v': Wheel, c: Call)
    requires Told(calls, v) && v'.log == v.log + [c.ask] && v'.fates == v.fates[c.ask := c.fate] && c.ask !in v.log
    ensures Told(calls + [c], v')
  {
  }

  lemma ExpiryKeepsTelling(s: Store, pool: seq<nat>, last: Option<real>, made: nat, arming: nat, w: Wheel,
                           d: real, i: nat, now: real, calls: seq<Call>)
    requires Swept(s, pool, last, made, arming, w, d, i, now) && Telling(calls, w, d, i, now)
    requires d in w.lists && i < |w.lists[d].aged|
    ensures Telling(calls + [Call(w.lists[d].aged[i], Fate(TimedOut, now))], w, d, i + 1, now)
  {
    assert Look(0);
    assert Once(w, w.lists[d].aged[i]);
    ExpiryTells(calls, w, d, i, now);
  }

  lemma FinishTells(calls: seq<Call>, w: Wheel, d: real, now: real)
    requires d in w.lists && Telling(calls, w, d, |w.lists[d].aged|, now)
    ensures Told(calls, Sweep(w, d, now))
  {
    assert Look(0);
    assert w.lists[d].aged[..|w.lists[d].aged|] == w.lists[d].aged;
  }

  class AskWheel {
    var store: Store
    var lastDuration: Option<real>
    var pool: seq<nat>

    /** How many contexts and generations have been made; each takes the next number. */
    var made: nat

    /** How many asks have been armed; an ask's number stands for its two callbacks. */
    var arming: nat

    /** The callbacks that ran. */
    var calls: seq<Call>

    /** What it all means. */
    ghost var wheel: Wheel

    ghost predicate Valid()
      reads this
    {
      Whole(store, pool, lastDuration, made, arming, wheel) && Told(calls, wheel)
    }

    constructor ()
      ensures Valid() && wheel == EMPTY && calls == [] && store == Store(map[], map[], map[]) && pool == []
    {
      store, lastDuration, pool, made := Store(map[], map[], map[]), None, [], 0;
      arming, calls, wheel := 0, [], EMPTY;
    }

    /** A response, a rejection or a cancel: only the first to come settles the ask. */
    method SettleAsk(c: nat, outcome: Outcome, now: real) returns (settled: bool)
      requires Valid() && c in store.ctxs
      modifies this
      ensures Valid() && settled == old(store.ctxs[c].live)
      ensures wheel == if settled then Settle(old(wheel), old(store).ctxs[c].ask, outcome, now) else old(wheel)
      ensures calls == old(calls) + if settled then [Call(old(store).ctxs[c].ask, Fate(outcome, now))] else []
      ensures settled ==> Fated(wheel, old(store).ctxs[c].ask, Some(Fate(outcome, now)))
      ensures settled ==> old(store).ctxs[c].gen.Some? && old(store).ctxs[c].gen.value in old(store).gens
      ensures store == (if settled then Detached(old(store), c) else old(store))
      ensures made == old(made) && pool == old(pool)
    {
      if !store.ctxs[c].live {
        return false;
      }
      SettleKeepsWhole(store, pool, lastDuration, made, arming, wheel, c, outcome, now);
      LiveTells(store, pool, lastDuration, made, arming, wheel, c, calls, outcome, now);
      calls := calls + [Call(store.ctxs[c].ask, Fate(outcome, now))];
      Assign(Detached(store, c), made, arming, Settle(wheel, store.ctxs[c].ask, outcome, now));
      return true;
    }

    /** A pooled or new context is armed for a new ask and enlisted. */
    method CreateRequest(timeout: real, now: real) returns (c: nat)
      requires Valid()
      modifies this
      ensures Valid() && wheel == Enlist(old(wheel), old(arming), timeout, now) && arming == old(arming) + 1
      ensures c in store.ctxs && store.ctxs[c].live && store.ctxs[c].ask == old(arming)
      ensures c == NextContext(old(pool), old(made))
      ensures pool == if old(pool) == [] then [] else old(pool)[..|old(pool)| - 1]
      ensures Enlisted(old(store), c, old(arming), timeout, now, AfterContext(old(pool), old(made)), store)
      ensures made == NextName(old(store), timeout, AfterContext(old(pool), old(made)))
    {
      if |pool| > 0 {
        PopKeepsWhole(store, pool, lastDuration, made, arming, wheel);
        c, pool := pool[|pool| - 1], pool[..|pool| - 1];
      } else {
        MintKeepsWhole(store, pool, lastDuration, made, arming, wheel);
        c, made := made, made + 1;
      }
      EnlistContext(c, timeout, now);
    }

    /** The wheel takes on a new state that has been shown to be whole. */
    method Assign(next: Store, names: nat, armed: nat, ghost meaning: Wheel)
      requires Whole(next, pool, lastDuration, names, armed, meaning) && Told(calls, meaning)
      modifies this`store, this`made, this`arming, this`wheel
      ensures Valid() && store == next && made == names && arming == armed && wheel == meaning
    {
      store, made, arming, wheel := next, names, armed, meaning;
    }

    method OpenList(d: real)
      requires Valid() && d !in store.lists
      modifies this`store, this`made, this`arming, this`wheel
      ensures Valid() && store == Opened(old(store), d, old(made), old(made) + 1)
      ensures made == old(made) + 2 && arming == old(arming)
      ensures d !in old(wheel).lists && wheel == OpenedWheel(old(wheel), d)
    {
      var opening := Opened(store, d, made, made + 1);
      ghost var meaning := OpenedWheel(wheel, d);
      OpenKeepsWhole(store, pool, lastDuration, made, arming, wheel, d, opening, meaning);
      SameTold(calls, wheel, meaning);
      Assign(opening, made + 2, arming, meaning);
    }

    /** A duration's list is found through the one-entry cache or in the map, where it
        is made on first use. */
    method FindList(d: real, ghost now: real)
      requires Valid()
      modifies this`store, this`lastDuration, this`made, this`arming, this`wheel
      ensures Valid() && d in store.lists && lastDuration == Some(d) && arming == old(arming)
      ensures store == Readied(old(store), d, old(made)) && made == NextName(old(store), d, old(made))
      ensures Enlist(wheel, arming, d, now) == Enlist(old(wheel), arming, d, now)
    {
      if lastDuration == Some(d) {
        CachedIsListed(store, pool, lastDuration, made, arming, wheel);
        return;
      }
      if d !in store.lists {
        OpenList(d);
        EnlistOpened(old(wheel), arming, d, now);
      }
      CacheKeepsWhole(store, pool, lastDuration, made, arming, wheel, d);
      lastDuration := Some(d);
    }

    /** The context joins the young generation of a list that has been found. */
    method JoinList(c: nat, d: real, now: real)
      requires Valid() && d in store.lists && lastDuration == Some(d)
      requires c < made && c !in pool && (c in store.ctxs ==> store.ctxs[c].gen == None)
      modifies this`store, this`made, this`arming, this`wheel
      ensures Valid() && wheel == Enlist(old(wheel), old(arming), d, now)
      ensures arming == old(arming) + 1 && made == old(made)
      ensures old(store).lists[d].young in old(store).gens && store == Joined(old(store), c, old(arming), d, now)
    {
      YoungIsMade(store, pool, lastDuration, made, arming, wheel, d);
      var joined := Joined(store, c, arming, d, now);
      ghost var meaning := Enlist(wheel, arming, d, now);
      JoinKeepsWhole(store, pool, lastDuration, made, arming, wheel, c, d, now, joined, meaning);
      SameTold(calls, wheel, meaning);
      Assign(joined, made, arming + 1, meaning);
    }

    /** The context joins the young generation of its duration. */
    method EnlistContext(c: nat, timeout: real, now: real)
      requires Valid() && c < made && c !in pool && (c in store.ctxs ==> store.ctxs[c].gen == None)
      modifies this
      ensures Valid() && wheel == Enlist(old(wheel), old(arming), timeout, now) && arming == old(arming) + 1
      ensures c in store.ctxs && store.ctxs[c].live && store.ctxs[c].ask == old(arming)
      ensures Enlisted(old(store), c, old(arming), timeout, now, old(made), store)
      ensures made == NextName(old(store), timeout, old(made)) && pool == old(pool)
    {
      FindList(timeout, now);
      ghost var ready := store;
      JoinList(c, timeout, now);
      EnlistedBy(old(store), c, old(arming), timeout, now, old(made), ready, store);
    }

    /** A settled, unlinked context goes back to the pool while there is room. Nothing
        keeps it from being pushed twice: the wheel stays whole exactly when the caller
        does not recycle a context that is already pooled. */
    method Recycle(c: nat)
      requires Valid() && c in store.ctxs
      modifies this`pool
      ensures var pooled := !store.ctxs[c].live && store.ctxs[c].gen == None && |old(pool)| < ASK_POOL_LIMIT;
        && pool == (if pooled then old(pool) + [c] else old(pool))
        && (Valid() <==> !(pooled && c in old(pool)))
    {
      if !store.ctxs[c].live && store.ctxs[c].gen == None && |pool| < ASK_POOL_LIMIT {
        PushKeepsWhole(store, pool, lastDuration, made, arming, wheel, c);
        pool := pool + [c];
      }
    }

    /** The timer of a duration's list fires: its old generation expires head first, the
        generations trade places, and the timer runs on while asks remain. */
    method SweepAsks(d: real, now: real)
      requires Valid() && d in store.lists
      modifies this`store, this`made, this`arming, this`calls, this`wheel
      ensures Valid() && d in old(wheel).lists && wheel == Sweep(old(wheel), d, now)
      ensures made == old(made) && arming == old(arming)
      ensures old(store).lists[d].young in old(store).gens && store == SweptStore(old(store), d, now)
    {
      ghost var w, i := wheel, 0;
      YoungIsMade(store, pool, lastDuration, made, arming, wheel, d);
      ghost var end := SweptStore(store, d, now);
      StartKeepsSwept(store, pool, lastDuration, made, arming, wheel, d, now);
      store := store.(lists := store.lists[d := store.lists[d].(timer := None)]);
      ClearedTimer(old(store), d, now, store);
      StartTells(calls, w, d, now);
      var dying := store.lists[d].aged;
      while store.gens[dying] != []
        invariant made == old(made) && arming == old(arming)
        invariant Swept(store, pool, lastDuration, made, arming, w, d, i, now)
        invariant d in store.lists && dying == store.lists[d].aged && dying in store.gens
        invariant d in w.lists && |store.gens[dying]| == |w.lists[d].aged| - i
        invariant store.lists[d].young in store.gens && SweptStore(store, d, now) == end
        invariant Telling(calls, w, d, i, now)
        decreases |store.gens[dying]|
      {
        ExpireKeepsSwept(store, pool, lastDuration, made, arming, w, d, i, now);
        ExpiryKeepsTelling(store, pool, lastDuration, made, arming, w, d, i, now, calls);
        var context := store.gens[dying][0];
        calls := calls + [Call(store.ctxs[context].ask, Fate(TimedOut, now))];
        store := Detached(store, context);
        i := i + 1;
      }
      FinishSweep(store, pool, lastDuration, made, arming, w, d, now);
      FinishTells(calls, w, d, now);
      Assign(Swapped(store, d, now), made, arming, Sweep(w, d, now));
    }
  }

  /** An ask, its answer, and two calls to recycle its context. */
  method RecycledTwice() returns (w: AskWheel)
    ensures !w.Valid()
  {
    w := new AskWheel();
    var c := w.CreateRequest(1.0, 0.0);
    var settled := w.SettleAsk(c, Responded, 0.0);
    w.Recycle(c);
    w.Recycle(c);
  }
}
