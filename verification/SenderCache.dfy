/**
 The cache of foreign sender handles: capped, in least-recently-heard-from order, with
 entries pinned by the inbound watches registered under them. Every interleaving of
 resolutions, watch and unwatch frames, session losses and lifecycle changes of local
 actors is a run of this step system. A local actor's name is never used twice.
 */
module SenderCache {
  import opened Common

  const SENDER_CACHE_SIZE := 4096

  /** The key of a foreign sender: its path and incarnation. */
  type Key = nat
  type Handle = nat
  type Target = nat
  type Session = nat

  /** A cached handle and the targets whose watch registrations pin it. */
  datatype Entry = Entry(handle: Handle, pins: set<Target>)

  /** The map in its insertion order. */
  datatype Cache = Cache(order: seq<Key>, entries: map<Key, Entry>)

  /** The order without a key. */
  function Forgotten(order: seq<Key>, k: Key): seq<Key> {
    if order == [] then [] else
    var rest := Forgotten(order[1..], k);
    if order[0] == k then rest else [order[0]] + rest
  }

  lemma {:induction false} ForgottenMembers(order: seq<Key>, k: Key, j: Key)
    ensures j in Forgotten(order, k) <==> j in order && j != k
  {
    if order != [] { ForgottenMembers(order[1..], k, j); }
  }

  function Dropped(c: Cache, k: Key): Cache {
    Cache(Forgotten(c.order, k), c.entries - {k})
  }

  /** An unpinned entry other than the one just inserted goes. */
  function EvictOne(c: Cache, k: Key, inserted: Key): Cache {
    if k in c.entries && k != inserted && c.entries[k].pins == {} then Dropped(c, k) else c
  }

  /** The walk that holds the cache to its cap: entries go, oldest first, until it fits. */
  function Evict(todo: seq<Key>, c: Cache, inserted: Key): Cache {
    if todo == [] || |c.entries| <= SENDER_CACHE_SIZE then c
    else Evict(todo[1..], EvictOne(c, todo[0], inserted), inserted)
  }

  /** The order lists the cached keys, each once. */
  ghost predicate Ordered(c: Cache) {
    Distinct(c.order) && forall k :: k in c.order <==> k in c.entries
  }

  lemma {:induction false} ForgottenUnique(order: seq<Key>, k: Key)
    requires Distinct(order)
    ensures Distinct(Forgotten(order, k))
  {
    if order != [] {
      ForgottenUnique(order[1..], k);
      ForgottenMembers(order[1..], k, order[0]);
    }
  }

  lemma DropKeepsOrdered(c: Cache, k: Key)
    requires Ordered(c)
    ensures Ordered(Dropped(c, k))
  {
    ForgottenUnique(c.order, k);
    forall j ensures j in Dropped(c, k).order <==> j in Dropped(c, k).entries { ForgottenMembers(c.order, k, j); }
  }

  /** Only unpinned entries other than the inserted one are gone. */
  predicate Spared(c: Cache, d: Cache, inserted: Key) {
    && (forall k | k in d.entries :: k in c.entries && d.entries[k] == c.entries[k])
    && (forall k | k in c.entries && (k == inserted || c.entries[k].pins != {}) :: k in d.entries)
  }

  lemma EvictOneSpares(c: Cache, k: Key, inserted: Key)
    requires Ordered(c)
    ensures Ordered(EvictOne(c, k, inserted)) && Spared(c, EvictOne(c, k, inserted), inserted)
  {
    DropKeepsOrdered(c, k);
  }

  /** An eviction keeps the pinned entries and the inserted one as they are. */
  lemma {:induction false} EvictSpares(todo: seq<Key>, c: Cache, inserted: Key)
    requires Ordered(c)
    ensures Ordered(Evict(todo, c, inserted)) && Spared(c, Evict(todo, c, inserted), inserted)
    decreases |todo|
  {
    if todo != [] && |c.entries| > SENDER_CACHE_SIZE {
      EvictOneSpares(c, todo[0], inserted);
      EvictSpares(todo[1..], EvictOne(c, todo[0], inserted), inserted);
    }
  }

  /** An eviction ends within the cap unless every other entry it walked is pinned. */
  lemma {:induction false} EvictHoldsCap(todo: seq<Key>, c: Cache, inserted: Key)
    requires Ordered(c)
    ensures var d := Evict(todo, c, inserted);
            |d.entries| <= SENDER_CACHE_SIZE
            || forall k | k in d.entries && k in todo && k != inserted :: d.entries[k].pins != {}
    decreases |todo|
  {
    if todo != [] && |c.entries| > SENDER_CACHE_SIZE {
      var e := EvictOne(c, todo[0], inserted);
      EvictOneSpares(c, todo[0], inserted);
      EvictSpares(todo[1..], e, inserted);
      EvictHoldsCap(todo[1..], e, inserted);
    }
  }

  /** Evictions go oldest first: when an entry goes, so has every unpinned one before it
      in the walk, other than the one just inserted. */
  lemma {:induction false} EvictsOldestFirst(todo: seq<Key>, c: Cache, inserted: Key, a: nat, b: nat)
    requires Ordered(c) && Distinct(todo) && a < b < |todo|
    requires todo[b] in c.entries && todo[b] !in Evict(todo, c, inserted).entries
    requires todo[a] in c.entries ==> todo[a] != inserted && c.entries[todo[a]].pins == {}
    ensures todo[a] !in Evict(todo, c, inserted).entries
    decreases |todo|
  {
    var e := EvictOne(c, todo[0], inserted);
    EvictOneSpares(c, todo[0], inserted);
    EvictSpares(todo[1..], e, inserted);
    if a > 0 { EvictsOldestFirst(todo[1..], e, inserted, a - 1, b - 1); }
  }

  /** The eviction loop as the runtime writes it. */
  method EvictSenders(cache: Cache, inserted: Key) returns (c: Cache)
    ensures c == Evict(cache.order, cache, inserted)
  {
    c := cache;
    var todo := cache.order;
    while todo != [] && |c.entries| > SENDER_CACHE_SIZE
      invariant Evict(todo, c, inserted) == Evict(cache.order, cache, inserted)
      decreases |todo|
    {
      var k := todo[0];
      todo := todo[1..];
      if k in c.entries && k != inserted && c.entries[k].pins == {} {
        c := Dropped(c, k);
      }
    }
  }

  /* ---------- the protocol ---------- */

  /** A local actor in the tree; only a running one is `isRunning`. */
  datatype Phase = Running | Suspended | Stopping

  /** A watch a session delivered. */
  datatype Inbound = Inbound(target: Target, handle: Handle, key: Key)

  /** A registration: the target's watcher set holds the handle. */
  datatype Watch = Watch(target: Target, handle: Handle)

  /** `keyOf` is every handle ever minted; `used` every local name ever taken. */
  datatype State = State(cache: Cache, made: nat, keyOf: map<Handle, Key>, targets: map<Target, Phase>,
                         used: set<Target>, registered: set<Watch>, inbound: map<Session, seq<Inbound>>)

  datatype Step =
    | Hear(key: Key)
    | OnWatch(session: Session, key: Key, target: Target)
    | OnUnwatch(key: Key, target: Target)
    | Lose(session: Session)
    | Spawn(target: Target)
    | Move(target: Target, phase: Phase)
    | FinishStop(target: Target)

  /** The handle of a foreign sender, from the cache or minted into it. */
  function Resolve(s: State, k: Key): State {
    if k in s.cache.entries then
      if |s.cache.entries| >= SENDER_CACHE_SIZE then
        s.(cache := s.cache.(order := Forgotten(s.cache.order, k) + [k]))
      else s
    else
      var c := Cache(s.cache.order + [k], s.cache.entries[k := Entry(s.made, {})]);
      s.(cache := Evict(c.order, c, k), made := s.made + 1, keyOf := s.keyOf[s.made := k])
  }

  function SetPins(c: Cache, k: Key, pins: set<Target>): Cache
    requires k in c.entries
  {
    c.(entries := c.entries[k := c.entries[k].(pins := pins)])
  }

  function Release(c: Cache, k: Key, t: Target): Cache {
    if k in c.entries then SetPins(c, k, c.entries[k].pins - {t}) else c
  }

  function Tracked(inbound: map<Session, seq<Inbound>>, session: Session, w: Inbound): map<Session, seq<Inbound>> {
    inbound[session := (if session in inbound then inbound[session] else []) + [w]]
  }

  /** A watch frame: a target that is not running is answered as dead, which releases
      the pin of the pair; a new registration pins its sender. */
  function Watched(s: State, session: Session, k: Key, t: Target): State
    requires k in s.cache.entries
  {
    var h := s.cache.entries[k].handle;
    if t !in s.targets || s.targets[t] != Running then s.(cache := Release(s.cache, k, t))
    else
      var u := if Watch(t, h) in s.registered then s
               else s.(registered := s.registered + {Watch(t, h)},
                       cache := SetPins(s.cache, k, s.cache.entries[k].pins + {t}));
      u.(inbound := Tracked(u.inbound, session, Inbound(t, h, k)))
  }

  function Unwatched(s: State, k: Key, t: Target): State
    requires k in s.cache.entries
  {
    var h := s.cache.entries[k].handle;
    if t in s.targets && s.targets[t] == Running && Watch(t, h) in s.registered then
      s.(registered := s.registered - {Watch(t, h)}, cache := Release(s.cache, k, t))
    else s
  }

  /** One record of a lost session is settled. */
  function SettledOne(s: State, w: Inbound): State {
    if Watch(w.target, w.handle) in s.registered then
      s.(registered := s.registered - {Watch(w.target, w.handle)}, cache := Release(s.cache, w.key, w.target))
    else s
  }

  /** The records of a lost session are settled one by one. */
  function Settled(s: State, list: seq<Inbound>): State
    decreases |list|
  {
    if list == [] then s else Settled(SettledOne(s, list[0]), list[1..])
  }

  /** A stopped actor's notices leave through its watchers' handles, each releasing its
      pin, and the tree drops its registrations. */
  function Stopped(s: State, t: Target): State {
    var notified := set w | w in s.registered && w.target == t && w.handle in s.keyOf :: s.keyOf[w.handle];
    var kept := set w | w in s.registered && w.target != t;
    var entries := map k | k in s.cache.entries ::
                     if k in notified then s.cache.entries[k].(pins := s.cache.entries[k].pins - {t})
                     else s.cache.entries[k];
    s.(registered := kept, targets := s.targets - {t}, cache := s.cache.(entries := entries))
  }

  predicate Enabled(s: State, step: Step) {
    match step
    case Spawn(t) => t !in s.used
    case Move(t, phase) => t in s.targets && s.targets[t] != Stopping
    case FinishStop(t) => t in s.targets && s.targets[t] == Stopping
    case _ => true
  }

  lemma TouchKeepsOrdered(c: Cache, k: Key)
    requires Ordered(c) && k in c.entries
    ensures Ordered(c.(order := Forgotten(c.order, k) + [k]))
  {
    ForgottenUnique(c.order, k);
    ForgottenMembers(c.order, k, k);
    forall j ensures j in Forgotten(c.order, k) + [k] <==> j in c.entries { ForgottenMembers(c.order, k, j); }
  }

  lemma ResolveCaches(s: State, k: Key)
    requires Ordered(s.cache)
    ensures var t := Resolve(s, k);
            && k in t.cache.entries && Ordered(t.cache)
            && (forall j | j in s.cache.entries && (j == k || s.cache.entries[j].pins != {}) ::
                  j in t.cache.entries && t.cache.entries[j] == s.cache.entries[j])
            && (forall j | j in t.cache.entries && j != k ::
                  j in s.cache.entries && t.cache.entries[j] == s.cache.entries[j])
            && (k !in s.cache.entries ==> t.cache.entries[k] == Entry(s.made, {}))
  {
    if k in s.cache.entries {
      TouchKeepsOrdered(s.cache, k);
    } else {
      var c := Cache(s.cache.order + [k], s.cache.entries[k := Entry(s.made, {})]);
      assert Ordered(c);
      EvictSpares(c.order, c, k);
    }
  }

  ghost function Next(s: State, step: Step): State
    requires Ordered(s.cache) && Enabled(s, step)
  {
    match step
    case Hear(k) => Resolve(s, k)
    case OnWatch(session, k, t) => ResolveCaches(s, k); Watched(Resolve(s, k), session, k, t)
    case OnUnwatch(k, t) => ResolveCaches(s, k); Unwatched(Resolve(s, k), k, t)
    case Lose(session) =>
      if session in s.inbound then Settled(s.(inbound := s.inbound - {session}), s.inbound[session]) else s
    case Spawn(t) => s.(targets := s.targets[t := Running], used := s.used + {t})
    case Move(t, phase) => s.(targets := s.targets[t := phase])
    case FinishStop(t) => Stopped(s, t)
  }

  /* ---------- what every run keeps ---------- */

  /** A cached handle was minted for its key, and is pinned only by registrations. */
  predicate EntryOk(s: State, k: Key)
    requires k in s.cache.entries
  {
    var e := s.cache.entries[k];
    e.handle in s.keyOf && s.keyOf[e.handle] == k && forall t | t in e.pins :: Watch(t, e.handle) in s.registered
  }

  predicate InboundOk(s: State, list: seq<Inbound>) {
    forall i | 0 <= i < |list| :: list[i].handle in s.keyOf && s.keyOf[list[i].handle] == list[i].key
  }

  ghost predicate Base(s: State) {
    && Ordered(s.cache)
    && (forall k | k in s.cache.entries :: EntryOk(s, k))
    && (forall w | w in s.registered :: w.target in s.targets && w.handle in s.keyOf)
    && (forall h | h in s.keyOf :: h < s.made)
    && (forall x | x in s.inbound :: InboundOk(s, s.inbound[x]))
    && s.targets.Keys <= s.used
  }

  /** Resolving the sender again would yield the registered handle, and it cannot be evicted. */
  predicate Pinned(s: State, w: Watch) {
    && w.handle in s.keyOf && s.keyOf[w.handle] in s.cache.entries
    && s.cache.entries[s.keyOf[w.handle]].handle == w.handle
    && w.target in s.cache.entries[s.keyOf[w.handle]].pins
  }

  /** Every watcher registered on an actor that is not on its way out is pinned. */
  predicate AllPinned(s: State) {
    forall w | w in s.registered && w.target in s.targets && s.targets[w.target] != Stopping :: Pinned(s, w)
  }

  /** A watch frame of a pair that is already registered, for a suspended target. */
  predicate Misfire(s: State, step: Step) {
    && step.OnWatch? && step.target in s.targets && s.targets[step.target] == Suspended
    && step.key in s.cache.entries && step.target in s.cache.entries[step.key].pins
  }

  lemma ResolveKeeps(s: State, k: Key)
    requires Base(s)
    ensures Base(Resolve(s, k)) && (AllPinned(s) ==> AllPinned(Resolve(s, k)))
  {
    ResolveCaches(s, k);
    var t := Resolve(s, k);
    forall j | j in t.cache.entries ensures EntryOk(t, j) {
      if j in s.cache.entries { assert EntryOk(s, j); }
    }
    forall x | x in t.inbound ensures InboundOk(t, t.inbound[x]) { assert InboundOk(s, s.inbound[x]); }
    if AllPinned(s) {
      forall w | w in t.registered && w.target in t.targets && t.targets[w.target] != Stopping ensures Pinned(t, w) {
        assert Pinned(s, w);
      }
    }
  }

  lemma WatchKeeps(s: State, session: Session, k: Key, t: Target)
    requires Base(s) && k in s.cache.entries
    ensures Base(Watched(s, session, k, t))
  {
    var u := Watched(s, session, k, t);
    assert EntryOk(s, k);
    forall j | j in u.cache.entries ensures EntryOk(u, j) { assert EntryOk(s, j); }
    forall x | x in u.inbound ensures InboundOk(u, u.inbound[x]) {
      if x in s.inbound { assert InboundOk(s, s.inbound[x]); }
    }
  }

  lemma WatchPins(s: State, session: Session, k: Key, t: Target)
    requires Base(s) && k in s.cache.entries && AllPinned(s)
    requires !(t in s.targets && s.targets[t] == Suspended && t in s.cache.entries[k].pins)
    ensures AllPinned(Watched(s, session, k, t))
  {
    var u := Watched(s, session, k, t);
    assert EntryOk(s, k);
    forall w | w in u.registered && w.target in u.targets && u.targets[w.target] != Stopping ensures Pinned(u, w) {
      if w in s.registered { assert Pinned(s, w); }
    }
  }

  lemma UnwatchKeeps(s: State, k: Key, t: Target)
    requires Base(s) && k in s.cache.entries
    ensures Base(Unwatched(s, k, t)) && (AllPinned(s) ==> AllPinned(Unwatched(s, k, t)))
  {
    var u := Unwatched(s, k, t);
    assert EntryOk(s, k);
    forall j | j in u.cache.entries ensures EntryOk(u, j) { assert EntryOk(s, j); }
    forall x | x in u.inbound ensures InboundOk(u, u.inbound[x]) { assert InboundOk(s, s.inbound[x]); }
    if AllPinned(s) {
      forall w | w in u.registered && w.target in u.targets && u.targets[w.target] != Stopping ensures Pinned(u, w) {
        assert Pinned(s, w);
      }
    }
  }

  lemma SettleOneKeeps(s: State, w: Inbound)
    requires Base(s) && w.handle in s.keyOf && s.keyOf[w.handle] == w.key
    ensures Base(SettledOne(s, w)) && (AllPinned(s) ==> AllPinned(SettledOne(s, w)))
    ensures SettledOne(s, w).keyOf == s.keyOf
  {
    var u := SettledOne(s, w);
    forall j | j in u.cache.entries ensures EntryOk(u, j) { assert EntryOk(s, j); }
    forall x | x in u.inbound ensures InboundOk(u, u.inbound[x]) { assert InboundOk(s, s.inbound[x]); }
    if AllPinned(s) {
      forall v | v in u.registered && v.target in u.targets && u.targets[v.target] != Stopping ensures Pinned(u, v) {
        assert Pinned(s, v);
        if Watch(w.target, w.handle) in s.registered && v.target == w.target {
          assert Pinned(s, Watch(w.target, w.handle));
        }
      }
    }
  }

  lemma {:induction false} SettleKeeps(s: State, list: seq<Inbound>)
    requires Base(s) && InboundOk(s, list)
    ensures Base(Settled(s, list)) && (AllPinned(s) ==> AllPinned(Settled(s, list)))
    decreases |list|
  {
    if list != [] {
      SettleOneKeeps(s, list[0]);
      SettleKeeps(SettledOne(s, list[0]), list[1..]);
    }
  }

  lemma StopKeeps(s: State, t: Target)
    requires Base(s)
    ensures Base(Stopped(s, t)) && (AllPinned(s) ==> AllPinned(Stopped(s, t)))
  {
    var u := Stopped(s, t);
    forall k | k in u.cache.entries ensures EntryOk(u, k) {
      assert EntryOk(s, k);
      var h := s.cache.entries[k].handle;
      assert t in s.cache.entries[k].pins ==> Watch(t, h) in s.registered;
    }
    forall x | x in u.inbound ensures InboundOk(u, u.inbound[x]) { assert InboundOk(s, s.inbound[x]); }
    if AllPinned(s) {
      forall w | w in u.registered && w.target in u.targets && u.targets[w.target] != Stopping ensures Pinned(u, w) {
        assert Pinned(s, w);
      }
    }
  }

  lemma MoveKeeps(s: State, t: Target, phase: Phase)
    requires Base(s) && (t !in s.used || (t in s.targets && s.targets[t] != Stopping))
    ensures var u := s.(targets := s.targets[t := phase], used := s.used + {t});
            Base(u) && (AllPinned(s) ==> AllPinned(u))
  {
    var u := s.(targets := s.targets[t := phase], used := s.used + {t});
    forall k | k in u.cache.entries ensures EntryOk(u, k) { assert EntryOk(s, k); }
    forall x | x in u.inbound ensures InboundOk(u, u.inbound[x]) { assert InboundOk(s, s.inbound[x]); }
    if AllPinned(s) {
      forall w | w in u.registered && w.target in u.targets && u.targets[w.target] != Stopping ensures Pinned(u, w) {
        assert Pinned(s, w);
      }
    }
  }

  lemma LoseKeeps(s: State, session: Session)
    requires Base(s)
    ensures Base(Next(s, Lose(session))) && (AllPinned(s) ==> AllPinned(Next(s, Lose(session))))
  {
    if session in s.inbound {
      var u := s.(inbound := s.inbound - {session});
      forall k | k in u.cache.entries ensures EntryOk(u, k) { assert EntryOk(s, k); }
      forall x | x in u.inbound ensures InboundOk(u, u.inbound[x]) { assert InboundOk(s, s.inbound[x]); }
      if AllPinned(s) {
        forall w | w in u.registered && w.target in u.targets && u.targets[w.target] != Stopping ensures Pinned(u, w) {
          assert Pinned(s, w);
        }
      }
      assert InboundOk(u, s.inbound[session]) by { assert InboundOk(s, s.inbound[session]); }
      SettleKeeps(u, s.inbound[session]);
    }
  }

  lemma StepKeeps(s: State, step: Step)
    requires Base(s) && Enabled(s, step)
    ensures Base(Next(s, step))
    ensures AllPinned(s) && !Misfire(s, step) ==> AllPinned(Next(s, step))
  {
    match step
    case Hear(k) => ResolveKeeps(s, k);
    case OnWatch(session, k, t) =>
      ResolveKeeps(s, k);
      ResolveCaches(s, k);
      WatchKeeps(Resolve(s, k), session, k, t);
      if AllPinned(s) && !Misfire(s, step) { WatchPins(Resolve(s, k), session, k, t); }
    case OnUnwatch(k, t) =>
      ResolveKeeps(s, k);
      ResolveCaches(s, k);
      UnwatchKeeps(Resolve(s, k), k, t);
    case Lose(session) => LoseKeeps(s, session);
    case Spawn(t) => MoveKeeps(s, t, Running);
    case Move(t, phase) =>
      MoveKeeps(s, t, phase);
      assert s.used + {t} == s.used;
    case FinishStop(t) => StopKeeps(s, t);
  }

  /** A misfire leaves a registered watcher of a live actor unpinned. */
  lemma MisfireUnpins(s: State, step: Step)
    requires Base(s) && Misfire(s, step)
    ensures !AllPinned(Next(s, step))
  {
    ResolveCaches(s, step.key);
    assert EntryOk(s, step.key);
    var u := Next(s, step);
    var w := Watch(step.target, s.cache.entries[step.key].handle);
    assert w in u.registered && !Pinned(u, w);
  }

  const START := State(Cache([], map[]), 0, map[], map[], {}, {}, map[])

  ghost predicate IsRun(s: State, steps: seq<Step>)
    requires Base(s)
    decreases |steps|
  {
    steps == [] || (Enabled(s, steps[0]) && (StepKeeps(s, steps[0]); IsRun(Next(s, steps[0]), steps[1..])))
  }

  /** Every state a run passes through has every live registration pinned. */
  ghost predicate PinnedThroughout(s: State, steps: seq<Step>)
    requires Base(s) && IsRun(s, steps)
    decreases |steps|
  {
    AllPinned(s) && (steps == [] || (StepKeeps(s, steps[0]); PinnedThroughout(Next(s, steps[0]), steps[1..])))
  }

  ghost predicate NoMisfire(s: State, steps: seq<Step>)
    requires Base(s) && IsRun(s, steps)
    decreases |steps|
  {
    steps == [] || (!Misfire(s, steps[0]) && (StepKeeps(s, steps[0]); NoMisfire(Next(s, steps[0]), steps[1..])))
  }

  lemma {:induction false} PinnedFrom(s: State, steps: seq<Step>)
    requires Base(s) && IsRun(s, steps) && AllPinned(s)
    ensures PinnedThroughout(s, steps) <==> NoMisfire(s, steps)
    decreases |steps|
  {
    if steps != [] {
      StepKeeps(s, steps[0]);
      if Misfire(s, steps[0]) {
        MisfireUnpins(s, steps[0]);
      } else {
        PinnedFrom(Next(s, steps[0]), steps[1..]);
      }
    }
  }

  /** Over every run, a foreign watcher registered on a live local actor stays pinned
      throughout if and only if no watch frame of an already registered pair meets its
      target suspended. */
  lemma PinnedUnlessMisfired(steps: seq<Step>)
    requires IsRun(START, steps)
    ensures PinnedThroughout(START, steps) <==> NoMisfire(START, steps)
  {
    PinnedFrom(START, steps);
  }

  /** Resolving a pinned watcher again, whatever it does to the cache, finds its handle. */
  lemma PinnedResolves(s: State, w: Watch, k: Key)
    requires Base(s) && Pinned(s, w)
    ensures Pinned(Resolve(s, k), w)
    ensures Resolve(s, s.keyOf[w.handle]).cache.entries[s.keyOf[w.handle]].handle == w.handle
  {
    ResolveCaches(s, k);
    ResolveCaches(s, s.keyOf[w.handle]);
  }

  /** After an insert the cache is within its cap, or every other entry is pinned. */
  lemma InsertHoldsCap(s: State, k: Key)
    requires Base(s) && k !in s.cache.entries
    ensures var t := Resolve(s, k);
            |t.cache.entries| <= SENDER_CACHE_SIZE
            || forall j | j in t.cache.entries && j != k :: t.cache.entries[j].pins != {}
  {
    var c := Cache(s.cache.order + [k], s.cache.entries[k := Entry(s.made, {})]);
    assert Ordered(c);
    EvictHoldsCap(c.order, c, k);
    EvictSpares(c.order, c, k);
  }

  lemma RunCons(s: State, step: Step, steps: seq<Step>)
    requires Base(s) && Enabled(s, step) && Base(Next(s, step)) && IsRun(Next(s, step), steps)
    ensures IsRun(s, [step] + steps)
    ensures !NoMisfire(Next(s, step), steps) || Misfire(s, step) ==> !NoMisfire(s, [step] + steps)
  {
    assert ([step] + steps)[1..] == steps;
  }

  /** A running actor watched by a sender not heard from before. */
  lemma FirstWatchPins() returns (s1: State, s2: State)
    ensures s1 == Next(START, Spawn(0)) && Base(s1) && s2 == Next(s1, OnWatch(0, 7, 0)) && Base(s2)
    ensures s2.targets == map[0 := Running] && 7 in s2.cache.entries && 0 in s2.cache.entries[7].pins
  {
    s1 := Next(START, Spawn(0));
    StepKeeps(START, Spawn(0));
    ResolveCaches(s1, 7);
    StepKeeps(s1, OnWatch(0, 7, 0));
    s2 := Next(s1, OnWatch(0, 7, 0));
  }

  /** An actor is watched, suspended, and watched again by the same sender: the second
      frame is answered as if the actor were dead, and its pin is gone. */
  lemma SuspensionCanUnpin() returns (steps: seq<Step>)
    ensures IsRun(START, steps) && !PinnedThroughout(START, steps)
  {
    var s1, s2 := FirstWatchPins();
    var s3 := Next(s2, Move(0, Suspended));
    StepKeeps(s2, Move(0, Suspended));
    StepKeeps(s3, OnWatch(0, 7, 0));
    RunCons(s3, OnWatch(0, 7, 0), []);
    steps := [OnWatch(0, 7, 0)] + [];
    RunCons(s2, Move(0, Suspended), steps);
    steps := [Move(0, Suspended)] + steps;
    RunCons(s1, OnWatch(0, 7, 0), steps);
    steps := [OnWatch(0, 7, 0)] + steps;
    RunCons(START, Spawn(0), steps);
    steps := [Spawn(0)] + steps;
    PinnedUnlessMisfired(steps);
  }

  /* ---------- what each frame does to the registrations ---------- */

  /** The handle a frame's sender resolves to. */
  ghost function HandleOf(s: State, k: Key): (h: Handle)
    requires Base(s)
    ensures k in s.cache.entries ==> h == s.cache.entries[k].handle
    ensures k !in s.cache.entries ==> h == s.made
  {
    ResolveCaches(s, k);
    Resolve(s, k).cache.entries[k].handle
  }

  predicate Up(s: State, t: Target) { t in s.targets && s.targets[t] == Running }

  /** A session delivered a watch of `w`. */
  predicate Delivered(s: State, session: Session, w: Watch) {
    session in s.inbound && exists r | r in s.inbound[session] :: w == Watch(r.target, r.handle)
  }

  lemma {:induction false} SettledExactly(s: State, list: seq<Inbound>, w: Watch)
    ensures w in Settled(s, list).registered <==>
      w in s.registered && forall r | r in list :: w != Watch(r.target, r.handle)
    ensures Settled(s, list).inbound == s.inbound
    decreases |list|
  {
    if list != [] {
      SettledExactly(SettledOne(s, list[0]), list[1..], w);
      assert list == [list[0]] + list[1..];
    }
  }

  /** What a step makes of one registration. */
  ghost predicate Stands(s: State, step: Step, w: Watch)
    requires Base(s)
  {
    match step
    case OnWatch(_, k, t) => w in s.registered || (Up(s, t) && w == Watch(t, HandleOf(s, k)))
    case OnUnwatch(k, t) => w in s.registered && !(Up(s, t) && w == Watch(t, HandleOf(s, k)))
    case Lose(session) => w in s.registered && !Delivered(s, session, w)
    case FinishStop(t) => w in s.registered && w.target != t
    case _ => w in s.registered
  }

  lemma ResolveSame(s: State, k: Key)
    ensures var u := Resolve(s, k); u.registered == s.registered && u.inbound == s.inbound && u.targets == s.targets
  {
  }

  lemma WatchedRegisters(u: State, session: Session, k: Key, t: Target, w: Watch)
    requires k in u.cache.entries
    ensures w in Watched(u, session, k, t).registered <==>
      w in u.registered || (Up(u, t) && w == Watch(t, u.cache.entries[k].handle))
  {
  }

  lemma UnwatchedRegisters(u: State, k: Key, t: Target, w: Watch)
    requires k in u.cache.entries
    ensures w in Unwatched(u, k, t).registered <==>
      w in u.registered && !(Up(u, t) && w == Watch(t, u.cache.entries[k].handle))
  {
  }

  lemma FrameRegisters(s: State, step: Step, w: Watch)
    requires Base(s) && (step.OnWatch? || step.OnUnwatch?)
    ensures w in Next(s, step).registered <==> Stands(s, step, w)
  {
    var u := Resolve(s, step.key);
    ResolveCaches(s, step.key);
    ResolveSame(s, step.key);
    assert u.cache.entries[step.key].handle == HandleOf(s, step.key);
    match step
    case OnWatch(session, k, t) => WatchedRegisters(u, session, k, t, w);
    case OnUnwatch(k, t) => UnwatchedRegisters(u, k, t, w);
  }

  lemma LossRegisters(s: State, session: Session, w: Watch)
    requires Base(s)
    ensures w in Next(s, Lose(session)).registered <==> Stands(s, Lose(session), w)
  {
    if session in s.inbound { SettledExactly(s.(inbound := s.inbound - {session}), s.inbound[session], w); }
  }

  /** A watch of a running actor registers its sender's handle; an unwatch removes exactly
      that; a lost session removes exactly what it delivered; a stopped actor's go with
      it; and nothing else changes a registration. A pin stands only for one. */
  lemma RegisteredExactly(s: State, step: Step, w: Watch)
    requires Base(s) && Enabled(s, step)
    ensures w in Next(s, step).registered <==> Stands(s, step, w)
  {
    match step
    case OnWatch(_, _, _) => FrameRegisters(s, step, w);
    case OnUnwatch(_, _) => FrameRegisters(s, step, w);
    case Lose(session) => LossRegisters(s, session, w);
    case _ =>
  }

  lemma WatchIsTracked(s: State, x: Session, k: Key, t: Target, session: Session, w: Watch)
    requires Base(s)
    ensures Delivered(Next(s, OnWatch(x, k, t)), session, w) <==>
      Delivered(s, session, w) || (x == session && Up(s, t) && w == Watch(t, HandleOf(s, k)))
  {
    var u := Resolve(s, k);
    ResolveCaches(s, k);
    ResolveSame(s, k);
    WatchedTracks(u, x, k, t);
    if Up(s, t) { TrackedExactly(s.inbound, x, Inbound(t, HandleOf(s, k), k), session, w); }
  }

  lemma WatchedTracks(u: State, x: Session, k: Key, t: Target)
    requires k in u.cache.entries
    ensures Watched(u, x, k, t).inbound
         == if Up(u, t) then Tracked(u.inbound, x, Inbound(t, u.cache.entries[k].handle, k)) else u.inbound
  {
  }

  /** A watch of a running actor is recorded under the session that delivered it, so the
      loss of the session finds it; the loss leaves no record of the session. */
  lemma DeliveriesAreTracked(s: State, step: Step, session: Session, w: Watch)
    requires Base(s) && Enabled(s, step)
    ensures Delivered(Next(s, step), session, w) <==>
      match step
      case OnWatch(x, k, t) => Delivered(s, session, w) || (x == session && Up(s, t) && w == Watch(t, HandleOf(s, k)))
      case Lose(x) => Delivered(s, session, w) && x != session
      case _ => Delivered(s, session, w)
  {
    match step
    case OnWatch(x, k, t) => WatchIsTracked(s, x, k, t, session, w);
    case OnUnwatch(k, _) => ResolveCaches(s, k);
    case Lose(x) =>
      if x in s.inbound { SettledExactly(s.(inbound := s.inbound - {x}), s.inbound[x], w); }
    case _ =>
  }

  lemma TrackedExactly(inbound: map<Session, seq<Inbound>>, x: Session, r: Inbound, session: Session, w: Watch)
    ensures var after := Tracked(inbound, x, r);
      (session in after && exists q | q in after[session] :: w == Watch(q.target, q.handle)) <==>
      (session in inbound && exists q | q in inbound[session] :: w == Watch(q.target, q.handle)) ||
      (x == session && w == Watch(r.target, r.handle))
  {
    var after := Tracked(inbound, x, r);
    if x == session {
      var before := if session in inbound then inbound[session] else [];
      assert after[session] == before + [r];
      assert r in after[session];
    }
  }

  /** A sender heard from while the cache is at its cap becomes the last an eviction
      reaches; the others keep their order. */
  lemma HeardIsMostRecent(s: State, k: Key)
    requires Base(s) && k in s.cache.entries && |s.cache.entries| >= SENDER_CACHE_SIZE
    ensures var t := Next(s, Hear(k));
      var order := t.cache.order;
      && order != [] && order[|order| - 1] == k
      && order[..|order| - 1] == Forgotten(s.cache.order, k)
      && t.cache.entries == s.cache.entries && t.registered == s.registered && t.inbound == s.inbound
  {
  }

  /** Forgetting a key keeps the others in their order. */
  lemma {:induction false} ForgottenKeepsOrder(order: seq<Key>, k: Key, i: nat, j: nat) returns (a: nat, b: nat)
    requires i < j < |order| && order[i] != k && order[j] != k
    ensures a < b < |Forgotten(order, k)| && Forgotten(order, k)[a] == order[i] && Forgotten(order, k)[b] == order[j]
  {
    if i > 0 {
      a, b := ForgottenKeepsOrder(order[1..], k, i - 1, j - 1);
      if order[0] != k { a, b := a + 1, b + 1; }
    } else {
      a := 0;
      ForgottenMembers(order[1..], k, order[j]);
      assert order[1..][j - 1] == order[j];
      var c :| 0 <= c < |Forgotten(order[1..], k)| && Forgotten(order[1..], k)[c] == order[j];
      b := c + 1;
    }
  }

  /** A sender new to the cache is cached under a handle of its own. */
  lemma NewIsCached(s: State, k: Key)
    requires Base(s) && k !in s.cache.entries
    ensures var t := Next(s, Hear(k));
      && k in t.cache.entries && t.cache.entries[k] == Entry(s.made, {})
      && t.keyOf == s.keyOf[s.made := k] && t.made == s.made + 1
  {
    ResolveCaches(s, k);
  }

  /** The actor has been and gone, and nobody is registered on it. */
  predicate Gone(s: State, t: Target) {
    t in s.used && t !in s.targets && forall w | w in s.registered :: w.target != t
  }

  ghost predicate GoneThroughout(s: State, steps: seq<Step>, t: Target)
    requires Base(s) && IsRun(s, steps)
    decreases |steps|
  {
    Gone(s, t) && (steps == [] || (StepKeeps(s, steps[0]); GoneThroughout(Next(s, steps[0]), steps[1..], t)))
  }

  lemma StopLeavesNothing(s: State, t: Target)
    requires Base(s) && Enabled(s, FinishStop(t))
    ensures Gone(Next(s, FinishStop(t)), t)
  {
  }

  lemma {:induction false} SettledKeepsTargets(s: State, list: seq<Inbound>)
    ensures Settled(s, list).targets == s.targets && Settled(s, list).used == s.used
    decreases |list|
  {
    if list != [] { SettledKeepsTargets(SettledOne(s, list[0]), list[1..]); }
  }

  /** A name that was taken and has stopped is not taken again. */
  lemma GoneStays(s: State, step: Step, t: Target)
    requires Ordered(s.cache) && Enabled(s, step) && t in s.used && t !in s.targets
    ensures t in Next(s, step).used && t !in Next(s, step).targets
  {
    match step
    case OnWatch(x, k, u) =>
      ResolveCaches(s, k);
      ResolveKeepsTargets(s, k);
      WatchedKeepsTargets(Resolve(s, k), x, k, u);
    case OnUnwatch(k, u) =>
      ResolveCaches(s, k);
      ResolveKeepsTargets(s, k);
      UnwatchedKeepsTargets(Resolve(s, k), k, u);
    case Lose(x) => if x in s.inbound { SettledKeepsTargets(s.(inbound := s.inbound - {x}), s.inbound[x]); }
    case _ =>
  }

  lemma ResolveKeepsTargets(s: State, k: Key)
    ensures Resolve(s, k).targets == s.targets && Resolve(s, k).used == s.used
  {
  }

  lemma WatchedKeepsTargets(s: State, x: Session, k: Key, t: Target)
    requires k in s.cache.entries
    ensures Watched(s, x, k, t).targets == s.targets && Watched(s, x, k, t).used == s.used
  {
  }

  lemma UnwatchedKeepsTargets(s: State, k: Key, t: Target)
    requires k in s.cache.entries
    ensures Unwatched(s, k, t).targets == s.targets && Unwatched(s, k, t).used == s.used
  {
  }

  /** No watch, whenever it arrives, registers anybody on a stopped actor again. */
  lemma {:induction false} StoppedForGood(s: State, steps: seq<Step>, t: Target)
    requires Base(s) && IsRun(s, steps) && Gone(s, t)
    ensures GoneThroughout(s, steps, t)
    decreases |steps|
  {
    if steps != [] {
      StepKeeps(s, steps[0]);
      GoneStays(s, steps[0], t);
      StoppedForGood(Next(s, steps[0]), steps[1..], t);
    }
  }
}
