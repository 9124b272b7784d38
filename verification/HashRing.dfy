/**
 The consistent hash ring. The hash is an arbitrary function: nothing here
 depends on how it spreads keys, and it may collide at will.
 */
module HashRing {
  import opened Common
  import Decimal

  /** A pool member: its path string and which incarnation of it this is. */
  datatype Pid = Pid(id: string, uid: nat)

  type Hash = string -> nat

  const VIRTUAL_POINTS: nat := 16

  datatype Entry = Entry(point: nat, owner: Pid)

  /** The first `v` positions of a member, in the order they are pushed. */
  function PointsOf(m: Pid, hash: Hash, v: nat): seq<Entry> {
    if v == 0 then [] else PointsOf(m, hash, v - 1) + [Entry(hash(m.id + "#" + Decimal.Print(v - 1)), m)]
  }

  function Entries(members: seq<Pid>, hash: Hash): seq<Entry> {
    if members == [] then [] else
    Entries(members[..|members| - 1], hash) + PointsOf(members[|members| - 1], hash, VIRTUAL_POINTS)
  }

  /* ---------- stable sorting by point ---------- */

  predicate Sorted(s: seq<Entry>) {
    forall i, j | 0 <= i < j < |s| :: s[i].point <= s[j].point
  }

  function Insert(e: Entry, s: seq<Entry>): seq<Entry> {
    if s == [] || e.point <= s[0].point then [e] + s else [s[0]] + Insert(e, s[1..])
  }

  function StableSort(s: seq<Entry>): seq<Entry> {
    if s == [] then [] else Insert(s[0], StableSort(s[1..]))
  }

  /** The entries of `s` whose owner is in `keep`, in order. */
  function Kept(s: seq<Entry>, keep: set<Pid>): seq<Entry> {
    if s == [] then [] else
    if s[0].owner in keep then [s[0]] + Kept(s[1..], keep) else Kept(s[1..], keep)
  }

  /** The entries of `s` at one point, in order. */
  function At(s: seq<Entry>, point: nat): seq<Entry> {
    if s == [] then [] else
    if s[0].point == point then [s[0]] + At(s[1..], point) else At(s[1..], point)
  }

  lemma {:induction false} InsertPermutes(e: Entry, s: seq<Entry>)
    ensures multiset(Insert(e, s)) == multiset(s) + multiset{e}
  {
    if s != [] && s[0].point < e.point {
      InsertPermutes(e, s[1..]);
      assert s == [s[0]] + s[1..];
    }
  }

  lemma {:induction false} InsertSorted(e: Entry, s: seq<Entry>)
    requires Sorted(s)
    ensures Sorted(Insert(e, s))
  {
    if s != [] && s[0].point < e.point {
      InsertSorted(e, s[1..]);
      InsertPermutes(e, s[1..]);
      var t := Insert(e, s[1..]);
      forall j | 0 <= j < |t| ensures s[0].point <= t[j].point {
        assert t[j] in multiset(s[1..]) + multiset{e};
      }
    }
  }

  lemma {:induction false} InsertAt(e: Entry, s: seq<Entry>, point: nat)
    ensures At(Insert(e, s), point) == if e.point == point then [e] + At(s, point) else At(s, point)
  {
    if s == [] || e.point <= s[0].point {
      assert ([e] + s)[1..] == s;
    } else {
      InsertAt(e, s[1..], point);
      assert ([s[0]] + Insert(e, s[1..]))[1..] == Insert(e, s[1..]);
    }
  }

  lemma {:induction false} SortSorts(s: seq<Entry>)
    ensures Sorted(StableSort(s)) && multiset(StableSort(s)) == multiset(s)
  {
    if s != [] {
      SortSorts(s[1..]);
      InsertSorted(s[0], StableSort(s[1..]));
      InsertPermutes(s[0], StableSort(s[1..]));
      assert s == [s[0]] + s[1..];
    }
  }

  lemma {:induction false} SortKeepsPushOrder(s: seq<Entry>, point: nat)
    ensures At(StableSort(s), point) == At(s, point)
  {
    if s != [] {
      SortKeepsPushOrder(s[1..], point);
      InsertAt(s[0], StableSort(s[1..]), point);
    }
  }

  lemma {:induction false} NoneBelowHead(s: seq<Entry>, point: nat)
    requires s == [] || (Sorted(s) && point < s[0].point)
    ensures At(s, point) == []
  {
    if s != [] { NoneBelowHead(s[1..], point); }
  }

  lemma SameHead(s: seq<Entry>, t: seq<Entry>)
    requires Sorted(s) && Sorted(t) && s != [] && t != [] && forall p: nat :: At(s, p) == At(t, p)
    ensures s[0] == t[0]
  {
    var p, q := s[0].point, t[0].point;
    assert At(s, p)[0] == s[0] && At(t, q)[0] == t[0];
    assert At(t, p) == At(s, p) && At(s, q) == At(t, q);
    if p < q { NoneBelowHead(t, p); }
    if q < p { NoneBelowHead(s, q); }
  }

  /** There is only one way to sort stably, so the ring does not depend on the
      sorting algorithm. */
  lemma {:induction false} StableSortIsUnique(s: seq<Entry>, t: seq<Entry>)
    requires Sorted(s) && Sorted(t) && forall p: nat :: At(s, p) == At(t, p)
    ensures s == t
  {
    if s == [] || t == [] {
      assert s != [] ==> At(s, s[0].point) == At(t, s[0].point);
      assert t != [] ==> At(s, t[0].point) == At(t, t[0].point);
    } else {
      SameHead(s, t);
      forall q: nat ensures At(s[1..], q) == At(t[1..], q) {
        assert At(s, q) == At(t, q);
        if q == s[0].point {
          assert At(s[1..], q) == At(s, q)[1..] && At(t[1..], q) == At(t, q)[1..];
        }
      }
      StableSortIsUnique(s[1..], t[1..]);
      assert s == [s[0]] + s[1..] && t == [t[0]] + t[1..];
    }
  }

  /* ---------- lookup ---------- */

  function Ring(members: seq<Pid>, hash: Hash): seq<Entry> {
    StableSort(Entries(members, hash))
  }

  /** How many leading entries lie before `h`. */
  function Below(s: seq<Entry>, h: nat): (n: nat)
    ensures n <= |s|
  {
    if s == [] || h <= s[0].point then 0 else 1 + Below(s[1..], h)
  }

  /** The ring read once around, from the first position at or after `h`. */
  function From(ring: seq<Entry>, h: nat): seq<Entry> {
    ring[Below(ring, h)..] + ring[..Below(ring, h)]
  }

  function FirstRunning(s: seq<Entry>, running: set<Pid>): Option<Pid> {
    if s == [] then None
    else if s[0].owner in running then Some(s[0].owner)
    else FirstRunning(s[1..], running)
  }

  /** The member that owns `key` while `running` are up. */
  function Owner(members: seq<Pid>, hash: Hash, key: string, running: set<Pid>): Option<Pid> {
    FirstRunning(From(Ring(members, hash), hash(key)), running)
  }

  lemma {:induction false} BelowSplits(s: seq<Entry>, h: nat, i: nat)
    requires Sorted(s) && i < |s|
    ensures i < Below(s, h) <==> s[i].point < h
  {
    if s[0].point < h && 0 < i { BelowSplits(s[1..], h, i - 1); }
  }

  /* ---------- whose point comes next ---------- */

  /** The `v`-th position of the `i`-th member. */
  function PointAt(members: seq<Pid>, hash: Hash, i: nat, v: nat): nat
    requires i < |members|
  {
    hash(members[i].id + "#" + Decimal.Print(v))
  }

  /** Going around from `h`, the position `p` pushed `k`-th is met before the position
      `q` pushed `l`-th: those at or after `h` come first, then the lower ones, and of
      equal ones the one pushed earlier. */
  predicate Ahead(h: nat, p: nat, k: nat, q: nat, l: nat) {
    if (p >= h) != (q >= h) then p >= h else p < q || (p == q && k < l)
  }

  predicate Slot(members: seq<Pid>, i: nat, v: nat) { i < |members| && v < VIRTUAL_POINTS }

  /** Of all positions of running members, the `v`-th of the `i`-th member is met first. */
  ghost predicate Wins(members: seq<Pid>, hash: Hash, key: string, running: set<Pid>, i: nat, v: nat) {
    && Slot(members, i, v) && members[i] in running
    && (forall j: nat, w: nat | Slot(members, j, w) && members[j] in running && (j != i || w != v) ::
          Ahead(hash(key), PointAt(members, hash, i, v), i * VIRTUAL_POINTS + v,
                PointAt(members, hash, j, w), j * VIRTUAL_POINTS + w))
  }

  lemma {:induction false} PointsAt(m: Pid, hash: Hash, n: nat, v: nat)
    requires v < n
    ensures |PointsOf(m, hash, n)| == n
    ensures PointsOf(m, hash, n)[v] == Entry(hash(m.id + "#" + Decimal.Print(v)), m)
  {
    if v < n - 1 { PointsAt(m, hash, n - 1, v); } else if n > 1 { PointsAt(m, hash, n - 1, 0); }
  }

  /** The entries are pushed member by member, position by position. */
  lemma {:induction false} EntriesAt(members: seq<Pid>, hash: Hash, i: nat, v: nat)
    requires Slot(members, i, v)
    ensures |Entries(members, hash)| == |members| * VIRTUAL_POINTS
    ensures Entries(members, hash)[i * VIRTUAL_POINTS + v] == Entry(PointAt(members, hash, i, v), members[i])
  {
    var init, last := members[..|members| - 1], members[|members| - 1];
    PointsAt(last, hash, VIRTUAL_POINTS, v);
    if init != [] { EntriesAt(init, hash, if i < |init| then i else 0, v); }
  }

  lemma EntryIsSlot(members: seq<Pid>, hash: Hash, k: nat) returns (i: nat, v: nat)
    requires k < |Entries(members, hash)|
    ensures Slot(members, i, v) && k == i * VIRTUAL_POINTS + v
    ensures Entries(members, hash)[k] == Entry(PointAt(members, hash, i, v), members[i])
  {
    assert members != [];
    EntriesAt(members, hash, 0, 0);
    i, v := k / VIRTUAL_POINTS, k % VIRTUAL_POINTS;
    EntriesAt(members, hash, i, v);
  }

  /** The first running entry of a list, at which index. */
  lemma {:induction false} FirstIs(s: seq<Entry>, running: set<Pid>) returns (t: nat)
    ensures FirstRunning(s, running) == None ==> forall i | 0 <= i < |s| :: s[i].owner !in running
    ensures FirstRunning(s, running) != None ==>
      && t < |s| && s[t].owner in running && FirstRunning(s, running) == Some(s[t].owner)
      && (forall i | 0 <= i < t :: s[i].owner !in running)
  {
    t := 0;
    if s != [] && s[0].owner !in running {
      var u := FirstIs(s[1..], running);
      t := u + 1;
    }
  }

  lemma {:induction false} AtConcat(a: seq<Entry>, b: seq<Entry>, point: nat)
    ensures At(a + b, point) == At(a, point) + At(b, point)
  {
    if a == [] {
      assert a + b == b;
    } else {
      assert (a + b)[1..] == a[1..] + b;
      AtConcat(a[1..], b, point);
    }
  }

  lemma {:induction false} NoneAt(s: seq<Entry>, point: nat)
    requires forall i | 0 <= i < |s| :: s[i].point != point
    ensures At(s, point) == []
  {
    if s != [] { NoneAt(s[1..], point); }
  }

  /** Reading around keeps the entries of one point in their order. */
  lemma FromAt(ring: seq<Entry>, h: nat, point: nat)
    requires Sorted(ring)
    ensures At(From(ring, h), point) == At(ring, point)
  {
    var lo := Below(ring, h);
    assert ring == ring[..lo] + ring[lo..];
    AtConcat(ring[..lo], ring[lo..], point);
    AtConcat(ring[lo..], ring[..lo], point);
    if point < h {
      forall i | 0 <= i < |ring[lo..]| ensures ring[lo..][i].point != point { BelowSplits(ring, h, lo + i); }
      NoneAt(ring[lo..], point);
    } else {
      forall i | 0 <= i < lo ensures ring[..lo][i].point != point { BelowSplits(ring, h, i); }
      NoneAt(ring[..lo], point);
    }
  }

  /** Reading around meets positions at or after `h` first, and then in order. */
  lemma FromSorted(ring: seq<Entry>, h: nat, t: nat, u: nat)
    requires Sorted(ring) && t < u < |ring|
    ensures |From(ring, h)| == |ring|
    ensures var p, q := From(ring, h)[t].point, From(ring, h)[u].point;
      if (p >= h) != (q >= h) then p >= h else p <= q
  {
    var lo := Below(ring, h);
    assert From(ring, h)[t] == ring[if t < |ring| - lo then lo + t else t - (|ring| - lo)];
    assert From(ring, h)[u] == ring[if u < |ring| - lo then lo + u else u - (|ring| - lo)];
    BelowSplits(ring, h, if t < |ring| - lo then lo + t else t - (|ring| - lo));
    BelowSplits(ring, h, if u < |ring| - lo then lo + u else u - (|ring| - lo));
  }

  /** The first running entry is the first running one at its point. */
  lemma {:induction false} FirstAt(s: seq<Entry>, running: set<Pid>, t: nat)
    requires t < |s| && s[t].owner in running
    requires forall i | 0 <= i < t :: s[i].owner !in running || s[i].point != s[t].point
    ensures Kept(At(s, s[t].point), running) != [] && Kept(At(s, s[t].point), running)[0] == s[t]
  {
    if t > 0 {
      FirstAt(s[1..], running, t - 1);
      assert s[1..][t - 1] == s[t];
      if s[0].point == s[t].point { assert ([s[0]] + At(s[1..], s[t].point))[1..] == At(s[1..], s[t].point); }
    }
  }

  lemma {:induction false} FirstPushed(s: seq<Entry>, running: set<Pid>, point: nat) returns (k: nat)
    requires exists i | 0 <= i < |s| :: s[i].point == point && s[i].owner in running
    ensures k < |s| && s[k].point == point && s[k].owner in running
    ensures forall i | 0 <= i < k :: s[i].owner !in running || s[i].point != point
  {
    if s[0].point == point && s[0].owner in running {
      k := 0;
    } else {
      var i :| 0 <= i < |s| && s[i].point == point && s[i].owner in running;
      assert s[1..][i - 1] == s[i];
      k := FirstPushed(s[1..], running, point);
      k := k + 1;
    }
  }

  /** An entry is somewhere around the ring. */
  lemma FromHolds(entries: seq<Entry>, ring: seq<Entry>, h: nat, k: nat) returns (u: nat)
    requires multiset(ring) == multiset(entries) && k < |entries|
    ensures u < |From(ring, h)| == |ring| && From(ring, h)[u] == entries[k]
  {
    var lo := Below(ring, h);
    assert ring == ring[..lo] + ring[lo..];
    assert multiset(From(ring, h)) == multiset(ring);
    assert entries[k] in multiset(entries);
    assert entries[k] in From(ring, h);
    u :| 0 <= u < |From(ring, h)| && From(ring, h)[u] == entries[k];
  }

  /** The first running entry around the ring, by its place in the pushing order: no
      running entry is met before it. */
  lemma FirstAround(entries: seq<Entry>, h: nat, running: set<Pid>) returns (k: nat)
    requires FirstRunning(From(StableSort(entries), h), running) != None
    ensures k < |entries| && entries[k].owner in running
    ensures FirstRunning(From(StableSort(entries), h), running) == Some(entries[k].owner)
    ensures forall l | 0 <= l < |entries| && l != k && entries[l].owner in running ::
              Ahead(h, entries[k].point, k, entries[l].point, l)
  {
    var ring := StableSort(entries);
    var s := From(ring, h);
    SortSorts(entries);
    var t := FirstIs(s, running);
    var p := s[t].point;
    FirstAt(s, running, t);
    FromAt(ring, h, p);
    SortKeepsPushOrder(entries, p);
    k := PlaceOfFirst(entries, running, p, s[t]);
    forall l | 0 <= l < |entries| && l != k && entries[l].owner in running
      ensures Ahead(h, entries[k].point, k, entries[l].point, l)
    {
      var u := FromHolds(entries, ring, h, l);
      if t < u { FromSorted(ring, h, t, u); }
    }
  }

  lemma PlaceOfFirst(entries: seq<Entry>, running: set<Pid>, p: nat, e: Entry) returns (k: nat)
    requires Kept(At(entries, p), running) != [] && Kept(At(entries, p), running)[0] == e
    requires e.point == p && e.owner in running
    ensures k < |entries| && entries[k] == e
    ensures forall i | 0 <= i < k :: entries[i].owner !in running || entries[i].point != p
  {
    KeptMember(At(entries, p), running, e);
    AtMember(entries, p, e);
    k := FirstPushed(entries, running, p);
    FirstAt(entries, running, k);
  }

  lemma {:induction false} KeptMember(s: seq<Entry>, keep: set<Pid>, e: Entry)
    requires e in Kept(s, keep)
    ensures e in s
  {
    if s != [] && !(s[0].owner in keep && e == s[0]) { KeptMember(s[1..], keep, e); }
  }

  lemma {:induction false} AtMember(s: seq<Entry>, point: nat, e: Entry)
    requires e in At(s, point)
    ensures e in s && e.point == point
  {
    if s != [] && !(s[0].point == point && e == s[0]) { AtMember(s[1..], point, e); }
  }

  lemma NobodyOwns(members: seq<Pid>, hash: Hash, key: string, running: set<Pid>)
    ensures Owner(members, hash, key, running) == None ==> forall m | m in members :: m !in running
  {
    if Owner(members, hash, key, running) == None {
      SortSorts(Entries(members, hash));
      forall m | m in members ensures m !in running {
        var i :| 0 <= i < |members| && members[i] == m;
        EntriesAt(members, hash, i, 0);
        var u := FromHolds(Entries(members, hash), Ring(members, hash), hash(key), i * VIRTUAL_POINTS);
        var t := FirstIs(From(Ring(members, hash), hash(key)), running);
      }
    }
  }

  lemma SomebodyOwns(members: seq<Pid>, hash: Hash, key: string, running: set<Pid>) returns (i: nat, v: nat)
    requires Owner(members, hash, key, running) != None
    ensures Wins(members, hash, key, running, i, v) && Owner(members, hash, key, running) == Some(members[i])
  {
    var k := FirstAround(Entries(members, hash), hash(key), running);
    i, v := EntryIsSlot(members, hash, k);
    forall j: nat, w: nat | Slot(members, j, w) && members[j] in running && (j != i || w != v)
      ensures Ahead(hash(key), PointAt(members, hash, i, v), i * VIRTUAL_POINTS + v,
                    PointAt(members, hash, j, w), j * VIRTUAL_POINTS + w)
    {
      EntriesAt(members, hash, j, w);
    }
  }

  /** A key belongs to the running member whose position is met first going around from
      the key's hash, and to nobody exactly when no member runs. */
  lemma OwnerIsNearest(members: seq<Pid>, hash: Hash, key: string, running: set<Pid>)
    ensures Owner(members, hash, key, running) == None <==> forall m | m in members :: m !in running
    ensures Owner(members, hash, key, running) != None ==>
      exists i: nat, v: nat ::
        Wins(members, hash, key, running, i, v) && Owner(members, hash, key, running) == Some(members[i])
  {
    NobodyOwns(members, hash, key, running);
    if Owner(members, hash, key, running) != None {
      var i, v := SomebodyOwns(members, hash, key, running);
      assert members[i] in members;
    }
  }

  class HashRing {
    const points: seq<nat>
    const owners: seq<Pid>
    const hash: Hash
    ghost const members: seq<Pid>

    /** The two arrays are the ring of the members, field by field. */
    ghost predicate Valid() {
      var ring := Ring(members, hash);
      && |points| == |owners| == |ring|
      && (forall i | 0 <= i < |ring| :: ring[i] == Entry(points[i], owners[i]))
    }

    constructor (members: seq<Pid>, hash: Hash)
      ensures Valid() && this.members == members && this.hash == hash
    {
      var entries: seq<Entry> := [];
      for m := 0 to |members|
        invariant entries == Entries(members[..m], hash)
      {
        ghost var before := entries;
        for v := 0 to VIRTUAL_POINTS
          invariant entries == before + PointsOf(members[m], hash, v)
        {
          entries := entries + [Entry(hash(members[m].id + "#" + Decimal.Print(v)), members[m])];
        }
        assert members[..m + 1][..m] == members[..m];
      }
      assert members[..|members|] == members;
      var ring := StableSort(entries);
      this.points := seq(|ring|, i requires 0 <= i < |ring| => ring[i].point);
      this.owners := seq(|ring|, i requires 0 <= i < |ring| => ring[i].owner);
      this.hash := hash;
      this.members := members;
    }

    /** The binary search for the first position at or after `h`. */
    method Search(h: nat, ghost ring: seq<Entry>) returns (lo: nat)
      requires |ring| == |points| && (forall i | 0 <= i < |ring| :: ring[i].point == points[i])
      requires Sorted(ring)
      ensures lo == Below(ring, h)
    {
      lo := 0;
      var hi := |points|;
      while lo < hi
        invariant 0 <= lo <= hi <= |points|
        invariant forall i | 0 <= i < lo :: ring[i].point < h
        invariant forall i | hi <= i < |points| :: h <= ring[i].point
      {
        var mid := (lo + hi) / 2;
        if points[mid] < h {
          lo := mid + 1;
        } else {
          hi := mid;
        }
      }
      if lo < |points| { BelowSplits(ring, h, lo); }
      if 0 < lo { BelowSplits(ring, h, lo - 1); }
    }

    /** The walk around the ring to the first running owner. */
    method Walk(lo: nat, running: set<Pid>, ghost ring: seq<Entry>) returns (owner: Option<Pid>)
      requires |ring| == |owners| && (forall i | 0 <= i < |ring| :: ring[i].owner == owners[i])
      requires lo <= |ring|
      ensures owner == FirstRunning(ring[lo..] + ring[..lo], running)
    {
      var n := |owners|;
      ghost var turn := ring[lo..] + ring[..lo];
      ghost var rest := turn;
      for i := 0 to n
        invariant |turn| == n && rest == turn[i..]
        invariant FirstRunning(turn, running) == FirstRunning(rest, running)
      {
        TurnAt(ring, lo, i);
        var candidate := owners[(lo + i) % n];
        if candidate in running {
          return Some(candidate);
        }
        rest := rest[1..];
      }
      return None;
    }

    method Lookup(key: string, running: set<Pid>) returns (owner: Option<Pid>)
      requires Valid()
      ensures owner == Owner(members, hash, key, running)
      ensures owner == None <==> forall m | m in members :: m !in running
      ensures owner != None ==>
        exists i: nat, v: nat :: Wins(members, hash, key, running, i, v) && owner == Some(members[i])
    {
      OwnerIsNearest(members, hash, key, running);
      if |points| == 0 {
        return None;
      }
      ghost var ring := Ring(members, hash);
      SortSorts(Entries(members, hash));
      var lo := Search(hash(key), ring);
      owner := Walk(lo, running, ring);
    }
  }

  lemma TurnAt(ring: seq<Entry>, lo: nat, i: nat)
    requires lo <= |ring| && i < |ring|
    ensures 0 <= (lo + i) % |ring| < |ring|
    ensures (ring[lo..] + ring[..lo])[i] == ring[(lo + i) % |ring|]
  {
    if lo + i < |ring| {
      assert (lo + i) % |ring| == lo + i;
    } else {
      assert (lo + i) % |ring| == lo + i - |ring|;
    }
  }

  /* ---------- skipping the stopped is rebuilding without them ---------- */

  function Up(members: seq<Pid>, running: set<Pid>): seq<Pid> {
    if members == [] then [] else
    var last := members[|members| - 1];
    var rest := Up(members[..|members| - 1], running);
    if last in running then rest + [last] else rest
  }

  lemma {:induction false} KeptConcat(a: seq<Entry>, b: seq<Entry>, keep: set<Pid>)
    ensures Kept(a + b, keep) == Kept(a, keep) + Kept(b, keep)
  {
    if a == [] {
      assert a + b == b;
    } else {
      assert (a + b)[1..] == a[1..] + b;
      KeptConcat(a[1..], b, keep);
    }
  }

  lemma {:induction false} KeptPoints(m: Pid, hash: Hash, v: nat, keep: set<Pid>)
    ensures Kept(PointsOf(m, hash, v), keep) == if m in keep then PointsOf(m, hash, v) else []
  {
    if v > 0 {
      KeptPoints(m, hash, v - 1, keep);
      var last := Entry(hash(m.id + "#" + Decimal.Print(v - 1)), m);
      KeptConcat(PointsOf(m, hash, v - 1), [last], keep);
      assert [last][1..] == [];
    }
  }

  lemma {:induction false} KeptEntries(members: seq<Pid>, hash: Hash, running: set<Pid>)
    ensures Kept(Entries(members, hash), running) == Entries(Up(members, running), hash)
  {
    if members != [] {
      var init, last := members[..|members| - 1], members[|members| - 1];
      KeptEntries(init, hash, running);
      KeptConcat(Entries(init, hash), PointsOf(last, hash, VIRTUAL_POINTS), running);
      KeptPoints(last, hash, VIRTUAL_POINTS, running);
      if last in running {
        assert Up(members, running)[..|Up(members, running)| - 1] == Up(init, running);
      }
    }
  }

  lemma {:induction false} KeptInsert(e: Entry, s: seq<Entry>, keep: set<Pid>)
    requires Sorted(s)
    ensures Kept(Insert(e, s), keep) == if e.owner in keep then Insert(e, Kept(s, keep)) else Kept(s, keep)
  {
    if s == [] || e.point <= s[0].point {
      assert ([e] + s)[1..] == s;
      KeptAbove(s, keep, e.point);
    } else {
      KeptInsert(e, s[1..], keep);
      assert ([s[0]] + Insert(e, s[1..]))[1..] == Insert(e, s[1..]);
      if s[0].owner in keep { assert ([s[0]] + Kept(s[1..], keep))[1..] == Kept(s[1..], keep); }
    }
  }

  lemma {:induction false} KeptAbove(s: seq<Entry>, keep: set<Pid>, point: nat)
    requires forall i | 0 <= i < |s| :: point <= s[i].point
    ensures forall i | 0 <= i < |Kept(s, keep)| :: point <= Kept(s, keep)[i].point
  {
    if s != [] { KeptAbove(s[1..], keep, point); }
  }

  lemma {:induction false} KeptSort(s: seq<Entry>, keep: set<Pid>)
    ensures Kept(StableSort(s), keep) == StableSort(Kept(s, keep))
  {
    if s != [] {
      KeptSort(s[1..], keep);
      SortSorts(s[1..]);
      KeptInsert(s[0], StableSort(s[1..]), keep);
      if s[0].owner in keep { assert ([s[0]] + Kept(s[1..], keep))[1..] == Kept(s[1..], keep); }
    }
  }

  lemma {:induction false} KeptBelow(ring: seq<Entry>, h: nat, keep: set<Pid>)
    requires Sorted(ring)
    ensures Below(Kept(ring, keep), h) == |Kept(ring[..Below(ring, h)], keep)|
  {
    if ring == [] {
    } else if h <= ring[0].point {
      KeptAbove(ring, keep, h);
      assert ring[..0] == [];
    } else {
      KeptBelow(ring[1..], h, keep);
      assert ring[..Below(ring, h)][1..] == ring[1..][..Below(ring[1..], h)];
      if ring[0].owner in keep { assert ([ring[0]] + Kept(ring[1..], keep))[1..] == Kept(ring[1..], keep); }
    }
  }

  lemma {:induction false} FirstIsFirstKept(s: seq<Entry>, running: set<Pid>)
    ensures FirstRunning(s, running)
         == if Kept(s, running) == [] then None else Some(Kept(s, running)[0].owner)
  {
    if s != [] { FirstIsFirstKept(s[1..], running); }
  }

  lemma {:induction false} KeptTwice(s: seq<Entry>, running: set<Pid>)
    ensures Kept(Kept(s, running), running) == Kept(s, running)
  {
    if s != [] {
      KeptTwice(s[1..], running);
      if s[0].owner in running { assert ([s[0]] + Kept(s[1..], running))[1..] == Kept(s[1..], running); }
    }
  }

  lemma KeptFrom(ring: seq<Entry>, h: nat, keep: set<Pid>)
    requires Sorted(ring)
    ensures Kept(From(ring, h), keep) == From(Kept(ring, keep), h)
  {
    var lo := Below(ring, h);
    assert ring == ring[..lo] + ring[lo..];
    KeptConcat(ring[..lo], ring[lo..], keep);
    KeptConcat(ring[lo..], ring[..lo], keep);
    KeptBelow(ring, h, keep);
  }

  /** Walking past stopped members finds the owner a ring rebuilt from the running
      members alone would give, whatever the hash collides. */
  lemma SkippingIsRebuilding(members: seq<Pid>, hash: Hash, key: string, running: set<Pid>)
    ensures Owner(members, hash, key, running) == Owner(Up(members, running), hash, key, running)
  {
    var ring, h := Ring(members, hash), hash(key);
    SortSorts(Entries(members, hash));
    KeptEntries(members, hash, running);
    KeptSort(Entries(members, hash), running);
    var rebuilt := Ring(Up(members, running), hash);
    assert rebuilt == Kept(ring, running);
    KeptTwice(ring, running);
    SortSorts(Entries(Up(members, running), hash));
    KeptFrom(ring, h, running);
    KeptFrom(rebuilt, h, running);
    FirstIsFirstKept(From(ring, h), running);
    FirstIsFirstKept(From(rebuilt, h), running);
  }

  function All(members: seq<Pid>): set<Pid> { set m | m in members }

  /** The owner of `key` when the whole pool is up. */
  function Assigned(members: seq<Pid>, hash: Hash, key: string): Option<Pid> {
    Owner(members, hash, key, All(members))
  }

  lemma {:induction false} FirstWithout(s: seq<Entry>, running: set<Pid>, m: Pid)
    requires FirstRunning(s, running) != Some(m)
    ensures FirstRunning(s, running - {m}) == FirstRunning(s, running)
  {
    if s != [] && s[0].owner !in running { FirstWithout(s[1..], running, m); }
  }

  lemma {:induction false} UpAll(members: seq<Pid>, running: set<Pid>)
    requires All(members) <= running
    ensures Up(members, running) == members
  {
    if members != [] {
      assert All(members[..|members| - 1]) <= running;
      UpAll(members[..|members| - 1], running);
      assert members[|members| - 1] in All(members);
    }
  }

  lemma {:induction false} UpConcat(a: seq<Pid>, b: seq<Pid>, running: set<Pid>)
    ensures Up(a + b, running) == Up(a, running) + Up(b, running)
  {
    if b == [] {
      assert a + b == a;
    } else {
      assert (a + b)[..|a + b| - 1] == a + b[..|b| - 1];
      UpConcat(a, b[..|b| - 1], running);
    }
  }

  /** Adding a member, wherever it joins the list, moves keys only to that member;
      read the other way, removing a member moves only the keys it owned. */
  lemma ResizeMovesOnlyOwnKeys(a: seq<Pid>, m: Pid, b: seq<Pid>, hash: Hash, key: string)
    requires m !in a && m !in b
    ensures var wide, narrow := a + [m] + b, a + b;
      Assigned(wide, hash, key) == Some(m) || Assigned(wide, hash, key) == Assigned(narrow, hash, key)
  {
    var wide, narrow := a + [m] + b, a + b;
    if Assigned(wide, hash, key) != Some(m) {
      FirstWithout(From(Ring(wide, hash), hash(key)), All(wide), m);
      assert All(wide) - {m} == All(narrow);
      SkippingIsRebuilding(wide, hash, key, All(narrow));
      UpConcat(a + [m], b, All(narrow));
      UpConcat(a, [m], All(narrow));
      UpAll(a, All(narrow));
      UpAll(b, All(narrow));
      assert Up([m], All(narrow)) == [];
    }
  }
}