/**
 The balanced fill that spreads a departed node's actors over the survivors.
 */
module Relocation {

  /* ---------- names and their order ---------- */

  /** The order JavaScript compares and sorts strings by. */
  predicate Before(a: string, b: string) {
    b != [] && (a == [] || a[0] < b[0] || (a[0] == b[0] && Before(a[1..], b[1..])))
  }

  lemma {:induction false} BeforeIsStrict(a: string, b: string)
    ensures !(Before(a, b) && Before(b, a))
    ensures a == b ==> !Before(a, b)
  {
    if a != [] && b != [] { BeforeIsStrict(a[1..], b[1..]); }
  }

  lemma {:induction false} BeforeIsTotal(a: string, b: string)
    ensures a == b || Before(a, b) || Before(b, a)
  {
    if a != [] && b != [] {
      BeforeIsTotal(a[1..], b[1..]);
      assert a == [a[0]] + a[1..] && b == [b[0]] + b[1..];
    }
  }

  lemma {:induction false} BeforeIsTransitive(a: string, b: string, c: string)
    requires Before(a, b) && Before(b, c)
    ensures Before(a, c)
  {
    if a != [] && a[0] == b[0] == c[0] { BeforeIsTransitive(a[1..], b[1..], c[1..]); }
  }

  function InsertName(x: string, s: seq<string>): seq<string> {
    if s == [] || !Before(s[0], x) then [x] + s else [s[0]] + InsertName(x, s[1..])
  }

  function SortNames(s: seq<string>): seq<string> {
    if s == [] then [] else InsertName(s[0], SortNames(s[1..]))
  }

  predicate Sorted(s: seq<string>) {
    forall i, j | 0 <= i < j < |s| :: !Before(s[j], s[i])
  }

  lemma {:induction false} InsertPermutes(x: string, s: seq<string>)
    ensures multiset(InsertName(x, s)) == multiset(s) + multiset{x}
  {
    if s != [] && Before(s[0], x) {
      InsertPermutes(x, s[1..]);
      assert s == [s[0]] + s[1..];
    }
  }

  lemma {:induction false} InsertSorted(x: string, s: seq<string>)
    requires Sorted(s)
    ensures Sorted(InsertName(x, s))
  {
    if s == [] || !Before(s[0], x) {
      forall j | 0 <= j < |s| ensures !Before(s[j], x) {
        if 0 < j {
          BeforeIsTotal(s[0], s[j]);
          if Before(s[0], s[j]) && Before(s[j], x) { BeforeIsTransitive(s[0], s[j], x); }
        }
      }
    } else {
      InsertSorted(x, s[1..]);
      InsertPermutes(x, s[1..]);
      BeforeIsStrict(s[0], x);
      var t := InsertName(x, s[1..]);
      forall j | 0 <= j < |t| ensures !Before(t[j], s[0]) {
        assert t[j] in multiset(s[1..]) + multiset{x};
      }
    }
  }

  /** `SortNames` returns the sorted permutation of its input. */
  lemma {:induction false} SortNamesSorts(s: seq<string>)
    ensures Sorted(SortNames(s)) && multiset(SortNames(s)) == multiset(s)
  {
    if s != [] {
      SortNamesSorts(s[1..]);
      InsertSorted(s[0], SortNames(s[1..]));
      InsertPermutes(s[0], SortNames(s[1..]));
      assert s == [s[0]] + s[1..];
    }
  }

  lemma SortedHeadsAgree(s: seq<string>, t: seq<string>)
    requires Sorted(s) && Sorted(t) && s != [] && t != [] && s[0] in t && t[0] in s
    ensures s[0] == t[0]
  {
    BeforeIsTotal(s[0], t[0]);
  }

  lemma TailMultiset(s: seq<string>)
    requires s != []
    ensures multiset(s[1..]) == multiset(s) - multiset{s[0]}
  {
    assert s == [s[0]] + s[1..];
  }

  lemma {:induction false} SortedIsUnique(s: seq<string>, t: seq<string>)
    requires Sorted(s) && Sorted(t) && multiset(s) == multiset(t)
    ensures s == t
  {
    assert |s| == |multiset(s)| == |multiset(t)| == |t|;
    if s != [] {
      assert s[0] in multiset(t) && t[0] in multiset(s);
      SortedHeadsAgree(s, t);
      TailMultiset(s);
      TailMultiset(t);
      SortedIsUnique(s[1..], t[1..]);
      assert s == [s[0]] + s[1..] && t == [t[0]] + t[1..];
    }
  }

  /* ---------- the balanced fill ---------- */

  /** A survivor and how many actors it owns. */
  datatype Load = Load(id: string, count: nat)

  datatype Assignment = Assignment(name: string, owner: string)

  /** `a` is emptier than `b`, ties broken by the lower address. */
  predicate Emptier(a: Load, b: Load) {
    a.count < b.count || (a.count == b.count && Before(a.id, b.id))
  }

  /** `k` is the slot the scan settles on: no slot is emptier, and every earlier
      slot is strictly fuller. */
  predicate IsEmptiest(load: seq<Load>, k: nat) {
    && k < |load|
    && (forall j | 0 <= j < |load| :: !Emptier(load[j], load[k]))
    && (forall j | 0 <= j < k :: Emptier(load[k], load[j]))
  }

  lemma EmptierOrder(a: Load, b: Load, c: Load)
    ensures !(Emptier(a, b) && Emptier(b, a))
    ensures Emptier(a, b) || Emptier(b, a) || a == b
    ensures Emptier(a, b) && Emptier(b, c) ==> Emptier(a, c)
  {
    BeforeIsStrict(a.id, b.id);
    BeforeIsTotal(a.id, b.id);
    if Before(a.id, b.id) && Before(b.id, c.id) { BeforeIsTransitive(a.id, b.id, c.id); }
  }

  /** The slot the fill chooses next. */
  ghost function Emptiest(load: seq<Load>): (k: nat)
    requires load != []
    ensures IsEmptiest(load, k)
  {
    EmptiestExists(load);
    var k :| IsEmptiest(load, k);
    k
  }

  lemma {:induction false} EmptiestExists(load: seq<Load>)
    requires load != []
    ensures exists k: nat :: IsEmptiest(load, k)
  {
    var last := |load| - 1;
    EmptierOrder(load[last], load[last], load[last]);
    if last == 0 {
      assert IsEmptiest(load, 0);
    } else {
      EmptiestExists(load[..last]);
      var k: nat :| IsEmptiest(load[..last], k);
      assert forall j | 0 <= j < last :: load[..last][j] == load[j];
      EmptierOrder(load[last], load[k], load[k]);
      if Emptier(load[last], load[k]) {
        EmptiestMoves(load, k);
      } else {
        assert IsEmptiest(load, k);
      }
    }
  }

  lemma EmptiestMoves(load: seq<Load>, k: nat)
    requires |load| > 1 && IsEmptiest(load[..|load| - 1], k) && Emptier(load[|load| - 1], load[k])
    ensures IsEmptiest(load, |load| - 1)
  {
    var last := |load| - 1;
    EmptierOrder(load[last], load[last], load[last]);
    forall j | 0 <= j < last ensures Emptier(load[last], load[j]) && !Emptier(load[j], load[last]) {
      assert load[..last][j] == load[j];
      EmptierOrder(load[last], load[k], load[j]);
      EmptierOrder(load[k], load[j], load[j]);
      EmptierOrder(load[last], load[j], load[j]);
    }
  }

  lemma EmptiestIsUnique(load: seq<Load>, k: nat, j: nat)
    requires IsEmptiest(load, k) && IsEmptiest(load, j)
    ensures k == j
  {
    assert !Emptier(load[j], load[k]) && !Emptier(load[k], load[j]);
  }

  function Bump(load: seq<Load>, k: nat): (r: seq<Load>)
    requires k < |load|
    ensures |r| == |load| && forall j | 0 <= j < |load| :: r[j].id == load[j].id
  {
    load[k := Load(load[k].id, load[k].count + 1)]
  }

  predicate Slots(targets: seq<nat>, n: nat) {
    forall i | 0 <= i < |targets| :: targets[i] < n
  }

  /** The loads after giving one actor to each slot in `targets`, in turn. Any
      assignment of orphans to survivors is such a sequence of slots. */
  function Place(targets: seq<nat>, load: seq<Load>): (r: seq<Load>)
    requires Slots(targets, |load|)
    ensures |r| == |load| && forall j | 0 <= j < |load| :: r[j].id == load[j].id
  {
    if targets == [] then load else Place(targets[1..], Bump(load, targets[0]))
  }

  /** The slots the fill gives `n` orphans to. */
  ghost function Targets(n: nat, load: seq<Load>): (r: seq<nat>)
    requires load != []
    ensures |r| == n && Slots(r, |load|)
  {
    if n == 0 then [] else [Emptiest(load)] + Targets(n - 1, Bump(load, Emptiest(load)))
  }

  /** The fill of `names`, in the order given. */
  ghost function Fill(names: seq<string>, load: seq<Load>): (r: seq<Assignment>)
    requires load != []
    ensures |r| == |names|
  {
    if names == [] then [] else
    [Assignment(names[0], load[Emptiest(load)].id)] + Fill(names[1..], Bump(load, Emptiest(load)))
  }

  /** The plan: the orphans in name order, each on the survivor that is emptiest
      when its turn comes. */
  ghost function Plan(orphans: seq<string>, load: seq<Load>): seq<Assignment> {
    if load == [] then [] else Fill(SortNames(orphans), load)
  }

  method FindEmptiest(load: array<Load>) returns (best: nat)
    requires load.Length > 0
    ensures best < load.Length && best == Emptiest(load[..])
  {
    best := 0;
    EmptierOrder(load[0], load[0], load[0]);
    assert load[..0] == [];
    var k := 0;
    while k < load.Length
      invariant 0 <= k <= load.Length
      invariant if k == 0 then best == 0 else IsEmptiest(load[..k], best)
    {
      EmptierOrder(load[k], load[k], load[k]);
      EmptierOrder(load[k], load[best], load[best]);
      assert load[..k + 1][..k] == load[..k];
      assert forall j | 0 <= j < k :: load[..k + 1][j] == load[..k][j];
      if Emptier(load[k], load[best]) {
        if k > 0 { EmptiestMoves(load[..k + 1], best); }
        best := k;
      }
      k := k + 1;
    }
    assert load[..k] == load[..];
    EmptiestIsUnique(load[..], best, Emptiest(load[..]));
  }

  /** `planFill`: the loop that bumps the chosen survivor's count in place. */
  method PlanFill(orphans: seq<string>, survivors: seq<Load>) returns (assignments: seq<Assignment>)
    ensures assignments == Plan(orphans, survivors)
  {
    if |survivors| == 0 {
      return [];
    }
    var load := new Load[|survivors|](i requires 0 <= i < |survivors| => survivors[i]);
    assert load[..] == survivors;
    var ordered := SortNames(orphans);
    assignments := [];
    ghost var rest, view := ordered, survivors;
    for i := 0 to |ordered|
      invariant rest == ordered[i..] && view == load[..] && |view| == |survivors|
      invariant assignments + Fill(rest, view) == Fill(ordered, survivors)
    {
      var k := FindEmptiest(load);
      FillStep(assignments, rest, view);
      assignments := assignments + [Assignment(ordered[i], load[k].id)];
      load[k] := Load(load[k].id, load[k].count + 1);
      rest, view := rest[1..], Bump(view, k);
    }
  }

  lemma FillStep(done: seq<Assignment>, names: seq<string>, load: seq<Load>)
    requires load != [] && names != []
    ensures done + Fill(names, load)
         == (done + [Assignment(names[0], load[Emptiest(load)].id)]) + Fill(names[1..], Bump(load, Emptiest(load)))
  {
  }

  /* ---------- what the plan guarantees ---------- */

  lemma {:induction false} FillTargets(names: seq<string>, load: seq<Load>)
    requires load != []
    ensures forall i | 0 <= i < |names| ::
      Fill(names, load)[i] == Assignment(names[i], load[Targets(|names|, load)[i]].id)
  {
    if names != [] {
      FillTargets(names[1..], Bump(load, Emptiest(load)));
      var ts := Targets(|names|, load);
      forall i | 0 < i < |names|
        ensures Fill(names, load)[i] == Assignment(names[i], load[ts[i]].id)
      {
        assert names[i] == names[1..][i - 1];
      }
    }
  }

  function NamesOf(plan: seq<Assignment>): seq<string> {
    seq(|plan|, i requires 0 <= i < |plan| => plan[i].name)
  }

  predicate Survivor(id: string, survivors: seq<Load>) {
    exists k | 0 <= k < |survivors| :: survivors[k].id == id
  }

  predicate OwnersAmong(plan: seq<Assignment>, survivors: seq<Load>) {
    forall i | 0 <= i < |plan| :: Survivor(plan[i].owner, survivors)
  }

  lemma FillCovers(names: seq<string>, load: seq<Load>)
    requires load != []
    ensures NamesOf(Fill(names, load)) == names && OwnersAmong(Fill(names, load), load)
  {
    FillTargets(names, load);
    var ts := Targets(|names|, load);
    forall i | 0 <= i < |names| ensures Survivor(Fill(names, load)[i].owner, load) {
      assert Fill(names, load)[i].owner == load[ts[i]].id;
    }
  }

  /** Whenever a survivor exists, every orphan gets exactly one owner, and the
      owner is a survivor. */
  lemma EveryOrphanPlaced(orphans: seq<string>, survivors: seq<Load>)
    requires survivors != []
    ensures multiset(NamesOf(Plan(orphans, survivors))) == multiset(orphans)
    ensures OwnersAmong(Plan(orphans, survivors), survivors)
  {
    SortNamesSorts(orphans);
    FillCovers(SortNames(orphans), survivors);
  }

  /** The slots in `recv` are at most one above every slot. */
  ghost predicate Level(recv: set<nat>, load: seq<Load>) {
    forall k, j | k in recv && k < |load| && 0 <= j < |load| :: load[k].count <= load[j].count + 1
  }

  function SlotSet(targets: seq<nat>): set<nat> { set t | t in targets }

  /** Filling keeps earlier receivers level and makes the new ones level. */
  lemma {:induction false} FillLevels(recv: set<nat>, n: nat, load: seq<Load>)
    requires load != [] && Level(recv, load)
    ensures Level(recv + SlotSet(Targets(n, load)), Place(Targets(n, load), load))
    decreases n
  {
    if n > 0 {
      var k := Emptiest(load);
      var next := Bump(load, k);
      assert forall j | 0 <= j < |load| :: load[k].count <= load[j].count;
      FillLevels(recv + {k}, n - 1, next);
      var rest := Targets(n - 1, next);
      assert Targets(n, load)[1..] == rest && Targets(n, load)[0] == k;
      assert recv + SlotSet(Targets(n, load)) == (recv + {k}) + SlotSet(rest) by {
        assert Targets(n, load) == [k] + rest;
      }
    }
  }

  predicate DistinctIds(load: seq<Load>) {
    forall i, j | 0 <= i < j < |load| :: load[i].id != load[j].id
  }

  /** How many of the assignments go to `id`. */
  function Hits(plan: seq<Assignment>, id: string): nat {
    if plan == [] then 0 else (if plan[0].owner == id then 1 else 0) + Hits(plan[1..], id)
  }

  /** The assignments give one actor to each of the slots, in turn. */
  predicate Gives(plan: seq<Assignment>, targets: seq<nat>, load: seq<Load>) {
    && |plan| == |targets| && Slots(targets, |load|)
    && (forall i | 0 <= i < |plan| :: plan[i].owner == load[targets[i]].id)
  }

  /** A slot's load grows by exactly the names assigned to it. */
  lemma {:induction false} PlaceHits(plan: seq<Assignment>, targets: seq<nat>, load: seq<Load>, k: nat)
    requires DistinctIds(load) && k < |load| && Gives(plan, targets, load)
    ensures Place(targets, load)[k].count == load[k].count + Hits(plan, load[k].id)
    decreases |plan|
  {
    if plan != [] {
      var next := Bump(load, targets[0]);
      forall i | 0 <= i < |plan| - 1 ensures plan[1..][i].owner == next[targets[1..][i]].id {
        assert plan[1..][i] == plan[i + 1] && targets[1..][i] == targets[i + 1];
      }
      PlaceHits(plan[1..], targets[1..], next, k);
    }
  }

  lemma PlanGives(orphans: seq<string>, survivors: seq<Load>)
    requires survivors != []
    ensures Gives(Plan(orphans, survivors), Targets(|orphans|, survivors), survivors)
  {
    SortNamesSorts(orphans);
    assert |SortNames(orphans)| == |multiset(SortNames(orphans))| == |orphans|;
    FillTargets(SortNames(orphans), survivors);
  }

  lemma {:induction false} HitSlot(plan: seq<Assignment>, targets: seq<nat>, load: seq<Load>, k: nat)
    requires DistinctIds(load) && k < |load| && Gives(plan, targets, load)
    ensures Hits(plan, load[k].id) > 0 <==> k in targets
    decreases |plan|
  {
    if plan != [] {
      forall i | 0 <= i < |plan| - 1 ensures plan[1..][i].owner == load[targets[1..][i]].id {
        assert plan[1..][i] == plan[i + 1] && targets[1..][i] == targets[i + 1];
      }
      HitSlot(plan[1..], targets[1..], load, k);
      assert targets == [targets[0]] + targets[1..];
    }
  }

  /** A survivor's load once the plan has been carried out. */
  function Final(l: Load, plan: seq<Assignment>): nat {
    l.count + Hits(plan, l.id)
  }

  /** Every survivor the plan assigns an orphan to ends at most one above every
      survivor. */
  lemma PlanIsBalanced(orphans: seq<string>, survivors: seq<Load>, k: nat, j: nat)
    requires DistinctIds(survivors) && k < |survivors| && j < |survivors|
    requires Hits(Plan(orphans, survivors), survivors[k].id) > 0
    ensures var plan := Plan(orphans, survivors); Final(survivors[k], plan) <= Final(survivors[j], plan) + 1
  {
    var plan, ts := Plan(orphans, survivors), Targets(|orphans|, survivors);
    PlanGives(orphans, survivors);
    PlaceHits(plan, ts, survivors, k);
    PlaceHits(plan, ts, survivors, j);
    HitSlot(plan, ts, survivors, k);
    FillLevels({}, |orphans|, survivors);
    assert k in SlotSet(ts);
  }

  function Total(load: seq<Load>): nat {
    if load == [] then 0 else Total(load[..|load| - 1]) + load[|load| - 1].count
  }

  function Highest(load: seq<Load>): (m: nat)
    ensures forall k | 0 <= k < |load| :: load[k].count <= m
  {
    if load == [] then 0 else
    var rest, last := Highest(load[..|load| - 1]), load[|load| - 1].count;
    assert forall k | 0 <= k < |load| - 1 :: load[..|load| - 1][k] == load[k];
    if rest < last then last else rest
  }

  lemma {:induction false} HighestSlot(load: seq<Load>) returns (k: nat)
    requires load != []
    ensures k < |load| && load[k].count == Highest(load)
  {
    k := |load| - 1;
    if 0 < k && load[k].count < Highest(load) {
      k := HighestSlot(load[..k]);
    }
  }

  lemma {:induction false} BumpTotal(load: seq<Load>, k: nat)
    requires k < |load|
    ensures Total(Bump(load, k)) == Total(load) + 1
  {
    var last := |load| - 1;
    if k == last {
      assert Bump(load, k)[..last] == load[..last];
    } else {
      assert Bump(load, k)[..last] == Bump(load[..last], k);
      BumpTotal(load[..last], k);
    }
  }

  /** No assignment loses or invents an actor. */
  lemma {:induction false} PlaceTotal(targets: seq<nat>, load: seq<Load>)
    requires Slots(targets, |load|)
    ensures Total(Place(targets, load)) == Total(load) + |targets|
  {
    if targets != [] {
      BumpTotal(load, targets[0]);
      PlaceTotal(targets[1..], Bump(load, targets[0]));
    }
  }

  lemma {:induction false} PlaceGrows(targets: seq<nat>, load: seq<Load>, k: nat)
    requires Slots(targets, |load|) && k < |load|
    ensures load[k].count <= Place(targets, load)[k].count
    ensures k !in targets ==> load[k].count == Place(targets, load)[k].count
  {
    if targets != [] {
      PlaceGrows(targets[1..], Bump(load, targets[0]), k);
    }
  }

  lemma {:induction false} TotalAtMost(load: seq<Load>, high: nat)
    requires forall k | 0 <= k < |load| :: load[k].count <= high
    ensures Total(load) <= |load| * high
  {
    if load != [] {
      var last := |load| - 1;
      assert forall k | 0 <= k < last :: load[..last][k] == load[k];
      TotalAtMost(load[..last], high);
      assert |load| * high == last * high + high;
    }
  }

  lemma {:induction false} TotalAtLeast(load: seq<Load>, low: nat)
    requires forall k | 0 <= k < |load| :: low <= load[k].count
    ensures |load| * low <= Total(load)
  {
    if load != [] {
      var last := |load| - 1;
      assert forall k | 0 <= k < last :: load[..last][k] == load[k];
      TotalAtLeast(load[..last], low);
      assert |load| * low == last * low + low;
    }
  }

  lemma {:induction false} TotalAbove(load: seq<Load>, low: nat, top: nat)
    requires (forall k | 0 <= k < |load| :: low <= load[k].count) && top < |load| && low < load[top].count
    ensures |load| * low < Total(load)
  {
    var last := |load| - 1;
    assert forall k | 0 <= k < last :: load[..last][k] == load[k];
    assert |load| * low == last * low + low;
    if top == last {
      TotalAtLeast(load[..last], low);
    } else {
      TotalAbove(load[..last], low, top);
    }
  }

  lemma LevelBeatsAll(final: seq<Load>, rival: seq<Load>, k: nat)
    requires |final| == |rival| && Total(final) == Total(rival)
    requires k < |final| && 0 < final[k].count
    requires forall j | 0 <= j < |final| :: final[k].count <= final[j].count + 1
    ensures final[k].count <= Highest(rival)
  {
    TotalAbove(final, final[k].count - 1, k);
    if Highest(rival) < final[k].count { TotalAtMost(rival, final[k].count - 1); }
  }

  lemma ReceiverBeatsAll(survivors: seq<Load>, other: seq<nat>, k: nat)
    requires survivors != [] && Slots(other, |survivors|) && k in Targets(|other|, survivors)
    ensures Place(Targets(|other|, survivors), survivors)[k].count <= Highest(Place(other, survivors))
  {
    var ts := Targets(|other|, survivors);
    FillLevels({}, |other|, survivors);
    assert k in SlotSet(ts);
    PlaceTotal(ts, survivors);
    PlaceTotal(other, survivors);
    if 0 < Place(ts, survivors)[k].count {
      LevelBeatsAll(Place(ts, survivors), Place(other, survivors), k);
    }
  }

  lemma BystanderBeatsAll(survivors: seq<Load>, targets: seq<nat>, other: seq<nat>, k: nat)
    requires Slots(targets, |survivors|) && Slots(other, |survivors|) && k < |survivors| && k !in targets
    ensures Place(targets, survivors)[k].count <= Highest(Place(other, survivors))
  {
    PlaceGrows(other, survivors, k);
    PlaceGrows(targets, survivors, k);
  }

  lemma SlotBeatsAll(survivors: seq<Load>, other: seq<nat>, k: nat)
    requires survivors != [] && Slots(other, |survivors|) && k < |survivors|
    ensures Place(Targets(|other|, survivors), survivors)[k].count <= Highest(Place(other, survivors))
  {
    if k in Targets(|other|, survivors) {
      ReceiverBeatsAll(survivors, other, k);
    } else {
      BystanderBeatsAll(survivors, Targets(|other|, survivors), other, k);
    }
  }

  lemma {:induction false} OwnersAreSlots(plan: seq<Assignment>, survivors: seq<Load>) returns (targets: seq<nat>)
    requires OwnersAmong(plan, survivors)
    ensures Gives(plan, targets, survivors)
    decreases |plan|
  {
    if plan == [] {
      targets := [];
    } else {
      var rest := OwnersAreSlots(plan[1..], survivors);
      assert Survivor(plan[0].owner, survivors);
      var k :| 0 <= k < |survivors| && survivors[k].id == plan[0].owner;
      targets := [k] + rest;
      forall i | 0 < i < |plan| ensures plan[i].owner == survivors[targets[i]].id {
        assert plan[i] == plan[1..][i - 1];
      }
    }
  }

  /** No assignment of as many orphans to the survivors, clever or not, has a lower
      highest load: whatever load the plan leaves a survivor with, the other
      assignment leaves some survivor with at least that. */
  lemma PlanIsOptimal(orphans: seq<string>, survivors: seq<Load>, other: seq<Assignment>, k: nat) returns (j: nat)
    requires DistinctIds(survivors) && k < |survivors|
    requires |other| == |orphans| && OwnersAmong(other, survivors)
    ensures j < |survivors| && Final(survivors[k], Plan(orphans, survivors)) <= Final(survivors[j], other)
  {
    var plan, ts := Plan(orphans, survivors), Targets(|orphans|, survivors);
    PlanGives(orphans, survivors);
    PlaceHits(plan, ts, survivors, k);
    var us := OwnersAreSlots(other, survivors);
    SlotBeatsAll(survivors, us, k);
    j := HighestSlot(Place(us, survivors));
    PlaceHits(other, us, survivors, j);
  }

  /* ---------- the plan ignores the order of its inputs ---------- */

  lemma SameEmptiest(a: seq<Load>, b: seq<Load>)
    requires a != [] && b != [] && multiset(a) == multiset(b)
    ensures a[Emptiest(a)] == b[Emptiest(b)]
  {
    var x, y := a[Emptiest(a)], b[Emptiest(b)];
    assert x in multiset(b) && y in multiset(a);
    EmptierOrder(x, y, y);
  }

  lemma {:induction false} FillIgnoresOrder(names: seq<string>, a: seq<Load>, b: seq<Load>)
    requires a != [] && b != [] && multiset(a) == multiset(b)
    ensures Fill(names, a) == Fill(names, b)
  {
    if names != [] {
      SameEmptiest(a, b);
      var i, j := Emptiest(a), Emptiest(b);
      BumpMultiset(a, i);
      BumpMultiset(b, j);
      FillIgnoresOrder(names[1..], Bump(a, i), Bump(b, j));
    }
  }

  lemma BumpMultiset(load: seq<Load>, k: nat)
    requires k < |load|
    ensures multiset(Bump(load, k))
         == multiset(load) - multiset{load[k]} + multiset{Load(load[k].id, load[k].count + 1)}
  {
  }

  /** Coordinators that see the same orphans and the same survivors, in whatever
      order, compute the same plan. */
  lemma PlanIgnoresOrder(orphans: seq<string>, orphans': seq<string>, survivors: seq<Load>, survivors': seq<Load>)
    requires multiset(orphans) == multiset(orphans') && multiset(survivors) == multiset(survivors')
    ensures Plan(orphans, survivors) == Plan(orphans', survivors')
  {
    SortNamesSorts(orphans);
    SortNamesSorts(orphans');
    SortedIsUnique(SortNames(orphans), SortNames(orphans'));
    assert |survivors| == |multiset(survivors)| == |multiset(survivors')| == |survivors'|;
    if survivors != [] {
      FillIgnoresOrder(SortNames(orphans), survivors, survivors');
    }
  }
}