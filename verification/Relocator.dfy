/**
 One recovery pass of the relocation coordinator: classify each departed node's
 orphans, plan them by balanced fill over the shared counts, recreate them, and
 count what was placed before planning the next departed node.

 What a recreate answers is an input: `outcome` says for each name whether the
 chosen survivor took it, found it already moved, or failed to build it.
 */
module Relocator {
  import opened Common
  import opened Relocation

  datatype Member = Member(name: string, ready: bool, draining: bool)

  /** What an orphan's companion says about it; an absent or unreadable companion
      makes it non-relocatable. */
  datatype Kind = Ordinary | Singleton | NonRelocatable

  datatype Record = Record(name: string, owner: string, kind: Kind)

  datatype Outcome = Placed | AlreadyMoved | BuildFailed

  type Counts = map<string, nat>

  function CountOf(counts: Counts, id: string): nat {
    if id in counts then counts[id] else 0
  }

  function Increment(counts: Counts, id: string): Counts {
    counts[id := CountOf(counts, id) + 1]
  }

  /** The actors each owner outside `dead` holds. */
  function Tally(placements: seq<Record>, dead: seq<string>): Counts {
    if placements == [] then map[] else
    var rest, last := Tally(placements[..|placements| - 1], dead), placements[|placements| - 1];
    if last.owner in dead then rest else Increment(rest, last.owner)
  }

  /** How many records name `id` as their owner. */
  function Holdings(rs: seq<Record>, id: string): nat {
    if rs == [] then 0 else (if rs[0].owner == id then 1 else 0) + Holdings(rs[1..], id)
  }

  /** The names of the orphans of one kind, in scan order. */
  function NamesOfKind(orphans: seq<Record>, kind: Kind): seq<string> {
    if orphans == [] then [] else
    var rest, last := NamesOfKind(orphans[..|orphans| - 1], kind), orphans[|orphans| - 1];
    if last.kind == kind then rest + [last.name] else rest
  }

  function OrphansOf(placements: seq<Record>, dead: string): seq<Record> {
    if placements == [] then [] else
    var rest, last := OrphansOf(placements[..|placements| - 1], dead), placements[|placements| - 1];
    if last.owner == dead then rest + [last] else rest
  }

  predicate Eligible(m: Member, dead: string) { m.ready && !m.draining && m.name != dead }

  /** The members a departed node's actors may land on, with their running load. */
  function Survivors(members: seq<Member>, dead: string, counts: Counts): seq<Load> {
    if members == [] then [] else
    var rest, last := Survivors(members[..|members| - 1], dead, counts), members[|members| - 1];
    if Eligible(last, dead) then rest + [Load(last.name, CountOf(counts, last.name))] else rest
  }

  function OwnersMap(plan: seq<Assignment>): map<string, string> {
    if plan == [] then map[] else
    OwnersMap(plan[..|plan| - 1])[plan[|plan| - 1].name := plan[|plan| - 1].owner]
  }

  /** The ordinary orphans that have an owner, in scan order. */
  function Reassign(names: seq<string>, owners: map<string, string>): seq<Assignment> {
    if names == [] then [] else
    var rest, last := Reassign(names[..|names| - 1], owners), names[|names| - 1];
    if last in owners then rest + [Assignment(last, owners[last])] else rest
  }

  function Pin(names: seq<string>, self: string): seq<Assignment> {
    seq(|names|, i requires 0 <= i < |names| => Assignment(names[i], self))
  }

  /** The reassignments whose recreate took the name. */
  function Taken(rs: seq<Assignment>, outcome: string -> Outcome): seq<Assignment> {
    if rs == [] then [] else
    var rest, last := Taken(rs[..|rs| - 1], outcome), rs[|rs| - 1];
    if outcome(last.name) == Placed then rest + [last] else rest
  }

  function IncrementAll(counts: Counts, moves: seq<Assignment>): Counts {
    if moves == [] then counts else
    Increment(IncrementAll(counts, moves[..|moves| - 1]), moves[|moves| - 1].owner)
  }

  /** What one departed node's pass moves, and where. */
  ghost function MovesOf(dead: string, orphans: seq<Record>, counts: Counts, members: seq<Member>,
                         self: string, outcome: string -> Outcome): seq<Assignment> {
    var ordinary := NamesOfKind(orphans, Ordinary);
    var owners := OwnersMap(Plan(ordinary, Survivors(members, dead, counts)));
    Taken(Reassign(ordinary, owners) + Pin(NamesOfKind(orphans, Singleton), self), outcome)
  }

  /** Everything a pass over `departed` moves, each node planned over the counts
      the earlier ones left and the members in view when its turn comes. */
  ghost function SweepMoves(departed: seq<string>, placements: seq<Record>, counts: Counts,
                            view: string -> seq<Member>, self: string, outcome: string -> Outcome): seq<Assignment> {
    if departed == [] then [] else
    var moves := MovesOf(departed[0], OrphansOf(placements, departed[0]), counts, view(departed[0]), self, outcome);
    moves + SweepMoves(departed[1..], placements, IncrementAll(counts, moves), view, self, outcome)
  }

  /* ---------- the pass as the coordinator runs it ---------- */

  /** Sorts a departed node's orphans into the ones to fill and the ones to pin, each
      name as often as an orphan of the kind has it. */
  method Classify(orphans: seq<Record>) returns (ordinary: seq<string>, singletons: seq<string>)
    ensures ordinary == NamesOfKind(orphans, Ordinary) && singletons == NamesOfKind(orphans, Singleton)
    ensures forall n :: multiset(ordinary)[n] == multiset(Tags(orphans))[(n, Ordinary)]
    ensures forall n :: multiset(singletons)[n] == multiset(Tags(orphans))[(n, Singleton)]
  {
    singletons, ordinary := [], [];
    for i := 0 to |orphans|
      invariant ordinary == NamesOfKind(orphans[..i], Ordinary)
      invariant singletons == NamesOfKind(orphans[..i], Singleton)
    {
      assert orphans[..i + 1][..i] == orphans[..i];
      if orphans[i].kind == Singleton {
        singletons := singletons + [orphans[i].name];
      } else if orphans[i].kind == Ordinary {
        ordinary := ordinary + [orphans[i].name];
      }
    }
    assert orphans[..|orphans|] == orphans;
    forall n
      ensures multiset(ordinary)[n] == multiset(Tags(orphans))[(n, Ordinary)]
      ensures multiset(singletons)[n] == multiset(Tags(orphans))[(n, Singleton)]
    {
      KindExactly(orphans, Ordinary, n);
      KindExactly(orphans, Singleton, n);
    }
  }

  /** Reports and counts exactly the recreates that took their name. */
  method RecreateAll(reassignments: seq<Assignment>, counts: Counts, outcome: string -> Outcome)
    returns (counts': Counts, moves: seq<Assignment>)
    ensures moves == Taken(reassignments, outcome)
    ensures forall a :: multiset(moves)[a] == if outcome(a.name) == Placed then multiset(reassignments)[a] else 0
    ensures counts' == IncrementAll(counts, moves)
  {
    counts', moves := counts, [];
    for i := 0 to |reassignments|
      invariant moves == Taken(reassignments[..i], outcome)
      invariant counts' == IncrementAll(counts, moves)
    {
      assert reassignments[..i + 1][..i] == reassignments[..i];
      if outcome(reassignments[i].name) == Placed {
        assert (moves + [reassignments[i]])[..|moves|] == moves;
        moves := moves + [reassignments[i]];
        counts' := Increment(counts', reassignments[i].owner);
      }
    }
    assert reassignments[..|reassignments|] == reassignments;
    forall a ensures multiset(moves)[a] == if outcome(a.name) == Placed then multiset(reassignments)[a] else 0 {
      TakenExactly(reassignments, outcome, a);
    }
  }

  method RelocateOne(dead: string, orphans: seq<Record>, counts: Counts, members: seq<Member>,
                     self: string, outcome: string -> Outcome)
    returns (counts': Counts, moves: seq<Assignment>)
    ensures moves == MovesOf(dead, orphans, counts, members, self, outcome)
    ensures counts' == IncrementAll(counts, moves)
  {
    var ordinary, singletons := Classify(orphans);
    var reassignments := PlanOne(dead, ordinary, singletons, counts, members, self);
    counts', moves := RecreateAll(reassignments, counts, outcome);
  }

  method ListSurvivors(dead: string, counts: Counts, members: seq<Member>) returns (survivors: seq<Load>)
    ensures survivors == Survivors(members, dead, counts)
  {
    survivors := [];
    for i := 0 to |members|
      invariant survivors == Survivors(members[..i], dead, counts)
    {
      assert members[..i + 1][..i] == members[..i];
      if Eligible(members[i], dead) {
        survivors := survivors + [Load(members[i].name, CountOf(counts, members[i].name))];
      }
    }
    assert members[..|members|] == members;
  }

  method IndexOwners(plan: seq<Assignment>) returns (owners: map<string, string>)
    ensures owners == OwnersMap(plan)
  {
    owners := map[];
    for i := 0 to |plan|
      invariant owners == OwnersMap(plan[..i])
    {
      assert plan[..i + 1][..i] == plan[..i];
      owners := owners[plan[i].name := plan[i].owner];
    }
    assert plan[..|plan|] == plan;
  }

  method ListReassignments(ordinary: seq<string>, owners: map<string, string>) returns (rs: seq<Assignment>)
    ensures rs == Reassign(ordinary, owners)
  {
    rs := [];
    for i := 0 to |ordinary|
      invariant rs == Reassign(ordinary[..i], owners)
    {
      assert ordinary[..i + 1][..i] == ordinary[..i];
      if ordinary[i] in owners {
        rs := rs + [Assignment(ordinary[i], owners[ordinary[i]])];
      }
    }
    assert ordinary[..|ordinary|] == ordinary;
  }

  method PlanOne(dead: string, ordinary: seq<string>, singletons: seq<string>, counts: Counts,
                 members: seq<Member>, self: string) returns (rs: seq<Assignment>)
    ensures var owners := OwnersMap(Plan(ordinary, Survivors(members, dead, counts)));
      rs == Reassign(ordinary, owners) + Pin(singletons, self)
  {
    var survivors := ListSurvivors(dead, counts, members);
    var plan := PlanFill(ordinary, survivors);
    var owners := IndexOwners(plan);
    rs := ListReassignments(ordinary, owners);
    rs := rs + Pin(singletons, self);
  }

  /** Every owner outside `dead` is counted with exactly the records that name it,
      and nobody else is counted. */
  method TallyPlacements(placements: seq<Record>, dead: seq<string>) returns (counts: Counts)
    ensures counts == Tally(placements, dead)
    ensures forall id :: CountOf(counts, id) == if id in dead then 0 else Holdings(placements, id)
  {
    counts := map[];
    for i := 0 to |placements|
      invariant counts == Tally(placements[..i], dead)
    {
      assert placements[..i + 1][..i] == placements[..i];
      if placements[i].owner !in dead {
        counts := Increment(counts, placements[i].owner);
      }
    }
    assert placements[..|placements|] == placements;
    forall id ensures CountOf(counts, id) == if id in dead then 0 else Holdings(placements, id) {
      TallyCounts(placements, dead, id);
    }
  }

  /** Exactly the records that name `dead`, each as often as it was scanned. */
  method CollectOrphans(placements: seq<Record>, dead: string) returns (orphans: seq<Record>)
    ensures orphans == OrphansOf(placements, dead)
    ensures forall r :: multiset(orphans)[r] == if r.owner == dead then multiset(placements)[r] else 0
  {
    orphans := [];
    for i := 0 to |placements|
      invariant orphans == OrphansOf(placements[..i], dead)
    {
      assert placements[..i + 1][..i] == placements[..i];
      if placements[i].owner == dead {
        orphans := orphans + [placements[i]];
      }
    }
    assert placements[..|placements|] == placements;
    forall r ensures multiset(orphans)[r] == if r.owner == dead then multiset(placements)[r] else 0 {
      OrphansExactly(placements, dead, r);
    }
  }

  method Relocate(departed: seq<string>, placements: seq<Record>, view: string -> seq<Member>,
                  self: string, outcome: string -> Outcome)
    returns (counts: Counts, moves: seq<Assignment>)
    ensures moves == SweepMoves(departed, placements, Tally(placements, departed), view, self, outcome)
    ensures counts == IncrementAll(Tally(placements, departed), moves)
  {
    counts := TallyPlacements(placements, departed);
    moves := [];
    ghost var start, todo := counts, departed;
    for d := 0 to |departed|
      invariant todo == departed[d..] && counts == IncrementAll(start, moves)
      invariant moves + SweepMoves(todo, placements, counts, view, self, outcome)
             == SweepMoves(departed, placements, start, view, self, outcome)
    {
      var orphans := CollectOrphans(placements, departed[d]);
      SweepStep(moves, todo, placements, counts, view, self, outcome);
      var batch;
      counts, batch := RelocateOne(departed[d], orphans, counts, view(departed[d]), self, outcome);
      IncrementAllConcat(start, moves, batch);
      moves := moves + batch;
      todo := todo[1..];
    }
  }

  lemma SweepStep(done: seq<Assignment>, departed: seq<string>, placements: seq<Record>, counts: Counts,
                  view: string -> seq<Member>, self: string, outcome: string -> Outcome)
    requires departed != []
    ensures var dead := departed[0];
      var moves := MovesOf(dead, OrphansOf(placements, dead), counts, view(dead), self, outcome);
      done + SweepMoves(departed, placements, counts, view, self, outcome)
      == (done + moves) + SweepMoves(departed[1..], placements, IncrementAll(counts, moves), view, self, outcome)
  {
  }

  lemma {:induction false} IncrementAllConcat(counts: Counts, a: seq<Assignment>, b: seq<Assignment>)
    ensures IncrementAll(counts, a + b) == IncrementAll(IncrementAll(counts, a), b)
  {
    if b == [] {
      assert a + b == a;
    } else {
      IncrementAllConcat(counts, a, b[..|b| - 1]);
      assert (a + b)[..|a + b| - 1] == a + b[..|b| - 1];
    }
  }

  /* ---------- what the counts count ---------- */

  lemma {:induction false} HoldingsConcat(a: seq<Record>, b: seq<Record>, id: string)
    ensures Holdings(a + b, id) == Holdings(a, id) + Holdings(b, id)
  {
    if a == [] {
      assert a + b == b;
    } else {
      assert (a + b)[1..] == a[1..] + b;
      HoldingsConcat(a[1..], b, id);
    }
  }

  lemma {:induction false} TallyCounts(placements: seq<Record>, dead: seq<string>, id: string)
    ensures CountOf(Tally(placements, dead), id) == if id in dead then 0 else Holdings(placements, id)
  {
    if placements != [] {
      var init, last := placements[..|placements| - 1], placements[|placements| - 1];
      TallyCounts(init, dead, id);
      assert placements == init + [last];
      HoldingsConcat(init, [last], id);
      assert [last][1..] == [];
    }
  }

  lemma {:induction false} OrphansExactly(placements: seq<Record>, dead: string, r: Record)
    ensures multiset(OrphansOf(placements, dead))[r] == if r.owner == dead then multiset(placements)[r] else 0
  {
    if placements != [] {
      OrphansExactly(placements[..|placements| - 1], dead, r);
      assert placements == placements[..|placements| - 1] + [placements[|placements| - 1]];
    }
  }

  /** Each orphan's name with what its companion says. */
  function Tags(orphans: seq<Record>): seq<(string, Kind)> {
    seq(|orphans|, i requires 0 <= i < |orphans| => (orphans[i].name, orphans[i].kind))
  }

  lemma {:induction false} KindExactly(orphans: seq<Record>, kind: Kind, n: string)
    ensures multiset(NamesOfKind(orphans, kind))[n] == multiset(Tags(orphans))[(n, kind)]
  {
    if orphans != [] {
      var init, last := orphans[..|orphans| - 1], orphans[|orphans| - 1];
      KindExactly(init, kind, n);
      assert Tags(orphans) == Tags(init) + [(last.name, last.kind)];
    }
  }

  lemma {:induction false} TakenExactly(rs: seq<Assignment>, outcome: string -> Outcome, a: Assignment)
    ensures multiset(Taken(rs, outcome))[a] == if outcome(a.name) == Placed then multiset(rs)[a] else 0
  {
    if rs != [] {
      TakenExactly(rs[..|rs| - 1], outcome, a);
      assert rs == rs[..|rs| - 1] + [rs[|rs| - 1]];
    }
  }

  /** The records once a move has rewritten its name's owner. */
  function Rehome(rs: seq<Record>, a: Assignment): seq<Record> {
    seq(|rs|, i requires 0 <= i < |rs| => if rs[i].name == a.name then rs[i].(owner := a.owner) else rs[i])
  }

  /** The records after all the moves. */
  function After(rs: seq<Record>, moves: seq<Assignment>): seq<Record>
    decreases |moves|
  {
    if moves == [] then rs else After(Rehome(rs, moves[0]), moves[1..])
  }

  /** The moves rewrite records of departed nodes, each at most once. */
  ghost predicate Rewrites(moves: seq<Assignment>, rs: seq<Record>, departed: seq<string>) {
    && DistinctNames(moves)
    && (forall a | a in moves :: exists r | r in rs :: r.name == a.name && r.owner in departed)
  }

  /** A move takes one record away from a departed node. */
  lemma RehomeCounts(rs: seq<Record>, a: Assignment, k: nat, id: string)
    requires DistinctRecords(rs) && k < |rs| && rs[k].name == a.name && rs[k].owner != id
    ensures Holdings(Rehome(rs, a), id) == Holdings(rs, id) + if a.owner == id then 1 else 0
  {
    var r := rs[k].(owner := a.owner);
    assert rs == rs[..k] + ([rs[k]] + rs[k + 1..]);
    assert Rehome(rs, a) == rs[..k] + ([r] + rs[k + 1..]);
    HoldingsConcat(rs[..k], [rs[k]] + rs[k + 1..], id);
    HoldingsConcat(rs[..k], [r] + rs[k + 1..], id);
    HoldingsConcat([rs[k]], rs[k + 1..], id);
    HoldingsConcat([r], rs[k + 1..], id);
    assert [rs[k]][1..] == [] && [r][1..] == [];
  }

  lemma RehomeKeepsRewrites(moves: seq<Assignment>, rs: seq<Record>, departed: seq<string>)
    requires moves != [] && DistinctRecords(rs) && Rewrites(moves, rs, departed)
    ensures DistinctRecords(Rehome(rs, moves[0])) && Rewrites(moves[1..], Rehome(rs, moves[0]), departed)
  {
    var next := Rehome(rs, moves[0]);
    assert forall i | 0 <= i < |rs| :: next[i].name == rs[i].name;
    forall a | a in moves[1..] ensures exists r | r in next :: r.name == a.name && r.owner in departed {
      assert a in moves;
      var r :| r in rs && r.name == a.name && r.owner in departed;
      var j :| 0 <= j < |rs| && rs[j] == r;
      assert next[j] == r;
    }
  }

  /** A survivor ends up with its own records and the ones moved to it. */
  lemma {:induction false} HoldingsAfter(moves: seq<Assignment>, rs: seq<Record>, departed: seq<string>, id: string)
    requires DistinctRecords(rs) && Rewrites(moves, rs, departed) && id !in departed
    ensures Holdings(After(rs, moves), id) == Holdings(rs, id) + Hits(moves, id)
    decreases |moves|
  {
    if moves != [] {
      assert moves[0] in moves;
      var r :| r in rs && r.name == moves[0].name && r.owner in departed;
      var k :| 0 <= k < |rs| && rs[k] == r;
      RehomeCounts(rs, moves[0], k, id);
      RehomeKeepsRewrites(moves, rs, departed);
      HoldingsAfter(moves[1..], Rehome(rs, moves[0]), departed, id);
    }
  }

  /* ---------- the sweep stays balanced ---------- */

  lemma {:induction false} HitsAppend(moves: seq<Assignment>, a: Assignment, id: string)
    ensures Hits(moves + [a], id) == Hits(moves, id) + (if a.owner == id then 1 else 0)
  {
    if moves == [] {
      assert (moves + [a])[1..] == [];
    } else {
      assert (moves + [a])[1..] == moves[1..] + [a];
      HitsAppend(moves[1..], a, id);
    }
  }

  lemma {:induction false} CountAfter(counts: Counts, moves: seq<Assignment>, id: string)
    ensures CountOf(IncrementAll(counts, moves), id) == CountOf(counts, id) + Hits(moves, id)
  {
    if moves != [] {
      var init := moves[..|moves| - 1];
      CountAfter(counts, init, id);
      assert moves == init + [moves[|moves| - 1]];
      HitsAppend(init, moves[|moves| - 1], id);
    }
  }

  /** How many of `names` the map sends to `id`. */
  function Sent(names: seq<string>, owners: map<string, string>, id: string): nat {
    if names == [] then 0 else
    (if names[0] in owners && owners[names[0]] == id then 1 else 0) + Sent(names[1..], owners, id)
  }

  lemma {:induction false} SentAppend(a: seq<string>, b: seq<string>, owners: map<string, string>, id: string)
    ensures Sent(a + b, owners, id) == Sent(a, owners, id) + Sent(b, owners, id)
  {
    if a == [] {
      assert a + b == b;
    } else {
      assert (a + b)[1..] == a[1..] + b;
      SentAppend(a[1..], b, owners, id);
    }
  }

  lemma RemoveOne(s: seq<string>, j: nat)
    requires j < |s|
    ensures multiset(s[..j] + s[j + 1..]) == multiset(s) - multiset{s[j]}
  {
    assert s == s[..j] + ([s[j]] + s[j + 1..]);
  }

  lemma SentSplit(s: seq<string>, j: nat, owners: map<string, string>, id: string)
    requires j < |s|
    ensures Sent(s, owners, id) == Sent([s[j]], owners, id) + Sent(s[..j] + s[j + 1..], owners, id)
  {
    assert s == s[..j] + ([s[j]] + s[j + 1..]);
    SentAppend(s[..j], [s[j]] + s[j + 1..], owners, id);
    SentAppend([s[j]], s[j + 1..], owners, id);
    SentAppend(s[..j], s[j + 1..], owners, id);
  }

  lemma {:induction false} SentIgnoresOrder(a: seq<string>, b: seq<string>, owners: map<string, string>, id: string)
    requires multiset(a) == multiset(b)
    ensures Sent(a, owners, id) == Sent(b, owners, id)
    decreases |a|
  {
    if a == [] {
      assert |b| == |multiset(b)| == 0;
    } else {
      assert a[0] in multiset(b);
      var j :| 0 <= j < |b| && b[j] == a[0];
      var a', b' := a[..0] + a[1..], b[..j] + b[j + 1..];
      RemoveOne(a, 0);
      RemoveOne(b, j);
      SentIgnoresOrder(a', b', owners, id);
      SentSplit(a, 0, owners, id);
      SentSplit(b, j, owners, id);
    }
  }

  lemma {:induction false} ReassignHits(names: seq<string>, owners: map<string, string>, id: string)
    ensures Hits(Reassign(names, owners), id) == Sent(names, owners, id)
  {
    if names != [] {
      var init, last := names[..|names| - 1], names[|names| - 1];
      ReassignHits(init, owners, id);
      assert names == init + [last];
      SentAppend(init, [last], owners, id);
      assert [last][1..] == [];
      if last in owners { HitsAppend(Reassign(init, owners), Assignment(last, owners[last]), id); }
    }
  }

  predicate DistinctNames(plan: seq<Assignment>) {
    forall i, j | 0 <= i < j < |plan| :: plan[i].name != plan[j].name
  }

  lemma {:induction false} OwnersMapFinds(plan: seq<Assignment>, i: nat)
    requires DistinctNames(plan) && i < |plan|
    ensures plan[i].name in OwnersMap(plan) && OwnersMap(plan)[plan[i].name] == plan[i].owner
  {
    var last := |plan| - 1;
    if i < last {
      assert plan[..last][i] == plan[i];
      OwnersMapFinds(plan[..last], i);
    }
  }

  lemma {:induction false} PlanHits(plan: seq<Assignment>, owners: map<string, string>, id: string)
    requires forall i | 0 <= i < |plan| :: plan[i].name in owners && owners[plan[i].name] == plan[i].owner
    ensures Hits(plan, id) == Sent(NamesOf(plan), owners, id)
  {
    if plan != [] {
      PlanHits(plan[1..], owners, id);
      assert NamesOf(plan)[1..] == NamesOf(plan[1..]);
    }
  }

  lemma DistinctByCount(names: seq<string>)
    requires forall x | x in multiset(names) :: multiset(names)[x] == 1
    ensures Distinct(names)
  {
    forall i, j | 0 <= i < j < |names| ensures names[i] != names[j] {
      assert names == names[..i] + ([names[i]] + (names[i + 1..j] + ([names[j]] + names[j + 1..])));
      assert names[i] == names[j] ==> multiset(names)[names[i]] >= 2;
      assert names[i] in multiset(names);
    }
  }

  lemma {:induction false} CountByDistinct(names: seq<string>)
    requires Distinct(names)
    ensures forall x | x in multiset(names) :: multiset(names)[x] == 1
  {
    if names != [] {
      assert names == [names[0]] + names[1..];
      CountByDistinct(names[1..]);
      assert names[0] !in names[1..];
    }
  }

  /** Looking the ordinary orphans up in the plan moves exactly what was planned. */
  lemma LookupMovesPlan(ordinary: seq<string>, load: seq<Load>, id: string)
    requires load != [] && Distinct(ordinary)
    ensures Hits(Reassign(ordinary, OwnersMap(Plan(ordinary, load))), id) == Hits(Plan(ordinary, load), id)
  {
    var sorted, plan := SortNames(ordinary), Plan(ordinary, load);
    var owners := OwnersMap(plan);
    SortNamesSorts(ordinary);
    FillCovers(sorted, load);
    CountByDistinct(ordinary);
    DistinctByCount(sorted);
    assert forall i | 0 <= i < |plan| :: plan[i].name == sorted[i] by {
      assert forall i | 0 <= i < |plan| :: NamesOf(plan)[i] == plan[i].name;
    }
    forall i | 0 <= i < |plan| ensures plan[i].name in owners && owners[plan[i].name] == plan[i].owner {
      OwnersMapFinds(plan, i);
    }
    PlanHits(plan, owners, id);
    SentIgnoresOrder(ordinary, sorted, owners, id);
    ReassignHits(ordinary, owners, id);
  }

  /** The members the sweep may fill. */
  function Pool(members: seq<Member>): set<string> {
    set m | m in members && m.ready && !m.draining :: m.name
  }

  predicate DistinctMembers(members: seq<Member>) {
    forall i, j | 0 <= i < j < |members| :: members[i].name != members[j].name
  }

  predicate Agrees(load: seq<Load>, counts: Counts) {
    forall k | 0 <= k < |load| :: load[k].count == CountOf(counts, load[k].id)
  }

  function Ids(load: seq<Load>): set<string> { set l | l in load :: l.id }

  lemma {:induction false} SurvivorsArePool(members: seq<Member>, dead: string, counts: Counts)
    requires DistinctMembers(members) && dead !in Pool(members)
    ensures var load := Survivors(members, dead, counts);
      DistinctIds(load) && Agrees(load, counts) && Ids(load) == Pool(members)
  {
    if members != [] {
      var init, last := members[..|members| - 1], members[|members| - 1];
      assert members == init + [last];
      assert Pool(members) == Pool(init) + (if last.ready && !last.draining then {last.name} else {});
      SurvivorsArePool(init, dead, counts);
      var rest := Survivors(init, dead, counts);
      if Eligible(last, dead) {
        var l := Load(last.name, CountOf(counts, last.name));
        assert Ids(rest + [l]) == Ids(rest) + {l.id};
        forall k | 0 <= k < |rest| ensures rest[k].id != last.name {
          assert rest[k].id in Pool(init);
        }
      }
    }
  }

  /** The members in `recv` are at most one above every member of the pool. */
  ghost predicate LevelIds(recv: set<string>, pool: set<string>, counts: Counts) {
    forall r, e | r in recv && e in pool :: CountOf(counts, r) <= CountOf(counts, e) + 1
  }

  function OwnersIn(moves: seq<Assignment>): set<string> { set a | a in moves :: a.owner }

  lemma {:induction false} HitIffOwner(moves: seq<Assignment>, id: string)
    ensures Hits(moves, id) > 0 <==> id in OwnersIn(moves)
  {
    if moves != [] {
      HitIffOwner(moves[1..], id);
      assert moves == [moves[0]] + moves[1..];
    }
  }

  lemma {:induction false} AllTaken(rs: seq<Assignment>, outcome: string -> Outcome)
    requires forall a | a in rs :: outcome(a.name) == Placed
    ensures Taken(rs, outcome) == rs
  {
    if rs != [] {
      AllTaken(rs[..|rs| - 1], outcome);
    }
  }

  lemma {:induction false} ReassignNames(names: seq<string>, owners: map<string, string>)
    ensures forall a | a in Reassign(names, owners) :: a.name in names
  {
    if names != [] { ReassignNames(names[..|names| - 1], owners); }
  }

  /** In a pass where every recreate is placed and nothing is a singleton, one
      departed node's moves are its plan. */
  lemma CleanMoves(dead: string, orphans: seq<Record>, counts: Counts, members: seq<Member>,
                   self: string, outcome: string -> Outcome)
    requires NamesOfKind(orphans, Singleton) == []
    requires forall n | n in NamesOfKind(orphans, Ordinary) :: outcome(n) == Placed
    ensures var ordinary := NamesOfKind(orphans, Ordinary);
      MovesOf(dead, orphans, counts, members, self, outcome)
      == Reassign(ordinary, OwnersMap(Plan(ordinary, Survivors(members, dead, counts))))
  {
    var ordinary := NamesOfKind(orphans, Ordinary);
    var owners := OwnersMap(Plan(ordinary, Survivors(members, dead, counts)));
    ReassignNames(ordinary, owners);
    AllTaken(Reassign(ordinary, owners), outcome);
    assert Reassign(ordinary, owners) + Pin([], self) == Reassign(ordinary, owners);
  }

  /** After one departed node's moves the shared counts are the fill's final loads. */
  lemma MovesReachFinalLoads(ordinary: seq<string>, load: seq<Load>, counts: Counts, k: nat)
    requires DistinctIds(load) && Agrees(load, counts) && Distinct(ordinary) && k < |load|
    ensures var moves := Reassign(ordinary, OwnersMap(Plan(ordinary, load)));
            var ts := Targets(|SortNames(ordinary)|, load);
      && CountOf(IncrementAll(counts, moves), load[k].id) == Place(ts, load)[k].count
      && (load[k].id in OwnersIn(moves) ==> k in SlotSet(ts))
  {
    var moves := Reassign(ordinary, OwnersMap(Plan(ordinary, load)));
    SortNamesSorts(ordinary);
    assert |SortNames(ordinary)| == |multiset(SortNames(ordinary))| == |ordinary|;
    PlanGives(ordinary, load);
    PlaceHits(Plan(ordinary, load), Targets(|ordinary|, load), load, k);
    LookupMovesPlan(ordinary, load, load[k].id);
    CountAfter(counts, moves, load[k].id);
    HitIffOwner(moves, load[k].id);
    PlaceGrows(Targets(|SortNames(ordinary)|, load), load, k);
  }

  lemma MovesStayInPool(ordinary: seq<string>, load: seq<Load>)
    requires load != [] && Distinct(ordinary)
    ensures OwnersIn(Reassign(ordinary, OwnersMap(Plan(ordinary, load)))) <= Ids(load)
  {
    var moves := Reassign(ordinary, OwnersMap(Plan(ordinary, load)));
    FillCovers(SortNames(ordinary), load);
    forall id | id in OwnersIn(moves) ensures id in Ids(load) {
      HitIffOwner(moves, id);
      LookupMovesPlan(ordinary, load, id);
      HitIffOwner(Plan(ordinary, load), id);
      var a :| a in Plan(ordinary, load) && a.owner == id;
    }
  }

  lemma SlotsStayLevel(slots: set<nat>, ordinary: seq<string>, load: seq<Load>, counts: Counts, k: nat, j: nat)
    requires DistinctIds(load) && Agrees(load, counts) && Distinct(ordinary) && k < |load| && j < |load|
    requires Level(slots, load)
    requires k in slots || load[k].id in OwnersIn(Reassign(ordinary, OwnersMap(Plan(ordinary, load))))
    ensures var after := IncrementAll(counts, Reassign(ordinary, OwnersMap(Plan(ordinary, load))));
      CountOf(after, load[k].id) <= CountOf(after, load[j].id) + 1
  {
    FillLevels(slots, |SortNames(ordinary)|, load);
    MovesReachFinalLoads(ordinary, load, counts, k);
    MovesReachFinalLoads(ordinary, load, counts, j);
    assert k in slots + SlotSet(Targets(|SortNames(ordinary)|, load));
  }

  /** One fill over the shared counts keeps earlier receivers level. */
  lemma FillKeepsLevel(recv: set<string>, ordinary: seq<string>, load: seq<Load>, counts: Counts)
    requires load != [] && DistinctIds(load) && Agrees(load, counts)
    requires Distinct(ordinary) && recv <= Ids(load) && LevelIds(recv, Ids(load), counts)
    ensures var moves := Reassign(ordinary, OwnersMap(Plan(ordinary, load)));
      LevelIds(recv + OwnersIn(moves), Ids(load), IncrementAll(counts, moves))
  {
    var moves := Reassign(ordinary, OwnersMap(Plan(ordinary, load)));
    var after := IncrementAll(counts, moves);
    var slots: set<nat> := set k | 0 <= k < |load| && load[k].id in recv;
    assert Level(slots, load) by {
      forall k, j | k in slots && k < |load| && 0 <= j < |load| ensures load[k].count <= load[j].count + 1 {
        assert load[j].id in Ids(load);
      }
    }
    MovesStayInPool(ordinary, load);
    forall r, e | r in recv + OwnersIn(moves) && e in Ids(load)
      ensures CountOf(after, r) <= CountOf(after, e) + 1
    {
      var k :| 0 <= k < |load| && load[k].id == r;
      var j :| 0 <= j < |load| && load[j].id == e;
      SlotsStayLevel(slots, ordinary, load, counts, k, j);
    }
  }

  /** Records of distinct actors; the store keys them by name. */
  predicate DistinctRecords(rs: seq<Record>) {
    forall i, j | 0 <= i < j < |rs| :: rs[i].name != rs[j].name
  }

  lemma {:induction false} OrphansDistinct(placements: seq<Record>, dead: string)
    requires DistinctRecords(placements)
    ensures DistinctRecords(OrphansOf(placements, dead))
    ensures forall r | r in OrphansOf(placements, dead) :: r in placements && r.owner == dead
  {
    if placements != [] {
      OrphansDistinct(placements[..|placements| - 1], dead);
    }
  }

  lemma {:induction false} KindDistinct(orphans: seq<Record>, kind: Kind)
    requires DistinctRecords(orphans)
    ensures Distinct(NamesOfKind(orphans, kind))
    ensures forall n | n in NamesOfKind(orphans, kind) :: exists r | r in orphans :: r.name == n && r.kind == kind
  {
    if orphans != [] {
      var init, last := orphans[..|orphans| - 1], orphans[|orphans| - 1];
      KindDistinct(init, kind);
      assert orphans == init + [last];
      var rest := NamesOfKind(init, kind);
      forall i | 0 <= i < |rest| ensures rest[i] != last.name {
        assert rest[i] in rest;
        var r :| r in init && r.name == rest[i];
      }
      forall n | n in NamesOfKind(orphans, kind)
        ensures exists r | r in orphans :: r.name == n && r.kind == kind
      {
        if n in rest {
          var r :| r in init && r.name == n && r.kind == kind;
          assert r in orphans;
        } else {
          assert last in orphans;
        }
      }
    }
  }

  lemma {:induction false} NoneOfKind(orphans: seq<Record>, kind: Kind)
    requires forall r | r in orphans :: r.kind != kind
    ensures NamesOfKind(orphans, kind) == []
  {
    if orphans != [] { NoneOfKind(orphans[..|orphans| - 1], kind); }
  }

  /** A pass in which every recreate lands and no orphan is a singleton. */
  ghost predicate Clean(departed: seq<string>, placements: seq<Record>, outcome: string -> Outcome) {
    forall r | r in placements && r.owner in departed :: r.kind != Singleton && outcome(r.name) == Placed
  }

  lemma CleanPassKeepsLevel(recv: set<string>, dead: string, placements: seq<Record>, counts: Counts,
                            members: seq<Member>, self: string, outcome: string -> Outcome)
    requires DistinctRecords(placements) && DistinctMembers(members) && dead !in Pool(members)
    requires Clean([dead], placements, outcome)
    requires recv <= Pool(members) && LevelIds(recv, Pool(members), counts)
    ensures var moves := MovesOf(dead, OrphansOf(placements, dead), counts, members, self, outcome);
      && OwnersIn(moves) <= Pool(members)
      && LevelIds(recv + OwnersIn(moves), Pool(members), IncrementAll(counts, moves))
  {
    var orphans := OrphansOf(placements, dead);
    var ordinary, load := NamesOfKind(orphans, Ordinary), Survivors(members, dead, counts);
    OrphansDistinct(placements, dead);
    KindDistinct(orphans, Ordinary);
    NoneOfKind(orphans, Singleton);
    CleanMoves(dead, orphans, counts, members, self, outcome);
    SurvivorsArePool(members, dead, counts);
    if load == [] {
      ReassignEmpty(ordinary);
    } else {
      MovesStayInPool(ordinary, load);
      FillKeepsLevel(recv, ordinary, load, counts);
    }
  }

  lemma {:induction false} ReassignEmpty(names: seq<string>)
    ensures Reassign(names, map[]) == []
  {
    if names != [] { ReassignEmpty(names[..|names| - 1]); }
  }

  lemma {:induction false} CleanSweepFrom(recv: set<string>, departed: seq<string>, placements: seq<Record>,
                                          counts: Counts, view: string -> seq<Member>, members: seq<Member>,
                                          self: string,
                                          outcome: string -> Outcome)
    requires DistinctRecords(placements) && DistinctMembers(members)
    requires forall d | d in departed :: d !in Pool(members) && view(d) == members
    requires Clean(departed, placements, outcome)
    requires recv <= Pool(members) && LevelIds(recv, Pool(members), counts)
    ensures var moves := SweepMoves(departed, placements, counts, view, self, outcome);
      && OwnersIn(moves) <= Pool(members)
      && LevelIds(recv + OwnersIn(moves), Pool(members), IncrementAll(counts, moves))
    decreases |departed|
  {
    if departed != [] {
      var first := MovesOf(departed[0], OrphansOf(placements, departed[0]), counts, members, self, outcome);
      var next := IncrementAll(counts, first);
      assert departed[0] in departed;
      CleanPassKeepsLevel(recv, departed[0], placements, counts, members, self, outcome);
      CleanSweepFrom(recv + OwnersIn(first), departed[1..], placements, next, view, members, self, outcome);
      var rest := SweepMoves(departed[1..], placements, next, view, self, outcome);
      IncrementAllConcat(counts, first, rest);
      assert recv + OwnersIn(first + rest) == (recv + OwnersIn(first)) + OwnersIn(rest);
    }
  }

  /* ---------- the sweep moves each orphan at most once ---------- */

  lemma {:induction false} TakenNames(rs: seq<Assignment>, outcome: string -> Outcome)
    requires DistinctNames(rs)
    ensures DistinctNames(Taken(rs, outcome)) && forall a | a in Taken(rs, outcome) :: a in rs
  {
    if rs != [] {
      var init, last := rs[..|rs| - 1], rs[|rs| - 1];
      TakenNames(init, outcome);
      var rest := Taken(init, outcome);
      forall i | 0 <= i < |rest| ensures rest[i].name != last.name {
        assert rest[i] in init;
      }
    }
  }

  lemma {:induction false} ReassignDistinct(names: seq<string>, owners: map<string, string>)
    requires Distinct(names)
    ensures DistinctNames(Reassign(names, owners))
  {
    if names != [] {
      var init, last := names[..|names| - 1], names[|names| - 1];
      ReassignDistinct(init, owners);
      ReassignNames(init, owners);
      var rest := Reassign(init, owners);
      forall i | 0 <= i < |rest| ensures rest[i].name != last {
        assert rest[i] in rest;
      }
    }
  }

  lemma ConcatNames(a: seq<Assignment>, b: seq<Assignment>)
    requires DistinctNames(a) && DistinctNames(b)
    requires forall x, y | x in a && y in b :: x.name != y.name
    ensures DistinctNames(a + b)
  {
    forall i, j | 0 <= i < j < |a + b| ensures (a + b)[i].name != (a + b)[j].name {
      if i < |a| <= j {
        assert a[i] in a && b[j - |a|] in b;
      }
    }
  }

  lemma SameRecord(rs: seq<Record>, r: Record, q: Record)
    requires DistinctRecords(rs) && r in rs && q in rs && r.name == q.name
    ensures r == q
  {
  }

  /** The ordinary and the pinned reassignments of one departed node are of
      different orphans. */
  lemma PlannedNames(orphans: seq<Record>, owners: map<string, string>, self: string)
    requires DistinctRecords(orphans)
    ensures var all := Reassign(NamesOfKind(orphans, Ordinary), owners) + Pin(NamesOfKind(orphans, Singleton), self);
      DistinctNames(all) && forall a | a in all :: exists r | r in orphans :: r.name == a.name
  {
    var ordinary, pinned := NamesOfKind(orphans, Ordinary), NamesOfKind(orphans, Singleton);
    KindDistinct(orphans, Ordinary);
    KindDistinct(orphans, Singleton);
    ReassignDistinct(ordinary, owners);
    ReassignNames(ordinary, owners);
    var a, b := Reassign(ordinary, owners), Pin(pinned, self);
    assert forall y | y in b :: y.name in pinned;
    forall x, y | x in a && y in b ensures x.name != y.name {
      var r :| r in orphans && r.name == x.name && r.kind == Ordinary;
      var q :| q in orphans && q.name == y.name && q.kind == Singleton;
      if x.name == y.name { SameRecord(orphans, r, q); }
    }
    ConcatNames(a, b);
  }

  lemma MovesRewrite(dead: string, placements: seq<Record>, counts: Counts, members: seq<Member>,
                     self: string, outcome: string -> Outcome)
    requires DistinctRecords(placements)
    ensures Rewrites(MovesOf(dead, OrphansOf(placements, dead), counts, members, self, outcome), placements, [dead])
  {
    var orphans := OrphansOf(placements, dead);
    var owners := OwnersMap(Plan(NamesOfKind(orphans, Ordinary), Survivors(members, dead, counts)));
    OrphansDistinct(placements, dead);
    PlannedNames(orphans, owners, self);
    TakenNames(Reassign(NamesOfKind(orphans, Ordinary), owners) + Pin(NamesOfKind(orphans, Singleton), self), outcome);
  }

  lemma RewritesConcat(a: seq<Assignment>, b: seq<Assignment>, rs: seq<Record>, first: string, rest: seq<string>)
    requires DistinctRecords(rs) && Rewrites(a, rs, [first]) && Rewrites(b, rs, rest) && first !in rest
    ensures Rewrites(a + b, rs, [first] + rest)
  {
    forall x, y | x in a && y in b ensures x.name != y.name {
      var r :| r in rs && r.name == x.name && r.owner in [first];
      var q :| q in rs && q.name == y.name && q.owner in rest;
      if x.name == y.name { SameRecord(rs, r, q); }
    }
    ConcatNames(a, b);
    forall x | x in a + b ensures exists r | r in rs :: r.name == x.name && r.owner in [first] + rest {
      if x in a {
        var r :| r in rs && r.name == x.name && r.owner in [first];
      } else {
        var q :| q in rs && q.name == x.name && q.owner in rest;
      }
    }
  }

  lemma {:induction false} SweepRewrites(departed: seq<string>, placements: seq<Record>, counts: Counts,
                                         view: string -> seq<Member>, self: string, outcome: string -> Outcome)
    requires DistinctRecords(placements) && Distinct(departed)
    ensures Rewrites(SweepMoves(departed, placements, counts, view, self, outcome), placements, departed)
    decreases |departed|
  {
    if departed != [] {
      var first := MovesOf(departed[0], OrphansOf(placements, departed[0]), counts, view(departed[0]), self, outcome);
      var next := IncrementAll(counts, first);
      MovesRewrite(departed[0], placements, counts, view(departed[0]), self, outcome);
      SweepRewrites(departed[1..], placements, next, view, self, outcome);
      RewritesConcat(first, SweepMoves(departed[1..], placements, next, view, self, outcome), placements,
                     departed[0], departed[1..]);
      assert departed == [departed[0]] + departed[1..];
    }
  }

  /* ---------- the sweep moves every orphan it can ---------- */

  predicate Moved(moves: seq<Assignment>, n: string) {
    exists a | a in moves :: a.name == n
  }

  /** A member that can take a departed node's actors. */
  predicate Takes(members: seq<Member>, dead: string, id: string) {
    exists m | m in members :: m.name == id && Eligible(m, dead)
  }

  /** Where a record of a departed node may go. */
  predicate Lands(r: Record, members: seq<Member>, self: string, id: string) {
    if r.kind == Singleton then id == self else Takes(members, r.owner, id)
  }

  /** The pass that meets a record of a departed node moves it: its recreate takes it,
      and it is pinned or a member can take it. */
  predicate Movable(r: Record, members: seq<Member>, outcome: string -> Outcome) {
    && outcome(r.name) == Placed
    && (r.kind == Singleton || (r.kind == Ordinary && exists m | m in members :: Eligible(m, r.owner)))
  }

  lemma {:induction false} SurvivorsTake(members: seq<Member>, dead: string, counts: Counts)
    ensures forall l | l in Survivors(members, dead, counts) :: Takes(members, dead, l.id)
    ensures Survivors(members, dead, counts) != [] <==> exists m | m in members :: Eligible(m, dead)
  {
    if members != [] {
      var init, last := members[..|members| - 1], members[|members| - 1];
      SurvivorsTake(init, dead, counts);
      assert members == init + [last];
      forall l | l in Survivors(members, dead, counts) ensures Takes(members, dead, l.id) {
        if l in Survivors(init, dead, counts) {
          var m :| m in init && m.name == l.id && Eligible(m, dead);
          assert m in members;
        } else {
          assert last in members && last.name == l.id;
        }
      }
      if Eligible(last, dead) { assert last in members; }
      if m :| m in init && Eligible(m, dead) { assert m in members; }
    }
  }

  lemma {:induction false} ReassignExactly(names: seq<string>, owners: map<string, string>, a: Assignment)
    ensures a in Reassign(names, owners) <==> a.name in names && a.name in owners && owners[a.name] == a.owner
  {
    if names != [] {
      ReassignExactly(names[..|names| - 1], owners, a);
      assert names == names[..|names| - 1] + [names[|names| - 1]];
    }
  }

  lemma KindMembers(orphans: seq<Record>, kind: Kind, r: Record)
    requires DistinctRecords(orphans) && r in orphans
    ensures r.name in NamesOfKind(orphans, kind) <==> r.kind == kind
  {
    KindExactly(orphans, kind, r.name);
    var k :| 0 <= k < |orphans| && orphans[k] == r;
    assert Tags(orphans)[k] == (r.name, r.kind);
    assert r.name in NamesOfKind(orphans, kind) <==> r.name in multiset(NamesOfKind(orphans, kind));
    assert (r.name, kind) in multiset(Tags(orphans)) <==> (r.name, kind) in Tags(orphans);
    if (r.name, kind) in Tags(orphans) {
      var j :| 0 <= j < |orphans| && Tags(orphans)[j] == (r.name, kind);
      assert orphans[j].name == r.name;
    }
  }

  /** The plan lists every ordinary orphan, once, with a survivor. */
  lemma PlanLists(ordinary: seq<string>, load: seq<Load>, n: string) returns (k: nat)
    requires Distinct(ordinary) && n in ordinary && load != []
    ensures var plan := Plan(ordinary, load);
      DistinctNames(plan) && k < |plan| && plan[k].name == n && Survivor(plan[k].owner, load)
  {
    var sorted := SortNames(ordinary);
    SortNamesSorts(ordinary);
    CountByDistinct(ordinary);
    DistinctByCount(sorted);
    assert n in multiset(sorted);
    k :| 0 <= k < |sorted| && sorted[k] == n;
    FillNames(sorted, load);
  }

  lemma FillNames(sorted: seq<string>, load: seq<Load>)
    requires load != [] && Distinct(sorted)
    ensures var fill := Fill(sorted, load);
      && |fill| == |sorted| && DistinctNames(fill)
      && (forall i | 0 <= i < |fill| :: fill[i].name == sorted[i] && Survivor(fill[i].owner, load))
  {
    FillCovers(sorted, load);
    var fill := Fill(sorted, load);
    forall i | 0 <= i < |fill| ensures fill[i].name == sorted[i] {
      assert NamesOf(fill)[i] == fill[i].name;
    }
  }

  /** So it has an owner for every ordinary orphan when there is a survivor, and for none
      otherwise. */
  lemma PlanOwns(ordinary: seq<string>, load: seq<Load>, n: string)
    requires Distinct(ordinary) && n in ordinary
    ensures n in OwnersMap(Plan(ordinary, load)) <==> load != []
    ensures load != [] ==> Survivor(OwnersMap(Plan(ordinary, load))[n], load)
  {
    if load != [] {
      var k := PlanLists(ordinary, load, n);
      OwnersMapFinds(Plan(ordinary, load), k);
    }
  }

  /** One departed node's pass moves exactly the records it can, to where they may go. */
  lemma MovesExactly(r: Record, placements: seq<Record>, counts: Counts, members: seq<Member>,
                     self: string, outcome: string -> Outcome)
    requires DistinctRecords(placements) && r in placements
    ensures var moves := MovesOf(r.owner, OrphansOf(placements, r.owner), counts, members, self, outcome);
      && (Moved(moves, r.name) <==> Movable(r, members, outcome))
      && (forall a | a in moves && a.name == r.name :: Lands(r, members, self, a.owner))
  {
    var orphans := OrphansOf(placements, r.owner);
    OrphansDistinct(placements, r.owner);
    OrphansExactly(placements, r.owner, r);
    assert r in multiset(placements) && r in multiset(orphans);
    OrphanMoves(r, orphans, counts, members, self, outcome);
  }

  /** A pass sends the name to the planned owner, or pins it, and its recreate takes it. */
  predicate Sends(a: Assignment, ordinary: seq<string>, pinned: seq<string>, owners: map<string, string>,
                  self: string, outcome: string -> Outcome) {
    && outcome(a.name) == Placed
    && ((a.name in ordinary && a.name in owners && owners[a.name] == a.owner) || (a.name in pinned && a.owner == self))
  }

  lemma TakenIsSent(a: Assignment, ordinary: seq<string>, pinned: seq<string>, owners: map<string, string>,
                    self: string, outcome: string -> Outcome)
    ensures a in Taken(Reassign(ordinary, owners) + Pin(pinned, self), outcome) <==>
            Sends(a, ordinary, pinned, owners, self, outcome)
  {
    var all := Reassign(ordinary, owners) + Pin(pinned, self);
    TakenExactly(all, outcome, a);
    assert a in Taken(all, outcome) <==> a in multiset(Taken(all, outcome));
    assert a in all <==> a in multiset(all);
    ReassignExactly(ordinary, owners, a);
    PinExactly(pinned, self, a);
  }

  lemma OrphanMoves(r: Record, orphans: seq<Record>, counts: Counts, members: seq<Member>,
                    self: string, outcome: string -> Outcome)
    requires DistinctRecords(orphans) && r in orphans
    ensures var moves := MovesOf(r.owner, orphans, counts, members, self, outcome);
      && (Moved(moves, r.name) <==> Movable(r, members, outcome))
      && (forall a | a in moves && a.name == r.name :: Lands(r, members, self, a.owner))
  {
    var moves := MovesOf(r.owner, orphans, counts, members, self, outcome);
    var ordinary, pinned := NamesOfKind(orphans, Ordinary), NamesOfKind(orphans, Singleton);
    var load := Survivors(members, r.owner, counts);
    var owners := OwnersMap(Plan(ordinary, load));
    KindMembers(orphans, Ordinary, r);
    KindMembers(orphans, Singleton, r);
    KindDistinct(orphans, Ordinary);
    SurvivorsTake(members, r.owner, counts);
    if r.kind == Ordinary { PlanOwns(ordinary, load, r.name); }
    forall a ensures a in moves <==> Sends(a, ordinary, pinned, owners, self, outcome) {
      TakenIsSent(a, ordinary, pinned, owners, self, outcome);
    }
    if Movable(r, members, outcome) {
      var a := Assignment(r.name, if r.kind == Singleton then self else owners[r.name]);
      assert a in moves;
    }
  }

  lemma PinExactly(names: seq<string>, self: string, a: Assignment)
    ensures a in Pin(names, self) <==> a.name in names && a.owner == self
  {
    if a.name in names && a.owner == self {
      var k :| 0 <= k < |names| && names[k] == a.name;
      assert Pin(names, self)[k] == a;
    }
  }

  lemma OthersDoNotMove(r: Record, placements: seq<Record>, moves: seq<Assignment>, departed: seq<string>)
    requires DistinctRecords(placements) && r in placements && Rewrites(moves, placements, departed)
    requires r.owner !in departed
    ensures !Moved(moves, r.name)
  {
    forall a | a in moves ensures a.name != r.name {
      var q :| q in placements && q.name == a.name && q.owner in departed;
      if a.name == r.name { SameRecord(placements, r, q); }
    }
  }

  /** A sweep moves exactly the records of departed nodes that it can, once, and each to
      where it may go: an ordinary one to a member that can take it, a singleton to the
      coordinator. */
  lemma {:induction false} SweepMovesExactly(r: Record, departed: seq<string>, placements: seq<Record>, counts: Counts,
                                             view: string -> seq<Member>, self: string, outcome: string -> Outcome)
    requires DistinctRecords(placements) && Distinct(departed) && r in placements && r.owner in departed
    ensures var moves := SweepMoves(departed, placements, counts, view, self, outcome);
      && (Moved(moves, r.name) <==> Movable(r, view(r.owner), outcome))
      && (forall a | a in moves && a.name == r.name :: Lands(r, view(r.owner), self, a.owner))
    decreases |departed|
  {
    var dead := departed[0];
    var first := MovesOf(dead, OrphansOf(placements, dead), counts, view(dead), self, outcome);
    var next := IncrementAll(counts, first);
    var rest := SweepMoves(departed[1..], placements, next, view, self, outcome);
    if r.owner == dead {
      MovesExactly(r, placements, counts, view(dead), self, outcome);
      SweepRewrites(departed[1..], placements, next, view, self, outcome);
      OthersDoNotMove(r, placements, rest, departed[1..]);
    } else {
      MovesRewrite(dead, placements, counts, view(dead), self, outcome);
      OthersDoNotMove(r, placements, first, [dead]);
      SweepMovesExactly(r, departed[1..], placements, next, view, self, outcome);
    }
    assert forall a :: a in first + rest <==> a in first || a in rest;
  }

  /** Whatever the recreates answer, the counts a sweep ends with are the records
      it leaves behind: for every node that did not depart, as many as name it
      after the moves. */
  lemma CountsMatchRecords(departed: seq<string>, placements: seq<Record>, view: string -> seq<Member>,
                           self: string, outcome: string -> Outcome, id: string)
    requires DistinctRecords(placements) && Distinct(departed) && id !in departed
    ensures var counts := Tally(placements, departed);
            var moves := SweepMoves(departed, placements, counts, view, self, outcome);
      CountOf(IncrementAll(counts, moves), id) == Holdings(After(placements, moves), id)
  {
    var counts := Tally(placements, departed);
    var moves := SweepMoves(departed, placements, counts, view, self, outcome);
    SweepRewrites(departed, placements, counts, view, self, outcome);
    HoldingsAfter(moves, placements, departed, id);
    CountAfter(counts, moves, id);
    TallyCounts(placements, departed, id);
  }

  /** A sweep over any number of departed nodes in which every recreate lands and
      nothing is pinned to the coordinator, while the membership stays as it is, leaves
      every member that received an actor with at most one record more than the least
      loaded member. */
  lemma SweepIsBalanced(departed: seq<string>, placements: seq<Record>, view: string -> seq<Member>,
                        members: seq<Member>, self: string, outcome: string -> Outcome, receiver: string, other: string)
    requires DistinctRecords(placements) && DistinctMembers(members) && Distinct(departed)
    requires forall d | d in departed :: d !in Pool(members) && view(d) == members
    requires Clean(departed, placements, outcome)
    requires other in Pool(members)
    requires receiver in OwnersIn(SweepMoves(departed, placements, Tally(placements, departed), view, self, outcome))
    ensures var records := After(placements,
              SweepMoves(departed, placements, Tally(placements, departed), view, self, outcome));
      Holdings(records, receiver) <= Holdings(records, other) + 1
  {
    var counts := Tally(placements, departed);
    CleanSweepFrom({}, departed, placements, counts, view, members, self, outcome);
    CountsMatchRecords(departed, placements, view, self, outcome, receiver);
    CountsMatchRecords(departed, placements, view, self, outcome, other);
  }
}
