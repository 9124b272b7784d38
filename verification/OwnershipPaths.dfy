/**
 How an uncontested placement, claim, recreate or free ends, from every state of the
 ownership system, and that stopping undoes placing.
 */
module OwnershipPaths {
  import opened Common
  import opened Ownership

  /** The system once `id` hosts the name, having booted the pool. */
  function Hosting(s: State, id: nat, x: Node, n: Name, held: bool): State {
    s.(tasks := s.tasks[id := Task(x, n, Host(held))], booted := s.booted + {x}, placing := s.placing - {(x, n)})
  }

  function Builds(id: nat): seq<Step> { [Succeed(id), Succeed(id), Succeed(id)] }

  /** From boot to hosting. */
  lemma BuildCompletes(s: State, id: nat, dead: Option<Node>)
    requires id in s.tasks && s.tasks[id].phase == Boot(dead)
    ensures IsRun(s, Builds(id))
    ensures Run(s, Builds(id)) == Hosting(s, id, s.tasks[id].node, s.tasks[id].name, dead.Some?)
  {
    var s1 := Next(s, Succeed(id));
    var s2 := Next(s1, Succeed(id));
    ThreeSteps(s, Succeed(id), Succeed(id), Succeed(id));
    assert Next(s2, Succeed(id)).placing == s.placing - {(s.tasks[id].node, s.tasks[id].name)};
  }

  function Places(id: nat, x: Node, n: Name): seq<Step> { [StartPlace(id, x, n), Apply(id), Resume(id)] + Builds(id) }

  /** A free name that is placed is recorded and hosted, and nothing else changes. */
  lemma PlacementCompletes(s: State, id: nat, x: Node, n: Name)
    requires Enabled(s, StartPlace(id, x, n)) && n !in s.record
    ensures IsRun(s, Places(id, x, n))
    ensures Run(s, Places(id, x, n)) == Hosting(s.(record := s.record[n := x]), id, x, n, false)
  {
    var s1 := Next(s, StartPlace(id, x, n));
    var s2 := Next(s1, Apply(id));
    ThreeSteps(s, StartPlace(id, x, n), Apply(id), Resume(id));
    var t := Next(s2, Resume(id));
    BuildCompletes(t, id, None);
    RunConcat(s, [StartPlace(id, x, n), Apply(id), Resume(id)], Builds(id));
    assert t.tasks[id := Task(x, n, Host(false))] == s.tasks[id := Task(x, n, Host(false))];
  }

  /** A name that is taken cannot be placed, and trying changes nothing. */
  lemma PlacementLoses(s: State, id: nat, x: Node, n: Name)
    requires Enabled(s, StartPlace(id, x, n)) && n in s.record
    ensures var steps := [StartPlace(id, x, n), Apply(id)];
      IsRun(s, steps) && Run(s, steps) == s
  {
    var s1 := Next(s, StartPlace(id, x, n));
    TwoSteps(s, StartPlace(id, x, n), Apply(id));
    assert s1.tasks - {id} == s.tasks;
  }

  lemma TwoSteps(s: State, a: Step, b: Step)
    requires Enabled(s, a) && Enabled(Next(s, a), b)
    ensures IsRun(s, [a, b]) && Run(s, [a, b]) == Next(Next(s, a), b)
  {
    OneStep(Next(s, a), b, []);
    OneStep(s, a, [b] + []);
    assert [a, b] == [a] + ([b] + []);
  }

  /** The claim of an instance spawn; once the pool has booted it claims there too. */
  function Spawns(s: State, id: nat, x: Node, n: Name): seq<Step> {
    [StartClaim(id, x, n), Apply(id), Resume(id)] + if x in s.booted then [Succeed(id)] else []
  }

  /** A free name an instance claims is recorded and hosted, and nothing else changes. */
  lemma ClaimCompletes(s: State, id: nat, x: Node, n: Name)
    requires Enabled(s, StartClaim(id, x, n)) && n !in s.record && (x, n) !in s.placing
    ensures IsRun(s, Spawns(s, id, x, n))
    ensures Run(s, Spawns(s, id, x, n))
         == s.(record := s.record[n := x], tasks := s.tasks[id := Task(x, n, Host(false))])
  {
    var s1 := Next(s, StartClaim(id, x, n));
    var s2 := Next(s1, Apply(id));
    ThreeSteps(s, StartClaim(id, x, n), Apply(id), Resume(id));
    var t := Next(s2, Resume(id));
    var first := [StartClaim(id, x, n), Apply(id), Resume(id)];
    if x in s.booted {
      OneStep(t, Succeed(id), []);
      RunConcat(s, first, [Succeed(id)] + []);
      assert [Succeed(id)] + [] == [Succeed(id)];
    } else {
      assert first + [] == first;
    }
    assert Run(s, Spawns(s, id, x, n)).tasks == s.tasks[id := Task(x, n, Host(false))];
  }

  lemma RecreateWins(s: State, id: nat, x: Node, n: Name, dead: Node) returns (t: State)
    requires Enabled(s, StartRecreate(id, x, n, dead)) && n in s.record && s.record[n] == dead
    ensures var steps := [StartRecreate(id, x, n, dead), Apply(id), Resume(id)];
      IsRun(s, steps) && Run(s, steps) == t
    ensures t == s.(record := s.record[n := x], recreating := s.recreating + {(x, n)},
                    tasks := s.tasks[id := Task(x, n, Boot(Some(dead)))])
  {
    ThreeSteps(s, StartRecreate(id, x, n, dead), Apply(id), Resume(id));
    t := Next(Next(Next(s, StartRecreate(id, x, n, dead)), Apply(id)), Resume(id));
  }

  function Recreates(id: nat, x: Node, n: Name, dead: Node): seq<Step> {
    [StartRecreate(id, x, n, dead), Apply(id), Resume(id)] + Builds(id) + [Resume(id)]
  }

  /** A departed node's name that is recreated is recorded and hosted on the new node, and
      no longer held. */
  lemma RecreateCompletes(s: State, id: nat, x: Node, n: Name, dead: Node)
    requires Enabled(s, StartRecreate(id, x, n, dead)) && n in s.record && s.record[n] == dead
    ensures IsRun(s, Recreates(id, x, n, dead))
    ensures Run(s, Recreates(id, x, n, dead))
         == Hosting(s.(record := s.record[n := x], recreating := s.recreating - {(x, n)}), id, x, n, false)
  {
    var t := RecreateWins(s, id, x, n, dead);
    BuildCompletes(t, id, Some(dead));
    var first := [StartRecreate(id, x, n, dead), Apply(id), Resume(id)];
    RunConcat(s, first, Builds(id));
    HoldEnds(s, first + Builds(id), Run(t, Builds(id)), id);
    assert s.recreating + {(x, n)} - {(x, n)} == s.recreating - {(x, n)};
  }

  /** A recreate that has built lets go of the name. */
  lemma HoldEnds(s: State, steps: seq<Step>, t: State, id: nat)
    requires IsRun(s, steps) && t == Run(s, steps) && id in t.tasks && t.tasks[id].phase == Host(true)
    ensures IsRun(s, steps + [Resume(id)])
    ensures Run(s, steps + [Resume(id)])
         == t.(tasks := t.tasks[id := t.tasks[id].(phase := Host(false))],
               recreating := t.recreating - {(t.tasks[id].node, t.tasks[id].name)})
  {
    OneStep(t, Resume(id), []);
    assert [Resume(id)] + [] == [Resume(id)];
    RunConcat(s, steps, [Resume(id)]);
  }

  /** Freeing a departed node's name removes its record. */
  lemma FreeCompletes(s: State, id: nat, x: Node, n: Name, dead: Node)
    requires Enabled(s, StartFree(id, x, n, dead)) && n in s.record && s.record[n] == dead
    ensures var steps := [StartFree(id, x, n, dead), Apply(id), Apply(id)];
      IsRun(s, steps) && Run(s, steps) == s.(record := s.record - {n})
  {
    ThreeSteps(s, StartFree(id, x, n, dead), Apply(id), Apply(id));
    var s2 := Next(Next(s, StartFree(id, x, n, dead)), Apply(id));
    assert s2.tasks == s.tasks[id := Task(x, n, FreeDelete(dead))];
    assert s2.tasks - {id} == s.tasks;
  }

  /** A recreate or a free of a name that no longer names the departed node changes
      nothing. */
  lemma StaleChangesNothing(s: State, id: nat, x: Node, n: Name, dead: Node)
    requires Enabled(s, StartFree(id, x, n, dead)) && !(n in s.record && s.record[n] == dead)
    ensures IsRun(s, [StartFree(id, x, n, dead), Apply(id)]) && Run(s, [StartFree(id, x, n, dead), Apply(id)]) == s
    ensures IsRun(s, [StartRecreate(id, x, n, dead), Apply(id)])
    ensures Run(s, [StartRecreate(id, x, n, dead), Apply(id)]) == s
  {
    TwoSteps(s, StartFree(id, x, n, dead), Apply(id));
    TwoSteps(s, StartRecreate(id, x, n, dead), Apply(id));
    assert Next(s, StartFree(id, x, n, dead)).tasks - {id} == s.tasks;
    assert Next(s, StartRecreate(id, x, n, dead)).tasks - {id} == s.tasks;
  }

  /** Stopping undoes placing: once the delete has landed, the records and the tasks are
      what they were before the name was placed. */
  lemma StopUndoesPlacing(s: State, id: nat, x: Node, n: Name, del: nat)
    requires Enabled(s, StartPlace(id, x, n)) && n !in s.record && del !in s.tasks && del != id
    requires x !in s.stopped && (x, n) !in s.recreating
    ensures var steps := Places(id, x, n) + [StopHost(id, del, None), Apply(del)];
      IsRun(s, steps) && Run(s, steps) == s.(booted := s.booted + {x}, placing := s.placing - {(x, n)})
  {
    PlacementCompletes(s, id, x, n);
    var t := Run(s, Places(id, x, n));
    var t1 := Next(t, StopHost(id, del, None));
    assert t1.tasks == s.tasks[del := Task(x, n, Deleting)];
    TwoSteps(t, StopHost(id, del, None), Apply(del));
    RunConcat(s, Places(id, x, n), [StopHost(id, del, None), Apply(del)]);
    assert t1.tasks - {del} == s.tasks && t1.record - {n} == s.record;
  }
}
