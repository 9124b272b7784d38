/**
 Runs of the ownership system, from its initial state, that lose a name: an
 actor whose stop is announced twice, a spawn of a name its node is placing, a
 failed recreate whose hand-back is refused, and a failed recreate whose record
 a late delete takes away.
 */
module OwnershipRuns {
  import opened Common
  import opened Ownership

  /** A run of three steps goes on from where another run ended. */
  lemma ThreeMore(steps: seq<Step>, s: State, a: Step, b: Step, c: Step)
    requires IsRun(Init, steps) && Run(Init, steps) == s
    requires Enabled(s, a) && Enabled(Next(s, a), b) && Enabled(Next(Next(s, a), b), c)
    ensures IsRun(Init, steps + [a, b, c])
    ensures Run(Init, steps + [a, b, c]) == Next(Next(Next(s, a), b), c)
  {
    ThreeSteps(s, a, b, c);
    RunConcat(Init, steps, [a, b, c]);
  }

  function Claims(a: Node, n: Name): seq<Step> { [StartPlace(0, a, n), Apply(0), Resume(0)] }

  lemma ClaimsRun(a: Node, n: Name)
    ensures IsRun(Init, Claims(a, n))
    ensures Run(Init, Claims(a, n)) == State(map[n := a], map[0 := Task(a, n, Boot(None))], {}, {}, {}, {}, {})
  {
    var s1 := Next(Init, StartPlace(0, a, n));
    assert s1.tasks == map[0 := Task(a, n, Claiming(false))];
    var s2 := Next(s1, Apply(0));
    assert s2.tasks == map[0 := Task(a, n, Claimed(false))] && s2.record == map[n := a];
    ThreeSteps(Init, StartPlace(0, a, n), Apply(0), Resume(0));
    assert Next(s2, Resume(0)).tasks == map[0 := Task(a, n, Boot(None))];
  }

  function Hosts(a: Node, n: Name): seq<Step> { Claims(a, n) + [Succeed(0), Succeed(0), Succeed(0)] }

  function Hosted(a: Node, n: Name): State {
    State(map[n := a], map[0 := Task(a, n, Host(false))], {}, {}, {a}, {}, {})
  }

  lemma HostsRun(a: Node, n: Name)
    ensures IsRun(Init, Hosts(a, n)) && Run(Init, Hosts(a, n)) == Hosted(a, n)
  {
    ClaimsRun(a, n);
    var s := Run(Init, Claims(a, n));
    var s1 := Next(s, Succeed(0));
    assert s1.tasks == map[0 := Task(a, n, Companion(None))];
    var s2 := Next(s1, Succeed(0));
    assert s2.tasks == map[0 := Task(a, n, Build(None))];
    ThreeMore(Claims(a, n), s, Succeed(0), Succeed(0), Succeed(0));
    assert Next(s2, Succeed(0)).tasks == map[0 := Task(a, n, Host(false))];
    assert Next(s2, Succeed(0)).placing == {};
  }

  function Echoes(a: Node, b: Node, n: Name): seq<Step> {
    Hosts(a, n) + [StopHost(0, 1, Some(2)), Apply(1), StartPlace(3, b, n)] + [Apply(3), Apply(2), Resume(3)]
  }

  /** An actor whose stop is announced twice: the second delete lands after another
      node claimed the name, and that node goes on to build without a record. */
  lemma EchoBreaksOwnership(a: Node, b: Node, n: Name)
    ensures IsRun(Init, Echoes(a, b, n))
    ensures var s := Run(Init, Echoes(a, b, n));
      3 in s.tasks && s.tasks[3] == Task(b, n, Boot(None)) && n !in s.record
  {
    HostsRun(a, n);
    var s := Hosted(a, n);
    var s1 := Next(s, StopHost(0, 1, Some(2)));
    assert s1.tasks == map[1 := Task(a, n, Deleting), 2 := Task(a, n, Deleting)];
    var s2 := Next(s1, Apply(1));
    assert s2.tasks == map[2 := Task(a, n, Deleting)] && s2.record == map[];
    ThreeMore(Hosts(a, n), s, StopHost(0, 1, Some(2)), Apply(1), StartPlace(3, b, n));
    var s3 := Next(s2, StartPlace(3, b, n));
    assert s3.tasks == map[2 := Task(a, n, Deleting), 3 := Task(b, n, Claiming(false))];
    EchoLands(a, b, n, s3);
  }

  lemma EchoLands(a: Node, b: Node, n: Name, s: State)
    requires s.tasks == map[2 := Task(a, n, Deleting), 3 := Task(b, n, Claiming(false))] && s.record == map[]
    requires var steps := Hosts(a, n) + [StopHost(0, 1, Some(2)), Apply(1), StartPlace(3, b, n)];
      IsRun(Init, steps) && Run(Init, steps) == s
    ensures IsRun(Init, Echoes(a, b, n))
    ensures var s' := Run(Init, Echoes(a, b, n));
      3 in s'.tasks && s'.tasks[3] == Task(b, n, Boot(None)) && n !in s'.record
  {
    var s1 := Next(s, Apply(3));
    assert s1.tasks == map[2 := Task(a, n, Deleting), 3 := Task(b, n, Claimed(false))];
    var s2 := Next(s1, Apply(2));
    assert s2.tasks == map[3 := Task(b, n, Claimed(false))] && n !in s2.record;
    ThreeMore(Hosts(a, n) + [StopHost(0, 1, Some(2)), Apply(1), StartPlace(3, b, n)], s, Apply(3), Apply(2), Resume(3));
  }

  function Squats(a: Node, b: Node, n: Name): seq<Step> {
    Claims(a, n) + [Succeed(0), Succeed(0), StartClaim(1, a, n)] + [Succeed(0), StopHost(1, 2, None), Apply(2)]
      + [StartPlace(3, b, n), Apply(3), Resume(3)]
  }

  /** A spawn of a name the node is placing: its stop deletes the record of the
      placed actor, and another node builds a second one. */
  lemma SquatBreaksOwnership(a: Node, b: Node, n: Name)
    ensures IsRun(Init, Squats(a, b, n))
    ensures var s := Run(Init, Squats(a, b, n));
      && 0 in s.tasks && s.tasks[0] == Task(a, n, Host(false))
      && 3 in s.tasks && s.tasks[3] == Task(b, n, Boot(None))
  {
    ClaimsRun(a, n);
    var s := Run(Init, Claims(a, n));
    var s1 := Next(s, Succeed(0));
    assert s1.tasks == map[0 := Task(a, n, Companion(None))];
    var s2 := Next(s1, Succeed(0));
    assert s2.tasks == map[0 := Task(a, n, Build(None))] && (a, n) in s2.placing;
    ThreeMore(Claims(a, n), s, Succeed(0), Succeed(0), StartClaim(1, a, n));
    var s3 := Next(s2, StartClaim(1, a, n));
    assert s3.tasks == map[0 := Task(a, n, Build(None)), 1 := Task(a, n, Squat)];
    SquatterStops(a, b, n, s3);
  }

  lemma SquatterStops(a: Node, b: Node, n: Name, s: State)
    requires s.tasks == map[0 := Task(a, n, Build(None)), 1 := Task(a, n, Squat)] && s.record == map[n := a]
    requires s.stopped == {} && s.recreating == {} && s.departed == {}
    requires var steps := Claims(a, n) + [Succeed(0), Succeed(0), StartClaim(1, a, n)];
      IsRun(Init, steps) && Run(Init, steps) == s
    ensures IsRun(Init, Squats(a, b, n))
    ensures var s' := Run(Init, Squats(a, b, n));
      && 0 in s'.tasks && s'.tasks[0] == Task(a, n, Host(false))
      && 3 in s'.tasks && s'.tasks[3] == Task(b, n, Boot(None))
  {
    var before := Claims(a, n) + [Succeed(0), Succeed(0), StartClaim(1, a, n)];
    var s1 := Next(s, Succeed(0));
    assert s1.tasks == map[0 := Task(a, n, Host(false)), 1 := Task(a, n, Squat)];
    var s2 := Next(s1, StopHost(1, 2, None));
    assert s2.tasks == map[0 := Task(a, n, Host(false)), 2 := Task(a, n, Deleting)];
    ThreeMore(before, s, Succeed(0), StopHost(1, 2, None), Apply(2));
    var s3 := Next(s2, Apply(2));
    assert s3.tasks == map[0 := Task(a, n, Host(false))] && s3.record == map[];
    SecondOwner(before + [Succeed(0), StopHost(1, 2, None), Apply(2)], s3, a, b, n);
  }

  lemma SecondOwner(before: seq<Step>, s: State, a: Node, b: Node, n: Name)
    requires IsRun(Init, before) && Run(Init, before) == s
    requires s.tasks == map[0 := Task(a, n, Host(false))] && s.record == map[] && s.departed == {}
    ensures var steps := before + [StartPlace(3, b, n), Apply(3), Resume(3)];
      && IsRun(Init, steps)
      && var s' := Run(Init, steps);
      && 0 in s'.tasks && s'.tasks[0] == Task(a, n, Host(false))
      && 3 in s'.tasks && s'.tasks[3] == Task(b, n, Boot(None))
  {
    var s1 := Next(s, StartPlace(3, b, n));
    var s2 := Next(s1, Apply(3));
    assert s2.tasks == map[0 := Task(a, n, Host(false)), 3 := Task(b, n, Claimed(false))];
    ThreeMore(before, s, StartPlace(3, b, n), Apply(3), Resume(3));
  }

  function Strands(a: Node, b: Node, n: Name): seq<Step> {
    Hosts(a, n) + [StopNode(a), StopHost(0, 1, None), Depart(a)] + [StartRecreate(2, b, n, a), Apply(2), Resume(2)]
      + [Fail(2, false, 3, None), Refuse(2), Resume(2)]
  }

  /** A failed recreate whose hand-back is refused: nothing is left to run, and the
      name is stranded. */
  lemma StrandedIsReachable(a: Node, b: Node, n: Name)
    requires a != b
    ensures IsRun(Init, Strands(a, b, n))
    ensures Stranded(Run(Init, Strands(a, b, n)), n, b) && Run(Init, Strands(a, b, n)).tasks == map[]
  {
    HostsRun(a, n);
    var s := Hosted(a, n);
    var s1 := Next(s, StopNode(a));
    var s2 := Next(s1, StopHost(0, 1, None));
    assert s2.tasks == map[];
    ThreeMore(Hosts(a, n), s, StopNode(a), StopHost(0, 1, None), Depart(a));
    var s3 := Next(s2, Depart(a));
    assert s3 == State(map[n := a], map[], {}, {}, {}, {a}, {a});
    RecreateStrands(a, b, n, s3);
  }

  lemma RecreateStrands(a: Node, b: Node, n: Name, s: State)
    requires a != b && s == State(map[n := a], map[], {}, {}, {}, {a}, {a})
    requires var steps := Hosts(a, n) + [StopNode(a), StopHost(0, 1, None), Depart(a)];
      IsRun(Init, steps) && Run(Init, steps) == s
    ensures IsRun(Init, Strands(a, b, n))
    ensures Stranded(Run(Init, Strands(a, b, n)), n, b) && Run(Init, Strands(a, b, n)).tasks == map[]
  {
    var before := Hosts(a, n) + [StopNode(a), StopHost(0, 1, None), Depart(a)];
    var s1 := Next(s, StartRecreate(2, b, n, a));
    var s2 := Next(s1, Apply(2));
    assert s2.tasks == map[2 := Task(b, n, Won(a))] && s2.record == map[n := b];
    ThreeMore(before, s, StartRecreate(2, b, n, a), Apply(2), Resume(2));
    var s3 := Next(s2, Resume(2));
    assert s3.tasks == map[2 := Task(b, n, Boot(Some(a)))] && (b, n) in s3.recreating;
    HandBackRefused(before + [StartRecreate(2, b, n, a), Apply(2), Resume(2)], s3, a, b, n);
  }

  lemma HandBackRefused(before: seq<Step>, s: State, a: Node, b: Node, n: Name)
    requires IsRun(Init, before) && Run(Init, before) == s && (b, n) in s.recreating
    requires s.tasks == map[2 := Task(b, n, Boot(Some(a)))] && s.record == map[n := b] && b !in s.departed
    ensures var steps := before + [Fail(2, false, 3, None), Refuse(2), Resume(2)];
      IsRun(Init, steps) && Stranded(Run(Init, steps), n, b) && Run(Init, steps).tasks == map[]
  {
    var s1 := Next(s, Fail(2, false, 3, None));
    assert s1.tasks == map[2 := Task(b, n, Restore(a))];
    var s2 := Next(s1, Refuse(2));
    assert s2.tasks == map[2 := Task(b, n, Unhold)];
    ThreeMore(before, s, Fail(2, false, 3, None), Refuse(2), Resume(2));
    assert Next(s2, Resume(2)).tasks == map[];
  }

  /** `a` stops hosting and announces it twice; `b` claims the name for an instance
      after the first delete. */
  function Reclaims(a: Node, b: Node, n: Name): seq<Step> {
    Hosts(a, n) + [StopHost(0, 1, Some(2)), Apply(1), StartClaim(3, b, n)] + [Apply(3), Resume(3), StopNode(b)]
  }

  lemma ReclaimsRun(a: Node, b: Node, n: Name) returns (s: State)
    requires a != b
    ensures IsRun(Init, Reclaims(a, b, n)) && Run(Init, Reclaims(a, b, n)) == s
    ensures s.tasks == map[2 := Task(a, n, Deleting), 3 := Task(b, n, Host(false))] && s.record == map[n := b]
    ensures s.stopped == {b} && s.departed == {} && s.recreating == {}
  {
    HostsRun(a, n);
    var s1 := Next(Hosted(a, n), StopHost(0, 1, Some(2)));
    assert s1.tasks == map[1 := Task(a, n, Deleting), 2 := Task(a, n, Deleting)];
    var s2 := Next(s1, Apply(1));
    assert s2.tasks == map[2 := Task(a, n, Deleting)] && s2.record == map[];
    ThreeMore(Hosts(a, n), Hosted(a, n), StopHost(0, 1, Some(2)), Apply(1), StartClaim(3, b, n));
    var s3 := Next(s2, StartClaim(3, b, n));
    assert s3.tasks == map[2 := Task(a, n, Deleting), 3 := Task(b, n, Claiming(true))];
    s := InstanceHosts(Hosts(a, n) + [StopHost(0, 1, Some(2)), Apply(1), StartClaim(3, b, n)], s3, a, b, n);
  }

  lemma InstanceHosts(before: seq<Step>, s: State, a: Node, b: Node, n: Name) returns (t: State)
    requires IsRun(Init, before) && Run(Init, before) == s
    requires s.tasks == map[2 := Task(a, n, Deleting), 3 := Task(b, n, Claiming(true))] && s.record == map[]
    requires b !in s.booted && s.stopped == {} && s.departed == {} && s.recreating == {}
    ensures var steps := before + [Apply(3), Resume(3), StopNode(b)]; IsRun(Init, steps) && Run(Init, steps) == t
    ensures t.tasks == map[2 := Task(a, n, Deleting), 3 := Task(b, n, Host(false))] && t.record == map[n := b]
    ensures t.stopped == {b} && t.departed == {} && t.recreating == {}
  {
    var s1 := Next(s, Apply(3));
    assert s1.tasks == map[2 := Task(a, n, Deleting), 3 := Task(b, n, Claimed(true))] && s1.record == map[n := b];
    var s2 := Next(s1, Resume(3));
    assert s2.tasks == map[2 := Task(a, n, Deleting), 3 := Task(b, n, Host(false))];
    ThreeMore(before, s, Apply(3), Resume(3), StopNode(b));
    t := Next(s2, StopNode(b));
  }

  /** `b` departs, `c` wins the recreate, and `a`'s second delete lands. */
  function Wins(a: Node, b: Node, c: Node, n: Name): seq<Step> {
    Reclaims(a, b, n) + [StopHost(3, 4, None), Depart(b), StartRecreate(5, c, n, b)]
      + [Apply(5), Apply(2), Resume(5)]
  }

  lemma WinsRun(a: Node, b: Node, c: Node, n: Name) returns (s: State)
    requires a != b && c != b
    ensures IsRun(Init, Wins(a, b, c, n)) && Run(Init, Wins(a, b, c, n)) == s
    ensures s.tasks == map[5 := Task(c, n, Boot(Some(b)))] && s.record == map[] && (c, n) in s.recreating
  {
    var s0 := ReclaimsRun(a, b, n);
    var s1 := Next(s0, StopHost(3, 4, None));
    assert s1.tasks == map[2 := Task(a, n, Deleting)];
    var s2 := Next(s1, Depart(b));
    ThreeMore(Reclaims(a, b, n), s0, StopHost(3, 4, None), Depart(b), StartRecreate(5, c, n, b));
    var s3 := Next(s2, StartRecreate(5, c, n, b));
    assert s3.tasks == map[2 := Task(a, n, Deleting), 5 := Task(c, n, Cas(b))];
    s := DeleteLands(Reclaims(a, b, n) + [StopHost(3, 4, None), Depart(b), StartRecreate(5, c, n, b)], s3, a, b, c, n);
  }

  lemma DeleteLands(before: seq<Step>, s: State, a: Node, b: Node, c: Node, n: Name) returns (t: State)
    requires IsRun(Init, before) && Run(Init, before) == s
    requires s.tasks == map[2 := Task(a, n, Deleting), 5 := Task(c, n, Cas(b))] && s.record == map[n := b]
    ensures var steps := before + [Apply(5), Apply(2), Resume(5)]; IsRun(Init, steps) && Run(Init, steps) == t
    ensures t.tasks == map[5 := Task(c, n, Boot(Some(b)))] && t.record == map[] && (c, n) in t.recreating
  {
    var s1 := Next(s, Apply(5));
    assert s1.tasks == map[2 := Task(a, n, Deleting), 5 := Task(c, n, Won(b))] && s1.record == map[n := c];
    var s2 := Next(s1, Apply(2));
    assert s2.tasks == map[5 := Task(c, n, Won(b))] && s2.record == map[];
    ThreeMore(before, s, Apply(5), Apply(2), Resume(5));
    t := Next(s2, Resume(5));
    assert t.tasks == map[5 := Task(c, n, Boot(Some(b)))];
  }

  function Vanishes(a: Node, b: Node, c: Node, n: Name): seq<Step> {
    Wins(a, b, c, n) + [Fail(5, false, 6, None), Apply(5), Resume(5)]
  }

  /** A recreate that fails after such a delete hands back nothing: no task and no
      record is left, so no later sweep finds the actor. */
  lemma FailedRecreateCanVanish(a: Node, b: Node, c: Node, n: Name)
    requires a != b && c != b
    ensures IsRun(Init, Vanishes(a, b, c, n))
    ensures Run(Init, Vanishes(a, b, c, n)).tasks == map[] && Run(Init, Vanishes(a, b, c, n)).record == map[]
  {
    var s := WinsRun(a, b, c, n);
    var s1 := Next(s, Fail(5, false, 6, None));
    assert s1.tasks == map[5 := Task(c, n, Restore(b))];
    var s2 := Next(s1, Apply(5));
    assert s2.tasks == map[5 := Task(c, n, Unhold)] && s2.record == map[];
    ThreeMore(Wins(a, b, c, n), s, Fail(5, false, 6, None), Apply(5), Resume(5));
    assert Next(s2, Resume(5)).tasks == map[];
  }
}
