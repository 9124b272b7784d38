/**
 Cluster-wide ownership of actor names.

 Every node runs any number of concurrent placement operations against one
 store. An operation is a task: a program counter that moves from one `await`
 to the next. The store applies an outstanding write atomically, or refuses it
 for good, in which case the write had no effect. A step moves one task; a run
 is any interleaving of steps of any number of nodes. The one assumption is a
 guard in `Enabled`: a node is declared departed after it stopped and all its
 tasks ended.

 Not every run keeps ownership. The end of one hosting can be announced twice,
 and a node lets any caller spawn a name it is itself placing. The results here
 say exactly which steps cost an owner its name; `CarefulOwnership` says which
 habits of the callers rule those steps out.
 */
module Ownership {
  import opened Common

  type Node = string
  type Name = string

  /** Where a task stands. `dead` is the departed owner a recreate works for;
      `None` marks an ordinary placement. */
  datatype Phase =
    | Claiming(instance: bool)        // put-if-absent outstanding
    | Claimed(instance: bool)         // put-if-absent won, caller not resumed yet
    | PoolClaim                       // instance spawn: asking the booted pool
    | Boot(dead: Option<Node>)        // booting the pool
    | Companion(dead: Option<Node>)   // writing the recipe record
    | Build(dead: Option<Node>)       // the pool builds the actor
    | Host(held: bool)                // actor alive; held: the recreate has not returned yet
    | Squat                           // actor alive under a name it never claimed
    | Deleting                        // unconditional delete outstanding
    | Cas(from: Node)                 // compare-and-set from the dead owner outstanding
    | Won(from: Node)                 // compare-and-set won, caller not resumed yet
    | Restore(to: Node)               // compare-and-set back to the dead owner outstanding
    | Unhold                          // failed recreate about to drop its hold
    | FreeRead(owner: Node)           // coordinator's read outstanding
    | FreeDelete(owner: Node)         // coordinator's delete outstanding

  datatype Task = Task(node: Node, name: Name, phase: Phase)

  datatype State = State(
    record: map<Name, Node>,
    tasks: map<nat, Task>,
    placing: set<(Node, Name)>,
    recreating: set<(Node, Name)>,
    booted: set<Node>,
    stopped: set<Node>,
    departed: set<Node>)

  const Init := State(map[], map[], {}, {}, {}, {}, {})

  datatype Step =
    | StartPlace(id: nat, node: Node, name: Name)
    | StartClaim(id: nat, node: Node, name: Name)
    | StartRecreate(id: nat, node: Node, name: Name, dead: Node)
    | StartFree(id: nat, node: Node, name: Name, dead: Node)
    | Apply(id: nat)                               // the store applies the outstanding operation
    | Refuse(id: nat)                              // the operation failed past its retries
    | Resume(id: nat)                              // the caller continues after its await
    | Succeed(id: nat)                             // boot, recipe write, pool claim or build succeeded
    | Fail(id: nat, released: bool, del: nat, echo: Option<nat>)   // ... or failed
    | StopHost(id: nat, del: nat, echo: Option<nat>)               // a hosted actor stops
    | StopNode(node: Node)
    | Depart(node: Node)

  /** The phases in which a node is building or hosting the name. */
  predicate Owning(p: Phase) {
    p.Claimed? || p.PoolClaim? || p.Boot? || p.Companion? || p.Build? || p.Host? || p.Won? ||
    p.Squat?
  }

  /** The phases in which a recreate keeps its name in `recreating`. */
  predicate Held(p: Phase) {
    (p.Boot? && p.dead.Some?) || (p.Companion? && p.dead.Some?) || (p.Build? && p.dead.Some?) ||
    (p.Host? && p.held) || p.Restore? || p.Unhold?
  }

  /** A recreate whose record has moved here and which has neither built nor failed yet. */
  predicate MidRecreate(p: Phase) { p.Won? || (Held(p) && !p.Host? && !p.Unhold?) }

  predicate Freeing(p: Phase) { p.FreeRead? || p.FreeDelete? }

  /** The departed owner a recreate or a free refers to. */
  function DeadOwner(p: Phase): Option<Node> {
    match p
    case Cas(d) => Some(d)
    case Won(d) => Some(d)
    case Restore(d) => Some(d)
    case Boot(d) => d
    case Companion(d) => d
    case Build(d) => d
    case FreeRead(d) => Some(d)
    case FreeDelete(d) => Some(d)
    case _ => None
  }

  /** The tasks a release may start are new, and two when it is announced twice. */
  predicate Fresh(s: State, del: nat, echo: Option<nat>) {
    del !in s.tasks && (echo.Some? ==> echo.value !in s.tasks && echo.value != del)
  }

  predicate Enabled(s: State, a: Step) {
    match a
    case StartPlace(id, x, n) => id !in s.tasks && x !in s.departed
    case StartClaim(id, x, n) => id !in s.tasks && x !in s.departed
    case StartRecreate(id, x, n, dead) => id !in s.tasks && x !in s.departed && dead in s.departed
    case StartFree(id, x, n, dead) => id !in s.tasks && x !in s.departed && dead in s.departed
    case Apply(id) =>
      id in s.tasks && (var p := s.tasks[id].phase;
                        p.Claiming? || p.Cas? || p.Deleting? || p.Restore? || Freeing(p))
    case Refuse(id) =>
      id in s.tasks && (var p := s.tasks[id].phase;
                        p.Claiming? || p.Cas? || p.Deleting? || p.Restore? || Freeing(p))
    case Resume(id) =>
      id in s.tasks && (var p := s.tasks[id].phase;
                        p.Claimed? || p.Won? || p.Unhold? || (p.Host? && p.held))
    case Succeed(id) =>
      id in s.tasks && (var p := s.tasks[id].phase; p.PoolClaim? || p.Boot? || p.Companion? || p.Build?)
    case Fail(id, released, del, echo) =>
      && id in s.tasks && Fresh(s, del, echo)
      && (var p := s.tasks[id].phase;
          && (p.PoolClaim? || p.Boot? || p.Companion? || p.Build?)
          && (echo.Some? ==> p.Build? && released))
    case StopHost(id, del, echo) =>
      && id in s.tasks && Fresh(s, del, echo)
      && (s.tasks[id].phase.Host? || (s.tasks[id].phase.Squat? && echo.None?))
    case StopNode(x) => true
    case Depart(x) => x in s.stopped && (forall i | i in s.tasks :: s.tasks[i].node != x)
  }

  function Start(s: State, id: nat, x: Node, n: Name, p: Phase): State {
    s.(tasks := s.tasks[id := Task(x, n, p)])
  }

  function Move(s: State, id: nat, p: Phase): State
    requires id in s.tasks
  {
    s.(tasks := s.tasks[id := s.tasks[id].(phase := p)])
  }

  function End(s: State, id: nat): State {
    s.(tasks := s.tasks - {id})
  }

  /** `#removeRecord`, called once or twice: writes nothing on a stopped node or
      for a name being recreated; otherwise each call issues an unconditional
      delete. A stop is often heard twice, by the listener of the spawn and by that
      of the pool, the worker or the boot that adopted the actor; a failed build is
      released by the spawn and again by the pool. */
  function Release(s: State, x: Node, n: Name, del: nat, echo: Option<nat>): State {
    if x in s.stopped || (x, n) in s.recreating then s else
    var s1 := Start(s, del, x, n, Deleting);
    if echo.Some? then Start(s1, echo.value, x, n, Deleting) else s1
  }

  function ApplyStore(s: State, id: nat): State
    requires Enabled(s, Apply(id))
  {
    var Task(x, n, p) := s.tasks[id];
    match p
    case Claiming(instance) =>
      if n in s.record then End(s, id) else Move(s.(record := s.record[n := x]), id, Claimed(instance))
    case Cas(dead) =>
      if n in s.record && s.record[n] == dead
      then Move(s.(record := s.record[n := x]), id, Won(dead))
      else End(s, id)
    case Restore(dead) =>
      if n in s.record && s.record[n] == x
      then Move(s.(record := s.record[n := dead]), id, Unhold)
      else Move(s, id, Unhold)
    case FreeRead(dead) =>
      if n in s.record && s.record[n] == dead then Move(s, id, FreeDelete(dead)) else End(s, id)
    case Deleting => End(s.(record := s.record - {n}), id)
    case FreeDelete(_) => End(s.(record := s.record - {n}), id)
    case _ => s
  }

  function ResumeTask(s: State, id: nat): State
    requires Enabled(s, Resume(id))
  {
    var Task(x, n, p) := s.tasks[id];
    match p
    case Claimed(true) => Move(s, id, if x in s.booted then PoolClaim else Host(false))
    case Claimed(false) => Move(s, id, Boot(None))
    case Won(dead) => Move(s.(recreating := s.recreating + {(x, n)}), id, Boot(Some(dead)))
    case Unhold => End(s.(recreating := s.recreating - {(x, n)}), id)
    case Host(_) => Move(s.(recreating := s.recreating - {(x, n)}), id, Host(false))
    case _ => s
  }

  function SucceedTask(s: State, id: nat): State
    requires Enabled(s, Succeed(id))
  {
    var Task(x, n, p) := s.tasks[id];
    match p
    case PoolClaim => Move(s, id, Host(false))
    case Boot(d) => Move(s.(booted := s.booted + {x}), id, Companion(d))
    case Companion(d) => Move(s.(placing := s.placing + {(x, n)}), id, Build(d))
    case Build(d) => Move(s.(placing := s.placing - {(x, n)}), id, Host(d.Some?))
    case _ => s
  }

  /** A failed stage rolls the record back, except that a build the pool never
      took over releases nothing. A recreate then hands the name back. */
  function FailTask(s: State, id: nat, released: bool, del: nat, echo: Option<nat>): State
    requires Enabled(s, Fail(id, released, del, echo))
  {
    var Task(x, n, p) := s.tasks[id];
    var s1 := if p.Build? then s.(placing := s.placing - {(x, n)}) else s;
    var s2 := if p.Build? && !released then s1 else Release(s1, x, n, del, echo);
    match DeadOwner(p)
    case None => End(s2, id)
    case Some(dead) => Move(s2, id, Restore(dead))
  }

  /** A claim by an instance spawn. While the node places the name, the claim is
      let through unseen: the actor is built although the record is not its own. */
  function ClaimTask(s: State, id: nat, x: Node, n: Name): State {
    Start(s, id, x, n, if (x, n) in s.placing then Squat else Claiming(true))
  }

  function StopTask(s: State, id: nat, del: nat, echo: Option<nat>): State
    requires Enabled(s, StopHost(id, del, echo))
  {
    var Task(x, n, p) := s.tasks[id];
    var s1 := Release(s, x, n, del, echo);
    if p == Host(true) then Move(s1, id, Unhold) else End(s1, id)
  }

  function Next(s: State, a: Step): State
    requires Enabled(s, a)
  {
    match a
    case StartPlace(id, x, n) => Start(s, id, x, n, Claiming(false))
    case StartClaim(id, x, n) => ClaimTask(s, id, x, n)
    case StartRecreate(id, x, n, dead) => Start(s, id, x, n, Cas(dead))
    case StartFree(id, x, n, dead) => Start(s, id, x, n, FreeRead(dead))
    case Apply(id) => ApplyStore(s, id)
    case Refuse(id) => if s.tasks[id].phase.Restore? then Move(s, id, Unhold) else End(s, id)
    case Resume(id) => ResumeTask(s, id)
    case Succeed(id) => SucceedTask(s, id)
    case Fail(id, released, del, echo) => FailTask(s, id, released, del, echo)
    case StopHost(id, del, echo) => StopTask(s, id, del, echo)
    case StopNode(x) => s.(stopped := s.stopped + {x}, booted := s.booted - {x})
    case Depart(x) => s.(departed := s.departed + {x})
  }

  /** `steps` is a run of the system from `s`: each step is enabled when it is taken. */
  predicate IsRun(s: State, steps: seq<Step>)
    decreases |steps|
  {
    steps == [] || (Enabled(s, steps[0]) && IsRun(Next(s, steps[0]), steps[1..]))
  }

  function Run(s: State, steps: seq<Step>): State
    requires IsRun(s, steps)
    decreases |steps|
  {
    if steps == [] then s else Run(Next(s, steps[0]), steps[1..])
  }

  lemma {:induction false} RunConcat(s: State, before: seq<Step>, after: seq<Step>)
    requires IsRun(s, before) && IsRun(Run(s, before), after)
    ensures IsRun(s, before + after) && Run(s, before + after) == Run(Run(s, before), after)
    decreases |before|
  {
    if before == [] {
      assert before + after == after;
    } else {
      assert (before + after)[0] == before[0] && (before + after)[1..] == before[1..] + after;
      RunConcat(Next(s, before[0]), before[1..], after);
    }
  }

  lemma OneStep(s: State, a: Step, rest: seq<Step>)
    requires Enabled(s, a) && IsRun(Next(s, a), rest)
    ensures IsRun(s, [a] + rest) && Run(s, [a] + rest) == Run(Next(s, a), rest)
  {
    assert ([a] + rest)[0] == a && ([a] + rest)[1..] == rest;
  }

  lemma ThreeSteps(s: State, a: Step, b: Step, c: Step)
    requires Enabled(s, a) && Enabled(Next(s, a), b) && Enabled(Next(Next(s, a), b), c)
    ensures IsRun(s, [a, b, c]) && Run(s, [a, b, c]) == Next(Next(Next(s, a), b), c)
  {
    var s1 := Next(s, a);
    OneStep(Next(s1, b), c, []);
    OneStep(s1, b, [c] + []);
    OneStep(s, a, [b] + ([c] + []));
    assert [a, b, c] == [a] + ([b] + ([c] + []));
  }

  /* ---------- what every run keeps ---------- */

  predicate Building(s: State, x: Node, n: Name) {
    exists i | i in s.tasks :: s.tasks[i].node == x && s.tasks[i].name == n && s.tasks[i].phase.Build?
  }

  predicate Holding(s: State, x: Node, n: Name) {
    exists i | i in s.tasks :: s.tasks[i].node == x && s.tasks[i].name == n && Held(s.tasks[i].phase)
  }

  predicate Grounded(t: Task, departed: set<Node>) {
    && t.node !in departed
    && (DeadOwner(t.phase).Some? ==> DeadOwner(t.phase).value in departed)
  }

  /** Tasks run on live nodes and work for departed ones, a name is marked as being
      placed only while it is being built, and held only while a recreate holds it. */
  predicate Base(s: State) {
    && (forall i | i in s.tasks :: Grounded(s.tasks[i], s.departed))
    && (forall k | k in s.placing :: Building(s, k.0, k.1))
    && (forall k | k in s.recreating :: Holding(s, k.0, k.1))
  }

  /** The step is one of task `i` itself. */
  predicate Acts(a: Step, i: nat) {
    (a.Apply? || a.Refuse? || a.Resume? || a.Succeed? || a.Fail? || a.StopHost?) && a.id == i
  }

  lemma OthersUntouched(s: State, a: Step, i: nat)
    requires Enabled(s, a) && i in s.tasks && !Acts(a, i)
    ensures i in Next(s, a).tasks && Next(s, a).tasks[i] == s.tasks[i]
  {
  }

  lemma OnlyStoreWrites(s: State, a: Step)
    requires Enabled(s, a) && !a.Apply?
    ensures Next(s, a).record == s.record
  {
  }

  /** A task that a step starts holds nothing, unless it squats. */
  lemma Newcomer(s: State, a: Step, i: nat)
    requires Base(s) && Enabled(s, a) && i !in s.tasks && i in Next(s, a).tasks
    ensures Grounded(Next(s, a).tasks[i], Next(s, a).departed)
    ensures var p := Next(s, a).tasks[i].phase;
      p.Claiming? || p.Cas? || p.FreeRead? || p.Deleting? || (p.Squat? && a.StartClaim? && Misfire(s, a))
  {
    if Acts(a, a.id) {
      assert Grounded(s.tasks[a.id], s.departed);
    }
  }

  /** A task that moves keeps its name and node, and works for the same departed
      node as long as it works for one. */
  lemma OwnMove(s: State, a: Step, i: nat)
    requires Enabled(s, a) && i in s.tasks && Acts(a, i) && i in Next(s, a).tasks
    ensures var t, t' := s.tasks[i], Next(s, a).tasks[i];
      && t'.name == t.name && t'.node == t.node
      && (DeadOwner(t'.phase).Some? ==> DeadOwner(t'.phase) == DeadOwner(t.phase))
      && (Owning(t'.phase) && !Owning(t.phase) ==> a == Apply(i) && (t.phase.Claiming? || t.phase.Cas?))
  {
  }

  lemma StepKeepsGrounded(s: State, a: Step, i: nat)
    requires Base(s) && Enabled(s, a) && i in Next(s, a).tasks
    ensures Grounded(Next(s, a).tasks[i], Next(s, a).departed)
  {
    if i !in s.tasks {
      Newcomer(s, a, i);
    } else {
      assert Grounded(s.tasks[i], s.departed);
      if Acts(a, i) { OwnMove(s, a, i); } else { OthersUntouched(s, a, i); }
    }
  }

  lemma PlacingGrows(s: State, a: Step, k: (Node, Name))
    requires Enabled(s, a) && k in Next(s, a).placing && k !in s.placing
    ensures a.Succeed? && Building(Next(s, a), k.0, k.1)
  {
    assert a.Succeed? && s.tasks[a.id].phase.Companion?;
    assert Next(s, a).tasks[a.id] == Task(k.0, k.1, Build(s.tasks[a.id].phase.dead));
  }

  lemma PlacingStays(s: State, a: Step, k: (Node, Name))
    requires Base(s) && Enabled(s, a) && k in Next(s, a).placing && k in s.placing
    ensures Building(Next(s, a), k.0, k.1)
  {
    assert Building(s, k.0, k.1);
    var i :| i in s.tasks && s.tasks[i].node == k.0 && s.tasks[i].name == k.1 && s.tasks[i].phase.Build?;
    assert !Acts(a, i);
    OthersUntouched(s, a, i);
  }

  lemma HoldBegins(s: State, a: Step, k: (Node, Name))
    requires Enabled(s, a) && k in Next(s, a).recreating && k !in s.recreating
    ensures Holding(Next(s, a), k.0, k.1)
  {
    assert a.Resume? && s.tasks[a.id].phase.Won?;
    assert Next(s, a).tasks[a.id] == Task(k.0, k.1, Boot(Some(s.tasks[a.id].phase.from)));
  }

  /** A task that holds a name goes on holding it, or its hold is dropped. */
  lemma HeldMove(s: State, a: Step, i: nat)
    requires Enabled(s, a) && i in s.tasks && Acts(a, i) && Held(s.tasks[i].phase)
    requires (s.tasks[i].node, s.tasks[i].name) in Next(s, a).recreating
    ensures i in Next(s, a).tasks && Held(Next(s, a).tasks[i].phase)
  {
  }

  lemma HoldStays(s: State, a: Step, k: (Node, Name))
    requires Base(s) && Enabled(s, a) && k in Next(s, a).recreating && k in s.recreating
    ensures Holding(Next(s, a), k.0, k.1)
  {
    assert Holding(s, k.0, k.1);
    var i :| i in s.tasks && s.tasks[i].node == k.0 && s.tasks[i].name == k.1 && Held(s.tasks[i].phase);
    if Acts(a, i) {
      HeldMove(s, a, i);
      OwnMove(s, a, i);
    } else {
      OthersUntouched(s, a, i);
    }
  }

  lemma StepKeepsBase(s: State, a: Step)
    requires Base(s) && Enabled(s, a)
    ensures Base(Next(s, a))
  {
    forall i | i in Next(s, a).tasks
      ensures Grounded(Next(s, a).tasks[i], Next(s, a).departed)
    {
      StepKeepsGrounded(s, a, i);
    }
    forall k | k in Next(s, a).placing
      ensures Building(Next(s, a), k.0, k.1)
    {
      if k in s.placing { PlacingStays(s, a, k); } else { PlacingGrows(s, a, k); }
    }
    forall k | k in Next(s, a).recreating
      ensures Holding(Next(s, a), k.0, k.1)
    {
      if k in s.recreating { HoldStays(s, a, k); } else { HoldBegins(s, a, k); }
    }
  }

  lemma {:induction false} RunKeepsBase(s: State, steps: seq<Step>)
    requires Base(s) && IsRun(s, steps)
    ensures Base(Run(s, steps))
    decreases |steps|
  {
    if steps != [] {
      StepKeepsBase(s, steps[0]);
      RunKeepsBase(Next(s, steps[0]), steps[1..]);
    }
  }

  /* ---------- one owner per name ---------- */

  predicate Recorded(t: Task, record: map<Name, Node>) {
    Owning(t.phase) ==> t.name in record && record[t.name] == t.node
  }

  predicate Rivals(t: Task, u: Task) {
    t.name == u.name && Owning(t.phase) && Owning(u.phase)
  }

  /** At most one task of the whole cluster builds or hosts a name, and the record
      names its node. */
  predicate Owned(s: State) {
    && (forall i | i in s.tasks :: Recorded(s.tasks[i], s.record))
    && (forall i, j | i in s.tasks && j in s.tasks && i != j :: !Rivals(s.tasks[i], s.tasks[j]))
  }

  /** Somebody other than task `id` builds or hosts the name task `id` works on. */
  predicate Occupied(s: State, id: nat)
    requires id in s.tasks
  {
    exists j | j in s.tasks && j != id ::
      && s.tasks[j].name == s.tasks[id].name && Owning(s.tasks[j].phase)
      && (s.tasks[id].phase.Restore? ==> s.tasks[j].node == s.tasks[id].node)
  }

  /** The writes that take a record away without having looked who is behind it. */
  predicate Blind(p: Phase) { p.Deleting? || p.FreeDelete? || p.Restore? }

  /** A spawn of a name the node is placing, or a delete or hand-back that lands
      while somebody builds or hosts the name. */
  predicate Misfire(s: State, a: Step) {
    match a
    case StartClaim(_, x, n) => (x, n) in s.placing
    case Apply(id) => id in s.tasks && Blind(s.tasks[id].phase) && Occupied(s, id)
    case _ => false
  }

  predicate OwnedThroughout(s: State, steps: seq<Step>)
    requires IsRun(s, steps)
    decreases |steps|
  {
    Owned(s) && (steps == [] || OwnedThroughout(Next(s, steps[0]), steps[1..]))
  }

  predicate Misfires(s: State, steps: seq<Step>)
    requires IsRun(s, steps)
    decreases |steps|
  {
    steps != [] && (Misfire(s, steps[0]) || Misfires(Next(s, steps[0]), steps[1..]))
  }

  predicate Owner(s: State, i: nat) { i in s.tasks && Owning(s.tasks[i].phase) }

  /** A write that takes the record finds it absent or naming a departed node. */
  lemma TakesFreeName(s: State, i: nat)
    requires Base(s) && Owned(s) && Enabled(s, Apply(i)) && i in Next(s, Apply(i)).tasks
    requires s.tasks[i].phase.Claiming? || s.tasks[i].phase.Cas?
    ensures Recorded(Next(s, Apply(i)).tasks[i], Next(s, Apply(i)).record)
    ensures forall j | Owner(s, j) :: s.tasks[j].name != s.tasks[i].name
  {
    assert Grounded(s.tasks[i], s.departed);
    forall j | Owner(s, j) ensures s.tasks[j].name != s.tasks[i].name {
      assert Recorded(s.tasks[j], s.record) && Grounded(s.tasks[j], s.departed);
    }
  }

  lemma NewOwner(s: State, a: Step, i: nat)
    requires Base(s) && Owned(s) && Enabled(s, a) && !Misfire(s, a)
    requires Owner(Next(s, a), i) && !Owner(s, i)
    ensures a == Apply(i) && Recorded(Next(s, a).tasks[i], Next(s, a).record)
    ensures forall j | Owner(s, j) :: s.tasks[j].name != Next(s, a).tasks[i].name
  {
    if i !in s.tasks {
      Newcomer(s, a, i);
    } else if !Acts(a, i) {
      OthersUntouched(s, a, i);
    } else {
      OwnMove(s, a, i);
      TakesFreeName(s, i);
    }
  }

  lemma WriteSparesOwner(s: State, id: nat, i: nat)
    requires Base(s) && Owned(s) && Enabled(s, Apply(id)) && !Misfire(s, Apply(id)) && Owner(s, i)
    ensures Recorded(s.tasks[i], Next(s, Apply(id)).record)
  {
    assert Recorded(s.tasks[i], s.record) && Grounded(s.tasks[i], s.departed) && Grounded(s.tasks[id], s.departed);
  }

  /** An owner keeps its record through every step that does not misfire. */
  lemma OldOwner(s: State, a: Step, i: nat)
    requires Base(s) && Owned(s) && Enabled(s, a) && !Misfire(s, a)
    requires Owner(s, i) && i in Next(s, a).tasks
    ensures Next(s, a).tasks[i].name == s.tasks[i].name && Next(s, a).tasks[i].node == s.tasks[i].node
    ensures Recorded(s.tasks[i], Next(s, a).record)
  {
    if Acts(a, i) { OwnMove(s, a, i); } else { OthersUntouched(s, a, i); }
    if a.Apply? { WriteSparesOwner(s, a.id, i); } else { OnlyStoreWrites(s, a); }
  }

  lemma QuietStepKeepsOwned(s: State, a: Step)
    requires Base(s) && Owned(s) && Enabled(s, a) && !Misfire(s, a)
    ensures Owned(Next(s, a))
  {
    var s' := Next(s, a);
    forall i | i in s'.tasks
      ensures Recorded(s'.tasks[i], s'.record)
    {
      if Owner(s, i) { OldOwner(s, a, i); } else if Owner(s', i) { NewOwner(s, a, i); }
    }
    forall i, j | i in s'.tasks && j in s'.tasks && i != j
      ensures !Rivals(s'.tasks[i], s'.tasks[j])
    {
      if Rivals(s'.tasks[i], s'.tasks[j]) {
        NoRivals(s, a, i, j);
      }
    }
  }

  lemma NoRivals(s: State, a: Step, i: nat, j: nat)
    requires Base(s) && Owned(s) && Enabled(s, a) && !Misfire(s, a) && i != j
    requires Owner(Next(s, a), i) && Owner(Next(s, a), j)
    ensures Next(s, a).tasks[i].name != Next(s, a).tasks[j].name
  {
    if Owner(s, i) { OldOwner(s, a, i); } else { NewOwner(s, a, i); }
    if Owner(s, j) { OldOwner(s, a, j); } else { NewOwner(s, a, j); }
    assert Owner(s, i) && Owner(s, j) ==> !Rivals(s.tasks[i], s.tasks[j]);
  }

  lemma SquatBreaksOwned(s: State, a: Step)
    requires Base(s) && Enabled(s, a) && a.StartClaim? && Misfire(s, a)
    ensures !Owned(Next(s, a))
  {
    var k := (a.node, a.name);
    assert Building(s, k.0, k.1);
    var j :| j in s.tasks && s.tasks[j].node == a.node && s.tasks[j].name == a.name && s.tasks[j].phase.Build?;
    assert Rivals(Next(s, a).tasks[a.id], Next(s, a).tasks[j]);
  }

  lemma BlindWriteBreaksOwned(s: State, id: nat)
    requires Base(s) && Owned(s) && Enabled(s, Apply(id)) && Misfire(s, Apply(id))
    ensures !Owned(Next(s, Apply(id)))
  {
    var t := s.tasks[id];
    var j :| j in s.tasks && j != id && s.tasks[j].name == t.name && Owning(s.tasks[j].phase) &&
      (t.phase.Restore? ==> s.tasks[j].node == t.node);
    assert Recorded(s.tasks[j], s.record) && Grounded(s.tasks[j], s.departed) && Grounded(t, s.departed);
    var s' := Next(s, Apply(id));
    assert j in s'.tasks && !Recorded(s'.tasks[j], s'.record);
  }

  lemma {:induction false} OwnedUnlessMisfired(s: State, steps: seq<Step>)
    requires Base(s) && Owned(s) && IsRun(s, steps)
    ensures OwnedThroughout(s, steps) <==> !Misfires(s, steps)
    decreases |steps|
  {
    if steps != [] {
      var a, s' := steps[0], Next(s, steps[0]);
      if Misfire(s, a) {
        if a.StartClaim? { SquatBreaksOwned(s, a); } else { BlindWriteBreaksOwned(s, a.id); }
      } else {
        QuietStepKeepsOwned(s, a);
        StepKeepsBase(s, a);
        OwnedUnlessMisfired(s', steps[1..]);
      }
    }
  }

  /** Through a run of the cluster, whatever the interleaving, at most one task
      builds or hosts a name and the record names its node, exactly when no step
      of the run spawns a name its node is placing and no delete or hand-back
      lands while somebody builds or hosts the name. */
  lemma AtMostOneOwner(steps: seq<Step>)
    requires IsRun(Init, steps)
    ensures OwnedThroughout(Init, steps) <==> !Misfires(Init, steps)
  {
    OwnedUnlessMisfired(Init, steps);
  }

  /* ---------- what a failure or a stop gives back ---------- */

  /** The step ends a claim: a stage of an ordinary placement fails, unless the pool never
      took the name over, or an actor stops that no recreate still holds. */
  predicate GivesUp(s: State, a: Step) {
    match a
    case Fail(id, released, _, _) =>
      id in s.tasks && DeadOwner(s.tasks[id].phase).None? && (s.tasks[id].phase.Build? ==> released)
    case StopHost(id, _, _) => id in s.tasks && s.tasks[id].phase != Host(true)
    case _ => false
  }

  /** A claim that is given up on a node that has not stopped, of a name no recreate holds
      there, issues the delete that leaves the name free for anyone. */
  lemma GivenUpIsFreed(s: State, a: Step)
    requires Enabled(s, a) && GivesUp(s, a)
    requires s.tasks[a.id].node !in s.stopped && (s.tasks[a.id].node, s.tasks[a.id].name) !in s.recreating
    ensures a.del in Next(s, a).tasks && Enabled(Next(s, a), Apply(a.del)) && a.id !in Next(s, a).tasks
    ensures s.tasks[a.id].name !in Next(Next(s, a), Apply(a.del)).record
    ensures a.echo.Some? ==> a.echo.value in Next(s, a).tasks && Enabled(Next(s, a), Apply(a.echo.value))
  {
    var t := s.tasks[a.id];
    assert Next(s, a).tasks[a.del] == Task(t.node, t.name, Deleting);
  }

  /** A node that stopped, or that holds the name for a recreate, deletes nothing. */
  lemma WithheldDelete(s: State, a: Step)
    requires Enabled(s, a) && (a.Fail? || a.StopHost?)
    requires s.tasks[a.id].node in s.stopped || (s.tasks[a.id].node, s.tasks[a.id].name) in s.recreating
    ensures Next(s, a).tasks.Keys <= s.tasks.Keys && Next(s, a).record == s.record
  {
  }

  /* ---------- what a recreate keeps ---------- */

  /** What a step may do to the recreate that task `i` is in the middle of: the
      record stays, names its node until it has built or given up, and it gives up
      only in the step that hands the name back, after which the record names the
      dead owner, or still this node when the hand-back was refused. */
  predicate RecreateKept(s: State, a: Step, s': State, i: nat)
    requires i in s.tasks && DeadOwner(s.tasks[i].phase).Some?
  {
    var t := s.tasks[i];
    && t.name in s'.record
    && i in s'.tasks && s'.tasks[i].node == t.node && s'.tasks[i].name == t.name
    && (MidRecreate(s'.tasks[i].phase) ==>
          s'.record[t.name] == t.node && DeadOwner(s'.tasks[i].phase) == DeadOwner(t.phase))
    && (!MidRecreate(s'.tasks[i].phase) ==> s'.tasks[i].phase == Host(true) || s'.tasks[i].phase == Unhold)
    && (s'.tasks[i].phase == Unhold ==>
          && (a == Apply(i) || a == Refuse(i))
          && s'.record[t.name] == if a == Apply(i) then DeadOwner(t.phase).value else t.node)
  }

  /** Task `i` is in the middle of a recreate and the record names its node. */
  predicate Intact(s: State, i: nat) {
    && i in s.tasks && MidRecreate(s.tasks[i].phase)
    && s.tasks[i].name in s.record && s.record[s.tasks[i].name] == s.tasks[i].node
  }

  /** Another task's delete of the name lands, or its hand-back from the same node. */
  predicate Snatches(s: State, a: Step, i: nat)
    requires i in s.tasks
  {
    && a.Apply? && a.id != i && a.id in s.tasks && s.tasks[a.id].name == s.tasks[i].name
    && Blind(s.tasks[a.id].phase)
    && (s.tasks[a.id].phase.Restore? ==> s.tasks[a.id].node == s.tasks[i].node)
  }

  /** Every step of the run is kind to the recreate of task `i`, for as long as it lasts. */
  predicate KeptThroughout(s: State, steps: seq<Step>, i: nat)
    requires IsRun(s, steps) && Intact(s, i)
    decreases |steps|
  {
    steps == [] || (
      var s' := Next(s, steps[0]);
      && RecreateKept(s, steps[0], s', i)
      && (MidRecreate(s'.tasks[i].phase) ==> KeptThroughout(s', steps[1..], i)))
  }

  /** Some step of the run takes the record from under the recreate of task `i`. */
  predicate Snatched(s: State, steps: seq<Step>, i: nat)
    requires IsRun(s, steps) && i in s.tasks
    decreases |steps|
  {
    steps != [] && (
      var s' := Next(s, steps[0]);
      || Snatches(s, steps[0], i)
      || (i in s'.tasks && MidRecreate(s'.tasks[i].phase) && Snatched(s', steps[1..], i)))
  }

  lemma OwnStepKeepsRecreate(s: State, a: Step, i: nat)
    requires Base(s) && Enabled(s, a) && Intact(s, i) && Acts(a, i)
    ensures RecreateKept(s, a, Next(s, a), i)
  {
  }

  lemma OtherWriteKeepsRecreate(s: State, id: nat, i: nat)
    requires Base(s) && Enabled(s, Apply(id)) && id != i && Intact(s, i)
    ensures RecreateKept(s, Apply(id), Next(s, Apply(id)), i) <==> !Snatches(s, Apply(id), i)
  {
    assert Grounded(s.tasks[i], s.departed) && Grounded(s.tasks[id], s.departed);
    OthersUntouched(s, Apply(id), i);
  }

  lemma StepKeepsRecreate(s: State, a: Step, i: nat)
    requires Base(s) && Enabled(s, a) && Intact(s, i)
    ensures RecreateKept(s, a, Next(s, a), i) <==> !Snatches(s, a, i)
  {
    if Acts(a, i) {
      OwnStepKeepsRecreate(s, a, i);
    } else if a.Apply? {
      OtherWriteKeepsRecreate(s, a.id, i);
    } else {
      OthersUntouched(s, a, i);
      OnlyStoreWrites(s, a);
    }
  }

  /** From any moment at which a recreate has moved the record to its node, the
      record is kept through every step, until the recreate has built or handed
      the name back, exactly when no other task's delete of the name lands
      meanwhile, nor another hand-back from the same node. */
  lemma {:induction false} FailedRecreateKeepsRecord(s: State, steps: seq<Step>, i: nat)
    requires Base(s) && IsRun(s, steps) && Intact(s, i)
    ensures KeptThroughout(s, steps, i) <==> !Snatched(s, steps, i)
    decreases |steps|
  {
    if steps != [] {
      var s' := Next(s, steps[0]);
      StepKeepsRecreate(s, steps[0], i);
      if !Snatches(s, steps[0], i) && MidRecreate(s'.tasks[i].phase) {
        StepKeepsBase(s, steps[0]);
        FailedRecreateKeepsRecord(s', steps[1..], i);
      }
    }
  }

  /* ---------- stranded names ---------- */

  /** Task `i` builds or hosts the name, or is about to hand it back from `x`. */
  predicate Claimant(t: Task, n: Name, x: Node) {
    t.name == n && (Owning(t.phase) || (t.phase.Restore? && t.node == x))
  }

  /** A live node's record with no actor, no build and no hand-back behind it. */
  predicate Stranded(s: State, n: Name, x: Node) {
    && n in s.record && s.record[n] == x && x !in s.departed
    && (forall i | i in s.tasks :: !Claimant(s.tasks[i], n, x))
  }

  /** The node departs, or a delete of the name that was still outstanding lands. */
  predicate Frees(s: State, a: Step, n: Name, x: Node) {
    || a == Depart(x)
    || (a.Apply? && a.id in s.tasks && s.tasks[a.id].name == n &&
        (s.tasks[a.id].phase.Deleting? || s.tasks[a.id].phase.FreeDelete?))
  }

  predicate StrandedThroughout(s: State, steps: seq<Step>, n: Name, x: Node)
    requires IsRun(s, steps)
    decreases |steps|
  {
    Stranded(s, n, x) && (steps == [] || StrandedThroughout(Next(s, steps[0]), steps[1..], n, x))
  }

  predicate Freed(s: State, steps: seq<Step>, n: Name, x: Node)
    requires IsRun(s, steps)
    decreases |steps|
  {
    steps != [] && (Frees(s, steps[0], n, x) || Freed(Next(s, steps[0]), steps[1..], n, x))
  }

  /** A recreate whose hand-back is refused strands its name on the live node,
      exactly when the record still names the node and no other task there builds,
      hosts or hands back the name. */
  lemma RefusedRestoreStrands(s: State, i: nat)
    requires Base(s) && i in s.tasks && s.tasks[i].phase.Restore?
    ensures Enabled(s, Refuse(i))
    ensures var t := s.tasks[i];
      Stranded(Next(s, Refuse(i)), t.name, t.node) <==>
        && t.name in s.record && s.record[t.name] == t.node
        && (forall j | j in s.tasks && j != i :: !Claimant(s.tasks[j], t.name, t.node))
  {
    var s', t := Next(s, Refuse(i)), s.tasks[i];
    assert Grounded(t, s.departed);
    if Stranded(s', t.name, t.node) {
      forall j | j in s.tasks && j != i ensures !Claimant(s.tasks[j], t.name, t.node) {
        assert s'.tasks[j] == s.tasks[j];
      }
    }
  }

  lemma NoNewClaimant(s: State, a: Step, n: Name, x: Node, i: nat)
    requires Base(s) && Enabled(s, a) && Stranded(s, n, x) && i in Next(s, a).tasks
    ensures !Claimant(Next(s, a).tasks[i], n, x)
  {
    if i !in s.tasks {
      Newcomer(s, a, i);
      if a.StartClaim? && (a.node, n) in s.placing {
        assert Building(s, (a.node, n).0, n);
      }
    } else if Acts(a, i) {
      assert !Claimant(s.tasks[i], n, x) && Grounded(s.tasks[i], s.departed);
      OwnMove(s, a, i);
    } else {
      OthersUntouched(s, a, i);
    }
  }

  lemma StrandedStep(s: State, a: Step, n: Name, x: Node)
    requires Base(s) && Enabled(s, a) && Stranded(s, n, x)
    ensures Stranded(Next(s, a), n, x) <==> !Frees(s, a, n, x)
  {
    forall i | i in Next(s, a).tasks ensures !Claimant(Next(s, a).tasks[i], n, x) {
      NoNewClaimant(s, a, n, x, i);
    }
    if a.Apply? {
      assert Grounded(s.tasks[a.id], s.departed) && !Claimant(s.tasks[a.id], n, x);
    } else {
      OnlyStoreWrites(s, a);
    }
  }

  /** A stranded name stays stranded, exactly until its node departs or a delete
      of it lands that was still outstanding: no claim and no later recreate gets
      past the record. */
  lemma {:induction false} StrandedUntilDeparture(s: State, steps: seq<Step>, n: Name, x: Node)
    requires Base(s) && IsRun(s, steps) && Stranded(s, n, x)
    ensures StrandedThroughout(s, steps, n, x) <==> !Freed(s, steps, n, x)
    decreases |steps|
  {
    if steps != [] {
      StrandedStep(s, steps[0], n, x);
      if !Frees(s, steps[0], n, x) {
        StepKeepsBase(s, steps[0]);
        StrandedUntilDeparture(Next(s, steps[0]), steps[1..], n, x);
      }
    }
  }

  /** The departure is also enough: once the node can be declared departed, any
      other node can take the name over. */
  lemma DepartureReleasesName(s: State, n: Name, x: Node, y: Node, id: nat)
    requires Stranded(s, n, x) && Enabled(s, Depart(x))
    requires y != x && y !in s.departed && id !in s.tasks
    ensures var steps := [Depart(x), StartRecreate(id, y, n, x), Apply(id)];
      && IsRun(s, steps)
      && n in Run(s, steps).record && Run(s, steps).record[n] == y
      && id in Run(s, steps).tasks && Run(s, steps).tasks[id] == Task(y, n, Won(x))
  {
    ThreeSteps(s, Depart(x), StartRecreate(id, y, n, x), Apply(id));
  }
}
