/**
 Habits of the callers that keep every name owned: each release is announced
 once, nobody spawns a name its node is placing, a node runs one recreate of a
 name at a time, and the coordinator frees a name once and not while it is being
 moved. Under them no write of the ownership system lands on an owner.
 */
module CarefulOwnership {
  import opened Common
  import opened Ownership

  predicate Careful(s: State, a: Step) {
    match a
    case StartClaim(_, x, n) => (x, n) !in s.placing
    case StartRecreate(_, x, n, _) =>
      forall i | i in s.tasks && s.tasks[i].name == n ::
        !Freeing(s.tasks[i].phase) && (Recreate(s.tasks[i].phase) ==> s.tasks[i].node != x)
    case StartFree(_, _, n, _) =>
      forall i | i in s.tasks && s.tasks[i].name == n :: !Freeing(s.tasks[i].phase) && !s.tasks[i].phase.Cas?
    case Fail(_, _, _, echo) => echo.None?
    case StopHost(_, _, echo) => echo.None?
    case _ => true
  }

  predicate CarefulRun(s: State, steps: seq<Step>)
    requires IsRun(s, steps)
    decreases |steps|
  {
    steps == [] || (Careful(s, steps[0]) && CarefulRun(Next(s, steps[0]), steps[1..]))
  }

  /** The phases in which a task answers for its name's record. */
  predicate Holder(p: Phase) {
    p.Claimed? || p.PoolClaim? || p.Boot? || p.Companion? || p.Build? || p.Host? ||
    p.Deleting? || p.Won? || p.Restore?
  }

  /** The phases of a recreate, from its first write to its return. */
  predicate Recreate(p: Phase) { p.Cas? || p.Won? || Held(p) }

  /** What the shared state owes one task. */
  predicate Sound(t: Task, record: map<Name, Node>, recreating: set<(Node, Name)>, departed: set<Node>) {
    && (Holder(t.phase) ==> t.name in record && record[t.name] == t.node)
    && (Held(t.phase) ==> (t.node, t.name) in recreating)
    && t.node !in departed
    && (DeadOwner(t.phase).Some? ==> DeadOwner(t.phase).value in departed)
    && (t.phase.FreeDelete? ==> t.name in record && record[t.name] == t.phase.owner)
    && !t.phase.Squat?
  }

  /** What two different tasks owe each other: one holder per name, one recreate
      per node and name, and a free shares its name with no other free and no
      compare-and-set. */
  predicate Compatible(t: Task, u: Task) {
    t.name == u.name ==>
      && !(Holder(t.phase) && Holder(u.phase))
      && !(Recreate(t.phase) && Recreate(u.phase) && t.node == u.node)
      && !(Freeing(t.phase) && (Freeing(u.phase) || u.phase.Cas?))
      && !(Freeing(u.phase) && t.phase.Cas?)
  }

  predicate Inv(s: State) {
    && (forall i | i in s.tasks :: Sound(s.tasks[i], s.record, s.recreating, s.departed))
    && (forall i, j | i in s.tasks && j in s.tasks && i != j :: Compatible(s.tasks[i], s.tasks[j]))
  }

  /** The tasks other than `id` do not mind the shared state becoming that of `s'`. */
  predicate OthersSound(s: State, id: nat, s': State) {
    forall i | i in s.tasks && i != id :: Sound(s.tasks[i], s'.record, s'.recreating, s'.departed)
  }

  lemma PutTask(s: State, id: nat, t: Task, s': State)
    requires Inv(s) && s'.tasks == s.tasks[id := t]
    requires Sound(t, s'.record, s'.recreating, s'.departed) && OthersSound(s, id, s')
    requires forall i | i in s.tasks && i != id :: Compatible(t, s.tasks[i])
    ensures Inv(s')
  {
    forall i, j | i in s'.tasks && j in s'.tasks && i != j
      ensures Compatible(s'.tasks[i], s'.tasks[j])
    {
      if i == id { assert Compatible(t, s.tasks[j]); }
      if j == id { assert Compatible(t, s.tasks[i]); }
    }
  }

  lemma DropTask(s: State, id: nat, s': State)
    requires Inv(s) && s'.tasks == s.tasks - {id} && OthersSound(s, id, s')
    ensures Inv(s')
  {
  }

  lemma StartKeepsInv(s: State, a: Step)
    requires Inv(s) && Enabled(s, a) && Careful(s, a)
    requires a.StartPlace? || a.StartClaim? || a.StartRecreate? || a.StartFree?
    ensures Inv(Next(s, a))
  {
    var s' := Next(s, a);
    PutTask(s, a.id, s'.tasks[a.id], s');
  }

  /** A claim or compare-and-set that is applied: it found the record absent or
      naming a departed node, so nobody else answers for the name. */
  lemma TakeKeepsInv(s: State, id: nat)
    requires Inv(s) && Enabled(s, Apply(id))
    requires s.tasks[id].phase.Claiming? || s.tasks[id].phase.Cas?
    ensures Inv(Next(s, Apply(id)))
  {
    var s' := Next(s, Apply(id));
    if id in s'.tasks {
      forall i | i in s.tasks && i != id
        ensures Sound(s.tasks[i], s'.record, s'.recreating, s'.departed)
        ensures Compatible(s'.tasks[id], s.tasks[i])
      {
        assert Compatible(s.tasks[id], s.tasks[i]);
      }
      PutTask(s, id, s'.tasks[id], s');
    } else {
      DropTask(s, id, s');
    }
  }

  /** A delete, a hand-back or a coordinator's read that is applied: the only
      task answering for the name is the one that issued it. */
  lemma GiveKeepsInv(s: State, id: nat)
    requires Inv(s) && Enabled(s, Apply(id))
    requires !s.tasks[id].phase.Claiming? && !s.tasks[id].phase.Cas?
    ensures Inv(Next(s, Apply(id)))
  {
    var s' := Next(s, Apply(id));
    forall i | i in s.tasks && i != id
      ensures Sound(s.tasks[i], s'.record, s'.recreating, s'.departed)
      ensures id in s'.tasks ==> Compatible(s'.tasks[id], s.tasks[i])
    {
      assert Compatible(s.tasks[id], s.tasks[i]);
    }
    if id in s'.tasks {
      PutTask(s, id, s'.tasks[id], s');
    } else {
      DropTask(s, id, s');
    }
  }

  /** A step that leaves the record alone and moves one task on within its role. */
  lemma MoveKeepsInv(s: State, id: nat, p: Phase, s': State)
    requires Inv(s) && id in s.tasks && s'.tasks == s.tasks[id := s.tasks[id].(phase := p)]
    requires s'.record == s.record && s'.departed == s.departed
    requires Sound(s.tasks[id].(phase := p), s'.record, s'.recreating, s'.departed)
    requires s.recreating <= s'.recreating + {(s.tasks[id].node, s.tasks[id].name)}
    requires s.recreating <= s'.recreating || Recreate(s.tasks[id].phase)
    requires Holder(p) ==> Holder(s.tasks[id].phase)
    requires Recreate(p) ==> Recreate(s.tasks[id].phase)
    requires !Freeing(p) && !p.Cas?
    ensures Inv(s')
  {
    forall i | i in s.tasks && i != id
      ensures Sound(s.tasks[i], s'.record, s'.recreating, s'.departed)
      ensures Compatible(s.tasks[id].(phase := p), s.tasks[i])
    {
      assert Compatible(s.tasks[id], s.tasks[i]) && Compatible(s.tasks[i], s.tasks[id]);
    }
    PutTask(s, id, s.tasks[id].(phase := p), s');
  }

  lemma RefuseKeepsInv(s: State, id: nat)
    requires Inv(s) && Enabled(s, Refuse(id))
    ensures Inv(Next(s, Refuse(id)))
  {
    if s.tasks[id].phase.Restore? {
      MoveKeepsInv(s, id, Unhold, Next(s, Refuse(id)));
    } else {
      DropTask(s, id, Next(s, Refuse(id)));
    }
  }

  lemma ResumeKeepsInv(s: State, id: nat)
    requires Inv(s) && Enabled(s, Resume(id))
    ensures Inv(ResumeTask(s, id))
  {
    var s' := ResumeTask(s, id);
    if id in s'.tasks {
      MoveKeepsInv(s, id, s'.tasks[id].phase, s');
    } else {
      forall i | i in s.tasks && i != id
        ensures Sound(s.tasks[i], s'.record, s'.recreating, s'.departed)
      {
        assert Compatible(s.tasks[id], s.tasks[i]);
      }
      DropTask(s, id, s');
    }
  }

  lemma SucceedKeepsInv(s: State, id: nat)
    requires Inv(s) && Enabled(s, Succeed(id))
    ensures Inv(SucceedTask(s, id))
  {
    MoveKeepsInv(s, id, SucceedTask(s, id).tasks[id].phase, SucceedTask(s, id));
  }

  /** An ordinary task that rolls its record back gives way to the delete it issued. */
  lemma RollBackKeepsInv(s: State, id: nat, del: nat, s': State)
    requires Inv(s) && id in s.tasks && del !in s.tasks && Holder(s.tasks[id].phase)
    requires s'.tasks == (s.tasks - {id})[del := Task(s.tasks[id].node, s.tasks[id].name, Deleting)]
    requires s'.record == s.record && s'.recreating == s.recreating && s'.departed == s.departed
    ensures Inv(s')
  {
    var s1 := End(s, id);
    DropTask(s, id, s1);
    forall i | i in s1.tasks
      ensures Compatible(s'.tasks[del], s1.tasks[i])
    {
      assert Compatible(s.tasks[id], s.tasks[i]);
    }
    PutTask(s1, del, s'.tasks[del], s');
  }

  lemma FailKeepsInv(s: State, id: nat, released: bool, del: nat)
    requires Inv(s) && Enabled(s, Fail(id, released, del, None))
    ensures Inv(Next(s, Fail(id, released, del, None)))
  {
    var s' := Next(s, Fail(id, released, del, None));
    var t := s.tasks[id];
    if DeadOwner(t.phase).Some? {
      // The name is held, so no delete was issued.
      MoveKeepsInv(s, id, s'.tasks[id].phase, s');
    } else if del in s'.tasks {
      assert (s.tasks[del := Task(t.node, t.name, Deleting)]) - {id}
          == (s.tasks - {id})[del := Task(t.node, t.name, Deleting)];
      RollBackKeepsInv(s, id, del, s');
    } else {
      DropTask(s, id, s');
    }
  }

  lemma StopHostKeepsInv(s: State, id: nat, del: nat)
    requires Inv(s) && Enabled(s, StopHost(id, del, None))
    ensures Inv(Next(s, StopHost(id, del, None)))
  {
    var s' := Next(s, StopHost(id, del, None));
    var t := s.tasks[id];
    assert Sound(t, s.record, s.recreating, s.departed);
    if t.phase.held {
      MoveKeepsInv(s, id, Unhold, s');
    } else if del in s'.tasks {
      assert (s.tasks[del := Task(t.node, t.name, Deleting)]) - {id}
          == (s.tasks - {id})[del := Task(t.node, t.name, Deleting)];
      RollBackKeepsInv(s, id, del, s');
    } else {
      DropTask(s, id, s');
    }
  }

  /** Every careful step of every node keeps the invariant. */
  lemma StepKeepsInv(s: State, a: Step)
    requires Inv(s) && Enabled(s, a) && Careful(s, a)
    ensures Inv(Next(s, a))
  {
    match a
    case Apply(id) =>
      if s.tasks[id].phase.Claiming? || s.tasks[id].phase.Cas? { TakeKeepsInv(s, id); } else { GiveKeepsInv(s, id); }
    case Refuse(id) => RefuseKeepsInv(s, id);
    case Resume(id) => ResumeKeepsInv(s, id);
    case Succeed(id) => SucceedKeepsInv(s, id);
    case Fail(id, released, del, _) => FailKeepsInv(s, id, released, del);
    case StopHost(id, del, _) => StopHostKeepsInv(s, id, del);
    case StopNode(_) =>
    case Depart(_) =>
    case _ => StartKeepsInv(s, a);
  }

  /** A careful step never lands on an owner. */
  lemma CarefulStepQuiet(s: State, a: Step)
    requires Inv(s) && Enabled(s, a) && Careful(s, a)
    ensures !Misfire(s, a)
  {
    if a.Apply? && Blind(s.tasks[a.id].phase) {
      forall j | j in s.tasks && j != a.id && s.tasks[j].name == s.tasks[a.id].name
        ensures !Owning(s.tasks[j].phase)
      {
        assert Compatible(s.tasks[a.id], s.tasks[j]) && Sound(s.tasks[j], s.record, s.recreating, s.departed);
        assert Sound(s.tasks[a.id], s.record, s.recreating, s.departed);
      }
    }
  }

  lemma {:induction false} CarefulRunQuiet(s: State, steps: seq<Step>)
    requires Inv(s) && IsRun(s, steps) && CarefulRun(s, steps)
    ensures !Misfires(s, steps) && Inv(Run(s, steps))
    decreases |steps|
  {
    if steps != [] {
      CarefulStepQuiet(s, steps[0]);
      StepKeepsInv(s, steps[0]);
      CarefulRunQuiet(Next(s, steps[0]), steps[1..]);
    }
  }

  /** A careful run keeps one owner per name throughout, and the record with it. */
  lemma CarefulRunsKeepOwnership(steps: seq<Step>)
    requires IsRun(Init, steps) && CarefulRun(Init, steps)
    ensures OwnedThroughout(Init, steps)
  {
    CarefulRunQuiet(Init, steps);
    AtMostOneOwner(steps);
  }

  /** No careful step takes the record from under a recreate, so a failed one
      always leaves a record behind. */
  lemma CarefulStepSparesRecreate(s: State, a: Step, i: nat)
    requires Inv(s) && Base(s) && Enabled(s, a) && Careful(s, a) && i in s.tasks && MidRecreate(s.tasks[i].phase)
    ensures Intact(s, i) && RecreateKept(s, a, Next(s, a), i)
  {
    assert Sound(s.tasks[i], s.record, s.recreating, s.departed);
    if a.Apply? && a.id != i {
      assert Sound(s.tasks[a.id], s.record, s.recreating, s.departed);
      assert Compatible(s.tasks[i], s.tasks[a.id]);
    }
    StepKeepsRecreate(s, a, i);
  }

  /** After a careful run, in the middle of any recreate, the record names the
      recreating node and the next careful step keeps it. */
  lemma CarefulRunsKeepRecreates(steps: seq<Step>, a: Step, i: nat)
    requires IsRun(Init, steps) && CarefulRun(Init, steps)
    requires Enabled(Run(Init, steps), a) && Careful(Run(Init, steps), a)
    requires i in Run(Init, steps).tasks && MidRecreate(Run(Init, steps).tasks[i].phase)
    ensures Intact(Run(Init, steps), i)
    ensures RecreateKept(Run(Init, steps), a, Next(Run(Init, steps), a), i)
  {
    CarefulRunQuiet(Init, steps);
    RunKeepsBase(Init, steps);
    CarefulStepSparesRecreate(Run(Init, steps), a, i);
  }

  /** After a careful run, a refused hand-back always strands the name, and no
      delete of it is outstanding: only the node's departure frees it. */
  lemma CarefulRefusalStrands(steps: seq<Step>, i: nat)
    requires IsRun(Init, steps) && CarefulRun(Init, steps)
    requires i in Run(Init, steps).tasks && Run(Init, steps).tasks[i].phase.Restore?
    ensures var s := Run(Init, steps);
      var s', t := Next(s, Refuse(i)), s.tasks[i];
      && Stranded(s', t.name, t.node)
      && (forall a | Enabled(s', a) && Frees(s', a, t.name, t.node) :: a == Depart(t.node))
  {
    var s := Run(Init, steps);
    CarefulRunQuiet(Init, steps);
    RunKeepsBase(Init, steps);
    var s', t := Next(s, Refuse(i)), s.tasks[i];
    assert Sound(t, s.record, s.recreating, s.departed);
    forall j | j in s.tasks && j != i && s.tasks[j].name == t.name
      ensures !Holder(s.tasks[j].phase) && !s.tasks[j].phase.FreeDelete?
    {
      assert Compatible(t, s.tasks[j]) && Sound(s.tasks[j], s.record, s.recreating, s.departed);
    }
    RefusedRestoreStrands(s, i);
  }

  /* ---------- no record is left behind ---------- */

  predicate HeldBy(s: State, n: Name, x: Node) {
    exists i | i in s.tasks :: s.tasks[i].name == n && s.tasks[i].node == x && Holder(s.tasks[i].phase)
  }

  /** Every record that names a live, unstopped node has a task there that answers for it:
      it builds or hosts the name, or is about to give it back. */
  predicate Answered(s: State) {
    forall n | n in s.record && s.record[n] !in s.stopped && s.record[n] !in s.departed :: HeldBy(s, n, s.record[n])
  }

  /** A step that abandons its record: a delete or a hand-back that is refused for good, a
      build that failed before the pool took the name over, or a release that is withheld
      because a recreate holds the name. */
  predicate Leaks(s: State, a: Step) {
    match a
    case Refuse(id) =>
      && id in s.tasks && s.tasks[id].node !in s.stopped
      && (s.tasks[id].phase.Deleting? || s.tasks[id].phase.Restore?)
    case Fail(id, released, _, _) =>
      && id in s.tasks && s.tasks[id].node !in s.stopped && DeadOwner(s.tasks[id].phase).None?
      && ((s.tasks[id].phase.Build? && !released) || (s.tasks[id].node, s.tasks[id].name) in s.recreating)
    case StopHost(id, _, _) =>
      && id in s.tasks && s.tasks[id].node !in s.stopped
      && (s.tasks[id].node, s.tasks[id].name) in s.recreating
    case _ => false
  }

  predicate AnsweredThroughout(s: State, steps: seq<Step>)
    requires IsRun(s, steps)
    decreases |steps|
  {
    Answered(s) && (steps == [] || AnsweredThroughout(Next(s, steps[0]), steps[1..]))
  }

  predicate LeaksIn(s: State, steps: seq<Step>)
    requires IsRun(s, steps)
    decreases |steps|
  {
    steps != [] && (Leaks(s, steps[0]) || LeaksIn(Next(s, steps[0]), steps[1..]))
  }

  /** A task that answers for its record goes on doing so, or leaves a delete behind that
      does, or the record is gone or given back. */
  lemma HolderMoves(s: State, a: Step, i: nat)
    requires Inv(s) && Enabled(s, a) && Careful(s, a) && !Leaks(s, a)
    requires i in s.tasks && Acts(a, i) && Holder(s.tasks[i].phase) && s.tasks[i].node !in s.stopped
    ensures var s', t := Next(s, a), s.tasks[i];
      || HeldBy(s', t.name, t.node)
      || t.name !in s'.record || s'.record[t.name] in s'.departed
  {
    var s', t := Next(s, a), s.tasks[i];
    assert Sound(t, s.record, s.recreating, s.departed);
    if i in s'.tasks && Holder(s'.tasks[i].phase) {
      OwnMove(s, a, i);
    } else if a.Fail? || a.StopHost? {
      assert s'.tasks[a.del] == Task(t.node, t.name, Deleting);
    }
  }

  lemma AnswerGoesOn(s: State, a: Step, i: nat)
    requires Inv(s) && Enabled(s, a) && Careful(s, a) && !Leaks(s, a)
    requires i in s.tasks && Holder(s.tasks[i].phase) && s.tasks[i].node !in s.stopped
    ensures var s', t := Next(s, a), s.tasks[i];
      || HeldBy(s', t.name, t.node)
      || t.name !in s'.record || s'.record[t.name] in s'.departed
  {
    if Acts(a, i) {
      HolderMoves(s, a, i);
    } else {
      OthersUntouched(s, a, i);
    }
  }

  /** A record appears only with a task behind it, or names a departed node. */
  lemma NewRecord(s: State, a: Step, n: Name)
    requires Inv(s) && Enabled(s, a) && n in Next(s, a).record
    requires n !in s.record || Next(s, a).record[n] != s.record[n]
    ensures HeldBy(Next(s, a), n, Next(s, a).record[n]) || Next(s, a).record[n] in Next(s, a).departed
  {
    if !a.Apply? {
      OnlyStoreWrites(s, a);
    } else {
      assert Sound(s.tasks[a.id], s.record, s.recreating, s.departed);
      if a.id in Next(s, a).tasks { OwnMove(s, a, a.id); }
    }
  }

  lemma QuietStepKeepsAnswered(s: State, a: Step)
    requires Inv(s) && Answered(s) && Enabled(s, a) && Careful(s, a) && !Leaks(s, a)
    ensures Answered(Next(s, a))
  {
    var s' := Next(s, a);
    forall n | n in s'.record && s'.record[n] !in s'.stopped && s'.record[n] !in s'.departed
      ensures HeldBy(s', n, s'.record[n])
    {
      if n in s.record && s'.record[n] == s.record[n] {
        assert HeldBy(s, n, s.record[n]);
        var i :| i in s.tasks && s.tasks[i].name == n && s.tasks[i].node == s.record[n] && Holder(s.tasks[i].phase);
        AnswerGoesOn(s, a, i);
      } else {
        NewRecord(s, a, n);
      }
    }
  }

  lemma LeakBreaksAnswered(s: State, a: Step)
    requires Inv(s) && Enabled(s, a) && Careful(s, a) && Leaks(s, a)
    requires a.StopHost? ==> s.tasks[a.id].phase.Host?
    ensures !Answered(Next(s, a))
  {
    var s', t := Next(s, a), s.tasks[a.id];
    assert Sound(t, s.record, s.recreating, s.departed);
    OnlyStoreWrites(s, a);
    forall j | j in s'.tasks && s'.tasks[j].name == t.name
      ensures !Holder(s'.tasks[j].phase)
    {
      if j in s.tasks && j != a.id {
        OthersUntouched(s, a, j);
        assert Compatible(t, s.tasks[j]);
      }
    }
    assert !HeldBy(s', t.name, t.node);
  }

  lemma {:induction false} AnsweredUnlessLeaked(s: State, steps: seq<Step>)
    requires Inv(s) && Answered(s) && IsRun(s, steps) && CarefulRun(s, steps)
    ensures AnsweredThroughout(s, steps) <==> !LeaksIn(s, steps)
    decreases |steps|
  {
    if steps != [] {
      var a := steps[0];
      if Leaks(s, a) {
        assert a.StopHost? ==> Sound(s.tasks[a.id], s.record, s.recreating, s.departed);
        LeakBreaksAnswered(s, a);
      } else {
        QuietStepKeepsAnswered(s, a);
        StepKeepsInv(s, a);
        AnsweredUnlessLeaked(Next(s, a), steps[1..]);
      }
    }
  }

  /** Through a careful run every record of a live, unstopped node has a task behind it,
      exactly when no step abandons one: a failed placement, a refused pool claim and a
      stopped actor all give their names back. */
  lemma CarefulRunsLeaveNothing(steps: seq<Step>)
    requires IsRun(Init, steps) && CarefulRun(Init, steps)
    ensures AnsweredThroughout(Init, steps) <==> !LeaksIn(Init, steps)
  {
    AnsweredUnlessLeaked(Init, steps);
  }
}
