/**
 What a receive loop's turns owe the actor and the event loop: a fault halts the loop
 and nothing reaches the actor until it is reinstated, a teardown is final, what an actor
 puts aside comes back in order, and a loop gives way after its quota of messages.
 */
module LoopTurns {
  import opened Common
  import opened Scheduler

  /* ---------- a suspension halts the loop ---------- */

  /** No way into the actor's loop is left, and no send can open one. */
  predicate Halted(s: Sys, p: Pid) {
    && p in s.actors && !s.actors[p].processing
    && (s.actors[p].suspended || !s.actors[p].running)
  }

  /** A loop whose behavior returns to find its actor suspended, by whatever means, halts,
      and what is queued stays queued. */
  lemma SuspendedLoopHalts(s: Sys)
    requires Inv(s) && LoopEnabled(s, Finish) && s.actors[s.exec.pid].suspended
    ensures var p, t := s.exec.pid, Next(s, Loop(Finish));
      && Halted(t, p) && !t.exec.Running?
      && t.actors[p].mailbox == s.actors[p].mailbox && t.actors[p].log == s.actors[p].log
  {
  }

  /** A behavior faults and settles: the loop halts at once, and what is queued stays
      queued. */
  lemma FaultHalts(s: Sys)
    requires Inv(s) && s.exec.Running? && s.exec.current.Some?
    ensures var steps := [Call(s.exec.pid, Suspend), Loop(Finish)];
      && IsRun(s, steps)
      && var t := Run(s, steps);
      && Halted(t, s.exec.pid) && !t.exec.Running?
      && t.actors[s.exec.pid].mailbox == s.actors[s.exec.pid].mailbox
      && t.actors[s.exec.pid].log == s.actors[s.exec.pid].log
  {
    var p := s.exec.pid;
    var steps := [Call(p, Suspend), Loop(Finish)];
    ExecutingAlone(s);
    var s1 := Next(s, steps[0]);
    assert s1.exec == s.exec && s1.actors[p] == Local(s.actors[p], Suspend);
    assert steps[1..] == [Loop(Finish)] && steps[1..][1..] == [];
    assert Enabled(s1, Loop(Finish));
    assert Run(s1, steps[1..]) == Next(s1, Loop(Finish));
  }

  /** A halted actor's loop neither executes nor waits to. */
  lemma HaltedHasNoWayIn(s: Sys, p: Pid)
    requires Inv(s) && Halted(s, p)
    ensures !(s.exec.Running? && s.exec.pid == p) && s.actors[p].parked == None && Count(Pending(s), p) == 0
  {
    assert Tokens(s, p) == Flag(s.actors[p].processing);
  }

  lemma HaltedCall(a: Actor, act: Act)
    requires !a.processing && (a.suspended || !a.running) && act != Unsuspend && LocalEnabled(a, act)
    ensures !Schedules(a, act)
    ensures var b := Local(a, act);
      && !b.processing && (b.suspended || !b.running)
      && b.log.handed == a.log.handed && b.log.accepted == a.log.accepted && (act != Reset ==> b.mailbox == a.mailbox)
  {
  }

  lemma HaltedStep(s: Sys, step: Step, p: Pid)
    requires Inv(s) && Enabled(s, step) && Halted(s, p) && step != Call(p, Unsuspend)
    ensures var t := Next(s, step);
      && Halted(t, p)
      && t.actors[p].log.handed == s.actors[p].log.handed && t.actors[p].log.accepted == s.actors[p].log.accepted
      && (step != Call(p, Reset) ==> t.actors[p].mailbox == s.actors[p].mailbox)
  {
    HaltedHasNoWayIn(s, p);
    if step.Call? && step.pid == p {
      HaltedCall(s.actors[p], step.act);
    } else {
      OtherActorsStay(s, step, p);
    }
  }

  /** A step changes no actor but the one it calls or whose loop it turns. */
  lemma OtherActorsStay(s: Sys, step: Step, p: Pid)
    requires Enabled(s, step) && p in s.actors
    requires !(step.Call? && step.pid == p) && !(step.Settle? && step.pid == p)
    requires !(s.exec.Running? && s.exec.pid == p)
    ensures p in Next(s, step).actors && Next(s, step).actors[p] == s.actors[p]
  {
    match step
    case Call(q, act) => CallActors(s, q, act);
    case Loop(turn) => LoopActors(s, turn);
    case _ =>
  }

  /** Through every run without a reinstatement, a halted actor is handed nothing and
      accepts nothing; and it keeps its mail unless it is torn down. */
  lemma {:induction false} SuspensionHolds(s: Sys, steps: seq<Step>, p: Pid)
    requires Inv(s) && IsRun(s, steps) && Halted(s, p) && Call(p, Unsuspend) !in steps
    ensures var t := Run(s, steps);
      && Halted(t, p)
      && t.actors[p].log.handed == s.actors[p].log.handed && t.actors[p].log.accepted == s.actors[p].log.accepted
      && (Call(p, Reset) !in steps ==> t.actors[p].mailbox == s.actors[p].mailbox)
    decreases |steps|
  {
    if steps != [] {
      HaltedStep(s, steps[0], p);
      StepKeepsInv(s, steps[0]);
      SuspensionHolds(Next(s, steps[0]), steps[1..], p);
    }
  }

  /** A reinstatement lets a halted actor go on: its mail, if it has any, is scheduled
      exactly once. */
  lemma ReinstatementResumes(s: Sys, p: Pid)
    requires Inv(s) && Halted(s, p)
    ensures Enabled(s, Call(p, Unsuspend))
    ensures var t := Next(s, Call(p, Unsuspend));
      && !t.actors[p].suspended && t.actors[p].mailbox == s.actors[p].mailbox
      && (s.actors[p].suspended && s.actors[p].mailbox != [] ==>
            t.actors[p].processing && Pending(t) == Pending(s) + [p] && (t.armed || Pumping(t)))
  {
    StepKeepsInv(s, Call(p, Unsuspend));
    var b := Local(s.actors[p], Unsuspend);
    if s.actors[p].suspended && s.actors[p].mailbox != [] {
      WithTwice(s, p, b, b.(processing := true));
      EnlistPending(s, p, b.(processing := true));
    }
  }

  /* ---------- a teardown is final ---------- */

  /** The actor has been torn down: nothing is queued, and no way in is left. */
  predicate TornDown(s: Sys, p: Pid) {
    Halted(s, p) && !s.actors[p].running && s.actors[p].stop == Gone && s.actors[p].mailbox == []
  }

  /** A stop whose loop has gone idle runs `postStop` and tears the actor down, with
      nothing left of its mailbox, its stash and its suspension. */
  lemma StopTearsDown(s: Sys, p: Pid)
    requires p in s.actors && s.actors[p].stop == Ready && !s.actors[p].processing
    ensures var steps := [Call(p, PostStop), Call(p, Reset)];
      && IsRun(s, steps)
      && var t := Run(s, steps);
      && TornDown(t, p) && t.actors[p].stash == [] && !t.actors[p].suspended && t.actors[p].log == s.actors[p].log
  {
    var steps := [Call(p, PostStop), Call(p, Reset)];
    var s1 := Next(s, steps[0]);
    assert s1 == With(s, p, Local(s.actors[p], PostStop));
    assert steps[1..] == [Call(p, Reset)] && steps[1..][1..] == [];
    assert Run(s1, steps[1..]) == Next(s1, Call(p, Reset));
  }

  lemma TornDownCall(a: Actor, act: Act)
    requires !a.processing && !a.running && a.stop == Gone && a.mailbox == [] && LocalEnabled(a, act)
    ensures !Schedules(a, act)
    ensures var b := Local(a, act);
      && !b.processing && !b.running && b.stop == Gone && b.mailbox == []
      && b.log.handed == a.log.handed && b.log.accepted == a.log.accepted
  {
  }

  lemma TornDownStep(s: Sys, step: Step, p: Pid)
    requires Inv(s) && Enabled(s, step) && TornDown(s, p)
    ensures var t := Next(s, step);
      && TornDown(t, p)
      && t.actors[p].log.handed == s.actors[p].log.handed && t.actors[p].log.accepted == s.actors[p].log.accepted
  {
    HaltedHasNoWayIn(s, p);
    if step.Call? && step.pid == p {
      TornDownCall(s.actors[p], step.act);
    } else {
      OtherActorsStay(s, step, p);
    }
  }

  /** Through every run a torn-down actor stays so, and is handed and accepts nothing. */
  lemma {:induction false} TeardownIsFinal(s: Sys, steps: seq<Step>, p: Pid)
    requires Inv(s) && IsRun(s, steps) && TornDown(s, p)
    ensures var t := Run(s, steps);
      && TornDown(t, p)
      && t.actors[p].log.handed == s.actors[p].log.handed && t.actors[p].log.accepted == s.actors[p].log.accepted
    decreases |steps|
  {
    if steps != [] {
      TornDownStep(s, steps[0], p);
      StepKeepsInv(s, steps[0]);
      TeardownIsFinal(Next(s, steps[0]), steps[1..], p);
    }
  }

  /* ---------- what is put aside comes back in order ---------- */

  function Stashes(p: Pid, ms: seq<Msg>): seq<Step> {
    if ms == [] then [] else [Call(p, SelfStash(ms[0]))] + Stashes(p, ms[1..])
  }

  function Unstashes(p: Pid, n: nat): seq<Step> {
    if n == 0 then [] else [Call(p, Unstash(false))] + Unstashes(p, n - 1)
  }

  /** The actor has its stash back in its mailbox, behind what was queued, and `ms` after
      it; nothing is lost, and its loop is scheduled. */
  predicate CameBack(a: Actor, b: Actor, ms: seq<Msg>) {
    && b.mailbox == a.mailbox + a.stash + ms && b.stash == [] && b.log == a.log
    && (a.stash + ms != [] ==> b.processing)
  }

  lemma {:induction false} UnstashAll(s: Sys, p: Pid)
    requires p in s.actors && IsRunning(s.actors[p])
    ensures var steps := Unstashes(p, |s.actors[p].stash|);
      IsRun(s, steps) && p in Run(s, steps).actors && CameBack(s.actors[p], Run(s, steps).actors[p], [])
    decreases |s.actors[p].stash|
  {
    var a := s.actors[p];
    if a.stash != [] {
      var step := Call(p, Unstash(false));
      CallActors(s, p, Unstash(false));
      UnstashAll(Next(s, step), p);
      var steps := Unstashes(p, |a.stash|);
      assert steps[0] == step && steps[1..] == Unstashes(p, |a.stash| - 1);
      assert a.stash == [a.stash[0]] + a.stash[1..];
    }
  }

  /** Messages put aside one by one come back in the order they were put aside, behind
      the earlier ones. */
  lemma {:induction false} StashedComeBack(s: Sys, p: Pid, ms: seq<Msg>)
    requires p in s.actors && IsRunning(s.actors[p]) && forall m | m in ms :: m in s.actors[p].log.handed
    ensures var steps := Stashes(p, ms) + Unstashes(p, |s.actors[p].stash| + |ms|);
      IsRun(s, steps) && p in Run(s, steps).actors && CameBack(s.actors[p], Run(s, steps).actors[p], ms)
    decreases |ms|
  {
    var a := s.actors[p];
    var back := Unstashes(p, |a.stash| + |ms|);
    if ms == [] {
      UnstashAll(s, p);
      assert Stashes(p, ms) + back == back;
    } else {
      var t := Next(s, Call(p, SelfStash(ms[0])));
      CallActors(s, p, SelfStash(ms[0]));
      StashedComeBack(t, p, ms[1..]);
      assert (Stashes(p, ms) + back)[1..] == Stashes(p, ms[1..]) + back;
      assert ms == [ms[0]] + ms[1..];
      assert a.mailbox + (a.stash + [ms[0]]) + ms[1..] == a.mailbox + a.stash + ms;
    }
  }

  /** A message that arrives while a request pauses the actor is put aside as the last,
      and comes back as the last. */
  lemma PausedComesBack(s: Sys, k: nat)
    requires LoopEnabled(s, TakePaused(k)) && IsRunning(s.actors[s.exec.pid])
    ensures var p := s.exec.pid;
      var a := s.actors[p];
      var steps := [Loop(TakePaused(k))] + Unstashes(p, |a.stash| + 1);
      && IsRun(s, steps) && p in Run(s, steps).actors
      && CameBack(a.(mailbox := Without(a.mailbox, k)), Run(s, steps).actors[p], [a.mailbox[k]])
  {
    var p := s.exec.pid;
    LoopActors(s, TakePaused(k));
    UnstashAll(Next(s, Loop(TakePaused(k))), p);
    var steps := [Loop(TakePaused(k))] + Unstashes(p, |s.actors[p].stash| + 1);
    assert steps[1..] == Unstashes(p, |s.actors[p].stash| + 1);
  }

  /* ---------- a loop gives way after its quota ---------- */

  /** Neither the executing loop nor a parked one has used up its quota. */
  predicate Within(s: Sys) {
    && (s.exec.Running? ==> s.exec.processed < THROUGHPUT)
    && (forall p | p in s.actors && s.actors[p].parked.Some? :: s.actors[p].parked.value.processed < THROUGHPUT)
  }

  lemma CallKeepsWithin(s: Sys, p: Pid, act: Act)
    requires Within(s) && Enabled(s, Call(p, act))
    ensures Within(Next(s, Call(p, act)))
  {
    CallActors(s, p, act);
  }

  lemma LoopKeepsWithin(s: Sys, turn: LoopTurn)
    requires Within(s) && LoopEnabled(s, turn)
    ensures Within(Next(s, Loop(turn)))
  {
    LoopActors(s, turn);
  }

  lemma StepKeepsWithin(s: Sys, step: Step)
    requires Within(s) && Enabled(s, step)
    ensures Within(Next(s, step))
  {
    match step
    case Call(p, act) => CallKeepsWithin(s, p, act);
    case Loop(turn) => LoopKeepsWithin(s, turn);
    case _ =>
  }

  lemma {:induction false} RunKeepsWithin(s: Sys, steps: seq<Step>)
    requires Within(s) && IsRun(s, steps)
    ensures Within(Run(s, steps))
    decreases |steps|
  {
    if steps != [] {
      StepKeepsWithin(s, steps[0]);
      RunKeepsWithin(Next(s, steps[0]), steps[1..]);
    }
  }

  /** The message a step gets done with: a behavior that returned, or one set aside. */
  predicate Completes(step: Step) {
    step == Loop(Finish) || (step.Loop? && step.turn.TakePaused?)
  }

  function Completed(steps: seq<Step>): nat {
    if steps == [] then 0 else (if Completes(steps[0]) then 1 else 0) + Completed(steps[1..])
  }

  /** The same loop executes through the whole run, whatever is called meanwhile. */
  predicate SameLoop(s: Sys, steps: seq<Step>)
    requires IsRun(s, steps)
    decreases |steps|
  {
    s.exec.Running? && (steps == [] || SameLoop(Next(s, steps[0]), steps[1..]))
  }

  lemma CountsTurn(s: Sys, turn: LoopTurn)
    requires LoopEnabled(s, turn) && LoopNext(s, turn).exec.Running?
    ensures LoopNext(s, turn).exec.pid == s.exec.pid
    ensures LoopNext(s, turn).exec.processed == s.exec.processed + if Completes(Loop(turn)) then 1 else 0
  {
  }

  lemma CountsOne(s: Sys, step: Step)
    requires Enabled(s, step) && s.exec.Running? && Next(s, step).exec.Running?
    ensures Next(s, step).exec.pid == s.exec.pid
    ensures Next(s, step).exec.processed == s.exec.processed + if Completes(step) then 1 else 0
  {
    if step.Loop? { CountsTurn(s, step.turn); }
  }

  lemma {:induction false} CountsEach(s: Sys, steps: seq<Step>)
    requires IsRun(s, steps) && SameLoop(s, steps)
    ensures Run(s, steps).exec.Running?
    ensures Run(s, steps).exec.processed == s.exec.processed + Completed(steps)
    decreases |steps|
  {
    if steps != [] {
      CountsOne(s, steps[0]);
      CountsEach(Next(s, steps[0]), steps[1..]);
    }
  }

  /** From its dispatch on, a loop that goes on executing has completed fewer messages
      than its quota. */
  lemma NeverOverQuota(s: Sys, steps: seq<Step>)
    requires Within(s) && Enabled(s, PumpNext)
    requires IsRun(Next(s, PumpNext), steps) && SameLoop(Next(s, PumpNext), steps)
    ensures Completed(steps) < THROUGHPUT
  {
    StepKeepsWithin(s, PumpNext);
    RunKeepsWithin(Next(s, PumpNext), steps);
    CountsEach(Next(s, PumpNext), steps);
  }

  /** A completed message is charged to the loop's quota. */
  lemma Charged(s: Sys, turn: LoopTurn)
    requires LoopEnabled(s, turn) && Completes(Loop(turn)) && !s.actors[s.exec.pid].suspended
    ensures Next(s, Loop(turn))
         == Quota(With(s, s.exec.pid, Turned(s.actors[s.exec.pid], turn, s.exec.current, s.exec.processed)),
                  s.exec.processed + 1)
  {
  }

  lemma QuotaGivesWay(s: Sys, processed: nat)
    requires ExecOk(s) && s.exec.Running? && processed >= THROUGHPUT
    ensures var t := Quota(s, processed);
      && !t.exec.Running? && t.actors == s.actors && Pending(t) == Pending(s) + [s.exec.pid]
      && t.armed && (t.immediate <==> !s.armed || s.immediate)
  {
    PendingPush(s, s.exec.pid, true);
    ReturnPending(Push(s, s.exec.pid, true));
  }

  /** A completed message that does not use up the quota lets the loop go on; the one
      that does makes it give way: its actor stays processing, behind everyone queued.
      It then waits for the event loop's next turn exactly when no pump was armed at that
      moment, or the armed one waits for it too. */
  lemma YieldsAtQuota(s: Sys, turn: LoopTurn)
    requires Inv(s) && LoopEnabled(s, turn) && Completes(Loop(turn)) && !s.actors[s.exec.pid].suspended
    ensures var t := Next(s, Loop(turn));
      if s.exec.processed + 1 < THROUGHPUT then t.exec.Running? && t.exec.current == None
      else
        && !t.exec.Running? && t.actors[s.exec.pid].processing && Pending(t) == Pending(s) + [s.exec.pid]
        && t.armed && (t.immediate <==> !s.armed || s.immediate)
  {
    var p := s.exec.pid;
    var b := Turned(s.actors[p], turn, s.exec.current, s.exec.processed);
    ExecutingAlone(s);
    Charged(s, turn);
    if s.exec.processed + 1 >= THROUGHPUT {
      WithSamePending(s, p, b);
      QuotaGivesWay(With(s, p, b), s.exec.processed + 1);
    }
  }

  lemma ReturnPending(s: Sys)
    requires ExecOk(s) && s.exec.Running?
    ensures Pending(Return(s)) == Pending(s)
  {
  }

  /* ---------- whether giving way reaches the event loop ---------- */

  /** Entries queued behind a pump have the next pump armed. */
  predicate Rearmed(s: Sys) {
    match s.exec
    case Idle => s.ready != [] ==> s.armed
    case Between(pump) => pump.n < |s.ready| ==> s.armed
    case Running(_, _, _, FromPump(pump)) => pump.n < |s.ready| ==> s.armed
    case Running(_, _, _, FromSettlement) => s.ready != [] ==> s.armed
  }

  lemma LoopKeepsRearmed(s: Sys, turn: LoopTurn)
    requires Rearmed(s) && LoopEnabled(s, turn)
    ensures Rearmed(LoopNext(s, turn))
  {
  }

  lemma StepKeepsRearmed(s: Sys, step: Step)
    requires Rearmed(s) && Enabled(s, step)
    ensures Rearmed(Next(s, step))
  {
    match step
    case Loop(turn) => LoopKeepsRearmed(s, turn);
    case PumpEnd => CompactDrops(s.ready, s.exec.pump.n);
    case _ =>
  }

  lemma {:induction false} RunKeepsRearmed(s: Sys, steps: seq<Step>)
    requires Rearmed(s) && IsRun(s, steps)
    ensures Rearmed(Run(s, steps))
    decreases |steps|
  {
    if steps != [] {
      StepKeepsRearmed(s, steps[0]);
      RunKeepsRearmed(Next(s, steps[0]), steps[1..]);
    }
  }

  /** After every run, a pump that ends with entries left has its successor armed
      already, so the deferral flag it carries never decides when that one runs. */
  lemma DeferralNeverDecides(steps: seq<Step>)
    requires IsRun(START, steps) && Enabled(Run(START, steps), PumpEnd)
    ensures var s := Run(START, steps);
      var t := Next(s, PumpEnd);
      t.ready != [] ==> s.armed && t.immediate == s.immediate
  {
    RunKeepsRearmed(START, steps);
    CompactDrops(Run(START, steps).ready, Run(START, steps).exec.pump.n);
  }

  /* ---------- a loop that gives way without reaching the event loop ---------- */

  function Sent(k: nat): set<Msg> { set i | 0 <= i < k :: Msg(i, false) }

  /** An actor that has been handed `k` messages, with `ms` queued. */
  function Busy(k: nat, ms: seq<Msg>): Actor {
    NEWBORN.(processing := true, mailbox := ms, log := Log(Sent(k + |ms|), Sent(k), {}, {}))
  }

  function Alone(a: Actor, current: Option<Msg>, processed: nat): Sys {
    var exec := Running(0, current, processed, FromPump(Pump(0, 1, false)));
    Sys(map[0 := a, 1 := NEWBORN], [0], false, false, false, exec)
  }

  lemma BusyFrom(k: nat)
    ensures Local(Busy(k, []), Receive(Msg(k, false), false)) == Busy(k, [Msg(k, false)])
    ensures Turned(Busy(k, [Msg(k, false)]), TakeUser(0), None, k) == Busy(k + 1, [])
  {
    assert Sent(k + 1) == Sent(k) + {Msg(k, false)};
    assert Msg(k, false) !in Sent(k);
    assert Without([Msg(k, false)], 0) == [];
  }

  lemma FirstMail(m: Msg)
    ensures Local(NEWBORN, Receive(m, false)) == NEWBORN.(mailbox := [m], log := Log({m}, {}, {}, {}))
  {
    assert NEWBORN.mailbox + [m] == [m] && NEWBORN.log.accepted + {m} == {m};
  }

  /** The loop is about to take its first message. */
  lemma Begins() returns (steps: seq<Step>)
    ensures IsRun(START, steps) && Run(START, steps) == Alone(Busy(0, [Msg(0, false)]), None, 0)
  {
    var a := Busy(0, [Msg(0, false)]);
    assert Sent(0) == {} && Sent(1) == {Msg(0, false)};
    var s1 := Sys(map[0 := NEWBORN], [], false, false, false, Idle);
    var s2 := Sys(map[0 := NEWBORN, 1 := NEWBORN], [], false, false, false, Idle);
    var s3 := Sys(map[0 := a, 1 := NEWBORN], [0], true, false, false, Idle);
    var s4 := Sys(map[0 := a, 1 := NEWBORN], [0], false, false, false, Between(Pump(0, 1, false)));
    Then([], START, Spawn(0), s1);
    steps := [] + [Spawn(0)];
    Then(steps, s1, Spawn(1), s2);
    steps := steps + [Spawn(1)];
    FirstMail(Msg(0, false));
    assert map[0 := NEWBORN, 1 := NEWBORN][0 := a] == map[0 := a, 1 := NEWBORN];
    WithTwice(s2, 0, a.(processing := false), a);
    assert CallNext(s2, 0, Receive(Msg(0, false), false)) == s3;
    Then(steps, s2, Call(0, Receive(Msg(0, false), false)), s3);
    steps := steps + [Call(0, Receive(Msg(0, false), false))];
    Then(steps, s3, PumpStart, s4);
    steps := steps + [PumpStart];
    Then(steps, s4, PumpNext, Alone(a, None, 0));
    steps := steps + [PumpNext];
  }

  /** A behavior tells its own actor the next message and returns. */
  lemma GoesRound(steps: seq<Step>, k: nat) returns (more: seq<Step>)
    requires k + 1 < THROUGHPUT
    requires IsRun(START, steps) && Run(START, steps) == Alone(Busy(k, [Msg(k, false)]), None, k)
    ensures IsRun(START, more) && Run(START, more) == Alone(Busy(k + 1, [Msg(k + 1, false)]), None, k + 1)
  {
    BusyFrom(k);
    BusyFrom(k + 1);
    var m := Some(Msg(k, false));
    Then(steps, Alone(Busy(k, [Msg(k, false)]), None, k), Loop(TakeUser(0)), Alone(Busy(k + 1, []), m, k));
    more := steps + [Loop(TakeUser(0))];
    var next := Busy(k + 1, [Msg(k + 1, false)]);
    Then(more, Alone(Busy(k + 1, []), m, k), Call(0, Receive(Msg(k + 1, false), false)), Alone(next, m, k));
    more := more + [Call(0, Receive(Msg(k + 1, false), false))];
    Then(more, Alone(next, m, k), Loop(Finish), Alone(next, None, k + 1));
    more := more + [Loop(Finish)];
  }

  lemma {:induction false} KeepsGoing(k: nat) returns (steps: seq<Step>)
    requires k < THROUGHPUT
    ensures IsRun(START, steps) && Run(START, steps) == Alone(Busy(k, [Msg(k, false)]), None, k)
  {
    if k == 0 {
      steps := Begins();
    } else {
      steps := KeepsGoing(k - 1);
      steps := GoesRound(steps, k - 1);
    }
  }

  /** A loop whose last message sends to an idle actor: the send arms a pump in the same
      turn, and the loop that then gives way is dispatched by that pump, before the event
      loop gets its turn. */
  lemma YieldCanStayInTurn() returns (steps: seq<Step>)
    ensures IsRun(START, steps)
    ensures var s := Run(START, steps);
      s.exec == Idle && s.ready == [1, 0] && s.actors.Keys == {0, 1} && s.armed && !s.immediate
  {
    var k := THROUGHPUT - 1;
    steps := KeepsGoing(k);
    BusyFrom(k);
    var a, m := Busy(k + 1, []), Some(Msg(k, false));
    Then(steps, Alone(Busy(k, [Msg(k, false)]), None, k), Loop(TakeUser(0)), Alone(a, m, k));
    steps := steps + [Loop(TakeUser(0))];
    steps := SendsAway(steps, a, m, k);
  }

  lemma SendsAway(steps: seq<Step>, a: Actor, m: Option<Msg>, k: nat) returns (more: seq<Step>)
    requires k + 1 == THROUGHPUT && m.Some? && a == Busy(k + 1, [])
    requires IsRun(START, steps) && Run(START, steps) == Alone(a, m, k)
    ensures IsRun(START, more)
    ensures var s := Run(START, more);
      s.exec == Idle && s.ready == [1, 0] && s.actors.Keys == {0, 1} && s.armed && !s.immediate
  {
    var b := NEWBORN.(processing := true, mailbox := [Msg(0, false)], log := Log({Msg(0, false)}, {}, {}, {}));
    var pump := Pump(0, 1, false);
    var s1 := Sys(map[0 := a, 1 := b], [0, 1], true, false, false, Running(0, m, k, FromPump(pump)));
    var s2 := Sys(map[0 := a, 1 := b], [0, 1, 0], true, false, true, Between(Pump(1, 1, false)));
    var s3 := Sys(map[0 := a, 1 := b], [1, 0], true, false, true, Idle);
    FirstMail(Msg(0, false));
    assert map[0 := a, 1 := NEWBORN][1 := b] == map[0 := a, 1 := b];
    WithTwice(Alone(a, m, k), 1, b.(processing := false), b);
    assert CallNext(Alone(a, m, k), 1, Receive(Msg(0, false), false)) == s1;
    Then(steps, Alone(a, m, k), Call(1, Receive(Msg(0, false), false)), s1);
    more := steps + [Call(1, Receive(Msg(0, false), false))];
    assert LoopNext(s1, Finish) == s2;
    Then(more, s1, Loop(Finish), s2);
    more := more + [Loop(Finish)];
    CompactDrops([0, 1, 0], 1);
    assert [0, 1, 0][1..] == [1, 0];
    Then(more, s2, PumpEnd, s3);
    more := more + [PumpEnd];
  }
}
