/**
 What becomes of an actor's accepted messages, and what a graceful stop owes them.
 */
module GracefulStop {
  import opened Common
  import opened Scheduler

  /** How often a message is queued or stashed. */
  function Copies(a: Actor, m: Msg): nat {
    multiset(a.mailbox)[m] + multiset(a.stash)[m]
  }

  /** A message is accepted exactly when it is queued, stashed, handed to a behavior,
      consumed or dropped; a dropped one is nothing else; one that no behavior has
      seen is queued or stashed at most once. */
  predicate Accounted(a: Actor, m: Msg) {
    && (m in a.log.accepted <==> Copies(a, m) > 0 || m in a.log.handed || m in a.log.consumed || m in a.log.dropped)
    && (m in a.log.dropped ==> Copies(a, m) == 0 && m !in a.log.handed && m !in a.log.consumed)
    && (m !in a.log.handed ==> Copies(a, m) <= 1)
    && (m in a.log.consumed ==> m.command)
    && (m in a.log.handed || m in a.stash ==> !m.command)
  }

  /** The messages a call lets go that no behavior has seen. */
  function Lost(a: Actor, act: Act): set<Msg> {
    match act
    case Unstash(full) => if a.stash != [] && (full || !IsRunning(a)) then {a.stash[0]} - a.log.handed else {}
    case ClearStash => Elements(a.stash) - a.log.handed
    case _ => {}
  }

  lemma WithoutMoves(s: seq<Msg>, k: nat)
    requires k < |s|
    ensures multiset(Without(s, k)) == multiset(s) - multiset{s[k]}
  {
    assert s == s[..k] + [s[k]] + s[k + 1..];
  }

  lemma UnstashAccounts(a: Actor, full: bool, m: Msg)
    requires Accounted(a, m)
    ensures Accounted(Local(a, Unstash(full)), m)
    ensures m in Local(a, Unstash(full)).log.dropped <==> m in a.log.dropped || m in Lost(a, Unstash(full))
  {
    if a.stash != [] {
      WithoutMoves(a.stash, 0);
      assert Without(a.stash, 0) == a.stash[1..];
    }
  }

  lemma CallAccounts(a: Actor, act: Act, m: Msg)
    requires Accounted(a, m) && LocalEnabled(a, act) && act != Reset
    ensures Accounted(Local(a, act), m)
    ensures m in Local(a, act).log.dropped <==> m in a.log.dropped || m in Lost(a, act)
  {
    match act
    case Unstash(full) => UnstashAccounts(a, full, m);
    case Receive(_, _) =>
    case SelfStash(_) =>
    case ClearStash =>
    case _ =>
  }

  lemma TakeAccounts(a: Actor, turn: LoopTurn, k: nat, current: Option<Msg>, processed: nat, m: Msg)
    requires Accounted(a, m) && TurnEnabled(a, turn, current)
    requires turn == TakeCommand(k) || turn == TakePaused(k) || turn == TakeUser(k)
    ensures Accounted(Turned(a, turn, current, processed), m)
  {
    WithoutMoves(a.mailbox, k);
  }

  /** A turn of the receive loop accounts for what it takes and drops nothing. */
  lemma TurnAccounts(a: Actor, turn: LoopTurn, current: Option<Msg>, processed: nat, m: Msg)
    requires Accounted(a, m) && TurnEnabled(a, turn, current)
    ensures Accounted(Turned(a, turn, current, processed), m)
  {
    match turn
    case TakeCommand(k) => TakeAccounts(a, turn, k, current, processed, m);
    case TakePaused(k) => TakeAccounts(a, turn, k, current, processed, m);
    case TakeUser(k) => TakeAccounts(a, turn, k, current, processed, m);
    case _ =>
  }

  predicate AccountedIn(s: Sys, p: Pid, m: Msg) {
    p in s.actors && s.actors[p].stop != Gone ==> Accounted(s.actors[p], m)
  }

  /** The messages of `p` a step lets go that no behavior has seen. */
  function StepLost(s: Sys, step: Step, p: Pid): set<Msg> {
    if step.Call? && step.pid == p && p in s.actors then Lost(s.actors[p], step.act) else {}
  }

  function Dropped(s: Sys, p: Pid): set<Msg> {
    if p in s.actors then s.actors[p].log.dropped else {}
  }

  lemma CallStepAccounts(s: Sys, q: Pid, act: Act, p: Pid, m: Msg)
    requires Enabled(s, Call(q, act)) && AccountedIn(s, p, m)
    ensures var t := CallNext(s, q, act);
            && AccountedIn(t, p, m)
            && (p in t.actors && t.actors[p].stop != Gone ==>
                  (m in Dropped(t, p) <==> m in Dropped(s, p) || m in StepLost(s, Call(q, act), p)))
  {
    CallActors(s, q, act);
    if q == p && s.actors[p].stop != Gone && act != Reset { CallAccounts(s.actors[p], act, m); }
  }

  lemma LoopStepAccounts(s: Sys, turn: LoopTurn, p: Pid, m: Msg)
    requires LoopEnabled(s, turn) && AccountedIn(s, p, m)
    ensures AccountedIn(LoopNext(s, turn), p, m) && Dropped(LoopNext(s, turn), p) == Dropped(s, p)
  {
    LoopActors(s, turn);
    if p == s.exec.pid && s.actors[p].stop != Gone {
      TurnAccounts(s.actors[p], turn, s.exec.current, s.exec.processed, m);
    }
  }

  lemma StepAccounts(s: Sys, step: Step, p: Pid, m: Msg)
    requires Enabled(s, step) && AccountedIn(s, p, m)
    ensures AccountedIn(Next(s, step), p, m)
    ensures p in Next(s, step).actors && Next(s, step).actors[p].stop != Gone ==>
              (m in Dropped(Next(s, step), p) <==> m in Dropped(s, p) || m in StepLost(s, step, p))
  {
    match step
    case Call(q, act) => CallStepAccounts(s, q, act, p, m);
    case Loop(turn) => LoopStepAccounts(s, turn, p, m);
    case _ =>
  }

  lemma StepKeepsGone(s: Sys, step: Step, p: Pid)
    requires Enabled(s, step) && p in s.actors && s.actors[p].stop == Gone
    ensures p in Next(s, step).actors && Next(s, step).actors[p].stop == Gone
  {
    match step
    case Call(q, act) => CallActors(s, q, act);
    case Loop(turn) => LoopActors(s, turn);
    case _ =>
  }

  /** A torn-down actor stays so. */
  lemma {:induction false} GoneForGood(s: Sys, steps: seq<Step>, p: Pid)
    requires IsRun(s, steps) && p in s.actors && s.actors[p].stop == Gone
    ensures p in Run(s, steps).actors && Run(s, steps).actors[p].stop == Gone
    decreases |steps|
  {
    if steps != [] {
      StepKeepsGone(s, steps[0], p);
      GoneForGood(Next(s, steps[0]), steps[1..], p);
    }
  }

  lemma StepDrops(s: Sys, step: Step, p: Pid)
    requires Enabled(s, step) && (forall m :: AccountedIn(s, p, m))
    ensures forall m :: AccountedIn(Next(s, step), p, m)
    ensures (p in Next(s, step).actors && Next(s, step).actors[p].stop == Gone)
            || Dropped(Next(s, step), p) == Dropped(s, p) + StepLost(s, step, p)
  {
    var t := Next(s, step);
    forall m ensures AccountedIn(t, p, m) { StepAccounts(s, step, p, m); }
    if p !in t.actors {
      assert p !in s.actors by { if p in s.actors { StepActors(s, step, p); } }
    } else if t.actors[p].stop != Gone {
      forall m ensures m in Dropped(t, p) <==> m in Dropped(s, p) || m in StepLost(s, step, p) {
        StepAccounts(s, step, p, m);
      }
    }
  }

  lemma StepActors(s: Sys, step: Step, p: Pid)
    requires Enabled(s, step) && p in s.actors
    ensures p in Next(s, step).actors
  {
    match step
    case Call(q, act) => CallActors(s, q, act);
    case Loop(turn) => LoopActors(s, turn);
    case _ =>
  }

  /** No step of the run lets go of a message of `p` that no behavior has seen: no
      unstash while `p` is not running or its mailbox is full, and no restart, finds
      such a message in its stash. */
  predicate LossFree(s: Sys, steps: seq<Step>, p: Pid)
    requires IsRun(s, steps)
    decreases |steps|
  {
    steps == [] || (StepLost(s, steps[0], p) == {} && LossFree(Next(s, steps[0]), steps[1..], p))
  }

  lemma {:induction false} RunAccounts(s: Sys, steps: seq<Step>, p: Pid)
    requires IsRun(s, steps) && (forall m :: AccountedIn(s, p, m))
    requires p in Run(s, steps).actors && Run(s, steps).actors[p].stop != Gone
    ensures forall m :: Accounted(Run(s, steps).actors[p], m)
    ensures Dropped(Run(s, steps), p) == {} <==> Dropped(s, p) == {} && LossFree(s, steps, p)
    decreases |steps|
  {
    if steps == [] {
      forall m ensures Accounted(s.actors[p], m) { assert AccountedIn(s, p, m); }
    } else {
      var t := Next(s, steps[0]);
      StepDrops(s, steps[0], p);
      if p in t.actors && t.actors[p].stop == Gone { GoneForGood(t, steps[1..], p); }
      RunAccounts(t, steps[1..], p);
    }
  }

  /** A stop that met no fault and no restart reaches `postStop` with an empty mailbox
      and nothing running. Every message accepted by then was handed to a behavior,
      consumed by the runtime or is still stashed if and only if the run is loss free. */
  lemma StopOwesNothing(steps: seq<Step>, p: Pid)
    requires IsRun(START, steps) && p in Run(START, steps).actors
    requires Run(START, steps).actors[p].stop == Ready && !Run(START, steps).actors[p].faulted
    ensures var a := Run(START, steps).actors[p];
            && a.mailbox == [] && !a.processing && a.parked == None
            && ((forall m | m in a.log.accepted :: m in a.log.handed || m in a.log.consumed || m in a.stash)
                <==> LossFree(START, steps, p))
  {
    var a := Run(START, steps).actors[p];
    RunKeepsInv(START, steps);
    assert Tokens(Run(START, steps), p) == Flag(a.processing);
    forall m ensures AccountedIn(START, p, m) {}
    RunAccounts(START, steps, p);
    forall m ensures m in a.log.dropped <==>
        m in a.log.accepted && m !in a.log.handed && m !in a.log.consumed && m !in a.stash {
      assert Accounted(a, m);
    }
    assert a.log.dropped == {} <==> forall m :: m !in a.log.dropped;
  }

  /** A paused actor with messages queued. */
  function Queued(ms: seq<Msg>): Actor {
    NEWBORN.(processing := ms != [], paused := 1, mailbox := ms, log := Log(Elements(ms), {}, {}, {}))
  }

  function Only(a: Actor, exec: Exec): Sys {
    Sys(map[0 := a], [0], exec.Idle?, false, false, exec)
  }

  const TURN := Running(0, None, 0, FromPump(Pump(0, 1, false)))

  lemma ReceiveMore(ms: seq<Msg>, m: Msg)
    requires m !in ms
    ensures Local(Queued(ms), Receive(m, false)).(processing := true) == Queued(ms + [m])
  {
    assert Elements(ms + [m]) == Elements(ms) + {m};
  }

  lemma QueueMore(steps: seq<Step>, ms: seq<Msg>, m: Msg) returns (more: seq<Step>)
    requires ms != [] && m !in ms && IsRun(START, steps) && Run(START, steps) == Only(Queued(ms), Idle)
    ensures IsRun(START, more) && Run(START, more) == Only(Queued(ms + [m]), Idle)
  {
    ReceiveMore(ms, m);
    Then(steps, Only(Queued(ms), Idle), Call(0, Receive(m, false)), Only(Queued(ms + [m]), Idle));
    more := steps + [Call(0, Receive(m, false))];
  }

  lemma FirstIsReachable(m: Msg) returns (steps: seq<Step>)
    ensures IsRun(START, steps) && Run(START, steps) == Only(Queued([m]), Idle)
  {
    var s0 := Sys(map[0 := NEWBORN], [], false, false, false, Idle);
    var s1 := Sys(map[0 := Queued([])], [], false, false, false, Idle);
    assert Elements([]) == {};
    Then([], START, Spawn(0), s0);
    steps := [] + [Spawn(0)];
    Then(steps, s0, Call(0, SetPaused(1)), s1);
    steps := steps + [Call(0, SetPaused(1))];
    ReceiveMore([], m);
    assert [] + [m] == [m];
    Then(steps, s1, Call(0, Receive(m, false)), Only(Queued([m]), Idle));
    steps := steps + [Call(0, Receive(m, false))];
  }

  /** The loop of a paused actor begins with a pill, a user message and a reply queued. */
  lemma DrainingIsReachable(pill: Msg, user: Msg, reply: Msg) returns (steps: seq<Step>)
    requires pill != user && pill != reply && user != reply
    ensures IsRun(START, steps) && Run(START, steps) == Only(Queued([pill, user, reply]), TURN)
  {
    steps := FirstIsReachable(pill);
    steps := QueueMore(steps, [pill], user);
    steps := QueueMore(steps, [pill] + [user], reply);
    assert [pill] + [user] + [reply] == [pill, user, reply];
    var a := Queued([pill, user, reply]);
    Then(steps, Only(a, Idle), PumpStart, Only(a, Between(Pump(0, 1, false))));
    steps := steps + [PumpStart];
    Then(steps, Only(a, Between(Pump(0, 1, false))), PumpNext, Only(a, TURN));
    steps := steps + [PumpNext];
  }

  /** The actor once the loop has taken the pill and begun the stop. */
  function Stopping(pill: Msg, user: Msg, reply: Msg): Actor {
    Queued([pill, user, reply]).(stopping := true, stop := Waiting, mailbox := [user, reply],
                                 log := Log(Elements([pill, user, reply]), {}, {pill}, {}))
  }

  lemma StoppingIsReachable(pill: Msg, user: Msg, reply: Msg) returns (steps: seq<Step>)
    requires pill.command && !user.command && reply.command && pill != reply
    ensures IsRun(START, steps) && Run(START, steps) == Only(Stopping(pill, user, reply), TURN)
  {
    steps := DrainingIsReachable(pill, user, reply);
    var a := Queued([pill, user, reply]);
    var b := a.(mailbox := [user, reply], log := Log(Elements([pill, user, reply]), {}, {pill}, {}));
    assert Turned(a, TakeCommand(0), None, 0) == b by {
      assert Without(a.mailbox, 0) == [user, reply] && a.log.consumed + {pill} == {pill};
    }
    Then(steps, Only(a, TURN), Loop(TakeCommand(0)), Only(b, TURN));
    steps := steps + [Loop(TakeCommand(0))];
    Then(steps, Only(b, TURN), Call(0, BeginStop), Only(Stopping(pill, user, reply), TURN));
    steps := steps + [Call(0, BeginStop)];
  }

  const MORE := TURN.(processed := 1)

  /** Then the drain has stashed the user message and completed the request. */
  function Stashed(pill: Msg, user: Msg, reply: Msg): Actor {
    Stopping(pill, user, reply).(mailbox := [], stash := [user],
                                 log := Log(Elements([pill, user, reply]), {}, {pill, reply}, {}))
  }

  lemma StashedIsReachable(pill: Msg, user: Msg, reply: Msg) returns (steps: seq<Step>)
    requires pill.command && !user.command && reply.command && pill != reply
    ensures IsRun(START, steps) && Run(START, steps) == Only(Stashed(pill, user, reply), MORE)
  {
    steps := StoppingIsReachable(pill, user, reply);
    var a := Stopping(pill, user, reply);
    var b := a.(mailbox := [reply], stash := [user]);
    assert Turned(a, TakePaused(0), None, 0) == b by {
      assert Without(a.mailbox, 0) == [reply] && a.stash + [user] == [user];
    }
    Then(steps, Only(a, TURN), Loop(TakePaused(0)), Only(b, MORE));
    steps := steps + [Loop(TakePaused(0))];
    assert Turned(b, TakeCommand(0), None, 1) == Stashed(pill, user, reply) by {
      assert Without(b.mailbox, 0) == [] && b.log.consumed + {reply} == {pill, reply};
    }
    Then(steps, Only(b, MORE), Loop(TakeCommand(0)), Only(Stashed(pill, user, reply), MORE));
    steps := steps + [Loop(TakeCommand(0))];
  }

  lemma DroppedIsReachable(pill: Msg, user: Msg, reply: Msg) returns (steps: seq<Step>)
    requires pill.command && !user.command && reply.command && pill != reply
    ensures var d := Stashed(pill, user, reply);
      var f := d.(paused := 0, stash := [], log := d.log.(dropped := {user}));
      IsRun(START, steps) && Run(START, steps) == Only(f, MORE)
  {
    steps := StashedIsReachable(pill, user, reply);
    var d := Stashed(pill, user, reply);
    var e := d.(paused := 0);
    var f := e.(stash := [], log := e.log.(dropped := {user}));
    Then(steps, Only(d, MORE), Call(0, SetPaused(0)), Only(e, MORE));
    steps := steps + [Call(0, SetPaused(0))];
    assert Local(e, Unstash(false)) == f by {
      assert e.stash[1..] == [] && e.log.dropped + ({user} - e.log.handed) == {user};
    }
    Then(steps, Only(e, MORE), Call(0, Unstash(false)), Only(f, MORE));
    steps := steps + [Call(0, Unstash(false))];
  }

  /** The drain may stash a message and then, still stopping, bring it back: the message
      is refused and dropped. A stash-mode request is in flight; a pill, a user message
      and the reply are queued in that order. The loop takes the pill and begins the
      stop, stashes the user message, and completes the request, which unstashes. */
  lemma StopCanDropStashed() returns (steps: seq<Step>)
    ensures IsRun(START, steps) && 0 in Run(START, steps).actors
    ensures var a := Run(START, steps).actors[0];
            && a.stop == Ready && !a.faulted && Msg(1, false) in a.log.accepted
            && Msg(1, false) !in a.log.handed && Msg(1, false) !in a.log.consumed && Msg(1, false) !in a.stash
  {
    var pill, user, reply := Msg(0, true), Msg(1, false), Msg(2, true);
    steps := DroppedIsReachable(pill, user, reply);
    var d := Stashed(pill, user, reply);
    var f := d.(paused := 0, stash := [], log := d.log.(dropped := {user}));
    Then(steps, Only(f, MORE), Loop(Drain), Only(GoIdle(f), Between(Pump(1, 1, false))));
    steps := steps + [Loop(Drain)];
  }
}
