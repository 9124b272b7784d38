/**
 The actor scheduler: one process-wide ready queue drained by a pump, receive loops
 that run to a quota, park on asynchronous behaviors or halt on a suspension, and
 the graceful stop. Every interleaving of sends, lifecycle calls, pump turns, loop
 turns and settlements is a run of this step system.
 */
module Scheduler {
  import opened Common

  const THROUGHPUT := 2048

  type Pid = nat

  /** A message; runtime commands are consumed by the loop and never reach a behavior. */
  datatype Msg = Msg(id: nat, command: bool)

  /** How far a shutdown has come: not asked for, waiting for the receive loop to go
      idle, free to run the teardown, past `postStop`, torn down. */
  datatype Stop = Live | Waiting | Ready | Posted | Gone

  /** A behavior that has not returned, and how many messages its turn had processed. */
  datatype Turn = Turn(msg: Msg, processed: nat)

  /** What became of the messages an actor accepted: handed to a behavior, consumed by
      the runtime, or dropped without either. */
  datatype Log = Log(accepted: set<Msg>, handed: set<Msg>, consumed: set<Msg>, dropped: set<Msg>)

  datatype Actor = Actor(running: bool, stopping: bool, suspended: bool, processing: bool,
                         mailbox: seq<Msg>, stash: seq<Msg>, paused: nat, parked: Option<Turn>,
                         stop: Stop, faulted: bool, log: Log)

  /** A pump over the first `n` ready entries, about to dispatch or dispatching `i`. */
  datatype Pump = Pump(i: nat, n: nat, later: bool)

  datatype Origin = FromPump(pump: Pump) | FromSettlement

  /** What the one thread is executing: nothing, a pump between two dispatches, or an
      actor's receive loop, inside a behavior when it holds a message. */
  datatype Exec = Idle | Between(pump: Pump) | Running(pid: Pid, current: Option<Msg>, processed: nat, origin: Origin)

  /** The actors, the ready queue, whether a pump is armed and whether it waits for the
      event loop's next turn, the deferral flag, and what executes. */
  datatype Sys = Sys(actors: map<Pid, Actor>, ready: seq<Pid>, armed: bool, immediate: bool, yieldTurn: bool,
                     exec: Exec)

  /** A call on an actor from anywhere outside its receive loop's own turns. */
  datatype Act =
    | Receive(msg: Msg, full: bool)
    | Unstash(full: bool)
    | SelfStash(msg: Msg)
    | SetPaused(paused: nat)
    | Suspend
    | Unsuspend
    | ClearStash
    | BeginStop
    | PostStop
    | Reset

  /** A turn of the executing receive loop; `k` is the message the mailbox yields. */
  datatype LoopTurn = Drain | TakeCommand(k: nat) | TakePaused(k: nat) | TakeUser(k: nat) | Finish | Park

  datatype Step =
    | Spawn(pid: Pid)
    | Call(pid: Pid, act: Act)
    | PumpStart
    | PumpNext
    | PumpEnd
    | Loop(turn: LoopTurn)
    | Settle(pid: Pid)

  /* ---------- one actor ---------- */

  const NEWBORN := Actor(true, false, false, false, [], [], 0, None, Live, false, Log({}, {}, {}, {}))

  function Elements(s: seq<Msg>): set<Msg> {
    set m | m in s
  }

  predicate IsRunning(a: Actor) {
    a.running && !a.stopping && !a.suspended
  }

  /** The loop leaves: idle waiters, a shutdown among them, are woken. */
  function GoIdle(a: Actor): Actor {
    a.(processing := false, stop := if a.stop == Waiting then Ready else a.stop)
  }

  /** Messages let go: those never handed to a behavior are dropped. */
  function Drop(log: Log, ms: set<Msg>): Log {
    log.(dropped := log.dropped + (ms - log.handed))
  }

  /** What a call does to its actor. */
  function Local(a: Actor, act: Act): Actor {
    match act
    case Receive(m, full) =>
      if IsRunning(a) && !full
      then a.(mailbox := a.mailbox + [m], log := a.log.(accepted := a.log.accepted + {m})) else a
    case Unstash(full) =>
      if a.stash == [] then a
      else if IsRunning(a) && !full then a.(stash := a.stash[1..], mailbox := a.mailbox + [a.stash[0]])
      else a.(stash := a.stash[1..], log := Drop(a.log, {a.stash[0]}))
    case SelfStash(m) => a.(stash := a.stash + [m])
    case SetPaused(n) => a.(paused := n)
    case Suspend => a.(suspended := true, faulted := a.stop != Live)
    case Unsuspend => a.(suspended := false)
    case ClearStash => a.(stash := [], log := Drop(a.log, Elements(a.stash)))
    case BeginStop =>
      a.(stopping := true, faulted := a.suspended, stop := if a.processing then Waiting else Ready)
    case PostStop => a.(stop := Posted)
    case Reset =>
      a.(running := false, stopping := false, suspended := false, mailbox := [], stash := [], stop := Gone)
  }

  /** Whether the call also asks for the receive loop. */
  predicate Schedules(a: Actor, act: Act) {
    match act
    case Receive(_, full) => IsRunning(a) && !full
    case Unstash(full) => a.stash != [] && IsRunning(a) && !full
    case Unsuspend => a.suspended && a.mailbox != []
    case _ => false
  }

  predicate LocalEnabled(a: Actor, act: Act) {
    match act
    case Receive(m, _) => m !in a.log.accepted
    case SelfStash(m) => m in a.log.handed
    case BeginStop => a.running && a.stop == Live
    case PostStop => a.stop == Ready
    case Reset => a.stop == Posted
    case _ => true
  }

  /* ---------- the scheduler ---------- */

  function With(s: Sys, p: Pid, a: Actor): Sys {
    s.(actors := s.actors[p := a])
  }

  function Arm(s: Sys, later: bool): Sys {
    s.(armed := true, immediate := if s.armed then s.immediate else later, yieldTurn := s.yieldTurn || later)
  }

  function Push(s: Sys, p: Pid, later: bool): Sys {
    Arm(s.(ready := s.ready + [p]), later)
  }

  function Schedule(s: Sys, p: Pid): Sys
    requires p in s.actors
  {
    if s.actors[p].processing then s else Push(With(s, p, s.actors[p].(processing := true)), p, false)
  }

  function Return(s: Sys): Sys
    requires s.exec.Running?
  {
    match s.exec.origin
    case FromPump(pump) => s.(exec := Between(pump.(i := pump.i + 1)))
    case FromSettlement => s.(exec := Idle)
  }

  /** After a message: the loop goes on, or yields once its quota is used up. */
  function Quota(s: Sys, processed: nat): Sys
    requires s.exec.Running?
  {
    if processed >= THROUGHPUT then Return(Push(s, s.exec.pid, true))
    else s.(exec := s.exec.(current := None, processed := processed))
  }

  /** The array after the elements from `n` on have been copied to its front and its
      length has been cut by `n`. */
  function Compact(ready: seq<Pid>, n: nat): seq<Pid>
    requires n <= |ready|
  {
    if |ready| == n then [] else
    var copied := ready[n..] + ready[|ready| - n..];
    copied[..|ready| - n]
  }

  predicate TurnEnabled(a: Actor, turn: LoopTurn, current: Option<Msg>) {
    match turn
    case Drain => current == None && a.mailbox == []
    case TakeCommand(k) => current == None && k < |a.mailbox| && a.mailbox[k].command
    case TakePaused(k) => current == None && k < |a.mailbox| && !a.mailbox[k].command && a.paused != 0
    case TakeUser(k) => current == None && k < |a.mailbox| && !a.mailbox[k].command && a.paused == 0
    case Finish => current.Some?
    case Park => current.Some?
  }

  predicate LoopEnabled(s: Sys, turn: LoopTurn) {
    s.exec.Running? && s.exec.pid in s.actors && TurnEnabled(s.actors[s.exec.pid], turn, s.exec.current)
  }

  predicate Enabled(s: Sys, step: Step) {
    match step
    case Spawn(p) => p !in s.actors
    case Call(p, act) => p in s.actors && LocalEnabled(s.actors[p], act)
    case PumpStart => s.exec == Idle && s.armed
    case PumpNext => s.exec.Between? && s.exec.pump.i < s.exec.pump.n && s.exec.pump.i < |s.ready|
    case PumpEnd => s.exec.Between? && s.exec.pump.i == s.exec.pump.n && s.exec.pump.n <= |s.ready|
    case Loop(turn) => LoopEnabled(s, turn)
    case Settle(p) => s.exec == Idle && p in s.actors && s.actors[p].parked.Some?
  }

  function CallNext(s: Sys, p: Pid, act: Act): Sys
    requires p in s.actors
  {
    var t := With(s, p, Local(s.actors[p], act));
    if Schedules(s.actors[p], act) then Schedule(t, p) else t
  }

  /** What a turn of its loop does to the actor. */
  function Turned(a: Actor, turn: LoopTurn, current: Option<Msg>, processed: nat): Actor
    requires TurnEnabled(a, turn, current)
  {
    match turn
    case Drain => GoIdle(a)
    case TakeCommand(k) =>
      a.(mailbox := Without(a.mailbox, k), log := a.log.(consumed := a.log.consumed + {a.mailbox[k]}))
    case TakePaused(k) => a.(mailbox := Without(a.mailbox, k), stash := a.stash + [a.mailbox[k]])
    case TakeUser(k) =>
      a.(mailbox := Without(a.mailbox, k), log := a.log.(handed := a.log.handed + {a.mailbox[k]}))
    case Finish => if a.suspended then GoIdle(a) else a
    case Park => a.(parked := Some(Turn(current.value, processed)))
  }

  function LoopNext(s: Sys, turn: LoopTurn): Sys
    requires LoopEnabled(s, turn)
  {
    var p := s.exec.pid;
    var a := s.actors[p];
    var t := With(s, p, Turned(a, turn, s.exec.current, s.exec.processed));
    match turn
    case Drain => Return(t)
    case TakeCommand(_) => t
    case TakePaused(_) => Quota(t, s.exec.processed + 1)
    case TakeUser(k) => t.(exec := s.exec.(current := Some(a.mailbox[k])))
    case Finish => if a.suspended then Return(t) else Quota(t, s.exec.processed + 1)
    case Park => Return(t)
  }

  function Next(s: Sys, step: Step): Sys
    requires Enabled(s, step)
  {
    match step
    case Spawn(p) => With(s, p, NEWBORN)
    case Call(p, act) => CallNext(s, p, act)
    case PumpStart =>
      s.(armed := false, yieldTurn := false, exec := Between(Pump(0, |s.ready|, s.yieldTurn)))
    case PumpNext =>
      s.(exec := Running(s.ready[s.exec.pump.i], None, 0, FromPump(s.exec.pump)))
    case PumpEnd =>
      var t := s.(ready := Compact(s.ready, s.exec.pump.n), exec := Idle);
      if t.ready == [] then t else Arm(t, s.exec.pump.later)
    case Loop(turn) => LoopNext(s, turn)
    case Settle(p) =>
      var a := s.actors[p];
      With(s, p, a.(parked := None))
        .(exec := Running(p, Some(a.parked.value.msg), a.parked.value.processed, FromSettlement))
  }

  lemma LoopActors(s: Sys, turn: LoopTurn)
    requires LoopEnabled(s, turn)
    ensures LoopNext(s, turn).actors == s.actors[s.exec.pid :=
              Turned(s.actors[s.exec.pid], turn, s.exec.current, s.exec.processed)]
  {
  }

  lemma CallActors(s: Sys, p: Pid, act: Act)
    requires p in s.actors
    ensures var b := Local(s.actors[p], act);
            CallNext(s, p, act).actors ==
              s.actors[p := if Schedules(s.actors[p], act) then b.(processing := true) else b]
  {
  }

  /* ---------- what every reachable state satisfies ---------- */

  predicate UnderWay(stop: Stop) {
    stop == Waiting || stop == Ready || stop == Posted
  }

  /** Every actor with something to do and free to do it is being processed, and a
      stop that has drained without a fault has nothing queued. */
  predicate FlowOk(a: Actor) {
    && (a.mailbox != [] && !a.suspended ==> a.processing)
    && (a.stop == Live ==> !a.stopping)
    && (UnderWay(a.stop) ==> a.stopping && a.running)
    && (a.stop == Waiting ==> a.processing)
    && (a.stop == Gone ==> !a.running)
    && (UnderWay(a.stop) && !a.faulted ==> !a.suspended)
    && ((a.stop == Ready || a.stop == Posted) && !a.faulted ==> a.mailbox == [] && !a.processing)
  }

  /** The entries of the ready queue that are still to be dispatched. */
  function Pending(s: Sys): seq<Pid> {
    var from := match s.exec
                case Idle => 0
                case Between(pump) => pump.i
                case Running(_, _, _, FromPump(pump)) => pump.i + 1
                case Running(_, _, _, FromSettlement) => 0;
    if from <= |s.ready| then s.ready[from..] else []
  }

  predicate ExecOk(s: Sys) {
    match s.exec
    case Idle => true
    case Between(pump) => pump.i <= pump.n <= |s.ready|
    case Running(p, _, _, FromPump(pump)) => p in s.actors && pump.i < pump.n <= |s.ready|
    case Running(p, _, _, FromSettlement) => p in s.actors
  }

  function Count(ready: seq<Pid>, p: Pid): nat {
    if ready == [] then 0 else (if ready[0] == p then 1 else 0) + Count(ready[1..], p)
  }

  function Flag(b: bool): nat {
    if b then 1 else 0
  }

  /** How many ways an actor's loop can still be entered or is being run: ready
      entries, the executing loop, a parked behavior. */
  function Tokens(s: Sys, p: Pid): nat
    requires p in s.actors
  {
    Count(Pending(s), p) + Flag(s.exec.Running? && s.exec.pid == p) + Flag(s.actors[p].parked.Some?)
  }

  /** A pump is under way. */
  predicate Pumping(s: Sys) {
    s.exec.Between? || (s.exec.Running? && s.exec.origin.FromPump?)
  }

  predicate Wired(s: Sys) {
    && ExecOk(s)
    && (forall i | 0 <= i < |Pending(s)| :: Pending(s)[i] in s.actors)
    && (s.ready != [] && !Pumping(s) ==> s.armed)
  }

  predicate Flows(s: Sys) {
    forall p | p in s.actors :: FlowOk(s.actors[p])
  }

  predicate Balanced(s: Sys) {
    forall p | p in s.actors :: Tokens(s, p) == Flag(s.actors[p].processing)
  }

  predicate Inv(s: Sys) {
    Wired(s) && Flows(s) && Balanced(s)
  }

  lemma {:induction false} CountAppend(ready: seq<Pid>, p: Pid, q: Pid)
    ensures Count(ready + [p], q) == Count(ready, q) + Flag(p == q)
  {
    if ready == [] {
      assert (ready + [p])[1..] == [];
    } else {
      assert (ready + [p])[1..] == ready[1..] + [p];
      CountAppend(ready[1..], p, q);
    }
  }

  lemma {:induction false} CountAbsent(ready: seq<Pid>, p: Pid)
    requires forall i | 0 <= i < |ready| :: ready[i] != p
    ensures Count(ready, p) == 0
  {
    if ready != [] { CountAbsent(ready[1..], p); }
  }

  lemma PendingPush(s: Sys, p: Pid, later: bool)
    requires ExecOk(s)
    ensures Pending(Push(s, p, later)) == Pending(s) + [p]
  {
  }

  /** Copying down and cutting the length is dropping the dispatched prefix. */
  lemma CompactDrops(ready: seq<Pid>, n: nat)
    requires n <= |ready|
    ensures Compact(ready, n) == ready[n..]
  {
  }

  lemma CallKeepsFlow(a: Actor, act: Act)
    requires FlowOk(a) && LocalEnabled(a, act)
    ensures var b := Local(a, act);
            && b.processing == a.processing && b.parked == a.parked
            && FlowOk(if Schedules(a, act) then b.(processing := true) else b)
  {
    match act
    case Receive(_, _) =>
    case Unstash(_) =>
    case BeginStop =>
    case Unsuspend =>
    case _ =>
  }

  lemma IdleKeepsFlow(a: Actor)
    requires FlowOk(a) && (a.mailbox == [] || a.suspended)
    ensures FlowOk(GoIdle(a))
  {
  }

  lemma WithSamePending(s: Sys, p: Pid, a: Actor)
    ensures Pending(With(s, p, a)) == Pending(s)
  {
  }

  lemma WithKeepsWired(s: Sys, p: Pid, a: Actor)
    requires Wired(s) && p in s.actors
    ensures Wired(With(s, p, a)) && Pending(With(s, p, a)) == Pending(s)
  {
    WithSamePending(s, p, a);
    forall i | 0 <= i < |Pending(s)| ensures Pending(s)[i] in With(s, p, a).actors {
      assert Pending(s)[i] in s.actors;
    }
  }

  lemma WithKeepsBalanced(s: Sys, p: Pid, a: Actor)
    requires Wired(s) && Balanced(s) && p in s.actors
    requires a.processing == s.actors[p].processing && a.parked.Some? == s.actors[p].parked.Some?
    ensures Balanced(With(s, p, a))
  {
    WithKeepsWired(s, p, a);
    forall q | q in s.actors ensures Tokens(With(s, p, a), q) == Flag(With(s, p, a).actors[q].processing) {
      assert Tokens(s, q) == Flag(s.actors[q].processing);
    }
  }

  /** Changing one actor, but neither whether it is processing nor parked, keeps the
      invariant. */
  lemma WithKeepsInv(s: Sys, p: Pid, a: Actor)
    requires Inv(s) && p in s.actors && FlowOk(a)
    requires a.processing == s.actors[p].processing && a.parked.Some? == s.actors[p].parked.Some?
    ensures Inv(With(s, p, a))
  {
    WithKeepsWired(s, p, a);
    WithKeepsBalanced(s, p, a);
  }

  lemma PushKeepsWired(s: Sys, p: Pid, later: bool)
    requires Wired(s) && p in s.actors
    ensures Wired(Push(s, p, later))
  {
    PendingPush(s, p, later);
    forall i | 0 <= i < |Pending(s) + [p]| ensures (Pending(s) + [p])[i] in s.actors {}
  }

  lemma EnlistPending(s: Sys, p: Pid, a: Actor)
    requires ExecOk(s) && p in s.actors
    ensures Pending(Push(With(s, p, a), p, false)) == Pending(s) + [p]
  {
    WithSamePending(s, p, a);
    PendingPush(With(s, p, a), p, false);
  }

  /** A new ready entry for an actor that was not processing makes it processing. */
  lemma EnlistBalances(s: Sys, p: Pid, a: Actor, q: Pid)
    requires Inv(s) && p in s.actors && !s.actors[p].processing && q in s.actors
    requires a.processing && a.parked.Some? == s.actors[p].parked.Some?
    ensures var u := Push(With(s, p, a), p, false);
            Tokens(u, q) == Flag(u.actors[q].processing)
  {
    EnlistPending(s, p, a);
    CountAppend(Pending(s), p, q);
    assert Tokens(s, q) == Flag(s.actors[q].processing);
  }

  lemma EnlistKeepsInv(s: Sys, p: Pid, a: Actor)
    requires Inv(s) && p in s.actors && !s.actors[p].processing
    requires a.processing && FlowOk(a) && a.parked.Some? == s.actors[p].parked.Some?
    ensures Inv(Push(With(s, p, a), p, false))
  {
    var t := With(s, p, a);
    assert Wired(t) by { assert Pending(t) == Pending(s); }
    PushKeepsWired(t, p, false);
    var u := Push(t, p, false);
    forall q | q in u.actors ensures Tokens(u, q) == Flag(u.actors[q].processing) {
      EnlistBalances(s, p, a, q);
    }
  }

  lemma WithTwice(s: Sys, p: Pid, a: Actor, b: Actor)
    ensures With(With(s, p, a), p, b) == With(s, p, b)
  {
    assert s.actors[p := a][p := b] == s.actors[p := b];
  }

  lemma ScheduleKeepsInv(s: Sys, p: Pid, a: Actor)
    requires Inv(s) && p in s.actors && FlowOk(a.(processing := true))
    requires a.processing == s.actors[p].processing && a.parked.Some? == s.actors[p].parked.Some?
    ensures Inv(Schedule(With(s, p, a), p))
  {
    if a.processing {
      assert a == a.(processing := true);
      WithKeepsInv(s, p, a);
    } else {
      EnlistKeepsInv(s, p, a.(processing := true));
      WithTwice(s, p, a, a.(processing := true));
    }
  }

  lemma CallKeepsInv(s: Sys, p: Pid, act: Act)
    requires Inv(s) && p in s.actors && LocalEnabled(s.actors[p], act)
    ensures Inv(CallNext(s, p, act))
  {
    CallKeepsFlow(s.actors[p], act);
    if Schedules(s.actors[p], act) {
      ScheduleKeepsInv(s, p, Local(s.actors[p], act));
    } else {
      WithKeepsInv(s, p, Local(s.actors[p], act));
    }
  }

  /** While its loop executes, an actor is processing and has no other way in. */
  lemma ExecutingAlone(s: Sys)
    requires Inv(s) && s.exec.Running?
    ensures s.actors[s.exec.pid].processing && s.actors[s.exec.pid].parked == None
    ensures Count(Pending(s), s.exec.pid) == 0
  {
    assert Tokens(s, s.exec.pid) == Flag(s.actors[s.exec.pid].processing);
  }

  /** The executing loop leaves its actor parked, or no longer processing. */
  lemma ReturnKeepsInv(s: Sys, b: Actor)
    requires Inv(s) && s.exec.Running? && FlowOk(b) && b.processing == b.parked.Some?
    ensures Inv(Return(With(s, s.exec.pid, b)))
  {
    var t := Return(With(s, s.exec.pid, b));
    assert Pending(t) == Pending(s);
    ExecutingAlone(s);
    forall q | q in t.actors ensures Tokens(t, q) == Flag(t.actors[q].processing) {
      assert Tokens(s, q) == Flag(s.actors[q].processing);
    }
  }

  lemma LeaveKeepsInv(s: Sys)
    requires Inv(s) && s.exec.Running?
    requires s.actors[s.exec.pid].mailbox == [] || s.actors[s.exec.pid].suspended
    ensures Inv(Return(With(s, s.exec.pid, GoIdle(s.actors[s.exec.pid]))))
  {
    ExecutingAlone(s);
    IdleKeepsFlow(s.actors[s.exec.pid]);
    ReturnKeepsInv(s, GoIdle(s.actors[s.exec.pid]));
  }

  lemma ParkKeepsInv(s: Sys, turn: Turn)
    requires Inv(s) && s.exec.Running?
    ensures Inv(Return(With(s, s.exec.pid, s.actors[s.exec.pid].(parked := Some(turn)))))
  {
    ExecutingAlone(s);
    ReturnKeepsInv(s, s.actors[s.exec.pid].(parked := Some(turn)));
  }

  /** A loop that yields trades its execution for a ready entry. */
  lemma YieldKeepsInv(s: Sys)
    requires Inv(s) && s.exec.Running?
    ensures Inv(Return(Push(s, s.exec.pid, true)))
  {
    var t := Return(Push(s, s.exec.pid, true));
    PendingPush(s, s.exec.pid, true);
    assert Pending(t) == Pending(s) + [s.exec.pid];
    PushKeepsWired(s, s.exec.pid, true);
    forall q | q in t.actors ensures Tokens(t, q) == Flag(t.actors[q].processing) {
      CountAppend(Pending(s), s.exec.pid, q);
      assert Tokens(s, q) == Flag(s.actors[q].processing);
    }
  }

  lemma GoOnKeepsInv(s: Sys, current: Option<Msg>, processed: nat)
    requires Inv(s) && s.exec.Running?
    ensures Inv(s.(exec := s.exec.(current := current, processed := processed)))
  {
    var t := s.(exec := s.exec.(current := current, processed := processed));
    assert Pending(t) == Pending(s);
    forall q | q in t.actors ensures Tokens(t, q) == Tokens(s, q) {}
  }

  lemma QuotaKeepsInv(s: Sys, processed: nat)
    requires Inv(s) && s.exec.Running?
    ensures Inv(Quota(s, processed))
  {
    if processed >= THROUGHPUT { YieldKeepsInv(s); } else { GoOnKeepsInv(s, None, processed); }
  }

  /** The executing loop takes a message off its mailbox. */
  lemma TakeKeepsInv(s: Sys, k: nat, b: Actor)
    requires Inv(s) && s.exec.Running? && k < |s.actors[s.exec.pid].mailbox|
    requires var a := s.actors[s.exec.pid];
             b == a.(mailbox := Without(a.mailbox, k), stash := b.stash, log := b.log)
    ensures Inv(With(s, s.exec.pid, b))
  {
    ExecutingAlone(s);
    WithKeepsInv(s, s.exec.pid, b);
  }

  lemma LoopKeepsInv(s: Sys, turn: LoopTurn)
    requires Inv(s) && LoopEnabled(s, turn)
    ensures Inv(LoopNext(s, turn))
  {
    var p := s.exec.pid;
    var a := s.actors[p];
    var b := Turned(a, turn, s.exec.current, s.exec.processed);
    match turn
    case Drain => LeaveKeepsInv(s);
    case TakeCommand(k) => TakeKeepsInv(s, k, b);
    case TakePaused(k) =>
      TakeKeepsInv(s, k, b);
      QuotaKeepsInv(With(s, p, b), s.exec.processed + 1);
    case TakeUser(k) =>
      TakeKeepsInv(s, k, b);
      GoOnKeepsInv(With(s, p, b), Some(a.mailbox[k]), s.exec.processed);
    case Finish =>
      if a.suspended {
        LeaveKeepsInv(s);
      } else {
        WithKeepsInv(s, p, a);
        QuotaKeepsInv(With(s, p, a), s.exec.processed + 1);
      }
    case Park => ParkKeepsInv(s, Turn(s.exec.current.value, s.exec.processed));
  }

  lemma SpawnKeepsInv(s: Sys, p: Pid)
    requires Inv(s) && p !in s.actors
    ensures Inv(With(s, p, NEWBORN))
  {
    var t := With(s, p, NEWBORN);
    WithSamePending(s, p, NEWBORN);
    CountAbsent(Pending(s), p);
    forall q | q in t.actors ensures Tokens(t, q) == Flag(t.actors[q].processing) {
      if q != p { assert Tokens(s, q) == Flag(s.actors[q].processing); }
    }
  }

  /** Opening or closing a pump leaves the entries to be dispatched as they are. */
  lemma SamePendingKeepsInv(s: Sys, t: Sys)
    requires Inv(s) && !s.exec.Running? && !t.exec.Running? && t.actors == s.actors
    requires Pending(t) == Pending(s) && ExecOk(t) && (t.ready != [] && !Pumping(t) ==> t.armed)
    ensures Inv(t)
  {
    forall q | q in t.actors ensures Tokens(t, q) == Flag(t.actors[q].processing) {
      assert Tokens(s, q) == Flag(s.actors[q].processing);
    }
  }

  lemma PumpStartKeepsInv(s: Sys)
    requires Inv(s) && Enabled(s, PumpStart)
    ensures Inv(Next(s, PumpStart))
  {
    SamePendingKeepsInv(s, Next(s, PumpStart));
  }

  /** The compaction leaves what was queued behind the pump, at the front. */
  lemma PumpEndQueue(s: Sys, t: Sys)
    requires ExecOk(s) && Enabled(s, PumpEnd) && t == Next(s, PumpEnd)
    ensures t.exec == Idle && t.actors == s.actors && t.ready == s.ready[s.exec.pump.n..] && (t.ready != [] ==> t.armed)
  {
    CompactDrops(s.ready, s.exec.pump.n);
  }

  lemma PumpEndPending(s: Sys, t: Sys)
    requires s.exec.Between? && s.exec.pump.i == s.exec.pump.n <= |s.ready|
    requires t.exec == Idle && t.ready == s.ready[s.exec.pump.n..]
    ensures Pending(t) == Pending(s)
  {
  }

  lemma PumpEndKeepsInv(s: Sys)
    requires Inv(s) && Enabled(s, PumpEnd)
    ensures Inv(Next(s, PumpEnd))
  {
    var t := Next(s, PumpEnd);
    PumpEndQueue(s, t);
    PumpEndPending(s, t);
    SamePendingKeepsInv(s, t);
  }

  lemma PumpNextTakesHead(s: Sys)
    requires ExecOk(s) && Enabled(s, PumpNext)
    ensures Pending(s) == [s.ready[s.exec.pump.i]] + Pending(Next(s, PumpNext))
  {
  }

  lemma PumpNextKeepsWired(s: Sys)
    requires Wired(s) && Enabled(s, PumpNext)
    ensures Wired(Next(s, PumpNext))
  {
    var t := Next(s, PumpNext);
    PumpNextTakesHead(s);
    assert Pending(s)[0] in s.actors;
    forall i | 0 <= i < |Pending(t)| ensures Pending(t)[i] in t.actors {
      assert Pending(t)[i] == Pending(s)[i + 1];
    }
  }

  lemma CountHead(p: Pid, rest: seq<Pid>, q: Pid)
    ensures Count([p] + rest, q) == Flag(p == q) + Count(rest, q)
  {
    assert ([p] + rest)[1..] == rest;
  }

  /** A dispatch hands the head of the pending entries to the executing loop. */
  lemma PumpNextKeepsInv(s: Sys)
    requires Inv(s) && Enabled(s, PumpNext)
    ensures Inv(Next(s, PumpNext))
  {
    var t := Next(s, PumpNext);
    PumpNextKeepsWired(s);
    PumpNextTakesHead(s);
    forall q | q in t.actors ensures Tokens(t, q) == Flag(t.actors[q].processing) {
      CountHead(s.ready[s.exec.pump.i], Pending(t), q);
      assert Tokens(s, q) == Flag(s.actors[q].processing);
    }
  }

  /** A pump turn keeps the invariant. */
  lemma PumpKeepsInv(s: Sys, step: Step)
    requires Inv(s) && step in {PumpStart, PumpNext, PumpEnd} && Enabled(s, step)
    ensures Inv(Next(s, step))
  {
    match step
    case PumpStart => PumpStartKeepsInv(s);
    case PumpNext => PumpNextKeepsInv(s);
    case PumpEnd => PumpEndKeepsInv(s);
  }

  lemma SettleKeepsInv(s: Sys, p: Pid)
    requires Inv(s) && Enabled(s, Settle(p))
    ensures Inv(Next(s, Settle(p)))
  {
    var t := Next(s, Settle(p));
    assert Pending(t) == Pending(s);
    forall q | q in t.actors ensures Tokens(t, q) == Flag(t.actors[q].processing) {
      assert Tokens(s, q) == Flag(s.actors[q].processing);
    }
  }

  lemma StepKeepsInv(s: Sys, step: Step)
    requires Inv(s) && Enabled(s, step)
    ensures Inv(Next(s, step))
  {
    match step
    case Spawn(p) => SpawnKeepsInv(s, p);
    case Call(p, act) => CallKeepsInv(s, p, act);
    case PumpStart => PumpKeepsInv(s, step);
    case PumpNext => PumpKeepsInv(s, step);
    case PumpEnd => PumpKeepsInv(s, step);
    case Loop(turn) => LoopKeepsInv(s, turn);
    case Settle(p) => SettleKeepsInv(s, p);
  }

  /* ---------- every run ---------- */

  const START := Sys(map[], [], false, false, false, Idle)

  predicate IsRun(s: Sys, steps: seq<Step>)
    decreases |steps|
  {
    steps == [] || (Enabled(s, steps[0]) && IsRun(Next(s, steps[0]), steps[1..]))
  }

  function Run(s: Sys, steps: seq<Step>): Sys
    requires IsRun(s, steps)
    decreases |steps|
  {
    if steps == [] then s else Run(Next(s, steps[0]), steps[1..])
  }

  lemma {:induction false} RunKeepsInv(s: Sys, steps: seq<Step>)
    requires Inv(s) && IsRun(s, steps)
    ensures Inv(Run(s, steps))
    decreases |steps|
  {
    if steps != [] {
      StepKeepsInv(s, steps[0]);
      RunKeepsInv(Next(s, steps[0]), steps[1..]);
    }
  }

  lemma {:induction false} RunSnoc(s: Sys, steps: seq<Step>, step: Step)
    requires IsRun(s, steps) && Enabled(Run(s, steps), step)
    ensures IsRun(s, steps + [step]) && Run(s, steps + [step]) == Next(Run(s, steps), step)
    decreases |steps|
  {
    if steps == [] {
      assert (steps + [step])[1..] == [];
    } else {
      assert (steps + [step])[1..] == steps[1..] + [step];
      RunSnoc(Next(s, steps[0]), steps[1..], step);
    }
  }

  /** One more step of a run whose states are known. */
  lemma Then(steps: seq<Step>, s: Sys, step: Step, t: Sys)
    requires IsRun(START, steps) && Run(START, steps) == s && Enabled(s, step) && Next(s, step) == t
    ensures IsRun(START, steps + [step]) && Run(START, steps + [step]) == t
  {
    RunSnoc(START, steps, step);
  }

  /** After every run: an actor's processing flag is set exactly when precisely one
      ready entry, executing loop or parked behavior is its own; an unsuspended actor
      with mail is being processed; undispatched entries have a pump armed or under
      way. */
  lemma ProcessedExactlyOnce(steps: seq<Step>, p: Pid)
    requires IsRun(START, steps) && p in Run(START, steps).actors
    ensures var s := Run(START, steps);
            var a := s.actors[p];
            var ways := Count(Pending(s), p) + Flag(s.exec.Running? && s.exec.pid == p) + Flag(a.parked.Some?);
            && ways <= 1 && (a.processing <==> ways == 1)
            && (a.mailbox != [] && !a.suspended ==> a.processing)
            && (s.ready != [] ==> s.armed || Pumping(s))
  {
    RunKeepsInv(START, steps);
    var s := Run(START, steps);
    assert Tokens(s, p) == Flag(s.actors[p].processing);
  }

  /** When the thread is idle with no pump armed, every unsuspended actor has drained
      its mailbox or is parked on a behavior that has yet to settle. */
  lemma QuiescentMeansDrained(steps: seq<Step>, p: Pid)
    requires IsRun(START, steps) && p in Run(START, steps).actors
    requires Run(START, steps).exec == Idle && !Run(START, steps).armed
    ensures var a := Run(START, steps).actors[p];
            a.suspended || a.mailbox == [] || a.parked.Some?
  {
    ProcessedExactlyOnce(steps, p);
    assert Pending(Run(START, steps)) == [];
  }
}
