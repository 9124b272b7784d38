/**
 The passivation scheduler: an indexed min-heap of deadlines, whose slots are
 remembered by the actors themselves, behind one shared timer.
 */
module Passivation {
  import opened Common
  import opened Heap

  /** An actor's state as the scheduler finds it. */
  datatype Seen = Seen(running: bool, suspended: bool, idle: bool, latestActivity: real)

  /** What the scheduler reads of an actor, and the slot it writes back. The timeout
      is that of a time-based strategy; any other strategy has none. */
  class Pid {
    const timeout: Option<real>
    var running: bool
    var suspended: bool
    var idle: bool
    var latestActivity: real
    var slot: int

    constructor (timeout: Option<real>)
      ensures this.timeout == timeout && slot == -1
    {
      this.timeout := timeout;
      slot := -1;
    }

    function Look(): Seen
      reads this`running, this`suspended, this`idle, this`latestActivity
    {
      Seen(running, suspended, idle, latestActivity)
    }
  }

  function Earlier(): (real, real) -> bool {
    (a, b) => a < b
  }

  lemma EarlierIsWeak()
    ensures WeakOrder(Earlier())
  {
    forall a, b ensures Asymmetric(Earlier(), a, b) {}
    forall a, b, c ensures Chained(Earlier(), a, b, c) {}
  }

  /** What a due actor's state calls for. */
  datatype Verdict = Reschedule(deadline: real) | Drop | Passivate

  function Decide(timeout: real, seen: Seen, now: real): Verdict {
    if !seen.running then if seen.suspended then Reschedule(now + timeout) else Drop
    else if seen.latestActivity + timeout > now then Reschedule(seen.latestActivity + timeout)
    else if !seen.idle then Reschedule(now + timeout)
    else Passivate
  }

  /** The verdict on an actor found in a given state. */
  function Ruling(p: Pid, seen: Seen, now: real): Verdict {
    if p.timeout.None? then Drop else Decide(p.timeout.value, seen, now)
  }

  /** The actor ran, had nothing to do, and its idle window was over. */
  predicate Ripe(timeout: real, seen: Seen, now: real) {
    seen.running && seen.idle && seen.latestActivity + timeout <= now
  }

  /** The actor is gone: it neither ran nor was suspended. */
  predicate Gone(seen: Seen) {
    !seen.running && !seen.suspended
  }

  /** When an actor that stays scheduled is looked at next: a full window from its last
      activity if it was active since, else a full window from now. */
  function NextLook(timeout: real, seen: Seen, now: real): real {
    if seen.running && seen.latestActivity + timeout > now then seen.latestActivity + timeout else now + timeout
  }

  lemma RulingMeans(p: Pid, seen: Seen, now: real)
    requires p.timeout.Some?
    ensures Ruling(p, seen, now) == Passivate <==> Ripe(p.timeout.value, seen, now)
    ensures Ruling(p, seen, now) == Drop <==> Gone(seen)
    ensures Ruling(p, seen, now).Reschedule? ==> Ruling(p, seen, now).deadline == NextLook(p.timeout.value, seen, now)
  {
  }

  /** The schedule once every due actor has been settled by the state it was found in. */
  ghost function Swept(schedule: map<Pid, real>, seen: map<Pid, Seen>, now: real): map<Pid, real> {
    map p | p in schedule && (p in seen ==> Ruling(p, seen[p], now).Reschedule?) ::
      if p in seen then Ruling(p, seen[p], now).deadline else schedule[p]
  }

  /** The schedule once one actor has been settled. */
  ghost function Settled(schedule: map<Pid, real>, p: Pid, v: Verdict): map<Pid, real> {
    match v
    case Reschedule(d) => schedule[p := d]
    case _ => schedule - {p}
  }

  ghost function Due(schedule: map<Pid, real>, now: real): set<Pid> {
    set p | p in schedule && schedule[p] <= now
  }

  /** An actor is as it was before the pass, or it was due and has been settled by the
      state it was found in. */
  ghost predicate Treated(p: Pid, deadline: real, schedule: map<Pid, real>, seen: map<Pid, Seen>,
                          passivated: seq<Pid>, now: real) {
    if p !in seen then p in schedule && schedule[p] == deadline && p !in passivated
    else
      && deadline <= now
      && match Ruling(p, seen[p], now)
         case Reschedule(d) => p in schedule && schedule[p] == d && d > now && p !in passivated
         case Drop => p !in schedule && p !in passivated
         case Passivate => p !in schedule && p in passivated
  }

  ghost predicate AllTreated(before: map<Pid, real>, schedule: map<Pid, real>, seen: map<Pid, Seen>,
                             passivated: seq<Pid>, now: real) {
    && (forall p | p in before :: Treated(p, before[p], schedule, seen, passivated, now))
    && (forall p | p in passivated :: p in before)
    && seen.Keys <= before.Keys && schedule.Keys <= before.Keys
  }

  /** Settling a due actor leaves it treated, once, and one actor fewer due. */
  lemma TreatOne(before: map<Pid, real>, schedule: map<Pid, real>, seen: map<Pid, Seen>, passivated: seq<Pid>,
                 p: Pid, found: Seen, now: real)
    requires AllTreated(before, schedule, seen, passivated, now) && Distinct(passivated)
    requires p in schedule && schedule[p] <= now && p.timeout.Some? && p.timeout.value > 0.0
    ensures var v := Ruling(p, found, now);
            var next := if v.Passivate? then passivated + [p] else passivated;
            && p !in seen
            && AllTreated(before, Settled(schedule, p, v), seen[p := found], next, now) && Distinct(next)
            && |Due(Settled(schedule, p, v), now)| < |Due(schedule, now)|
  {
    var v := Ruling(p, found, now);
    assert Treated(p, before[p], schedule, seen, passivated, now);
    assert v.Reschedule? ==> v.deadline > now;
    assert Due(Settled(schedule, p, v), now) == Due(schedule, now) - {p};
    forall q | q in before
      ensures Treated(q, before[q], Settled(schedule, p, v), seen[p := found],
                      if v.Passivate? then passivated + [p] else passivated, now)
    {
      assert Treated(q, before[q], schedule, seen, passivated, now);
    }
  }

  /** When nothing is due any more, every actor that was due has been found and
      settled, and the schedule is the swept one. */
  lemma TreatedIsSwept(before: map<Pid, real>, schedule: map<Pid, real>, seen: map<Pid, Seen>,
                       passivated: seq<Pid>, now: real)
    requires AllTreated(before, schedule, seen, passivated, now) && forall p | p in schedule :: schedule[p] > now
    ensures seen.Keys == Due(before, now) && schedule == Swept(before, seen, now)
    ensures forall p :: p in passivated <==> p in seen && Ruling(p, seen[p], now) == Passivate
  {
    forall p | p in before
      ensures p in seen <==> before[p] <= now
      ensures p in schedule <==> p in Swept(before, seen, now)
      ensures p in schedule ==> schedule[p] == Swept(before, seen, now)[p]
      ensures p in passivated <==> p in seen && Ruling(p, seen[p], now) == Passivate
    {
      assert Treated(p, before[p], schedule, seen, passivated, now);
    }
  }

  /** Until the pass first passivates somebody, it finds actors as they were. */
  ghost predicate FoundAsBefore(order: seq<Pid>, seen: map<Pid, Seen>, states: map<Pid, Seen>, now: real) {
    forall i | 0 <= i < |order| ::
      && order[i] in seen
      && ((forall j | 0 <= j < i :: order[j] in seen && Ruling(order[j], seen[order[j]], now) != Passivate) ==>
            order[i] in states && seen[order[i]] == states[order[i]])
  }

  lemma NextFound(order: seq<Pid>, seen: map<Pid, Seen>, states: map<Pid, Seen>, passivated: seq<Pid>,
                  p: Pid, found: Seen, now: real)
    requires FoundAsBefore(order, seen, states, now) && p !in seen && p in states
    requires forall q | q in passivated :: q in order && Ruling(q, seen[q], now) == Passivate
    requires passivated == [] ==> found == states[p]
    ensures FoundAsBefore(order + [p], seen[p := found], states, now)
  {
    var longer, more := order + [p], seen[p := found];
    forall i | 0 <= i < |longer|
      ensures longer[i] in more
      ensures (forall j | 0 <= j < i :: longer[j] in more && Ruling(longer[j], more[longer[j]], now) != Passivate) ==>
                longer[i] in states && more[longer[i]] == states[longer[i]]
    {
      if i < |order| {
        assert forall j | 0 <= j <= i :: longer[j] == order[j] && order[j] in seen && order[j] != p;
      } else if passivated != [] {
        assert passivated[0] in passivated;
        var k :| 0 <= k < |order| && order[k] == passivated[0];
        assert longer[k] == passivated[0] && more[longer[k]] == seen[order[k]];
      }
    }
  }

  /** How far a pass has come: `order` lists the actors settled so far, `seen` the
      states they were found in. */
  ghost predicate Midway(before: map<Pid, real>, states: map<Pid, Seen>, schedule: map<Pid, real>,
                         passivated: seq<Pid>, order: seq<Pid>, seen: map<Pid, Seen>, now: real) {
    && states.Keys == before.Keys
    && AllTreated(before, schedule, seen, passivated, now) && Distinct(passivated)
    && FoundAsBefore(order, seen, states, now)
    && (forall p | p in order :: p in seen) && (forall p | p in seen :: p in order)
  }

  /** What a pass has done: every actor that was due, and no other, was settled once by
      the state it was found in; exactly those found running, idle and past their idle
      window were passivated; and before the first passivation actors were found as
      the pass began. */
  ghost predicate Passed(before: map<Pid, real>, states: map<Pid, Seen>, schedule: map<Pid, real>,
                         passivated: seq<Pid>, order: seq<Pid>, seen: map<Pid, Seen>, now: real) {
    && seen.Keys == Due(before, now) && Distinct(passivated)
    && (forall p | p in before :: p.timeout.Some?)
    && (forall p | p in passivated :: p in seen && Ripe(p.timeout.value, seen[p], now))
    && (forall p | p in seen && Ripe(p.timeout.value, seen[p], now) :: p in passivated)
    && schedule.Keys <= before.Keys
    && (forall p | p in before && p !in seen :: p in schedule && schedule[p] == before[p])
    && (forall p | p in seen :: p in schedule <==> !Ripe(p.timeout.value, seen[p], now) && !Gone(seen[p]))
    && (forall p | p in seen && p in schedule :: schedule[p] == NextLook(p.timeout.value, seen[p], now))
    && FoundAsBefore(order, seen, states, now)
    && (forall p | p in order :: p in seen) && (forall p | p in seen :: p in order)
  }

  lemma Turn(before: map<Pid, real>, states: map<Pid, Seen>, schedule: map<Pid, real>,
             passivated: seq<Pid>, order: seq<Pid>, seen: map<Pid, Seen>, p: Pid, found: Seen, now: real)
    requires Midway(before, states, schedule, passivated, order, seen, now)
    requires p in schedule && schedule[p] <= now && p.timeout.Some? && p.timeout.value > 0.0 && p in before
    requires passivated == [] ==> found == states[p]
    ensures var v := Ruling(p, found, now);
            var next := if v.Passivate? then passivated + [p] else passivated;
            && Midway(before, states, Settled(schedule, p, v), next, order + [p], seen[p := found], now)
            && |Due(Settled(schedule, p, v), now)| < |Due(schedule, now)|
  {
    TreatOne(before, schedule, seen, passivated, p, found, now);
    forall q | q in passivated ensures q in order && Ruling(q, seen[q], now) == Passivate {
      assert Treated(q, before[q], schedule, seen, passivated, now);
    }
    NextFound(order, seen, states, passivated, p, found, now);
  }

  lemma Finish(before: map<Pid, real>, states: map<Pid, Seen>, schedule: map<Pid, real>,
               passivated: seq<Pid>, order: seq<Pid>, seen: map<Pid, Seen>, now: real)
    requires Midway(before, states, schedule, passivated, order, seen, now)
    requires (forall p | p in schedule :: schedule[p] > now) && forall p | p in before :: p.timeout.Some?
    ensures Passed(before, states, schedule, passivated, order, seen, now)
  {
    TreatedIsSwept(before, schedule, seen, passivated, now);
    forall p | p in seen
      ensures Ruling(p, seen[p], now) == Passivate <==> Ripe(p.timeout.value, seen[p], now)
      ensures Ruling(p, seen[p], now) == Drop <==> Gone(seen[p])
      ensures Ruling(p, seen[p], now).Reschedule? ==>
        Ruling(p, seen[p], now).deadline == NextLook(p.timeout.value, seen[p], now)
    {
      RulingMeans(p, seen[p], now);
    }
  }

  class PassivationManager {
    var heap: seq<Pid>
    var deadlines: seq<real>
    var timer: bool
    var timerDeadline: Option<real>

    /** Each scheduled actor's deadline, and every actor ever seen. */
    ghost var schedule: map<Pid, real>
    ghost var pids: set<Pid>

    constructor ()
      ensures Valid() && TimerCovers() && schedule == map[] && pids == {} && !timer
    {
      heap, deadlines, timer, timerDeadline := [], [], false, None;
      schedule, pids := map[], {};
    }

    /** Slots and arrays agree: an actor's slot is its index, and the arrays hold
        the schedule. */
    ghost predicate Indexed()
      reads this`heap, this`deadlines, this`schedule, schedule.Keys`slot
    {
      && |heap| == |deadlines|
      && (forall i | 0 <= i < |heap| ::
            heap[i] in schedule && heap[i].slot == i && schedule[heap[i]] == deadlines[i])
      && (forall p | p in schedule :: 0 <= p.slot < |heap| && heap[p.slot] == p)
    }

    ghost predicate Ranked()
      reads this`deadlines
    {
      Ordered(Earlier(), deadlines)
    }

    ghost predicate Valid()
      reads this`heap, this`deadlines, this`schedule, this`pids, pids`slot, schedule.Keys`slot
    {
      && schedule.Keys <= pids
      && Indexed() && Ranked()
      && (forall p | p in pids :: p !in schedule ==> p.slot == -1)
      && (forall p | p in schedule :: p.timeout.Some? && p.timeout.value > 0.0)
    }

    /** Something is scheduled only with a timer no later than its earliest deadline. */
    ghost predicate TimerCovers()
      reads this`heap, this`deadlines, this`timer, this`timerDeadline
    {
      |heap| == |deadlines| && |heap| > 0 ==>
        timer && timerDeadline.Some? && timerDeadline.value <= deadlines[0]
    }

    method SwapSlots(i: nat, j: nat)
      requires Indexed() && i < j < |heap|
      modifies this`heap, this`deadlines, schedule.Keys`slot
      ensures Indexed() && |heap| == old(|heap|) && deadlines == Swap(old(deadlines), i, j)
    {
      var a, b := heap[i], heap[j];
      heap := heap[i := b][j := a];
      a.slot := j;
      b.slot := i;
      deadlines := deadlines[i := deadlines[j]][j := deadlines[i]];
    }

    method Up(at: nat)
      requires Indexed() && at < |heap| && Hole(Earlier(), deadlines, at, true, false)
      modifies this`heap, this`deadlines, schedule.Keys`slot
      ensures Indexed() && Ranked() && |heap| == old(|heap|)
    {
      EarlierIsWeak();
      var j := at;
      while j > 0
        invariant Indexed() && |heap| == old(|heap|) && 0 <= j < |heap|
        invariant Hole(Earlier(), deadlines, j, true, false)
      {
        var i := (j - 1) / 2;
        if deadlines[j] >= deadlines[i] {
          break;
        }
        SiftUpStep(Earlier(), deadlines, j);
        SwapSlots(i, j);
        j := i;
      }
      SiftUpDone(Earlier(), deadlines, j);
    }

    method Down(at: nat)
      requires Indexed() && at < |heap| && Hole(Earlier(), deadlines, at, true, true)
      modifies this`heap, this`deadlines, schedule.Keys`slot
      ensures Indexed() && Hole(Earlier(), deadlines, at, true, false) && |heap| == old(|heap|)
    {
      EarlierIsWeak();
      var i, n := at, |heap|;
      while true
        invariant Indexed() && |heap| == n && at <= i < n
        invariant Hole(Earlier(), deadlines, i, i == at, true)
        decreases n - i
      {
        var left := 2 * i + 1;
        if left >= n {
          break;
        }
        var child, right := left, left + 1;
        if right < n && deadlines[right] < deadlines[left] {
          child := right;
        }
        PickUpper(Earlier(), deadlines, i, child);
        if deadlines[child] >= deadlines[i] {
          NoChildOutranks(Earlier(), deadlines, i, child);
          break;
        }
        SiftDownStep(Earlier(), deadlines, i, child, i == at);
        SwapSlots(i, child);
        i := child;
      }
      SiftDownDone(Earlier(), deadlines, i, i == at);
      if i != at {
        HoleClosed(Earlier(), deadlines, i);
        ClosedHole(Earlier(), deadlines, at);
      }
    }

    method Push(pid: Pid, deadline: real)
      requires Indexed() && Ranked() && pid !in schedule
      modifies this`heap, this`deadlines, this`schedule, pid`slot, schedule.Keys`slot
      ensures Indexed() && Ranked() && schedule == old(schedule)[pid := deadline]
    {
      var at := |heap|;
      PushOpensHole(Earlier(), deadlines, deadline);
      heap, deadlines := heap + [pid], deadlines + [deadline];
      pid.slot := at;
      schedule := schedule[pid := deadline];
      Up(at);
    }

    /** A slot is vacated and the last one, if it is another, moves into it. */
    method Vacate(at: nat)
      requires Indexed() && at < |heap|
      modifies this`heap, this`deadlines, this`schedule, schedule.Keys`slot
      ensures Indexed() && schedule == old(schedule) - {old(heap[at])} && old(heap[at]).slot == -1
      ensures var last := old(|heap|) - 1;
              deadlines == if at == last then old(deadlines)[..last]
                           else old(deadlines)[..last][at := old(deadlines)[last]]
    {
      var removed, last := heap[at], |heap| - 1;
      removed.slot := -1;
      var lastPid, lastDeadline := heap[last], deadlines[last];
      heap, deadlines := heap[..last], deadlines[..last];
      schedule := schedule - {removed};
      if at != last {
        heap, deadlines := heap[at := lastPid], deadlines[at := lastDeadline];
        lastPid.slot := at;
      }
    }

    /** The last slot moves into the vacated one and settles in either direction. */
    method RemoveAt(at: nat)
      requires Indexed() && Ranked() && at < |heap|
      modifies this`heap, this`deadlines, this`schedule, schedule.Keys`slot
      ensures Indexed() && Ranked() && schedule == old(schedule) - {old(heap[at])} && old(heap[at]).slot == -1
    {
      var last := |heap| - 1;
      EarlierIsWeak();
      PopKeepsOrder(Earlier(), deadlines);
      if at < last { WriteOpensHole(Earlier(), deadlines[..last], at, deadlines[last]); }
      Vacate(at);
      if at < last {
        Down(at);
        Up(at);
      }
    }

    /** Removes and returns the actor with the earliest deadline. */
    method Pop() returns (root: Pid)
      requires Indexed() && Ranked() && heap != []
      modifies this`heap, this`deadlines, this`schedule, schedule.Keys`slot
      ensures Indexed() && Ranked() && root in old(schedule) && old(schedule)[root] == old(deadlines[0])
      ensures schedule == old(schedule) - {root} && root.slot == -1
    {
      root := heap[0];
      RemoveAt(0);
    }

    /** No scheduled deadline is before the root's. */
    lemma RootIsEarliest()
      requires Indexed() && Ranked() && heap != []
      ensures forall p | p in schedule :: deadlines[0] <= schedule[p]
    {
      EarlierIsWeak();
      forall p | p in schedule ensures deadlines[0] <= schedule[p] {
        RootIsFirst(Earlier(), deadlines, p.slot);
      }
    }

    method Remove(pid: Pid)
      requires Valid() && (pid in pids || pid.slot == -1)
      modifies this`heap, this`deadlines, this`schedule, schedule.Keys`slot
      ensures Valid() && schedule == old(schedule) - {pid} && (pid in pids || pid.slot == -1)
      ensures old(TimerCovers()) ==> TimerCovers()
    {
      if pid.slot < 0 {
        return;
      }
      if |heap| > 0 { RootIsEarliest(); }
      RemoveAt(pid.slot);
    }

    method Arm()
      requires Indexed()
      modifies this`timer, this`timerDeadline
      ensures TimerCovers() && (heap == [] ==> !timer && timerDeadline == None)
    {
      if |heap| == 0 {
        timer, timerDeadline := false, None;
        return;
      }
      var deadline := deadlines[0];
      if timer && timerDeadline.Some? && deadline >= timerDeadline.value {
        return;
      }
      timerDeadline := Some(deadline);
      timer := true;
    }

    /** Registering replaces an actor's schedule; an actor with no timeout has none. */
    method Register(pid: Pid, now: real)
      requires Valid() && TimerCovers() && (pid in pids || pid.slot == -1)
      requires pid.timeout.Some? ==> pid.timeout.value > 0.0
      modifies this, pid`slot, schedule.Keys`slot
      ensures Valid() && TimerCovers() && pids == old(pids) + {pid}
      ensures schedule == if pid.timeout.Some? then old(schedule)[pid := now + pid.timeout.value]
                          else old(schedule) - {pid}
    {
      Remove(pid);
      pids := pids + {pid};
      if pid.timeout.Some? {
        Schedule(pid, now + pid.timeout.value);
      }
    }

    method Schedule(pid: Pid, deadline: real)
      requires Valid() && pid in pids && pid !in schedule && pid.timeout.Some? && pid.timeout.value > 0.0
      modifies this, pid`slot, schedule.Keys`slot
      ensures Valid() && TimerCovers() && pids == old(pids) && schedule == old(schedule)[pid := deadline]
    {
      Push(pid, deadline);
      Arm();
    }

    method Unregister(pid: Pid)
      requires Valid() && TimerCovers() && (pid in pids || pid.slot == -1)
      modifies this, schedule.Keys`slot
      ensures Valid() && TimerCovers() && pids == old(pids) && schedule == old(schedule) - {pid}
    {
      Remove(pid);
      Arm();
    }

    method Stop()
      requires Valid()
      modifies this, schedule.Keys`slot
      ensures Valid() && TimerCovers() && schedule == map[] && !timer && pids == old(pids)
    {
      timer, timerDeadline := false, None;
      var i := 0;
      while i < |heap|
        invariant 0 <= i <= |heap| == old(|heap|) && heap == old(heap) && !timer
        invariant schedule == old(schedule) && pids == old(pids)
        invariant forall p | p in pids :: p !in schedule ==> p.slot == -1
        invariant forall j | 0 <= j < |heap| :: heap[j].slot == if j < i then -1 else j
      {
        heap[i].slot := -1;
        i := i + 1;
      }
      assert forall p | p in schedule :: old(heap[p.slot]) == p && p.slot == -1;
      heap, deadlines := [], [];
      schedule := map[];
    }

    /** One turn of the timer pass: the earliest actor, due by `now`, is taken out and
        rescheduled, dropped or given up for passivation. */
    method SettleEarliest(now: real) returns (pid: Pid, passivate: bool)
      requires Valid() && |heap| > 0 && deadlines[0] <= now
      modifies this`heap, this`deadlines, this`schedule, schedule.Keys`slot
      ensures Valid() && pid in old(schedule) && old(schedule)[pid] <= now && pid.timeout.Some?
      ensures schedule == Settled(old(schedule), pid, Ruling(pid, pid.Look(), now))
      ensures passivate == Ripe(pid.timeout.value, pid.Look(), now)
      ensures pid in schedule <==> !Ripe(pid.timeout.value, pid.Look(), now) && !Gone(pid.Look())
      ensures pid in schedule ==> schedule[pid] == NextLook(pid.timeout.value, pid.Look(), now)
    {
      pid := Pop();
      var verdict := Judge(pid, now);
      RulingMeans(pid, pid.Look(), now);
      if verdict.Reschedule? {
        Push(pid, verdict.deadline);
      }
      passivate := verdict.Passivate?;
    }

    /** What the pass makes of a due actor, in the order it asks. */
    static method Judge(pid: Pid, now: real) returns (verdict: Verdict)
      requires pid.timeout.Some?
      ensures verdict == Decide(pid.timeout.value, pid.Look(), now)
    {
      var timeout := pid.timeout.value;
      if !pid.running {
        return if pid.suspended then Reschedule(now + timeout) else Drop;
      }
      var due := pid.latestActivity + timeout;
      if due > now {
        return Reschedule(due);
      }
      return if pid.idle then Passivate else Reschedule(now + timeout);
    }

    /** Begins an actor's stop. On the same turn this may stop its children and run
        their clean-up, so no actor's state is certain afterwards. */
    method BeginStop(pid: Pid)
      requires Valid()
      modifies pid`running, pids`running, pids`suspended, pids`idle, pids`latestActivity
      ensures Valid() && !pid.running
    {
      pid.running := false;
    }

    ghost function States(): map<Pid, Seen>
      reads this`schedule, schedule.Keys
    {
      map p | p in schedule :: p.Look()
    }

    /** The actors are as they were when a pass began. */
    ghost predicate Undisturbed(states: map<Pid, Seen>)
      reads states.Keys
    {
      forall p | p in states :: p.Look() == states[p]
    }

    /** Settles the earliest due actor by the state it is in now. */
    method TakeTurn(now: real, passivated: seq<Pid>, ghost before: map<Pid, real>, ghost states: map<Pid, Seen>,
                    ghost order: seq<Pid>, ghost seen: map<Pid, Seen>)
      returns (next: seq<Pid>, ghost pid: Pid, ghost found: Seen)
      requires Valid() && |heap| > 0 && deadlines[0] <= now && schedule.Keys <= before.Keys
      requires Midway(before, states, schedule, passivated, order, seen, now)
      requires passivated == [] ==> Undisturbed(states)
      modifies this`heap, this`deadlines, this`schedule, schedule.Keys`slot
      modifies pids`running, pids`suspended, pids`idle, pids`latestActivity
      ensures Valid() && schedule.Keys <= before.Keys
      ensures Midway(before, states, schedule, next, order + [pid], seen[pid := found], now)
      ensures |Due(schedule, now)| < |Due(old(schedule), now)|
      ensures next == [] ==> Undisturbed(states)
    {
      ghost var prior := schedule;
      var first, passivate := SettleEarliest(now);
      pid, found := first, first.Look();
      Turn(before, states, prior, passivated, order, seen, pid, found, now);
      next := passivated;
      if passivate {
        next := next + [first];
        BeginStop(first);
      }
    }

    /** Settles every due actor exactly once, by the state it is in when its turn
        comes: `order` is who was settled, `seen` the states they were found in. */
    method SettleDue(now: real) returns (passivated: seq<Pid>, ghost order: seq<Pid>, ghost seen: map<Pid, Seen>)
      requires Valid()
      modifies this`heap, this`deadlines, this`schedule, schedule.Keys`slot
      modifies pids`running, pids`suspended, pids`idle, pids`latestActivity
      ensures Valid() && Passed(old(schedule), old(States()), schedule, passivated, order, seen, now)
    {
      passivated, order, seen := [], [], map[];
      ghost var before, states := schedule, States();
      while |heap| > 0 && deadlines[0] <= now
        invariant Valid() && schedule.Keys <= before.Keys
        invariant Midway(before, states, schedule, passivated, order, seen, now)
        invariant passivated == [] ==> Undisturbed(states)
        decreases |Due(schedule, now)|
      {
        ghost var pid, found;
        passivated, pid, found := TakeTurn(now, passivated, before, states, order, seen);
        order, seen := order + [pid], seen[pid := found];
      }
      if |heap| > 0 { RootIsEarliest(); }
      Finish(before, states, schedule, passivated, order, seen, now);
    }

    /** The timer pass terminates, settles exactly the due actors, and leaves a timer
        for whatever is still scheduled. */
    method OnTimer(now: real) returns (passivated: seq<Pid>, ghost order: seq<Pid>, ghost seen: map<Pid, Seen>)
      requires Valid()
      modifies this`heap, this`deadlines, this`schedule, this`timer, this`timerDeadline, schedule.Keys`slot
      modifies pids`running, pids`suspended, pids`idle, pids`latestActivity
      ensures Valid() && TimerCovers()
      ensures Passed(old(schedule), old(States()), schedule, passivated, order, seen, now)
    {
      ghost var states := States();
      timer, timerDeadline := false, None;
      assert States() == states;
      passivated, order, seen := SettleDue(now);
      assert Passed(old(schedule), states, schedule, passivated, order, seen, now);
      Arm();
    }
  }
}
