/**
 What the ask timeout wheel promises: two generations per duration behind one timer,
 over every run of sends, settlements, sweeps and passing time.
 */
module AskTimeouts {
  import opened Common

  datatype Outcome = Responded | Rejected | Cancelled | TimedOut

  datatype Fate = Fate(outcome: Outcome, at: real)

  datatype Sent = Sent(duration: real, at: real)

  /** The pending asks of one duration, and when its timer is due if it is armed. */
  datatype AskList = AskList(young: seq<nat>, aged: seq<nat>, timer: Option<real>)

  /** All lists, the asks sent, the asks settled in the order their callbacks ran, and
      how each was settled last. */
  datatype Wheel = Wheel(lists: map<real, AskList>, sent: map<nat, Sent>, log: seq<nat>, fates: map<nat, Fate>)

  const EMPTY := Wheel(map[], map[], [], map[])

  function ListOf(w: Wheel, d: real): AskList {
    if d in w.lists then w.lists[d] else AskList([], [], None)
  }

  /** A new ask joins the young generation; the timer runs if it did not already. */
  function Enlist(w: Wheel, id: nat, d: real, now: real): Wheel {
    var l := ListOf(w, d);
    w.(lists := w.lists[d := AskList(l.young + [id], l.aged, if l.timer.None? then Some(now + d) else l.timer)],
       sent := w.sent[id := Sent(d, now)])
  }

  predicate Pending(w: Wheel, id: nat) {
    id in w.sent && w.sent[id].duration in w.lists
    && (id in w.lists[w.sent[id].duration].young || id in w.lists[w.sent[id].duration].aged)
  }

  ghost function Drop(s: seq<nat>, id: nat): (r: seq<nat>)
    ensures multiset(r) == multiset(s) - multiset{id}
  {
    if id in s then
      var k :| 0 <= k < |s| && s[k] == id;
      assert s == s[..k] + [s[k]] + s[k + 1..];
      s[..k] + s[k + 1..]
    else s
  }

  /** A pending ask leaves its generation and its callback runs; any other is left alone. */
  ghost function Settle(w: Wheel, id: nat, outcome: Outcome, now: real): Wheel {
    if !Pending(w, id) then w else
    var d := w.sent[id].duration;
    var l := w.lists[d];
    w.(lists := w.lists[d := l.(young := Drop(l.young, id), aged := Drop(l.aged, id))],
       log := w.log + [id], fates := w.fates[id := Fate(outcome, now)])
  }

  /** The fates of asks that time out together. */
  function Expiries(ids: seq<nat>, now: real): map<nat, Fate> {
    map id | id in ids :: Fate(TimedOut, now)
  }

  /** The old generation times out, the young one becomes old, and the timer is armed
      again while asks remain. */
  function Sweep(w: Wheel, d: real, now: real): Wheel
    requires d in w.lists
  {
    var l := w.lists[d];
    w.(lists := w.lists[d := AskList([], l.young, if l.young == [] then None else Some(now + d))],
       log := w.log + l.aged, fates := w.fates + Expiries(l.aged, now))
  }

  /* ---------- every run ---------- */

  datatype State = State(now: real, wheel: Wheel)

  datatype Step = Send(id: nat, d: real) | Finish(id: nat, outcome: Outcome) | Fire(d: real) | Tick(dt: real)

  /** Timers never fire early, and at most `late` after they are due. */
  ghost predicate Enabled(s: State, step: Step, late: real) {
    match step
    case Send(id, d) => id !in s.wheel.sent && d > 0.0
    case Finish(_, outcome) => outcome != TimedOut
    case Fire(d) => d in s.wheel.lists && s.wheel.lists[d].timer.Some? && s.wheel.lists[d].timer.value <= s.now
    case Tick(dt) =>
      dt >= 0.0 && forall d | d in s.wheel.lists && s.wheel.lists[d].timer.Some? ::
                     s.now + dt <= s.wheel.lists[d].timer.value + late
  }

  ghost function Next(s: State, step: Step, late: real): State
    requires Enabled(s, step, late)
  {
    match step
    case Send(id, d) => s.(wheel := Enlist(s.wheel, id, d, s.now))
    case Finish(id, outcome) => s.(wheel := Settle(s.wheel, id, outcome, s.now))
    case Fire(d) => s.(wheel := Sweep(s.wheel, d, s.now))
    case Tick(dt) => s.(now := s.now + dt)
  }

  function Waiting(l: AskList, id: nat): nat {
    multiset(l.young)[id] + multiset(l.aged)[id]
  }

  /** An ask is in no list but its own; it waits there once, or has been settled once. */
  ghost predicate Once(w: Wheel, id: nat) {
    && (id !in w.sent ==> multiset(w.log)[id] == 0)
    && (forall d | d in w.lists :: id !in w.sent || w.sent[id].duration != d ==> Waiting(w.lists[d], id) == 0)
    && (id in w.sent ==>
          && w.sent[id].duration in w.lists
          && Waiting(w.lists[w.sent[id].duration], id) + multiset(w.log)[id] == 1)
    && (id in w.fates <==> multiset(w.log)[id] > 0)
  }

  /** When a waiting ask's timer is due: within one period of being sent while young,
      between one and two while old. */
  ghost predicate Timely(s: State, id: nat, late: real) {
    id in s.wheel.sent && s.wheel.sent[id].duration in s.wheel.lists ==>
      var d, at := s.wheel.sent[id].duration, s.wheel.sent[id].at;
      var l := s.wheel.lists[d];
      && d > 0.0 && at <= s.now
      && (multiset(l.young)[id] > 0 ==> l.timer.Some? && l.timer.value <= at + d)
      && (multiset(l.aged)[id] > 0 ==> l.timer.Some? && at + d <= l.timer.value <= at + 2.0 * d + late)
      && (id in s.wheel.fates && s.wheel.fates[id].outcome == TimedOut ==>
            at + d <= s.wheel.fates[id].at <= at + 2.0 * d + 2.0 * late)
  }

  /** No armed timer is more than one period away, or more than `late` overdue. */
  ghost predicate Punctual(s: State, late: real) {
    && (forall d | d in s.wheel.lists :: d > 0.0)
    && (forall d | d in s.wheel.lists && s.wheel.lists[d].timer.Some? ::
          s.wheel.lists[d].timer.value - d <= s.now <= s.wheel.lists[d].timer.value + late)
  }

  lemma EnlistKeepsOnce(w: Wheel, ask: nat, d: real, now: real, id: nat)
    requires Once(w, id) && Once(w, ask) && ask !in w.sent
    ensures Once(Enlist(w, ask, d, now), id)
  {
    var l := ListOf(w, d);
    assert multiset(l.young + [ask]) == multiset(l.young) + multiset{ask};
  }

  lemma DropWaiting(l: AskList, ask: nat, id: nat)
    requires Waiting(l, ask) == 1
    ensures Waiting(l.(young := Drop(l.young, ask), aged := Drop(l.aged, ask)), id) ==
            if id == ask then 0 else Waiting(l, id)
  {
  }

  /** An ask that moves from one list to the log, if it moves at all, is still once. */
  lemma MoveKeepsOnce(w: Wheel, d: real, l: AskList, log: seq<nat>, fates: map<nat, Fate>, id: nat)
    requires Once(w, id) && d in w.lists && Waiting(l, id) <= Waiting(w.lists[d], id)
    requires Waiting(l, id) + multiset(log)[id] == Waiting(w.lists[d], id) + multiset(w.log)[id]
    requires id in fates <==> multiset(log)[id] > 0
    ensures Once(w.(lists := w.lists[d := l], log := log, fates := fates), id)
  {
  }

  lemma SettleKeepsOnce(w: Wheel, ask: nat, outcome: Outcome, now: real, id: nat)
    requires Once(w, id) && Once(w, ask)
    ensures Once(Settle(w, ask, outcome, now), id)
  {
    if Pending(w, ask) {
      var d := w.sent[ask].duration;
      var l := w.lists[d];
      DropWaiting(l, ask, id);
      assert multiset(w.log + [ask])[id] == multiset(w.log)[id] + if id == ask then 1 else 0;
      MoveKeepsOnce(w, d, l.(young := Drop(l.young, ask), aged := Drop(l.aged, ask)), w.log + [ask],
                    w.fates[ask := Fate(outcome, now)], id);
    }
  }

  lemma SweepKeepsOnce(w: Wheel, d: real, now: real, id: nat)
    requires Once(w, id) && d in w.lists
    ensures Once(Sweep(w, d, now), id)
  {
    var l := w.lists[d];
    assert multiset(w.log + l.aged) == multiset(w.log) + multiset(l.aged);
    assert id in l.aged <==> multiset(l.aged)[id] > 0;
  }

  ghost predicate AllOnce(w: Wheel) {
    forall id :: Once(w, id)
  }

  lemma SettleKeepsAllOnce(w: Wheel, ask: nat, outcome: Outcome, now: real)
    requires AllOnce(w)
    ensures AllOnce(Settle(w, ask, outcome, now))
  {
    forall id ensures Once(Settle(w, ask, outcome, now), id) {
      assert Once(w, id) && Once(w, ask);
      SettleKeepsOnce(w, ask, outcome, now, id);
    }
  }

  lemma StepKeepsOnce(s: State, step: Step, late: real)
    requires Enabled(s, step, late) && AllOnce(s.wheel)
    ensures AllOnce(Next(s, step, late).wheel)
  {
    forall id ensures Once(Next(s, step, late).wheel, id) {
      match step
      case Send(ask, d) => EnlistKeepsOnce(s.wheel, ask, d, s.now, id);
      case Finish(ask, outcome) => SettleKeepsOnce(s.wheel, ask, outcome, s.now, id);
      case Fire(d) => SweepKeepsOnce(s.wheel, d, s.now, id);
      case Tick(_) =>
    }
  }

  lemma StepKeepsPunctual(s: State, step: Step, late: real)
    requires Enabled(s, step, late) && Punctual(s, late) && late >= 0.0
    ensures Punctual(Next(s, step, late), late)
  {
  }

  lemma SendKeepsTimely(s: State, ask: nat, d: real, late: real, id: nat)
    requires Once(s.wheel, id) && Timely(s, id, late) && Punctual(s, late) && ask !in s.wheel.sent && d > 0.0
    requires Once(s.wheel, ask)
    ensures Timely(s.(wheel := Enlist(s.wheel, ask, d, s.now)), id, late)
  {
    var l := ListOf(s.wheel, d);
    assert multiset(l.young + [ask]) == multiset(l.young) + multiset{ask};
  }

  lemma FinishKeepsTimely(s: State, ask: nat, outcome: Outcome, late: real, id: nat)
    requires Timely(s, id, late) && outcome != TimedOut
    ensures Timely(s.(wheel := Settle(s.wheel, ask, outcome, s.now)), id, late)
  {
  }

  lemma FireKeepsTimely(s: State, d: real, late: real, id: nat)
    requires Enabled(s, Fire(d), late) && Once(s.wheel, id) && Timely(s, id, late) && Punctual(s, late)
    ensures Timely(s.(wheel := Sweep(s.wheel, d, s.now)), id, late)
  {
    assert id in s.wheel.lists[d].aged <==> multiset(s.wheel.lists[d].aged)[id] > 0;
  }

  ghost predicate Inv(s: State, late: real) {
    && AllOnce(s.wheel) && Punctual(s, late)
    && (forall id :: Timely(s, id, late))
  }

  lemma StepKeepsInv(s: State, step: Step, late: real)
    requires Enabled(s, step, late) && Inv(s, late) && late >= 0.0
    ensures Inv(Next(s, step, late), late)
  {
    StepKeepsOnce(s, step, late);
    StepKeepsPunctual(s, step, late);
    forall id ensures Timely(Next(s, step, late), id, late) {
      assert Once(s.wheel, id) && Timely(s, id, late);
      match step
      case Send(ask, d) => SendKeepsTimely(s, ask, d, late, id);
      case Finish(ask, outcome) => FinishKeepsTimely(s, ask, outcome, late, id);
      case Fire(d) => FireKeepsTimely(s, d, late, id);
      case Tick(_) =>
    }
  }

  const START := State(0.0, EMPTY)

  ghost predicate IsRun(s: State, steps: seq<Step>, late: real)
    decreases |steps|
  {
    steps == [] || (Enabled(s, steps[0], late) && IsRun(Next(s, steps[0], late), steps[1..], late))
  }

  ghost function Run(s: State, steps: seq<Step>, late: real): State
    requires IsRun(s, steps, late)
    decreases |steps|
  {
    if steps == [] then s else Run(Next(s, steps[0], late), steps[1..], late)
  }

  lemma {:induction false} RunKeepsInv(s: State, steps: seq<Step>, late: real)
    requires IsRun(s, steps, late) && Inv(s, late) && late >= 0.0
    ensures Inv(Run(s, steps, late), late)
    decreases |steps|
  {
    if steps != [] {
      StepKeepsInv(s, steps[0], late);
      RunKeepsInv(Next(s, steps[0], late), steps[1..], late);
    }
  }

  /** Over every run, an ask sent is waiting in exactly one place or has been settled
      exactly once, whatever mix of responses, rejections, cancels and sweeps it met. */
  lemma SettledAtMostOnce(steps: seq<Step>, late: real, id: nat)
    requires late >= 0.0 && IsRun(START, steps, late)
    ensures var w := Run(START, steps, late).wheel;
            && multiset(w.log)[id] <= 1
            && (id in w.sent ==> (Pending(w, id) <==> id !in w.log))
  {
    assert Inv(START, late);
    RunKeepsInv(START, steps, late);
    assert Once(Run(START, steps, late).wheel, id);
  }

  /** An ask that timed out did so between one and two periods after it was sent, give
      or take the lateness of two timers. */
  lemma ExpiresWithinTwoPeriods(steps: seq<Step>, late: real, id: nat)
    requires late >= 0.0 && IsRun(START, steps, late)
    ensures var w := Run(START, steps, late).wheel;
            id in w.fates && w.fates[id].outcome == TimedOut ==>
              && id in w.sent
              && var d, at := w.sent[id].duration, w.sent[id].at;
                 at + d <= w.fates[id].at <= at + 2.0 * d + 2.0 * late
  {
    assert Inv(START, late);
    RunKeepsInv(START, steps, late);
    assert Once(Run(START, steps, late).wheel, id) && Timely(Run(START, steps, late), id, late);
  }

  /** A pending ask's list has its timer armed, due within two periods of the ask, and no
      ask is still pending later than that by the lateness of two timers. */
  lemma PendingIsTimed(steps: seq<Step>, late: real, id: nat)
    requires late >= 0.0 && IsRun(START, steps, late) && Pending(Run(START, steps, late).wheel, id)
    ensures var w := Run(START, steps, late).wheel;
            var d, at := w.sent[id].duration, w.sent[id].at;
            && w.lists[d].timer.Some? && w.lists[d].timer.value <= at + 2.0 * d + late
            && Run(START, steps, late).now <= at + 2.0 * d + 2.0 * late
  {
    assert Inv(START, late);
    RunKeepsInv(START, steps, late);
    assert Timely(Run(START, steps, late), id, late);
  }

  /** An ask is pending as soon as it is sent. */
  lemma SentIsPending(s: State, id: nat, d: real, late: real)
    requires Enabled(s, Send(id, d), late)
    ensures var w := Next(s, Send(id, d), late).wheel;
      Pending(w, id) && w.sent[id] == Sent(d, s.now) && w.fates == s.wheel.fates
  {
    var w := Next(s, Send(id, d), late).wheel;
    assert w.lists[d].young[|w.lists[d].young| - 1] == id;
  }

  lemma SweptTwice(w: Wheel, d: real)
    requires w == Enlist(EMPTY, 0, d, 0.0)
    ensures w.lists.Keys == {d} && w.lists[d] == AskList([0], [], Some(d))
    ensures var w1 := Sweep(w, d, d);
      && w1.lists.Keys == {d} && w1.lists[d] == AskList([], [0], Some(2.0 * d)) && w1.fates == map[]
      && Sweep(w1, d, 2.0 * d).fates == map[0 := Fate(TimedOut, 2.0 * d)] && Sweep(w1, d, 2.0 * d).sent == w.sent
  {
  }

  /** A list sits out one period and is swept. */
  lemma SitsOut(s: State, d: real, late: real, rest: seq<Step>) returns (t: State)
    requires s.wheel.lists.Keys == {d} && s.wheel.lists[d].timer == Some(s.now + d) && d > 0.0 && late >= 0.0
    ensures t == State(s.now + d, Sweep(s.wheel, d, s.now + d))
    ensures IsRun(t, rest, late) ==>
      IsRun(s, [Tick(d), Fire(d)] + rest, late) && Run(s, [Tick(d), Fire(d)] + rest, late) == Run(t, rest, late)
  {
    var steps := [Tick(d), Fire(d)] + rest;
    assert steps[1..] == [Fire(d)] + rest && steps[1..][1..] == rest;
    t := Next(Next(s, Tick(d), late), Fire(d), late);
  }

  /** For every duration there is a run in which an ask that nobody answers times out, two
      periods after it was sent when the timers are on time. */
  lemma Unanswered(d: real, late: real) returns (steps: seq<Step>)
    requires d > 0.0 && late >= 0.0
    ensures IsRun(START, steps, late)
    ensures var s := Run(START, steps, late);
      s.now == 2.0 * d && s.wheel.sent == map[0 := Sent(d, 0.0)] && s.wheel.fates == map[0 := Fate(TimedOut, 2.0 * d)]
  {
    var s, sweeps := Next(START, Send(0, d), late), [Tick(d), Fire(d)];
    SweptTwice(s.wheel, d);
    var t := SitsOut(s, d, late, sweeps + []);
    var u := SitsOut(t, d, late, []);
    steps := [Send(0, d)] + (sweeps + (sweeps + []));
    assert steps[1..] == sweeps + (sweeps + []);
  }

  /** What a step does to a pending ask: a call that finishes it, with its outcome, or a
      sweep that finds it old. */
  ghost function StepFate(s: State, step: Step, late: real, id: nat): Option<Fate>
    requires Enabled(s, step, late)
  {
    match step
    case Finish(ask, outcome) => if ask == id then Some(Fate(outcome, s.now)) else None
    case Fire(d) => if id in s.wheel.lists[d].aged then Some(Fate(TimedOut, s.now)) else None
    case _ => None
  }

  /** What first befalls an ask in a run, and when. */
  ghost function FirstFate(s: State, steps: seq<Step>, late: real, id: nat): Option<Fate>
    requires IsRun(s, steps, late)
    decreases |steps|
  {
    if steps == [] then None
    else if StepFate(s, steps[0], late, id).Some? then StepFate(s, steps[0], late, id)
    else FirstFate(Next(s, steps[0], late), steps[1..], late, id)
  }

  /** A settled ask is in no list. */
  lemma SettledIsGone(w: Wheel, id: nat, d: real)
    requires Once(w, id) && id in w.fates && d in w.lists
    ensures id !in w.lists[d].young && id !in w.lists[d].aged
  {
    assert multiset(w.lists[d].young)[id] == 0 && multiset(w.lists[d].aged)[id] == 0;
  }

  lemma {:induction false} FateStays(s: State, steps: seq<Step>, late: real, id: nat)
    requires late >= 0.0 && Inv(s, late) && IsRun(s, steps, late) && id in s.wheel.fates
    ensures id in Run(s, steps, late).wheel.fates && Run(s, steps, late).wheel.fates[id] == s.wheel.fates[id]
    decreases |steps|
  {
    if steps != [] {
      forall d | d in s.wheel.lists ensures id !in s.wheel.lists[d].young && id !in s.wheel.lists[d].aged {
        assert Once(s.wheel, id);
        SettledIsGone(s.wheel, id, d);
      }
      StepKeepsInv(s, steps[0], late);
      FateStays(Next(s, steps[0], late), steps[1..], late, id);
    }
  }

  /** An ask that was sent is pending exactly while it is not settled. */
  lemma PendingOrSettled(w: Wheel, id: nat)
    requires Once(w, id) && id in w.sent
    ensures Pending(w, id) <==> id !in w.fates
  {
    var l := w.lists[w.sent[id].duration];
    assert id in l.young <==> id in multiset(l.young);
    assert id in l.aged <==> id in multiset(l.aged);
  }

  /** A wheel settles an ask, or leaves its fate alone. */
  ghost predicate Fated(w: Wheel, id: nat, fate: Option<Fate>) {
    if fate.None? then id !in w.fates else id in w.fates && w.fates[id] == fate.value
  }

  lemma PendingStep(s: State, step: Step, late: real, id: nat)
    requires Once(s.wheel, id) && Enabled(s, step, late) && Pending(s.wheel, id)
    ensures Fated(Next(s, step, late).wheel, id, StepFate(s, step, late, id))
    ensures id in Next(s, step, late).wheel.sent
  {
    PendingOrSettled(s.wheel, id);
  }

  /** Over every run, a pending ask is settled by what first befalls it, with that
      outcome at that time, and nothing that comes later changes it; until then it
      stays pending. */
  lemma {:induction false} SettledByTheFirst(s: State, steps: seq<Step>, late: real, id: nat)
    requires late >= 0.0 && Inv(s, late) && IsRun(s, steps, late) && Pending(s.wheel, id)
    ensures Fated(Run(s, steps, late).wheel, id, FirstFate(s, steps, late, id))
    decreases |steps|
  {
    assert Once(s.wheel, id);
    PendingOrSettled(s.wheel, id);
    if steps != [] {
      var s' := Next(s, steps[0], late);
      PendingStep(s, steps[0], late, id);
      StepKeepsInv(s, steps[0], late);
      assert Once(s'.wheel, id);
      PendingOrSettled(s'.wheel, id);
      if Pending(s'.wheel, id) {
        SettledByTheFirst(s', steps[1..], late, id);
      } else {
        FateStays(s', steps[1..], late, id);
      }
    }
  }

  /** How often a run sweeps one duration's list. */
  function Sweeps(steps: seq<Step>, d: real): nat {
    if steps == [] then 0 else (if steps[0] == Fire(d) then 1 else 0) + Sweeps(steps[1..], d)
  }

  /** Where an ask is that nobody has settled since it was sent, after so many sweeps. */
  ghost predicate Aged(w: Wheel, id: nat, d: real, sweeps: nat) {
    && d in w.lists && id in w.sent && w.sent[id].duration == d
    && (sweeps == 0 ==> id in w.lists[d].young)
    && (sweeps == 1 ==> id in w.lists[d].aged)
    && (sweeps >= 2 ==> id in w.fates && w.fates[id].outcome == TimedOut)
  }

  lemma DropKeepsOthers(s: seq<nat>, ask: nat, id: nat)
    requires ask != id
    ensures id in Drop(s, ask) <==> id in s
  {
    assert id in multiset(Drop(s, ask)) <==> id in multiset(s);
  }

  lemma FinishAges(w: Wheel, ask: nat, outcome: Outcome, now: real, id: nat, d: real, sweeps: nat)
    requires Aged(w, id, d, sweeps) && ask != id
    ensures Aged(Settle(w, ask, outcome, now), id, d, sweeps)
  {
    if Pending(w, ask) && w.sent[ask].duration == d {
      DropKeepsOthers(w.lists[d].young, ask, id);
      DropKeepsOthers(w.lists[d].aged, ask, id);
    }
  }

  lemma StepAges(s: State, step: Step, late: real, id: nat, d: real, sweeps: nat)
    requires Enabled(s, step, late) && AllOnce(s.wheel) && Aged(s.wheel, id, d, sweeps)
    requires step.Finish? ==> step.id != id
    ensures Aged(Next(s, step, late).wheel, id, d, if step == Fire(d) then sweeps + 1 else sweeps)
  {
    match step
    case Send(ask, e) =>
      var l := s.wheel.lists[d];
      if e == d && id in l.young { assert (l.young + [ask])[Index(l.young, id)] == id; }
    case Finish(ask, outcome) => FinishAges(s.wheel, ask, outcome, s.now, id, d, sweeps);
    case Fire(e) =>
      assert Once(s.wheel, id);
      if sweeps >= 2 && e != d { assert multiset(s.wheel.lists[e].aged)[id] == 0; }
    case Tick(_) =>
  }

  /** Left alone, a young ask survives the first sweep of its list and fails in the
      second. */
  lemma {:induction false} LeftAlone(s: State, steps: seq<Step>, late: real, id: nat, d: real, sweeps: nat)
    requires late >= 0.0 && Inv(s, late) && IsRun(s, steps, late) && Aged(s.wheel, id, d, sweeps)
    requires forall i | 0 <= i < |steps| :: steps[i].Finish? ==> steps[i].id != id
    ensures Aged(Run(s, steps, late).wheel, id, d, sweeps + Sweeps(steps, d))
    decreases |steps|
  {
    if steps != [] {
      StepAges(s, steps[0], late, id, d, sweeps);
      StepKeepsInv(s, steps[0], late);
      LeftAlone(Next(s, steps[0], late), steps[1..], late, id, d, if steps[0] == Fire(d) then sweeps + 1 else sweeps);
    }
  }
}
