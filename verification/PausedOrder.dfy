/**
 The order in which an actor is handed its messages while its requests pause it: what
 arrives meanwhile waits in the stash and is re-delivered when the last request ends. The
 mailbox is first in, first out, and the behavior stashes nothing itself.
 */
module PausedOrder {
  import opened Common
  import opened Scheduler

  /** An actor, and the user messages it accepted and was handed, in order. */
  datatype Track = Track(actor: Actor, accepted: seq<Msg>, handed: seq<Msg>)

  /** A message arrives; the loop takes the next message, which if it is a command may be
      the reply that ends a request, with `room` left in the mailbox; the behavior issues
      a request; or the lifecycle moves on. */
  datatype Event = Arrive(msg: Msg, full: bool) | Take(reply: bool, room: nat) | Request | Life(act: Act)

  const START := Track(NEWBORN, [], [])

  function Users(ms: seq<Msg>): seq<Msg> {
    if ms == [] then [] else (if ms[0].command then [] else [ms[0]]) + Users(ms[1..])
  }

  /** Everything stashed goes to the mailbox, until it refuses one. */
  function Redelivered(a: Actor, room: nat): Actor
    decreases |a.stash|
  {
    if a.stash == [] then a
    else if room == 0 || !IsRunning(a) then Local(a, Unstash(true))
    else Redelivered(Local(a, Unstash(false)), room - 1)
  }

  /** A request ends; the last one resumes what was put aside. */
  function Completed(a: Actor, room: nat): Actor
    requires a.paused > 0
  {
    var b := Local(a, SetPaused(a.paused - 1));
    if b.paused == 0 then Redelivered(b, room) else b
  }

  predicate Enabled(t: Track, e: Event) {
    match e
    case Arrive(m, _) => m !in t.actor.log.accepted
    case Take(_, _) => t.actor.mailbox != []
    case Request => true
    case Life(act) => (act == Suspend || act == Unsuspend || act == BeginStop) && LocalEnabled(t.actor, act)
  }

  function Taken(t: Track, reply: bool, room: nat): Track
    requires t.actor.mailbox != []
  {
    var a := t.actor;
    if a.mailbox[0].command then
      var b := Turned(a, TakeCommand(0), None, 0);
      t.(actor := if reply && b.paused > 0 then Completed(b, room) else b)
    else if a.paused != 0 then t.(actor := Turned(a, TakePaused(0), None, 0))
    else t.(actor := Turned(a, TakeUser(0), None, 0), handed := t.handed + [a.mailbox[0]])
  }

  function Next(t: Track, e: Event): Track
    requires Enabled(t, e)
  {
    match e
    case Arrive(m, full) =>
      var b := Local(t.actor, Receive(m, full));
      t.(actor := b, accepted := if m in b.log.accepted && !m.command then t.accepted + [m] else t.accepted)
    case Take(reply, room) => Taken(t, reply, room)
    case Request => t.(actor := Local(t.actor, SetPaused(t.actor.paused + 1)))
    case Life(act) => t.(actor := Local(t.actor, act))
  }

  ghost predicate Known(t: Track) {
    Distinct(t.accepted) && forall m | m in t.accepted :: m in t.actor.log.accepted && !m.command
  }

  /** What was handed over, what was put aside and what is queued are, in this order, the
      accepted messages; and nothing is put aside while no request pauses the actor. */
  predicate Ordered(t: Track) {
    && t.handed + t.actor.stash + Users(t.actor.mailbox) == t.accepted
    && (t.actor.paused == 0 ==> t.actor.stash == [])
  }

  /** The last request ends while messages are put aside, and either user messages are
      already queued, which go first, or the mailbox refuses one of those put aside. */
  predicate Overtakes(t: Track, e: Event)
    requires Enabled(t, e)
  {
    && e.Take? && t.actor.mailbox[0].command && e.reply && t.actor.paused == 1 && t.actor.stash != []
    && (Users(t.actor.mailbox) != [] || !IsRunning(t.actor) || e.room < |t.actor.stash|)
  }

  lemma {:induction false} UsersOfConcat(a: seq<Msg>, b: seq<Msg>)
    ensures Users(a + b) == Users(a) + Users(b)
    decreases |a|
  {
    if a == [] {
      assert a + b == b;
    } else {
      assert (a + b)[1..] == a[1..] + b;
      UsersOfConcat(a[1..], b);
    }
  }

  lemma {:induction false} AllUsers(ms: seq<Msg>)
    requires forall m | m in ms :: !m.command
    ensures Users(ms) == ms
    decreases |ms|
  {
    if ms != [] { AllUsers(ms[1..]); }
  }

  /** How much of the stash the mailbox takes before it refuses one. */
  function Fits(a: Actor, room: nat): nat {
    if !IsRunning(a) then 0 else if room < |a.stash| then room else |a.stash|
  }

  lemma OneMore(mailbox: seq<Msg>, stash: seq<Msg>, k: nat)
    requires 0 < k <= |stash|
    ensures (mailbox + [stash[0]]) + stash[1..][..k - 1] == mailbox + stash[..k]
    ensures k < |stash| ==> stash[1..][k..] == stash[k + 1..]
  {
  }

  /** The stash joins the end of the mailbox in order, up to the message that is refused,
      which is lost. */
  lemma {:induction false} RedeliversInOrder(a: Actor, room: nat)
    ensures var b, k := Redelivered(a, room), Fits(a, room);
      && b.paused == a.paused && b.log.accepted == a.log.accepted
      && b.mailbox == a.mailbox + a.stash[..k]
      && b.stash == if k == |a.stash| then [] else a.stash[k + 1..]
    decreases |a.stash|
  {
    if a.stash != [] && room > 0 && IsRunning(a) {
      var b, k := Local(a, Unstash(false)), Fits(a, room);
      RedeliversInOrder(b, room - 1);
      assert Fits(b, room - 1) == k - 1;
      OneMore(a.mailbox, a.stash, k);
    }
  }

  /** Unless something is in the way, what comes back keeps its place behind what was
      handed over. */
  lemma CompletionKeepsOrder(t: Track, a: Actor, room: nat)
    requires Known(t) && t.handed + a.stash + Users(a.mailbox) == t.accepted && a.paused == 1
    ensures var b := Completed(a, room);
      && b.paused == 0 && b.log.accepted == a.log.accepted
      && (t.handed + b.stash + Users(b.mailbox) == t.accepted && b.stash == [] <==>
          a.stash == [] || (Users(a.mailbox) == [] && Fits(a, room) == |a.stash|))
  {
    var c := Local(a, SetPaused(0));
    RedeliversInOrder(c, room);
    var b, k := Completed(a, room), Fits(a, room);
    Stashed(t, a);
    AllUsers(a.stash[..k]);
    UsersOfConcat(a.mailbox, a.stash[..k]);
    BackInOrder(t, a.stash, Users(a.mailbox), k);
  }

  lemma BackInOrder(t: Track, stash: seq<Msg>, users: seq<Msg>, k: nat)
    requires Known(t) && t.handed + stash + users == t.accepted && k <= |stash|
    ensures var left := if k == |stash| then [] else stash[k + 1..];
      t.handed + left + (users + stash[..k]) == t.accepted && left == [] <==>
      stash == [] || (users == [] && k == |stash|)
  {
    var left := if k == |stash| then [] else stash[k + 1..];
    if k < |stash| {
      assert |t.handed + left + (users + stash[..k])| < |t.accepted|;
    } else {
      assert stash[..k] == stash && t.handed + left + (users + stash) == t.handed + users + stash;
      if stash != [] && users != [] { Swapped(t, stash, users); }
    }
  }

  /** What is put aside are user messages. */
  lemma Stashed(t: Track, a: Actor)
    requires Known(t) && t.handed + a.stash + Users(a.mailbox) == t.accepted
    ensures forall m | m in a.stash :: !m.command
  {
    forall i | 0 <= i < |a.stash| ensures !a.stash[i].command {
      assert t.accepted[|t.handed| + i] == a.stash[i];
    }
  }

  lemma Swapped(t: Track, x: seq<Msg>, y: seq<Msg>)
    requires Known(t) && t.handed + x + y == t.accepted && x != [] && y != []
    ensures t.handed + y + x != t.accepted
  {
    var n := |t.handed|;
    assert t.accepted[n] == x[0] && t.accepted[n + |x|] == y[0] && (t.handed + y + x)[n] == y[0];
  }

  lemma CommandKeepsOrder(t: Track, reply: bool, room: nat)
    requires Known(t) && Ordered(t) && t.actor.mailbox != [] && t.actor.mailbox[0].command
    ensures Known(Taken(t, reply, room))
    ensures Ordered(Taken(t, reply, room)) <==> !Overtakes(t, Take(reply, room))
  {
    var b := Turned(t.actor, TakeCommand(0), None, 0);
    assert b.mailbox == t.actor.mailbox[1..];
    if reply && b.paused == 1 { CompletionKeepsOrder(t, b, room); }
  }

  lemma HeadMoves(handed: seq<Msg>, stash: seq<Msg>, m: Msg, rest: seq<Msg>)
    ensures handed + stash + ([m] + rest) == handed + (stash + [m]) + rest
    ensures stash == [] ==> handed + stash + ([m] + rest) == handed + [m] + stash + rest
  {
  }

  lemma MessageKeepsOrder(t: Track, reply: bool, room: nat)
    requires Known(t) && Ordered(t) && t.actor.mailbox != [] && !t.actor.mailbox[0].command
    ensures Known(Taken(t, reply, room)) && Ordered(Taken(t, reply, room))
  {
    var a, m := t.actor, t.actor.mailbox[0];
    var rest := Users(a.mailbox[1..]);
    assert Without(a.mailbox, 0) == a.mailbox[1..];
    assert t.handed + a.stash + ([m] + rest) == t.accepted;
    HeadMoves(t.handed, a.stash, m, rest);
    if a.paused == 0 { assert t.handed + [m] + a.stash + rest == t.accepted; }
  }

  lemma StepKeepsOrder(t: Track, e: Event)
    requires Known(t) && Ordered(t) && Enabled(t, e)
    ensures Known(Next(t, e)) && (Ordered(Next(t, e)) <==> !Overtakes(t, e))
  {
    match e
    case Arrive(m, _) => UsersOfConcat(t.actor.mailbox, [m]);
    case Take(reply, room) =>
      if t.actor.mailbox[0].command { CommandKeepsOrder(t, reply, room); } else { MessageKeepsOrder(t, reply, room); }
    case _ =>
  }

  /* ---------- every run ---------- */

  predicate IsRun(t: Track, events: seq<Event>)
    decreases |events|
  {
    events == [] || (Enabled(t, events[0]) && IsRun(Next(t, events[0]), events[1..]))
  }

  function Run(t: Track, events: seq<Event>): Track
    requires IsRun(t, events)
    decreases |events|
  {
    if events == [] then t else Run(Next(t, events[0]), events[1..])
  }

  predicate OrderedThroughout(t: Track, events: seq<Event>)
    requires IsRun(t, events)
    decreases |events|
  {
    Ordered(t) && (events == [] || OrderedThroughout(Next(t, events[0]), events[1..]))
  }

  predicate OvertakesIn(t: Track, events: seq<Event>)
    requires IsRun(t, events)
    decreases |events|
  {
    events != [] && (Overtakes(t, events[0]) || OvertakesIn(Next(t, events[0]), events[1..]))
  }

  lemma {:induction false} OrderedUnlessOvertaken(t: Track, events: seq<Event>)
    requires Known(t) && Ordered(t) && IsRun(t, events)
    ensures OrderedThroughout(t, events) <==> !OvertakesIn(t, events)
    ensures !OvertakesIn(t, events) ==> Ordered(Run(t, events))
    decreases |events|
  {
    if events != [] {
      StepKeepsOrder(t, events[0]);
      if Ordered(Next(t, events[0])) { OrderedUnlessOvertaken(Next(t, events[0]), events[1..]); }
    }
  }

  /** Through every run the actor is handed its messages in the order it accepted them,
      and holds the others in that order, exactly when the last request never ends with
      messages put aside while others are queued or the mailbox refuses one. */
  lemma StrictUnlessOvertaken(events: seq<Event>)
    requires IsRun(START, events)
    ensures OrderedThroughout(START, events) <==> !OvertakesIn(START, events)
    ensures !OvertakesIn(START, events) ==> Run(START, events).handed <= Run(START, events).accepted
  {
    OrderedUnlessOvertaken(START, events);
  }

  lemma {:induction false} RunSnoc(t: Track, events: seq<Event>, e: Event)
    requires IsRun(t, events) && Enabled(Run(t, events), e)
    ensures IsRun(t, events + [e]) && Run(t, events + [e]) == Next(Run(t, events), e)
    decreases |events|
  {
    if events == [] {
      assert (events + [e])[1..] == [];
    } else {
      RunSnoc(Next(t, events[0]), events[1..], e);
      assert (events + [e])[1..] == events[1..] + [e];
    }
  }

  /** A paused or resumed actor in the run below. */
  function Seen(mailbox: seq<Msg>, stash: seq<Msg>, paused: nat, accepted: seq<Msg>, log: Log): Track {
    Track(NEWBORN.(mailbox := mailbox, stash := stash, paused := paused, log := log), accepted, [])
  }

  /** A request pauses the actor; one message is put aside, and the reply and a second
      message follow. */
  lemma Overtaking() returns (events: seq<Event>)
    ensures IsRun(START, events)
    ensures var m, n, r := Msg(0, false), Msg(1, false), Msg(2, true);
      Run(START, events) == Seen([r, n], [m], 1, [m, n], Log({m, r, n}, {}, {}, {}))
  {
    var m, n, r := Msg(0, false), Msg(1, false), Msg(2, true);
    events := [];
    RunSnoc(START, events, Request);
    events := events + [Request];
    assert Run(START, events) == Seen([], [], 1, [], Log({}, {}, {}, {}));
    RunSnoc(START, events, Arrive(m, false));
    events := events + [Arrive(m, false)];
    assert Run(START, events) == Seen([m], [], 1, [m], Log({m}, {}, {}, {}));
    RunSnoc(START, events, Take(false, 0));
    events := events + [Take(false, 0)];
    assert Run(START, events) == Seen([], [m], 1, [m], Log({m}, {}, {}, {}));
    RunSnoc(START, events, Arrive(r, false));
    events := events + [Arrive(r, false)];
    assert Run(START, events) == Seen([r], [m], 1, [m], Log({m, r}, {}, {}, {}));
    RunSnoc(START, events, Arrive(n, false));
    events := events + [Arrive(n, false)];
  }

  /** The request ends; what was put aside comes back behind the second message, which is
      handed over first. */
  lemma PausedCanBeOvertaken() returns (events: seq<Event>)
    ensures IsRun(START, events)
    ensures var t := Run(START, events);
      t.accepted == [Msg(0, false), Msg(1, false)] && t.handed == [Msg(1, false), Msg(0, false)]
  {
    var m, n, r := Msg(0, false), Msg(1, false), Msg(2, true);
    events := Overtaking();
    RunSnoc(START, events, Take(true, 1));
    var b := Turned(Run(START, events).actor, TakeCommand(0), None, 0);
    RedeliversInOrder(Local(b, SetPaused(0)), 1);
    events := events + [Take(true, 1)];
    assert Run(START, events).actor.mailbox == [n, m];
    RunSnoc(START, events, Take(false, 0));
    events := events + [Take(false, 0)];
    assert Run(START, events).actor.mailbox == [m];
    RunSnoc(START, events, Take(false, 0));
    events := events + [Take(false, 0)];
  }
}
