/**
 The ledger of outbound death watches: one entry per watcher-target pair, which every
 death notification the remoting layer passes on must consume.
 */
module WatchLedger {

  /** A watcher's path and a remote target's path. */
  datatype Pair = Pair(watcher: nat, target: nat)

  /** What happened, as a watcher could observe it: a watch or unwatch call taken, a
      notification passed on, or one used up for a watcher that is gone. */
  datatype Event = Watched(pair: Pair) | Unwatched(pair: Pair) | Notified(pair: Pair) | Lapsed(pair: Pair)

  /** Whether the last word about a pair is a watch. */
  function Armed(log: seq<Event>, p: Pair): bool {
    if log == [] then false
    else if log[|log| - 1].pair == p then log[|log| - 1].Watched?
    else Armed(log[..|log| - 1], p)
  }

  /** Every notification of a pair came while it was armed. */
  predicate Legal(log: seq<Event>, p: Pair) {
    log == [] ||
    (Legal(log[..|log| - 1], p) && (log[|log| - 1] == Notified(p) ==> Armed(log[..|log| - 1], p)))
  }

  lemma Snoc(log: seq<Event>, e: Event, p: Pair)
    ensures Armed(log + [e], p) == if e.pair == p then e.Watched? else Armed(log, p)
    ensures Legal(log + [e], p) <==> Legal(log, p) && (e == Notified(p) ==> Armed(log, p))
  {
    assert (log + [e])[..|log|] == log;
  }

  function Count(log: seq<Event>, e: Event): nat {
    if log == [] then 0 else Count(log[..|log| - 1], e) + if log[|log| - 1] == e then 1 else 0
  }

  /** A legal log notifies a pair at most once per watch. */
  lemma {:induction false} AtMostOncePerWatch(log: seq<Event>, p: Pair)
    requires Legal(log, p)
    ensures Count(log, Notified(p)) + (if Armed(log, p) then 1 else 0) <= Count(log, Watched(p))
  {
    if log != [] { AtMostOncePerWatch(log[..|log| - 1], p); }
  }

  /** Between any event of a pair and a later notification of it lies a watch, unless
      the event is that watch: so none follows an unwatch until a new watch. */
  lemma {:induction false} NoneUntilWatched(log: seq<Event>, p: Pair, i: nat, j: nat) returns (m: nat)
    requires Legal(log, p) && i < j < |log| && log[i].pair == p && log[j] == Notified(p)
    ensures i <= m < j && log[m] == Watched(p)
  {
    if j < |log| - 1 {
      m := NoneUntilWatched(log[..|log| - 1], p, i, j);
    } else {
      m := ArmedByWatch(log[..j], p, i);
    }
  }

  lemma {:induction false} ArmedByWatch(log: seq<Event>, p: Pair, i: nat) returns (m: nat)
    requires Armed(log, p) && i < |log| && log[i].pair == p
    ensures i <= m < |log| && log[m] == Watched(p)
  {
    if log[|log| - 1].pair == p {
      m := |log| - 1;
    } else {
      m := ArmedByWatch(log[..|log| - 1], p, i);
    }
  }

  /** A notification in an arrived batch, and whether its watcher resolves here. */
  datatype Notice = Notice(pair: Pair, resolved: bool)

  function Pairs(ns: seq<Notice>): set<Pair> {
    set n | n in ns :: n.pair
  }

  lemma PairsSnoc(ns: seq<Notice>, n: Notice)
    ensures Pairs(ns + [n]) == Pairs(ns) + {n.pair}
  {
  }

  /** What a batch passes on: of each pair with an entry, the first notice. */
  function Passed(entries: set<Pair>, notices: seq<Notice>): seq<Event> {
    if notices == [] then [] else
    var before, n := notices[..|notices| - 1], notices[|notices| - 1];
    Passed(entries, before) +
      if n.pair in entries && n.pair !in Pairs(before) then [Fate(n)] else []
  }

  /** One more notice passes exactly if its pair still has its entry. */
  lemma PassOne(watches: map<Pair, nat>, before: seq<Notice>, n: Notice, log: seq<Event>)
    ensures var left := watches - Pairs(before);
      && watches - Pairs(before + [n]) == left - {n.pair}
      && log + Passed(watches.Keys, before + [n])
         == log + Passed(watches.Keys, before) + if n.pair in left then [Fate(n)] else []
  {
    PairsSnoc(before, n);
    assert (before + [n])[..|before|] == before;
  }

  function Fate(n: Notice): Event {
    if n.resolved then Notified(n.pair) else Lapsed(n.pair)
  }

  /** Exactly the watchers on a node, other than those still to come, have been told. */
  ghost predicate SettledSo(told: seq<Event>, watches: map<Pair, nat>, node: nat, todo: set<Pair>) {
    forall e :: e in told <==> e.Notified? && e.pair in watches && e.pair !in todo && watches[e.pair] == node
  }

  lemma SettleOne(told: seq<Event>, watches: map<Pair, nat>, node: nat, todo: set<Pair>, p: Pair)
    requires SettledSo(told, watches, node, todo) && p in todo && p in watches
    ensures SettledSo(if watches[p] == node then told + [Notified(p)] else told, watches, node, todo - {p})
  {
  }

  class Ledger {
    /** Each watched pair's node. */
    var watches: map<Pair, nat>
    var closed: bool
    var running: bool

    ghost var log: seq<Event>

    /** The ledger is exactly the armed pairs of a legal log. */
    ghost predicate Valid()
      reads this`watches, this`log
    {
      forall p :: Legal(log, p) && (p in watches <==> Armed(log, p))
    }

    constructor ()
      ensures Valid() && watches == map[] && log == []
    {
      watches, closed, running := map[], false, true;
      log := [];
    }

    method Watch(p: Pair, node: nat)
      requires Valid()
      modifies this`watches, this`log
      ensures Valid() && log == if closed then old(log) else old(log) + [Watched(p)]
      ensures watches == if closed then old(watches) else old(watches)[p := node]
    {
      if closed {
        return;
      }
      forall q { Snoc(log, Watched(p), q); }
      watches := watches[p := node];
      log := log + [Watched(p)];
    }

    method Unwatch(p: Pair)
      requires Valid()
      modifies this`watches, this`log
      ensures Valid() && log == if closed then old(log) else old(log) + [Unwatched(p)]
      ensures watches == if closed then old(watches) else old(watches) - {p}
    {
      if closed {
        return;
      }
      forall q { Snoc(log, Unwatched(p), q); }
      watches := watches - {p};
      log := log + [Unwatched(p)];
    }

    /** Uses up an entry, for a watcher that is here or gone. */
    method Consume(p: Pair, resolved: bool)
      requires Valid() && p in watches
      modifies this`watches, this`log
      ensures Valid() && watches == old(watches) - {p}
      ensures log == old(log) + [if resolved then Notified(p) else Lapsed(p)]
    {
      ghost var e := if resolved then Notified(p) else Lapsed(p);
      forall q { Snoc(log, e, q); }
      watches := watches - {p};
      log := log + [e];
    }

    /** An arrived notification, alone or in a batch, passes only by an entry of its own. */
    method OnNotice(n: Notice)
      requires Valid()
      modifies this`watches, this`log
      ensures Valid() && watches == old(watches) - {n.pair}
      ensures n.pair !in old(watches) ==> log == old(log)
      ensures n.pair in old(watches) && n.resolved ==> log == old(log) + [Notified(n.pair)]
      ensures n.pair in old(watches) && !n.resolved ==> log == old(log) + [Lapsed(n.pair)]
    {
      if n.pair in watches {
        Consume(n.pair, n.resolved);
      }
    }

    /** The notifications of a batch meet the same gate one after another: of each
        watched pair exactly the first notice passes. */
    method OnBatch(notices: seq<Notice>)
      requires Valid()
      modifies this`watches, this`log
      ensures Valid() && log == old(log) + Passed(old(watches).Keys, notices)
      ensures watches == old(watches) - Pairs(notices)
    {
      var i := 0;
      while i < |notices|
        invariant 0 <= i <= |notices| && Valid()
        invariant log == old(log) + Passed(old(watches).Keys, notices[..i])
        invariant watches == old(watches) - Pairs(notices[..i])
      {
        assert notices[..i + 1] == notices[..i] + [notices[i]];
        PassOne(old(watches), notices[..i], notices[i], old(log));
        OnNotice(notices[i]);
        i := i + 1;
      }
      assert notices[..i] == notices;
    }

    /** A lost carrier settles every watch on its node, unless the system is stopping:
        exactly the watchers on that node are notified. */
    method SettleNode(node: nat)
      requires Valid()
      modifies this`watches, this`log
      ensures Valid() && old(log) <= log
      ensures forall e :: e in log[|old(log)|..] <==>
                running && e.Notified? && e.pair in old(watches) && old(watches)[e.pair] == node
      ensures watches == if running then map p | p in old(watches) && old(watches)[p] != node :: old(watches)[p]
                         else old(watches)
    {
      if !running {
        return;
      }
      var todo := watches.Keys;
      ghost var told: seq<Event> := [];
      while todo != {}
        invariant Valid() && log == old(log) + told && todo <= old(watches).Keys
        invariant SettledSo(told, old(watches), node, todo)
        invariant watches == map p | p in old(watches) && (p in todo || old(watches)[p] != node) :: old(watches)[p]
      {
        var p :| p in todo;
        SettleOne(told, old(watches), node, todo, p);
        if watches[p] == node {
          Consume(p, true);
          told := told + [Notified(p)];
        }
        todo := todo - {p};
      }
      assert log[|old(log)|..] == told;
    }

    /** A watch frame that could not travel settles as the death it can no longer see. */
    method OnUndeliverable(p: Pair)
      requires Valid()
      modifies this`watches, this`log
      ensures Valid() && watches == if running then old(watches) - {p} else old(watches)
      ensures log == old(log) + if running && p in old(watches) then [Notified(p)] else []
    {
      if p in watches && running {
        Consume(p, true);
      }
    }
  }

  /** Whatever a ledger went through, it has notified a pair at most once per watch, and
      one watch fewer while the pair is armed. */
  lemma LedgerNotifiesOnce(l: Ledger, p: Pair)
    requires l.Valid()
    ensures Count(l.log, Notified(p)) + (if p in l.watches then 1 else 0) <= Count(l.log, Watched(p))
  {
    AtMostOncePerWatch(l.log, p);
  }
}
