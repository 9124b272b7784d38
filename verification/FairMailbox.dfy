/**
 The fair mailbox: one sub-queue per sender, drained round robin through an
 intrusively linked ring of the senders that have something pending.
 */
module FairMailbox {
  import opened Common

  /** The fairness key of a message, typically its sender's path. */
  datatype Key = Key(text: string)

  /* ---------- what the mailbox means ---------- */

  /** The senders in ring order, and what each has pending. */
  datatype Ring<M> = Ring(order: seq<Key>, queues: map<Key, seq<M>>)

  function Keys(order: seq<Key>): set<Key> {
    if order == [] then {} else {order[0]} + Keys(order[1..])
  }

  predicate EachOnce(order: seq<Key>) {
    order == [] || (order[0] !in Keys(order[1..]) && EachOnce(order[1..]))
  }

  /** Each sender with pending messages is in the ring exactly once, and no other
      sender is. */
  predicate WellFormed<M>(s: Ring<M>) {
    && EachOnce(s.order) && Keys(s.order) == s.queues.Keys
    && (forall k | k in s.queues :: s.queues[k] != [])
  }

  lemma {:induction false} KeysAppend(order: seq<Key>, key: Key)
    ensures Keys(order + [key]) == Keys(order) + {key}
    ensures EachOnce(order) && key !in Keys(order) ==> EachOnce(order + [key])
  {
    if order != [] {
      assert (order + [key])[1..] == order[1..] + [key];
      KeysAppend(order[1..], key);
    }
  }

  lemma {:induction false} KeysAt(order: seq<Key>, i: nat)
    requires i < |order|
    ensures order[i] in Keys(order)
  {
    if i > 0 { KeysAt(order[1..], i - 1); }
  }

  /** A message joins its sender's queue; a sender with nothing pending joins the
      ring last. */
  function Put<M>(s: Ring<M>, key: Key, m: M): Ring<M> {
    if key in s.queues then s.(queues := s.queues[key := s.queues[key] + [m]])
    else Ring(s.order + [key], s.queues[key := [m]])
  }

  /** The first sender gives one message and goes to the back, if it has more. */
  function Take<M>(s: Ring<M>): Ring<M>
    requires WellFormed(s) && s.order != []
  {
    var key := s.order[0];
    if |s.queues[key]| == 1 then Ring(s.order[1..], s.queues - {key})
    else Ring(s.order[1..] + [key], s.queues[key := s.queues[key][1..]])
  }

  lemma PutKeepsWellFormed<M>(s: Ring<M>, key: Key, m: M)
    requires WellFormed(s)
    ensures WellFormed(Put(s, key, m))
  {
    KeysAppend(s.order, key);
  }

  lemma TakeKeepsWellFormed<M>(s: Ring<M>)
    requires WellFormed(s) && s.order != []
    ensures WellFormed(Take(s))
  {
    KeysAppend(s.order[1..], s.order[0]);
  }

  /** How many messages are pending. */
  function Total<M>(order: seq<Key>, queues: map<Key, seq<M>>): nat
    requires Keys(order) <= queues.Keys
  {
    if order == [] then 0 else |queues[order[0]]| + Total(order[1..], queues)
  }

  lemma {:induction false} TotalFrame<M>(order: seq<Key>, q: map<Key, seq<M>>, q': map<Key, seq<M>>)
    requires Keys(order) <= q.Keys && Keys(order) <= q'.Keys
    requires forall k | k in Keys(order) :: q[k] == q'[k]
    ensures Total(order, q) == Total(order, q')
  {
    if order != [] { TotalFrame(order[1..], q, q'); }
  }

  lemma {:induction false} TotalAppend<M>(order: seq<Key>, key: Key, q: map<Key, seq<M>>)
    requires Keys(order) <= q.Keys && key in q
    ensures Keys(order + [key]) <= q.Keys
    ensures Total(order + [key], q) == Total(order, q) + |q[key]|
  {
    KeysAppend(order, key);
    if order == [] {
      assert (order + [key])[1..] == [];
    } else {
      assert (order + [key])[1..] == order[1..] + [key];
      TotalAppend(order[1..], key, q);
    }
  }

  lemma {:induction false} TotalGrows<M>(order: seq<Key>, q: map<Key, seq<M>>, key: Key, m: M)
    requires EachOnce(order) && key in Keys(order) && Keys(order) <= q.Keys
    ensures Total(order, q[key := q[key] + [m]]) == Total(order, q) + 1
  {
    var q' := q[key := q[key] + [m]];
    if order[0] == key {
      TotalFrame(order[1..], q, q');
    } else {
      TotalGrows(order[1..], q, key, m);
    }
  }

  function Size<M>(s: Ring<M>): nat
    requires WellFormed(s)
  {
    Total(s.order, s.queues)
  }

  lemma PutSize<M>(s: Ring<M>, key: Key, m: M)
    requires WellFormed(s)
    ensures WellFormed(Put(s, key, m)) && Size(Put(s, key, m)) == Size(s) + 1
  {
    PutKeepsWellFormed(s, key, m);
    if key in s.queues {
      TotalGrows(s.order, s.queues, key, m);
    } else {
      TotalFrame(s.order, s.queues, s.queues[key := [m]]);
      TotalAppend(s.order, key, s.queues[key := [m]]);
    }
  }

  lemma TakeSize<M>(s: Ring<M>)
    requires WellFormed(s) && s.order != []
    ensures WellFormed(Take(s)) && Size(Take(s)) == Size(s) - 1
  {
    TakeKeepsWellFormed(s);
    var t := Take(s);
    TotalFrame(s.order[1..], s.queues, t.queues);
    if |s.queues[s.order[0]]| > 1 { TotalAppend(s.order[1..], s.order[0], t.queues); }
  }

  /* ---------- every run is fair ---------- */

  datatype Op<M> = Enqueue(m: M) | Dequeue

  function Step<M>(s: Ring<M>, keyOf: M -> Key, op: Op<M>): (t: Ring<M>)
    requires WellFormed(s)
    ensures WellFormed(t)
  {
    match op
    case Enqueue(m) => PutKeepsWellFormed(s, keyOf(m), m); Put(s, keyOf(m), m)
    case Dequeue => if s.order == [] then s else TakeKeepsWellFormed(s); Take(s)
  }

  /** What one operation delivers. */
  function Out<M>(s: Ring<M>, op: Op<M>): seq<M>
    requires WellFormed(s)
  {
    if op.Dequeue? && s.order != [] then [s.queues[s.order[0]][0]] else []
  }

  function After<M>(s: Ring<M>, keyOf: M -> Key, ops: seq<Op<M>>): Ring<M>
    requires WellFormed(s)
    decreases |ops|
  {
    if ops == [] then s else After(Step(s, keyOf, ops[0]), keyOf, ops[1..])
  }

  /** The messages a run delivers, in order. */
  function Delivered<M>(s: Ring<M>, keyOf: M -> Key, ops: seq<Op<M>>): seq<M>
    requires WellFormed(s)
    decreases |ops|
  {
    if ops == [] then [] else Out(s, ops[0]) + Delivered(Step(s, keyOf, ops[0]), keyOf, ops[1..])
  }

  function Dequeues<M>(ops: seq<Op<M>>): nat {
    if ops == [] then 0 else (if ops[0].Dequeue? then 1 else 0) + Dequeues(ops[1..])
  }

  /** The messages of `ms` from one sender, in order. */
  function From<M>(ms: seq<M>, keyOf: M -> Key, key: Key): seq<M> {
    if ms == [] then [] else
    if keyOf(ms[0]) == key then [ms[0]] + From(ms[1..], keyOf, key) else From(ms[1..], keyOf, key)
  }

  /** The messages a run enqueues, in order. */
  function Sent<M>(ops: seq<Op<M>>): seq<M> {
    if ops == [] then [] else
    if ops[0].Enqueue? then [ops[0].m] + Sent(ops[1..]) else Sent(ops[1..])
  }

  function QueueOf<M>(s: Ring<M>, key: Key): seq<M> {
    if key in s.queues then s.queues[key] else []
  }

  /** Every queue holds only its own sender's messages. */
  predicate OwnMessages<M>(s: Ring<M>, keyOf: M -> Key) {
    forall k, j | k in s.queues && 0 <= j < |s.queues[k]| :: keyOf(s.queues[k][j]) == k
  }

  /** An enqueue leaves the head at every ring position as it was. */
  lemma PutKeepsHead<M>(s: Ring<M>, key: Key, m: M, r: nat)
    requires WellFormed(s) && r < |s.order|
    ensures var t := Put(s, key, m);
      && WellFormed(t) && r < |t.order| && t.order[r] in t.queues && s.order[r] in s.queues
      && t.queues[t.order[r]] != [] && t.queues[t.order[r]][0] == s.queues[s.order[r]][0]
  {
    KeysAt(s.order, r);
    PutKeepsWellFormed(s, key, m);
  }

  /** A dequeue moves every other head one position forward. */
  lemma TakeKeepsHead<M>(s: Ring<M>, r: nat)
    requires WellFormed(s) && 0 < r < |s.order|
    ensures var t := Take(s);
      && WellFormed(t) && r - 1 < |t.order| && t.order[r - 1] in t.queues && s.order[r] in s.queues
      && t.queues[t.order[r - 1]] == s.queues[s.order[r]]
  {
    KeysAt(s.order, r);
    KeysAt(s.order[1..], r - 1);
    TakeKeepsWellFormed(s);
  }

  /** The head message of the box at ring position `r` is the `r + 1`-th message
      delivered, whatever is enqueued meanwhile. */
  lemma {:induction false} RoundRobin<M>(s: Ring<M>, keyOf: M -> Key, ops: seq<Op<M>>, r: nat)
    requires WellFormed(s) && r < |s.order| && r < Dequeues(ops)
    ensures s.order[r] in s.queues
    ensures |Delivered(s, keyOf, ops)| > r && Delivered(s, keyOf, ops)[r] == s.queues[s.order[r]][0]
    decreases |ops|
  {
    KeysAt(s.order, r);
    if ops[0].Enqueue? {
      PutKeepsHead(s, keyOf(ops[0].m), ops[0].m, r);
      RoundRobin(Put(s, keyOf(ops[0].m), ops[0].m), keyOf, ops[1..], r);
    } else if r > 0 {
      TakeKeepsHead(s, r);
      RoundRobin(Take(s), keyOf, ops[1..], r - 1);
    }
  }

  lemma FromCons<M>(m: M, ms: seq<M>, keyOf: M -> Key, key: Key)
    ensures From([m] + ms, keyOf, key) == (if keyOf(m) == key then [m] else []) + From(ms, keyOf, key)
  {
    assert ([m] + ms)[1..] == ms;
  }

  lemma Shift<M>(x: seq<M>, a: seq<M>, b: seq<M>, c: seq<M>, d: seq<M>)
    requires a + b == c + d
    ensures (x + a) + b == (x + c) + d
  {
    assert (x + a) + b == x + (a + b);
    assert (x + c) + d == x + (c + d);
  }

  lemma EnqueueKeepsFifo<M>(s: Ring<M>, keyOf: M -> Key, m: M, key: Key, rest: seq<M>)
    ensures QueueOf(Put(s, keyOf(m), m), key) + From(rest, keyOf, key) == QueueOf(s, key) + From([m] + rest, keyOf, key)
  {
    FromCons(m, rest, keyOf, key);
    var q, f := QueueOf(s, key), From(rest, keyOf, key);
    assert (q + [m]) + f == q + ([m] + f);
    assert [] + f == f;
  }

  lemma DequeueKeepsFifo<M>(s: Ring<M>, keyOf: M -> Key, key: Key, rest: seq<M>, left: seq<M>, sent: seq<M>)
    requires WellFormed(s) && OwnMessages(s, keyOf) && s.order != []
    requires From(rest, keyOf, key) + left == QueueOf(Take(s), key) + sent
    ensures From([s.queues[s.order[0]][0]] + rest, keyOf, key) + left == QueueOf(s, key) + sent
  {
    var m := s.queues[s.order[0]][0];
    assert keyOf(m) == s.order[0];
    FromCons(m, rest, keyOf, key);
    var given := if s.order[0] == key then [m] else [];
    assert QueueOf(s, key) == given + QueueOf(Take(s), key);
    Shift(given, From(rest, keyOf, key), left, QueueOf(Take(s), key), sent);
  }

  /** A sender's messages come out in the order they went in: what a run delivers
      from a sender, followed by what it leaves pending, is what was pending
      followed by what the run enqueued. The sender's box may be dropped and
      recreated any number of times in between. */
  lemma {:induction false} FifoPerSender<M>(s: Ring<M>, keyOf: M -> Key, ops: seq<Op<M>>, key: Key)
    requires WellFormed(s) && OwnMessages(s, keyOf)
    ensures From(Delivered(s, keyOf, ops), keyOf, key) + QueueOf(After(s, keyOf, ops), key)
         == QueueOf(s, key) + From(Sent(ops), keyOf, key)
    decreases |ops|
  {
    if ops == [] {
      assert [] + QueueOf(s, key) == QueueOf(s, key) + [];
    } else {
      var t := Step(s, keyOf, ops[0]);
      FifoPerSender(t, keyOf, ops[1..], key);
      var rest := Delivered(t, keyOf, ops[1..]);
      if ops[0].Enqueue? {
        EnqueueKeepsFifo(s, keyOf, ops[0].m, key, Sent(ops[1..]));
        assert [] + rest == rest;
      } else if s.order == [] {
        assert [] + rest == rest;
      } else {
        DequeueKeepsFifo(s, keyOf, key, rest, QueueOf(After(t, keyOf, ops[1..]), key),
                         From(Sent(ops[1..]), keyOf, key));
      }
    }
  }

  /* ---------- the mailbox as the runtime keeps it ---------- */

  /** A sender's box. At most one box per key exists, so a link to a box is its key. */
  datatype SenderBox<M> = SenderBox(queue: seq<M>, nextActive: Option<Key>, active: bool)

  /** Following the links from `head` visits exactly `order`. */
  ghost predicate Chain<M>(senders: map<Key, SenderBox<M>>, head: Option<Key>, order: seq<Key>)
    decreases |order|
  {
    if order == [] then head == None else
    head == Some(order[0]) && order[0] in senders && Chain(senders, senders[order[0]].nextActive, order[1..])
  }

  /** Head, links and tail spell out `order`. */
  ghost predicate Linked<M>(senders: map<Key, SenderBox<M>>, head: Option<Key>, tail: Option<Key>, order: seq<Key>) {
    Chain(senders, head, order) && tail == if order == [] then None else Some(order[|order| - 1])
  }

  /** The boxes hold what is pending. */
  ghost predicate Filed<M>(senders: map<Key, SenderBox<M>>, queues: map<Key, seq<M>>) {
    && senders.Keys == queues.Keys
    && (forall k | k in senders :: senders[k].active && senders[k].queue == queues[k])
  }

  lemma {:induction false} ChainHolds<M>(senders: map<Key, SenderBox<M>>, head: Option<Key>, order: seq<Key>)
    requires Chain(senders, head, order)
    ensures Keys(order) <= senders.Keys
    decreases |order|
  {
    if order != [] { ChainHolds(senders, senders[order[0]].nextActive, order[1..]); }
  }

  lemma {:induction false} ChainFrame<M>(senders: map<Key, SenderBox<M>>, senders': map<Key, SenderBox<M>>,
                                         head: Option<Key>, order: seq<Key>)
    requires Chain(senders, head, order)
    requires forall k | k in Keys(order) && k in senders ::
               k in senders' && senders'[k].nextActive == senders[k].nextActive
    ensures Chain(senders', head, order)
    decreases |order|
  {
    if order != [] { ChainFrame(senders, senders', senders[order[0]].nextActive, order[1..]); }
  }

  /** Linking a box behind the last one extends the chain by it. */
  lemma {:induction false} ChainAppend<M>(senders: map<Key, SenderBox<M>>, senders': map<Key, SenderBox<M>>,
                                          head: Option<Key>, order: seq<Key>, key: Key)
    requires Chain(senders, head, order) && EachOnce(order) && order != [] && key !in Keys(order)
    requires key in senders' && senders'[key].nextActive == None
    requires order[|order| - 1] in senders' && senders'[order[|order| - 1]].nextActive == Some(key)
    requires forall k | k in Keys(order) && k in senders && k != order[|order| - 1] ::
               k in senders' && senders'[k].nextActive == senders[k].nextActive
    ensures Chain(senders', head, order + [key])
    decreases |order|
  {
    if |order| == 1 {
      assert (order + [key])[1..] == [key];
    } else {
      KeysAt(order[1..], |order| - 2);
      assert (order + [key])[1..] == order[1..] + [key];
      ChainAppend(senders, senders', senders[order[0]].nextActive, order[1..], key);
    }
  }

  lemma FiledPut<M>(senders: map<Key, SenderBox<M>>, senders': map<Key, SenderBox<M>>, s: Ring<M>, key: Key, m: M)
    requires Filed(senders, s.queues) && senders'.Keys == senders.Keys + {key}
    requires senders'[key].active
    requires senders'[key].queue == (if key in senders then senders[key].queue else []) + [m]
    requires forall k | k in senders && k != key ::
               senders'[k].queue == senders[k].queue && senders'[k].active == senders[k].active
    ensures Filed(senders', Put(s, key, m).queues)
  {
  }

  lemma FiledTake<M>(senders: map<Key, SenderBox<M>>, senders': map<Key, SenderBox<M>>, s: Ring<M>)
    requires WellFormed(s) && s.order != [] && Filed(senders, s.queues)
    requires senders'.Keys == if |s.queues[s.order[0]]| == 1 then senders.Keys - {s.order[0]} else senders.Keys
    requires s.order[0] in senders' ==>
               senders'[s.order[0]].active && senders'[s.order[0]].queue == senders[s.order[0]].queue[1..]
    requires forall k | k in senders && k != s.order[0] ::
               senders'[k].queue == senders[k].queue && senders'[k].active == senders[k].active
    ensures Filed(senders', Take(s).queues)
  {
  }

  class UnboundedFairMailbox<M> {
    const senderKeyOf: M -> Key
    var senders: map<Key, SenderBox<M>>
    var activeHead: Option<Key>
    var activeTail: Option<Key>
    var size: nat
    var disposed: bool

    /** What the boxes mean; its order is the linked ring, head first. */
    ghost var state: Ring<M>

    ghost predicate Valid()
      reads this
    {
      && WellFormed(state)
      && Linked(senders, activeHead, activeTail, state.order) && Filed(senders, state.queues)
      && size == Size(state)
    }

    constructor (senderKeyOf: M -> Key)
      ensures Valid() && state == Ring([], map[]) && !disposed && this.senderKeyOf == senderKeyOf
    {
      this.senderKeyOf := senderKeyOf;
      senders, activeHead, activeTail, size, disposed := map[], None, None, 0, false;
      state := Ring([], map[]);
    }

    method PushActive(key: Key, ghost order: seq<Key>)
      requires Linked(senders, activeHead, activeTail, order)
      requires EachOnce(order) && key in senders && key !in Keys(order)
      modifies this`senders, this`activeHead, this`activeTail
      ensures Linked(senders, activeHead, activeTail, order + [key])
      ensures senders.Keys == old(senders.Keys)
      ensures forall k | k in senders ::
                senders[k].queue == old(senders[k].queue) && senders[k].active == old(senders[k].active)
    {
      ChainHolds(senders, activeHead, order);
      senders := senders[key := senders[key].(nextActive := None)];
      if activeTail.None? {
        activeHead := Some(key);
        assert ([key])[1..] == [];
      } else {
        KeysAt(order, |order| - 1);
        senders := senders[activeTail.value := senders[activeTail.value].(nextActive := Some(key))];
        ChainAppend(old(senders), senders, activeHead, order, key);
      }
      activeTail := Some(key);
    }

    method PopActive(ghost order: seq<Key>) returns (key: Option<Key>)
      requires Linked(senders, activeHead, activeTail, order) && EachOnce(order)
      modifies this`senders, this`activeHead, this`activeTail
      ensures senders.Keys == old(senders.Keys)
      ensures forall k | k in senders ::
                senders[k].queue == old(senders[k].queue) && senders[k].active == old(senders[k].active)
      ensures order == [] ==> key == None && Linked(senders, activeHead, activeTail, order)
      ensures order != [] ==> key == Some(order[0]) && Linked(senders, activeHead, activeTail, order[1..])
    {
      key := activeHead;
      if key.None? {
        return;
      }
      activeHead := senders[key.value].nextActive;
      if activeHead.None? {
        activeTail := None;
      }
      senders := senders[key.value := senders[key.value].(nextActive := None)];
      ChainFrame(old(senders), senders, activeHead, order[1..]);
    }

    /** The message joins its sender's box, which is created and linked in if need be. */
    method Deliver(key: Key, msg: M)
      requires WellFormed(state) && Linked(senders, activeHead, activeTail, state.order) && Filed(senders, state.queues)
      modifies this`senders, this`activeHead, this`activeTail
      ensures Linked(senders, activeHead, activeTail, Put(state, key, msg).order)
      ensures Filed(senders, Put(state, key, msg).queues)
    {
      var box := if key in senders then senders[key] else SenderBox([], None, false);
      senders := senders[key := SenderBox(box.queue + [msg], box.nextActive, true)];
      ChainFrame(old(senders), senders, activeHead, state.order);
      if !box.active {
        PushActive(key, state.order);
      }
      FiledPut(old(senders), senders, state, key, msg);
    }

    method Enqueue(msg: M) returns (ok: bool)
      requires Valid()
      modifies this
      ensures Valid() && disposed == old(disposed) && ok == !disposed
      ensures state == if ok then Put(old(state), senderKeyOf(msg), msg) else old(state)
    {
      if disposed {
        return false;
      }
      var key := senderKeyOf(msg);
      Deliver(key, msg);
      size := size + 1;
      PutSize(state, key, msg);
      state := Put(state, key, msg);
      return true;
    }

    /** The box in front gives its oldest message, then leaves or goes to the back. */
    method Collect() returns (msg: Option<M>)
      requires WellFormed(state) && Linked(senders, activeHead, activeTail, state.order) && Filed(senders, state.queues)
      modifies this`senders, this`activeHead, this`activeTail
      ensures state.order == [] ==> msg == None
      ensures state.order != [] ==> msg == Some(state.queues[state.order[0]][0])
      ensures Linked(senders, activeHead, activeTail, if state.order == [] then [] else Take(state).order)
      ensures Filed(senders, if state.order == [] then state.queues else Take(state).queues)
    {
      var key := PopActive(state.order);
      if key.None? {
        return None;
      }
      var box := senders[key.value];
      msg := Some(box.queue[0]);
      ghost var was := senders;
      if |box.queue| == 1 {
        senders := senders - {key.value};
        ChainFrame(was, senders, activeHead, state.order[1..]);
      } else {
        senders := senders[key.value := box.(queue := box.queue[1..])];
        ChainFrame(was, senders, activeHead, state.order[1..]);
        PushActive(key.value, state.order[1..]);
      }
      FiledTake(old(senders), senders, state);
    }

    method Dequeue() returns (msg: Option<M>)
      requires Valid()
      modifies this
      ensures Valid() && disposed == old(disposed)
      ensures old(state.order) == [] ==> msg == None && state == old(state)
      ensures old(state.order) != [] ==>
                msg == Some(old(state.queues[state.order[0]][0])) && state == Take(old(state))
    {
      msg := Collect();
      if msg.Some? {
        size := size - 1;
        TakeSize(state);
        state := Take(state);
      }
    }

    method Dispose()
      requires Valid()
      modifies this
      ensures Valid() && disposed && state == Ring([], map[]) && size == 0
    {
      disposed := true;
      senders, activeHead, activeTail, size := map[], None, None, 0;
      state := Ring([], map[]);
    }
  }
}
