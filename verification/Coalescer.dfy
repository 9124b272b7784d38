/**
 The tell coalescer: per-pair batches behind a one-entry memo, two caps, a scheduled
 flush, and a fence that empties a node's batches before an ask leaves for it.

 A `Path` or `Pid` is an object with a text; the memo compares objects, the pair key
 compares texts and the node. `route` says which node a path object leads to: one path
 object always goes to one node. A batch stands for the tells it holds; `BatchCodec`
 shows that its envelope delivers exactly them. The caps are read off two arbitrary
 measures, the size of a tell's payload and the size of a batch's stream.
 */
module Coalescer {
  import opened Common

  datatype Path = Path(object: nat, text: nat)
  datatype Pid = Pid(object: nat, text: nat)

  /** A sender-receiver pair on one node. */
  datatype Key = Key(node: nat, to: nat, sender: Option<nat>)

  function KeyOf(route: Path -> nat, to: Path, sender: Option<Pid>): Key {
    Key(route(to), to.text, if sender.None? then None else Some(sender.value.text))
  }

  /** Two tells share a key exactly when they go to the same receiver on the same node and
      come from the same sender, or both from none. */
  lemma SameKeySamePair(route: Path -> nat, a: Path, s: Option<Pid>, b: Path, t: Option<Pid>)
    ensures KeyOf(route, a, s) == KeyOf(route, b, t) <==>
      && route(a) == route(b) && a.text == b.text
      && s.Some? == t.Some? && (s.Some? && t.Some? ==> s.value.text == t.value.text)
  {
  }

  /** A tell as its caller made it. */
  datatype Told<E> = Told(to: Path, sender: Option<Pid>, tell: E)

  /** The tell goes to the pair's receiver on the pair's node, and comes from its sender. */
  predicate Addresses<E>(route: Path -> nat, t: Told<E>, k: Key) {
    && route(t.to) == k.node && t.to.text == k.to
    && (if t.sender.None? then k.sender.None? else k.sender == Some(t.sender.value.text))
  }

  /** The tells from one sender to one receiver on one node, in the order they were made. */
  function Addressed<E>(route: Path -> nat, told: seq<Told<E>>, k: Key): seq<E> {
    if told == [] then [] else
    var last := told[|told| - 1];
    Addressed(route, told[..|told| - 1], k) + if Addresses(route, last, k) then [last.tell] else []
  }

  lemma AddressedSnoc<E>(route: Path -> nat, told: seq<Told<E>>, t: Told<E>, k: Key)
    ensures Addressed(route, told + [t], k)
         == Addressed(route, told, k) + if k == KeyOf(route, t.to, t.sender) then [t.tell] else []
  {
    assert (told + [t])[..|told|] == told;
  }

  /** What was accepted from each pair is what was told from its sender to its receiver. */
  ghost predicate Recalls<E>(route: Path -> nat, accepted: map<Key, seq<E>>, told: seq<Told<E>>) {
    forall k :: Of(accepted, k) == Addressed(route, told, k)
  }

  lemma RecallsNext<E>(route: Path -> nat, accepted: map<Key, seq<E>>, told: seq<Told<E>>, t: Told<E>)
    requires Recalls(route, accepted, told)
    ensures var k := KeyOf(route, t.to, t.sender);
            Recalls(route, accepted[k := Of(accepted, k) + [t.tell]], told + [t])
  {
    var key := KeyOf(route, t.to, t.sender);
    forall k ensures Of(accepted[key := Of(accepted, key) + [t.tell]], k) == Addressed(route, told + [t], k) {
      AddressedSnoc(route, told, t, k);
    }
  }

  /** A batch of one pair; `flushed` once it has been emitted. */
  datatype Pending<E> = Pending(key: Key, entries: seq<E>, flushed: bool)

  datatype Memo = Memo(to: Path, sender: Option<Pid>, batch: nat)

  /** What the carriers were given, in order: the tells of one envelope, or an ask. */
  datatype Sent<E> = Tells(key: Key, entries: seq<E>) | Ask(node: nat, id: nat)

  /** Batches by number, the pair map, and the carriers' input. */
  datatype State<E> = State(batches: map<nat, Pending<E>>, pending: map<Key, nat>, carrier: seq<Sent<E>>)

  function CarriedFor<E>(s: Sent<E>, k: Key): seq<E> {
    if s.Tells? && s.key == k then s.entries else []
  }

  /** The tells of one pair that have left, in order. */
  function Emitted<E>(carrier: seq<Sent<E>>, k: Key): seq<E> {
    if carrier == [] then [] else
    Emitted(carrier[..|carrier| - 1], k) + CarriedFor(carrier[|carrier| - 1], k)
  }

  lemma EmittedSnoc<E>(carrier: seq<Sent<E>>, s: Sent<E>, k: Key)
    ensures Emitted(carrier + [s], k) == Emitted(carrier, k) + CarriedFor(s, k)
  {
    assert (carrier + [s])[..|carrier|] == carrier;
  }

  /** The tells of one pair that are still buffered. */
  function Buffered<E>(s: State<E>, k: Key): seq<E> {
    if k in s.pending && s.pending[k] in s.batches then s.batches[s.pending[k]].entries else []
  }

  /** What left, followed by what is buffered. */
  function Total<E>(s: State<E>, k: Key): seq<E> {
    Emitted(s.carrier, k) + Buffered(s, k)
  }

  /** A pair's pending batch is its own, not flushed, and holds at least one tell. */
  predicate PairOk<E>(s: State<E>, k: Key)
    requires k in s.pending
  {
    && s.pending[k] in s.batches
    && var b := s.batches[s.pending[k]];
       b.key == k && !b.flushed && b.entries != []
  }

  /** A batch not yet flushed is its pair's. */
  predicate BatchOk<E>(s: State<E>, id: nat)
    requires id in s.batches
  {
    s.batches[id].flushed || (s.batches[id].key in s.pending && s.pending[s.batches[id].key] == id)
  }

  predicate Kept<E>(s: State<E>) {
    && (forall k | k in s.pending :: PairOk(s, k))
    && (forall id | id in s.batches :: BatchOk(s, id))
  }

  /** A buffered batch is below both caps. */
  predicate Capped<E>(s: State<E>, size: seq<E> -> nat) {
    forall k | k in s.pending && s.pending[k] in s.batches ::
      |s.batches[s.pending[k]].entries| < BATCH_MAX_ENTRIES && size(s.batches[s.pending[k]].entries) < BATCH_MAX_BYTES
  }

  /** Every payload is below the byte cap. */
  predicate Light<E>(es: seq<E>, weight: E -> nat) {
    forall i | 0 <= i < |es| :: weight(es[i]) < BATCH_MAX_BYTES
  }

  /** What one envelope may carry: one tell of any size, or up to the entry cap of
      tells below the byte cap. */
  predicate Deliverable<E>(es: seq<E>, weight: E -> nat) {
    1 <= |es| <= BATCH_MAX_ENTRIES && (|es| > 1 ==> Light(es, weight))
  }

  /** Buffered tells are light, and every envelope given to the carriers can be delivered. */
  predicate Clean<E>(s: State<E>, weight: E -> nat) {
    && (forall k | k in s.pending && s.pending[k] in s.batches :: Light(s.batches[s.pending[k]].entries, weight))
    && (forall i | 0 <= i < |s.carrier| && s.carrier[i].Tells? :: Deliverable(s.carrier[i].entries, weight))
  }

  /** A tell joins a batch, which becomes its pair's. */
  function Added<E>(s: State<E>, id: nat, k: Key, e: E): State<E> {
    var before := if id in s.batches then s.batches[id].entries else [];
    s.(batches := s.batches[id := Pending(k, before + [e], false)], pending := s.pending[k := id])
  }

  /** The batch a tell may join: its pair's, or a new one when the pair has none. */
  predicate Joins<E>(s: State<E>, id: nat, k: Key) {
    if k in s.pending then id == s.pending[k] else id !in s.batches
  }

  lemma AddKeeps<E>(s: State<E>, id: nat, k: Key, e: E)
    requires Kept(s) && Joins(s, id, k)
    ensures Kept(Added(s, id, k, e))
  {
    var t := Added(s, id, k, e);
    forall j | j in t.pending ensures PairOk(t, j) { if j != k { assert PairOk(s, j); } }
    forall i | i in t.batches ensures BatchOk(t, i) { if i != id { assert BatchOk(s, i); } }
  }

  lemma AddClean<E>(s: State<E>, id: nat, k: Key, e: E, weight: E -> nat)
    requires Kept(s) && Clean(s, weight) && Joins(s, id, k) && weight(e) < BATCH_MAX_BYTES
    ensures Clean(Added(s, id, k, e), weight)
  {
    var t := Added(s, id, k, e);
    if k in s.pending { assert PairOk(s, k); }
    forall j | j in t.pending && t.pending[j] in t.batches ensures Light(t.batches[t.pending[j]].entries, weight) {
      if j != k { assert PairOk(s, j); }
    }
  }

  lemma AddTotal<E>(s: State<E>, id: nat, k: Key, e: E, j: Key)
    requires Kept(s) && Joins(s, id, k)
    ensures Total(Added(s, id, k, e), j) == Total(s, j) + if j == k then [e] else []
  {
    var t := Added(s, id, k, e);
    if k in s.pending { assert PairOk(s, k); }
    if j in s.pending { assert PairOk(s, j); }
    if j == k {
      assert Buffered(t, j) == Buffered(s, j) + [e];
      assert Emitted(s.carrier, j) + (Buffered(s, j) + [e]) == (Emitted(s.carrier, j) + Buffered(s, j)) + [e];
    }
  }

  /** A pair's batch leaves. */
  function Emit<E>(s: State<E>, k: Key): State<E>
    requires k in s.pending && s.pending[k] in s.batches
  {
    var id := s.pending[k];
    State(s.batches[id := s.batches[id].(flushed := true)], s.pending - {k},
          s.carrier + [Tells(k, s.batches[id].entries)])
  }

  lemma EmitKeeps<E>(s: State<E>, k: Key)
    requires Kept(s) && k in s.pending
    ensures s.pending[k] in s.batches && Kept(Emit(s, k))
  {
    assert PairOk(s, k);
    var t := Emit(s, k);
    forall j | j in t.pending ensures PairOk(t, j) { assert PairOk(s, j); }
    forall id | id in t.batches ensures BatchOk(t, id) { assert BatchOk(s, id); }
  }

  lemma EmitClean<E>(s: State<E>, k: Key, weight: E -> nat)
    requires Kept(s) && Clean(s, weight) && k in s.pending && s.pending[k] in s.batches
    requires |s.batches[s.pending[k]].entries| <= BATCH_MAX_ENTRIES
    ensures Clean(Emit(s, k), weight)
  {
    assert PairOk(s, k);
  }

  lemma EmitTotal<E>(s: State<E>, k: Key, j: Key)
    requires k in s.pending && s.pending[k] in s.batches
    ensures Total(Emit(s, k), j) == Total(s, j)
  {
    var b := s.batches[s.pending[k]].entries;
    EmittedSnoc(s.carrier, Tells(k, b), j);
    if j == k { assert (Emitted(s.carrier, j) + b) + [] == Emitted(s.carrier, j) + b; }
  }

  /** Something goes straight to the carriers. */
  function Sending<E>(s: State<E>, x: Sent<E>): State<E> {
    s.(carrier := s.carrier + [x])
  }

  lemma SendKeeps<E>(s: State<E>, x: Sent<E>)
    requires Kept(s)
    ensures Kept(Sending(s, x))
  {
    forall k | k in s.pending ensures PairOk(Sending(s, x), k) { assert PairOk(s, k); }
    forall id | id in s.batches ensures BatchOk(Sending(s, x), id) { assert BatchOk(s, id); }
  }

  /** Sent past an empty buffer, a tell extends what its pair has sent. */
  lemma SendTotal<E>(s: State<E>, x: Sent<E>, j: Key)
    requires x.Tells? ==> x.key !in s.pending
    ensures Total(Sending(s, x), j) == Total(s, j) + CarriedFor(x, j)
  {
    EmittedSnoc(s.carrier, x, j);
    if CarriedFor(x, j) == [] {
      assert Emitted(s.carrier, j) + [] == Emitted(s.carrier, j);
      assert Total(s, j) + [] == Total(s, j);
    } else {
      assert Buffered(s, j) == [];
      assert (Emitted(s.carrier, j) + CarriedFor(x, j)) + [] == (Emitted(s.carrier, j) + []) + CarriedFor(x, j);
    }
  }

  lemma AskTotal<E>(s: State<E>, node: nat, id: nat, j: Key)
    ensures Total(Sending(s, Ask(node, id)), j) == Total(s, j)
  {
    SendTotal(s, Ask(node, id), j);
    assert Total(s, j) + [] == Total(s, j);
  }

  /** A pair with nothing buffered has sent all its tells. */
  lemma DrainedTotal<E>(s: State<E>, k: Key)
    requires k !in s.pending
    ensures Emitted(s.carrier, k) == Total(s, k)
  {
    assert Emitted(s.carrier, k) + [] == Emitted(s.carrier, k);
  }

  function Of<E>(m: map<Key, seq<E>>, k: Key): seq<E> {
    if k in m then m[k] else []
  }

  class Coalescer<E> {
    const route: Path -> nat
    const weight: E -> nat
    const size: seq<E> -> nat

    var state: State<E>
    var made: nat
    var memo: Option<Memo>
    var scheduled: bool

    /** The tells accepted from each pair, in order. */
    ghost var accepted: map<Key, seq<E>>

    /** The tells that were made, in order. */
    ghost var told: seq<Told<E>>

    ghost predicate Remembered()
      reads this`accepted, this`told
    {
      Recalls(route, accepted, told)
    }

    /** What left followed by what is buffered is what was accepted, for every pair. */
    ghost predicate Complete()
      reads this`state, this`accepted
    {
      forall k :: Total(state, k) == Of(accepted, k)
    }

    /** The memo names a batch of the pair it stands for. */
    ghost predicate Memoized()
      reads this`memo, this`state, this`made
    {
      && (forall id | id in state.batches :: id < made)
      && (memo.Some? ==>
            && memo.value.batch in state.batches
            && state.batches[memo.value.batch].key == KeyOf(route, memo.value.to, memo.value.sender))
    }

    ghost predicate Sound()
      reads this`state, this`accepted, this`memo, this`made
    {
      Kept(state) && Complete() && Memoized() && Clean(state, weight)
    }

    ghost predicate Valid()
      reads this`state, this`accepted, this`memo, this`made, this`scheduled
    {
      Sound() && Capped(state, size) && (state.pending != map[] ==> scheduled)
    }

    constructor (route: Path -> nat, weight: E -> nat, size: seq<E> -> nat)
      ensures Valid() && Remembered() && state == State(map[], map[], []) && accepted == map[] && told == []
      ensures this.route == route && this.weight == weight && this.size == size
    {
      this.route, this.weight, this.size := route, weight, size;
      state, made, memo, scheduled := State(map[], map[], []), 0, None, false;
      accepted, told := map[], [];
    }

    /** The memoized batch, unless it has left, is the one the pair map holds. */
    lemma MemoIsPending()
      requires Sound() && memo.Some? && !state.batches[memo.value.batch].flushed
      ensures var k := KeyOf(route, memo.value.to, memo.value.sender);
              k in state.pending && state.pending[k] == memo.value.batch
    {
      assert BatchOk(state, memo.value.batch);
    }

    /** Removes a pair's batch from the map and emits it. */
    method EmitPair(k: Key)
      requires Sound() && k in state.pending
      requires state.pending[k] in state.batches ==> |state.batches[state.pending[k]].entries| <= BATCH_MAX_ENTRIES
      modifies this`state
      ensures Sound() && state.pending == old(state).pending - {k} && old(state).carrier <= state.carrier
      ensures old(state).pending[k] in old(state).batches && state == Emit(old(state), k)
      ensures Capped(old(state), size) ==> Capped(state, size)
    {
      EmitKeeps(state, k);
      EmitClean(state, k, weight);
      forall j ensures Total(Emit(state, k), j) == Total(state, j) { EmitTotal(state, k, j); }
      state := Emit(state, k);
    }

    /** A tell goes straight to the carriers when its pair has nothing buffered. */
    method SendNow(k: Key, e: E)
      requires Sound() && k !in state.pending
      modifies this`state, this`accepted
      ensures Sound() && accepted == old(accepted)[k := Of(old(accepted), k) + [e]]
      ensures state == Sending(old(state), Tells(k, [e]))
    {
      SendKeeps(state, Tells(k, [e]));
      forall j ensures Total(Sending(state, Tells(k, [e])), j) == Total(state, j) + CarriedFor(Tells(k, [e]), j) {
        SendTotal(state, Tells(k, [e]), j);
      }
      assert forall j :: Of(accepted[k := Of(accepted, k) + [e]], j) == Of(accepted, j) + CarriedFor(Tells(k, [e]), j);
      state := Sending(state, Tells(k, [e]));
      accepted := accepted[k := Of(accepted, k) + [e]];
    }

    /** A tell at the byte cap goes alone, after whatever its pair has buffered. */
    method SendAlone(k: Key, e: E)
      requires Valid()
      modifies this`state, this`accepted
      ensures Valid() && accepted == old(accepted)[k := Of(old(accepted), k) + [e]]
      ensures old(state).carrier <= state.carrier && k !in state.pending
    {
      if k in state.pending {
        EmitPair(k);
      }
      SendNow(k, e);
    }

    /** The batch a tell joins, through the memo of the previous tell or the pair map. */
    method FindBatch(to: Path, sender: Option<Pid>) returns (id: nat)
      requires Valid()
      ensures Joins(state, id, KeyOf(route, to, sender)) && id <= made
      ensures id in state.batches ==> state.batches[id].key == KeyOf(route, to, sender)
    {
      if memo.Some? && memo.value.to == to && memo.value.sender == sender && !state.batches[memo.value.batch].flushed {
        MemoIsPending();
        return memo.value.batch;
      }
      var k := KeyOf(route, to, sender);
      if k in state.pending {
        assert PairOk(state, k);
        return state.pending[k];
      }
      return made;
    }

    /** A tell joins its pair's batch; the memo remembers it. */
    method Join(to: Path, sender: Option<Pid>, id: nat, e: E)
      requires Sound() && Joins(state, id, KeyOf(route, to, sender)) && id <= made && weight(e) < BATCH_MAX_BYTES
      modifies this`state, this`made, this`memo, this`accepted
      ensures Sound() && state == Added(old(state), id, KeyOf(route, to, sender), e)
      ensures accepted == old(accepted)[KeyOf(route, to, sender) := Of(old(accepted), KeyOf(route, to, sender)) + [e]]
    {
      ghost var k := KeyOf(route, to, sender);
      AddKeeps(state, id, k, e);
      AddClean(state, id, k, e, weight);
      forall j ensures Total(Added(state, id, k, e), j) == Total(state, j) + if j == k then [e] else [] {
        AddTotal(state, id, k, e, j);
      }
      assert forall j :: Of(accepted[k := Of(accepted, k) + [e]], j) == Of(accepted, j) + if j == k then [e] else [];
      state := Added(state, id, KeyOf(route, to, sender), e);
      if id == made {
        made := made + 1;
      }
      memo := Some(Memo(to, sender, id));
      accepted := accepted[k := Of(accepted, k) + [e]];
    }

    /** Admits one tell: it joins its pair's batch, which leaves at once when it reaches
        a cap and is otherwise certain of a flush. */
    method Admit(to: Path, sender: Option<Pid>, e: E)
      requires Valid()
      modifies this`state, this`made, this`memo, this`scheduled, this`accepted
      ensures Valid() && old(state).carrier <= state.carrier
      ensures accepted == old(accepted)[KeyOf(route, to, sender) := Of(old(accepted), KeyOf(route, to, sender)) + [e]]
    {
      if weight(e) >= BATCH_MAX_BYTES {
        SendAlone(KeyOf(route, to, sender), e);
        return;
      }
      var id := FindBatch(to, sender);
      Join(to, sender, id, e);
      var b := state.batches[id];
      if |b.entries| >= BATCH_MAX_ENTRIES || size(b.entries) >= BATCH_MAX_BYTES {
        EmitPair(b.key);
        return;
      }
      scheduled := true;
    }

    /** Buffers one tell, and remembers that it was made. */
    method BufferTell(to: Path, sender: Option<Pid>, e: E)
      requires Valid()
      modifies this
      ensures Valid() && old(state).carrier <= state.carrier
      ensures accepted == old(accepted)[KeyOf(route, to, sender) := Of(old(accepted), KeyOf(route, to, sender)) + [e]]
      ensures told == old(told) + [Told(to, sender, e)] && (old(Remembered()) ==> Remembered())
    {
      Admit(to, sender, e);
      if Recalls(route, old(accepted), told) { RecallsNext(route, old(accepted), told, Told(to, sender, e)); }
      told := told + [Told(to, sender, e)];
    }

    /** Emits every pending batch, or only those bound for one node. */
    method FlushTells(node: Option<nat>)
      requires Valid()
      modifies this`state
      ensures Valid() && old(state).carrier <= state.carrier
      ensures forall k | k in state.pending :: k in old(state).pending && node.Some? && k.node != node.value
    {
      var keys := state.pending.Keys;
      while keys != {}
        invariant Sound() && Capped(state, size) && old(state).carrier <= state.carrier
        invariant state.pending.Keys <= old(state).pending.Keys && keys <= state.pending.Keys
        invariant forall k | k in state.pending && k !in keys :: node.Some? && k.node != node.value
      {
        var k :| k in keys;
        keys := keys - {k};
        if node.None? || k.node == node.value {
          EmitPair(k);
        }
      }
    }

    /** The scheduled flush runs: nothing stays buffered, and nothing is scheduled. */
    method RunFlush()
      requires Valid()
      modifies this`state, this`scheduled
      ensures Valid() && state.pending == map[] && !scheduled && old(state).carrier <= state.carrier
      ensures forall k :: Emitted(state.carrier, k) == Of(accepted, k)
    {
      FlushTells(None);
      assert state.pending == map[];
      scheduled := false;
      forall k ensures Emitted(state.carrier, k) == Of(accepted, k) { DrainedTotal(state, k); }
    }

    /** An ask leaves for its node only when every tell accepted for that node has left
        before it. */
    method SendAsk(node: nat, id: nat)
      requires Valid()
      modifies this`state
      ensures Valid() && forall k | k in state.pending :: k.node != node
      ensures |state.carrier| > 0 && state.carrier[|state.carrier| - 1] == Ask(node, id)
      ensures old(state).carrier <= state.carrier[..|state.carrier| - 1]
      ensures forall k: Key | k.node == node ::
                Emitted(state.carrier[..|state.carrier| - 1], k) == Of(accepted, k)
    {
      FlushTells(Some(node));
      ghost var carrier := state.carrier;
      forall k: Key | k.node == node ensures Emitted(carrier, k) == Of(accepted, k) { DrainedTotal(state, k); }
      SendKeeps(state, Ask(node, id));
      forall j ensures Total(Sending(state, Ask(node, id)), j) == Total(state, j) { AskTotal(state, node, id, j); }
      state := Sending(state, Ask(node, id));
      assert state.carrier[..|state.carrier| - 1] == carrier;
    }
  }
}
