/**
 The priority mailboxes: a binary heap over the messages, with a parallel array of
 arrival numbers in the stable variants.
 */
module PriorityMailbox {
  import opened Common
  import opened Heap

  /** What an enqueue returns. */
  datatype Outcome = Accepted | Disposed | Full

  /** A queued message and its arrival number. */
  datatype Entry<M> = Entry(msg: M, arrival: nat)

  /* ---------- what the stable mailbox means: a sorted list ---------- */

  /** `a` outranks `b`; with `stable`, arrival breaks the ties. */
  predicate Outranks<M>(before: (M, M) -> bool, stable: bool, a: Entry<M>, b: Entry<M>) {
    before(a.msg, b.msg) || (stable && !before(b.msg, a.msg) && a.arrival < b.arrival)
  }

  function Order<M>(before: (M, M) -> bool, stable: bool): (Entry<M>, Entry<M>) -> bool {
    (a, b) => Outranks(before, stable, a, b)
  }

  lemma OrderIsWeak<M(!new)>(before: (M, M) -> bool, stable: bool)
    requires WeakOrder(before)
    ensures WeakOrder(Order(before, stable))
  {
    forall a: Entry<M>, b: Entry<M> ensures Asymmetric(Order(before, stable), a, b) {
      assert Asymmetric(before, a.msg, b.msg);
    }
    forall a: Entry<M>, b: Entry<M>, c: Entry<M> ensures Chained(Order(before, stable), a, b, c) {
      assert Chained(before, a.msg, b.msg, c.msg);
      assert Chained(before, b.msg, c.msg, a.msg);
      assert Chained(before, c.msg, a.msg, b.msg);
      assert Chained(before, c.msg, b.msg, a.msg);
    }
  }

  /** The list with a message put behind every message it does not outrank. */
  function Insert<M>(before: (M, M) -> bool, l: seq<M>, m: M): seq<M> {
    if l == [] then [m] else if before(m, l[0]) then [m] + l else [l[0]] + Insert(before, l[1..], m)
  }

  /** The messages of a list of entries. */
  function Messages<M>(l: seq<Entry<M>>): seq<M> {
    if l == [] then [] else [l[0].msg] + Messages(l[1..])
  }

  /** The same insertion, remembering arrivals. */
  function File<M>(before: (M, M) -> bool, l: seq<Entry<M>>, e: Entry<M>): (r: seq<Entry<M>>)
    ensures multiset(r) == multiset(l) + multiset{e}
  {
    if l == [] then [e] else if before(e.msg, l[0].msg) then [e] + l else
    assert l == [l[0]] + l[1..];
    [l[0]] + File(before, l[1..], e)
  }

  lemma {:induction false} FileInserts<M>(before: (M, M) -> bool, l: seq<Entry<M>>, e: Entry<M>)
    ensures Messages(File(before, l, e)) == Insert(before, Messages(l), e.msg)
  {
    if l != [] && !before(e.msg, l[0].msg) { FileInserts(before, l[1..], e); }
  }

  /** Sorted by priority, then by arrival. */
  ghost predicate Sorted<M>(before: (M, M) -> bool, l: seq<Entry<M>>) {
    forall i, j | 0 <= i < j < |l| :: Outranks(before, true, l[i], l[j])
  }

  /** Putting the latest arrival in its place keeps a list sorted by priority and arrival. */
  lemma {:induction false} FileKeepsSorted<M(!new)>(before: (M, M) -> bool, l: seq<Entry<M>>, e: Entry<M>)
    requires WeakOrder(before) && Sorted(before, l)
    requires forall i | 0 <= i < |l| :: l[i].arrival < e.arrival
    ensures Sorted(before, File(before, l, e))
  {
    if l == [] {
    } else if before(e.msg, l[0].msg) {
      forall j | 0 < j < |l| ensures Outranks(before, true, e, l[j]) {
        assert Outranks(before, true, l[0], l[j]);
        assert Chained(before, e.msg, l[j].msg, l[0].msg);
        assert Asymmetric(before, l[j].msg, l[0].msg);
      }
    } else {
      var rest := File(before, l[1..], e);
      FileKeepsSorted(before, l[1..], e);
      forall j | 0 <= j < |rest| ensures Outranks(before, true, l[0], rest[j]) {
        assert rest[j] in multiset(rest);
        assert multiset(rest) == multiset(l[1..]) + multiset{e};
        if rest[j] in l[1..] {
          var i :| 0 <= i < |l[1..]| && l[1..][i] == rest[j];
          assert l[i + 1] == rest[j];
        } else {
          assert rest[j] == e;
        }
      }
    }
  }

  lemma FileArrivals<M>(before: (M, M) -> bool, l: seq<Entry<M>>, e: Entry<M>)
    requires forall i | 0 <= i < |l| :: l[i].arrival < e.arrival
    ensures forall i | 0 <= i < |File(before, l, e)| :: File(before, l, e)[i].arrival <= e.arrival
  {
    if l != [] && !before(e.msg, l[0].msg) { FileArrivals(before, l[1..], e); }
  }

  /** The root of an ordered heap is a message no other outranks. */
  lemma TopUnbeaten<M(!new)>(before: (M, M) -> bool, stable: bool, h: seq<Entry<M>>)
    requires WeakOrder(before) && Ordered(Order(before, stable), h) && h != []
    ensures forall i | 0 <= i < |h| :: !Outranks(before, stable, h[i], h[0]) && !before(h[i].msg, h[0].msg)
  {
    OrderIsWeak(before, stable);
    forall i | 0 <= i < |h| ensures !Outranks(before, stable, h[i], h[0]) {
      RootIsFirst(Order(before, stable), h, i);
    }
  }

  /** The head of a sorted list is the only entry nothing outranks. */
  lemma HeadIsTop<M(!new)>(before: (M, M) -> bool, h: seq<Entry<M>>, l: seq<Entry<M>>)
    requires WeakOrder(before) && Sorted(before, l) && multiset(h) == multiset(l) && h != []
    requires forall i | 0 <= i < |h| :: !Outranks(before, true, h[i], h[0])
    ensures l != [] && l[0] == h[0] && multiset(l[1..]) == multiset(h) - multiset{h[0]}
  {
    assert h[0] in multiset(h) && h[0] in multiset(l);
    var j :| 0 <= j < |l| && l[j] == h[0];
    assert l[0] in multiset(l) && l[0] in multiset(h);
    var i :| 0 <= i < |h| && h[i] == l[0];
    if j != 0 { assert Outranks(before, true, l[0], l[j]); }
    assert l == [l[0]] + l[1..];
  }

  /** Taking the head off a sorted list leaves a sorted list of the rest. */
  lemma TakeHead<M(!new)>(before: (M, M) -> bool, h: seq<Entry<M>>, l: seq<Entry<M>>, bound: nat)
    requires WeakOrder(before) && Ordered(Order(before, true), h) && h != []
    requires Sorted(before, l) && multiset(h) == multiset(l) && forall i | 0 <= i < |l| :: l[i].arrival < bound
    ensures l != [] && Messages(l) == [h[0].msg] + Messages(l[1..])
    ensures multiset(l[1..]) == multiset(h) - multiset{h[0]} && Sorted(before, l[1..])
    ensures forall i | 0 <= i < |l[1..]| :: l[1..][i].arrival < bound
  {
    TopUnbeaten(before, true, h);
    HeadIsTop(before, h, l);
  }

  /* ---------- the heap as the mailboxes keep it ---------- */

  /** The two parallel arrays as one sequence of entries; without arrival numbers
      every arrival reads as zero. */
  ghost function Zip<M>(items: seq<M>, seqs: seq<nat>, stable: bool): (h: seq<Entry<M>>)
    requires stable ==> |seqs| == |items|
    ensures |h| == |items|
  {
    seq(|items|, i requires 0 <= i < |items| => Entry(items[i], if stable then seqs[i] else 0))
  }

  class PriorityMailbox<M(!new)> {
    const before: (M, M) -> bool
    const capacity: Option<nat>
    const stable: bool
    var items: seq<M>
    var seqs: seq<nat>
    var seqNo: nat
    var disposed: bool

    /** In the stable mailboxes, the queued messages sorted by priority and arrival. */
    ghost var queue: seq<Entry<M>>

    ghost predicate Shaped()
      reads this`items, this`seqs
    {
      if stable then |seqs| == |items| else seqs == []
    }

    ghost function View(): (h: seq<Entry<M>>)
      requires Shaped()
      reads this`items, this`seqs
    {
      Zip(items, seqs, stable)
    }

    /** The list the stable heap stands for. */
    ghost predicate Stands()
      requires Shaped()
      reads this`items, this`seqs, this`seqNo, this`queue
    {
      && multiset(queue) == multiset(View())
      && (forall i | 0 <= i < |queue| :: queue[i].arrival < seqNo)
      && Sorted(before, queue)
    }

    ghost predicate Valid()
      reads this
    {
      Shaped() && HeapOrdered() && (WeakOrder(before) && stable ==> Stands())
    }

    constructor (before: (M, M) -> bool, capacity: Option<nat>, stable: bool)
      ensures Valid() && items == [] && queue == [] && !disposed
      ensures this.before == before && this.capacity == capacity && this.stable == stable
    {
      this.before, this.capacity, this.stable := before, capacity, stable;
      items, seqs, seqNo, disposed := [], [], 0, false;
      queue := [];
    }

    /** Whether slot `i` outranks slot `j`. */
    method Less(i: nat, j: nat) returns (less: bool)
      requires Shaped() && i < |items| && j < |items|
      ensures less == Order(before, stable)(View()[i], View()[j])
    {
      var a, b := items[i], items[j];
      if before(a, b) {
        return true;
      }
      if !stable {
        return false;
      }
      if before(b, a) {
        return false;
      }
      return seqs[i] < seqs[j];
    }

    method SwapSlots(i: nat, j: nat)
      requires Shaped() && i < |items| && j < |items|
      modifies this`items, this`seqs
      ensures Shaped() && View() == Swap(old(View()), i, j) && multiset(items) == old(multiset(items))
    {
      items := items[i := items[j]][j := items[i]];
      if stable {
        seqs := seqs[i := seqs[j]][j := seqs[i]];
      }
    }

    method SiftUp(at: nat)
      requires Shaped() && at < |items|
      requires WeakOrder(before) ==> Hole(Order(before, stable), View(), at, true, false)
      modifies this`items, this`seqs
      ensures Shaped() && multiset(View()) == old(multiset(View())) && multiset(items) == old(multiset(items))
      ensures WeakOrder(before) ==> Ordered(Order(before, stable), View())
    {
      ghost var less := Order(before, stable);
      ghost var lawful := WeakOrder(before);
      if lawful { OrderIsWeak(before, stable); }
      var j := at;
      while j > 0
        invariant Shaped() && 0 <= j < |items| && multiset(View()) == old(multiset(View()))
        invariant multiset(items) == old(multiset(items))
        invariant lawful ==> Hole(less, View(), j, true, false)
      {
        var i := (j - 1) / 2;
        var outranks := Less(j, i);
        if !outranks {
          break;
        }
        if lawful { SiftUpStep(less, View(), j); }
        SwapSlots(i, j);
        j := i;
      }
      if lawful { SiftUpDone(less, View(), j); }
    }

    method SiftDown(at: nat)
      requires Shaped() && at < |items|
      requires WeakOrder(before) ==> Hole(Order(before, stable), View(), at, false, true)
      modifies this`items, this`seqs
      ensures Shaped() && multiset(View()) == old(multiset(View())) && multiset(items) == old(multiset(items))
      ensures WeakOrder(before) ==> Ordered(Order(before, stable), View())
    {
      ghost var less := Order(before, stable);
      ghost var lawful := WeakOrder(before);
      if lawful { OrderIsWeak(before, stable); }
      var i, n := at, |items|;
      while true
        invariant Shaped() && |items| == n && i < n && multiset(View()) == old(multiset(View()))
        invariant multiset(items) == old(multiset(items))
        invariant lawful ==> Hole(less, View(), i, false, true)
        decreases n - i
      {
        var left := 2 * i + 1;
        if left >= n {
          break;
        }
        var child, right := left, left + 1;
        if right < n {
          var second := Less(right, left);
          if second { child := right; }
        }
        if lawful { PickUpper(less, View(), i, child); }
        var outranked := Less(child, i);
        if !outranked {
          if lawful { NoChildOutranks(less, View(), i, child); }
          break;
        }
        if lawful { SiftDownStep(less, View(), i, child, false); }
        SwapSlots(i, child);
        i := child;
      }
      if lawful { SiftDownDone(less, View(), i, false); }
    }

    ghost predicate HeapOrdered()
      requires Shaped()
      reads this`items, this`seqs
    {
      WeakOrder(before) ==> Ordered(Order(before, stable), View())
    }

    /** The heap part of an enqueue: the new last slot is sifted up. */
    method Push(msg: M)
      requires Shaped() && HeapOrdered()
      modifies this`items, this`seqs, this`seqNo
      ensures Shaped() && HeapOrdered() && multiset(items) == old(multiset(items)) + multiset{msg}
      ensures multiset(View()) == old(multiset(View())) + multiset{Entry(msg, if stable then old(seqNo) else 0)}
      ensures seqNo == if stable then old(seqNo) + 1 else old(seqNo)
    {
      ghost var h, e := View(), Entry(msg, if stable then seqNo else 0);
      items := items + [msg];
      if stable {
        seqs, seqNo := seqs + [seqNo], seqNo + 1;
      }
      assert View() == h + [e];
      if WeakOrder(before) { PushOpensHole(Order(before, stable), h, e); }
      SiftUp(|items| - 1);
    }

    /** The last slot is popped and, unless it was the only one, written over the root. */
    method ReplaceTop()
      requires Shaped() && items != []
      modifies this`items, this`seqs
      ensures Shaped() && items == DropRoot(old(items)) && View() == DropRoot(old(View()))
    {
      var n := |items|;
      var last, lastSeq := items[n - 1], 0;
      items := items[..n - 1];
      if stable {
        lastSeq := seqs[n - 1];
        seqs := seqs[..n - 1];
      }
      if n > 1 {
        items := items[0 := last];
        if stable {
          seqs := seqs[0 := lastSeq];
        }
      }
    }

    /** The heap part of a dequeue: the last slot replaces the root and is sifted down. */
    method Pop() returns (top: M)
      requires Shaped() && HeapOrdered() && items != []
      modifies this`items, this`seqs
      ensures Shaped() && HeapOrdered() && top == old(items[0])
      ensures multiset(items) == old(multiset(items)) - multiset{top}
      ensures multiset(View()) == old(multiset(View())) - multiset{old(View())[0]}
      ensures WeakOrder(before) ==> forall i | 0 <= i < old(|items|) :: !before(old(items)[i], top)
    {
      top := items[0];
      ghost var h := View();
      assert forall i | 0 <= i < |h| :: h[i].msg == items[i];
      DropRootDrops(items);
      DropRootDrops(View());
      if WeakOrder(before) {
        OrderIsWeak(before, stable);
        DropRootOpensHole(Order(before, stable), View());
        TopUnbeaten(before, stable, h);
      }
      ReplaceTop();
      if |items| > 0 {
        SiftDown(0);
      }
    }

    /** A refused message changes nothing; an accepted one goes behind every queued
        message it does not outrank. */
    method Enqueue(msg: M) returns (outcome: Outcome)
      requires Valid()
      modifies this
      ensures Valid() && disposed == old(disposed)
      ensures outcome == if disposed then Disposed
                         else if capacity.Some? && old(|items|) >= capacity.value then Full else Accepted
      ensures outcome != Accepted ==> items == old(items) && queue == old(queue)
      ensures outcome == Accepted ==> multiset(items) == old(multiset(items)) + multiset{msg}
      ensures outcome == Accepted && stable && WeakOrder(before) ==>
                Messages(queue) == Insert(before, Messages(old(queue)), msg)
    {
      if disposed {
        return Disposed;
      }
      if capacity.Some? && |items| >= capacity.value {
        return Full;
      }
      Push(msg);
      if stable && WeakOrder(before) {
        ghost var e := Entry(msg, old(seqNo));
        FileKeepsSorted(before, queue, e);
        FileInserts(before, queue, e);
        FileArrivals(before, queue, e);
        queue := File(before, queue, e);
      }
      return Accepted;
    }

    /** The message taken is one no queued message outranks; in the stable mailboxes
        it is the head of the sorted list. */
    method Dequeue() returns (msg: Option<M>)
      requires Valid()
      modifies this
      ensures Valid() && disposed == old(disposed)
      ensures old(items) == [] ==> msg == None && items == old(items) && queue == old(queue)
      ensures old(items) != [] ==>
        && msg.Some? && msg.value in old(items)
        && multiset(items) == old(multiset(items)) - multiset{msg.value}
      ensures old(items) != [] && WeakOrder(before) ==>
                forall i | 0 <= i < old(|items|) :: !before(old(items)[i], msg.value)
      ensures old(items) != [] && stable && WeakOrder(before) ==>
                Messages(old(queue)) == [msg.value] + Messages(queue)
    {
      if |items| == 0 {
        return None;
      }
      ghost var h := View();
      var top := Pop();
      if WeakOrder(before) && stable {
        ShiftQueue(h);
      }
      return Some(top);
    }

    /** The sorted list gives up its head. */
    ghost method ShiftQueue(h: seq<Entry<M>>)
      requires Shaped() && WeakOrder(before) && Ordered(Order(before, true), h) && h != []
      requires multiset(View()) == multiset(h) - multiset{h[0]}
      requires Sorted(before, queue) && multiset(h) == multiset(queue)
      requires forall i | 0 <= i < |queue| :: queue[i].arrival < seqNo
      modifies this`queue
      ensures Stands() && Messages(old(queue)) == [h[0].msg] + Messages(queue)
    {
      TakeHead(before, h, queue, seqNo);
      queue := queue[1..];
    }

    method Dispose()
      requires Valid()
      modifies this
      ensures Valid() && disposed && items == [] && queue == []
    {
      disposed := true;
      items, seqs := [], [];
      queue := [];
    }
  }
}