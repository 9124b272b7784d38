/**
 One generation of pending asks: an intrusive doubly linked list threaded through
 the ask contexts themselves.
 */
module AskGenerations {
  import opened Common

  lemma WithoutDistinct<T>(s: seq<T>, k: nat)
    requires k < |s| && Distinct(s)
    ensures Distinct(Without(s, k)) && s[k] !in Without(s, k)
  {
  }

  datatype Link = Link(prev: AskContext?, next: AskContext?)

  predicate Next(i: int, j: int) {
    j == i + 1
  }

  /** The links and both ends spell out `items`. */
  ghost predicate Spelled(items: seq<AskContext>, links: seq<Link>, head: AskContext?, tail: AskContext?) {
    && |links| == |items|
    && (forall i, j {:trigger Next(i, j)} | Next(i, j) && 0 <= i && j < |items| ::
          links[i].next == items[j] && links[j].prev == items[i])
    && (|items| == 0 ==> head == null && tail == null)
    && (|items| > 0 ==>
          && head == items[0] && tail == items[|items| - 1]
          && links[0].prev == null && links[|items| - 1].next == null)
  }

  /** The links once the neighbours of the `k`-th context point past it. */
  ghost function Bridged(links: seq<Link>, k: nat): (r: seq<Link>)
    requires k < |links|
    ensures |r| == |links|
  {
    var l := if k > 0 then links[k - 1 := links[k - 1].(next := links[k].next)] else links;
    if k + 1 < |l| then l[k + 1 := l[k + 1].(prev := links[k].prev)] else l
  }

  /** Unlinking the `k`-th context spells out the others. */
  lemma BridgedSpells(items: seq<AskContext>, links: seq<Link>, head: AskContext?, tail: AskContext?, k: nat)
    requires Spelled(items, links, head, tail) && k < |items|
    ensures Spelled(Without(items, k), Without(Bridged(links, k), k),
                    if links[k].prev == null then links[k].next else head,
                    if links[k].next == null then links[k].prev else tail)
    ensures (k > 0 ==> links[k].prev == items[k - 1]) && (k == 0 ==> links[k].prev == null)
    ensures (k + 1 < |items| ==> links[k].next == items[k + 1]) && (k + 1 == |items| ==> links[k].next == null)
  {
    assert Next(k - 1, k) && Next(k, k + 1);
    var t, l := Without(items, k), Without(Bridged(links, k), k);
    forall i, j | Next(i, j) && 0 <= i && j < |t| ensures l[i].next == t[j] && l[j].prev == t[i] {
      assert Next(i + 1, j + 1);
    }
  }

  lemma AppendSpells(items: seq<AskContext>, links: seq<Link>, head: AskContext?, tail: AskContext?, c: AskContext)
    requires Spelled(items, links, head, tail)
    ensures var l := if items == [] then links else links[|items| - 1 := links[|items| - 1].(next := c)];
            Spelled(items + [c], l + [Link(tail, null)], if items == [] then c else head, c)
  {
  }

  /** An ask context's links into the generation that holds it. */
  class AskContext {
    var gen: AskGeneration?
    var prev: AskContext?
    var next: AskContext?

    constructor ()
      ensures gen == null && prev == null && next == null
    {
      gen, prev, next := null, null, null;
    }

    /** A context in no generation has nothing to leave. */
    method Unlink()
      requires gen != null ==> gen.Valid() && this in gen.items
      modifies gen, if gen == null then {} else set c | c in gen.items
      ensures gen == null
      ensures old(gen) != null ==>
                old(gen).Valid() && old(gen).items == Without(old(gen.items), Index(old(gen.items), this))
    {
      if gen != null {
        gen.Remove(this);
      }
    }
  }

  class AskGeneration {
    var head: AskContext?
    var tail: AskContext?

    /** The contexts from head to tail, and what their links read. */
    ghost var items: seq<AskContext>
    ghost var links: seq<Link>

    constructor ()
      ensures Valid() && items == []
    {
      head, tail, items, links := null, null, [], [];
    }

    ghost predicate Owned()
      reads this`items, items`gen
    {
      Distinct(items) && forall c | c in items :: c.gen == this
    }

    ghost predicate Mirrored()
      reads this`items, this`links, items`prev, items`next
    {
      |links| == |items| && forall i | 0 <= i < |items| :: links[i] == Link(items[i].prev, items[i].next)
    }

    /** Links in both directions, the two ends and the contexts' back pointers agree
        with `items`. */
    ghost predicate Valid()
      reads this, items`gen, items`prev, items`next
    {
      Owned() && Mirrored() && Spelled(items, links, head, tail)
    }

    /** Adds a context at the tail. */
    method Append(ctx: AskContext)
      requires Valid() && ctx.gen == null && ctx.prev == null && ctx.next == null
      modifies this, items`next, ctx`gen, ctx`prev
      ensures Valid() && items == old(items) + [ctx]
    {
      AppendSpells(items, links, head, tail, ctx);
      if tail == null {
        head := ctx;
      } else {
        ctx.prev := tail;
        tail.next := ctx;
        links := links[|items| - 1 := links[|items| - 1].(next := ctx)];
      }
      links := links + [Link(tail, null)];
      tail := ctx;
      ctx.gen := this;
      items := items + [ctx];
    }

    /** The context before the `k`-th, or the head, comes to point past it. */
    method PassForward(c: AskContext, ghost k: nat)
      requires Distinct(items) && Mirrored() && k < |items| && items[k] == c
      requires if k > 0 then c.prev == items[k - 1] else c.prev == null
      modifies this`head, this`links, items`next
      ensures Mirrored() && links == if k > 0 then old(links)[k - 1 := Link(old(links)[k - 1].prev, old(links)[k].next)]
                                     else old(links)
      ensures head == if k > 0 then old(head) else old(links)[k].next
    {
      if c.prev != null {
        c.prev.next := c.next;
        links := links[k - 1 := Link(links[k - 1].prev, links[k].next)];
      } else {
        head := c.next;
      }
    }

    /** The context after the `k`-th, or the tail, comes to point before it. */
    method PassBack(c: AskContext, ghost k: nat)
      requires Distinct(items) && Mirrored() && k < |items| && items[k] == c
      requires if k + 1 < |items| then c.next == items[k + 1] else c.next == null
      modifies this`tail, this`links, items`prev
      ensures Mirrored()
      ensures links == if k + 1 < |items| then old(links)[k + 1 := Link(old(links)[k].prev, old(links)[k + 1].next)]
                       else old(links)
      ensures tail == if k + 1 < |items| then old(tail) else old(links)[k].prev
    {
      if c.next != null {
        c.next.prev := c.prev;
        links := links[k + 1 := Link(links[k].prev, links[k + 1].next)];
      } else {
        tail := c.prev;
      }
    }

    /** The links come to spell out the list without the `k`-th context. */
    method Bridge(c: AskContext, ghost k: nat)
      requires Valid() && k < |items| && items[k] == c
      modifies this`head, this`tail, this`links, items`prev, items`next
      ensures Owned() && Mirrored() && k < |links|
      ensures Spelled(Without(items, k), Without(links, k), head, tail)
    {
      BridgedSpells(items, links, head, tail, k);
      PassForward(c, k);
      PassBack(c, k);
    }

    /** Drops a bridged context from the list and clears its links. */
    method Cut(c: AskContext, ghost k: nat)
      requires Owned() && Mirrored() && k < |items| && items[k] == c
      modifies this`items, this`links, c`gen, c`prev, c`next
      ensures Owned() && Mirrored() && c.gen == null && c.prev == null && c.next == null
      ensures items == Without(old(items), k) && links == Without(old(links), k)
    {
      WithoutDistinct(items, k);
      c.gen, c.prev, c.next := null, null, null;
      items, links := Without(items, k), Without(links, k);
    }

    /** Takes a context out of the list, in constant time. */
    method Remove(c: AskContext)
      requires Valid() && c in items
      modifies this, items`gen, items`prev, items`next
      ensures Valid() && c.gen == null && c.prev == null && c.next == null
      ensures items == Without(old(items), Index(old(items), c))
    {
      ghost var k := Index(items, c);
      Bridge(c, k);
      Cut(c, k);
    }
  }
}
