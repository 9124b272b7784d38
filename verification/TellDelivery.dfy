/**
 The tell coalescer over the wire: what the receiver recovers from the envelopes
 of one pair is what the pair's senders were promised.
 */
module TellDelivery {
  import opened Coalescer
  import opened BatchCodec

  /** The envelope a batch leaves in, as `SendBatch` makes it. */
  function Wrap(es: seq<Entry>): Envelope {
    if |es| == 1 then Single(es[0]) else Batched(Encode(Fill(es)))
  }

  /** What the receiver delivers from an envelope, in order. */
  function Unwrap(env: Envelope): seq<Entry> {
    match env
    case Single(e) => [e]
    case Batched(payload) => Received(payload).delivered
  }

  /** The tells of one pair that the receiver delivers, in order. */
  function Delivered(carrier: seq<Sent<Entry>>, k: Key): seq<Entry> {
    if carrier == [] then [] else
    var last := carrier[|carrier| - 1];
    Delivered(carrier[..|carrier| - 1], k) + if last.Tells? && last.key == k then Unwrap(Wrap(last.entries)) else []
  }

  /** Type names have a length the wire can say. */
  predicate Nameable(es: seq<Entry>) {
    forall i | 0 <= i < |es| :: |es[i].typeRef| <= MAX_SAFE_INTEGER
  }

  ghost predicate Weighs(weight: Entry -> nat) {
    forall e :: weight(e) == |e.payload|
  }

  lemma UnwrapOfWrap(es: seq<Entry>, weight: Entry -> nat)
    requires Weighs(weight) && Deliverable(es, weight) && Nameable(es)
    ensures Unwrap(Wrap(es)) == es
  {
    if |es| > 1 {
      FillHolds(es);
      ReceivedOfEncode(Fill(es), es);
    }
  }

  /** Every envelope of the carriers can be delivered. */
  predicate Ready(carrier: seq<Sent<Entry>>, weight: Entry -> nat) {
    forall i | 0 <= i < |carrier| && carrier[i].Tells? ::
      Deliverable(carrier[i].entries, weight) && Nameable(carrier[i].entries)
  }

  lemma {:induction false} DeliveredIsEmitted(carrier: seq<Sent<Entry>>, k: Key, weight: Entry -> nat)
    requires Weighs(weight) && Ready(carrier, weight)
    ensures Delivered(carrier, k) == Emitted(carrier, k)
  {
    if carrier != [] {
      var init, last := carrier[..|carrier| - 1], carrier[|carrier| - 1];
      DeliveredIsEmitted(init, k, weight);
      if last.Tells? { UnwrapOfWrap(last.entries, weight); }
    }
  }

  /** Whatever sequence of calls a coalescer of wire tells went through, the
      receiver recovers for every pair a prefix of the tells accepted from it, in
      order and each once; and all of them once nothing is buffered. */
  lemma AcceptedIsDelivered(c: Coalescer<Entry>, k: Key)
    requires c.Valid() && Weighs(c.weight)
    requires forall i | 0 <= i < |c.state.carrier| && c.state.carrier[i].Tells? :: Nameable(c.state.carrier[i].entries)
    ensures Delivered(c.state.carrier, k) <= Of(c.accepted, k)
    ensures c.state.pending == map[] ==> Delivered(c.state.carrier, k) == Of(c.accepted, k)
  {
    DeliveredIsEmitted(c.state.carrier, k, c.weight);
    assert Total(c.state, k) == Of(c.accepted, k);
  }

  /** What the receiver recovers for a pair are tells made from its sender to its receiver
      on its node, in the order they were made. */
  lemma ToldIsDelivered(c: Coalescer<Entry>, k: Key)
    requires c.Valid() && c.Remembered() && Weighs(c.weight)
    requires forall i | 0 <= i < |c.state.carrier| && c.state.carrier[i].Tells? :: Nameable(c.state.carrier[i].entries)
    ensures Delivered(c.state.carrier, k) <= Addressed(c.route, c.told, k)
    ensures c.state.pending == map[] ==> Delivered(c.state.carrier, k) == Addressed(c.route, c.told, k)
  {
    AcceptedIsDelivered(c, k);
  }
}
