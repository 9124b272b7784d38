/**
 The tell batch on the wire: unsigned LEB128 lengths, a table of type names, and a
 stream of entries that index into it.
 */
module BatchCodec {
  import opened Common

  type Byte = b: int | 0 <= b < 0x100

  type Bytes = seq<Byte>

  /** One tell: its type name, in UTF-8, and its encoded payload. */
  datatype Entry = Entry(typeRef: Bytes, payload: Bytes)

  const MAX_SAFE_INTEGER := 0x1F_FFFF_FFFF_FFFF
  const MAX_GROUPS := 8

  /* ---------- unsigned varints ---------- */

  function Uvarint(v: nat): (b: Bytes)
    ensures |b| > 0
  {
    if v <= 0x7f then [v] else [v % 0x80 + 0x80] + Uvarint(v / 0x80)
  }

  /** A value read off the front of a stream, and how many bytes it took. */
  datatype Read = Read(value: nat, size: nat)

  /** Reads at most `groups` groups of seven bits, least significant first. */
  function ReadGroups(b: Bytes, groups: nat): (r: Option<Read>)
    ensures r.Some? ==> 0 < r.value.size <= |b|
    decreases groups
  {
    if groups == 0 || b == [] then None
    else if b[0] < 0x80 then Some(Read(b[0], 1))
    else match ReadGroups(b[1..], groups - 1)
      case None => None
      case Some(r) => Some(Read(b[0] - 0x80 + 0x80 * r.value, r.size + 1))
  }

  function Pow(groups: nat): nat {
    if groups == 0 then 1 else 0x80 * Pow(groups - 1)
  }

  lemma {:induction false} GroupsOfUvarint(v: nat, groups: nat, rest: Bytes)
    requires 0 < groups && v < Pow(groups)
    ensures ReadGroups(Uvarint(v) + rest, groups) == Some(Read(v, |Uvarint(v)|))
    decreases groups
  {
    if v > 0x7f {
      assert v / 0x80 < Pow(groups - 1);
      GroupsOfUvarint(v / 0x80, groups - 1, rest);
      assert (Uvarint(v) + rest)[1..] == Uvarint(v / 0x80) + rest;
    }
  }

  /** A varint past the safe integers is refused, as is a truncated or overlong one. */
  function ReadUvarint(b: Bytes): (r: Option<Read>)
    ensures r.Some? ==> 0 < r.value.size <= |b|
  {
    match ReadGroups(b, MAX_GROUPS)
    case None => None
    case Some(r) => if r.value <= MAX_SAFE_INTEGER then Some(r) else None
  }

  lemma ReadOfUvarint(v: nat, rest: Bytes)
    requires v <= MAX_SAFE_INTEGER
    ensures ReadUvarint(Uvarint(v) + rest) == Some(Read(v, |Uvarint(v)|))
  {
    PowEight();
    GroupsOfUvarint(v, MAX_GROUPS, rest);
  }

  lemma PowEight()
    ensures Pow(MAX_GROUPS) > MAX_SAFE_INTEGER
  {
    assert Pow(4) == 0x1000_0000 by { assert Pow(2) == 0x4000; }
    assert Pow(6) == 0x4000 * Pow(4) && Pow(8) == 0x4000 * Pow(6);
  }

  /* ---------- length-prefixed byte strings ---------- */

  function Sized(bytes: Bytes): Bytes {
    Uvarint(|bytes|) + bytes
  }

  /** A byte string read off the front of a stream, and what follows it. */
  datatype Chunk = Chunk(bytes: Bytes, rest: Bytes)

  function ReadSized(b: Bytes): (r: Option<Chunk>)
    ensures r.Some? ==> |r.value.rest| < |b|
  {
    match ReadUvarint(b)
    case None => None
    case Some(n) =>
      if |b| - n.size < n.value then None
      else Some(Chunk(b[n.size..n.size + n.value], b[n.size + n.value..]))
  }

  lemma ReadOfSized(bytes: Bytes, rest: Bytes)
    requires |bytes| <= MAX_SAFE_INTEGER
    ensures ReadSized(Sized(bytes) + rest) == Some(Chunk(bytes, rest))
  {
    var b, n := Sized(bytes) + rest, |Uvarint(|bytes|)|;
    assert b == Uvarint(|bytes|) + (bytes + rest);
    ReadOfUvarint(|bytes|, bytes + rest);
    assert b[n..n + |bytes|] == bytes && b[n + |bytes|..] == rest;
  }

  /* ---------- what a pending batch holds ---------- */

  /** A batch as it fills: the type table, its index, the entry stream, the count. */
  datatype Batch = Batch(types: seq<Bytes>, typeIndex: map<Bytes, nat>, body: Bytes, entries: nat)

  const EMPTY_BATCH := Batch([], map[], [], 0)

  function Stream(index: nat, payload: Bytes): Bytes {
    Uvarint(index) + Sized(payload)
  }

  /** One tell is added: its type joins the table on first use, and its entry the stream. */
  function Add(b: Batch, e: Entry): Batch {
    var t := if e.typeRef in b.typeIndex then b
             else b.(types := b.types + [e.typeRef], typeIndex := b.typeIndex[e.typeRef := |b.types|]);
    t.(body := t.body + Stream(t.typeIndex[e.typeRef], e.payload), entries := t.entries + 1)
  }

  /** The table and its index are inverse. */
  predicate Indexed(b: Batch) {
    && (forall t | t in b.typeIndex :: b.typeIndex[t] < |b.types| && b.types[b.typeIndex[t]] == t)
    && (forall i | 0 <= i < |b.types| :: b.types[i] in b.typeIndex)
  }

  /** The entry stream of a sequence of tells under a type index. */
  function Streams(typeIndex: map<Bytes, nat>, es: seq<Entry>): Bytes
    requires forall i | 0 <= i < |es| :: es[i].typeRef in typeIndex
  {
    if es == [] then [] else Stream(typeIndex[es[0].typeRef], es[0].payload) + Streams(typeIndex, es[1..])
  }

  /** The batch holds exactly the tells `es`. */
  predicate Holds(b: Batch, es: seq<Entry>) {
    && Indexed(b) && b.entries == |es| && |b.types| <= |es|
    && (forall i | 0 <= i < |b.types| :: |b.types[i]| <= MAX_SAFE_INTEGER)
    && (forall i | 0 <= i < |es| :: es[i].typeRef in b.typeIndex)
    && b.body == Streams(b.typeIndex, es)
  }

  lemma {:induction false} StreamsFrame(x: map<Bytes, nat>, y: map<Bytes, nat>, es: seq<Entry>)
    requires forall i | 0 <= i < |es| ::
               es[i].typeRef in x && es[i].typeRef in y && x[es[i].typeRef] == y[es[i].typeRef]
    ensures Streams(x, es) == Streams(y, es)
  {
    if es != [] { StreamsFrame(x, y, es[1..]); }
  }

  lemma {:induction false} StreamsAppend(x: map<Bytes, nat>, es: seq<Entry>, e: Entry)
    requires (forall i | 0 <= i < |es| :: es[i].typeRef in x) && e.typeRef in x
    ensures Streams(x, es + [e]) == Streams(x, es) + Stream(x[e.typeRef], e.payload)
  {
    if es == [] {
      assert (es + [e])[1..] == [];
    } else {
      assert (es + [e])[1..] == es[1..] + [e];
      StreamsAppend(x, es[1..], e);
    }
  }

  lemma AddHolds(b: Batch, es: seq<Entry>, e: Entry)
    requires Holds(b, es) && |e.typeRef| <= MAX_SAFE_INTEGER
    ensures Holds(Add(b, e), es + [e])
  {
    var t := Add(b, e);
    StreamsFrame(b.typeIndex, t.typeIndex, es);
    StreamsAppend(t.typeIndex, es, e);
  }

  /** The batch that a sequence of tells fills. */
  function Fill(es: seq<Entry>): Batch {
    if es == [] then EMPTY_BATCH else Add(Fill(es[..|es| - 1]), es[|es| - 1])
  }

  /** Filling a batch with any tells makes it hold exactly them. */
  lemma {:induction false} FillHolds(es: seq<Entry>)
    requires forall i | 0 <= i < |es| :: |es[i].typeRef| <= MAX_SAFE_INTEGER
    ensures Holds(Fill(es), es)
  {
    if es != [] {
      FillHolds(es[..|es| - 1]);
      AddHolds(Fill(es[..|es| - 1]), es[..|es| - 1], es[|es| - 1]);
      assert es[..|es| - 1] + [es[|es| - 1]] == es;
    }
  }

  /* ---------- what travels and what arrives ---------- */

  /** A tell on its own, or a batch of them. */
  datatype Envelope = Single(entry: Entry) | Batched(payload: Bytes)

  function Table(types: seq<Bytes>): Bytes {
    if types == [] then [] else Sized(types[0]) + Table(types[1..])
  }

  function Encode(b: Batch): Bytes {
    Uvarint(|b.types|) + (Table(b.types) + (Uvarint(b.entries) + b.body))
  }

  /** What the receiver makes of a batch: the entries it got to, in order, and the
      remainder it gave up on when the stream does not parse. */
  datatype Outcome = Outcome(delivered: seq<Entry>, broken: Option<Bytes>)

  datatype Parsed = Parsed(types: seq<Bytes>, rest: Bytes)

  /** Names read one after another, by whatever reads one. */
  function ReadNames(read: Bytes -> Option<Chunk>, b: Bytes, count: nat): Option<Parsed>
    decreases count
  {
    if count == 0 then Some(Parsed([], b)) else
    match read(b)
    case None => None
    case Some(t) => Prepended([t.bytes], ReadNames(read, t.rest, count - 1))
  }

  function Prepended(types: seq<Bytes>, r: Option<Parsed>): Option<Parsed> {
    match r
    case None => None
    case Some(p) => Some(Parsed(types + p.types, p.rest))
  }

  function ReadTable(b: Bytes, count: nat): Option<Parsed> {
    ReadNames(x => ReadSized(x), b, count)
  }

  /** The next entry of a stream, and what follows it. */
  datatype Item = Item(entry: Entry, rest: Bytes)

  function ReadEntry(types: seq<Bytes>, b: Bytes): Option<Item> {
    match ReadUvarint(b)
    case None => None
    case Some(index) =>
      if index.value >= |types| then None else
      match ReadSized(b[index.size..])
      case None => None
      case Some(p) => Some(Item(Entry(types[index.value], p.bytes), p.rest))
  }

  /** Entries read one after another, by whatever reads one. */
  function ReadAll(read: Bytes -> Option<Item>, b: Bytes, count: nat): Outcome
    decreases count
  {
    if count == 0 then Outcome([], None) else
    match read(b)
    case None => Outcome([], Some(b))
    case Some(item) => Following([item.entry], ReadAll(read, item.rest, count - 1))
  }

  function Following(delivered: seq<Entry>, out: Outcome): Outcome {
    Outcome(delivered + out.delivered, out.broken)
  }

  function ReadEntries(types: seq<Bytes>, b: Bytes, count: nat): Outcome {
    ReadAll(x => ReadEntry(types, x), b, count)
  }

  /** The head of a batch: its type table, its entry count, and the stream. */
  datatype Head = Head(types: seq<Bytes>, count: nat, stream: Bytes)

  function ReadTypes(payload: Bytes): Option<Parsed> {
    match ReadUvarint(payload)
    case None => None
    case Some(n) => if n.value > BATCH_MAX_ENTRIES then None else ReadTable(payload[n.size..], n.value)
  }

  function ReadHead(payload: Bytes): Option<Head> {
    match ReadTypes(payload)
    case None => None
    case Some(p) =>
      match ReadUvarint(p.rest)
      case None => None
      case Some(count) =>
        if count.value > BATCH_MAX_ENTRIES then None
        else Some(Head(p.types, count.value, p.rest[count.size..]))
  }

  function Received(payload: Bytes): Outcome {
    match ReadHead(payload)
    case None => Outcome([], Some(payload))
    case Some(head) => ReadEntries(head.types, head.stream, head.count)
  }

  /** `read` takes off exactly what `Sized` puts on. */
  ghost predicate Unsizes(read: Bytes -> Option<Chunk>) {
    forall bytes: Bytes, rest: Bytes | |bytes| <= MAX_SAFE_INTEGER ::
      read(Sized(bytes) + rest) == Some(Chunk(bytes, rest))
  }

  lemma {:induction false} NamesOfTable(read: Bytes -> Option<Chunk>, types: seq<Bytes>, rest: Bytes)
    requires Unsizes(read) && forall i | 0 <= i < |types| :: |types[i]| <= MAX_SAFE_INTEGER
    ensures ReadNames(read, Table(types) + rest, |types|) == Some(Parsed(types, rest))
  {
    if types == [] {
      assert Table(types) + rest == rest;
    } else {
      assert Table(types) + rest == Sized(types[0]) + (Table(types[1..]) + rest);
      NamesOfTable(read, types[1..], rest);
      assert [types[0]] + types[1..] == types;
    }
  }

  lemma TableOfTypes(types: seq<Bytes>, rest: Bytes)
    requires forall i | 0 <= i < |types| :: |types[i]| <= MAX_SAFE_INTEGER
    ensures ReadTable(Table(types) + rest, |types|) == Some(Parsed(types, rest))
  {
    var read := x => ReadSized(x);
    forall bytes: Bytes, more: Bytes | |bytes| <= MAX_SAFE_INTEGER
      ensures read(Sized(bytes) + more) == Some(Chunk(bytes, more))
    {
      ReadOfSized(bytes, more);
    }
    NamesOfTable(read, types, rest);
  }

  /** Payloads under the byte cap, as the coalescer admits them. */
  predicate Sizes(es: seq<Entry>) {
    forall i | 0 <= i < |es| :: |es[i].payload| < BATCH_MAX_BYTES
  }

  lemma EntryOfStream(b: Batch, e: Entry, rest: Bytes)
    requires Indexed(b) && e.typeRef in b.typeIndex && |b.types| <= BATCH_MAX_ENTRIES && |e.payload| < BATCH_MAX_BYTES
    ensures ReadEntry(b.types, Stream(b.typeIndex[e.typeRef], e.payload) + rest) == Some(Item(e, rest))
  {
    var i := b.typeIndex[e.typeRef];
    assert Stream(i, e.payload) + rest == Uvarint(i) + (Sized(e.payload) + rest);
    ReadOfUvarint(i, Sized(e.payload) + rest);
    assert (Uvarint(i) + (Sized(e.payload) + rest))[|Uvarint(i)|..] == Sized(e.payload) + rest;
    ReadOfSized(e.payload, rest);
  }

  lemma FollowingStep(delivered: seq<Entry>, e: Entry, out: Outcome)
    ensures Following([], out) == out
    ensures Following(delivered, Following([e], out)) == Following(delivered + [e], out)
  {
    assert delivered + ([e] + out.delivered) == (delivered + [e]) + out.delivered;
  }

  /** `read` takes off exactly what `Stream` puts on. */
  ghost predicate Undoes(read: Bytes -> Option<Item>, typeIndex: map<Bytes, nat>) {
    forall e: Entry, rest: Bytes | e.typeRef in typeIndex && |e.payload| < BATCH_MAX_BYTES ::
      read(Stream(typeIndex[e.typeRef], e.payload) + rest) == Some(Item(e, rest))
  }

  lemma {:induction false} AllOfStreams(read: Bytes -> Option<Item>, typeIndex: map<Bytes, nat>, es: seq<Entry>)
    requires Undoes(read, typeIndex) && Sizes(es)
    requires forall i | 0 <= i < |es| :: es[i].typeRef in typeIndex
    ensures ReadAll(read, Streams(typeIndex, es), |es|) == Outcome(es, None)
  {
    if es != [] {
      AllOfStreams(read, typeIndex, es[1..]);
      assert [es[0]] + es[1..] == es;
    }
  }

  lemma EntriesOfStreams(b: Batch, es: seq<Entry>)
    requires Indexed(b) && |b.types| <= BATCH_MAX_ENTRIES && Sizes(es)
    requires forall i | 0 <= i < |es| :: es[i].typeRef in b.typeIndex
    ensures ReadEntries(b.types, Streams(b.typeIndex, es), |es|) == Outcome(es, None)
  {
    var read := x => ReadEntry(b.types, x);
    forall e: Entry, rest: Bytes | e.typeRef in b.typeIndex && |e.payload| < BATCH_MAX_BYTES
      ensures read(Stream(b.typeIndex[e.typeRef], e.payload) + rest) == Some(Item(e, rest))
    {
      EntryOfStream(b, e, rest);
    }
    AllOfStreams(read, b.typeIndex, es);
  }

  lemma HeadOfEncode(b: Batch)
    requires |b.types| <= BATCH_MAX_ENTRIES && b.entries <= BATCH_MAX_ENTRIES
    requires forall i | 0 <= i < |b.types| :: |b.types[i]| <= MAX_SAFE_INTEGER
    ensures ReadHead(Encode(b)) == Some(Head(b.types, b.entries, b.body))
  {
    var tail := Uvarint(b.entries) + b.body;
    ReadOfUvarint(|b.types|, Table(b.types) + tail);
    assert Encode(b)[|Uvarint(|b.types|)|..] == Table(b.types) + tail;
    TableOfTypes(b.types, tail);
    ReadOfUvarint(b.entries, b.body);
    assert tail[|Uvarint(b.entries)|..] == b.body;
  }

  /** The receiver recovers exactly the tells of every batch within the caps, in order. */
  lemma ReceivedOfEncode(b: Batch, es: seq<Entry>)
    requires Holds(b, es) && |es| <= BATCH_MAX_ENTRIES && Sizes(es)
    ensures Received(Encode(b)) == Outcome(es, None)
  {
    HeadOfEncode(b);
    EntriesOfStreams(b, es);
  }

  /* ---------- what becomes of a payload that does not parse ---------- */

  predicate Suffix(b: Bytes, whole: Bytes) {
    |b| <= |whole| && whole[|whole| - |b|..] == b
  }

  lemma SuffixOfSuffix(a: Bytes, b: Bytes, c: Bytes)
    requires Suffix(a, b) && Suffix(b, c)
    ensures Suffix(a, c)
  {
    assert c[|c| - |a|..] == b[|b| - |a|..];
  }

  /** `read` leaves the rest of what it was given. */
  ghost predicate Advances(read: Bytes -> Option<Item>) {
    forall b: Bytes | read(b).Some? :: Suffix(read(b).value.rest, b) && |read(b).value.rest| < |b|
  }

  lemma EntryAdvances(types: seq<Bytes>, b: Bytes)
    requires ReadEntry(types, b).Some?
    ensures Suffix(ReadEntry(types, b).value.rest, b) && |ReadEntry(types, b).value.rest| < |b|
  {
    var index := ReadUvarint(b).value;
    var tail := b[index.size..];
    assert Suffix(tail, b);
    var n := ReadUvarint(tail).value;
    assert ReadSized(tail).value.rest == tail[n.size + n.value..];
    SuffixOfSuffix(ReadSized(tail).value.rest, tail, b);
  }

  /** The entries reached and the remainder account for the whole stream: as many entries
      as declared, or fewer and the rest of the stream from the first that does not
      parse; and up to there every entry parsed. */
  lemma {:induction false} ReadAllAccounts(read: Bytes -> Option<Item>, b: Bytes, count: nat)
    requires Advances(read)
    ensures var out := ReadAll(read, b, count);
      && |out.delivered| <= count && (out.broken.None? <==> |out.delivered| == count)
      && (out.broken.Some? ==> Suffix(out.broken.value, b) && read(out.broken.value).None?)
      && ReadAll(read, b, |out.delivered|) == Outcome(out.delivered, None)
    decreases count
  {
    if count > 0 && read(b).Some? {
      var item := read(b).value;
      ReadAllAccounts(read, item.rest, count - 1);
      var out := ReadAll(read, item.rest, count - 1);
      if out.broken.Some? { SuffixOfSuffix(out.broken.value, item.rest, b); }
    }
  }

  /** The payload's head is in order: a type count within the cap, that many names, an
      entry count within the cap. */
  predicate GoodHead(payload: Bytes) {
    && ReadUvarint(payload).Some? && ReadUvarint(payload).value.value <= BATCH_MAX_ENTRIES
    && ReadTypes(payload).Some?
    && ReadUvarint(ReadTypes(payload).value.rest).Some?
    && ReadUvarint(ReadTypes(payload).value.rest).value.value <= BATCH_MAX_ENTRIES
  }

  /** A payload with a bad head is given up whole. One with a good head yields the entries
      its count declares, or fewer and exactly the rest of its stream from the first
      entry that does not parse. */
  lemma ReceivedAccounts(payload: Bytes)
    ensures !GoodHead(payload) ==> Received(payload) == Outcome([], Some(payload))
    ensures GoodHead(payload) ==>
      var types, count := ReadTypes(payload).value.types, ReadUvarint(ReadTypes(payload).value.rest).value;
      var stream, out := ReadTypes(payload).value.rest[count.size..], Received(payload);
      && |out.delivered| <= count.value && (out.broken.None? <==> |out.delivered| == count.value)
      && (out.broken.Some? ==> Suffix(out.broken.value, stream) && ReadEntry(types, out.broken.value).None?)
      && ReadEntries(types, stream, |out.delivered|) == Outcome(out.delivered, None)
  {
    if GoodHead(payload) {
      var types, count := ReadTypes(payload).value.types, ReadUvarint(ReadTypes(payload).value.rest).value;
      var read := x => ReadEntry(types, x);
      forall b: Bytes | read(b).Some? ensures Suffix(read(b).value.rest, b) && |read(b).value.rest| < |b| {
        EntryAdvances(types, b);
      }
      ReadAllAccounts(read, ReadTypes(payload).value.rest[count.size..], count.value);
    }
  }

  /* ---------- the sender's and the receiver's loops ---------- */

  /** Emits a batch: a lone entry as the plain tell it stands for, more as a batch that
      the receiver recovers whole. */
  method SendBatch(b: Batch, ghost es: seq<Entry>) returns (env: Envelope)
    requires Holds(b, es) && 1 <= |es| <= BATCH_MAX_ENTRIES && Sizes(es)
    ensures |es| == 1 ==> env == Single(es[0])
    ensures |es| > 1 ==> env == Batched(Encode(b)) && Received(env.payload) == Outcome(es, None)
  {
    if b.entries == 1 {
      EntryOfStream(b, es[0], []);
      assert b.body == Stream(b.typeIndex[es[0].typeRef], es[0].payload) + Streams(b.typeIndex, es[1..]);
      var index := ReadUvarint(b.body).value;
      var payload := ReadSized(b.body[index.size..]).value;
      return Single(Entry(b.types[index.value], payload.bytes));
    }
    ReceivedOfEncode(b, es);
    return Batched(Encode(b));
  }

  lemma PrependedStep(types: seq<Bytes>, t: Bytes, r: Option<Parsed>)
    ensures Prepended([], r) == r
    ensures Prepended(types, Prepended([t], r)) == Prepended(types + [t], r)
  {
    if r.Some? {
      assert types + ([t] + r.value.types) == (types + [t]) + r.value.types;
      assert [] + r.value.types == r.value.types;
    }
  }

  /** The table loop: one length-prefixed name at a time. */
  method ReadTableLoop(read: Bytes -> Option<Chunk>, b: Bytes, typeCount: nat) returns (r: Option<Parsed>)
    ensures r == ReadNames(read, b, typeCount)
  {
    var types, rest, left := [], b, typeCount;
    ghost var all := ReadNames(read, b, typeCount);
    PrependedStep([], [], all);
    while left > 0
      invariant all == Prepended(types, ReadNames(read, rest, left))
    {
      var t := read(rest);
      if t.None? {
        return None;
      }
      PrependedStep(types, t.value.bytes, ReadNames(read, t.value.rest, left - 1));
      types, rest, left := types + [t.value.bytes], t.value.rest, left - 1;
    }
    assert types + [] == types;
    return Some(Parsed(types, rest));
  }

  /** The entries that decode, or those that do not, in order. */
  function Sift(es: seq<Entry>, decodes: Entry -> bool, wanted: bool): seq<Entry> {
    if es == [] then [] else
    var rest, last := Sift(es[..|es| - 1], decodes, wanted), es[|es| - 1];
    if decodes(last) == wanted then rest + [last] else rest
  }

  lemma SiftSnoc(es: seq<Entry>, e: Entry, decodes: Entry -> bool, wanted: bool)
    ensures Sift(es + [e], decodes, wanted) == Sift(es, decodes, wanted) + if decodes(e) == wanted then [e] else []
  {
    assert (es + [e])[..|es|] == es;
  }

  /** Nothing is delivered and dead-lettered, and nothing is neither. */
  lemma {:induction false} SiftSplits(es: seq<Entry>, decodes: Entry -> bool)
    ensures multiset(es) == multiset(Sift(es, decodes, true)) + multiset(Sift(es, decodes, false))
  {
    if es != [] {
      SiftSplits(es[..|es| - 1], decodes);
      assert es == es[..|es| - 1] + [es[|es| - 1]];
    }
  }

  /** The delivery loop: entries go out in order until one does not parse; an entry
      that parses but does not decode dead-letters alone. */
  method DeliverLoop(read: Bytes -> Option<Item>, decodes: Entry -> bool, stream: Bytes, entries: nat)
    returns (delivered: seq<Entry>, letters: seq<Entry>, broken: Option<Bytes>)
    ensures var all := ReadAll(read, stream, entries);
      && delivered == Sift(all.delivered, decodes, true) && letters == Sift(all.delivered, decodes, false)
      && broken == all.broken
  {
    var rest, left := stream, entries;
    delivered, letters := [], [];
    ghost var all, seen: seq<Entry> := ReadAll(read, stream, entries), [];
    FollowingStep([], Entry([], []), all);
    while left > 0
      invariant all == Following(seen, ReadAll(read, rest, left))
      invariant delivered == Sift(seen, decodes, true) && letters == Sift(seen, decodes, false)
    {
      var item := read(rest);
      if item.None? {
        assert seen + [] == seen;
        return delivered, letters, Some(rest);
      }
      var e := item.value.entry;
      FollowingStep(seen, e, ReadAll(read, item.value.rest, left - 1));
      SiftSnoc(seen, e, decodes, true);
      SiftSnoc(seen, e, decodes, false);
      if decodes(e) {
        delivered := delivered + [e];
      } else {
        letters := letters + [e];
      }
      seen := seen + [e];
      rest, left := item.value.rest, left - 1;
    }
    assert seen + [] == seen;
    return delivered, letters, None;
  }

  /** Delivers an arrived batch: a head that does not parse or declares more than the
      caps gives up the whole payload, a broken stream only what was not reached, and
      an entry that does not decode only itself. */
  method HandleBatch(payload: Bytes, decodes: Entry -> bool)
    returns (delivered: seq<Entry>, letters: seq<Entry>, broken: Option<Bytes>)
    ensures var all := Received(payload);
      && delivered == Sift(all.delivered, decodes, true) && letters == Sift(all.delivered, decodes, false)
      && broken == all.broken
  {
    var n := ReadUvarint(payload);
    if n.None? || n.value.value > BATCH_MAX_ENTRIES {
      return [], [], Some(payload);
    }
    var table := ReadTableLoop(x => ReadSized(x), payload[n.value.size..], n.value.value);
    if table.None? {
      return [], [], Some(payload);
    }
    var count := ReadUvarint(table.value.rest);
    if count.None? || count.value.value > BATCH_MAX_ENTRIES {
      return [], [], Some(payload);
    }
    var types := table.value.types;
    delivered, letters, broken :=
      DeliverLoop(x => ReadEntry(types, x), decodes, table.value.rest[count.value.size..], count.value.value);
  }
}
