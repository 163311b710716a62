module QueueInvariant {
  // What holds of the queue between any two steps of its two threads, and what a
  // single step does to one block and to the contents of the whole ring.

  import opened QueueModel

  function Succ(n: nat, i: nat): nat {
    if i + 1 == n then 0 else i + 1
  }

  /** The i-th block of the ring points to the one after it. */
  predicate Linked(blocks: seq<Block>, ring: seq<nat>, i: nat)
    requires i < |ring|
  {
    ring[i] < |blocks| && blocks[ring[i]].next == ring[Succ(|ring|, i)]
  }

  /** The blocks form one ring of distinct blocks, followed along `next`. */
  predicate RingOk(s: State)
    requires ValidIds(s)
  {
    && (forall i, j :: 0 <= i < j < |s.ring| ==> s.ring[i] != s.ring[j])
    && s.ring[0] == s.frontBlock && s.ring[s.tpos] == s.tailBlock
    && (forall i: nat :: i < |s.ring| ==> Linked(s.blocks, s.ring, i))
  }

  /** The producer has filled the block ahead but not yet moved tailBlock to it. */
  predicate Pending(s: State) {
    s.producer.PStoreTailBlock? || s.producer.PPublish?
  }

  /** What the i-th block of the ring may hold while the tail is at place tpos:
      between front and tail every block is full, beyond the tail all are empty
      but for the one the producer is about to step to. */
  predicate Filled(blocks: seq<Block>, ring: seq<nat>, tpos: nat, pending: bool, i: nat)
    requires i < |ring| && ring[i] < |blocks| && Indices(blocks[ring[i]])
  {
    var b := blocks[ring[i]];
    && (1 <= i <= tpos ==> Count(b) > 0)
    && (1 <= i < tpos ==> Full(b))
    && (tpos < i && !(i == tpos + 1 && pending) ==> Count(b) == 0)
  }

  predicate FillOk(s: State)
    requires ValidIds(s)
  {
    forall i: nat :: i < |s.ring| ==> Filled(s.blocks, s.ring, s.tpos, Pending(s), i)
  }

  predicate TailFull(s: State)
    requires ValidIds(s)
  {
    s.tpos >= 1 ==> Full(Tail(s))
  }

  predicate HasRoom(b: Block)
    requires Indices(b)
  {
    Dist(b, b.localFront, b.tail) < Size(b) - 1
  }

  predicate ProducerOk(s: State)
    requires ValidIds(s)
  {
    match s.producer
    case PIdle => true
    case PBegin(x, canAlloc) => true
    case PLoadFront(x, canAlloc) => true
    case PWrite(x) => HasRoom(Tail(s))
    case PStoreTail(x) => HasRoom(Tail(s)) && Tail(s).data[Tail(s).tail] == x
    case PFull(x, canAlloc, held) => TailFull(s) && (|s.ring| == 1 ==> held >= Size(Tail(s)) - 1)
    case PLoadNext(x) => TailFull(s) && s.tpos + 1 < |s.ring|
    case PWriteNext(x) =>
      TailFull(s) && s.tpos + 1 < |s.ring| && Ahead(s).localFront == Ahead(s).front
    case PStoreNextTail(x) =>
      && TailFull(s) && s.tpos + 1 < |s.ring| && Ahead(s).localFront == Ahead(s).front
      && Ahead(s).data[Ahead(s).tail] == x
    case PStoreTailBlock(x) => TailFull(s) && s.tpos + 1 < |s.ring| && Content(Ahead(s)) == [x]
    case PAllocate(x) => TailFull(s)
    case PLink(x, made) =>
      && TailFull(s) && made < |s.blocks| && made !in s.ring
      && Content(s.blocks[made]) == [x] && s.blocks[made].next == Tail(s).next
    case PPublish(x, made) =>
      TailFull(s) && s.tpos + 1 < |s.ring| && Tail(s).next == made && Content(Ahead(s)) == [x]
  }

  /** The consumer's last look at tail showed an element. */
  predicate Seen(b: Block)
    requires Indices(b)
  {
    Dist(b, b.front, b.localTail) >= 1
  }

  predicate ConsumerOk(s: State)
    requires ValidIds(s)
  {
    match s.consumer
    case CIdle => true
    case CBegin => true
    case CLoadTail => true
    case CLoadTailBlock(wasEmpty) => wasEmpty || s.tpos > 0
    case CReloadTail => s.tpos > 0
    case CTake => Seen(Front(s))
    case CStoreFront(item) => Seen(Front(s)) && item == Front(s).data[Front(s).front]
    case CLoadNext => s.tpos > 0 && Count(Front(s)) == 0
    case CLookNext(ahead) => s.tpos > 0 && Count(Front(s)) == 0 && ahead == s.ring[1]
    case CStoreFrontBlock(ahead) =>
      s.tpos > 0 && Count(Front(s)) == 0 && ahead == s.ring[1] && Seen(s.blocks[ahead])
    case CTakeNext => Seen(Front(s))
    case CStoreNextFront(item) => Seen(Front(s)) && item == Front(s).data[Front(s).front]
  }

  /** What came in is what went out followed by what is inside: a FIFO queue. */
  predicate HistoryOk(s: State)
    requires ValidIds(s)
  {
    s.enqueued == s.dequeued + Contents(s)
  }

  ghost predicate Inv(s: State) {
    && !s.failed
    && ValidIds(s) && RingOk(s) && FillOk(s) && ProducerOk(s) && ConsumerOk(s) && HistoryOk(s)
  }

  // ---------------------------------------------------------------------
  // One block
  // ---------------------------------------------------------------------

  lemma PushKeepsBlock(b: Block)
    requires BlockOk(b) && HasRoom(b)
    ensures BlockOk(Pushed(b))
    ensures Content(Pushed(b)) == Content(b) + [b.data[b.tail]]
    ensures Seen(b) ==> Seen(Pushed(b))
  {
    assert Place(b, Count(b)) == b.tail;
  }

  lemma ConstructKeepsBlock(b: Block, x: Item)
    requires BlockOk(b)
    ensures BlockOk(Constructed(b, x)) && Content(Constructed(b, x)) == Content(b)
  {
    forall k | 0 <= k < Count(b)
      ensures Constructed(b, x).data[Place(b, k)] == b.data[Place(b, k)]
    {
      assert Place(b, k) != b.tail;
    }
  }

  lemma LookAtFront(b: Block)
    requires BlockOk(b)
    ensures var b' := b.(localFront := b.front);
            BlockOk(b') && Content(b') == Content(b) && (HasRoom(b') <==> Inc(b, b.tail) != b.front)
    ensures Inc(b, b.tail) == b.front <==> Full(b)
  {
  }

  lemma LookAtTail(b: Block)
    requires BlockOk(b)
    ensures var b' := b.(localTail := b.tail);
            BlockOk(b') && Content(b') == Content(b) && (Seen(b') <==> b.front != b.tail)
    ensures b.front == b.tail <==> Content(b) == []
    ensures var b' := b.(localTail := b.tail); (HasRoom(b') <==> HasRoom(b)) && (Full(b') <==> Full(b))
  {
  }

  lemma PopKeepsBlock(b: Block)
    requires BlockOk(b) && Seen(b)
    ensures BlockOk(Popped(b))
    ensures Content(b) == [b.data[b.front]] + Content(Popped(b))
    ensures HasRoom(b) ==> HasRoom(Popped(b))
  {
    assert Count(Popped(b)) == Count(b) - 1;
    forall k | 0 <= k < Count(Popped(b))
      ensures Content(Popped(b))[k] == Content(b)[k + 1]
    {
      assert Place(Popped(b), k) == Place(b, k + 1);
    }
  }

  // ---------------------------------------------------------------------
  // The contents of a row of blocks
  // ---------------------------------------------------------------------

  predicate Row(blocks: seq<Block>, ids: seq<nat>) {
    forall i :: 0 <= i < |ids| ==> ids[i] < |blocks| && Indices(blocks[ids[i]])
  }

  lemma {:induction false} FlattenSame(a: seq<Block>, b: seq<Block>, ids: seq<nat>)
    requires Row(a, ids) && Row(b, ids)
    requires forall i :: 0 <= i < |ids| ==> Content(a[ids[i]]) == Content(b[ids[i]])
    ensures Flatten(a, ids) == Flatten(b, ids)
  {
    if ids != [] {
      assert Content(a[ids[0]]) == Content(b[ids[0]]);
      FlattenSame(a, b, ids[1..]);
    }
  }

  lemma {:induction false} FlattenAppend(blocks: seq<Block>, ids: seq<nat>, id: nat)
    requires Row(blocks, ids + [id])
    ensures Row(blocks, ids) && id < |blocks| && Indices(blocks[id])
    ensures Flatten(blocks, ids + [id]) == Flatten(blocks, ids) + Content(blocks[id])
  {
    assert (ids + [id])[|ids|] == id;
    assert forall i :: 0 <= i < |ids| ==> (ids + [id])[i] == ids[i];
    if ids == [] {
      assert ids + [id] == [id];
      assert Flatten(blocks, [id]) == Content(blocks[id]) + Flatten(blocks, []);
    } else {
      assert (ids + [id])[1..] == ids[1..] + [id];
      FlattenAppend(blocks, ids[1..], id);
    }
  }

  /** The contents end with the tail block's. */
  lemma ContentsEnd(s: State)
    requires ValidIds(s) && RingOk(s)
    ensures Contents(s) == Flatten(s.blocks, s.ring[..s.tpos]) + Content(Tail(s))
  {
    assert s.ring[..s.tpos + 1] == s.ring[..s.tpos] + [s.ring[s.tpos]];
    FlattenAppend(s.blocks, s.ring[..s.tpos], s.ring[s.tpos]);
  }

  /** They begin with the front block's. */
  lemma ContentsStart(s: State)
    requires ValidIds(s) && RingOk(s)
    ensures Contents(s) == Content(Front(s)) + Flatten(s.blocks, s.ring[1..s.tpos + 1])
  {
    assert s.ring[..s.tpos + 1][1..] == s.ring[1..s.tpos + 1];
  }
}
