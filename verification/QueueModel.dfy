module QueueModel {
  // The single-producer single-consumer queue of queues: a ring of circular
  // buffers ("blocks").  A step is at most one load or store of a variable that
  // the other thread uses too; the two threads interleave in any order, under
  // sequential consistency.

  datatype Item = Item(id: nat)

  /** `front`, `localTail` belong to the consumer, `tail`, `localFront` to the
      producer; the local ones are each thread's last look at the other's. */
  datatype Block = Block(data: seq<Item>, front: nat, localTail: nat, tail: nat, localFront: nat, next: nat)

  /** Where the producer stands in `inner_enqueue` (x is being enqueued). */
  datatype Producer =
    | PIdle
    | PBegin(x: Item, canAlloc: bool)                 // compare with the local copy of front
    | PLoadFront(x: Item, canAlloc: bool)             // local copy says full: load front
    | PWrite(x: Item)                                 // construct the element in the tail block
    | PStoreTail(x: Item)
    | PFull(x: Item, canAlloc: bool, held: nat)       // tail block was full: compare next with frontBlock;
                                                      // held: what the queue held when it was
    | PLoadNext(x: Item)                              // a free block is ahead: look at it
    | PWriteNext(x: Item)
    | PStoreNextTail(x: Item)
    | PStoreTailBlock(x: Item)
    | PAllocate(x: Item)
    | PLink(x: Item, made: nat)
    | PPublish(x: Item, made: nat)

  /** Where the consumer stands in `try_dequeue`. */
  datatype Consumer =
    | CIdle
    | CBegin                                          // compare with the local copy of tail
    | CLoadTail                                       // local copy says empty: load tail
    | CLoadTailBlock(wasEmpty: bool)                  // still empty: is there another block?
    | CReloadTail                                     // there is: look at the front block again
    | CTake                                           // front block not empty: move the element out
    | CStoreFront(item: Item)
    | CLoadNext
    | CLookNext(ahead: nat)
    | CStoreFrontBlock(ahead: nat)
    | CTakeNext
    | CStoreNextFront(item: Item)

  /** History: everything enqueued and dequeued so far, and `ring`, the blocks in
      the order of their `next` pointers from the front block on; tpos is the
      place of the tail block in it.  `failed` is set when an assertion of the
      source fails. */
  datatype State = State(
    blocks: seq<Block>,
    frontBlock: nat,
    tailBlock: nat,
    largest: nat,       // largestBlockSize
    maxBlock: nat,      // MAX_BLOCK_SIZE
    producer: Producer,
    consumer: Consumer,
    enqueued: seq<Item>,
    dequeued: seq<Item>,
    ring: seq<nat>,
    tpos: nat,
    failed: bool
  )

  // ---------------------------------------------------------------------
  // Circular buffers
  // ---------------------------------------------------------------------

  function Size(b: Block): nat {
    |b.data|
  }

  /** (i + 1) & sizeMask, for an index of the block. */
  function Inc(b: Block, i: nat): nat {
    if i + 1 == Size(b) then 0 else i + 1
  }

  predicate Indices(b: Block) {
    && Size(b) >= 2
    && b.front < Size(b) && b.localTail < Size(b) && b.tail < Size(b) && b.localFront < Size(b)
  }

  /** How far index j is ahead of index i, around the buffer. */
  function Dist(b: Block, i: nat, j: nat): (d: nat)
    requires i < Size(b) && j < Size(b)
    ensures d < Size(b)
  {
    if i <= j then j - i else j + Size(b) - i
  }

  function Count(b: Block): nat
    requires Indices(b)
  {
    Dist(b, b.front, b.tail)
  }

  /** The place k steps after front. */
  function Place(b: Block, k: nat): (i: nat)
    requires Indices(b) && k < Size(b)
    ensures i < Size(b)
  {
    if b.front + k < Size(b) then b.front + k else b.front + k - Size(b)
  }

  /** The elements of a block, oldest first. */
  function Content(b: Block): (c: seq<Item>)
    requires Indices(b)
    ensures |c| == Count(b)
  {
    seq(Count(b), k requires 0 <= k < Count(b) => b.data[Place(b, k)])
  }

  /** The local copies lag behind but stay within reach. */
  predicate BlockOk(b: Block) {
    && Indices(b)
    && Dist(b, b.localFront, b.front) + Count(b) <= Size(b) - 1
    && Dist(b, b.front, b.localTail) <= Count(b)
  }

  predicate Full(b: Block)
    requires Indices(b)
  {
    Count(b) == Size(b) - 1
  }

  // ---------------------------------------------------------------------
  // The ring
  // ---------------------------------------------------------------------

  predicate ValidIds(s: State) {
    && (forall i :: 0 <= i < |s.ring| ==> s.ring[i] < |s.blocks|)
    && s.frontBlock < |s.blocks| && s.tailBlock < |s.blocks|
    && (forall b :: 0 <= b < |s.blocks| ==> BlockOk(s.blocks[b]) && s.blocks[b].next < |s.blocks|)
    && s.tpos < |s.ring| && s.largest >= 2
  }

  function Flatten(blocks: seq<Block>, ids: seq<nat>): seq<Item>
    requires forall i :: 0 <= i < |ids| ==> ids[i] < |blocks| && Indices(blocks[ids[i]])
  {
    if ids == [] then [] else Content(blocks[ids[0]]) + Flatten(blocks, ids[1..])
  }

  /** The contents of the queue. */
  function Contents(s: State): seq<Item>
    requires ValidIds(s)
  {
    Flatten(s.blocks, s.ring[..s.tpos + 1])
  }

  function Front(s: State): Block
    requires ValidIds(s)
  {
    s.blocks[s.frontBlock]
  }

  function Tail(s: State): Block
    requires ValidIds(s)
  {
    s.blocks[s.tailBlock]
  }

  /** The block after the tail block. */
  function Ahead(s: State): Block
    requires ValidIds(s)
  {
    s.blocks[Tail(s).next]
  }

  function SetBlock(s: State, i: nat, b: Block): State
    requires i < |s.blocks|
  {
    s.(blocks := s.blocks[i := b])
  }

  function To(s: State, p: Producer): State {
    s.(producer := p)
  }

  function CTo(s: State, c: Consumer): State {
    s.(consumer := c)
  }

  // ---------------------------------------------------------------------
  // Producer
  // ---------------------------------------------------------------------

  datatype Event =
    | CallEnqueue(x: Item, canAlloc: bool)
    | ProducerStep(granted: bool)   // whether an allocation, should one be made now, succeeds
    | CallDequeue
    | ConsumerStep

  predicate Enabled(s: State, ev: Event) {
    && !s.failed && ValidIds(s)
    && match ev
       case CallEnqueue(x, canAlloc) => s.producer.PIdle?
       case ProducerStep(granted) => !s.producer.PIdle?
       case CallDequeue => s.consumer.CIdle?
       case ConsumerStep => !s.consumer.CIdle?
  }

  /** The tail block, with an element constructed behind its last one. */
  function Constructed(b: Block, x: Item): Block
    requires Indices(b)
  {
    b.(data := b.data[b.tail := x])
  }

  function Pushed(b: Block): Block
    requires Indices(b)
  {
    b.(tail := Inc(b, b.tail))
  }

  /** A new block holding x alone, pointing where `next` does. */
  function FreshBlock(size: nat, x: Item, next: nat): Block
    requires size >= 2
  {
    Block(seq(size, _ => x), 0, 1, 1, 0, next)
  }

  function StepPBegin(s: State): State
    requires ValidIds(s) && s.producer.PBegin?
  {
    var p := s.producer;
    if Inc(Tail(s), Tail(s).tail) != Tail(s).localFront
    then To(s, PWrite(p.x))
    else To(s, PLoadFront(p.x, p.canAlloc))
  }

  function StepPLoadFront(s: State): State
    requires ValidIds(s) && s.producer.PLoadFront?
  {
    var p, b := s.producer, Tail(s);
    var s' := SetBlock(s, s.tailBlock, b.(localFront := b.front));
    if Inc(b, b.tail) != b.front
    then To(s', PWrite(p.x))
    else To(s', PFull(p.x, p.canAlloc, |Contents(s)|))
  }

  function StepPStoreTail(s: State): State
    requires ValidIds(s) && s.producer.PStoreTail?
  {
    var s' := SetBlock(s, s.tailBlock, Pushed(Tail(s)));
    To(s'.(enqueued := s.enqueued + [s.producer.x]), PIdle)
  }

  /** Try the block ahead; failing that, allocate; failing that, give up. */
  function StepPFull(s: State): State
    requires ValidIds(s) && s.producer.PFull?
  {
    var p := s.producer;
    if Tail(s).next != s.frontBlock then To(s, PLoadNext(p.x))
    else if p.canAlloc then To(s, PAllocate(p.x))
    else To(s, PIdle)
  }

  function StepPLoadNext(s: State): State
    requires ValidIds(s) && s.producer.PLoadNext?
  {
    var b := Ahead(s);
    var s' := SetBlock(s, Tail(s).next, b.(localFront := b.front));
    To(s'.(failed := b.front != b.tail), PWriteNext(s.producer.x))
  }

  function StepPStoreTailBlock(s: State): State
    requires ValidIds(s) && s.producer.PStoreTailBlock?
  {
    To(s.(tailBlock := Tail(s).next, tpos := s.tpos + 1, enqueued := s.enqueued + [s.producer.x]), PIdle)
  }

  function NewBlockSize(s: State): nat {
    if s.largest >= s.maxBlock then s.largest else s.largest * 2
  }

  function StepPAllocate(s: State, granted: bool): State
    requires ValidIds(s) && s.producer.PAllocate?
  {
    var x, size := s.producer.x, NewBlockSize(s);
    if !granted then To(s, PIdle)
    else
      To(s.(blocks := s.blocks + [FreshBlock(size, x, Tail(s).next)], largest := size), PLink(x, |s.blocks|))
  }

  function StepPLink(s: State): State
    requires ValidIds(s) && s.producer.PLink?
  {
    var p := s.producer;
    var s' := SetBlock(s, s.tailBlock, Tail(s).(next := p.made));
    To(s'.(ring := s.ring[..s.tpos + 1] + [p.made] + s.ring[s.tpos + 1..]), PPublish(p.x, p.made))
  }

  function StepPPublish(s: State): State
    requires ValidIds(s) && s.producer.PPublish?
  {
    var p := s.producer;
    To(s.(tailBlock := p.made, tpos := s.tpos + 1, enqueued := s.enqueued + [p.x]), PIdle)
  }

  function NextProducer(s: State, granted: bool): State
    requires Enabled(s, ProducerStep(granted))
  {
    match s.producer
    case PBegin(x, canAlloc) => StepPBegin(s)
    case PLoadFront(x, canAlloc) => StepPLoadFront(s)
    case PWrite(x) => To(SetBlock(s, s.tailBlock, Constructed(Tail(s), x)), PStoreTail(x))
    case PStoreTail(x) => StepPStoreTail(s)
    case PFull(x, canAlloc, held) => StepPFull(s)
    case PLoadNext(x) => StepPLoadNext(s)
    case PWriteNext(x) => To(SetBlock(s, Tail(s).next, Constructed(Ahead(s), x)), PStoreNextTail(x))
    case PStoreNextTail(x) => To(SetBlock(s, Tail(s).next, Pushed(Ahead(s))), PStoreTailBlock(x))
    case PStoreTailBlock(x) => StepPStoreTailBlock(s)
    case PAllocate(x) => StepPAllocate(s, granted)
    case PLink(x, made) => StepPLink(s)
    case PPublish(x, made) => StepPPublish(s)
  }

  // ---------------------------------------------------------------------
  // Consumer
  // ---------------------------------------------------------------------

  function Popped(b: Block): Block
    requires Indices(b)
  {
    b.(front := Inc(b, b.front))
  }

  function StepCLoadTail(s: State): State
    requires ValidIds(s)
  {
    var b := Front(s);
    var s' := SetBlock(s, s.frontBlock, b.(localTail := b.tail));
    if b.front != b.tail then CTo(s', CTake) else CTo(s', CLoadTailBlock(Contents(s) == []))
  }

  function StepCReloadTail(s: State): State
    requires ValidIds(s)
  {
    var b := Front(s);
    var s' := SetBlock(s, s.frontBlock, b.(localTail := b.tail));
    if b.front != b.tail then CTo(s', CTake) else CTo(s', CLoadNext)
  }

  function StepCLookNext(s: State): State
    requires ValidIds(s) && s.consumer.CLookNext? && s.consumer.ahead < |s.blocks|
  {
    var ahead := s.consumer.ahead;
    var b := s.blocks[ahead];
    CTo(SetBlock(s, ahead, b.(localTail := b.tail)).(failed := b.front == b.tail), CStoreFrontBlock(ahead))
  }

  function StepCStoreFrontBlock(s: State): State
    requires ValidIds(s) && s.consumer.CStoreFrontBlock? && s.tpos > 0
  {
    CTo(s.(frontBlock := s.consumer.ahead, ring := s.ring[1..] + [s.ring[0]], tpos := s.tpos - 1), CTakeNext)
  }

  function StepPop(s: State, item: Item): State
    requires ValidIds(s)
  {
    CTo(SetBlock(s, s.frontBlock, Popped(Front(s))).(dequeued := s.dequeued + [item]), CIdle)
  }

  /** The pointers the consumer follows lead somewhere. */
  predicate ConsumerSafe(s: State) {
    && (s.consumer.CLookNext? || s.consumer.CStoreFrontBlock? ==> s.consumer.ahead < |s.blocks|)
    && (s.consumer.CStoreFrontBlock? ==> s.tpos > 0)
  }

  function NextConsumer(s: State): State
    requires Enabled(s, ConsumerStep) && ConsumerSafe(s)
  {
    match s.consumer
    case CBegin => CTo(s, if Front(s).front != Front(s).localTail then CTake else CLoadTail)
    case CLoadTail => StepCLoadTail(s)
    case CLoadTailBlock(wasEmpty) => CTo(s, if s.frontBlock != s.tailBlock then CReloadTail else CIdle)
    case CReloadTail => StepCReloadTail(s)
    case CTake => CTo(s, CStoreFront(Front(s).data[Front(s).front]))
    case CStoreFront(item) => StepPop(s, item)
    case CLoadNext => CTo(s, CLookNext(Front(s).next))
    case CLookNext(ahead) => StepCLookNext(s)
    case CStoreFrontBlock(ahead) => StepCStoreFrontBlock(s)
    case CTakeNext => CTo(s, CStoreNextFront(Front(s).data[Front(s).front]))
    case CStoreNextFront(item) => StepPop(s, item)
  }

  function Next(s: State, ev: Event): State
    requires Enabled(s, ev) && ConsumerSafe(s)
  {
    match ev
    case CallEnqueue(x, canAlloc) => To(s, PBegin(x, canAlloc))
    case ProducerStep(granted) => NextProducer(s, granted)
    case CallDequeue => CTo(s, CBegin)
    case ConsumerStep => NextConsumer(s)
  }
}
