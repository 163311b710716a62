module QueueCapacity {
  // How much the queue holds: the constructor reserves enough blocks for `size`
  // elements, and no run ever gives that room up.

  import opened QueueModel
  import opened QueueInvariant
  import opened QueueSteps

  // ---------------------------------------------------------------------
  // Constructor
  // ---------------------------------------------------------------------

  predicate PowerOfTwo(n: nat) {
    n == 1 || (n > 1 && n % 2 == 0 && PowerOfTwo(n / 2))
  }

  /** The least power of two from p on, a power of two, that is at least x. */
  function PowerFrom(p: nat, x: nat): (r: nat)
    requires PowerOfTwo(p)
    ensures PowerOfTwo(r) && r >= x && r >= p
    ensures r == p || r < 2 * x
    decreases if p < x then x - p else 0
  {
    if p >= x then p else assert 2 * p / 2 == p; PowerFrom(2 * p, x)
  }

  function CeilToPow2(x: nat): nat {
    PowerFrom(1, x)
  }

  function EmptyBlock(size: nat, next: nat): Block
    requires size >= 2
  {
    Block(seq(size, _ => Item(0)), 0, 0, 0, 0, next)
  }

  /** Block i of a new queue points to the one after it, the last to the first. */
  predicate Reserved(blocks: seq<Block>, size: nat) {
    && size >= 2
    && forall i :: 0 <= i < |blocks| ==>
         blocks[i] == EmptyBlock(size, Succ(|blocks|, i)).(data := blocks[i].data) && |blocks[i].data| == size
  }

  /** What so many blocks of b places hold, one of them being kept to spare. */
  function Room(blocks: nat, b: nat): nat
    requires b >= 1
  {
    if blocks <= 1 then b - 1 else (blocks - 1) * (b - 1)
  }

  /** Enough blocks of enough size for n elements at once. */
  predicate Roomy(s: State, b: nat, n: nat) {
    && b >= 2 && s.largest >= b && s.maxBlock >= 1
    && (forall i :: 0 <= i < |s.blocks| ==> |s.blocks[i].data| >= b)
    && Room(|s.ring|, b) >= n
  }

  /** A queue just constructed. */
  ghost predicate Init(s: State) {
    && |s.blocks| >= 1 && Reserved(s.blocks, s.largest)
    && s.ring == seq(|s.blocks|, i requires 0 <= i => i) && s.tpos == 0
    && s.frontBlock == 0 && s.tailBlock == 0
    && s.producer == PIdle && s.consumer == CIdle
    && s.enqueued == [] && s.dequeued == [] && !s.failed
  }

  /** The reserved blocks, made one by one: each new block is linked behind the
      last one and back to the first. */
  method ReserveBlocks(count: nat, size: nat) returns (blocks: seq<Block>)
    requires count >= 1 && size >= 2
    ensures |blocks| == count && Reserved(blocks, size)
  {
    blocks := [];
    var i := 0;
    while i != count
      invariant 0 <= i <= count && |blocks| == i && Reserved(blocks, size)
    {
      if i > 0 {
        blocks := blocks[i - 1 := blocks[i - 1].(next := i)];
      }
      blocks := blocks + [EmptyBlock(size, 0)];
      i := i + 1;
    }
  }

  /** size elements, in blocks of b - 1 usable places, and one block to spare: with one
      block fewer there would not be room. */
  lemma BlockCount(size: nat, b: nat)
    requires b >= 2 && size >= 1
    ensures var count := (size + b * 2 - 3) / (b - 1);
            count >= 2 && (count - 2) * (b - 1) < size <= (count - 1) * (b - 1)
  {
    var count, rest := (size + b * 2 - 3) / (b - 1), (size + b * 2 - 3) % (b - 1);
    assert count * (b - 1) + rest == size + b * 2 - 3;
    assert (count - 1) * (b - 1) == count * (b - 1) - (b - 1);
    assert (count - 2) * (b - 1) == count * (b - 1) - 2 * (b - 1);
    assert (count - 1) * (b - 1) >= size;
  }

  method Construct(size: nat, maxBlock: nat) returns (s: State)
    requires size > 0 && maxBlock >= 2 && PowerOfTwo(maxBlock)
    ensures Init(s) && Roomy(s, s.largest, size) && PowerOfTwo(s.largest) && s.maxBlock == maxBlock
    ensures |s.ring| == 1 <==> CeilToPow2(size + 1) <= 2 * maxBlock
    ensures |s.ring| == 1 ==> s.largest / 2 <= size < s.largest
    ensures |s.ring| > 1 ==> s.largest == maxBlock && Room(|s.ring| - 1, maxBlock) < size
  {
    var largest := CeilToPow2(size + 1);
    var count := 1;
    if largest > maxBlock * 2 {
      BlockCount(size, maxBlock);
      count := (size + maxBlock * 2 - 3) / (maxBlock - 1);
      largest := maxBlock;
    }
    var blocks := ReserveBlocks(count, largest);
    s := State(blocks, 0, 0, largest, maxBlock, PIdle, CIdle, [], [], seq(count, i requires 0 <= i => i), 0, false);
  }

  lemma InitInv(s: State)
    requires Init(s)
    ensures Inv(s)
  {
    forall i: nat | i < |s.ring|
      ensures ValidIds(s) && Linked(s.blocks, s.ring, i) && Filled(s.blocks, s.ring, s.tpos, Pending(s), i)
    {
      assert s.ring[i] == i;
    }
    assert ValidIds(s);
    OneBlock(s);
  }

  // ---------------------------------------------------------------------
  // The room stays
  // ---------------------------------------------------------------------

  lemma RoomGrows(blocks: nat, b: nat)
    requires b >= 1
    ensures Room(blocks + 1, b) >= Room(blocks, b)
  {
    assert blocks * (b - 1) == (blocks - 1) * (b - 1) + (b - 1);
  }

  lemma LinkKeepsRoom(s: State, b: nat, n: nat)
    requires ValidIds(s) && Roomy(s, b, n) && s.producer.PLink? && s.producer.made < |s.blocks|
    ensures Roomy(StepPLink(s), b, n)
  {
    assert |StepPLink(s).ring| == |s.ring| + 1;
    RoomGrows(|s.ring|, b);
  }

  lemma ProducerKeepsRoom(s: State, granted: bool, b: nat, n: nat)
    requires Enabled(s, ProducerStep(granted)) && Roomy(s, b, n) && !s.producer.PLink?
    ensures Roomy(NextProducer(s, granted), b, n)
  {
    hide Flatten, Contents, Count, Dist, StepPLink;
    var s' := NextProducer(s, granted);
    assert |s'.ring| == |s.ring|;
    if s.producer.PAllocate? {
      assert NewBlockSize(s) >= b;
    } else {
      assert |s'.blocks| == |s.blocks| && s'.largest == s.largest;
    }
  }

  lemma ConsumerKeepsRoom(s: State, b: nat, n: nat)
    requires Enabled(s, ConsumerStep) && ConsumerSafe(s) && Roomy(s, b, n)
    ensures Roomy(NextConsumer(s), b, n)
  {
  }

  /** Whatever either thread does next, there is still room for n elements. */
  lemma RoomyKept(s: State, ev: Event, b: nat, n: nat)
    requires Inv(s) && Roomy(s, b, n) && Enabled(s, ev) && ConsumerSafe(s)
    ensures Roomy(Next(s, ev), b, n)
  {
    match ev
    case CallEnqueue(x, canAlloc) =>
    case CallDequeue =>
    case ConsumerStep => ConsumerKeepsRoom(s, b, n);
    case ProducerStep(granted) =>
      if s.producer.PLink? {
        LinkKeepsRoom(s, b, n);
      } else {
        ProducerKeepsRoom(s, granted, b, n);
      }
  }

  /** A row of full blocks of at least b places holds b - 1 elements each. */
  lemma {:induction false} FullRow(blocks: seq<Block>, ids: seq<nat>, b: nat)
    requires Row(blocks, ids) && b >= 1
    requires forall i :: 0 <= i < |ids| ==> Full(blocks[ids[i]]) && Size(blocks[ids[i]]) >= b
    ensures |Flatten(blocks, ids)| >= |ids| * (b - 1)
  {
    if ids != [] {
      assert Full(blocks[ids[0]]);
      FullRow(blocks, ids[1..], b);
      assert |ids| * (b - 1) == (|ids| - 1) * (b - 1) + (b - 1);
    }
  }

  /** The tail block was full, and no free block is ahead. */
  predicate NoBlockAhead(s: State) {
    ValidIds(s) && s.producer.PFull? && Tail(s).next == s.frontBlock
  }

  /** try_enqueue, which may not allocate, gives up. */
  predicate Refuses(s: State) {
    NoBlockAhead(s) && !s.producer.canAlloc
  }

  /** An enqueue gives up, or allocates, only if the queue holds n elements now, or held
      them when it found its one block full. */
  lemma RefusesOnlyWhenFull(s: State, b: nat, n: nat)
    requires Inv(s) && Roomy(s, b, n) && NoBlockAhead(s)
    ensures |Contents(s)| >= n || s.producer.held >= n
  {
    AheadAt(s);
    assert s.tpos + 1 == |s.ring|;
    if s.tpos > 0 {
      var rest := s.ring[1..s.tpos + 1];
      forall i | 0 <= i < |rest|
        ensures rest[i] < |s.blocks| && Full(s.blocks[rest[i]])
      {
        assert Filled(s.blocks, s.ring, s.tpos, Pending(s), i + 1);
      }
      FullRow(s.blocks, rest, b);
      ContentsStart(s);
    }
  }
}
