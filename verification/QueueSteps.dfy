// Every step of either thread keeps the queue's invariant.

module QueueSteps {
  import opened QueueModel
  import opened QueueInvariant

  /** s' differs from s, as far as the ring goes, in the contents of block i only. */
  predicate OnlyBlock(s: State, s': State, i: nat)
    requires ValidIds(s)
  {
    && i < |s.blocks| && |s'.blocks| == |s.blocks|
    && (forall j :: 0 <= j < |s.blocks| && j != i ==> s'.blocks[j] == s.blocks[j])
    && s'.blocks[i].next == s.blocks[i].next && |s'.blocks[i].data| == |s.blocks[i].data|
    && BlockOk(s'.blocks[i])
    && s'.ring == s.ring && s'.tpos == s.tpos && s'.frontBlock == s.frontBlock && s'.tailBlock == s.tailBlock
    && s'.largest == s.largest
  }

  lemma RingKept(s: State, s': State, i: nat)
    requires ValidIds(s) && RingOk(s) && OnlyBlock(s, s', i)
    ensures ValidIds(s') && RingOk(s')
  {
    forall j: nat | j < |s.ring|
      ensures Linked(s'.blocks, s'.ring, j)
    {
      assert Linked(s.blocks, s.ring, j);
    }
  }

  /** A step that leaves the contents of every block alone keeps the queue's. */
  lemma ContentsKept(s: State, s': State, i: nat)
    requires ValidIds(s) && RingOk(s) && FillOk(s) && OnlyBlock(s, s', i)
    requires Content(s'.blocks[i]) == Content(s.blocks[i]) && Pending(s') == Pending(s)
    ensures ValidIds(s') && Contents(s') == Contents(s) && FillOk(s')
  {
    FlattenSame(s.blocks, s'.blocks, s.ring[..s.tpos + 1]);
    forall j: nat | j < |s.ring|
      ensures Filled(s'.blocks, s'.ring, s'.tpos, Pending(s'), j)
    {
      assert Filled(s.blocks, s.ring, s.tpos, Pending(s), j);
    }
  }

  /** Only block i changes: the others stay as filled as they were. */
  lemma FillKept(s: State, s': State, i: nat)
    requires ValidIds(s) && RingOk(s) && FillOk(s) && OnlyBlock(s, s', i) && ValidIds(s')
    requires Pending(s) ==> Pending(s')
    requires forall j: nat :: j < |s.ring| && s.ring[j] == i ==> Filled(s'.blocks, s'.ring, s'.tpos, Pending(s'), j)
    ensures FillOk(s')
  {
    forall j: nat | j < |s.ring|
      ensures Filled(s'.blocks, s'.ring, s'.tpos, Pending(s'), j)
    {
      assert Filled(s.blocks, s.ring, s.tpos, Pending(s), j);
    }
  }

  lemma FillUntouched(s: State, s': State)
    requires ValidIds(s) && FillOk(s) && ValidIds(s')
    requires s'.blocks == s.blocks && s'.ring == s.ring && s'.tpos == s.tpos && Pending(s') == Pending(s)
    ensures FillOk(s')
  {
    assert forall j: nat :: j < |s.ring| ==> Filled(s.blocks, s.ring, s.tpos, Pending(s), j);
  }

  /** The block ahead of the tail block. */
  lemma AheadAt(s: State)
    requires ValidIds(s) && RingOk(s)
    ensures Tail(s).next == s.ring[Succ(|s.ring|, s.tpos)]
    ensures s.tpos + 1 < |s.ring| ==> Tail(s).next != s.tailBlock && Tail(s).next != s.frontBlock
  {
    assert Linked(s.blocks, s.ring, s.tpos);
  }

  // ---------------------------------------------------------------------
  // Producer
  // ---------------------------------------------------------------------

  lemma StepBegin(s: State)
    requires Inv(s) && s.producer.PBegin?
    ensures Inv(StepPBegin(s))
  {
    hide Flatten, Content, Linked, FillOk, HistoryOk, ConsumerOk;
    ProducerMoves(s, StepPBegin(s).producer);
  }

  lemma StepLoadFront(s: State)
    requires Inv(s) && s.producer.PLoadFront?
    ensures Inv(StepPLoadFront(s))
  {
    var s' := StepPLoadFront(s);
    LookAtFront(Tail(s));
    assert OnlyBlock(s, s', s.tailBlock);
    RingKept(s, s', s.tailBlock);
    ContentsKept(s, s', s.tailBlock);
    ContentsEnd(s);
    assert ProducerOk(s');
    assert ConsumerOk(s');
  }

  lemma StepWrite(s: State)
    requires Inv(s) && s.producer.PWrite?
    ensures Inv(NextProducer(s, false))
  {
    var s' := NextProducer(s, false);
    ConstructKeepsBlock(Tail(s), s.producer.x);
    RingKept(s, s', s.tailBlock);
    ContentsKept(s, s', s.tailBlock);
  }

  lemma StepStoreTail(s: State)
    requires Inv(s) && s.producer.PStoreTail?
    ensures Inv(StepPStoreTail(s))
  {
    hide Flatten, Contents, Count, Dist, Linked, RingOk, Ahead;
    var s' := StepPStoreTail(s);
    PushKeepsBlock(Tail(s));
    RingKept(s, s', s.tailBlock);
    assert Filled(s.blocks, s.ring, s.tpos, Pending(s), s.tpos);
    FillKept(s, s', s.tailBlock);
    ContentsEnd(s);
    ContentsEnd(s');
    FlattenSame(s.blocks, s'.blocks, s.ring[..s.tpos]);
  }

  lemma StepFull(s: State)
    requires Inv(s) && s.producer.PFull?
    ensures Inv(StepPFull(s))
  {
    hide Flatten, Content, FillOk, HistoryOk, ConsumerOk;
    AheadAt(s);
    ProducerMoves(s, StepPFull(s).producer);
  }

  lemma StepLoadNext(s: State)
    requires Inv(s) && s.producer.PLoadNext?
    ensures Inv(StepPLoadNext(s))
  {
    hide Flatten, Linked;
    var s' := StepPLoadNext(s);
    AheadAt(s);
    LookAtFront(Ahead(s));
    assert Filled(s.blocks, s.ring, s.tpos, Pending(s), s.tpos + 1);
    RingKept(s, s', Tail(s).next);
    ContentsKept(s, s', Tail(s).next);
  }

  lemma StepWriteNext(s: State)
    requires Inv(s) && s.producer.PWriteNext?
    ensures Inv(NextProducer(s, false))
  {
    var s' := NextProducer(s, false);
    AheadAt(s);
    ConstructKeepsBlock(Ahead(s), s.producer.x);
    RingKept(s, s', Tail(s).next);
    ContentsKept(s, s', Tail(s).next);
  }

  lemma StepStoreNextTail(s: State)
    requires Inv(s) && s.producer.PStoreNextTail?
    ensures Inv(NextProducer(s, false))
  {
    var s' := NextProducer(s, false);
    AheadAt(s);
    assert Filled(s.blocks, s.ring, s.tpos, Pending(s), s.tpos + 1);
    PushKeepsBlock(Ahead(s));
    RingKept(s, s', Tail(s).next);
    FillKept(s, s', Tail(s).next);
    FlattenSame(s.blocks, s'.blocks, s.ring[..s.tpos + 1]);
  }

  /** tailBlock moves on: the block ahead joins the queue. */
  lemma StepAdvanceTail(s: State, s': State)
    requires Inv(s) && Pending(s)
    requires s' == To(s.(tailBlock := Tail(s).next, tpos := s.tpos + 1, enqueued := s.enqueued + [s.producer.x]), PIdle)
    ensures Inv(s')
  {
    AheadAt(s);
    forall j: nat | j < |s.ring|
      ensures Filled(s'.blocks, s'.ring, s'.tpos, Pending(s'), j)
    {
      assert Filled(s.blocks, s.ring, s.tpos, Pending(s), j);
    }
    ContentsEnd(s');
    assert s'.ring[..s'.tpos] == s.ring[..s.tpos + 1];
  }

  lemma StepAllocate(s: State, granted: bool)
    requires Inv(s) && s.producer.PAllocate?
    ensures Inv(StepPAllocate(s, granted))
  {
    var s' := StepPAllocate(s, granted);
    if !granted {
      ProducerMoves(s, PIdle);
    } else {
      hide Flatten;
      var made := s'.blocks[|s.blocks|];
      assert Place(made, 0) == 0;
      assert Content(made) == [s.producer.x];
      forall j: nat | j < |s.ring|
        ensures Linked(s'.blocks, s'.ring, j) && Filled(s'.blocks, s'.ring, s'.tpos, Pending(s'), j)
      {
        assert Linked(s.blocks, s.ring, j) && Filled(s.blocks, s.ring, s.tpos, Pending(s), j);
      }
      FlattenSame(s.blocks, s'.blocks, s.ring[..s.tpos + 1]);
    }
  }

  /** The new block goes into the ring behind the tail block. */
  lemma LinkShape(s: State)
    requires Inv(s) && s.producer.PLink?
    ensures var s' := StepPLink(s);
            && ValidIds(s') && |s'.ring| == |s.ring| + 1
            && (forall j :: 0 <= j <= s.tpos ==> s'.ring[j] == s.ring[j])
            && s'.ring[s.tpos + 1] == s.producer.made
            && (forall j :: s.tpos + 1 < j < |s'.ring| ==> s'.ring[j] == s.ring[j - 1])
            && s'.tpos == s.tpos && s'.frontBlock == s.frontBlock && s'.tailBlock == s.tailBlock
            && s'.blocks == s.blocks[s.tailBlock := Tail(s).(next := s.producer.made)]
            && s'.producer == PPublish(s.producer.x, s.producer.made) && s'.consumer == s.consumer
            && s'.enqueued == s.enqueued && s'.dequeued == s.dequeued && !s'.failed
  {
    hide Flatten, Content, Linked, Filled, HistoryOk, ConsumerOk;
  }

  lemma LinkKeepsDistinct(s: State)
    requires Inv(s) && s.producer.PLink?
    ensures var s' := StepPLink(s); forall i, j :: 0 <= i < j < |s'.ring| ==> s'.ring[i] != s'.ring[j]
  {
    hide Flatten, Content, Linked, Filled, FillOk, HistoryOk, ConsumerOk, StepPLink, BlockOk;
    LinkShape(s);
    assert forall j :: 0 <= j < |s.ring| ==> s.ring[j] != s.producer.made;
  }

  lemma LinkKeepsLinks(s: State, j: nat)
    requires Inv(s) && s.producer.PLink? && j <= |s.ring|
    ensures var s' := StepPLink(s); j < |s'.ring| && Linked(s'.blocks, s'.ring, j)
  {
    hide Flatten, Content, Filled, FillOk, HistoryOk, ConsumerOk, StepPLink, BlockOk;
    LinkShape(s);
    AheadAt(s);
    if j <= s.tpos {
      assert Linked(s.blocks, s.ring, j);
    } else if j > s.tpos + 1 {
      assert Linked(s.blocks, s.ring, j - 1);
    }
  }

  lemma LinkKeepsRing(s: State)
    requires Inv(s) && s.producer.PLink?
    ensures var s' := StepPLink(s); ValidIds(s') && RingOk(s')
  {
    hide Flatten, Content, Linked, Filled, FillOk, HistoryOk, ConsumerOk, StepPLink, BlockOk;
    LinkShape(s);
    LinkKeepsDistinct(s);
    forall j: nat | j < |StepPLink(s).ring|
      ensures Linked(StepPLink(s).blocks, StepPLink(s).ring, j)
    {
      LinkKeepsLinks(s, j);
    }
  }

  lemma LinkKeepsFill(s: State)
    requires Inv(s) && s.producer.PLink?
    ensures var s' := StepPLink(s); ValidIds(s') && FillOk(s')
  {
    var s', k := StepPLink(s), s.tpos + 1;
    LinkShape(s);
    forall j: nat | j < |s'.ring|
      ensures Filled(s'.blocks, s'.ring, s'.tpos, Pending(s'), j)
    {
      if j < k {
        assert Filled(s.blocks, s.ring, s.tpos, Pending(s), j);
      } else if j > k {
        assert Filled(s.blocks, s.ring, s.tpos, Pending(s), j - 1);
      }
    }
  }

  lemma LinkKeepsContents(s: State)
    requires Inv(s) && s.producer.PLink?
    ensures var s' := StepPLink(s); ValidIds(s') && HistoryOk(s')
  {
    hide Content, Linked, Filled, FillOk, ConsumerOk, StepPLink;
    var s' := StepPLink(s);
    LinkShape(s);
    assert s.ring[s.tpos] == s.tailBlock && s.producer.made !in s.ring;
    assert s'.ring[..s'.tpos + 1] == s.ring[..s.tpos + 1];
    SameContent(Tail(s), s.producer.made);
    FlattenSame(s.blocks, s'.blocks, s.ring[..s.tpos + 1]);
  }

  lemma SameContent(b: Block, next: nat)
    requires BlockOk(b)
    ensures var b' := b.(next := next); BlockOk(b') && Content(b') == Content(b) && (Seen(b') <==> Seen(b))
  {
  }

  lemma StepLink(s: State)
    requires Inv(s) && s.producer.PLink?
    ensures Inv(StepPLink(s))
  {
    hide Linked, Filled, FillOk, Flatten, HistoryOk, StepPLink;
    var s', made := StepPLink(s), s.producer.made;
    LinkShape(s);
    LinkKeepsRing(s);
    LinkKeepsFill(s);
    LinkKeepsContents(s);
    assert s.ring[s.tpos] == s.tailBlock && made !in s.ring;
    SameContent(Tail(s), made);
  }

  lemma ProducerStepKeepsInv(s: State, granted: bool)
    requires Inv(s) && Enabled(s, ProducerStep(granted))
    ensures Inv(NextProducer(s, granted))
  {
    match s.producer
    case PBegin(x, canAlloc) => StepBegin(s);
    case PLoadFront(x, canAlloc) => StepLoadFront(s);
    case PWrite(x) => StepWrite(s);
    case PStoreTail(x) => StepStoreTail(s);
    case PFull(x, canAlloc, held) => StepFull(s);
    case PLoadNext(x) => StepLoadNext(s);
    case PWriteNext(x) => StepWriteNext(s);
    case PStoreNextTail(x) => StepStoreNextTail(s);
    case PStoreTailBlock(x) => StepAdvanceTail(s, NextProducer(s, granted));
    case PAllocate(x) => StepAllocate(s, granted);
    case PLink(x, made) => StepLink(s);
    case PPublish(x, made) => StepAdvanceTail(s, NextProducer(s, granted));
  }

  // ---------------------------------------------------------------------
  // Consumer
  // ---------------------------------------------------------------------

  /** When the front block is also the tail block it holds the whole queue. */
  lemma OneBlock(s: State)
    requires ValidIds(s) && RingOk(s) && s.tpos == 0
    ensures Contents(s) == Content(Front(s))
  {
    ContentsStart(s);
    assert s.ring[1..1] == [];
  }

  lemma StepLoadTail(s: State)
    requires Inv(s) && (s.consumer.CLoadTail? || s.consumer.CReloadTail?)
    ensures Inv(NextConsumer(s))
  {
    hide Flatten, Content, Linked, FillOk, Dist;
    var s' := NextConsumer(s);
    LookAtTail(Front(s));
    LookKeepsOthers(s, s', s.frontBlock);
    if s.tpos == 0 {
      OneBlock(s);
    }
  }

  /** Refreshing the local copy of a tail concerns nobody but the consumer. */
  lemma LookKeepsOthers(s: State, s': State, i: nat)
    requires Inv(s) && i < |s.blocks| && !s'.failed
    requires s' == CTo(SetBlock(s, i, s.blocks[i].(localTail := s.blocks[i].tail)), s'.consumer)
    ensures ValidIds(s') && RingOk(s') && FillOk(s') && ProducerOk(s') && HistoryOk(s')
    ensures Contents(s') == Contents(s)
  {
    hide Flatten, Linked, Filled, ConsumerOk, ProducerOk, Content;
    LookAtTail(s.blocks[i]);
    assert OnlyBlock(s, s', i);
    RingKept(s, s', i);
    ContentsKept(s, s', i);
    LookKeepsProducer(s, s', i);
  }

  lemma LookKeepsProducer(s: State, s': State, i: nat)
    requires Inv(s) && i < |s.blocks| && ValidIds(s')
    requires s' == CTo(SetBlock(s, i, s.blocks[i].(localTail := s.blocks[i].tail)), s'.consumer)
    ensures ProducerOk(s')
  {
    hide Flatten, Linked, Filled, FillOk, RingOk, ConsumerOk, HistoryOk, Content, Dist, Count, HasRoom, Full, BlockOk;
    LookAtTail(s.blocks[i]);
  }

  /** Where the consumer stands is its own affair. */
  lemma ConsumerMoves(s: State, c: Consumer)
    requires Inv(s) && ConsumerOk(CTo(s, c))
    ensures Inv(CTo(s, c))
  {
    hide Flatten, Content, Linked, ConsumerOk;
    FillUntouched(s, CTo(s, c));
  }

  lemma ProducerMoves(s: State, p: Producer)
    requires Inv(s) && ProducerOk(To(s, p)) && Pending(To(s, p)) == Pending(s)
    ensures Inv(To(s, p))
  {
    hide Flatten, Content, Linked, ProducerOk;
    FillUntouched(s, To(s, p));
  }

  /** The steps that only look. */
  lemma StepLook(s: State)
    requires Inv(s) && (s.consumer.CLoadTailBlock? || s.consumer.CBegin? || s.consumer.CTake? || s.consumer.CTakeNext?)
    ensures Inv(NextConsumer(s))
  {
    hide Flatten, Content, Linked, FillOk, HistoryOk, ProducerOk;
    ConsumerMoves(s, NextConsumer(s).consumer);
  }

  lemma StepLoadNextBlock(s: State)
    requires Inv(s) && s.consumer.CLoadNext?
    ensures Inv(NextConsumer(s))
  {
    hide Flatten, Content, FillOk, HistoryOk, ProducerOk;
    assert Linked(s.blocks, s.ring, 0);
    ConsumerMoves(s, NextConsumer(s).consumer);
  }

  lemma StepLookNext(s: State)
    requires Inv(s) && s.consumer.CLookNext?
    ensures Inv(StepCLookNext(s))
  {
    var s', ahead := StepCLookNext(s), s.consumer.ahead;
    hide Flatten, Content, ProducerOk, HistoryOk;
    assert Filled(s.blocks, s.ring, s.tpos, Pending(s), 1);
    LookAtTail(s.blocks[ahead]);
    LookKeepsOthers(s, s', ahead);
  }

  lemma AdvanceFrontKeepsRing(s: State)
    requires Inv(s) && s.consumer.CStoreFrontBlock?
    ensures var s' := StepCStoreFrontBlock(s); ValidIds(s') && RingOk(s') && FillOk(s')
  {
    var s', n := StepCStoreFrontBlock(s), |s.ring|;
    assert forall j :: 0 <= j < n - 1 ==> s'.ring[j] == s.ring[j + 1];
    assert s'.ring[n - 1] == s.ring[0];
    assert ValidIds(s');
    forall j: nat | j < n
      ensures Linked(s'.blocks, s'.ring, j) && Filled(s'.blocks, s'.ring, s'.tpos, Pending(s'), j)
    {
      var i: nat := if j + 1 == n then 0 else j + 1;
      assert Linked(s.blocks, s.ring, i) && Filled(s.blocks, s.ring, s.tpos, Pending(s), i);
    }
  }

  lemma AdvanceFrontKeepsContents(s: State)
    requires Inv(s) && s.consumer.CStoreFrontBlock?
    ensures var s' := StepCStoreFrontBlock(s); ValidIds(s') && Contents(s') == Contents(s)
  {
    var s' := StepCStoreFrontBlock(s);
    AdvanceFrontKeepsRing(s);
    ContentsStart(s);
    assert s'.ring[..s'.tpos + 1] == s.ring[1..s.tpos + 1];
  }

  /** frontBlock moves on: the old front block, empty, joins the free ones. */
  lemma StepAdvanceFront(s: State)
    requires Inv(s) && s.consumer.CStoreFrontBlock?
    ensures Inv(StepCStoreFrontBlock(s))
  {
    var s' := StepCStoreFrontBlock(s);
    AdvanceFrontKeepsRing(s);
    AdvanceFrontKeepsContents(s);
    assert forall id :: id in s'.ring ==> id in s.ring;
    assert ProducerOk(s');
    assert ConsumerOk(s');
  }

  lemma PopKeepsRing(s: State)
    requires Inv(s) && Seen(Front(s))
    ensures var s' := StepPop(s, Front(s).data[Front(s).front]);
            && OnlyBlock(s, s', s.frontBlock) && ValidIds(s') && RingOk(s') && FillOk(s')
  {
    var s' := StepPop(s, Front(s).data[Front(s).front]);
    PopKeepsBlock(Front(s));
    assert OnlyBlock(s, s', s.frontBlock);
    RingKept(s, s', s.frontBlock);
    assert Filled(s.blocks, s.ring, s.tpos, Pending(s), 0);
    FillKept(s, s', s.frontBlock);
  }

  /** A pop takes the oldest element and no other. */
  lemma PopTakesFirst(s: State)
    requires Inv(s) && Seen(Front(s))
    ensures var item := Front(s).data[Front(s).front]; var s' := StepPop(s, item);
            ValidIds(s') && Contents(s) == [item] + Contents(s')
  {
    hide Content, Place, Flatten, Contents, Count, Dist, Linked, RingOk, Filled, FillOk, ConsumerOk;
    var item := Front(s).data[Front(s).front];
    var s' := StepPop(s, item);
    PopKeepsBlock(Front(s));
    PopKeepsRing(s);
    ContentsStart(s);
    ContentsStart(s');
    FlattenSame(s.blocks, s'.blocks, s.ring[1..s.tpos + 1]);
    var rest := Flatten(s.blocks, s.ring[1..s.tpos + 1]);
    assert ([item] + Content(Front(s'))) + rest == [item] + (Content(Front(s')) + rest);
  }

  lemma StepStoreFront(s: State)
    requires Inv(s) && (s.consumer.CStoreFront? || s.consumer.CStoreNextFront?)
    ensures Inv(StepPop(s, s.consumer.item))
  {
    hide Flatten, Content, Linked, Filled, FillOk;
    PopKeepsRing(s);
    PopTakesFirst(s);
    PopKeepsProducer(s);
  }

  lemma PopKeepsProducer(s: State)
    requires Inv(s) && Seen(Front(s))
    ensures var s' := StepPop(s, Front(s).data[Front(s).front]); ValidIds(s') && ProducerOk(s')
  {
    hide Flatten, Linked, Filled, HistoryOk, ConsumerOk;
    PopKeepsBlock(Front(s));
    PopKeepsRing(s);
    AheadAt(s);
  }

  lemma ConsumerStepKeepsInv(s: State)
    requires Inv(s) && Enabled(s, ConsumerStep)
    ensures ConsumerSafe(s) && Inv(NextConsumer(s))
  {
    match s.consumer
    case CBegin => StepLook(s);
    case CLoadTail => StepLoadTail(s);
    case CLoadTailBlock(wasEmpty) => StepLook(s);
    case CReloadTail => StepLoadTail(s);
    case CTake => StepLook(s);
    case CStoreFront(item) => StepStoreFront(s);
    case CLoadNext => StepLoadNextBlock(s);
    case CLookNext(ahead) => StepLookNext(s);
    case CStoreFrontBlock(ahead) => StepAdvanceFront(s);
    case CTakeNext => StepLook(s);
    case CStoreNextFront(item) => StepStoreFront(s);
  }
}
