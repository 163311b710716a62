module QueueRuns {
  // Whole runs of the queue: any interleaving of one producer and one consumer.

  import opened QueueModel
  import opened QueueInvariant
  import opened QueueSteps
  import opened QueueCapacity

  predicate StepAt(states: seq<State>, events: seq<Event>, i: nat)
    requires i < |events| && i + 1 < |states|
  {
    && Enabled(states[i], events[i]) && ConsumerSafe(states[i])
    && states[i + 1] == Next(states[i], events[i])
  }

  ghost predicate IsRun(states: seq<State>, events: seq<Event>) {
    && |states| == |events| + 1
    && Init(states[0])
    && forall i: nat :: i < |events| ==> StepAt(states, events, i)
  }

  lemma StepKeepsInv(s: State, ev: Event)
    requires Inv(s) && Enabled(s, ev) && ConsumerSafe(s)
    ensures Inv(Next(s, ev))
  {
    match ev
    case CallEnqueue(x, canAlloc) => FillUntouched(s, Next(s, ev));
    case ProducerStep(granted) => ProducerStepKeepsInv(s, granted);
    case CallDequeue => FillUntouched(s, Next(s, ev));
    case ConsumerStep => ConsumerStepKeepsInv(s);
  }

  lemma {:induction false} RunInv(states: seq<State>, events: seq<Event>, i: nat)
    requires IsRun(states, events) && i <= |events|
    ensures Inv(states[i])
  {
    if i == 0 {
      InitInv(states[0]);
    } else {
      RunInv(states, events, i - 1);
      assert StepAt(states, events, i - 1);
      StepKeepsInv(states[i - 1], events[i - 1]);
    }
  }

  /** First in, first out: at every moment of every run, what was dequeued is a
      prefix of what was enqueued and the queue holds exactly the rest. */
  lemma Fifo(states: seq<State>, events: seq<Event>, i: nat)
    requires IsRun(states, events) && i <= |events|
    ensures ValidIds(states[i])
    ensures states[i].dequeued <= states[i].enqueued
    ensures Contents(states[i]) == states[i].enqueued[|states[i].dequeued|..]
  {
    RunInv(states, events, i);
    var s := states[i];
    assert s.enqueued == s.dequeued + Contents(s);
  }

  /** No assertion of the source fails, and a thread inside a call can always go
      on: its next step is defined whatever the other thread has done. */
  lemma NeverStuck(states: seq<State>, events: seq<Event>, i: nat, granted: bool)
    requires IsRun(states, events) && i <= |events|
    ensures !states[i].failed && ConsumerSafe(states[i])
    ensures states[i].producer.PIdle? || Enabled(states[i], ProducerStep(granted))
    ensures states[i].consumer.CIdle? || Enabled(states[i], ConsumerStep)
    ensures states[i].producer.PIdle? ==> forall x, canAlloc :: Enabled(states[i], CallEnqueue(x, canAlloc))
    ensures states[i].consumer.CIdle? ==> Enabled(states[i], CallDequeue)
  {
    RunInv(states, events, i);
  }

  // ---------------------------------------------------------------------
  // Wait-freedom
  // ---------------------------------------------------------------------

  /** How many steps of its own a call of enqueue takes at most from here. */
  function ProducerToGo(p: Producer): nat {
    match p
    case PIdle => 0
    case PBegin(_, _) => 7
    case PLoadFront(_, _) => 6
    case PFull(_, _, _) => 5
    case PLoadNext(_) => 4
    case PWriteNext(_) => 3
    case PStoreNextTail(_) => 2
    case PStoreTailBlock(_) => 1
    case PAllocate(_) => 3
    case PLink(_, _) => 2
    case PPublish(_, _) => 1
    case PWrite(_) => 2
    case PStoreTail(_) => 1
  }

  function ConsumerToGo(c: Consumer): nat {
    match c
    case CIdle => 0
    case CBegin => 9
    case CLoadTail => 8
    case CLoadTailBlock(_) => 7
    case CReloadTail => 6
    case CLoadNext => 5
    case CLookNext(_) => 4
    case CStoreFrontBlock(_) => 3
    case CTakeNext => 2
    case CStoreNextFront(_) => 1
    case CTake => 2
    case CStoreFront(_) => 1
  }

  function ProducerSteps(events: seq<Event>): nat {
    if events == [] then 0
    else ProducerSteps(events[..|events| - 1]) + if events[|events| - 1].ProducerStep? then 1 else 0
  }

  function ConsumerSteps(events: seq<Event>): nat {
    if events == [] then 0
    else ConsumerSteps(events[..|events| - 1]) + if events[|events| - 1].ConsumerStep? then 1 else 0
  }

  lemma ProducerNearer(s: State, ev: Event)
    requires Enabled(s, ev) && ConsumerSafe(s)
    ensures ev.ProducerStep? ==> ProducerToGo(Next(s, ev).producer) < ProducerToGo(s.producer)
    ensures ev.ConsumerStep? || ev.CallDequeue? ==> Next(s, ev).producer == s.producer
  {
    hide Contents, ConsumerToGo, Place, Content;
  }

  lemma ConsumerNearer(s: State, ev: Event)
    requires Enabled(s, ev) && ConsumerSafe(s)
    ensures ev.ConsumerStep? ==> ConsumerToGo(Next(s, ev).consumer) < ConsumerToGo(s.consumer)
    ensures ev.ProducerStep? || ev.CallEnqueue? ==> Next(s, ev).consumer == s.consumer
  {
    hide Contents, ProducerToGo, Place, Content;
  }

  /** WAIT-FREE.  In every run, whatever the other thread does in the meantime, a call of
      enqueue ends within 7 steps of its own ... */
  lemma {:induction false} EnqueueIsWaitFree(states: seq<State>, events: seq<Event>, i: nat, j: nat)
    requires IsRun(states, events) && i <= j <= |events|
    requires forall k :: i <= k < j ==> !events[k].CallEnqueue?
    ensures ProducerSteps(events[i..j]) + ProducerToGo(states[j].producer) <= ProducerToGo(states[i].producer) <= 7
    decreases j
  {
    hide Contents, Enabled, ValidIds, ConsumerSafe, ProducerToGo, Next;
    if i < j {
      EnqueueIsWaitFree(states, events, i, j - 1);
      RunInv(states, events, j - 1);
      assert StepAt(states, events, j - 1);
      ProducerNearer(states[j - 1], events[j - 1]);
      assert events[i..j][..j - 1 - i] == events[i..j - 1];
    } else {
      AtMost(states[i]);
    }
  }

  /** ... and a call of dequeue within 9. */
  lemma {:induction false} DequeueIsWaitFree(states: seq<State>, events: seq<Event>, i: nat, j: nat)
    requires IsRun(states, events) && i <= j <= |events|
    requires forall k :: i <= k < j ==> !events[k].CallDequeue?
    ensures ConsumerSteps(events[i..j]) + ConsumerToGo(states[j].consumer) <= ConsumerToGo(states[i].consumer) <= 9
    decreases j
  {
    hide Contents, Enabled, ValidIds, ConsumerSafe, ConsumerToGo, Next;
    if i < j {
      DequeueIsWaitFree(states, events, i, j - 1);
      RunInv(states, events, j - 1);
      assert StepAt(states, events, j - 1);
      ConsumerNearer(states[j - 1], events[j - 1]);
      assert events[i..j][..j - 1 - i] == events[i..j - 1];
    } else {
      AtMost(states[i]);
    }
  }

  lemma AtMost(s: State)
    ensures ProducerToGo(s.producer) <= 7 && ConsumerToGo(s.consumer) <= 9
  {}

  /** try_dequeue is about to answer that the queue is empty. */
  predicate AnswersEmpty(s: State) {
    s.consumer.CLoadTailBlock? && s.frontBlock == s.tailBlock
  }

  /** During moments k..i the consumer stays in one call. */
  predicate SameDequeue(states: seq<State>, k: nat, i: nat)
    requires k <= i < |states|
  {
    forall j :: k <= j <= i ==> !states[j].consumer.CIdle?
  }

  predicate SameEnqueue(states: seq<State>, k: nat, i: nat)
    requires k <= i < |states|
  {
    forall j :: k <= j <= i ==> !states[j].producer.PIdle?
  }

  /** The moment whose answer the consumer remembers in wasEmpty. */
  lemma {:induction false} WasEmptyMoment(states: seq<State>, events: seq<Event>, i: nat) returns (k: nat)
    requires IsRun(states, events) && i <= |events|
    requires states[i].consumer.CLoadTailBlock?
    ensures k <= i && SameDequeue(states, k, i) && ValidIds(states[k])
    ensures states[i].consumer.wasEmpty ==> Contents(states[k]) == []
  {
    hide StepAt, Contents;
    assert i > 0;
    LoadsTail(states, events, i - 1);
    if states[i - 1].consumer.CLoadTailBlock? {
      k := WasEmptyMoment(states, events, i - 1);
    } else {
      k := i - 1;
    }
  }

  /** The step before: still in the call, and what it remembers is right. */
  lemma LoadsTail(states: seq<State>, events: seq<Event>, i: nat)
    requires IsRun(states, events) && i < |events| && states[i + 1].consumer.CLoadTailBlock?
    ensures ValidIds(states[i]) && !states[i].consumer.CIdle?
    ensures if states[i].consumer.CLoadTailBlock? then states[i + 1].consumer.wasEmpty == states[i].consumer.wasEmpty
            else states[i + 1].consumer.wasEmpty ==> Contents(states[i]) == []
  {
    assert StepAt(states, events, i);
  }

  /** try_dequeue returns false only if the queue was empty at some moment of the call. */
  lemma EmptyAnswerIsTrue(states: seq<State>, events: seq<Event>, i: nat) returns (k: nat)
    requires IsRun(states, events) && i <= |events|
    requires AnswersEmpty(states[i])
    ensures k <= i && SameDequeue(states, k, i)
    ensures ValidIds(states[k]) && Contents(states[k]) == []
    ensures states[k].dequeued == states[k].enqueued
  {
    RunInv(states, events, i);
    var s := states[i];
    assert s.tpos == 0;
    k := WasEmptyMoment(states, events, i);
    RunInv(states, events, k);
  }

  lemma {:induction false} RunRoomy(states: seq<State>, events: seq<Event>, i: nat, b: nat, n: nat)
    requires IsRun(states, events) && i <= |events| && Roomy(states[0], b, n)
    ensures Roomy(states[i], b, n)
  {
    if i > 0 {
      RunRoomy(states, events, i - 1, b, n);
      RunInv(states, events, i - 1);
      assert StepAt(states, events, i - 1);
      RoomyKept(states[i - 1], events[i - 1], b, n);
    }
  }

  /** The moment whose length the producer remembers in held. */
  lemma {:induction false} HeldMoment(states: seq<State>, events: seq<Event>, i: nat) returns (k: nat)
    requires IsRun(states, events) && i <= |events|
    requires states[i].producer.PFull?
    ensures k <= i && SameEnqueue(states, k, i)
    ensures ValidIds(states[k]) && |Contents(states[k])| == states[i].producer.held
  {
    hide Content, Place, Flatten, Contents, Count, Dist;
    assert i > 0;
    assert StepAt(states, events, i - 1);
    if states[i - 1].producer.PFull? {
      k := HeldMoment(states, events, i - 1);
    } else {
      k := i - 1;
    }
  }

  /** A queue made for n elements finds no room only if it held at least n at some moment
      of the call. */
  lemma FullMoment(states: seq<State>, events: seq<Event>, i: nat, n: nat) returns (k: nat)
    requires IsRun(states, events) && i <= |events|
    requires Roomy(states[0], states[0].largest, n)
    requires NoBlockAhead(states[i])
    ensures k <= i && SameEnqueue(states, k, i)
    ensures ValidIds(states[k]) && |Contents(states[k])| >= n
  {
    RunInv(states, events, i);
    RunRoomy(states, events, i, states[0].largest, n);
    RefusesOnlyWhenFull(states[i], states[0].largest, n);
    if |Contents(states[i])| >= n {
      k := i;
    } else {
      k := HeldMoment(states, events, i);
    }
  }

  /** It refuses an element, when it may not allocate, only then. */
  lemma RefusalIsTrue(states: seq<State>, events: seq<Event>, i: nat, n: nat) returns (k: nat)
    requires IsRun(states, events) && i <= |events|
    requires Roomy(states[0], states[0].largest, n)
    requires Refuses(states[i])
    ensures k <= i && SameEnqueue(states, k, i)
    ensures ValidIds(states[k]) && |Contents(states[k])| >= n
  {
    k := FullMoment(states, events, i, n);
  }

  predicate Allocating(p: Producer) {
    p.PAllocate? || p.PLink? || p.PPublish?
  }

  /** ONE ALLOCATION.  A queue made for n elements that never holds that many never
      allocates again: not one block is added, in any run. */
  lemma {:induction false} AllocatesOnce(states: seq<State>, events: seq<Event>, i: nat, n: nat)
    requires IsRun(states, events) && i <= |events|
    requires Roomy(states[0], states[0].largest, n)
    requires forall k :: 0 <= k <= i && ValidIds(states[k]) ==> |Contents(states[k])| < n
    ensures |states[i].blocks| == |states[0].blocks| && !Allocating(states[i].producer)
  {
    hide Contents, Roomy, Content, Flatten;
    if i > 0 {
      AllocatesOnce(states, events, i - 1, n);
      assert StepAt(states, events, i - 1);
      if NoBlockAhead(states[i - 1]) {
        var k := FullMoment(states, events, i - 1, n);
      }
      StaysUnallocated(states[i - 1], events[i - 1]);
    }
  }

  lemma StaysUnallocated(s: State, ev: Event)
    requires Enabled(s, ev) && ConsumerSafe(s) && !Allocating(s.producer) && !NoBlockAhead(s)
    ensures |Next(s, ev).blocks| == |s.blocks| && !Allocating(Next(s, ev).producer)
  {
    if ev.ProducerStep? {
      hide NextConsumer, Contents, Content;
    } else {
      hide NextProducer, Contents, Content;
      ProducerNearer(s, ev);
      ConsumerAddsNothing(s, ev);
    }
  }

  lemma ConsumerAddsNothing(s: State, ev: Event)
    requires Enabled(s, ev) && ConsumerSafe(s) && !ev.ProducerStep?
    ensures |Next(s, ev).blocks| == |s.blocks|
  {
    hide NextProducer, Contents, Content;
  }

  /** What a step should do to the queue, judging by how the call ends. */
  predicate Effect(s: State, ev: Event, s': State)
    requires ValidIds(s) && ValidIds(s')
  {
    match ev
    case CallEnqueue(x, canAlloc) => Contents(s') == Contents(s)
    case CallDequeue => Contents(s') == Contents(s)
    case ProducerStep(granted) =>
      if s'.producer != PIdle || Refuses(s) || (s.producer.PAllocate? && !granted) then Contents(s') == Contents(s)
      else !s.producer.PIdle? && Contents(s') == Contents(s) + [s.producer.x]
    case ConsumerStep =>
      if s'.consumer != CIdle || AnswersEmpty(s) then Contents(s') == Contents(s)
      else
        && (s.consumer.CStoreFront? || s.consumer.CStoreNextFront?)
        && Contents(s) == [s.consumer.item] + Contents(s')
  }

  /** Every call that ends has taken effect exactly once, at its last step, unless
      it was refused: an enqueue appends its own item, a dequeue removes the
      oldest one, and no other step changes the queue. */
  lemma TakesEffectOnce(s: State, ev: Event)
    requires Inv(s) && Enabled(s, ev) && ConsumerSafe(s)
    ensures ValidIds(Next(s, ev)) && Effect(s, ev, Next(s, ev))
  {
    hide Content, Flatten, FillOk, RingOk, ProducerOk;
    var s' := Next(s, ev);
    StepKeepsInv(s, ev);
    assert s.enqueued == s.dequeued + Contents(s);
    assert s'.enqueued == s'.dequeued + Contents(s');
    if ev.ConsumerStep? && s'.dequeued != s.dequeued {
      PopTakesFirst(s);
    } else {
      assert s'.dequeued == s.dequeued;
      assert Contents(s') == s'.enqueued[|s.dequeued|..];
      assert Contents(s) == s.enqueued[|s.dequeued|..];
    }
  }
}
