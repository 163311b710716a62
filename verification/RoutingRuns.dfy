// Completions: routing over any number of calls.

module RoutingRuns {
  // Any number of calls of Poll by any contexts, one after the other: together they
  // give every completion to the context of its kind.

  import opened CompletionRouting
  import opened MessageIds

  /** A completion as the hardware reports it: its kind stands in the work request id. */
  function WcOf(wrId: bv64): Wc {
    Wc(UnpackKind(wrId) as nat, wrId as nat)
  }

  /** So a request is routed by the kind it was packed with. */
  lemma PackedIsRouted(kind: bv64, pid: bv64, seqNr: bv64)
    requires kind < 16 && pid < 4096 && seqNr < 0x1_0000_0000_0000
    ensures WcOf(Pack(kind, pid, seqNr)).kind == kind as nat
  {
    PackRoundTrip(kind, pid, seqNr);
  }

  /** A call by the context of `kind`: what it polled, and what it was given. */
  datatype Call = Call(kind: nat, polled: seq<Wc>, given: seq<Wc>)

  /** The queues, and what has been polled and taken so far. */
  datatype Desk = Desk(queues: Queues, history: History)

  /** Every other context's queue is looked at. */
  predicate IsFullOrder(kinds: set<nat>, kind: nat, order: seq<nat>) {
    IsOrder(kinds, kind, order) && forall f :: f in kinds && f != kind ==> f in order
  }

  ghost predicate Starts(kinds: set<nat>, d: Desk) {
    && AllToAll(kinds, d.queues.Keys) && d.history.got.Keys == kinds && d.history.taken.Keys == d.queues.Keys
    && (forall f :: f in kinds ==> d.history.got[f] == [])
    && (forall p :: p in d.queues ==> d.queues[p] == [] && d.history.taken[p] == [])
  }

  ghost predicate CallAt(kinds: set<nat>, orders: map<nat, seq<nat>>, ds: seq<Desk>, calls: seq<Call>, i: nat)
    requires i < |calls| && i + 1 < |ds|
  {
    var d, d', call := ds[i], ds[i + 1], calls[i];
    && call.kind in kinds && call.kind in orders
    && PollEffect(d.history, d'.history, call.kind, orders[call.kind], call.polled, call.given)
    && Moved(d.queues, d'.queues, d.history, d'.history, call.kind, call.polled)
  }

  /** orders: in which order each context goes through the queues. */
  ghost predicate IsTrace(kinds: set<nat>, orders: map<nat, seq<nat>>, ds: seq<Desk>, calls: seq<Call>) {
    && orders.Keys == kinds && (forall k :: k in orders ==> IsFullOrder(kinds, k, orders[k]))
    && |ds| == |calls| + 1 && Starts(kinds, ds[0])
    && forall i: nat :: i < |calls| ==> CallAt(kinds, orders, ds, calls, i)
  }

  /** All that context f has polled from the hardware. */
  function PolledBy(calls: seq<Call>, f: nat): seq<Wc> {
    if calls == [] then []
    else
      var last := calls[|calls| - 1];
      PolledBy(calls[..|calls| - 1], f) + if last.kind == f then last.polled else []
  }

  /** Everything the calls have given to a context. */
  function Given(calls: seq<Call>, kind: nat): seq<Wc> {
    if calls == [] then []
    else
      var last := calls[|calls| - 1];
      Given(calls[..|calls| - 1], kind) + if last.kind == kind then last.given else []
  }

  /** Of that, what came out of the queue from f, in the order it was given. */
  function GivenFrom(ds: seq<Desk>, calls: seq<Call>, f: nat, kind: nat): seq<Wc>
    requires |ds| == |calls| + 1
  {
    if calls == [] then []
    else
      var n := |calls| - 1;
      GivenFrom(ds[..n + 1], calls[..n], f, kind)
      + if calls[n].kind == kind then Since(ds[n].history, ds[n + 1].history, (f, kind)) else []
  }

  /** The completions in the sequences for (f, kind), for all f in order. */
  function Sum(m: map<(nat, nat), seq<Wc>>, kind: nat, order: seq<nat>): multiset<Wc> {
    if order == [] then multiset{}
    else
      var p := (order[|order| - 1], kind);
      Sum(m, kind, order[..|order| - 1]) + if p in m then multiset(m[p]) else multiset{}
  }

  /** What the others have polled for a context. */
  function PolledFor(calls: seq<Call>, kind: nat, order: seq<nat>): multiset<Wc> {
    if order == [] then multiset{}
    else
      PolledFor(calls, kind, order[..|order| - 1]) + multiset(OfKind(PolledBy(calls, order[|order| - 1]), kind))
  }

  // ---------------------------------------------------------------------
  // One call
  // ---------------------------------------------------------------------

  /** The front of a queue is taken, or something is put at its end. */
  lemma StillSplit(polled: seq<Wc>, taken: seq<Wc>, queue: seq<Wc>, front: seq<Wc>, queue': seq<Wc>, end: seq<Wc>)
    requires polled == taken + queue && queue == front + queue'
    ensures polled == (taken + front) + queue' && polled + end == taken + (queue + end)
  {}

  lemma PairKept(kinds: set<nat>, d: Desk, d': Desk, call: Call, order: seq<nat>, p: (nat, nat))
    requires Conserved(kinds, d.queues, d.history) && call.kind in kinds && p in d.queues && p in d'.queues
    requires PollEffect(d.history, d'.history, call.kind, order, call.polled, call.given)
    requires Moved(d.queues, d'.queues, d.history, d'.history, call.kind, call.polled)
    ensures p.0 in d'.history.got && p in d'.history.taken
    ensures OfKind(d'.history.got[p.0], p.1) == d'.history.taken[p] + d'.queues[p]
  {
    hide Gathered, OfKind, OnlyTaken, Since;
    var h, h' := d.history, d'.history;
    PairConserved(kinds, d.queues, h, p);
    TakenSince(h, h', call.kind, p);
    GotMoreOf(h, h', call.kind, order, call.polled, call.given, p.0);
    hide Conserved, PollEffect;
    var polled, taken, queue, queue' := OfKind(h.got[p.0], p.1), h.taken[p], d.queues[p], d'.queues[p];
    if p.1 == call.kind {
      StillSplit(polled, taken, queue, Since(h, h', p), queue', []);
    } else {
      hide Moved;
      if p.0 == call.kind {
        OfKindJoin(h.got[p.0], call.polled, p.1);
        StillSplit(polled, taken, queue, [], queue, OfKind(call.polled, p.1));
      }
    }
  }

  /** No call loses, doubles or reorders anything. */
  lemma ConservedKept(kinds: set<nat>, d: Desk, d': Desk, call: Call, order: seq<nat>)
    requires Conserved(kinds, d.queues, d.history) && call.kind in kinds
    requires PollEffect(d.history, d'.history, call.kind, order, call.polled, call.given)
    requires Moved(d.queues, d'.queues, d.history, d'.history, call.kind, call.polled)
    ensures Conserved(kinds, d'.queues, d'.history)
  {
    hide Gathered, OfKind;
    KeysOf(kinds, d.queues, d.history);
    assert d'.history.got.Keys == kinds;
    forall p | p in d'.queues
      ensures OfKind(d'.history.got[p.0], p.1) == d'.history.taken[p] + d'.queues[p]
    {
      assert p in d'.queues.Keys;
      PairKept(kinds, d, d', call, order, p);
    }
  }

  predicate HasAll(h: History, kind: nat, order: seq<nat>) {
    forall i :: 0 <= i < |order| ==> (order[i], kind) in h.taken
  }

  /** What was gathered is what has been taken more. */
  lemma {:induction false} GatheredIsTaken(h: History, h': History, kind: nat, order: seq<nat>)
    requires OnlyTaken(h, h', kind) && HasAll(h, kind, order)
    ensures multiset(Gathered(h, h', kind, order)) + Sum(h.taken, kind, order) == Sum(h'.taken, kind, order)
  {
    if order != [] {
      var n := |order| - 1;
      GatheredIsTaken(h, h', kind, order[..n]);
      var p := (order[n], kind);
      assert p in h.taken && p in h'.taken;
      assert h'.taken[p] == h.taken[p] + Since(h, h', p);
    }
  }

  lemma {:induction false} SumSame(m: map<(nat, nat), seq<Wc>>, m': map<(nat, nat), seq<Wc>>, kind: nat,
      order: seq<nat>)
    requires m'.Keys == m.Keys && forall p :: p in m && p.1 == kind ==> m'[p] == m[p]
    ensures Sum(m', kind, order) == Sum(m, kind, order)
  {
    if order != [] {
      SumSame(m, m', kind, order[..|order| - 1]);
      var p := (order[|order| - 1], kind);
      assert p in m <==> p in m.Keys;
      assert p in m' <==> p in m'.Keys;
    }
  }

  lemma {:induction false} NothingTaken(m: map<(nat, nat), seq<Wc>>, kind: nat, order: seq<nat>)
    requires forall p :: p in m ==> m[p] == []
    ensures Sum(m, kind, order) == multiset{}
  {
    if order != [] { NothingTaken(m, kind, order[..|order| - 1]); }
  }

  // ---------------------------------------------------------------------
  // All calls
  // ---------------------------------------------------------------------

  /** What context k has been given, and what came out of each queue for it. */
  ghost predicate Accounted(orders: map<nat, seq<nat>>, ds: seq<Desk>, calls: seq<Call>, k: nat)
    requires |ds| == |calls| + 1
  {
    var h := ds[|calls|].history;
    && k in orders && k in h.got && HasAll(h, k, orders[k])
    && h.got[k] == PolledBy(calls, k)
    && (forall f :: (f, k) in h.taken ==> h.taken[(f, k)] == GivenFrom(ds, calls, f, k))
    && multiset(Given(calls, k)) == Sum(h.taken, k, orders[k]) + multiset(OfKind(h.got[k], k))
  }

  lemma AccountedStart(kinds: set<nat>, orders: map<nat, seq<nat>>, d: Desk, k: nat)
    requires orders.Keys == kinds && k in orders && IsFullOrder(kinds, k, orders[k]) && Starts(kinds, d)
    ensures Accounted(orders, [d], [], k) && Conserved(kinds, d.queues, d.history)
  {
    var h := d.history;
    assert forall p :: p in h.taken ==> p in h.taken.Keys && p in d.queues;
    NothingTaken(h.taken, k, orders[k]);
    assert k in h.got.Keys;
    forall i | 0 <= i < |orders[k]| ensures (orders[k][i], k) in h.taken {
      assert (orders[k][i], k) in d.queues.Keys;
    }
  }

  lemma GivenMore(kinds: set<nat>, orders: map<nat, seq<nat>>, d: Desk, d': Desk, call: Call, given: seq<Wc>, k: nat)
    requires Conserved(kinds, d.queues, d.history) && call.kind in kinds && call.kind in orders && k in orders
    requires PollEffect(d.history, d'.history, call.kind, orders[call.kind], call.polled, call.given)
    requires k in d.history.got && HasAll(d.history, k, orders[k])
    requires multiset(given) == Sum(d.history.taken, k, orders[k]) + multiset(OfKind(d.history.got[k], k))
    ensures k in d'.history.got && HasAll(d'.history, k, orders[k])
    ensures multiset(given + if call.kind == k then call.given else [])
         == Sum(d'.history.taken, k, orders[k]) + multiset(OfKind(d'.history.got[k], k))
  {
    hide Gathered, OfKind;
    var h, h' := d.history, d'.history;
    forall i | 0 <= i < |orders[k]| ensures (orders[k][i], k) in h'.taken {
      assert (orders[k][i], k) in h.taken.Keys;
    }
    if call.kind == k {
      GatheredIsTaken(h, h', k, orders[k]);
      OfKindJoin(h.got[k], call.polled, k);
    } else {
      SumSame(h.taken, h'.taken, k, orders[k]);
    }
  }

  lemma TakenMoreFrom(d: Desk, d': Desk, call: Call, order: seq<nat>, f: nat, k: nat)
    requires PollEffect(d.history, d'.history, call.kind, order, call.polled, call.given) && (f, k) in d'.history.taken
    ensures (f, k) in d.history.taken
    ensures d'.history.taken[(f, k)]
         == d.history.taken[(f, k)] + if call.kind == k then Since(d.history, d'.history, (f, k)) else []
  {
    hide Gathered, OfKind;
    assert (f, k) in d'.history.taken.Keys;
  }

  lemma Accounts(kinds: set<nat>, orders: map<nat, seq<nat>>, ds: seq<Desk>, calls: seq<Call>, k: nat)
    requires |ds| == |calls| + 1 && calls != []
    requires Conserved(kinds, ds[|calls| - 1].queues, ds[|calls| - 1].history)
        && CallAt(kinds, orders, ds, calls, |calls| - 1)
    requires Accounted(orders, ds[..|calls|], calls[..|calls| - 1], k)
    ensures Accounted(orders, ds, calls, k)
  {
    hide Gathered, OfKind, PollEffect, Conserved, Moved, Sum;
    var n := |calls| - 1;
    var d, d', call := ds[n], ds[n + 1], calls[n];
    assert ds[..n + 1][n] == d;
    GivenMore(kinds, orders, d, d', call, Given(calls[..n], k), k);
    forall f | (f, k) in d'.history.taken ensures d'.history.taken[(f, k)] == GivenFrom(ds, calls, f, k) {
      TakenMoreFrom(d, d', call, orders[call.kind], f, k);
    }
    GotMoreOf(d.history, d'.history, call.kind, orders[call.kind], call.polled, call.given, k);
  }

  lemma TraceBefore(kinds: set<nat>, orders: map<nat, seq<nat>>, ds: seq<Desk>, calls: seq<Call>)
    requires IsTrace(kinds, orders, ds, calls) && calls != []
    ensures IsTrace(kinds, orders, ds[..|calls|], calls[..|calls| - 1])
  {
    hide PollEffect, Moved, AllToAll;
    var n := |calls| - 1;
    var ds', calls' := ds[..n + 1], calls[..n];
    forall i: nat | i < |calls'| ensures CallAt(kinds, orders, ds', calls', i) {
      assert CallAt(kinds, orders, ds, calls, i);
    }
  }

  lemma {:induction false} AllAccounted(kinds: set<nat>, orders: map<nat, seq<nat>>, ds: seq<Desk>, calls: seq<Call>,
      k: nat)
    requires IsTrace(kinds, orders, ds, calls) && k in kinds
    ensures Accounted(orders, ds, calls, k) && Conserved(kinds, ds[|calls|].queues, ds[|calls|].history)
    decreases |calls|
  {
    hide Accounted, Conserved, PollEffect, Moved, Starts;
    if calls == [] {
      assert k in orders.Keys && ds == [ds[0]];
      AccountedStart(kinds, orders, ds[0], k);
    } else {
      var n := |calls| - 1;
      TraceBefore(kinds, orders, ds, calls);
      AllAccounted(kinds, orders, ds[..n + 1], calls[..n], k);
      assert CallAt(kinds, orders, ds, calls, n);
      Accounts(kinds, orders, ds, calls, k);
      ConservedKept(kinds, ds[n], ds[n + 1], calls[n], orders[calls[n].kind]);
    }
  }

  lemma {:induction false} SumsConserved(kinds: set<nat>, d: Desk, calls: seq<Call>, kind: nat, order: seq<nat>)
    requires Conserved(kinds, d.queues, d.history) && kind in kinds && IsOrder(kinds, kind, order)
    requires forall f :: f in kinds ==> d.history.got[f] == PolledBy(calls, f)
    ensures Sum(d.history.taken, kind, order) + Sum(d.queues, kind, order) == PolledFor(calls, kind, order)
  {
    if order != [] {
      var n := |order| - 1;
      SumsConserved(kinds, d, calls, kind, order[..n]);
      var p := (order[n], kind);
      KeysOf(kinds, d.queues, d.history);
      assert p in d.queues && p in d.queues.Keys && p in d.history.taken && order[n] in d.history.got.Keys;
      assert OfKind(d.history.got[order[n]], kind) == d.history.taken[p] + d.queues[p];
    }
  }

  /** However many calls have been made.  IN ORDER: what context k was given out of the
      queue from f, with what still waits there, is what f has polled of k's kind.
      ALL TOGETHER: what k has been given, with what still waits for it, is everything
      that anybody has polled of its kind, itself included; each counts once. */
  lemma EverythingArrives(kinds: set<nat>, orders: map<nat, seq<nat>>, ds: seq<Desk>, calls: seq<Call>, k: nat)
    requires IsTrace(kinds, orders, ds, calls) && k in kinds
    ensures var d := ds[|calls|];
            && (forall f :: f in kinds && f != k ==>
                  (f, k) in d.queues && GivenFrom(ds, calls, f, k) + d.queues[(f, k)] == OfKind(PolledBy(calls, f), k))
            && k in orders
            && multiset(Given(calls, k)) + Sum(d.queues, k, orders[k])
            == PolledFor(calls, k, orders[k]) + multiset(OfKind(PolledBy(calls, k), k))
  {
    hide OfKind;
    var d := ds[|calls|];
    AllAccounted(kinds, orders, ds, calls, k);
    KeysOf(kinds, d.queues, d.history);
    forall f | f in kinds ensures d.history.got[f] == PolledBy(calls, f) {
      AllAccounted(kinds, orders, ds, calls, f);
    }
    SumsConserved(kinds, d, calls, k, orders[k]);
    forall f | f in kinds && f != k
      ensures (f, k) in d.queues && GivenFrom(ds, calls, f, k) + d.queues[(f, k)] == OfKind(PolledBy(calls, f), k)
    {
      assert (f, k) in d.queues.Keys && (f, k) in d.history.taken.Keys;
    }
  }
}
