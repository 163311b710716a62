// Completions: routing between contexts.

module CompletionRouting {
  // One completion queue shared by several contexts: whoever polls it keeps the
  // completions of its own kind and passes the others on.

  /** A work completion; its kind and its contents. */
  datatype Wc = Wc(kind: nat, id: nat)

  /** The queues, by (from, to). */
  type Queues = map<(nat, nat), seq<Wc>>

  function OfKind(wcs: seq<Wc>, kind: nat): (own: seq<Wc>)
    ensures |own| <= |wcs|
  {
    if wcs == [] then []
    else
      var rest, last := OfKind(wcs[..|wcs| - 1], kind), wcs[|wcs| - 1];
      if last.kind == kind then rest + [last] else rest
  }

  lemma OfKindOne(wcs: seq<Wc>, wc: Wc, kind: nat)
    ensures OfKind(wcs + [wc], kind) == OfKind(wcs, kind) + if wc.kind == kind then [wc] else []
  {
    assert (wcs + [wc])[..|wcs|] == wcs;
  }

  lemma {:induction false} OfKindJoin(a: seq<Wc>, b: seq<Wc>, kind: nat)
    ensures OfKind(a + b, kind) == OfKind(a, kind) + OfKind(b, kind)
  {
    if b == [] {
      assert a + b == a;
    } else {
      var n := |b| - 1;
      OfKindJoin(a, b[..n], kind);
      assert a + b == (a + b[..n]) + [b[n]] && b == b[..n] + [b[n]];
      OfKindOne(a + b[..n], b[n], kind);
      OfKindOne(b[..n], b[n], kind);
    }
  }

  /** All-to-all queues among the registered kinds. */
  predicate AllToAll(kinds: set<nat>, pairs: set<(nat, nat)>) {
    && (forall p :: p in pairs ==> p.0 in kinds && p.1 in kinds && p.0 != p.1)
    && (forall a, b :: a in kinds && b in kinds && a != b ==> (a, b) in pairs)
  }

  /** The history of completions: got[f], all that context f polled from the
      hardware, and taken[(f, k)], what context k took out of the queue from f. */
  datatype History = History(got: map<nat, seq<Wc>>, taken: map<(nat, nat), seq<Wc>>)

  /** Nothing is lost, doubled or reordered: what f polled of kind k has been taken
      by k, up to what still waits in the queue from f to k. */
  ghost predicate Conserved(kinds: set<nat>, queues: Queues, h: History) {
    && AllToAll(kinds, queues.Keys) && h.got.Keys == kinds && h.taken.Keys == queues.Keys
    && forall p :: p in queues ==> OfKind(h.got[p.0], p.1) == h.taken[p] + queues[p]
  }

  lemma KeysOf(kinds: set<nat>, queues: Queues, h: History)
    requires Conserved(kinds, queues, h)
    ensures h.got.Keys == kinds && h.taken.Keys == queues.Keys
    ensures forall a, b :: (a, b) in queues <==> a in kinds && b in kinds && a != b
  {
    forall a, b | (a, b) in queues
      ensures a in kinds && b in kinds && a != b
    {
      assert (a, b) in queues.Keys;
    }
  }

  /** Every queue holds at most n completions more than before. */
  predicate Grown(before: Queues, after: Queues, n: nat) {
    after.Keys == before.Keys && forall p :: p in before ==> |after[p]| <= |before[p]| + n
  }

  /** Only queues for `kind` have changed. */
  predicate TakenFor(before: Queues, after: Queues, kind: nat) {
    after.Keys == before.Keys && forall p :: p in before && p.1 != kind ==> after[p] == before[p]
  }

  /** Only queues from `kind` have changed: they have grown, to no more than `depth`. */
  predicate RoutedFrom(before: Queues, after: Queues, kind: nat, depth: nat) {
    && after.Keys == before.Keys
    && forall p :: p in before && after[p] != before[p] ==> p.0 == kind && before[p] < after[p] && |after[p]| <= depth
  }

  lemma NotRouted(queues: Queues, kind: nat, depth: nat)
    ensures RoutedFrom(queues, queues, kind, depth)
  {}

  lemma RoutedMore(a: Queues, b: Queues, c: Queues, kind: nat, depth: nat)
    requires RoutedFrom(a, b, kind, depth) && RoutedFrom(b, c, kind, depth)
    ensures RoutedFrom(a, c, kind, depth)
  {
    forall p | p in a && c[p] != a[p]
      ensures p.0 == kind && a[p] < c[p] && |c[p]| <= depth
    {
      assert p in b.Keys;
    }
  }

  /** The queue for this completion exists and takes one more. */
  predicate HasPlace(kinds: set<nat>, depth: nat, kind: nat, wc: Wc, queues: Queues) {
    wc.kind in kinds && (kind, wc.kind) in queues && |queues[(kind, wc.kind)]| < depth
  }

  /** Each of these is of a registered kind. */
  predicate AllKnown(kinds: set<nat>, polled: seq<Wc>) {
    forall i :: 0 <= i < |polled| ==> polled[i].kind in kinds
  }

  /** Each is of a registered kind, and the queue for it, if it is for another context,
      has room for all of them. */
  predicate AllFit(kinds: set<nat>, depth: nat, kind: nat, polled: seq<Wc>, queues: Queues) {
    forall i :: 0 <= i < |polled| ==>
      && polled[i].kind in kinds
      && (polled[i].kind == kind
          || ((kind, polled[i].kind) in queues && |queues[(kind, polled[i].kind)]| + |polled| <= depth))
  }

  lemma KnownNone(kinds: set<nat>)
    ensures AllKnown(kinds, [])
  {}

  lemma KnownMore(kinds: set<nat>, polled: seq<Wc>, i: nat)
    requires i < |polled|
    ensures AllKnown(kinds, polled[..i + 1]) <==> AllKnown(kinds, polled[..i]) && polled[i].kind in kinds
  {
    assert polled[..i + 1] == polled[..i] + [polled[i]];
  }

  /** Fewer fit too, and taking out what is queued for `kind` makes no difference. */
  lemma FewerFit(kinds: set<nat>, depth: nat, kind: nat, polled: seq<Wc>, n: nat, before: Queues, now: Queues)
    requires TakenFor(before, now, kind) && n <= |polled|
    ensures AllFit(kinds, depth, kind, polled, before) ==> AllFit(kinds, depth, kind, polled[..n], now)
  {}

  lemma FitsNow(kinds: set<nat>, depth: nat, kind: nat, polled: seq<Wc>, before: Queues, now: Queues, n: nat)
    requires Grown(before, now, n) && n < |polled| && AllFit(kinds, depth, kind, polled, before)
    requires polled[n].kind != kind
    ensures HasPlace(kinds, depth, kind, polled[n], now)
  {
    assert (kind, polled[n].kind) in before.Keys;
  }

  /** Nothing waits for `kind` in these contexts' queues. */
  predicate Emptied(queues: Queues, kind: nat, order: seq<nat>) {
    forall i :: 0 <= i < |order| ==> (order[i], kind) in queues && queues[(order[i], kind)] == []
  }

  lemma GrownNot(queues: Queues)
    ensures Grown(queues, queues, 0) && Grown(queues, queues, 1)
  {
  }

  lemma GrownMore(a: Queues, b: Queues, c: Queues, n: nat)
    requires Grown(a, b, n) && Grown(b, c, 1)
    ensures Grown(a, c, n + 1)
  {
    forall p | p in a
      ensures |c[p]| <= |a[p]| + n + 1
    {
      assert p in b.Keys;
    }
  }

  lemma TakeOne(kinds: set<nat>, queues: Queues, h: History, p: (nat, nat))
    requires Conserved(kinds, queues, h) && p in queues && queues[p] != []
    ensures Conserved(kinds, queues[p := queues[p][1..]], h.(taken := h.taken[p := h.taken[p] + [queues[p][0]]]))
  {
    assert queues[p] == [queues[p][0]] + queues[p][1..];
    assert h.taken[p] + queues[p] == (h.taken[p] + [queues[p][0]]) + queues[p][1..];
  }

  /** Context f polls one completion and keeps it, or queues it for its kind. */
  lemma RouteOne(kinds: set<nat>, queues: Queues, h: History, f: nat, wc: Wc)
    requires Conserved(kinds, queues, h) && f in kinds && wc.kind in kinds
    ensures var h' := h.(got := h.got[f := h.got[f] + [wc]]);
            if wc.kind == f then Conserved(kinds, queues, h')
            else
              && (f, wc.kind) in queues
              && Conserved(kinds, queues[(f, wc.kind) := queues[(f, wc.kind)] + [wc]], h')
  {
    var h' := h.(got := h.got[f := h.got[f] + [wc]]);
    var queues' := if wc.kind == f then queues else queues[(f, wc.kind) := queues[(f, wc.kind)] + [wc]];
    assert queues'.Keys == queues.Keys;
    forall p | p in queues'
      ensures OfKind(h'.got[p.0], p.1) == h'.taken[p] + queues'[p]
    {
      OfKindOne(h.got[f], wc, p.1);
      if p == (f, wc.kind) {
        assert h.taken[p] + (queues[p] + [wc]) == (h.taken[p] + queues[p]) + [wc];
      }
    }
  }

  // ---------------------------------------------------------------------
  // The poller
  // ---------------------------------------------------------------------

  class ContextedPoller {
    const depth: nat
    var contexts: set<nat>
    var queues: Queues
    var done: bool
    ghost var history: History

    constructor (depth: nat)
      ensures this.depth == depth && contexts == {} && queues == map[] && !done
    {
      this.depth, contexts, queues, done := depth, {}, map[], false;
      history := History(map[], map[]);
    }

    ghost predicate Valid()
      reads this
    {
      done && Conserved(contexts, queues, history)
    }

    /** False, where the source throws, for a kind registered before. */
    method RegisterContext(kind: nat) returns (ok: bool)
      modifies this`contexts
      ensures ok <==> kind !in old(contexts)
      ensures contexts == old(contexts) + {kind}
    {
      ok := kind !in contexts;
      contexts := contexts + {kind};
    }

    /** Once all have registered: an empty queue from every context to every other. */
    method EndRegistrations()
      requires !done && queues == map[]
      modifies this`queues, this`done, this`history
      ensures Valid() && (forall p :: p in queues ==> queues[p] == [])
      ensures forall f :: f in contexts ==> history.got[f] == []
    {
      done := true;
      var froms := contexts;
      while froms != {}
        invariant froms <= contexts && done
        invariant forall p :: p in queues ==> p.0 in contexts && p.1 in contexts && p.0 != p.1 && queues[p] == []
        invariant forall a, b :: a in contexts - froms && b in contexts && a != b ==> (a, b) in queues
        decreases |froms|
      {
        var from :| from in froms;
        var tos := contexts;
        while tos != {}
          invariant tos <= contexts && done
          invariant forall p :: p in queues ==> p.0 in contexts && p.1 in contexts && p.0 != p.1 && queues[p] == []
          invariant forall a, b :: a in contexts - froms && b in contexts && a != b ==> (a, b) in queues
          invariant forall b :: b in contexts - tos && b != from ==> (from, b) in queues
          decreases |tos|
        {
          var to :| to in tos;
          if from != to {
            queues := queues[(from, to) := []];
          }
          tos := tos - {to};
        }
        froms := froms - {from};
      }
      history := History(map f | f in contexts :: [], map p | p in queues :: []);
    }

    /** try_dequeue, from a queue that holds something. */
    method Dequeue(p: (nat, nat)) returns (wc: Wc)
      requires Valid() && p in queues && queues[p] != []
      modifies this`queues, this`history
      ensures Valid() && wc == old(queues)[p][0] && queues == old(queues)[p := old(queues)[p][1..]]
      ensures p in old(history).taken && history == TakenMore(old(history), p, [wc])
    {
      TakeOne(contexts, queues, history, p);
      KeysOf(contexts, queues, history);
      wc := queues[p][0];
      queues := queues[p := queues[p][1..]];
      history := history.(taken := history.taken[p := history.taken[p] + [wc]]);
    }

    /** Take from one queue until it is empty or the entries are full. */
    method TakeFrom(p: (nat, nat), entries: array<Wc>, from: nat) returns (index: nat, ghost more: seq<Wc>)
      requires Valid() && p in queues && from <= entries.Length
      modifies this`queues, this`history, entries
      ensures Valid() && from <= index <= entries.Length
      ensures p in old(history).taken && history == TakenMore(old(history), p, more)
      ensures queues.Keys == old(queues).Keys && forall o :: o in queues && o != p ==> queues[o] == old(queues)[o]
      ensures entries[..index] == old(entries[..from]) + more
      ensures index < entries.Length ==> queues[p] == []
    {
      hide Conserved, AllToAll, OfKind, TakenMore;
      KeysOf(contexts, queues, history);
      TakenNothing(history, p);
      index, more := from, [];
      ghost var h, before, q0 := history, entries[..from], queues;
      while index < entries.Length && queues[p] != []
        invariant from <= index <= entries.Length && Valid()
        invariant queues.Keys == q0.Keys && forall o :: o in queues && o != p ==> queues[o] == q0[o]
        invariant history == TakenMore(h, p, more)
        invariant entries[..index] == before + more
        decreases |queues[p]|
      {
        var wc := Dequeue(p);
        TakenMoreOne(h, p, more, wc);
        entries[index] := wc;
        index, more := index + 1, more + [wc];
        assert entries[..index] == entries[..index - 1] + [wc];
      }
    }

    /** Take from the queues of the others, in the order given, until the entries
        asked for are full. */
    method TakeQueued(kind: nat, entries: array<Wc>, order: seq<nat>) returns (index: nat)
      requires Valid() && kind in contexts && IsOrder(contexts, kind, order)
      modifies this`queues, this`history, entries
      ensures Valid() && index <= entries.Length && history.got == old(history.got)
      ensures OnlyTaken(old(history), history, kind)
      ensures entries[..index] == Gathered(old(history), history, kind, order)
      ensures index < entries.Length ==> Emptied(queues, kind, order)
      ensures TakenFor(old(queues), queues, kind)
    {
      hide Gathered, OfKind, Conserved, AllToAll, Since, OnlyTaken, TakenMore;
      KeysOf(contexts, queues, history);
      index := 0;
      ghost var h := history;
      var q := 0;
      TakeStart(h, kind, order);
      while q < |order|
        invariant 0 <= q <= |order| && index <= entries.Length && Valid() && TakenFor(old(queues), queues, kind)
        invariant history.got == h.got && OnlyTaken(h, history, kind) && Untouched(h, history, kind, order, q)
        invariant entries[..index] == Gathered(h, history, kind, order[..q])
        invariant index < entries.Length ==>
                    forall i :: 0 <= i < q ==> (order[i], kind) in queues && queues[(order[i], kind)] == []
      {
        var p := (order[q], kind);
        ghost var h1 := history;
        ghost var more;
        index, more := TakeFrom(p, entries, index);
        TakeStep(h, h1, kind, order, q, more);
        q := q + 1;
        if index == entries.Length {
          GatheredRest(h, history, kind, order, q);
          return;
        }
      }
      assert order[..q] == order;
    }

    /** Queue a completion for the context of its kind.  False on a queue overflow
        or, where the source throws, if nobody registered the kind. */
    method PassOn(kind: nat, entry: Wc) returns (ok: bool)
      requires Valid() && kind in contexts && entry.kind != kind
      modifies this`queues, this`history
      ensures ok <==>
                entry.kind in contexts && (kind, entry.kind) in old(queues) && |old(queues)[(kind, entry.kind)]| < depth
      ensures ok ==> Valid() && history == History(Got(old(history), kind, [entry]), old(history).taken)
      ensures Grown(old(queues), queues, 1) && RoutedFrom(old(queues), queues, kind, depth)
    {
      hide Conserved, OfKind;
      KeysOf(contexts, queues, history);
      var p := (kind, entry.kind);
      if p !in queues {
        return false;
      }
      if |queues[p]| >= depth {
        return false;
      }
      RouteOne(contexts, queues, history, kind, entry);
      queues := queues[p := queues[p] + [entry]];
      history := history.(got := history.got[kind := history.got[kind] + [entry]]);
      ok := true;
    }

    /** Our own completion stays: only the history records it. */
    ghost method KeepOwn(kind: nat, entry: Wc)
      requires Valid() && kind in contexts && entry.kind == kind
      modifies this`history
      ensures Valid() && history == History(Got(old(history), kind, [entry]), old(history).taken)
    {
      KeysOf(contexts, queues, history);
      RouteOne(contexts, queues, history, kind, entry);
      history := history.(got := history.got[kind := history.got[kind] + [entry]]);
    }

    /** Entry i is ours, and moves up to `index`, or goes to the queue for its kind. */
    method RouteEntry(kind: nat, entries: array<Wc>, index: nat, i: nat) returns (ok: bool, index': nat)
      requires Valid() && kind in contexts && index <= i < entries.Length
      modifies this`queues, this`history, entries
      ensures Grown(old(queues), queues, 1) && RoutedFrom(old(queues), queues, kind, depth)
      ensures forall j :: 0 <= j < entries.Length && j != index ==> entries[j] == old(entries[j])
      ensures old(entries[i]).kind == kind ==> ok && index' == index + 1 && entries[index] == old(entries[i])
      ensures old(entries[i]).kind != kind ==> index' == index && entries[index] == old(entries[index])
      ensures old(entries[i]).kind != kind ==>
                ok == HasPlace(contexts, depth, kind, old(entries[i]), old(queues))
      ensures ok ==> old(entries[i]).kind in contexts
      ensures ok ==> Valid() && history == History(Got(old(history), kind, [old(entries[i])]), old(history).taken)
    {
      hide Conserved, Got, Grown;
      GrownNot(queues);
      var entry := entries[i];
      ok, index' := true, index;
      if entry.kind == kind {
        KeepOwn(kind, entry);
        entries[index] := entry;
        index' := index + 1;
      } else {
        ok := PassOn(kind, entry);
      }
    }

    /** What the hardware returned lies in entries[from..to]: keep our own, moving
        them together in place, and queue the others. */
    method Distribute(kind: nat, entries: array<Wc>, from: nat, to: nat) returns (ok: bool, index: nat)
      requires Valid() && kind in contexts && from <= to <= entries.Length
      modifies this`queues, this`history, entries
      ensures entries[..from] == old(entries[..from]) && from <= index <= entries.Length
      ensures ok ==> Valid() && history == History(Got(old(history), kind, old(entries[from..to])), old(history).taken)
      ensures ok ==> entries[from..index] == OfKind(old(entries[from..to]), kind)
      ensures ok <== AllFit(contexts, depth, kind, old(entries[from..to]), old(queues))
      ensures ok ==> AllKnown(contexts, old(entries[from..to]))
      ensures RoutedFrom(old(queues), queues, kind, depth)
    {
      hide OfKind, Conserved, Got, Grown, RoutedFrom, HasPlace, AllFit, AllKnown;
      KeysOf(contexts, queues, history);
      GrownNot(queues);
      ghost var h, polled, queues0 := history, entries[from..to], queues;
      NotRouted(queues, kind, depth);
      index := from;
      var i := from;
      assert polled[..0] == [];
      GotNothing(h, kind);
      OfNone(kind);
      KnownNone(contexts);
      while i < to
        invariant from <= index <= i <= to && Valid()
        invariant forall j :: 0 <= j < from || i <= j < entries.Length ==> entries[j] == old(entries[j])
        invariant history == History(Got(h, kind, polled[..i - from]), h.taken)
        invariant entries[from..index] == OfKind(polled[..i - from], kind)
        invariant Grown(queues0, queues, i - from) && RoutedFrom(queues0, queues, kind, depth)
        invariant AllKnown(contexts, polled[..i - from])
      {
        ghost var entry, before, own := entries[i], queues, entries[from..index];
        assert polled[..i - from + 1] == polled[..i - from] + [entry];
        GotMore(h, kind, polled[..i - from], entry);
        OfKindOne(polled[..i - from], entry, kind);
        KnownMore(contexts, polled, i - from);
        if AllFit(contexts, depth, kind, polled, queues0) && entry.kind != kind {
          FitsNow(contexts, depth, kind, polled, queues0, queues, i - from);
        }
        var passed, next := RouteEntry(kind, entries, index, i);
        RoutedMore(queues0, before, queues, kind, depth);
        if !passed {
          return false, index;
        }
        assert entries[from..next] == own + if entry.kind == kind then [entry] else [];
        GrownMore(queues0, before, queues, i - from);
        i, index := i + 1, next;
      }
      assert polled[..to - from] == polled;
      ok := true;
    }

    lemma StaysEmptied(before: Queues, now: Queues, kind: nat, order: seq<nat>)
      requires RoutedFrom(before, now, kind, depth) && IsOrder(contexts, kind, order)
      ensures Emptied(before, kind, order) ==> Emptied(now, kind, order)
    {
      if Emptied(before, kind, order) {
        forall i | 0 <= i < |order| ensures (order[i], kind) in now && now[(order[i], kind)] == [] {
          assert (order[i], kind) in before.Keys;
        }
      }
    }

    /** The hardware puts what it returns behind what is there. */
    method FillIn(entries: array<Wc>, from: nat, polled: seq<Wc>, num: nat)
      requires num <= |polled| && from + num <= entries.Length
      modifies entries
      ensures entries[..from] == old(entries[..from]) && entries[from..from + num] == polled[..num]
    {
      forall i | 0 <= i < num {
        entries[from + i] := polled[i];
      }
    }

    /** One call by the context of `kind`; `polled` is what the hardware queue would
        still return, of which n are polled: as many as there is room for once what is
        queued has been taken.  It fails only if the queue for one of them is full or
        its kind is not registered. */
    method Poll(kind: nat, entries: array<Wc>, order: seq<nat>, polled: seq<Wc>)
      returns (ok: bool, count: nat, ghost n: nat)
      requires Valid() && kind in contexts && IsOrder(contexts, kind, order)
      modifies this`queues, this`history, entries
      ensures ok ==> Valid() && count <= entries.Length && n <= |polled|
      ensures ok ==> PollEffect(old(history), history, kind, order, polled[..n], entries[..count])
      ensures ok ==> Moved(old(queues), queues, old(history), history, kind, polled[..n])
      ensures ok ==> var taken := |Gathered(old(history), history, kind, order)|;
                && taken + n <= entries.Length && (n == |polled| || taken + n == entries.Length)
                && (taken < entries.Length ==> Emptied(queues, kind, order))
      ensures ok ==> AllKnown(contexts, polled[..n])
      ensures ok ==> forall p :: p in queues && p.0 == kind && p in old(queues) && queues[p] != old(queues)[p] ==>
                |queues[p]| <= depth
      ensures ok <== AllFit(contexts, depth, kind, polled, old(queues))
    {
      hide Gathered, OfKind, PollEffect, OnlyTaken, AllFit, AllKnown, Moved, Conserved, Emptied;
      KeysOf(contexts, queues, history);
      assert kind in history.got.Keys;
      var index := TakeQueued(kind, entries, order);
      ghost var queued, h, mid := entries[..index], history, queues;
      n := 0;
      if index == entries.Length {
        assert polled[..0] == [] && queued + [] == queued;
        GotNothing(old(history), kind);
        OfNone(kind);
        KnownNone(contexts);
        EffectIs(old(history), h, h, kind, order, [], queued, []);
        MovedIs(contexts, old(queues), queues, old(history), h, kind, order, [], queued);
        return true, index, 0;
      }
      var num := if |polled| <= entries.Length - index then |polled| else entries.Length - index;
      FillIn(entries, index, polled, num);
      n := num;
      FewerFit(contexts, depth, kind, polled, num, old(queues), mid);
      ok, count := Distribute(kind, entries, index, index + num);
      if ok {
        assert entries[..count] == entries[..index] + entries[index..count];
        EffectIs(old(history), h, history, kind, order, polled[..num], queued, entries[index..count]);
        MovedIs(contexts, old(queues), queues, old(history), history, kind, order, polled[..num], entries[..count]);
        assert Gathered(old(history), history, kind, order) == queued by {
          GatheredSame(old(history), h, history, kind, order);
        }
        StaysEmptied(mid, queues, kind, order);
      }
    }
  }

  /** Contexts to take from, each once. */
  predicate IsOrder(kinds: set<nat>, kind: nat, order: seq<nat>) {
    && (forall i :: 0 <= i < |order| ==> order[i] in kinds && order[i] != kind)
    && (forall i, j :: 0 <= i < j < |order| ==> order[i] != order[j])
  }

  /** Between h and h' only the context of `kind` took anything. */
  predicate OnlyTaken(h: History, h': History, kind: nat) {
    && h'.taken.Keys == h.taken.Keys
    && forall p :: p in h.taken ==> h.taken[p] <= h'.taken[p] && (p.1 != kind ==> h'.taken[p] == h.taken[p])
  }

  /** What was taken from one queue since. */
  function Since(h: History, h': History, p: (nat, nat)): seq<Wc> {
    if p in h.taken && p in h'.taken && |h.taken[p]| <= |h'.taken[p]| then h'.taken[p][|h.taken[p]|..] else []
  }

  /** What was polled, after context `kind` has polled some more. */
  function Got(h: History, kind: nat, more: seq<Wc>): map<nat, seq<Wc>> {
    h.got[kind := (if kind in h.got then h.got[kind] else []) + more]
  }

  /** What one call by the context of `kind` does, which polls `more` and is given
      `given`: what was queued for it, then its own among what it polled. */
  predicate PollEffect(h: History, h': History, kind: nat, order: seq<nat>, more: seq<Wc>, given: seq<Wc>) {
    && OnlyTaken(h, h', kind) && h'.got == Got(h, kind, more)
    && given == Gathered(h, h', kind, order) + OfKind(more, kind)
  }

  /** What the same call does to the queues: those for `kind` lose from the front what
      it took, those from `kind` get at the end what it polled for others. */
  predicate Moved(queues: Queues, queues': Queues, h: History, h': History, kind: nat, more: seq<Wc>) {
    && queues'.Keys == queues.Keys
    && forall p :: p in queues ==>
         if p.1 == kind then queues[p] == Since(h, h', p) + queues'[p]
         else queues'[p] == queues[p] + if p.0 == kind then OfKind(more, p.1) else []
  }

  lemma MovedIs(kinds: set<nat>, queues: Queues, queues': Queues, h: History, h': History, kind: nat, order: seq<nat>,
      more: seq<Wc>, given: seq<Wc>)
    requires Conserved(kinds, queues, h) && Conserved(kinds, queues', h') && kind in kinds
    requires PollEffect(h, h', kind, order, more, given)
    ensures Moved(queues, queues', h, h', kind, more)
  {
    hide Gathered, OfKind;
    KeysOf(kinds, queues, h);
    KeysOf(kinds, queues', h');
    assert queues'.Keys == queues.Keys;
    forall p | p in queues
      ensures if p.1 == kind then queues[p] == Since(h, h', p) + queues'[p]
              else queues'[p] == queues[p] + if p.0 == kind then OfKind(more, p.1) else []
    {
      PairMoved(kinds, queues, queues', h, h', kind, order, more, given, p);
    }
  }

  lemma PairMoved(kinds: set<nat>, queues: Queues, queues': Queues, h: History, h': History, kind: nat, order: seq<nat>,
      more: seq<Wc>, given: seq<Wc>, p: (nat, nat))
    requires Conserved(kinds, queues, h) && Conserved(kinds, queues', h') && kind in kinds && p in queues
        && p in queues'
    requires PollEffect(h, h', kind, order, more, given)
    ensures if p.1 == kind then queues[p] == Since(h, h', p) + queues'[p]
            else queues'[p] == queues[p] + if p.0 == kind then OfKind(more, p.1) else []
  {
    hide Gathered, OfKind, OnlyTaken, Since;
    PairConserved(kinds, queues, h, p);
    PairConserved(kinds, queues', h', p);
    TakenSince(h, h', kind, p);
    GotMoreOf(h, h', kind, order, more, given, p.0);
    hide Conserved, PollEffect;
    var taken, queue, queue' := h.taken[p], queues[p], queues'[p];
    if p.1 == kind {
      TookFront(taken, queue, Since(h, h', p), queue');
    } else if p.0 == kind {
      OfKindJoin(h.got[kind], more, p.1);
      PutAtEnd(taken, queue, queue', OfKind(more, p.1));
    } else {
      PutAtEnd(taken, queue, queue', []);
    }
  }

  lemma TookFront(taken: seq<Wc>, queue: seq<Wc>, front: seq<Wc>, queue': seq<Wc>)
    requires taken + queue == taken + front + queue'
    ensures queue == front + queue'
  {
    assert taken + front + queue' == taken + (front + queue');
    SameRest(taken, queue, front + queue');
  }

  lemma PutAtEnd(taken: seq<Wc>, queue: seq<Wc>, queue': seq<Wc>, end: seq<Wc>)
    requires taken + queue + end == taken + queue'
    ensures queue' == queue + end
  {
    assert taken + queue + end == taken + (queue + end);
    SameRest(taken, queue', queue + end);
  }

  /** What has been taken out of a queue by now. */
  lemma TakenSince(h: History, h': History, kind: nat, p: (nat, nat))
    requires OnlyTaken(h, h', kind) && p in h.taken
    ensures p in h'.taken && h'.taken[p] == h.taken[p] + Since(h, h', p)
    ensures p.1 != kind ==> h'.taken[p] == h.taken[p]
  {
    assert p in h'.taken.Keys;
  }

  /** What a context has polled by now. */
  lemma GotMoreOf(h: History, h': History, kind: nat, order: seq<nat>, more: seq<Wc>, given: seq<Wc>, k: nat)
    requires PollEffect(h, h', kind, order, more, given) && k in h.got
    ensures k in h'.got && h'.got[k] == if kind == k then h.got[k] + more else h.got[k]
  {
    hide Gathered, OfKind;
  }

  lemma PairConserved(kinds: set<nat>, queues: Queues, h: History, p: (nat, nat))
    requires Conserved(kinds, queues, h) && p in queues
    ensures p.0 in kinds && p.1 in kinds && p.0 != p.1 && p.0 in h.got && p.1 in h.got && p in h.taken
    ensures OfKind(h.got[p.0], p.1) == h.taken[p] + queues[p]
  {
    KeysOf(kinds, queues, h);
    assert p in queues.Keys && p in h.taken.Keys && p.0 in h.got.Keys && p.1 in h.got.Keys;
  }

  lemma SameRest(a: seq<Wc>, b: seq<Wc>, c: seq<Wc>)
    requires a + b == a + c
    ensures b == c
  {
    assert b == (a + b)[|a|..] && c == (a + c)[|a|..];
  }

  /** First what is queued is taken, then the rest is polled. */
  lemma EffectIs(h: History, h1: History, h2: History, kind: nat, order: seq<nat>, more: seq<Wc>, queued: seq<Wc>,
      own: seq<Wc>)
    requires OnlyTaken(h, h1, kind) && h1.got == h.got && queued == Gathered(h, h1, kind, order)
    requires h2 == History(Got(h1, kind, more), h1.taken) && own == OfKind(more, kind)
    ensures PollEffect(h, h2, kind, order, more, queued + own)
  {
    GatheredSame(h, h1, h2, kind, order);
  }

  /** The history after some were taken from one queue. */
  function TakenMore(h: History, p: (nat, nat), more: seq<Wc>): History {
    h.(taken := h.taken[p := (if p in h.taken then h.taken[p] else []) + more])
  }

  lemma TakenNothing(h: History, p: (nat, nat))
    requires p in h.taken
    ensures TakenMore(h, p, []) == h
  {
    assert h.taken[p] + [] == h.taken[p];
  }

  lemma TakenMoreOne(h: History, p: (nat, nat), more: seq<Wc>, wc: Wc)
    requires p in h.taken
    ensures TakenMore(TakenMore(h, p, more), p, [wc]) == TakenMore(h, p, more + [wc])
  {
    assert h.taken[p] + (more + [wc]) == (h.taken[p] + more) + [wc];
  }

  lemma GotNothing(h: History, kind: nat)
    requires kind in h.got
    ensures Got(h, kind, []) == h.got
  {
    assert h.got[kind] + [] == h.got[kind];
  }

  lemma GotMore(h: History, kind: nat, more: seq<Wc>, wc: Wc)
    requires kind in h.got
    ensures kind in Got(h, kind, more)
    ensures Got(h, kind, more + [wc]) == Got(h, kind, more)[kind := Got(h, kind, more)[kind] + [wc]]
    ensures Got(h, kind, more + [wc]) == Got(History(Got(h, kind, more), h.taken), kind, [wc])
  {
    assert h.got[kind] + (more + [wc]) == (h.got[kind] + more) + [wc];
  }

  lemma OfNone(kind: nat)
    ensures OfKind([], kind) == []
  {
  }

  /** What was taken from all of them, queue by queue. */
  function Gathered(h: History, h': History, kind: nat, order: seq<nat>): seq<Wc> {
    if order == [] then []
    else Gathered(h, h', kind, order[..|order| - 1]) + Since(h, h', (order[|order| - 1], kind))
  }

  lemma {:induction false} GatheredSame(h: History, h1: History, h2: History, kind: nat, order: seq<nat>)
    requires forall i :: 0 <= i < |order| ==> Since(h, h1, (order[i], kind)) == Since(h, h2, (order[i], kind))
    ensures Gathered(h, h1, kind, order) == Gathered(h, h2, kind, order)
  {
    if order != [] {
      GatheredSame(h, h1, h2, kind, order[..|order| - 1]);
    }
  }

  lemma GatheredNext(h: History, h': History, kind: nat, order: seq<nat>, q: nat)
    requires q < |order|
    ensures Gathered(h, h', kind, order[..q + 1]) == Gathered(h, h', kind, order[..q]) + Since(h, h', (order[q], kind))
  {
    assert order[..q + 1][..q] == order[..q];
  }

  /** From the q-th queue on nothing was taken. */
  predicate Untouched(h: History, h': History, kind: nat, order: seq<nat>, q: nat) {
    forall i :: q <= i < |order| ==> Since(h, h', (order[i], kind)) == []
  }

  lemma TakeStart(h: History, kind: nat, order: seq<nat>)
    ensures OnlyTaken(h, h, kind) && Untouched(h, h, kind, order, 0)
    ensures Gathered(h, h, kind, order[..0]) == []
  {
  }

  lemma TakeStep(h: History, h1: History, kind: nat, order: seq<nat>, q: nat, more: seq<Wc>)
    requires OnlyTaken(h, h1, kind) && Untouched(h, h1, kind, order, q) && q < |order|
    requires (order[q], kind) in h1.taken
    requires forall i, j :: 0 <= i < j < |order| ==> order[i] != order[j]
    ensures var h2 := TakenMore(h1, (order[q], kind), more);
            && OnlyTaken(h, h2, kind) && Untouched(h, h2, kind, order, q + 1)
            && Gathered(h, h2, kind, order[..q + 1]) == Gathered(h, h1, kind, order[..q]) + more
            && h2.got == h1.got
  {
    var p := (order[q], kind);
    var h2 := TakenMore(h1, p, more);
    assert Since(h, h1, p) == [];
    assert h1.taken[p] == h.taken[p];
    assert Since(h, h2, p) == more;
    GatheredSame(h, h1, h2, kind, order[..q]);
    GatheredNext(h, h2, kind, order, q);
  }

  lemma {:induction false} GatheredRest(h: History, h': History, kind: nat, order: seq<nat>, q: nat)
    requires q <= |order| && Untouched(h, h', kind, order, q)
    ensures Gathered(h, h', kind, order) == Gathered(h, h', kind, order[..q])
  {
    if q == |order| {
      assert order[..q] == order;
    } else {
      GatheredRest(h, h', kind, order[..|order| - 1], q);
      assert order[..|order| - 1][..q] == order[..q];
    }
  }
}
