module TagRuns {
  // Whole runs of the OR-set and the shop: replicas issue requests, apply them at
  // home at once, and receive the others' in any order.

  import opened TagStore
  import opened TagText

  /** An issued operation, the n-th addition of its origin if it is one, and which
      operations its origin had applied by then. */
  datatype Issued = Issued(op: Op, origin: nat, n: nat, seen: set<nat>)

  datatype Replica = Replica(view: View, numAdds: nat, applied: set<nat>)

  datatype Net = Net(shop: bool, reps: seq<Replica>, issued: seq<Issued>)

  datatype Request = AddItem(item: int, quantity: int) | RemoveItem(item: int)

  datatype Event = Ask(r: nat, request: Request) | Deliver(r: nat, k: nat)

  function OpsAt(issued: seq<Issued>, ks: set<nat>): set<Op> {
    set k | k in ks && k < |issued| :: issued[k].op
  }

  predicate Init(s: Net) {
    s.issued == [] && forall r :: 0 <= r < |s.reps| ==> s.reps[r] == Replica(EMPTY, 0, {})
  }

  predicate Enabled(s: Net, ev: Event) {
    match ev
    case Ask(r, request) => r < |s.reps| && (s.shop && request.AddItem? ==> request.quantity > 0)
    case Deliver(r, k) => r < |s.reps| && k < |s.issued| && k !in s.reps[r].applied
  }

  /** What execute computes at the source. */
  function Sourced(s: Net, r: nat, request: Request): Op
    requires r < |s.reps|
  {
    var rep := s.reps[r];
    match request
    case RemoveItem(item) => Remove(item, Live(rep.view, item).Keys)
    case AddItem(item, quantity) =>
      if s.shop then Add(item, TagOf(r, rep.numAdds + 1), quantity, Live(rep.view, item).Keys)
      else Add(item, TagOf(r, rep.numAdds + 1), 1, {})
  }

  function AskStep(s: Net, r: nat, request: Request): Net
    requires r < |s.reps|
  {
    var rep, op := s.reps[r], Sourced(s, r, request);
    var n := if request.AddItem? then rep.numAdds + 1 else rep.numAdds;
    s.(issued := s.issued + [Issued(op, r, n, rep.applied)],
       reps := s.reps[r := Replica(Apply(rep.view, op), n, rep.applied + {|s.issued|})])
  }

  function DeliverStep(s: Net, r: nat, k: nat): Net
    requires r < |s.reps| && k < |s.issued|
  {
    var rep := s.reps[r];
    s.(reps := s.reps[r := rep.(view := Apply(rep.view, s.issued[k].op), applied := rep.applied + {k})])
  }

  function Next(s: Net, ev: Event): Net
    requires Enabled(s, ev)
  {
    match ev
    case Ask(r, request) => AskStep(s, r, request)
    case Deliver(r, k) => DeliverStep(s, r, k)
  }

  predicate StepAt(states: seq<Net>, events: seq<Event>, i: nat)
    requires i < |events| && i + 1 < |states|
  {
    Enabled(states[i], events[i]) && states[i + 1] == Next(states[i], events[i])
  }

  predicate IsRun(states: seq<Net>, events: seq<Event>) {
    && |states| == |events| + 1 && Init(states[0])
    && forall i: nat :: i < |events| ==> StepAt(states, events, i)
  }

  // ---------------------------------------------------------------------
  // Invariant
  // ---------------------------------------------------------------------

  /** The k-th addition of a replica has the k-th of its tags. */
  predicate TagOk(s: Net, k: nat)
    requires k < |s.issued|
  {
    var i := s.issued[k];
    && i.origin < |s.reps|
    && (i.op.Add? ==> i.op.tag == TagOf(i.origin, i.n) && i.n <= s.reps[i.origin].numAdds)
    && (forall l :: 0 <= l < k && s.issued[l].op.Add? && i.op.Add? && s.issued[l].origin == i.origin ==>
          s.issued[l].n < i.n)
  }

  /** An operation observed exactly what was live at its source; the OR-set's
      additions observe nothing. */
  ghost predicate ObservedOk(s: Net, k: nat)
    requires k < |s.issued|
  {
    var i := s.issued[k];
    && (forall l :: l in i.seen ==> l < k)
    && (if i.op.Add? && !s.shop then i.op.observed == {}
        else
          forall tag :: tag in i.op.observed <==>
            IsAdded(OpsAt(s.issued, i.seen), i.op.item, tag) && !IsRemoved(OpsAt(s.issued, i.seen), i.op.item, tag))
  }

  ghost predicate ReplicaOk(s: Net, r: nat)
    requires r < |s.reps|
  {
    && (forall k :: k in s.reps[r].applied ==> k < |s.issued|)
    && Represents(s.reps[r].view, OpsAt(s.issued, s.reps[r].applied))
  }

  ghost predicate Inv(s: Net) {
    && (forall k: nat :: k < |s.issued| ==> TagOk(s, k))
    && (forall k: nat :: k < |s.issued| ==> ObservedOk(s, k))
    && (forall r: nat :: r < |s.reps| ==> ReplicaOk(s, r))
  }

  /** A tag belongs to one addition. */
  lemma TagOnce(s: Net, k: nat, l: nat)
    requires forall k: nat :: k < |s.issued| ==> TagOk(s, k)
    requires k < |s.issued| && l < |s.issued| && s.issued[k].op.Add? && s.issued[l].op.Add?
    requires s.issued[k].op.tag == s.issued[l].op.tag
    ensures k == l
  {
    var a, b := s.issued[k], s.issued[l];
    assert TagOk(s, k) && TagOk(s, l);
    TagsDiffer(a.origin, a.n, b.origin, b.n);
  }

  lemma AllConsistent(s: Net, ks: set<nat>)
    requires forall k: nat :: k < |s.issued| ==> TagOk(s, k)
    ensures Consistent(OpsAt(s.issued, ks))
  {
    forall a, b | a in OpsAt(s.issued, ks) && b in OpsAt(s.issued, ks) && a.Add? && b.Add? && a.tag == b.tag
      ensures a == b
    {
      var k :| k in ks && k < |s.issued| && s.issued[k].op == a;
      var l :| l in ks && l < |s.issued| && s.issued[l].op == b;
      TagOnce(s, k, l);
    }
  }

  lemma OpsAtGrows(issued: seq<Issued>, i: Issued, ks: set<nat>)
    requires forall k :: k in ks ==> k < |issued|
    ensures OpsAt(issued + [i], ks) == OpsAt(issued, ks)
    ensures OpsAt(issued + [i], ks + {|issued|}) == OpsAt(issued, ks) + {i.op}
  {
    var more := issued + [i];
    assert forall k :: k in ks ==> more[k] == issued[k];
    assert forall op :: op in OpsAt(issued, ks) ==> op in OpsAt(more, ks);
    assert more[|issued|] == i;
    assert i.op in OpsAt(more, ks + {|issued|});
  }

  lemma OpsAtMore(issued: seq<Issued>, ks: set<nat>, k: nat)
    requires k < |issued|
    ensures OpsAt(issued, ks + {k}) == OpsAt(issued, ks) + {issued[k].op}
  {
  }

  lemma AskKeepsTags(s: Net, r: nat, request: Request)
    requires Inv(s) && r < |s.reps|
    ensures forall k: nat :: k < |AskStep(s, r, request).issued| ==> TagOk(AskStep(s, r, request), k)
  {
    hide Apply, TagOf;
    var s' := AskStep(s, r, request);
    forall k: nat | k < |s'.issued|
      ensures TagOk(s', k)
    {
      if k < |s.issued| {
        assert TagOk(s, k);
      } else {
        forall l | 0 <= l < k && s'.issued[l].op.Add? && s'.issued[k].op.Add? && s'.issued[l].origin == r
          ensures s'.issued[l].n < s'.issued[k].n
        {
          assert TagOk(s, l);
        }
      }
    }
  }

  lemma AskKeepsObserved(s: Net, r: nat, request: Request)
    requires Inv(s) && r < |s.reps|
    ensures forall k: nat :: k < |AskStep(s, r, request).issued| ==> ObservedOk(AskStep(s, r, request), k)
  {
    hide Apply, IsAdded, IsRemoved;
    var s', i := AskStep(s, r, request), Issued(Sourced(s, r, request), r,
      if request.AddItem? then s.reps[r].numAdds + 1 else s.reps[r].numAdds, s.reps[r].applied);
    assert s'.issued == s.issued + [i];
    forall k: nat | k < |s'.issued|
      ensures ObservedOk(s', k)
    {
      if k < |s.issued| {
        assert ObservedOk(s, k);
        OpsAtGrows(s.issued, i, s.issued[k].seen);
      } else {
        assert ReplicaOk(s, r);
        OpsAtGrows(s.issued, i, i.seen);
      }
    }
  }

  lemma AskKeepsReplica(s: Net, r: nat, request: Request, q: nat)
    requires Inv(s) && r < |s.reps| && q < |s.reps|
    requires forall k: nat :: k < |AskStep(s, r, request).issued| ==> TagOk(AskStep(s, r, request), k)
    ensures ReplicaOk(AskStep(s, r, request), q)
  {
    hide Apply, Represents, TagOk, ObservedOk;
    var s', n := AskStep(s, r, request), |s.issued|;
    var i := s'.issued[n];
    assert s'.issued == s.issued + [i];
    assert ReplicaOk(s, q);
    OpsAtGrows(s.issued, i, s.reps[q].applied);
    if q == r {
      AllConsistent(s', s.reps[r].applied + {n});
      ApplyRepresents(s.reps[r].view, OpsAt(s.issued, s.reps[r].applied), i.op);
    }
  }

  lemma DeliverKeepsInv(s: Net, r: nat, k: nat)
    requires Inv(s) && r < |s.reps| && k < |s.issued|
    ensures Inv(DeliverStep(s, r, k))
  {
    hide Apply, Represents, TagOf, IsAdded, IsRemoved;
    var s' := DeliverStep(s, r, k);
    forall l: nat | l < |s'.issued|
      ensures TagOk(s', l) && ObservedOk(s', l)
    {
      assert TagOk(s, l) && ObservedOk(s, l);
    }
    forall q: nat | q < |s'.reps|
      ensures ReplicaOk(s', q)
    {
      assert ReplicaOk(s, q);
      if q == r {
        AllConsistent(s, s.reps[r].applied + {k});
        OpsAtMore(s.issued, s.reps[r].applied, k);
        ApplyRepresents(s.reps[r].view, OpsAt(s.issued, s.reps[r].applied), s.issued[k].op);
      }
    }
  }

  lemma StepKeepsInv(s: Net, ev: Event)
    requires Inv(s) && Enabled(s, ev)
    ensures Inv(Next(s, ev))
  {
    match ev
    case Deliver(r, k) => DeliverKeepsInv(s, r, k);
    case Ask(r, request) =>
      AskKeepsTags(s, r, request);
      AskKeepsObserved(s, r, request);
      forall q: nat | q < |s.reps|
        ensures ReplicaOk(AskStep(s, r, request), q)
      {
        AskKeepsReplica(s, r, request, q);
      }
  }

  lemma {:induction false} RunInv(states: seq<Net>, events: seq<Event>, i: nat)
    requires IsRun(states, events) && i <= |events|
    ensures Inv(states[i])
  {
    if i == 0 {
      EmptyRepresents();
      assert OpsAt([], {}) == {};
    } else {
      RunInv(states, events, i - 1);
      assert StepAt(states, events, i - 1);
      StepKeepsInv(states[i - 1], events[i - 1]);
    }
  }

  // ---------------------------------------------------------------------
  // What a run guarantees
  // ---------------------------------------------------------------------

  /** Replicas that have applied the same requests agree, at any moment of any run. */
  lemma SameRequestsSameState(states: seq<Net>, events: seq<Event>, i: nat, q: nat, r: nat)
    requires IsRun(states, events) && i <= |events|
    requires q < |states[i].reps| && r < |states[i].reps|
    requires states[i].reps[q].applied == states[i].reps[r].applied
    ensures states[i].reps[q].view == states[i].reps[r].view
  {
    RunInv(states, events, i);
    var s := states[i];
    assert ReplicaOk(s, q) && ReplicaOk(s, r);
    RepresentedOnce(s.reps[q].view, s.reps[r].view, OpsAt(s.issued, s.reps[q].applied));
  }

  predicate Present(s: Net, r: nat, item: int)
    requires r < |s.reps|
  {
    item in s.reps[r].view.active
  }

  /** Request j takes back additions of the item: a removal, or in the shop an
      addition, which supersedes those before it. */
  predicate TakesBack(s: Net, j: nat, item: int)
    requires j < |s.issued|
  {
    s.issued[j].op.item == item && (s.issued[j].op.Remove? || s.shop)
  }

  predicate Unobserved(s: Net, k: nat)
    requires k < |s.issued|
  {
    forall j: nat :: j < |s.issued| && TakesBack(s, j, s.issued[k].op.item) ==> k !in s.issued[j].seen
  }

  lemma RemovedIsSeen(s: Net, k: nat, ks: set<nat>)
    requires Inv(s) && k < |s.issued| && s.issued[k].op.Add?
    requires forall j: nat :: j < |s.issued| ==> j in ks
    ensures IsRemoved(OpsAt(s.issued, ks), s.issued[k].op.item, s.issued[k].op.tag) <==> !Unobserved(s, k)
  {
    var item, tag := s.issued[k].op.item, s.issued[k].op.tag;
    if IsRemoved(OpsAt(s.issued, ks), item, tag) {
      var op :| op in OpsAt(s.issued, ks) && op.item == item && tag in op.observed;
      var j :| j in ks && j < |s.issued| && s.issued[j].op == op;
      assert ObservedOk(s, j);
      var add :| add in OpsAt(s.issued, s.issued[j].seen) && add.Add? && add.item == item && add.tag == tag;
      var l :| l in s.issued[j].seen && l < |s.issued| && s.issued[l].op == add;
      TagOnce(s, k, l);
      assert TakesBack(s, j, item) && k in s.issued[j].seen;
    }
    if !Unobserved(s, k) {
      var j: nat :| j < |s.issued| && TakesBack(s, j, item) && k in s.issued[j].seen;
      assert ObservedOk(s, j);
      var seen := OpsAt(s.issued, s.issued[j].seen);
      assert s.issued[k].op in seen;
      assert IsAdded(seen, item, tag);
      if IsRemoved(seen, item, tag) {
        var op :| op in seen && op.item == item && tag in op.observed;
        assert op in OpsAt(s.issued, ks);
      } else {
        assert tag in s.issued[j].op.observed;
        assert s.issued[j].op in OpsAt(s.issued, ks);
      }
    }
  }

  /** Once a replica has applied every request, an item is there exactly if some
      addition of it was observed by no removal, nor, in the shop, by a later
      addition: concurrent additions win. */
  lemma PresentIffUnobserved(states: seq<Net>, events: seq<Event>, i: nat, r: nat, item: int)
    requires IsRun(states, events) && i <= |events|
    requires r < |states[i].reps| && forall k: nat :: k < |states[i].issued| ==> k in states[i].reps[r].applied
    ensures Present(states[i], r, item) <==>
              exists k: nat :: k < |states[i].issued| && states[i].issued[k].op.Add?
                && states[i].issued[k].op.item == item && Unobserved(states[i], k)
  {
    RunInv(states, events, i);
    var s, ks := states[i], states[i].reps[r].applied;
    assert ReplicaOk(s, r);
    var v, ops := s.reps[r].view, OpsAt(s.issued, ks);
    if Present(s, r, item) {
      assert Live(v, item) != map[];
      var tag :| tag in Live(v, item);
      var op :| op in ops && op.Add? && op.item == item && op.tag == tag;
      var k :| k in ks && k < |s.issued| && s.issued[k].op == op;
      RemovedIsSeen(s, k, ks);
    }
    if k: nat :| k < |s.issued| && s.issued[k].op.Add? && s.issued[k].op.item == item && Unobserved(s, k) {
      RemovedIsSeen(s, k, ks);
      assert s.issued[k].op in ops;
      assert IsAdded(ops, item, s.issued[k].op.tag);
      assert s.issued[k].op.tag in Live(v, item);
    }
  }

  // ---------------------------------------------------------------------
  // Presence anywhere, with whatever has been applied
  // ---------------------------------------------------------------------

  /** Request j took back addition k: its origin had applied k by then, and no request
      that had taken k back before. */
  predicate Saw(s: Net, j: nat, k: nat)
    requires j < |s.issued| && k < |s.issued|
    decreases j
  {
    && TakesBack(s, j, s.issued[k].op.item) && k in s.issued[j].seen
    && forall l :: l in s.issued[j].seen && l < j ==> !Saw(s, l, k)
  }

  lemma AddedIffSeen(s: Net, k: nat, ks: set<nat>)
    requires Inv(s) && k < |s.issued| && s.issued[k].op.Add?
    ensures IsAdded(OpsAt(s.issued, ks), s.issued[k].op.item, s.issued[k].op.tag) <==> k in ks
  {
    var item, tag, ops := s.issued[k].op.item, s.issued[k].op.tag, OpsAt(s.issued, ks);
    if IsAdded(ops, item, tag) {
      var op :| op in ops && op.Add? && op.item == item && op.tag == tag;
      var l :| l in ks && l < |s.issued| && s.issued[l].op == op;
      TagOnce(s, k, l);
    }
    if k in ks {
      assert s.issued[k].op in ops;
    }
  }

  /** The tags an operation carries as observed are those it took back. */
  lemma {:induction false} SawIsObserved(s: Net, j: nat, k: nat)
    requires Inv(s) && j < |s.issued| && k < |s.issued| && s.issued[k].op.Add?
    ensures Saw(s, j, k) <==>
          s.issued[j].op.item == s.issued[k].op.item && s.issued[k].op.tag in s.issued[j].op.observed
    decreases j, 1
  {
    hide TagOk, Represents;
    var item, tag, seen := s.issued[k].op.item, s.issued[k].op.tag, s.issued[j].seen;
    assert ObservedOk(s, j);
    AddedIffSeen(s, k, seen);
    SawBefore(s, j, k);
  }

  lemma {:induction false} SawBefore(s: Net, j: nat, k: nat)
    requires Inv(s) && j < |s.issued| && k < |s.issued| && s.issued[k].op.Add?
    ensures IsRemoved(OpsAt(s.issued, s.issued[j].seen), s.issued[k].op.item, s.issued[k].op.tag)
       <==> exists l :: l in s.issued[j].seen && l < j && Saw(s, l, k)
    decreases j, 0
  {
    hide TagOk, Represents, Saw;
    var item, tag, seen := s.issued[k].op.item, s.issued[k].op.tag, s.issued[j].seen;
    assert ObservedOk(s, j);
    if IsRemoved(OpsAt(s.issued, seen), item, tag) {
      var op :| op in OpsAt(s.issued, seen) && op.item == item && tag in op.observed;
      var l :| l in seen && l < |s.issued| && s.issued[l].op == op;
      SawIsObserved(s, l, k);
    }
    if l :| l in seen && l < j && Saw(s, l, k) {
      SawIsObserved(s, l, k);
      assert s.issued[l].op in OpsAt(s.issued, seen);
    }
  }

  lemma RemovedIffSaw(s: Net, k: nat, ks: set<nat>)
    requires Inv(s) && k < |s.issued| && s.issued[k].op.Add?
    ensures IsRemoved(OpsAt(s.issued, ks), s.issued[k].op.item, s.issued[k].op.tag)
       <==> exists j :: j in ks && j < |s.issued| && Saw(s, j, k)
  {
    hide TagOk, ObservedOk, Represents, Saw;
    var item, tag := s.issued[k].op.item, s.issued[k].op.tag;
    if IsRemoved(OpsAt(s.issued, ks), item, tag) {
      var op :| op in OpsAt(s.issued, ks) && op.item == item && tag in op.observed;
      var j :| j in ks && j < |s.issued| && s.issued[j].op == op;
      SawIsObserved(s, j, k);
    }
    if j :| j in ks && j < |s.issued| && Saw(s, j, k) {
      SawIsObserved(s, j, k);
      assert s.issued[j].op in OpsAt(s.issued, ks);
    }
  }

  /** At any replica at any moment an item is there exactly if some addition of it has
      been applied that no request applied so far took back. */
  lemma PresentIffNotTakenBack(states: seq<Net>, events: seq<Event>, i: nat, r: nat, item: int)
    requires IsRun(states, events) && i <= |events| && r < |states[i].reps|
    ensures Present(states[i], r, item) <==>
              exists k: nat :: k in states[i].reps[r].applied && k < |states[i].issued| && states[i].issued[k].op.Add?
                && states[i].issued[k].op.item == item
                && forall j: nat :: j in states[i].reps[r].applied && j < |states[i].issued| ==> !Saw(states[i], j, k)
  {
    hide Saw, TagOk, ObservedOk;
    RunInv(states, events, i);
    var s, ks := states[i], states[i].reps[r].applied;
    assert ReplicaOk(s, r);
    var v, ops := s.reps[r].view, OpsAt(s.issued, ks);
    if Present(s, r, item) {
      assert Live(v, item) != map[];
      var tag :| tag in Live(v, item);
      var op :| op in ops && op.Add? && op.item == item && op.tag == tag;
      var k :| k in ks && k < |s.issued| && s.issued[k].op == op;
      RemovedIffSaw(s, k, ks);
    }
    if k: nat :| k in ks && k < |s.issued| && s.issued[k].op.Add? && s.issued[k].op.item == item
                 && forall j: nat :: j in ks && j < |s.issued| ==> !Saw(s, j, k) {
      RemovedIffSaw(s, k, ks);
      assert s.issued[k].op in ops;
      assert IsAdded(ops, item, s.issued[k].op.tag);
      assert s.issued[k].op.tag in Live(v, item);
    }
  }

  // ---------------------------------------------------------------------
  // Nothing stands in the way of agreement
  // ---------------------------------------------------------------------

  /** The run goes on by deliveries alone. */
  predicate GoesOnTo(states: seq<Net>, events: seq<Event>, states': seq<Net>, events': seq<Event>) {
    && IsRun(states, events) && IsRun(states', events') && states <= states' && events <= events'
    && forall i :: |events| <= i < |events'| ==> events'[i].Deliver?
  }

  lemma OneMoreStep(states: seq<Net>, events: seq<Event>, ev: Event)
    requires IsRun(states, events) && Enabled(states[|events|], ev)
    ensures IsRun(states + [Next(states[|events|], ev)], events + [ev])
  {
    var states', events' := states + [Next(states[|events|], ev)], events + [ev];
    forall i: nat | i < |events'| ensures StepAt(states', events', i) {
      if i < |events| { assert StepAt(states, events, i); }
    }
  }

  lemma DeliversOne(states: seq<Net>, events: seq<Event>, states1: seq<Net>, events1: seq<Event>, ev: Event)
    requires GoesOnTo(states, events, states1, events1) && Enabled(states1[|events1|], ev) && ev.Deliver?
    ensures GoesOnTo(states, events, states1 + [Next(states1[|events1|], ev)], events1 + [ev])
  {
    OneMoreStep(states1, events1, ev);
  }

  /** Replica r receives the first n operations. */
  lemma {:induction false} ReceivesUpTo(states: seq<Net>, events: seq<Event>, r: nat, n: nat)
    returns (states': seq<Net>, events': seq<Event>)
    requires IsRun(states, events) && r < |states[|events|].reps| && n <= |states[|events|].issued|
    ensures GoesOnTo(states, events, states', events')
    ensures var s, s' := states[|events|], states'[|events'|];
            && s'.issued == s.issued && |s'.reps| == |s.reps|
            && (forall q :: 0 <= q < |s.reps| && q != r ==> s'.reps[q] == s.reps[q])
            && (forall k :: 0 <= k < n ==> k in s'.reps[r].applied)
  {
    if n == 0 {
      states', events' := states, events;
    } else {
      var states1, events1 := ReceivesUpTo(states, events, r, n - 1);
      var s1 := states1[|events1|];
      if n - 1 in s1.reps[r].applied {
        states', events' := states1, events1;
      } else {
        var ev := Deliver(r, n - 1);
        DeliversOne(states, events, states1, events1, ev);
        states', events' := states1 + [Next(s1, ev)], events1 + [ev];
      }
    }
  }

  /** The first m replicas receive everything. */
  lemma {:induction false} AllReceive(states: seq<Net>, events: seq<Event>, m: nat)
    returns (states': seq<Net>, events': seq<Event>)
    requires IsRun(states, events) && m <= |states[|events|].reps|
    ensures GoesOnTo(states, events, states', events')
    ensures var s, s' := states[|events|], states'[|events'|];
            && s'.issued == s.issued && |s'.reps| == |s.reps|
            && (forall r, k :: 0 <= r < m && 0 <= k < |s.issued| ==> k in s'.reps[r].applied)
  {
    if m == 0 {
      states', events' := states, events;
    } else {
      var states1, events1 := AllReceive(states, events, m - 1);
      states', events' := ReceivesUpTo(states1, events1, m - 1, |states[|events|].issued|);
    }
  }

  /** AGREEMENT IS ALWAYS POSSIBLE.  Every run can go on, by deliveries alone, until all
      replicas have applied every request, and then they are in one state. */
  lemma CanAgree(states: seq<Net>, events: seq<Event>) returns (states': seq<Net>, events': seq<Event>)
    requires IsRun(states, events)
    ensures GoesOnTo(states, events, states', events') && states'[|events'|].issued == states[|events|].issued
    ensures var s' := states'[|events'|];
            && (forall r, k :: 0 <= r < |s'.reps| && 0 <= k < |s'.issued| ==> k in s'.reps[r].applied)
            && (forall q, r :: 0 <= q < |s'.reps| && 0 <= r < |s'.reps| ==> s'.reps[q].view == s'.reps[r].view)
  {
    states', events' := AllReceive(states, events, |states[|events|].reps|);
    var s' := states'[|events'|];
    RunInv(states', events', |events'|);
    forall q, r | 0 <= q < |s'.reps| && 0 <= r < |s'.reps| ensures s'.reps[q].view == s'.reps[r].view {
      assert ReplicaOk(s', q) && ReplicaOk(s', r);
      assert s'.reps[q].applied == s'.reps[r].applied;
      SameRequestsSameState(states', events', |events'|, q, r);
    }
  }

  // ---------------------------------------------------------------------
  // A request takes effect everywhere
  // ---------------------------------------------------------------------

  /** Replica r has applied everything. */
  predicate UpToDate(s: Net, r: nat)
    requires r < |s.reps|
  {
    forall k :: 0 <= k < |s.issued| ==> k in s.reps[r].applied
  }

  /** The run goes on by this request, and then by deliveries. */
  predicate GoesOnBy(states: seq<Net>, events: seq<Event>, ev: Event, states': seq<Net>, events': seq<Event>) {
    && IsRun(states, events) && Enabled(states[|events|], ev)
    && GoesOnTo(states + [Next(states[|events|], ev)], events + [ev], states', events')
  }

  /** No operation knows the tag of the next addition. */
  lemma NextTagIsNew(s: Net, r: nat, item: int)
    requires Inv(s) && r < |s.reps|
    ensures TagOf(r, s.reps[r].numAdds + 1) !in Live(s.reps[r].view, item)
    ensures TagOf(r, s.reps[r].numAdds + 1) !in Removed(s.reps[r].view, item)
  {
    assert ReplicaOk(s, r);
    var tag, ops := TagOf(r, s.reps[r].numAdds + 1), OpsAt(s.issued, s.reps[r].applied);
    if IsAdded(ops, item, tag) {
      AddedIsOld(s, r, s.reps[r].applied, item, tag);
    }
    if IsRemoved(ops, item, tag) {
      var op :| op in ops && op.item == item && tag in op.observed;
      var j :| j in s.reps[r].applied && j < |s.issued| && s.issued[j].op == op;
      assert ObservedOk(s, j);
      AddedIsOld(s, r, s.issued[j].seen, item, tag);
    }
  }

  lemma AddedIsOld(s: Net, r: nat, ks: set<nat>, item: int, tag: Tag)
    requires Inv(s) && r < |s.reps| && IsAdded(OpsAt(s.issued, ks), item, tag)
    ensures tag != TagOf(r, s.reps[r].numAdds + 1)
  {
    var op :| op in OpsAt(s.issued, ks) && op.Add? && op.item == item && op.tag == tag;
    var k :| k in ks && k < |s.issued| && s.issued[k].op == op;
    assert TagOk(s, k);
    if tag == TagOf(r, s.reps[r].numAdds + 1) {
      TagsDiffer(s.issued[k].origin, s.issued[k].n, r, s.reps[r].numAdds + 1);
    }
  }

  lemma {:induction false} ReplicasStay(states: seq<Net>, events: seq<Event>, i: nat)
    requires IsRun(states, events) && i <= |events|
    ensures |states[|events|].reps| == |states[i].reps|
    decreases |events| - i
  {
    if i < |events| {
      assert StepAt(states, events, i);
      ReplicasStay(states, events, i + 1);
    }
  }

  /** What a request does to what is live at its source: a removal leaves nothing of its
      item, an addition adds one tag, in the shop in place of all others, and no other
      item changes. */
  lemma RequestDoes(s: Net, r: nat, request: Request, item: int)
    requires Inv(s) && r < |s.reps|
    ensures var v, v' := s.reps[r].view, Apply(s.reps[r].view, Sourced(s, r, request));
            var tag := TagOf(r, s.reps[r].numAdds + 1);
            Live(v', item) ==
              if item != request.item then Live(v, item)
              else if request.RemoveItem? then map[]
              else if s.shop then map[tag := request.quantity]
              else Live(v, item)[tag := 1]
  {
    hide RemoveObserved, Insert, Live, Removed, Inv, TagOf;
    var v, op := s.reps[r].view, Sourced(s, r, request);
    NextTagIsNew(s, r, request.item);
    RemoveObservedIs(v, op.item, op.observed);
    if op.Add? {
      InsertIs(RemoveObserved(v, op.item, op.observed), op.item, op.tag, op.quantity);
    }
  }

  /** A REQUEST TAKES EFFECT EVERYWHERE.  Where all replicas have applied everything, any
      of them can take any request (in the shop, of a quantity there can be), and then,
      by deliveries alone, all come to show it: a removed item is gone, an added one is
      there, in the shop in just the quantity asked for, and no other item changes. */
  lemma RequestTakesEffect(states: seq<Net>, events: seq<Event>, r: nat, request: Request, item: int)
    returns (states': seq<Net>, events': seq<Event>)
    requires IsRun(states, events) && r < |states[|events|].reps|
    requires forall q :: 0 <= q < |states[|events|].reps| ==> UpToDate(states[|events|], q)
    requires states[|events|].shop && request.AddItem? ==> request.quantity > 0
    ensures GoesOnBy(states, events, Ask(r, request), states', events')
    ensures var s, s' := states[|events|], states'[|events'|];
            var tag := TagOf(r, s.reps[r].numAdds + 1);
            && |s'.reps| == |s.reps|
            && forall q :: 0 <= q < |s.reps| ==>
                 Live(s'.reps[q].view, item) ==
                   if item != request.item then Live(s.reps[q].view, item)
                   else if request.RemoveItem? then map[]
                   else if s.shop then map[tag := request.quantity]
                   else Live(s.reps[q].view, item)[tag := 1]
  {
    var s, ev := states[|events|], Ask(r, request);
    RunInv(states, events, |events|);
    RequestDoes(s, r, request, item);
    hide Inv, Apply, Live;
    OneMoreStep(states, events, ev);
    var s1 := Next(s, ev);
    states', events' := CanAgree(states + [s1], events + [ev]);
    var s' := states'[|events'|];
    RunInv(states + [s1], events + [ev], |events| + 1);
    RunInv(states', events', |events'|);
    assert UpToDate(s1, r) by { assert UpToDate(s, r); }
    assert |s'.reps| == |s.reps| by {
      ReplicasStay(states', events', |events| + 1);
      assert states'[|events| + 1] == (states + [s1])[|events| + 1] == s1;
    }
    forall q | 0 <= q < |s.reps| ensures s'.reps[q].view == s1.reps[r].view && s.reps[q].view == s.reps[r].view {
      assert UpToDate(s, q);
      SameApplied(s1, s', r, q);
      SameApplied(s, s, r, q);
    }
  }

  /** What the replicas hold depends on nothing but what they have applied. */
  lemma SameApplied(s: Net, s': Net, r: nat, q: nat)
    requires Inv(s) && Inv(s') && s'.issued == s.issued
    requires r < |s.reps| && q < |s'.reps| && UpToDate(s, r) && UpToDate(s', q)
    ensures s'.reps[q].view == s.reps[r].view
  {
    assert ReplicaOk(s, r) && ReplicaOk(s', q);
    assert s'.reps[q].applied == s.reps[r].applied;
    RepresentedOnce(s.reps[r].view, s'.reps[q].view, OpsAt(s.issued, s.reps[r].applied));
  }
}
