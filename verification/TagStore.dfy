module TagStore {
  // What the OR-set and the shop replicate: for each item the tags of its live
  // additions, and the tags known to be removed.  Downstream operations commute.

  type Tag = string

  /** A downstream operation.  An addition in the shop also removes the additions
      it observed; in the OR-set it observes none. */
  datatype Op =
    | Add(item: int, tag: Tag, quantity: int, observed: set<Tag>)
    | Remove(item: int, observed: set<Tag>)

  datatype View = View(active: map<int, map<Tag, int>>, tombstones: map<int, set<Tag>>)

  const EMPTY: View := View(map[], map[])

  function Live(v: View, item: int): map<Tag, int> {
    if item in v.active then v.active[item] else map[]
  }

  function Removed(v: View, item: int): set<Tag> {
    if item in v.tombstones then v.tombstones[item] else {}
  }

  /** An item without live tags has no entry. */
  function SetLive(active: map<int, map<Tag, int>>, item: int, live: map<Tag, int>): map<int, map<Tag, int>> {
    if live == map[] then active - {item} else active[item := live]
  }

  function RemoveObserved(v: View, item: int, observed: set<Tag>): View {
    if observed == {} then v
    else
      View(SetLive(v.active, item, Live(v, item) - observed),
           v.tombstones[item := Removed(v, item) + observed])
  }

  function Insert(v: View, item: int, tag: Tag, quantity: int): View {
    if tag in Removed(v, item) then v
    else v.(active := v.active[item := Live(v, item)[tag := quantity]])
  }

  function Apply(v: View, op: Op): View {
    match op
    case Remove(item, observed) => RemoveObserved(v, item, observed)
    case Add(item, tag, quantity, observed) => Insert(RemoveObserved(v, item, observed), item, tag, quantity)
  }

  function ApplyAll(v: View, ops: seq<Op>): View {
    if ops == [] then v else Apply(ApplyAll(v, ops[..|ops| - 1]), ops[|ops| - 1])
  }

  // ---------------------------------------------------------------------
  // The state a set of operations stands for
  // ---------------------------------------------------------------------

  predicate IsAdded(ops: set<Op>, item: int, tag: Tag) {
    exists op :: op in ops && op.Add? && op.item == item && op.tag == tag
  }

  predicate IsRemoved(ops: set<Op>, item: int, tag: Tag) {
    exists op :: op in ops && op.item == item && tag in op.observed
  }

  /** Additions with the same tag say the same. */
  predicate Consistent(ops: set<Op>) {
    forall a, b :: a in ops && b in ops && a.Add? && b.Add? && a.item == b.item && a.tag == b.tag ==>
      a.quantity == b.quantity
  }

  /** Live tags are those added and not removed, with the quantity they were added
      with; tombstones are exactly the removed tags; nothing is kept empty. */
  ghost predicate Represents(v: View, ops: set<Op>) {
    && (forall item, tag :: tag in Live(v, item) <==> IsAdded(ops, item, tag) && !IsRemoved(ops, item, tag))
    && (forall item, tag :: tag in Removed(v, item) <==> IsRemoved(ops, item, tag))
    && (forall item :: item in v.active ==> v.active[item] != map[])
    && (forall item :: item in v.tombstones ==> v.tombstones[item] != {})
    && (forall op :: op in ops && op.Add? && op.tag in Live(v, op.item) ==> Live(v, op.item)[op.tag] == op.quantity)
  }

  /** RemoveObserved changes one item only, and that by the observed tags. */
  lemma RemoveObservedIs(v: View, item: int, observed: set<Tag>)
    ensures var v' := RemoveObserved(v, item, observed);
            && (forall i :: i != item ==> Live(v', i) == Live(v, i) && Removed(v', i) == Removed(v, i))
            && Live(v', item) == Live(v, item) - observed
            && Removed(v', item) == Removed(v, item) + observed
  {
  }

  lemma RemoveObservedStaysTidy(v: View, item: int, observed: set<Tag>)
    requires forall i :: i in v.active ==> v.active[i] != map[]
    requires forall i :: i in v.tombstones ==> v.tombstones[i] != {}
    ensures var v' := RemoveObserved(v, item, observed);
            && (forall i :: i in v'.active ==> v'.active[i] != map[])
            && (forall i :: i in v'.tombstones ==> v'.tombstones[i] != {})
  {
    if observed != {} {
      var t :| t in observed;
      assert t in Removed(v, item) + observed;
    }
  }

  lemma MoreOps(ops: set<Op>, op: Op, item: int, tag: Tag)
    ensures IsAdded(ops + {op}, item, tag)
       <==> IsAdded(ops, item, tag) || (op.Add? && op.item == item && op.tag == tag)
    ensures IsRemoved(ops + {op}, item, tag)
       <==> IsRemoved(ops, item, tag) || (op.item == item && tag in op.observed)
  {
    assert forall o :: o in ops ==> o in ops + {op};
    assert op in ops + {op};
  }

  lemma InsertIs(v: View, item: int, tag: Tag, quantity: int)
    ensures var v' := Insert(v, item, tag, quantity);
            && v'.tombstones == v.tombstones
            && (forall i :: i != item ==> Live(v', i) == Live(v, i))
            && Live(v', item) == (if tag in Removed(v, item) then Live(v, item) else Live(v, item)[tag := quantity])
            && (forall i :: i in v'.active ==> v'.active[i] == map[] ==> i in v.active && v.active[i] == map[])
  {
    assert tag in Live(v, item)[tag := quantity];
  }

  /** What an operation does to the live and the removed tags of every item. */
  lemma ApplyIs(v: View, op: Op, item: int, tag: Tag)
    ensures var v' := Apply(v, op);
            && (tag in Removed(v', item) <==> tag in Removed(v, item) || (item == op.item && tag in op.observed))
            && (tag in Live(v', item) <==>
                  (tag in Live(v, item) || (op.Add? && item == op.item && tag == op.tag && tag !in Removed(v, item)))
                  && !(item == op.item && tag in op.observed))
    ensures var v' := Apply(v, op);
            tag in Live(v', item) ==>
              if op.Add? && item == op.item && tag == op.tag && tag !in Removed(v, item)
              then Live(v', item)[tag] == op.quantity
              else tag in Live(v, item) && Live(v', item)[tag] == Live(v, item)[tag]
  {
    hide RemoveObserved, Insert, Live, Removed;
    RemoveObservedIs(v, op.item, op.observed);
    if op.Add? {
      InsertIs(RemoveObserved(v, op.item, op.observed), op.item, op.tag, op.quantity);
      RemovedSame(RemoveObserved(v, op.item, op.observed), Apply(v, op), item);
    }
  }

  lemma RemovedSame(v: View, w: View, item: int)
    requires v.tombstones == w.tombstones
    ensures Removed(v, item) == Removed(w, item)
  {
  }

  /** Applying one operation is adding it to the set, whatever was applied before
      and even if it was applied already. */
  lemma ApplyRepresents(v: View, ops: set<Op>, op: Op)
    requires Represents(v, ops) && Consistent(ops + {op})
    ensures Represents(Apply(v, op), ops + {op})
  {
    hide RemoveObserved, Insert, Live, Removed, IsAdded, IsRemoved;
    var v' := Apply(v, op);
    forall item, tag
      ensures tag in Live(v', item) <==> IsAdded(ops + {op}, item, tag) && !IsRemoved(ops + {op}, item, tag)
      ensures tag in Removed(v', item) <==> IsRemoved(ops + {op}, item, tag)
    {
      MoreOps(ops, op, item, tag);
      ApplyIs(v, op, item, tag);
    }
    forall o | o in ops + {op} && o.Add? && o.tag in Live(v', o.item)
      ensures Live(v', o.item)[o.tag] == o.quantity
    {
      ApplyIs(v, op, o.item, o.tag);
      assert op in ops + {op};
    }
    ApplyStaysTidy(v, op);
  }

  lemma ApplyStaysTidy(v: View, op: Op)
    requires forall i :: i in v.active ==> v.active[i] != map[]
    requires forall i :: i in v.tombstones ==> v.tombstones[i] != {}
    ensures forall i :: i in Apply(v, op).active ==> Apply(v, op).active[i] != map[]
    ensures forall i :: i in Apply(v, op).tombstones ==> Apply(v, op).tombstones[i] != {}
  {
    hide RemoveObserved, Insert;
    RemoveObservedStaysTidy(v, op.item, op.observed);
    if op.Add? {
      InsertIs(RemoveObserved(v, op.item, op.observed), op.item, op.tag, op.quantity);
    }
  }

  lemma EmptyRepresents()
    ensures Represents(EMPTY, {})
  {
  }

  /** The operations determine the state. */
  lemma RepresentedOnce(v: View, w: View, ops: set<Op>)
    requires Represents(v, ops) && Represents(w, ops)
    ensures v == w
  {
    forall item
      ensures Live(v, item) == Live(w, item) && Removed(v, item) == Removed(w, item)
    {
      forall tag | tag in Live(v, item)
        ensures tag in Live(w, item) && Live(v, item)[tag] == Live(w, item)[tag]
      {
        var op :| op in ops && op.Add? && op.item == item && op.tag == tag;
      }
      assert forall tag :: tag in Live(w, item) ==> tag in Live(v, item);
    }
    forall item
      ensures item in v.active <==> item in w.active
      ensures item in v.tombstones <==> item in w.tombstones
    {
      assert Live(v, item) == Live(w, item);
      assert Removed(v, item) == Removed(w, item);
    }
    assert v.active.Keys == w.active.Keys && v.tombstones.Keys == w.tombstones.Keys;
    forall item | item in v.active
      ensures v.active[item] == w.active[item]
    {
      assert Live(v, item) == Live(w, item);
    }
    forall item | item in v.tombstones
      ensures v.tombstones[item] == w.tombstones[item]
    {
      assert Removed(v, item) == Removed(w, item);
    }
  }

  function AsSet(ops: seq<Op>): set<Op> {
    set op | op in ops
  }

  lemma {:induction false} ApplyAllRepresents(ops: seq<Op>)
    requires Consistent(AsSet(ops))
    ensures Represents(ApplyAll(EMPTY, ops), AsSet(ops))
  {
    if ops == [] {
      EmptyRepresents();
      assert AsSet(ops) == {};
    } else {
      var before, op := ops[..|ops| - 1], ops[|ops| - 1];
      assert ops == before + [op];
      assert AsSet(ops) == AsSet(before) + {op};
      ApplyAllRepresents(before);
      ApplyRepresents(ApplyAll(EMPTY, before), AsSet(before), op);
    }
  }

  /** Replicas that applied the same operations hold the same state, in whatever
      order each applied them: removals may even come before the additions they
      observed, and operations may be applied twice. */
  lemma Converges(ops: seq<Op>, ops': seq<Op>)
    requires AsSet(ops) == AsSet(ops') && Consistent(AsSet(ops))
    ensures ApplyAll(EMPTY, ops) == ApplyAll(EMPTY, ops')
  {
    ApplyAllRepresents(ops);
    ApplyAllRepresents(ops');
    RepresentedOnce(ApplyAll(EMPTY, ops), ApplyAll(EMPTY, ops'), AsSet(ops));
  }
}
