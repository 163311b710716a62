module TagObjects {
  // The OR-set and the shop as objects: what a replica computes at the source of a
  // request, and how it applies a downstream operation.

  import opened Options
  import opened TagStore
  import opened TagText
  import opened Text

  // ---------------------------------------------------------------------
  // OR-set
  // ---------------------------------------------------------------------

  function Ones(tags: set<Tag>): map<Tag, int> {
    map t | t in tags :: 1
  }

  function TagsOf(m: map<int, set<Tag>>, item: int): set<Tag> {
    if item in m then m[item] else {}
  }

  /** The state an OR-set stands for; every addition has quantity 1. */
  function SetView(active: map<int, set<Tag>>, tombstones: map<int, set<Tag>>): View {
    View(map e | e in active :: Ones(active[e]), map e | e in tombstones && tombstones[e] != {} :: tombstones[e])
  }

  lemma OnesMove(tags: set<Tag>, tag: Tag, removed: set<Tag>)
    ensures Ones(tags + {tag}) == Ones(tags)[tag := 1]
    ensures Ones(tags - removed) == Ones(tags) - removed
    ensures Ones(tags) == map[] <==> tags == {}
  {
    if tags != {} {
      var t :| t in tags;
      assert t in Ones(tags);
    }
  }

  lemma SetAdds(active: map<int, set<Tag>>, tombstones: map<int, set<Tag>>, e: int, tag: Tag)
    requires tag !in TagsOf(tombstones, e)
    ensures SetView(active[e := TagsOf(active, e) + {tag}], tombstones)
         == Apply(SetView(active, tombstones), Add(e, tag, 1, {}))
  {
    OnesMove(TagsOf(active, e), tag, {});
    var v, w := SetView(active[e := TagsOf(active, e) + {tag}], tombstones),
                Apply(SetView(active, tombstones), Add(e, tag, 1, {}));
    assert Ones({}) == map[];
    assert v.active == w.active;
  }

  function SetTags(m: map<int, set<Tag>>, item: int, tags: set<Tag>): map<int, set<Tag>> {
    if tags == {} then m - {item} else m[item := tags]
  }

  lemma SetRemoves(active: map<int, set<Tag>>, tombstones: map<int, set<Tag>>, e: int, removed: set<Tag>)
    requires forall i :: i in active ==> active[i] != {}
    ensures SetView(SetTags(active, e, TagsOf(active, e) - removed), tombstones[e := TagsOf(tombstones, e) + removed])
         == Apply(SetView(active, tombstones), Remove(e, removed))
  {
    hide Ones;
    var left := TagsOf(active, e) - removed;
    OnesMove(TagsOf(active, e), "", removed);
    OnesMove(left, "", {});
    OnesMove({}, "", {});
    var v := SetView(SetTags(active, e, left), tombstones[e := TagsOf(tombstones, e) + removed]);
    var w := Apply(SetView(active, tombstones), Remove(e, removed));
    forall i
      ensures i in v.tombstones <==> i in w.tombstones
      ensures i in v.tombstones ==> v.tombstones[i] == w.tombstones[i]
    {
    }
    forall i
      ensures i in v.active <==> i in w.active
      ensures i in v.active ==> v.active[i] == w.active[i]
    {
      if i == e && removed == {} {
        assert left == TagsOf(active, e);
      }
    }
    assert v.tombstones.Keys == w.tombstones.Keys && v.active.Keys == w.active.Keys;
  }

  /** The loop over removed tags: each becomes a tombstone and is live no more. */
  method MoveTags(removed: set<Tag>, tombs: set<Tag>, live: set<Tag>) returns (tombs': set<Tag>, live': set<Tag>)
    ensures tombs' == tombs + removed && live' == live - removed
  {
    tombs', live' := tombs, live;
    var rest := removed;
    while rest != {}
      invariant rest <= removed
      invariant tombs' == tombs + (removed - rest) && live' == live - (removed - rest)
      decreases |rest|
    {
      var tag :| tag in rest;
      tombs', live', rest := tombs' + {tag}, live' - {tag}, rest - {tag};
    }
  }

  class ORSet {
    const self: nat
    var active: map<int, set<Tag>>
    var tombstones: map<int, set<Tag>>
    var numAdds: nat

    constructor (self: nat)
      ensures this.self == self && Valid() && Abs() == EMPTY && numAdds == 0
    {
      this.self := self;
      active, tombstones, numAdds := map[], map[], 0;
    }

    ghost predicate Valid()
      reads this
    {
      forall e :: e in active ==> active[e] != {}
    }

    function Abs(): View
      reads this
    {
      SetView(active, tombstones)
    }

    /** Source of an add: a tag of its own. */
    method ExecuteAdd(element: int) returns (suffix: string)
      modifies this`numAdds
      ensures numAdds == old(numAdds) + 1 && suffix == TagOf(self, numAdds)
    {
      numAdds := numAdds + 1;
      suffix := Decimal(self) + "." + Decimal(numAdds);
    }

    /** Source of a remove: the tags observed here. */
    method ExecuteRemove(element: int) returns (suffix: string)
      requires Valid()
      ensures PlainTags(Live(Abs(), element).Keys) ==>
                Decoded(suffix) == Live(Abs(), element).Keys && (suffix == "" <==> element !in active)
    {
      if element !in active {
        return "";
      }
      suffix := EncodeTags(active[element]);
    }

    method Query() returns (size: nat)
      ensures size == |Abs().active|
    {
      size := |active|;
      assert Abs().active.Keys == active.Keys;
    }

    method DownstreamAdd(element: int, tag: Tag)
      requires Valid()
      modifies this`active
      ensures Valid() && Abs() == Apply(old(Abs()), Add(element, tag, 1, {}))
    {
      if element !in tombstones || tag !in tombstones[element] {
        SetAdds(active, tombstones, element, tag);
        var tags := if element in active then active[element] else {};
        active := active[element := tags + {tag}];
        assert tag in active[element];
      }
    }

    /** Without a suffix nothing was observed, and nothing changes. */
    method DownstreamRemove(element: int, suffix: Option<string>)
      requires Valid()
      modifies this`active, this`tombstones
      ensures Valid()
      ensures Abs() == if suffix.None? then old(Abs()) else Apply(old(Abs()), Remove(element, Decoded(suffix.value)))
    {
      if suffix.None? {
        return;
      }
      var removed := DecodeTags(suffix.value);
      SetRemoves(active, tombstones, element, removed);
      var tombs, left := MoveTags(removed, TagsOf(tombstones, element), TagsOf(active, element));
      tombstones := tombstones[element := tombs];
      if element in active {
        active := SetTags(active, element, left);
      } else {
        assert SetTags(active, element, left) == active;
      }
    }
  }

  // ---------------------------------------------------------------------
  // Shop
  // ---------------------------------------------------------------------

  /** A tag and the tags its addition observed, with a bar between them. */
  function Metadata(tag: Tag, observed: string): string {
    tag + "|" + observed
  }

  lemma MetadataSplits(tag: Tag, observed: string)
    requires Plain(tag)
    ensures var k := Find(Metadata(tag, observed), '|');
            k < |Metadata(tag, observed)| && Metadata(tag, observed)[..k] == tag
            && Metadata(tag, observed)[k + 1..] == observed
  {
    FindIs(Metadata(tag, observed), '|', |tag|);
  }

  method MoveVersions(removed: set<Tag>, tombs: set<Tag>, live: map<Tag, int>)
    returns (tombs': set<Tag>, live': map<Tag, int>)
    ensures tombs' == tombs + removed && live' == live - removed
  {
    tombs', live' := tombs, live;
    var rest := removed;
    while rest != {}
      invariant rest <= removed
      invariant tombs' == tombs + (removed - rest) && live' == live - (removed - rest)
      decreases |rest|
    {
      var tag :| tag in rest;
      tombs', live', rest := tombs' + {tag}, live' - {tag}, rest - {tag};
    }
  }

  class Shop {
    const self: nat
    var active: map<int, map<Tag, int>>
    var tombstones: map<int, set<Tag>>
    var numAdds: nat

    constructor (self: nat)
      ensures this.self == self && Valid() && Abs() == EMPTY && numAdds == 0
    {
      this.self := self;
      active, tombstones, numAdds := map[], map[], 0;
    }

    ghost predicate Valid()
      reads this
    {
      forall i :: i in active ==> active[i] != map[]
    }

    function Abs(): View
      reads this
    {
      View(active, tombstones)
    }

    /** Source of an add: a tag of its own and what is live here.  No answer means
        the source throws. */
    method ExecuteAdd(item: int, quantity: int) returns (suffix: Option<string>)
      requires Valid()
      modifies this`numAdds
      ensures suffix.Some? <==> quantity > 0
      ensures numAdds == old(numAdds) + if quantity > 0 then 1 else 0
      ensures suffix.Some? ==>
                var m := suffix.value;
                var k := Find(m, '|');
                && k < |m| && m[..k] == TagOf(self, numAdds)
                && (PlainTags(Live(Abs(), item).Keys) ==> Decoded(m[k + 1..]) == Live(Abs(), item).Keys)
    {
      if quantity <= 0 {
        return None;
      }
      numAdds := numAdds + 1;
      var tag := Decimal(self) + "." + Decimal(numAdds);
      var observed := "";
      if item in active {
        observed := EncodeTags(active[item].Keys);
      }
      suffix := Some(Metadata(tag, observed));
      TagIsPlain(self, numAdds);
      MetadataSplits(tag, observed);
    }

    method ExecuteRemove(item: int) returns (suffix: string)
      requires Valid()
      ensures PlainTags(Live(Abs(), item).Keys) ==> Decoded(suffix) == Live(Abs(), item).Keys
    {
      if item !in active {
        return "";
      }
      suffix := EncodeTags(active[item].Keys);
    }

    method RemoveObserved(item: int, removed: set<Tag>)
      requires Valid()
      modifies this`active, this`tombstones
      ensures Valid() && Abs() == TagStore.RemoveObserved(old(Abs()), item, removed)
    {
      if removed == {} {
        return;
      }
      var tombs, live := MoveVersions(removed, Removed(Abs(), item), Live(Abs(), item));
      tombstones := tombstones[item := tombs];
      if item in active {
        active := if live == map[] then active - {item} else active[item := live];
      } else {
        assert active - {item} == active && live == map[];
      }
    }

    method DownstreamRemove(item: int, suffix: Option<string>)
      requires Valid()
      modifies this`active, this`tombstones
      ensures Valid()
      ensures Abs() == if suffix.None? then old(Abs()) else Apply(old(Abs()), Remove(item, Decoded(suffix.value)))
    {
      if suffix.Some? {
        var removed := DecodeTags(suffix.value);
        RemoveObserved(item, removed);
      }
    }

    /** Fails, as the source throws, without a bar or with no quantity. */
    method DownstreamAdd(item: int, quantity: int, metadata: string) returns (ok: bool)
      requires Valid()
      modifies this`active, this`tombstones
      ensures Valid() && ok == (quantity > 0 && Find(metadata, '|') < |metadata|)
      ensures !ok ==> Abs() == old(Abs())
      ensures ok ==>
                var k := Find(metadata, '|');
                Abs() == Apply(old(Abs()), Add(item, metadata[..k], quantity, Decoded(metadata[k + 1..])))
    {
      var k := Find(metadata, '|');
      if quantity <= 0 || k == |metadata| {
        return false;
      }
      var tag := metadata[..k];
      var observed := DecodeTags(metadata[k + 1..]);
      RemoveObserved(item, observed);
      if item !in tombstones || tag !in tombstones[item] {
        var versions := if item in active then active[item] else map[];
        active := active[item := versions[tag := quantity]];
        assert tag in active[item];
      }
      ok := true;
    }
  }
}
