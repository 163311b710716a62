module TagCalls {
  // The objects take the steps of the runs: asked for a request at the source, or handed
  // what another replica sent for one, an OR-set or a shop that stands where a replica of
  // a run stands goes on to stand where the run's next step puts that replica.

  import opened Options
  import opened TagStore
  import opened TagText
  import opened Text
  import opened TagObjects
  import opened TagRuns

  /** In every run all live tags can travel in a list. */
  lemma LiveIsPlain(s: Net, r: nat, item: int)
    requires Inv(s) && r < |s.reps|
    ensures PlainTags(Live(s.reps[r].view, item).Keys)
  {
    assert ReplicaOk(s, r);
    forall tag | tag in Live(s.reps[r].view, item) ensures Plain(tag) {
      var op :| op in OpsAt(s.issued, s.reps[r].applied) && op.Add? && op.item == item && op.tag == tag;
      var k :| k in s.reps[r].applied && k < |s.issued| && s.issued[k].op == op;
      assert TagOk(s, k);
      TagIsPlain(s.issued[k].origin, s.issued[k].n);
    }
  }

  /** The object stands where replica r of the run stands. */
  predicate SetAt(obj: ORSet, s: Net, r: nat)
    reads obj
  {
    !s.shop && r < |s.reps| && obj.self == r && obj.Abs() == s.reps[r].view && obj.numAdds == s.reps[r].numAdds
  }

  predicate ShopAt(obj: Shop, s: Net, r: nat)
    reads obj
  {
    s.shop && r < |s.reps| && obj.self == r && obj.Abs() == s.reps[r].view && obj.numAdds == s.reps[r].numAdds
  }

  /** What is sent with a request says which operation it is.  Nothing is sent with a
      removal that observed nothing. */
  predicate Says(shop: bool, request: Request, suffix: Option<string>, op: Op) {
    match request
    case RemoveItem(item) => op == Remove(item, if suffix.None? then {} else Decoded(suffix.value))
    case AddItem(item, quantity) =>
      && suffix.Some?
      && if !shop then op == Add(item, suffix.value, 1, {})
         else
           var k := Find(suffix.value, '|');
           && k < |suffix.value| && quantity > 0
           && op == Add(item, suffix.value[..k], quantity, Decoded(suffix.value[k + 1..]))
  }

  function NotEmpty(text: string): Option<string> {
    if text == "" then None else Some(text)
  }

  lemma NothingObserved(v: View, item: int)
    ensures Decoded("") == {} && Apply(v, Remove(item, {})) == v
  {}

  /** A request at its source: executed, applied downstream at once, and sent on. */
  method SetRequest(obj: ORSet, request: Request, ghost s: Net, ghost r: nat) returns (suffix: Option<string>)
    requires Inv(s) && r < |s.reps| && SetAt(obj, s, r) && obj.Valid()
    modifies obj
    ensures Enabled(s, Ask(r, request))
    ensures obj.Valid() && SetAt(obj, Next(s, Ask(r, request)), r)
    ensures Says(false, request, suffix, Sourced(s, r, request))
  {
    hide Inv, Apply, Decoded, Live, SetView, TagOf;
    NothingObserved(s.reps[r].view, request.item);
    match request
    case AddItem(item, _) =>
      var tag := obj.ExecuteAdd(item);
      TagIsPlain(obj.self, obj.numAdds);
      suffix := NotEmpty(tag);
      obj.DownstreamAdd(item, tag);
    case RemoveItem(item) =>
      LiveIsPlain(s, r, item);
      var text := obj.ExecuteRemove(item);
      suffix := NotEmpty(text);
      obj.DownstreamRemove(item, suffix);
  }

  /** A request received from its source. */
  method SetDeliver(obj: ORSet, request: Request, suffix: Option<string>, ghost s: Net, ghost r: nat, ghost k: nat)
    requires Enabled(s, Deliver(r, k)) && SetAt(obj, s, r) && obj.Valid()
    requires Says(false, request, suffix, s.issued[k].op)
    modifies obj
    ensures obj.Valid() && SetAt(obj, Next(s, Deliver(r, k)), r)
  {
    match request
    case AddItem(item, _) => obj.DownstreamAdd(item, suffix.value);
    case RemoveItem(item) => obj.DownstreamRemove(item, suffix);
  }

  /** The same for a shop; an addition without quantity is refused, as the source throws. */
  method ShopRequest(obj: Shop, request: Request, ghost s: Net, ghost r: nat)
    returns (ok: bool, suffix: Option<string>)
    requires Inv(s) && r < |s.reps| && ShopAt(obj, s, r) && obj.Valid()
    modifies obj
    ensures obj.Valid() && (ok <==> Enabled(s, Ask(r, request)))
    ensures ok ==> ShopAt(obj, Next(s, Ask(r, request)), r) && Says(true, request, suffix, Sourced(s, r, request))
    ensures !ok ==> ShopAt(obj, s, r)
  {
    hide Inv, Apply, Decoded, Live, TagOf, Find;
    NothingObserved(s.reps[r].view, request.item);
    LiveIsPlain(s, r, request.item);
    match request
    case AddItem(item, quantity) =>
      suffix := obj.ExecuteAdd(item, quantity);
      ok := suffix.Some?;
      if ok {
        ok := obj.DownstreamAdd(item, quantity, suffix.value);
      }
    case RemoveItem(item) =>
      var text := obj.ExecuteRemove(item);
      suffix := NotEmpty(text);
      obj.DownstreamRemove(item, suffix);
      ok := true;
  }

  method ShopDeliver(obj: Shop, request: Request, suffix: Option<string>, ghost s: Net, ghost r: nat, ghost k: nat)
    requires Enabled(s, Deliver(r, k)) && ShopAt(obj, s, r) && obj.Valid()
    requires Says(true, request, suffix, s.issued[k].op)
    modifies obj
    ensures obj.Valid() && ShopAt(obj, Next(s, Deliver(r, k)), r)
  {
    match request
    case AddItem(item, quantity) =>
      var ok := obj.DownstreamAdd(item, quantity, suffix.value);
    case RemoveItem(item) => obj.DownstreamRemove(item, suffix);
  }
}
