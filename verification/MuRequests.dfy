// Where a recycling request can be: it is the last write of the leader that posted
// it, and whoever holds it has received all of that leader's writes and given its
// permission to nobody else since.

module MuRequests {
  import opened Options
  import opened Quorums
  import opened MuModel
  import opened MuHistory
  import opened MuElection
  import opened MuWiped

  predicate Asks(op: Op) {
    !op.SetProp? && op.entry.val.Recycle?
  }

  /** The write of term b is a request, hence the last of the term whose round it is. */
  ghost predicate OpsAsk(s: State, asker: Option<nat>, b: nat)
    requires b < |s.terms|
  {
    forall k :: 0 <= k < |s.terms[b].ops| && Asks(s.terms[b].ops[k]) ==>
      asker == Some(b) && k == |s.terms[b].ops| - 1 && s.terms[b].ops[k].Put?
  }

  ghost predicate LogAsks(s: State, asker: Option<nat>, r: nat)
    requires r < N(s)
  {
    forall j :: j in s.reps[r].log && s.reps[r].log[j].val.Recycle? ==>
      asker.Some? && HoldsRequest(s, asker.value, r, j, s.reps[r].log[j])
  }

  predicate HoldsRequest(s: State, a: nat, r: nat, j: nat, e: Entry)
    requires r < N(s)
  {
    && IsTerm(s, a) && r < |s.terms[a].done| && s.terms[a].done[r] == |s.terms[a].ops|
    && s.reps[r].holder == Some(s.terms[a].tok)
    && |s.terms[a].ops| > 0 && s.terms[a].ops[|s.terms[a].ops| - 1] == Put(j, e)
  }

  ghost predicate SlotsAsk(s: State, b: nat)
    requires b < |s.terms|
  {
    s.terms[b].phase.ReadSlot? ==>
      forall r :: r in s.terms[b].phase.slots && s.terms[b].phase.slots[r].Some?
          ==> !s.terms[b].phase.slots[r].value.val.Recycle?
  }

  /** Requests are nowhere but where the round of `asker` has put them. */
  ghost predicate Unasked(s: State, asker: Option<nat>) {
    && (forall b :: 0 <= b < |s.terms| ==> OpsAsk(s, asker, b) && SlotsAsk(s, b))
    && (forall r :: 0 <= r < N(s) ==> LogAsks(s, asker, r))
  }

  /** A step of the protocol, with a round of term `asker` under way or with none. */
  ghost predicate Plain(s: State, asker: Option<nat>, ev: Event) {
    && Shape(s) && TokensDistinct(s) && Enabled(s, ev) && CallerProposes(ev) && Unasked(s, asker)
    && (asker.Some? ==>
          && IsTerm(s, asker.value) && s.terms[asker.value].phase.Write?
          && !ev.Grant? && ev != Decide(asker.value) && ev != Abort(asker.value))
  }

  // ---------------------------------------------------------------------
  // Where entries come from
  // ---------------------------------------------------------------------

  predicate Fresh(s: State, ev: Event, r: nat, j: nat, e: Entry)
    requires Shape(s) && Enabled(s, ev)
  {
    || (IsPost(ev) && PostedBy(ev) < |s.terms| && Pid(s, PostedBy(ev)) == r && !PostedOp(s, ev).SetProp?
        && PostedOp(s, ev).slot == j
        && PostedOp(s, ev).entry == e)
    || (ev.Deliver? && ev.r == r && Arriving(s, ev.a, r, j, e))
  }

  predicate Arriving(s: State, a: nat, r: nat, j: nat, e: Entry) {
    && IsTerm(s, a) && r < |s.terms[a].done| && s.terms[a].done[r] < |s.terms[a].ops|
    && !s.terms[a].ops[s.terms[a].done[r]].SetProp?
    && s.terms[a].ops[s.terms[a].done[r]].slot == j && s.terms[a].ops[s.terms[a].done[r]].entry == e
  }

  lemma EntryComesFrom(s: State, ev: Event, r: nat, j: nat)
    requires Shape(s) && Enabled(s, ev) && r < N(s)
    ensures N(Next(s, ev)) == N(s)
    ensures j in Next(s, ev).reps[r].log ==>
              || (j in s.reps[r].log && Next(s, ev).reps[r].log[j] == s.reps[r].log[j])
              || Fresh(s, ev, r, j, Next(s, ev).reps[r].log[j])
  {
    hide Modulo, Max, Multiple, RepShape, LastAcked;
    if IsElection(ev) {
      ElectionKeepsLog(s, ev, r);
    } else if IsQuiet(ev) {
      hide NextQuiet, Enabled;
      QuietIsMild(s, ev);
      assert Next(s, ev).reps[r] == s.reps[r].(propNr := Next(s, ev).reps[r].propNr);
    } else if IsPost(ev) {
      hide Enabled, PostedOp, PostedPhase;
      PostKeepsLog(s, PostedBy(ev), PostedOp(s, ev), PostedPhase(s, ev), r, j);
    } else {
      hide NextQuiet, NextElection, PostedOp, PostedPhase;
    }
  }

  lemma ElectionKeepsLog(s: State, ev: Event, r: nat)
    requires Shape(s) && Enabled(s, ev) && IsElection(ev) && r < N(s)
    ensures N(Next(s, ev)) == N(s) && Next(s, ev).reps[r].log == s.reps[r].log
  {
    var s' := NextElection(s, ev);
  }

  lemma PostKeepsLog(s: State, a: nat, op: Op, phase: Phase, r: nat, j: nat)
    requires a < |s.terms| && TermShape(s, a) && r < N(s)
    ensures var s' := Post(s, a, op, phase);
            && N(s') == N(s)
            && (j in s'.reps[r].log ==>
                  || (j in s.reps[r].log && s'.reps[r].log[j] == s.reps[r].log[j])
                  || (Pid(s, a) == r && !op.SetProp? && op.slot == j && op.entry == s'.reps[r].log[j]))
  {}

  // ---------------------------------------------------------------------
  // Nobody passes a request on
  // ---------------------------------------------------------------------

  /** Whoever reads or copies an entry has access to it: it is no request. */
  lemma OpenIsUnasked(s: State, asker: Option<nat>, c: nat, r: nat, j: nat)
    requires Shape(s) && TokensDistinct(s) && Unasked(s, asker)
    requires asker.Some? ==> asker.value < |s.terms| && asker != Some(c)
    requires c < |s.terms| && r < N(s) && Open(s, c, r) && j in s.reps[r].log
    ensures !s.reps[r].log[j].val.Recycle?
  {
    assert LogAsks(s, asker, r);
    if asker.Some? {
      assert s.terms[asker.value].tok != s.terms[c].tok;
    }
  }

  lemma PostAsksNothing(s: State, asker: Option<nat>, ev: Event)
    requires Plain(s, asker, ev) && IsPost(ev)
    ensures PostedBy(ev) < |s.terms| && asker != Some(PostedBy(ev)) && !Asks(PostedOp(s, ev))
  {
    hide Multiple, Max, Modulo, RepShape, LastAcked, Ids, Remotes, Acks, CopiesArrived;
    var c := PostedBy(ev);
    assert IsTerm(s, c) && Own(s, c) && asker != Some(c);
    match ev
    case PostCopy(a, r) => OpenIsUnasked(s, asker, c, Pid(s, c), s.terms[c].phase.upto[r]);
    case PostProp(a) =>
    case PostAdopted(a, e) =>
      assert SlotsAsk(s, c);
      if LocalSlot(s, c) == Some(e) {
        OpenIsUnasked(s, asker, c, Pid(s, c), Leader(s, c).fuo);
      }
    case PostNew(a, v) =>
    case PostFast(a, v) =>
  }

  // ---------------------------------------------------------------------
  // The three parts survive
  // ---------------------------------------------------------------------

  lemma OpsAfter(s: State, ev: Event, b: nat)
    requires Shape(s) && Enabled(s, ev) && b < |Next(s, ev).terms|
    ensures b < |s.terms| ==>
              || Next(s, ev).terms[b].ops == s.terms[b].ops
              || (IsPost(ev) && PostedBy(ev) == b && Next(s, ev).terms[b].ops == s.terms[b].ops + [PostedOp(s, ev)])
    ensures b >= |s.terms| ==> Next(s, ev).terms[b].ops == [] && Next(s, ev).terms[b].phase == Idle
  {
    hide Modulo, Max, Multiple, RepShape, LastAcked, PostedOp, PostedPhase;
    if IsElection(ev) {
      hide Enabled;
      assert NextElection(s, ev).terms == s.terms;
    } else if IsQuiet(ev) {
      hide NextQuiet, Enabled;
      QuietIsMild(s, ev);
      assert MildTerm(s.terms[b], Next(s, ev).terms[b]);
    } else if IsPost(ev) {
      hide NextQuiet, NextElection;
    } else {
      hide NextQuiet, NextElection;
    }
  }

  lemma OpsStayUnasked(s: State, asker: Option<nat>, ev: Event, b: nat)
    requires Plain(s, asker, ev) && b < |Next(s, ev).terms|
    ensures OpsAsk(Next(s, ev), asker, b)
  {
    hide Enabled, Next;
    OpsAfter(s, ev, b);
    if IsPost(ev) {
      PostAsksNothing(s, asker, ev);
    }
    assert b < |s.terms| ==> OpsAsk(s, asker, b);
  }

  /** The phase of a term, if it is reading slots, after a step. */
  lemma SlotsAfter(s: State, ev: Event, b: nat)
    requires Shape(s) && Enabled(s, ev) && b < |s.terms| && b < |Next(s, ev).terms|
        && Next(s, ev).terms[b].phase.ReadSlot?
    ensures || (s.terms[b].phase.ReadSlot? && Next(s, ev).terms[b].phase == s.terms[b].phase)
            || Next(s, ev).terms[b].phase.slots == map[]
            || (ev.ReadRemoteSlot? && ev.a == b && IsTerm(s, b) && s.terms[b].phase.ReadSlot? && ev.r < N(s)
                && Open(s, b, ev.r)
                && Next(s, ev).terms[b].phase.slots
                == s.terms[b].phase.slots[ev.r := Lookup(s.reps[ev.r].log, Leader(s, b).fuo)])
            || (ev == Decide(b) && s.terms[b].phase == Write(Next(s, ev).terms[b].phase))
  {
    hide Modulo, Max, Multiple, RepShape, LastAcked, PostedOp;
    if IsElection(ev) {
      hide Enabled;
      assert NextElection(s, ev).terms == s.terms;
    } else if IsQuiet(ev) {
      var s' := NextQuiet(s, ev);
      if b != ev.a { assert s'.terms[b] == s.terms[b]; }
    } else if IsPost(ev) {
      hide NextQuiet, NextElection;
    } else {
      hide NextQuiet, NextElection;
    }
  }

  lemma SlotsStayUnasked(s: State, asker: Option<nat>, ev: Event, b: nat)
    requires Plain(s, asker, ev) && b < |Next(s, ev).terms|
    requires b < |s.terms| && s.terms[b].phase.Write? ==> !s.terms[b].phase.next.ReadSlot?
    ensures SlotsAsk(Next(s, ev), b)
  {
    hide Enabled, Next;
    OpsAfter(s, ev, b);
    if b < |s.terms| && Next(s, ev).terms[b].phase.ReadSlot? {
      SlotsAfter(s, ev, b);
      assert SlotsAsk(s, b);
      if ev.ReadRemoteSlot? && ev.a == b && IsTerm(s, b) && ev.r < N(s) && Open(s, b, ev.r)
          && s.terms[b].phase.ReadSlot? {
        var slot := Leader(s, b).fuo;
        if slot in s.reps[ev.r].log {
          OpenIsUnasked(s, asker, b, ev.r, slot);
        }
      }
    }
  }

  /** Permissions stay where they are. */
  lemma HolderStays(s: State, ev: Event, r: nat)
    requires Shape(s) && Enabled(s, ev) && !ev.Grant? && r < N(s)
    ensures N(Next(s, ev)) == N(s) && Next(s, ev).reps[r].holder == s.reps[r].holder
  {
    if IsElection(ev) {
      var s' := NextElection(s, ev);
    } else {
      hide Next, Enabled;
      StaysSteady(s, ev);
    }
  }

  lemma HeldStays(s: State, ev: Event, a: nat, r: nat, j: nat, e: Entry)
    requires Shape(s) && Enabled(s, ev) && !ev.Grant? && Grows(s, Next(s, ev)) && r < N(s)
        && HoldsRequest(s, a, r, j, e)
    requires a < |s.terms| && Next(s, ev).terms[a].ops == s.terms[a].ops
    ensures HoldsRequest(Next(s, ev), a, r, j, e)
  {
    hide Enabled, Next;
    HolderStays(s, ev, r);
    assert TermGrows(s, Next(s, ev), a) && TermShape(Next(s, ev), a);
  }

  lemma ArrivalHolds(s: State, asker: Option<nat>, ev: Event, j: nat, e: Entry)
    requires Plain(s, asker, ev) && ev.Deliver? && Grows(s, Next(s, ev)) && ev.r < N(s)
    requires Arriving(s, ev.a, ev.r, j, e) && e.val.Recycle?
    ensures asker == Some(ev.a) && HoldsRequest(Next(s, ev), ev.a, ev.r, j, e)
  {
    var k := s.terms[ev.a].done[ev.r];
    assert OpsAsk(s, asker, ev.a) && Asks(s.terms[ev.a].ops[k]);
    var s' := Delivered(s, ev.a, ev.r);
    assert TermShape(s', ev.a);
  }

  lemma LogsStayUnasked(s: State, asker: Option<nat>, ev: Event, r: nat)
    requires Plain(s, asker, ev) && Grows(s, Next(s, ev)) && r < N(s)
    requires asker.Some? ==> asker.value < |s.terms| && Next(s, ev).terms[asker.value].ops == s.terms[asker.value].ops
    ensures LogAsks(Next(s, ev), asker, r)
  {
    hide Next, HoldsRequest;
    var s' := Next(s, ev);
    assert LogAsks(s, asker, r);
    forall j: nat | j in s'.reps[r].log && s'.reps[r].log[j].val.Recycle?
      ensures asker.Some? && HoldsRequest(s', asker.value, r, j, s'.reps[r].log[j])
    {
      EntryComesFrom(s, ev, r, j);
      var e := s'.reps[r].log[j];
      if Fresh(s, ev, r, j, e) {
        if IsPost(ev) {
          PostAsksNothing(s, asker, ev);
          assert false;
        } else {
          ArrivalHolds(s, asker, ev, j, e);
        }
      } else {
        HeldStays(s, ev, asker.value, r, j, e);
      }
    }
  }

  lemma UnaskedKept(s: State, asker: Option<nat>, ev: Event)
    requires Plain(s, asker, ev) && Grows(s, Next(s, ev))
    requires forall b :: 0 <= b < |s.terms| && s.terms[b].phase.Write? ==> !s.terms[b].phase.next.ReadSlot?
    ensures Unasked(Next(s, ev), asker)
    ensures asker.Some? ==> asker.value < |s.terms| && Next(s, ev).terms[asker.value].ops == s.terms[asker.value].ops
  {
    hide Next, Enabled, OpsAsk, SlotsAsk, LogAsks;
    var s' := Next(s, ev);
    forall b: nat | b < |s'.terms| ensures OpsAsk(s', asker, b) && SlotsAsk(s', b) {
      OpsStayUnasked(s, asker, ev, b);
      SlotsStayUnasked(s, asker, ev, b);
    }
    if asker.Some? {
      OpsAfter(s, ev, asker.value);
      if IsPost(ev) { PostAsksNothing(s, asker, ev); }
    }
    forall r: nat | r < N(s') ensures LogAsks(s', asker, r) {
      LogsStayUnasked(s, asker, ev, r);
    }
  }
}
