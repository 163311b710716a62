// The invariant survives the steps of a call of `propose`: reads, phase changes,
// posted writes, the decision, and the arrival of a write at a follower.

module MuLeaderSteps {
  import opened Options
  import opened Quorums
  import opened MuModel
  import opened MuHistory
  import opened MuElection
  import opened MuSafety
  import opened MuWrites
  import opened MuLogs
  import opened MuPhases
  import opened MuQuietSteps

  // ---------------------------------------------------------------------
  // Quiet steps: what the new phase knows
  // ---------------------------------------------------------------------

  /** Context shared by the lemmas below. */
  ghost predicate Moves(s: State, ev: Event) {
    && Inv(s) && IsQuiet(ev) && Enabled(s, ev)
    && Carries(s, Next(s, ev)) && Base(Next(s, ev))
    && ev.a < |s.terms| && IsTerm(s, ev.a) && IsTerm(Next(s, ev), ev.a)
  }

  lemma FrontOfSettled(s: State, b: nat, r: nat, n: nat, k: nat)
    requires Shape(s) && IsTerm(s, b) && r < N(s)
    requires forall i :: 0 <= i < n ==> Settled(s, r, i)
    ensures Front(s, b, r, n, k)
  {}

  lemma ReadFuoPhase(s: State, a: nat, r: nat)
    requires Moves(s, ReadFuo(a, r))
    ensures PhaseOk(Next(s, ReadFuo(a, r)), a)
  {
    hide Writes, TermShape, RepShape;
    var s' := Next(s, ReadFuo(a, r));
    assert RunOk(s, a) && PhaseOk(s, a) && RepOk(s, r) && TermGrows(s, s', a);
  }

  lemma EndCatchFuoPhase(s: State, a: nat)
    requires Moves(s, EndCatchFuo(a))
    ensures PhaseOk(Next(s, EndCatchFuo(a)), a)
  {
    var s' := Next(s, EndCatchFuo(a));
    assert RunOk(s, a) && PhaseOk(s, a) && TermGrows(s, s', a);
    var upto := s'.terms[a].phase.upto;
    forall r | r in upto ensures Front(s', a, r, upto[r], |s'.terms[a].ops|) {
      assert r < N(s');
      FrontOfSettled(s', a, r, upto[r], |s'.terms[a].ops|);
    }
  }

  lemma EndUpdatePhase(s: State, a: nat)
    requires Moves(s, EndUpdate(a))
    ensures PhaseOk(Next(s, EndUpdate(a)), a)
  {
    hide PostedPhase, PostedOp, Ordered, Tokens, Answers, Writes, Chosen, ChosenBy;
    var s' := Next(s, EndUpdate(a));
    assert RunOk(s, a) && PhaseOk(s, a) && TermGrows(s, s', a);
    var upto := s.terms[a].phase.upto;
    var n := Leader(s, a).fuo;
    forall r | 0 <= r < N(s') ensures Front(s', a, r, n, |s'.terms[a].ops|) {
      if r == Pid(s, a) {
        assert RepOk(s, r);
        FrontOfSettled(s', a, r, n, |s'.terms[a].ops|);
      } else {
        assert r in upto && SameDone(s, s', a, r);
        assert Front(s, a, r, n, |s.terms[a].ops|);
        FrontKept(s, s', a, r, n, |s.terms[a].ops|);
      }
    }
  }

  lemma PropReadNow(s: State, b: nat, r: nat)
    requires Shape(s) && Tokens(s) && Logs(s) && b < |s.terms| && r < N(s) && Open(s, b, r)
    ensures PropRead(s, b, r, s.reps[r].minProp)
  {
    OpenShut(s, b, r);
    forall a | 0 <= a < b && IsTerm(s, a) ensures PropCovers(s, a, r, s.reps[r].minProp) {
      assert LogOk(s, r) && MinOk(s, r, a);
    }
  }

  lemma ReadPropPhase(s: State, a: nat, r: nat)
    requires Moves(s, ReadProp(a, r))
    ensures PhaseOk(Next(s, ReadProp(a, r)), a)
  {
    hide Writes, Frontier, TermShape, Covered, Settled;
    var s' := Next(s, ReadProp(a, r));
    QuietArrivesNothing(s, ReadProp(a, r));
    assert RunOk(s, a) && PhaseOk(s, a) && TermGrows(s, s', a);
    FrontierKept(s, s', a);
    PropReadNow(s, a, r);
    var props, props' := s.terms[a].phase.props, s'.terms[a].phase.props;
    forall q | q in props' ensures q in s'.terms[a].touched && PropRead(s', a, q, props'[q]) {
      PropReadKept(s, s', a, q, props'[q]);
    }
  }

  lemma RetryPropPhase(s: State, a: nat)
    requires Moves(s, RetryProp(a))
    ensures PhaseOk(Next(s, RetryProp(a)), a)
  {
    hide Tokens, Answers, Ordered, Writes, Logs, LeaderOk, DecidedOk, Piped, Frontier;
    var s' := Next(s, RetryProp(a));
    QuietArrivesNothing(s, RetryProp(a));
    assert RunOk(s, a) && PhaseOk(s, a) && TermGrows(s, s', a);
    FrontierKept(s, s', a);
  }

  /** With the leader itself, the acknowledging remotes are a strict majority. */
  lemma AckedByMajority(s: State, a: nat)
    requires Shape(s) && IsTerm(s, a) && LastAcked(s, a)
    ensures |Acks(s, a, |s.terms[a].ops| - 1)| >= StrictMajority(N(s))
  {
    var acks := Acks(s, a, |s.terms[a].ops| - 1);
    assert Pid(s, a) in acks;
    assert acks == (acks - {Pid(s, a)}) + {Pid(s, a)};
  }

  lemma EndPropPhase(s: State, a: nat)
    requires Moves(s, EndProp(a))
    ensures PhaseOk(Next(s, EndProp(a)), a)
  {
    hide Ordered, Tokens, Answers, Writes, Logs, LeaderOk, DecidedOk, Piped, Frontier, Ids, Remotes, Acks;
    var s' := Next(s, EndProp(a));
    QuietArrivesNothing(s, EndProp(a));
    assert RunOk(s, a) && PhaseOk(s, a) && TermGrows(s, s', a);
    FrontierKept(s, s', a);
    AckedByMajority(s, a);
    assert HasProp(s, a, Leader(s, a).propNr);
    HasPropKept(s, s', a, Leader(s, a).propNr);
  }

  lemma SlotsKept(s: State, s': State, a: nat, slot: nat, slots: map<nat, Option<Entry>>)
    requires Grows(s, s') && a < |s.terms| && slots.Keys <= Ids(N(s))
    requires forall q :: q in slots ==> ReadOk(s, a, q, slot, slots[q])
    ensures forall q :: q in slots ==> ReadOk(s', a, q, slot, slots[q])
  {
    forall q | q in slots ensures ReadOk(s', a, q, slot, slots[q]) {
      ReadOkKept(s, s', a, q, slot, slots[q]);
    }
  }

  lemma ReadSlotPhase(s: State, a: nat, r: nat)
    requires Moves(s, ReadRemoteSlot(a, r))
    ensures PhaseOk(Next(s, ReadRemoteSlot(a, r)), a)
  {
    hide Writes, Covered, TermGrows, Ordered, Tokens, Answers, TermShape, RepShape, Modulo;
    var s' := Next(s, ReadRemoteSlot(a, r));
    QuietArrivesNothing(s, ReadRemoteSlot(a, r));
    assert RunOk(s, a) && PhaseOk(s, a) && LeaderOk(s, a) && TermGrows(s, s', a);
    FrontierKept(s, s', a);
    HasPropKept(s, s', a, Leader(s, a).propNr);
    ReadIsOk(s, a, r, Leader(s, a).fuo);
    var slots := s.terms[a].phase.slots;
    SlotsKept(s, s', a, Leader(s, a).fuo, slots[r := Lookup(s.reps[r].log, Leader(s, a).fuo)]);
  }

  lemma QuietPhaseOk(s: State, ev: Event)
    requires Moves(s, ev)
    ensures PhaseOk(Next(s, ev), ev.a)
  {
    hide Ordered, Tokens, Answers, Writes, TermOk, Unique, Logs, LogOk, Settled, Vouched, SafeValue, SafeProp,
         Enabled, InCharge, Inv;
    match ev
    case BeginSlow(a) =>
    case ReadFuo(a, r) => ReadFuoPhase(s, a, r);
    case EndCatchFuo(a) => EndCatchFuoPhase(s, a);
    case EndUpdate(a) => EndUpdatePhase(s, a);
    case ReadProp(a, r) => ReadPropPhase(s, a, r);
    case RetryProp(a) => RetryPropPhase(s, a);
    case EndProp(a) => EndPropPhase(s, a);
    case ReadRemoteSlot(a, r) => ReadSlotPhase(s, a, r);
    case BackToSlow(a) =>
    case Abort(a) =>
  }

  lemma QuietStepKeepsInv(s: State, ev: Event)
    requires Inv(s) && IsQuiet(ev) && Enabled(s, ev)
    ensures Inv(Next(s, ev))
  {
    hide Next, NextQuiet, Enabled, Ordered, Tokens, Answers, Writes, TermOk, Logs, LogOk, PhaseOk, LeaderOk, RepOk;
    StepGrows(s, ev);
    QuietArrivesNothing(s, ev);
    BaseKept(s, ev);
    assert TermGrows(s, Next(s, ev), ev.a);
    QuietPhaseOk(s, ev);
    QuietKeepsInv(s, ev);
  }

  // ---------------------------------------------------------------------
  // Posts: the new write is a good one
  // ---------------------------------------------------------------------

  lemma OwnIsBusyWide(s: State, a: nat, k: nat)
    requires Shape(s) && IsTerm(s, a) && TermOk(s, a) && k < |s.terms[a].ops| && !s.terms[a].ops[k].Copy?
    ensures Wide(s, a)
  {}

  lemma CopyIsOk(s: State, a: nat, r: nat)
    requires Inv(s) && Enabled(s, PostCopy(a, r))
    ensures NewOpOk(s, a, CopyOp(s, a, r))
  {
    var p, slot := Pid(s, a), s.terms[a].phase.upto[r];
    assert RepOk(s, p) && Settled(s, p, slot) && LogOk(s, p) && Origin(s, p, slot);
    EntriesNotNewer(s, a, p, slot);
  }

  /** The proposal quorum and the leader make the term wide. */
  lemma PropsWide(s: State, a: nat)
    requires Inv(s) && Enabled(s, PostProp(a))
    ensures Wide(s, a)
  {
    assert RunOk(s, a) && PhaseOk(s, a) && LeaderOk(s, a);
    var props := s.terms[a].phase.props;
    var both := props.Keys + {Pid(s, a)};
    assert |both| == |props.Keys| + 1;
    SubsetSize(both, s.terms[a].touched);
  }

  lemma PropIsSafe(s: State, a: nat)
    requires Inv(s) && Enabled(s, PostProp(a))
    ensures SafeProp(s, a, Leader(s, a).propNr)
  {
    hide Next, Ordered, Tokens, Answers, Chosen, ChosenBy;
    assert RunOk(s, a) && PhaseOk(s, a);
    var p, q := Pid(s, a), Leader(s, a).propNr;
    var props := s.terms[a].phase.props;
    var both := props.Keys + {p};
    assert |both| == |props.Keys| + 1;
    PropReadNow(s, a, p);
    forall b, k | 0 <= b < a && IsTerm(s, b) && 0 <= k < |s.terms[b].ops| && s.terms[b].ops[k].SetProp? && May(s, b, k)
      ensures s.terms[b].ops[k].prop <= q
    {
      var r := ReadMeetsWrite(N(s), both, Potential(s, b, k));
      if r == p {
        assert PropCovers(s, b, p, Leader(s, a).minProp);
      } else {
        assert PropRead(s, a, r, props[r]) && PropCovers(s, b, r, props[r]);
      }
    }
  }

  lemma PropIsOk(s: State, a: nat)
    requires Inv(s) && Enabled(s, PostProp(a))
    ensures NewOpOk(s, a, SetProp(Leader(s, a).propNr))
  {
    PropsWide(s, a);
    PropIsSafe(s, a);
  }

  /** All that the leader has read of its slot, its own log included. */
  function Found(s: State, a: nat): map<nat, Option<Entry>>
    requires IsTerm(s, a) && s.terms[a].phase.ReadSlot?
  {
    s.terms[a].phase.slots[Pid(s, a) := LocalSlot(s, a)]
  }

  lemma PutsBelow(s: State, a: nat)
    requires Inv(s) && IsTerm(s, a) && Own(s, a) && !s.terms[a].phase.Write? && !s.terms[a].phase.Dead?
    ensures forall k :: 0 <= k < |s.terms[a].ops| && s.terms[a].ops[k].Put? ==>
          s.terms[a].ops[k].slot < Leader(s, a).fuo
  {
    assert RunOk(s, a) && LeaderOk(s, a);
  }

  lemma FoundByQuorum(s: State, a: nat)
    requires Inv(s) && SlotsRead(s, a)
    ensures QuorumRead(s, a, Leader(s, a).fuo, Found(s, a))
    ensures HasProp(s, a, Leader(s, a).propNr) && Wide(s, a)
  {
    hide Tokens, Answers, Ordered, Logs, DecidedOk, Piped, ReadOk, Modulo;
    assert RunOk(s, a) && PhaseOk(s, a) && TermOk(s, a);
    var p, found, slots := Pid(s, a), Found(s, a), s.terms[a].phase.slots;
    assert found.Keys == slots.Keys + {p} && |found.Keys| == |slots.Keys| + 1;
    PutsBelow(s, a);
    ReadIsOk(s, a, p, Leader(s, a).fuo);
    forall r | r in found ensures ReadOk(s, a, r, Leader(s, a).fuo, found[r]) {
      if r != p { assert r in slots; }
    }
    var k :| 0 <= k < |s.terms[a].ops| && s.terms[a].ops[k] == SetProp(Leader(s, a).propNr);
    OwnIsBusyWide(s, a, k);
  }

  lemma AdoptedIsOk(s: State, a: nat, e: Entry)
    requires Inv(s) && Enabled(s, PostAdopted(a, e))
    ensures NewOpOk(s, a, PutOp(s, a, e.val, e.fuo))
  {
    var slot, found := Leader(s, a).fuo, Found(s, a);
    FoundByQuorum(s, a);
    PutsBelow(s, a);
    AdoptedIsMax(s, a, e);
    var r :| r in found && found[r] == Some(e);
    assert ReadOk(s, a, r, slot, found[r]) && HasPut(s, slot, e) && TermOk(s, e.term);
    AdoptedSafe(s, a, slot, found, e);
    forall b: nat, k: nat | b < a && SameProposal(s, b, k, slot, Leader(s, a).propNr)
      ensures s.terms[b].ops[k].entry.val == e.val
    {
      AdoptedUnique(s, a, slot, found, e, b, k);
    }
  }

  lemma AdoptedIsMax(s: State, a: nat, e: Entry)
    requires Shape(s) && Inv(s) && Enabled(s, PostAdopted(a, e))
    ensures IsMax(e, Found(s, a))
  {
    assert RunOk(s, a) && PhaseOk(s, a);
    var p, found, slots := Pid(s, a), Found(s, a), s.terms[a].phase.slots;
    assert p !in slots;
    if LocalSlot(s, a) == Some(e) {
      assert found[p] == Some(e);
    } else {
      var r :| r in slots && slots[r] == Some(e);
      assert found[r] == Some(e);
    }
    forall r | r in found && found[r].Some? ensures found[r].value.prop <= e.prop {
      if r != p { assert r in slots && slots[r] == found[r]; }
    }
  }

  lemma NewIsFast(s: State, a: nat, v: Value)
    requires Inv(s) && Enabled(s, PostNew(a, v))
    ensures Wide(s, a) && FastOk(s, a, Fast(s.terms[a].phase.slots.Keys + {Pid(s, a)}, Leader(s, a).fuo))
  {
    hide Tokens, Answers, Ordered, Writes, Logs, LeaderOk, DecidedOk, Piped, ReadOk;
    assert RunOk(s, a) && PhaseOk(s, a);
    var p, slot, found, slots := Pid(s, a), Leader(s, a).fuo, Found(s, a), s.terms[a].phase.slots;
    FoundByQuorum(s, a);
    assert found.Keys == slots.Keys + {p};
    forall r | r in slots.Keys + {p} ensures ReadOk(s, a, r, slot, None) {
      assert ReadOk(s, a, r, slot, found[r]);
      assert r != p ==> slots[r].None?;
    }
  }

  /** Under an open fast path any value may be written to the next slot. */
  lemma OwnValueIsOk(s: State, a: nat, phase: Phase, v: Value)
    requires Inv(s) && IsTerm(s, a) && Own(s, a) && phase.Fast? && FastOk(s, a, phase) && Wide(s, a)
    requires !s.terms[a].phase.Write? && !s.terms[a].phase.Dead?
    ensures NewOpOk(s, a, PutOp(s, a, v, Leader(s, a).fuo))
  {
    var slot := Leader(s, a).fuo;
    PutsBelow(s, a);
    OwnValueSafe(s, a, phase.readers, phase.base, slot, v);
    forall b: nat, k: nat | b < a ensures !SameProposal(s, b, k, slot, Leader(s, a).propNr) {
      if SameProposal(s, b, k, slot, Leader(s, a).propNr) {
        assert TermShape(s, b);
        OwnValueUnique(s, a, phase.readers, phase.base, b, k);
        assert false;
      }
    }
  }

  lemma FastIsOk(s: State, a: nat, v: Value)
    requires Inv(s) && Enabled(s, PostFast(a, v))
    ensures FastOk(s, a, s.terms[a].phase) && NewOpOk(s, a, PutOp(s, a, v, Leader(s, a).fuo))
  {
    assert RunOk(s, a) && PhaseOk(s, a) && TermOk(s, a);
    var k :| 0 <= k < |s.terms[a].ops| && s.terms[a].ops[k] == SetProp(Leader(s, a).propNr);
    OwnIsBusyWide(s, a, k);
    OwnValueIsOk(s, a, s.terms[a].phase, v);
  }

  lemma PostIsOk(s: State, ev: Event)
    requires Inv(s) && IsPost(ev) && Enabled(s, ev)
    ensures IsTerm(s, PostedBy(ev)) && Own(s, PostedBy(ev)) && NewOpOk(s, PostedBy(ev), PostedOp(s, ev))
  {
    hide Ordered, Tokens, Answers, Writes, TermOk, Unique, PhaseOk, Covered, Frontier, Piped, InCharge, Inv, NewOpOk,
         FastOk, RepShape, TermShape, LastAcked;
    match ev
    case PostCopy(a, r) => CopyIsOk(s, a, r);
    case PostProp(a) => PropIsOk(s, a);
    case PostAdopted(a, e) => AdoptedIsOk(s, a, e);
    case PostNew(a, v) =>
      NewIsFast(s, a, v);
      OwnValueIsOk(s, a, Fast(s.terms[a].phase.slots.Keys + {Pid(s, a)}, Leader(s, a).fuo), v);
    case PostFast(a, v) => FastIsOk(s, a, v);
  }
}
