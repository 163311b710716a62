// Mu: what may still arrive.

module MuHistory {
  // What never goes back in a run of Mu: posted writes stay posted, delivered
  // writes stay delivered, a lost permission is never regained.  Whatever is said
  // in terms of these is stable, and so are the "safe" judgements below.

  import opened Quorums
  import opened MuModel

  // ---------------------------------------------------------------------
  // Permissions
  // ---------------------------------------------------------------------

  /** Every replica has granted the token of term a, and will not grant it again. */
  ghost predicate TermGranted(s: State, a: nat)
    requires Shape(s) && a < |s.terms|
  {
    forall r :: 0 <= r < N(s) && RepShape(s, r) && s.terms[a].tok.pid < N(s)
      ==> s.reps[r].granted[s.terms[a].tok.pid] >= s.terms[a].tok.req
  }

  ghost predicate Tokens(s: State)
    requires Shape(s)
  {
    && (forall a :: 0 <= a < |s.terms| ==> TermGranted(s, a))
    && (forall a, b :: 0 <= a < b < |s.terms| ==> s.terms[a].tok != s.terms[b].tok)
  }

  /** A leadership that came later shuts the earlier ones out wherever it gets through. */
  ghost predicate Ordered(s: State)
    requires Shape(s)
  {
    && (forall a, b, r :: 0 <= a < b < |s.terms| && 0 <= r < N(s) && r in s.terms[b].touched ==> !Open(s, a, r))
    && (forall b, r :: 0 <= b < |s.terms| && 0 <= r < N(s) && IsTerm(s, b) && s.terms[b].done[r] > 0 ==>
          r in s.terms[b].touched)
  }

  // ---------------------------------------------------------------------
  // Growth
  // ---------------------------------------------------------------------

  ghost predicate TermGrows(s: State, s': State, a: nat)
    requires Shape(s) && Shape(s') && a < |s.terms| && a < |s'.terms| && N(s) == N(s')
  {
    var t, t' := s.terms[a], s'.terms[a];
    && IsTerm(s, a) && IsTerm(s', a)
    && t'.tok == t.tok
    && t.ops <= t'.ops
    && t.touched <= t'.touched
    && (forall r :: 0 <= r < N(s) ==> t.done[r] <= t'.done[r])
    && (forall r :: 0 <= r < N(s) ==> t.done[r] < t'.done[r] ==> Open(s, a, r))
    && (forall r :: 0 <= r < N(s) ==> Open(s', a, r) ==> Open(s, a, r))
  }

  ghost predicate Grows(s: State, s': State) {
    && Shape(s) && Shape(s')
    && s'.ids == s.ids
    && N(s') == N(s)
    && |s.terms| <= |s'.terms|
    && forall a :: 0 <= a < |s.terms| ==> TermGrows(s, s', a)
  }

  lemma OpsKept(s: State, s': State, a: nat, k: nat)
    requires Grows(s, s') && a < |s.terms| && k < |s.terms[a].ops|
    ensures k < |s'.terms[a].ops| && s'.terms[a].ops[k] == s.terms[a].ops[k]
  {
    assert TermGrows(s, s', a);
  }

  lemma AcksGrow(s: State, s': State, a: nat, k: nat)
    requires Grows(s, s') && IsTerm(s, a)
    ensures IsTerm(s', a) && Acks(s, a, k) <= Acks(s', a, k)
    ensures |Acks(s, a, k)| <= |Acks(s', a, k)|
  {
    assert TermGrows(s, s', a);
    SubsetSize(Acks(s, a, k), Acks(s', a, k));
  }

  lemma ChosenByKept(s: State, s': State, a: nat, k: nat)
    requires Grows(s, s') && ChosenBy(s, a, k)
    ensures ChosenBy(s', a, k) && s'.terms[a].ops[k] == s.terms[a].ops[k]
  {
    OpsKept(s, s', a, k);
    AcksGrow(s, s', a, k);
  }

  // ---------------------------------------------------------------------
  // Writes that may still reach a majority
  // ---------------------------------------------------------------------

  /** The replicas that have, or may yet get, the k-th write of term a. */
  function Potential(s: State, a: nat, k: nat): (reach: set<nat>)
    requires IsTerm(s, a)
    ensures reach <= Ids(N(s))
  {
    set r | r in Ids(N(s)) && (s.terms[a].done[r] > k || Open(s, a, r))
  }

  /** The k-th write of term a may still be acknowledged by a strict majority. */
  predicate May(s: State, a: nat, k: nat)
    requires IsTerm(s, a)
  {
    |Potential(s, a, k)| >= StrictMajority(N(s))
  }

  lemma AckedMay(s: State, a: nat, k: nat)
    requires IsTerm(s, a)
    requires |Acks(s, a, k)| >= StrictMajority(N(s))
    ensures May(s, a, k)
  {
    SubsetSize(Acks(s, a, k), Potential(s, a, k));
  }

  lemma MayShrinks(s: State, s': State, a: nat, k: nat)
    requires Grows(s, s') && IsTerm(s, a) && a < |s'.terms| && IsTerm(s', a) && May(s', a, k)
    ensures May(s, a, k)
  {
    assert TermGrows(s, s', a);
    SubsetSize(Potential(s', a, k), Potential(s, a, k));
  }

  /** Term b has read or written at enough replicas to meet every strict majority. */
  predicate Wide(s: State, b: nat)
    requires b < |s.terms|
  {
    |s.terms[b].touched| >= Majority(N(s))
  }

  /** Once a later term is wide, a write that term a posts afterwards can never
      be acknowledged by a strict majority. */
  lemma LateWritesFail(s: State, s': State, a: nat, b: nat, k: nat)
    requires Grows(s, s') && Ordered(s)
    requires a < b < |s.terms| && Wide(s, b)
    requires IsTerm(s', a) && k >= |s.terms[a].ops|
    ensures !May(s', a, k)
  {
    assert TermGrows(s, s', a) && TermShape(s, b);
    if May(s', a, k) {
      var r := ReadMeetsWrite(N(s), s.terms[b].touched, Potential(s', a, k));
      assert false;
    }
  }

  // ---------------------------------------------------------------------
  // Safe writes
  // ---------------------------------------------------------------------

  /** v may be put into a slot by term b: every earlier term whose value for
      that slot may still be chosen has the same value. */
  ghost predicate SafeValue(s: State, b: nat, slot: nat, v: Value)
    requires Shape(s)
  {
    forall a, k ::
      0 <= a < b && IsTerm(s, a) && 0 <= k < |s.terms[a].ops| && s.terms[a].ops[k].Put?
          && s.terms[a].ops[k].slot == slot && May(s, a, k)
      ==> s.terms[a].ops[k].entry.val == v
  }

  /** Term b may use proposal q: no earlier term may still complete a higher one. */
  ghost predicate SafeProp(s: State, b: nat, q: nat)
    requires Shape(s)
  {
    forall a, k ::
      0 <= a < b && IsTerm(s, a) && 0 <= k < |s.terms[a].ops| && s.terms[a].ops[k].SetProp? && May(s, a, k)
      ==> s.terms[a].ops[k].prop <= q
  }

  lemma SafeValueKept(s: State, s': State, b: nat, slot: nat, v: Value)
    requires Grows(s, s') && Ordered(s)
    requires b < |s.terms| && Wide(s, b)
    requires SafeValue(s, b, slot, v)
    ensures SafeValue(s', b, slot, v)
  {
    forall a, k | 0 <= a < b && IsTerm(s', a) && 0 <= k < |s'.terms[a].ops| && s'.terms[a].ops[k].Put?
        && s'.terms[a].ops[k].slot == slot && May(s', a, k)
      ensures s'.terms[a].ops[k].entry.val == v
    {
      assert TermGrows(s, s', a);
      if k < |s.terms[a].ops| {
        OpsKept(s, s', a, k);
        MayShrinks(s, s', a, k);
      } else {
        LateWritesFail(s, s', a, b, k);
      }
    }
  }

  lemma SafePropKept(s: State, s': State, b: nat, q: nat)
    requires Grows(s, s') && Ordered(s)
    requires b < |s.terms| && Wide(s, b)
    requires SafeProp(s, b, q)
    ensures SafeProp(s', b, q)
  {
    forall a, k | 0 <= a < b && IsTerm(s', a) && 0 <= k < |s'.terms[a].ops| && s'.terms[a].ops[k].SetProp?
        && May(s', a, k)
      ensures s'.terms[a].ops[k].prop <= q
    {
      assert TermGrows(s, s', a);
      if k < |s.terms[a].ops| {
        OpsKept(s, s', a, k);
        MayShrinks(s, s', a, k);
      } else {
        LateWritesFail(s, s', a, b, k);
      }
    }
  }

  // ---------------------------------------------------------------------
  // Entries vouched for by a chosen write
  // ---------------------------------------------------------------------

  /** The k-th write of term c, not later than entry e, is chosen for the slot with e's value. */
  ghost predicate Vouches(s: State, c: nat, k: nat, slot: nat, e: Entry)
    requires Shape(s)
  {
    ChosenBy(s, c, k) && c <= e.term && s.terms[c].ops[k].slot == slot && s.terms[c].ops[k].entry.val == e.val
  }

  ghost predicate Vouched(s: State, slot: nat, e: Entry)
    requires Shape(s)
  {
    exists c: nat, k: nat :: Vouches(s, c, k, slot, e)
  }

  /** Replica r holds the chosen value of the slot. */
  ghost predicate Settled(s: State, r: nat, slot: nat)
    requires Shape(s) && r < N(s)
  {
    slot in s.reps[r].log && Vouched(s, slot, s.reps[r].log[slot])
  }

  lemma VouchedKept(s: State, s': State, slot: nat, e: Entry)
    requires Grows(s, s') && Vouched(s, slot, e)
    ensures Vouched(s', slot, e)
  {
    var c: nat, k: nat :| Vouches(s, c, k, slot, e);
    ChosenByKept(s, s', c, k);
    assert Vouches(s', c, k, slot, e);
  }

  lemma SettledIsChosen(s: State, r: nat, slot: nat)
    requires Shape(s) && r < N(s) && Settled(s, r, slot)
    ensures Chosen(s, slot, s.reps[r].log[slot].val)
  {
    var c: nat, k: nat :| Vouches(s, c, k, slot, s.reps[r].log[slot]);
    assert ChosenBy(s, c, k);
  }

  /** A SetProp(q) of term b has been acknowledged by a strict majority. */
  ghost predicate HasProp(s: State, b: nat, q: nat)
    requires Shape(s)
  {
    IsTerm(s, b) && exists k ::
          0 <= k < |s.terms[b].ops| && s.terms[b].ops[k] == SetProp(q) && |Acks(s, b, k)| >= StrictMajority(N(s))
  }

  lemma HasPropKept(s: State, s': State, b: nat, q: nat)
    requires Grows(s, s') && HasProp(s, b, q)
    ensures HasProp(s', b, q)
  {
    var k :| 0 <= k < |s.terms[b].ops| && s.terms[b].ops[k] == SetProp(q) && |Acks(s, b, k)| >= StrictMajority(N(s));
    OpsKept(s, s', b, k);
    AcksGrow(s, s', b, k);
  }

  // ---------------------------------------------------------------------
  // Every step grows
  // ---------------------------------------------------------------------

  lemma SameGrows(s: State, s': State, a: nat)
    requires Shape(s) && Shape(s') && N(s') == N(s) && IsTerm(s, a) && IsTerm(s', a)
    requires s'.terms[a].tok == s.terms[a].tok && s'.terms[a].ops == s.terms[a].ops
        && s'.terms[a].done == s.terms[a].done
    requires s.terms[a].touched <= s'.terms[a].touched
    requires forall r :: 0 <= r < N(s) ==> Open(s', a, r) ==> Open(s, a, r)
    ensures TermGrows(s, s', a)
  {}

  lemma ElectionGrows(s: State, ev: Event)
    requires Shape(s) && Tokens(s) && IsElection(ev) && Enabled(s, ev)
    ensures Grows(s, Next(s, ev))
  {
    hide PostedPhase, PostedOp, Max, Multiple, Modulo, Ids, Remotes, Acks, StartEnabled, PostCopyEnabled;
    hide EndUpdateEnabled, ProposalsRead, SlotsRead;
    var s' := Next(s, ev);
    assert Shape(s') by {
      forall r | 0 <= r < N(s') ensures RepShape(s', r) { assert RepShape(s, r); }
      forall a | 0 <= a < |s'.terms| ensures TermShape(s', a) { assert TermShape(s, a); }
    }
    forall a | 0 <= a < |s.terms| ensures TermGrows(s, s', a) {
      assert TermGranted(s, a) && TermShape(s, a) && TermShape(s', a);
      SameGrows(s, s', a);
    }
  }

  /** A change of one term's phase and touched set, and of proposal numbers. */
  predicate Mild(s: State, s': State) {
    && s'.ids == s.ids && |s'.reps| == |s.reps| && |s'.terms| == |s.terms|
    && (forall r :: 0 <= r < |s.reps| ==> s'.reps[r] == s.reps[r].(propNr := s'.reps[r].propNr))
    && (forall a :: 0 <= a < |s.terms| ==> MildTerm(s.terms[a], s'.terms[a]))
  }

  predicate MildTerm(t: Term, t': Term) {
    t' == t.(phase := t'.phase, touched := t'.touched) && t.touched <= t'.touched
  }

  lemma MildGrows(s: State, s': State)
    requires Shape(s) && Mild(s, s')
    requires forall a :: 0 <= a < |s.terms| ==> s'.terms[a].touched <= Ids(N(s))
    ensures Grows(s, s')
  {
    assert Shape(s') by {
      forall r | 0 <= r < N(s') ensures RepShape(s', r) { assert RepShape(s, r); }
      forall a | 0 <= a < |s'.terms|
          ensures TermShape(s', a) { assert TermShape(s, a) && MildTerm(s.terms[a], s'.terms[a]); }
    }
    forall a | 0 <= a < |s.terms| ensures TermGrows(s, s', a) {
      assert TermShape(s, a) && TermShape(s', a) && MildTerm(s.terms[a], s'.terms[a]);
      SameGrows(s, s', a);
    }
  }

  lemma ReadIsMild(s: State, a: nat, r: nat, phase: Phase)
    requires a < |s.terms|
    ensures Mild(s, AfterRead(s, a, r, phase))
  {
  }

  lemma MoveIsMild(s: State, a: nat, phase: Phase)
    requires a < |s.terms|
    ensures Mild(s, SetPhase(s, a, phase))
  {
  }

  lemma RetryIsMild(s: State, a: nat)
    requires Shape(s) && Enabled(s, RetryProp(a))
    ensures Mild(s, NextQuiet(s, RetryProp(a)))
  {
  }

  lemma QuietIsMild(s: State, ev: Event)
    requires Shape(s) && IsQuiet(ev) && Enabled(s, ev)
    ensures Mild(s, Next(s, ev))
  {
    hide Mild, AfterRead, SetPhase, TermShape, RepShape, LastAcked, ProposalIsHigh;
    match ev
    case BeginSlow(a) => ReadIsMild(s, a, Pid(s, a), CatchFuo(map[]));
    case ReadFuo(a, r) => ReadIsMild(s, a, r, CatchFuo(s.terms[a].phase.fuos[r := s.reps[r].fuo]));
    case EndCatchFuo(a) => MoveIsMild(s, a, Update(s.terms[a].phase.fuos));
    case EndUpdate(a) => MoveIsMild(s, a, CatchProp(map[]));
    case ReadProp(a, r) => ReadIsMild(s, a, r, CatchProp(s.terms[a].phase.props[r := s.reps[r].minProp]));
    case RetryProp(a) => RetryIsMild(s, a);
    case EndProp(a) => MoveIsMild(s, a, ReadSlot(map[]));
    case ReadRemoteSlot(a, r) =>
      ReadIsMild(s, a, r, ReadSlot(s.terms[a].phase.slots[r := Lookup(s.reps[r].log, Leader(s, a).fuo)]));
    case BackToSlow(a) => MoveIsMild(s, a, Idle);
    case Abort(a) => MoveIsMild(s, a, Dead);
  }

  lemma QuietTouchesReplicas(s: State, ev: Event, a: nat)
    requires Shape(s) && IsQuiet(ev) && Enabled(s, ev) && a < |s.terms|
    ensures |Next(s, ev).terms| == |s.terms| && Next(s, ev).terms[a].touched <= Ids(N(s))
  {
    hide Modulo, Ids, Remotes, Acks, LastAcked, CopiesArrived;
    var s' := NextQuiet(s, ev);
    assert TermShape(s, a);
  }

  lemma QuietGrows(s: State, ev: Event)
    requires Shape(s) && IsQuiet(ev) && Enabled(s, ev)
    ensures Grows(s, Next(s, ev))
  {
    QuietIsMild(s, ev);
    forall a | 0 <= a < |s.terms| ensures Next(s, ev).terms[a].touched <= Ids(N(s)) {
      QuietTouchesReplicas(s, ev, a);
    }
    MildGrows(s, Next(s, ev));
  }

  lemma PostGrows(s: State, a: nat, op: Op, phase: Phase)
    requires Shape(s) && IsTerm(s, a) && Own(s, a)
    ensures Grows(s, Post(s, a, op, phase))
  {
    var s' := Post(s, a, op, phase);
    assert Shape(s') by {
      forall r | 0 <= r < N(s') ensures RepShape(s', r) { assert RepShape(s, r); }
      forall b | 0 <= b < |s'.terms| ensures TermShape(s', b) { assert TermShape(s, b); }
    }
    forall b | 0 <= b < |s.terms| ensures TermGrows(s, s', b) {
      assert TermShape(s, b) && TermShape(s', b);
    }
  }

  lemma DeliverGrows(s: State, a: nat, r: nat)
    requires Shape(s) && Enabled(s, Deliver(a, r))
    ensures Grows(s, Delivered(s, a, r))
  {
    var s' := Delivered(s, a, r);
    assert Shape(s') by {
      forall r | 0 <= r < N(s') ensures RepShape(s', r) { assert RepShape(s, r); }
      forall b | 0 <= b < |s'.terms| ensures TermShape(s', b) { assert TermShape(s, b); }
    }
    forall b | 0 <= b < |s.terms| ensures TermGrows(s, s', b) {
      assert TermShape(s, b) && TermShape(s', b);
    }
  }

  lemma OtherShape(s: State, ev: Event)
    requires Shape(s) && Enabled(s, ev) && (ev.Start? || ev.Decide? || ev.Sample? || ev.CommitOne?)
    ensures Shape(Next(s, ev))
  {
    hide NextQuiet, NextElection, LastAcked, Modulo;
    var s' := Next(s, ev);
    forall r | 0 <= r < N(s') ensures RepShape(s', r) { assert RepShape(s, r); }
    forall a | 0 <= a < |s'.terms| ensures TermShape(s', a) {
      if a < |s.terms| { assert TermShape(s, a); }
    }
  }

  lemma OtherGrows(s: State, ev: Event)
    requires Shape(s) && Enabled(s, ev) && (ev.Start? || ev.Decide? || ev.Sample? || ev.CommitOne?)
    ensures Grows(s, Next(s, ev))
  {
    hide NextQuiet, NextElection, LastAcked, Modulo, RepShape, TermShape, Max, Multiple;
    OtherShape(s, ev);
    var s' := Next(s, ev);
    forall a | 0 <= a < |s.terms| ensures TermGrows(s, s', a) {
      assert TermShape(s, a) && TermShape(s', a);
      SameGrows(s, s', a);
    }
  }

  lemma StepGrows(s: State, ev: Event)
    requires Shape(s) && Tokens(s) && Enabled(s, ev)
    ensures Grows(s, Next(s, ev))
  {
    if IsElection(ev) {
      ElectionGrows(s, ev);
    } else if IsQuiet(ev) {
      QuietGrows(s, ev);
    } else if IsPost(ev) {
      PostGrows(s, PostedBy(ev), PostedOp(s, ev), PostedPhase(s, ev));
    } else if ev.Deliver? {
      DeliverGrows(s, ev.a, ev.r);
    } else {
      OtherGrows(s, ev);
    }
  }
}
