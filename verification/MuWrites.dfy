// The invariants on posted writes survive every step; for the steps that post,
// given that the new write is a good one.

module MuWrites {
  import opened Quorums
  import opened MuModel
  import opened MuHistory
  import opened MuSafety

  /** The write op may be appended by term a. */
  ghost predicate NewOpOk(s: State, a: nat, op: Op)
    requires Shape(s) && IsTerm(s, a)
  {
    var ops := s.terms[a].ops;
    match op
    case Copy(dst, slot, e) => CopyOk(s, a, slot, e)
    case SetProp(q) =>
      && Wide(s, a)
      && SafeProp(s, a, q)
      && q == Leader(s, a).propNr
    case Put(slot, e) =>
      && Wide(s, a)
      && e.term == a && e.fuo == slot
      && e.prop == Leader(s, a).propNr
      && (forall k :: 0 <= k < |ops| && ops[k].Put? ==> ops[k].slot < slot)
      && HasProp(s, a, e.prop)
      && SafeValue(s, a, slot, e.val)
      && (forall b: nat, k: nat :: b < a && SameProposal(s, b, k, slot, e.prop) ==>
            s.terms[b].ops[k].entry.val == e.val)
  }

  predicate SameProposal(s: State, b: nat, k: nat, slot: nat, q: nat) {
    && b < |s.terms| && k < |s.terms[b].ops| && s.terms[b].ops[k].Put?
    && s.terms[b].ops[k].slot == slot && s.terms[b].ops[k].entry.prop == q
  }

  // ---------------------------------------------------------------------
  // Terms that post nothing in this step
  // ---------------------------------------------------------------------

  lemma CopiesKept(s: State, s': State, b: nat)
    requires Grows(s, s') && b < |s.terms| && s'.terms[b].ops == s.terms[b].ops && CopiesOk(s, b)
    ensures CopiesOk(s', b)
  {
    forall k | 0 <= k < |s.terms[b].ops| && s.terms[b].ops[k].Copy?
      ensures CopyOk(s', b, s.terms[b].ops[k].slot, s.terms[b].ops[k].entry)
    {
      CopyKept(s, s', b, s.terms[b].ops[k].slot, s.terms[b].ops[k].entry);
    }
  }

  lemma CopyKept(s: State, s': State, b: nat, slot: nat, e: Entry)
    requires Grows(s, s') && CopyOk(s, b, slot, e)
    ensures CopyOk(s', b, slot, e)
  {
    VouchedKept(s, s', slot, e);
    HasPutKept(s, s', slot, e);
  }

  lemma WideKept(s: State, s': State, b: nat)
    requires Grows(s, s') && b < |s.terms| && Wide(s, b)
    ensures Wide(s', b)
  {
    assert TermGrows(s, s', b);
    SubsetSize(s.terms[b].touched, s'.terms[b].touched);
  }

  lemma SafeOpsKept(s: State, s': State, b: nat)
    requires Grows(s, s') && Ordered(s) && b < |s.terms| && s'.terms[b].ops == s.terms[b].ops
    requires Backed(s, b) && SafeOps(s, b)
    ensures SafeOps(s', b)
  {
    var ops := s.terms[b].ops;
    forall k | 0 <= k < |ops| && ops[k].Put?
      ensures SafeValue(s', b, ops[k].slot, ops[k].entry.val) && HasProp(s', b, ops[k].entry.prop)
    {
      SafeValueKept(s, s', b, ops[k].slot, ops[k].entry.val);
      HasPropKept(s, s', b, ops[k].entry.prop);
    }
    forall k | 0 <= k < |ops| && ops[k].SetProp? ensures SafeProp(s', b, ops[k].prop) {
      SafePropKept(s, s', b, ops[k].prop);
    }
  }

  lemma TermOkKept(s: State, s': State, b: nat)
    requires Grows(s, s') && Ordered(s) && b < |s.terms| && s'.terms[b].ops == s.terms[b].ops && TermOk(s, b)
    requires Pid(s, b) < N(s) && s'.reps[Pid(s, b)].propNr >= s.reps[Pid(s, b)].propNr
    ensures TermOk(s', b)
  {
    assert TermGrows(s, s', b);
    CopiesKept(s, s', b);
    if Wide(s, b) { WideKept(s, s', b); }
    SafeOpsKept(s, s', b);
  }

  lemma UniqueKept(s: State, s': State)
    requires Grows(s, s') && Unique(s)
    requires forall b :: 0 <= b < |s.terms| ==> s'.terms[b].ops == s.terms[b].ops
    requires forall b :: |s.terms| <= b < |s'.terms| ==> s'.terms[b].ops == []
    ensures Unique(s')
  {}

  // ---------------------------------------------------------------------
  // Steps other than posts
  // ---------------------------------------------------------------------

  /** No step but a post changes what has been posted. */
  lemma OpsUnchanged(s: State, ev: Event)
    requires Shape(s) && Enabled(s, ev) && !IsPost(ev)
    ensures |Next(s, ev).terms| >= |s.terms|
    ensures forall b :: 0 <= b < |s.terms| ==> Next(s, ev).terms[b].ops == s.terms[b].ops
    ensures forall b :: |s.terms| <= b < |Next(s, ev).terms| ==> Next(s, ev).terms[b].ops == []
  {
    if IsQuiet(ev) {
      hide NextQuiet, Enabled;
      QuietIsMild(s, ev);
    } else {
      hide NextQuiet, TermShape, RepShape, LastAcked;
    }
  }

  lemma QuietPropNr(s: State, ev: Event, p: nat)
    requires Shape(s) && IsQuiet(ev) && Enabled(s, ev) && p < N(s)
    ensures N(Next(s, ev)) == N(s)
    ensures Next(s, ev).reps[p].propNr == s.reps[p].propNr || Next(s, ev).reps[p].propNr == s.reps[p].propNr + Modulo(s)
  {
    var s' := NextQuiet(s, ev);
    if !ev.RetryProp? {
      assert s'.reps == s.reps;
    }
  }

  lemma OtherPropNr(s: State, ev: Event, p: nat)
    requires Shape(s) && !IsQuiet(ev) && Enabled(s, ev) && p < N(s)
    ensures N(Next(s, ev)) == N(s)
    ensures Next(s, ev).reps[p].propNr == s.reps[p].propNr
  {
    hide Multiple, Max;
    if IsElection(ev) {
      ElectionPropNr(s, ev, p);
    } else if IsPost(ev) {
      hide Enabled, PostedPhase, PostedOp;
      PostPropNr(s, PostedBy(ev), PostedOp(s, ev), PostedPhase(s, ev), p);
    } else {
      hide LastAcked, RepShape;
    }
  }

  lemma ElectionPropNr(s: State, ev: Event, p: nat)
    requires Shape(s) && IsElection(ev) && Enabled(s, ev) && p < N(s)
    ensures N(Next(s, ev)) == N(s)
    ensures Next(s, ev).reps[p].propNr == s.reps[p].propNr
  {
    var s' := NextElection(s, ev);
  }

  lemma PostPropNr(s: State, a: nat, op: Op, phase: Phase, p: nat)
    requires Shape(s) && a < |s.terms| && TermShape(s, a) && p < N(s)
    ensures N(Post(s, a, op, phase)) == N(s)
    ensures Post(s, a, op, phase).reps[p].propNr == s.reps[p].propNr
  {
  }

  /** Proposal numbers move only by whole steps. */
  lemma PropNrKept(s: State, ev: Event, p: nat)
    requires Shape(s) && Enabled(s, ev) && p < N(s) && p < N(Next(s, ev)) && Shape(Next(s, ev))
        && Next(s, ev).ids == s.ids
    requires NumberOf(s, p, s.reps[p].propNr)
    ensures Next(s, ev).reps[p].propNr >= s.reps[p].propNr
    ensures NumberOf(Next(s, ev), p, Next(s, ev).reps[p].propNr)
  {
    if IsQuiet(ev) {
      QuietPropNr(s, ev, p);
    } else {
      OtherPropNr(s, ev, p);
    }
  }

  lemma WritesKeptQuietly(s: State, ev: Event)
    requires Shape(s) && Ordered(s) && Writes(s) && Enabled(s, ev) && !IsPost(ev)
    requires Grows(s, Next(s, ev))
    ensures Writes(Next(s, ev))
  {
    var s' := Next(s, ev);
    OpsUnchanged(s, ev);
    forall p: nat | p < N(s') ensures NumberOf(s', p, s'.reps[p].propNr) {
      PropNrKept(s, ev, p);
    }
    forall b | 0 <= b < |s'.terms| ensures TermOk(s', b) {
      if b < |s.terms| {
        assert TermShape(s, b) && TermOk(s, b);
        PropNrKept(s, ev, Pid(s, b));
        TermOkKept(s, s', b);
      } else {
        assert TermShape(s', b);
      }
    }
    UniqueKept(s, s');
  }

  // ---------------------------------------------------------------------
  // Posts
  // ---------------------------------------------------------------------

  lemma PostedSafe(s: State, s': State, a: nat, op: Op)
    requires Grows(s, s') && Ordered(s) && IsTerm(s, a) && TermOk(s, a) && NewOpOk(s, a, op)
    requires s'.terms[a].ops == s.terms[a].ops + [op]
    ensures SafeOps(s', a)
  {
    var ops, ops' := s.terms[a].ops, s'.terms[a].ops;
    forall k | 0 <= k < |ops'| && ops'[k].Put?
      ensures SafeValue(s', a, ops'[k].slot, ops'[k].entry.val) && HasProp(s', a, ops'[k].entry.prop)
    {
      assert k < |ops| ==> ops'[k] == ops[k];
      SafeValueKept(s, s', a, ops'[k].slot, ops'[k].entry.val);
      HasPropKept(s, s', a, ops'[k].entry.prop);
    }
    forall k | 0 <= k < |ops'| && ops'[k].SetProp? ensures SafeProp(s', a, ops'[k].prop) {
      assert k < |ops| ==> ops'[k] == ops[k];
      SafePropKept(s, s', a, ops'[k].prop);
    }
  }

  lemma PostedCopies(s: State, s': State, a: nat, op: Op)
    requires Grows(s, s') && IsTerm(s, a) && CopiesOk(s, a) && NewOpOk(s, a, op)
    requires s'.terms[a].ops == s.terms[a].ops + [op]
    ensures CopiesOk(s', a)
  {
    var ops, ops' := s.terms[a].ops, s'.terms[a].ops;
    forall k | 0 <= k < |ops'| && ops'[k].Copy? ensures CopyOk(s', a, ops'[k].slot, ops'[k].entry) {
      assert k < |ops| ==> ops'[k] == ops[k];
      CopyKept(s, s', a, ops'[k].slot, ops'[k].entry);
    }
  }

  lemma PostedTermOk(s: State, a: nat, op: Op, phase: Phase)
    requires Shape(s) && Ordered(s) && Writes(s) && IsTerm(s, a) && Own(s, a) && NewOpOk(s, a, op)
    ensures Grows(s, Post(s, a, op, phase)) && TermOk(Post(s, a, op, phase), a)
  {
    var s' := Post(s, a, op, phase);
    PostGrows(s, a, op, phase);
    assert TermOk(s, a) && NumberOf(s, Pid(s, a), Leader(s, a).propNr);
    assert s'.terms[a].ops == s.terms[a].ops + [op];
    assert TermShape(s', a);
    PostedCopies(s, s', a, op);
    PostedSafe(s, s', a, op);
    PostedInOrder(s, s', a, op);
    if Wide(s, a) { WideKept(s, s', a); }
  }

  lemma PostedInOrder(s: State, s': State, a: nat, op: Op)
    requires Shape(s) && Shape(s') && IsTerm(s, a) && IsTerm(s', a) && s'.ids == s.ids && N(s') == N(s)
        && s'.terms[a].tok == s.terms[a].tok
    requires s'.terms[a].ops == s.terms[a].ops + [op] && Leader(s', a).propNr == Leader(s, a).propNr
    requires OpsOrdered(s, a) && Numbered(s, a) && NewOpOk(s, a, op)
    requires NumberOf(s, Pid(s, a), Leader(s, a).propNr)
    ensures OpsOrdered(s', a) && Numbered(s', a)
  {
    var ops, ops' := s.terms[a].ops, s'.terms[a].ops;
    assert forall k :: 0 <= k < |ops| ==> ops'[k] == ops[k];
    assert ops'[|ops|] == op;
  }

  /** Two terms of one replica do not both lead it. */
  lemma NewerTermShutsOut(s: State, a: nat, b: nat)
    requires Shape(s) && Ordered(s) && a < b < |s.terms| && IsTerm(s, a) && IsTerm(s, b) && Own(s, a)
    requires Pid(s, b) == Pid(s, a)
    ensures s.terms[b].ops == []
  {
    assert Pid(s, a) !in s.terms[b].touched;
  }

  lemma NewerWritesDiffer(s: State, a: nat, b: nat, k: nat)
    requires Shape(s) && Ordered(s) && Writes(s) && a < b < |s.terms| && IsTerm(s, a) && Own(s, a)
    requires k < |s.terms[b].ops| && s.terms[b].ops[k].Put?
    ensures s.terms[b].ops[k].entry.prop != Leader(s, a).propNr
  {
    PutProps(s, b, k);
    if s.terms[b].ops[k].entry.prop == Leader(s, a).propNr {
      SameNumberSamePid(s, Pid(s, b), Pid(s, a), Leader(s, a).propNr);
      NewerTermShutsOut(s, a, b);
      assert false;
    }
  }

  lemma PostedUnique(s: State, a: nat, op: Op, phase: Phase)
    requires Shape(s) && Ordered(s) && Writes(s) && IsTerm(s, a) && Own(s, a) && NewOpOk(s, a, op)
    requires Shape(Post(s, a, op, phase))
    ensures Unique(Post(s, a, op, phase))
  {
    var s' := Post(s, a, op, phase);
    var n := |s.terms[a].ops|;
    forall x, y, k, k' |
      && 0 <= x < y < |s'.terms| && 0 <= k < |s'.terms[x].ops| && 0 <= k' < |s'.terms[y].ops|
      && s'.terms[x].ops[k].Put? && s'.terms[y].ops[k'].Put?
      && s'.terms[x].ops[k].slot == s'.terms[y].ops[k'].slot
      && s'.terms[x].ops[k].entry.prop == s'.terms[y].ops[k'].entry.prop
      ensures s'.terms[x].ops[k].entry.val == s'.terms[y].ops[k'].entry.val
    {
      if y == a && k' == n {
        assert SameProposal(s, x, k, op.slot, op.entry.prop);
      } else if x == a && k == n {
        NewerWritesDiffer(s, a, y, k');
      }
    }
  }

  lemma WritesPosted(s: State, a: nat, op: Op, phase: Phase)
    requires Shape(s) && Ordered(s) && Writes(s) && IsTerm(s, a) && Own(s, a) && NewOpOk(s, a, op)
    ensures Shape(Post(s, a, op, phase)) && Writes(Post(s, a, op, phase))
  {
    var s' := Post(s, a, op, phase);
    PostGrows(s, a, op, phase);
    forall p: nat | p < N(s') ensures NumberOf(s', p, s'.reps[p].propNr) {
      assert NumberOf(s, p, s.reps[p].propNr);
    }
    forall b | 0 <= b < |s'.terms| ensures TermOk(s', b) {
      if b == a {
        PostedTermOk(s, a, op, phase);
      } else {
        assert TermShape(s, b) && TermOk(s, b);
        TermOkKept(s, s', b);
      }
    }
    PostedUnique(s, a, op, phase);
  }
}
