// What a leader knows in each phase of a call of `propose`, what is still on
// its way to the followers, and what the replicas have committed.

module MuPhases {
  import opened Options
  import opened MuModel
  import opened MuHistory
  import opened MuElection
  import opened MuSafety
  import opened MuLogs

  // ---------------------------------------------------------------------
  // Writes under way
  // ---------------------------------------------------------------------

  /** Among the first k writes of term b one to this slot is still on its way to r. */
  ghost predicate Pending(s: State, b: nat, r: nat, slot: nat, k: nat)
    requires IsTerm(s, b) && r < N(s)
  {
    exists j :: s.terms[b].done[r] <= j < k && j < |s.terms[b].ops| && Fills(s.terms[b].ops[j], r)
        && s.terms[b].ops[j].slot == slot
  }

  ghost predicate Covered(s: State, b: nat, r: nat, slot: nat, k: nat)
    requires Shape(s) && IsTerm(s, b) && r < N(s)
  {
    Settled(s, r, slot) || Pending(s, b, r, slot, k)
  }

  /** Below slot n, replica r has the chosen values or will get them from term b. */
  ghost predicate Front(s: State, b: nat, r: nat, n: nat, k: nat)
    requires Shape(s) && IsTerm(s, b) && r < N(s)
  {
    forall i :: 0 <= i < n ==> Covered(s, b, r, i, k)
  }

  /** Whatever is under way to r finds everything below it in place on arrival. */
  ghost predicate Piped(s: State, b: nat, r: nat)
    requires Shape(s) && IsTerm(s, b) && r < N(s)
  {
    forall k :: s.terms[b].done[r] <= k < |s.terms[b].ops| && Fills(s.terms[b].ops[k], r)
      ==> Front(s, b, r, s.terms[b].ops[k].slot, k)
  }

  ghost predicate Frontier(s: State, b: nat)
    requires Shape(s) && IsTerm(s, b)
  {
    forall r :: 0 <= r < N(s) ==> Front(s, b, r, Leader(s, b).fuo, |s.terms[b].ops|)
  }

  /** A leader goes on only after its last value has been chosen. */
  ghost predicate DecidedOk(s: State, b: nat)
    requires Shape(s) && IsTerm(s, b)
  {
    var t := s.terms[b];
    && (forall k :: 0 <= k < |t.ops| - 1 && t.ops[k].Put? ==> ChosenBy(s, b, k))
    && (!t.phase.Write? && !t.phase.Dead? && |t.ops| > 0 && t.ops[|t.ops| - 1].Put? ==> ChosenBy(s, b, |t.ops| - 1))
  }

  // ---------------------------------------------------------------------
  // Phases
  // ---------------------------------------------------------------------

  /** q is at least every proposal that r had accepted from an earlier term and
      that may still be completed. */
  ghost predicate PropRead(s: State, b: nat, r: nat, q: nat)
    requires Shape(s) && b < |s.terms| && r < N(s)
  {
    && Shut(s, b, r)
    && forall a :: 0 <= a < b && IsTerm(s, a) ==> PropCovers(s, a, r, q)
  }

  ghost predicate PropCovers(s: State, a: nat, r: nat, q: nat)
    requires Shape(s) && IsTerm(s, a) && r < N(s)
  {
    forall k :: 0 <= k < s.terms[a].done[r] && s.terms[a].ops[k].SetProp? && May(s, a, k)
        ==> s.terms[a].ops[k].prop <= q
  }

  /** The fast path is open: nothing of an earlier term can be chosen at or above base. */
  ghost predicate FastOk(s: State, b: nat, phase: Phase)
    requires Shape(s) && IsTerm(s, b) && phase.Fast?
  {
    && HasProp(s, b, Leader(s, b).propNr)
    && NothingAbove(s, b, phase.readers, phase.base)
    && phase.base <= Leader(s, b).fuo
  }

  ghost predicate PhaseOk(s: State, b: nat)
    requires Shape(s) && IsTerm(s, b)
  {
    var t := s.terms[b];
    var remotes := Remotes(s, Pid(s, b));
    match t.phase
    case Idle => true
    case Dead => true
    case CatchFuo(fuos) =>
      fuos.Keys <= remotes && forall r, i :: r in fuos && 0 <= i < fuos[r] ==> r < N(s) && Settled(s, r, i)
    case Update(upto) =>
      upto.Keys == remotes && forall r :: r in upto ==> Front(s, b, r, upto[r], |t.ops|)
    case CatchProp(props) =>
      Frontier(s, b) && props.Keys <= remotes && forall r :: r in props ==>
            r in t.touched && PropRead(s, b, r, props[r])
    case UpdProp =>
      Frontier(s, b) && |t.ops| > 0 && t.ops[|t.ops| - 1] == SetProp(Leader(s, b).propNr)
    case ReadSlot(slots) =>
      && Frontier(s, b) && HasProp(s, b, Leader(s, b).propNr)
      && slots.Keys <= remotes && forall r :: r in slots ==> ReadOk(s, b, r, Leader(s, b).fuo, slots[r])
    case Write(next) =>
      && Frontier(s, b)
      && |t.ops| > 0 && t.ops[|t.ops| - 1].Put? && t.ops[|t.ops| - 1].slot == Leader(s, b).fuo
      && (next.Idle? || (next.Fast? && FastOk(s, b, next)))
    case Fast(readers, base) =>
      Own(s, b) ==> Frontier(s, b) && FastOk(s, b, t.phase)
  }

  /** Term b is in charge at its leader: nobody else moves the leader's header. */
  predicate InCharge(s: State, b: nat)
    requires IsTerm(s, b)
  {
    Own(s, b) || s.terms[b].phase.Busy()
  }

  ghost predicate LeaderOk(s: State, b: nat)
    requires Shape(s) && IsTerm(s, b)
  {
    var t := s.terms[b];
    InCharge(s, b) ==>
      && (forall k :: 0 <= k < |t.ops| && t.ops[k].Put? ==>
            t.ops[k].slot < Leader(s, b).fuo || (t.phase.Write? && k == |t.ops| - 1) || t.phase.Dead?)
      && (t.phase.Busy() ==> Pid(s, b) in t.touched && CaughtUp(Leader(s, b)))
      && (CaughtUp(Leader(s, b)) || Leader(s, b).target == Leader(s, b).fuo)
  }

  ghost predicate RunOk(s: State, b: nat)
    requires Shape(s) && b < |s.terms|
  {
    && IsTerm(s, b) && PhaseOk(s, b) && LeaderOk(s, b) && DecidedOk(s, b)
    && forall r :: 0 <= r < N(s) ==> Piped(s, b, r)
  }

  ghost predicate Exclusive(s: State)
    requires Shape(s)
  {
    forall a, b :: 0 <= a < |s.terms| && 0 <= b < |s.terms| && a != b && IsTerm(s, a) && IsTerm(s, b)
        && Pid(s, a) == Pid(s, b)
      ==> !(InCharge(s, a) && s.terms[b].phase.Busy())
  }

  /** The header and the commit target stay within the chosen prefix, and what
      has been committed is chosen. */
  ghost predicate RepOk(s: State, r: nat)
    requires Shape(s) && r < N(s)
  {
    var rep := s.reps[r];
    && (forall i :: 0 <= i < rep.fuo ==> Settled(s, r, i))
    && (forall i :: 0 <= i < rep.target ==> Settled(s, r, i))
    && (forall i :: 0 <= i < |rep.committed| ==> Chosen(s, i, rep.committed[i]))
  }

  ghost predicate Running(s: State)
    requires Shape(s)
  {
    && (forall b :: 0 <= b < |s.terms| ==> RunOk(s, b))
    && (forall r :: 0 <= r < N(s) ==> RepOk(s, r))
    && Exclusive(s)
  }

  /** The invariant of the protocol. */
  ghost predicate Inv(s: State) {
    Shape(s) && Tokens(s) && Answers(s) && Ordered(s) && Writes(s) && Logs(s) && Running(s)
  }

  // ---------------------------------------------------------------------
  // Stability
  // ---------------------------------------------------------------------

  /** Every slot settled in s is settled in s'. */
  ghost predicate SettledStays(s: State, s': State)
    requires Shape(s) && Shape(s') && N(s') == N(s)
  {
    forall q, i :: 0 <= q < N(s) && 0 <= i && Settled(s, q, i) ==> Settled(s', q, i)
  }

  ghost predicate Carries(s: State, s': State) {
    Grows(s, s') && SettledStays(s, s')
  }

  lemma CoveredKept(s: State, s': State, b: nat, r: nat, slot: nat, k: nat)
    requires Carries(s, s') && b < |s.terms| && SameDone(s, s', b, r)
    requires k <= |s.terms[b].ops| && Covered(s, b, r, slot, k)
    ensures Covered(s', b, r, slot, k)
  {
    assert TermGrows(s, s', b);
    if !Settled(s, r, slot) {
      var j :| s.terms[b].done[r] <= j < k && j < |s.terms[b].ops| && Fills(s.terms[b].ops[j], r)
          && s.terms[b].ops[j].slot == slot;
      OpsKept(s, s', b, j);
      assert s'.terms[b].done[r] <= j < k && Fills(s'.terms[b].ops[j], r) && s'.terms[b].ops[j].slot == slot;
    }
  }

  lemma FrontKept(s: State, s': State, b: nat, r: nat, n: nat, k: nat)
    requires Carries(s, s') && b < |s.terms| && SameDone(s, s', b, r)
    requires k <= |s.terms[b].ops| && Front(s, b, r, n, k)
    ensures Front(s', b, r, n, k)
  {
    forall i | 0 <= i < n ensures Covered(s', b, r, i, k) {
      CoveredKept(s, s', b, r, i, k);
    }
  }

  lemma PipedKept(s: State, s': State, b: nat, r: nat)
    requires Carries(s, s') && b < |s.terms| && SameDone(s, s', b, r)
    requires s'.terms[b].ops == s.terms[b].ops && Piped(s, b, r)
    ensures Piped(s', b, r)
  {
    forall k | s.terms[b].done[r] <= k < |s.terms[b].ops| && Fills(s.terms[b].ops[k], r)
      ensures Front(s', b, r, s.terms[b].ops[k].slot, k)
    {
      FrontKept(s, s', b, r, s.terms[b].ops[k].slot, k);
    }
  }

  lemma DecidedKept(s: State, s': State, b: nat)
    requires Grows(s, s') && b < |s.terms| && IsTerm(s, b) && IsTerm(s', b) && s'.terms[b].ops == s.terms[b].ops
    requires DecidedOk(s, b)
    requires s'.terms[b].phase.Write? || s'.terms[b].phase.Dead? || !(s.terms[b].phase.Write? || s.terms[b].phase.Dead?)
    ensures DecidedOk(s', b)
  {
    var t := s.terms[b];
    forall k | 0 <= k < |t.ops| && t.ops[k].Put? && ChosenBy(s, b, k) ensures ChosenBy(s', b, k) {
      ChosenByKept(s, s', b, k);
    }
  }

  lemma ShutKept(s: State, s': State, b: nat, r: nat)
    requires Grows(s, s') && b < |s.terms| && r < N(s) && Shut(s, b, r)
    ensures Shut(s', b, r)
  {
    forall a | 0 <= a < b ensures !Open(s', a, r) { assert TermGrows(s, s', a); }
  }

  lemma PropReadKept(s: State, s': State, b: nat, r: nat, q: nat)
    requires Grows(s, s') && b < |s.terms| && r < N(s) && PropRead(s, b, r, q)
    ensures PropRead(s', b, r, q)
  {
    ShutKept(s, s', b, r);
    forall a | 0 <= a < b && IsTerm(s', a) ensures PropCovers(s', a, r, q) {
      assert TermGrows(s, s', a) && PropCovers(s, a, r, q);
      forall k | 0 <= k < s'.terms[a].done[r] && s'.terms[a].ops[k].SetProp? && May(s', a, k)
        ensures s'.terms[a].ops[k].prop <= q
      {
        OpsKept(s, s', a, k);
        MayShrinks(s, s', a, k);
      }
    }
  }

  lemma NothingAboveKept(s: State, s': State, b: nat, readers: set<nat>, base: nat)
    requires Grows(s, s') && b < |s.terms| && NothingAbove(s, b, readers, base)
    ensures NothingAbove(s', b, readers, base)
  {
    assert TermGrows(s, s', b);
    forall r | r in readers ensures ReadOk(s', b, r, base, None) {
      ReadOkKept(s, s', b, r, base, None);
    }
  }

  // ---------------------------------------------------------------------
  // Terms that this step does not advance
  // ---------------------------------------------------------------------

  /** Nothing that term b relies on at its leader has changed. */
  ghost predicate LeaderStays(s: State, s': State, b: nat)
    requires Grows(s, s') && b < |s.terms|
  {
    IsTerm(s, b) && IsTerm(s', b) && (InCharge(s, b) ==>
      && Leader(s', b).fuo == Leader(s, b).fuo
      && Leader(s', b).propNr == Leader(s, b).propNr
      && (s.terms[b].phase.Busy() && CaughtUp(Leader(s, b)) ==> CaughtUp(Leader(s', b)))
      && (CaughtUp(Leader(s, b)) || Leader(s, b).target == Leader(s, b).fuo
          ==> CaughtUp(Leader(s', b)) || Leader(s', b).target == Leader(s', b).fuo))
  }

  /** Term b itself is as it was, up to replicas touched. */
  ghost predicate TermStays(s: State, s': State, b: nat)
    requires Grows(s, s') && b < |s.terms|
  {
    && s'.terms[b].phase == s.terms[b].phase
    && s'.terms[b].ops == s.terms[b].ops
    && forall r :: 0 <= r < N(s) ==> SameDone(s, s', b, r)
  }

  lemma FrontierKept(s: State, s': State, b: nat)
    requires Carries(s, s') && b < |s.terms| && IsTerm(s, b) && IsTerm(s', b)
    requires s'.terms[b].ops == s.terms[b].ops && (forall r :: 0 <= r < N(s) ==> SameDone(s, s', b, r))
    requires Leader(s', b).fuo == Leader(s, b).fuo && Frontier(s, b)
    ensures Frontier(s', b)
  {
    forall r | 0 <= r < N(s) ensures Front(s', b, r, Leader(s', b).fuo, |s'.terms[b].ops|) {
      FrontKept(s, s', b, r, Leader(s, b).fuo, |s.terms[b].ops|);
    }
  }

  lemma FastKept(s: State, s': State, b: nat, phase: Phase)
    requires Grows(s, s') && b < |s.terms| && IsTerm(s, b) && IsTerm(s', b) && phase.Fast? && FastOk(s, b, phase)
    requires Leader(s', b).fuo >= Leader(s, b).fuo && Leader(s', b).propNr == Leader(s, b).propNr
    ensures FastOk(s', b, phase)
  {
    HasPropKept(s, s', b, Leader(s, b).propNr);
    NothingAboveKept(s, s', b, phase.readers, phase.base);
  }

  lemma EarlyPhaseKept(s: State, s': State, b: nat)
    requires Carries(s, s') && b < |s.terms| && IsTerm(s, b) && IsTerm(s', b)
    requires TermStays(s, s', b) && PhaseOk(s, b)
    requires s.terms[b].phase.CatchFuo? || s.terms[b].phase.Update?
    ensures PhaseOk(s', b)
  {
    assert TermGrows(s, s', b);
    var t := s.terms[b];
    match t.phase
    case CatchFuo(fuos) =>
    case Update(upto) =>
      forall r | r in upto ensures Front(s', b, r, upto[r], |t.ops|) {
        FrontKept(s, s', b, r, upto[r], |t.ops|);
      }
  }

  lemma LatePhaseKept(s: State, s': State, b: nat)
    requires Carries(s, s') && b < |s.terms| && IsTerm(s, b) && IsTerm(s', b)
    requires TermStays(s, s', b) && PhaseOk(s, b) && Leader(s', b).fuo == Leader(s, b).fuo
        && Leader(s', b).propNr == Leader(s, b).propNr
    requires s.terms[b].phase.CatchProp? || s.terms[b].phase.UpdProp? || s.terms[b].phase.ReadSlot?
             || s.terms[b].phase.Write?
    ensures PhaseOk(s', b)
  {
    assert TermGrows(s, s', b);
    var t := s.terms[b];
    FrontierKept(s, s', b);
    match t.phase
    case CatchProp(props) =>
      forall r | r in props ensures r in s'.terms[b].touched && PropRead(s', b, r, props[r]) {
        PropReadKept(s, s', b, r, props[r]);
      }
    case UpdProp =>
    case ReadSlot(slots) =>
      HasPropKept(s, s', b, Leader(s, b).propNr);
      forall r | r in slots ensures ReadOk(s', b, r, Leader(s', b).fuo, slots[r]) {
        ReadOkKept(s, s', b, r, Leader(s, b).fuo, slots[r]);
      }
    case Write(next) =>
      if next.Fast? { FastKept(s, s', b, next); }
  }

  lemma PhaseKept(s: State, s': State, b: nat)
    requires Carries(s, s') && b < |s.terms| && IsTerm(s, b) && IsTerm(s', b)
    requires TermStays(s, s', b) && LeaderStays(s, s', b) && PhaseOk(s, b)
    ensures PhaseOk(s', b)
  {
    assert TermGrows(s, s', b);
    var phase := s.terms[b].phase;
    if phase.CatchFuo? || phase.Update? {
      EarlyPhaseKept(s, s', b);
    } else if phase.Busy() {
      LatePhaseKept(s, s', b);
    } else if phase.Fast? && Own(s', b) {
      assert Own(s, b);
      FrontierKept(s, s', b);
      FastKept(s, s', b, phase);
    }
  }

  lemma RunKept(s: State, s': State, b: nat)
    requires Carries(s, s') && b < |s.terms| && RunOk(s, b)
    requires IsTerm(s, b) && IsTerm(s', b) && TermStays(s, s', b) && LeaderStays(s, s', b)
    ensures RunOk(s', b)
  {
    assert TermGrows(s, s', b);
    PhaseKept(s, s', b);
    DecidedKept(s, s', b);
    forall r | 0 <= r < N(s') ensures Piped(s', b, r) {
      assert SameDone(s, s', b, r);
      PipedKept(s, s', b, r);
    }
    assert InCharge(s', b) ==> InCharge(s, b);
  }

  lemma ChosenKept(s: State, s': State, slot: nat, v: Value)
    requires Grows(s, s') && Chosen(s, slot, v)
    ensures Chosen(s', slot, v)
  {
    var a: nat, k: nat :| ChosenBy(s, a, k) && s.terms[a].ops[k].slot == slot && s.terms[a].ops[k].entry.val == v;
    ChosenByKept(s, s', a, k);
  }

  lemma RepKept(s: State, s': State, r: nat)
    requires Carries(s, s') && r < N(s) && RepOk(s, r)
    requires s'.reps[r].fuo == s.reps[r].fuo && s'.reps[r].target == s.reps[r].target
        && s'.reps[r].committed == s.reps[r].committed
    ensures RepOk(s', r)
  {
    var rep := s.reps[r];
    forall i | 0 <= i < |rep.committed| ensures Chosen(s', i, rep.committed[i]) {
      ChosenKept(s, s', i, rep.committed[i]);
    }
  }
}
