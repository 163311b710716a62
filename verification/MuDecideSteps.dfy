// The invariant survives the decision of a slot.

module MuDecideSteps {
  import opened Quorums
  import opened MuModel
  import opened MuHistory
  import opened MuElection
  import opened MuSafety
  import opened MuLogs
  import opened MuPhases
  import opened MuQuietSteps
  import opened MuLeaderSteps

  /** A replica that has received a chosen write holds the chosen value. */
  lemma ChosenSettles(s: State, b: nat, k: nat, r: nat)
    requires Shape(s) && Writes(s) && Logs(s) && ChosenBy(s, b, k) && r < N(s) && s.terms[b].done[r] > k
    ensures Settled(s, r, s.terms[b].ops[k].slot)
  {
    var slot := s.terms[b].ops[k].slot;
    assert LogOk(s, r) && Latest(s, r, b);
    var e := s.reps[r].log[slot];
    if e.term >= b {
      assert Origin(s, r, slot);
      var ke :| 0 <= ke < |s.terms[e.term].ops| && s.terms[e.term].ops[ke] == Put(slot, e);
      AckedMay(s, b, k);
      LaterAgrees(s, b, k, e.term, ke);
      assert Vouches(s, b, k, slot, e);
    }
  }

  lemma DecideChosen(s: State, a: nat)
    requires Inv(s) && Enabled(s, Decide(a))
    ensures IsTerm(s, a) && |s.terms[a].ops| > 0
    ensures ChosenBy(s, a, |s.terms[a].ops| - 1)
    ensures s.terms[a].ops[|s.terms[a].ops| - 1].slot == Leader(s, a).fuo
    ensures Settled(s, Pid(s, a), Leader(s, a).fuo)
  {
    hide Tokens, Answers, Ordered, Writes, Logs, Settled, DecidedOk, LeaderOk, Piped, Frontier, FastOk, LastAcked;
    assert RunOk(s, a) && PhaseOk(s, a);
    AckedByMajority(s, a);
    ChosenSettles(s, a, |s.terms[a].ops| - 1, Pid(s, a));
  }

  lemma DecideArrivesNothing(s: State, a: nat)
    requires Shape(s) && Enabled(s, Decide(a)) && Grows(s, Next(s, Decide(a)))
    ensures NothingArrived(s, Next(s, Decide(a)))
  {
    hide RepShape, LastAcked, Decided;
    var s' := Next(s, Decide(a));
    DecideKeepsLogs(s, a);
    hide Next, Enabled;
    forall b, q | 0 <= b < |s.terms| && 0 <= q < N(s) ensures SameDone(s, s', b, q) {
      assert TermGrows(s, s', b);
    }
  }

  lemma DecideKeepsLogs(s: State, a: nat)
    requires Shape(s) && Enabled(s, Decide(a))
    ensures var s' := Next(s, Decide(a));
            && |s'.terms| == |s.terms| && N(s') == N(s)
            && (forall r :: 0 <= r < N(s) ==>
                  s'.reps[r].log == s.reps[r].log && s'.reps[r].minProp == s.reps[r].minProp)
            && (forall b :: 0 <= b < |s.terms| ==>
                  s'.terms[b].ops == s.terms[b].ops && s'.terms[b].done == s.terms[b].done)
  {
    hide RepShape, LastAcked;
  }

  lemma DecideTouches(s: State, a: nat)
    requires Shape(s) && Enabled(s, Decide(a))
    ensures a < |s.terms| && |Next(s, Decide(a)).terms| == |s.terms| && N(Next(s, Decide(a))) == N(s)
    ensures forall b :: 0 <= b < |s.terms| && b != a ==> Next(s, Decide(a)).terms[b] == s.terms[b]
    ensures forall r :: 0 <= r < N(s) && r != Pid(s, a) ==> Next(s, Decide(a)).reps[r] == s.reps[r]
    ensures s.terms[a].phase.Busy()
  {
  }

  lemma DecideLeavesOther(s: State, a: nat, s': State, b: nat)
    requires Shape(s) && Exclusive(s) && Enabled(s, Decide(a)) && s' == Next(s, Decide(a)) && NothingArrived(s, s')
    requires b < |s.terms| && b != a
    ensures TermStays(s, s', b) && LeaderStays(s, s', b)
  {
    hide Next, Enabled;
    DecideTouches(s, a);
    assert TermGrows(s, s', b) && TermGrows(s, s', a);
    assert InCharge(s, b) ==> Pid(s, b) != Pid(s, a);
    assert Pid(s, b) != Pid(s, a) ==> Leader(s', b) == Leader(s, b);
  }

  lemma DecideLeavesOthers(s: State, a: nat)
    requires Inv(s) && Enabled(s, Decide(a)) && Grows(s, Next(s, Decide(a)))
    ensures OthersStay(s, Next(s, Decide(a)), a)
  {
    DecideArrivesNothing(s, a);
    forall b | 0 <= b < |s.terms| && b != a
      ensures TermStays(s, Next(s, Decide(a)), b) && LeaderStays(s, Next(s, Decide(a)), b)
    {
      DecideLeavesOther(s, a, Next(s, Decide(a)), b);
    }
  }

  ghost predicate Decides(s: State, a: nat, s': State) {
    && Inv(s) && Carries(s, s') && Base(s') && NothingArrived(s, s')
    && IsTerm(s, a) && IsTerm(s', a) && |s.terms[a].ops| > 0
    && s.terms[a].phase.Write? && s'.terms[a].ops == s.terms[a].ops && s'.terms[a].phase == s.terms[a].phase.next
    && Leader(s', a) == Decided(Leader(s, a))
    && ChosenBy(s, a, |s.terms[a].ops| - 1) && s.terms[a].ops[|s.terms[a].ops| - 1].slot == Leader(s, a).fuo
    && Settled(s, Pid(s, a), Leader(s, a).fuo)
  }

  /** After the last write is chosen, its slot is covered everywhere too. */
  lemma LastCovered(s: State, a: nat, r: nat)
    requires Shape(s) && Writes(s) && Logs(s) && IsTerm(s, a) && r < N(s)
    requires |s.terms[a].ops| > 0 && ChosenBy(s, a, |s.terms[a].ops| - 1)
    ensures Covered(s, a, r, s.terms[a].ops[|s.terms[a].ops| - 1].slot, |s.terms[a].ops|)
  {
    var n := |s.terms[a].ops|;
    if s.terms[a].done[r] > n - 1 {
      ChosenSettles(s, a, n - 1, r);
    } else {
      assert s.terms[a].done[r] <= n - 1 < n && Fills(s.terms[a].ops[n - 1], r);
    }
  }

  lemma FrontAdvances(s: State, a: nat, r: nat)
    requires Shape(s) && Writes(s) && Logs(s) && IsTerm(s, a) && r < N(s) && Frontier(s, a)
    requires |s.terms[a].ops| > 0 && ChosenBy(s, a, |s.terms[a].ops| - 1)
    requires s.terms[a].ops[|s.terms[a].ops| - 1].slot == Leader(s, a).fuo
    ensures Front(s, a, r, Leader(s, a).fuo + 1, |s.terms[a].ops|)
  {
    LastCovered(s, a, r);
    assert Front(s, a, r, Leader(s, a).fuo, |s.terms[a].ops|);
  }

  lemma DecideFront(s: State, a: nat, s': State, r: nat)
    requires Decides(s, a, s') && Frontier(s, a) && r < N(s)
    ensures Front(s', a, r, Leader(s, a).fuo + 1, |s.terms[a].ops|)
  {
    assert SameDone(s, s', a, r);
    FrontAdvances(s, a, r);
    FrontKept(s, s', a, r, Leader(s, a).fuo + 1, |s.terms[a].ops|);
  }

  lemma DecideFrontier(s: State, a: nat, s': State)
    requires Decides(s, a, s') && Frontier(s, a)
    ensures Frontier(s', a)
  {
    forall r | 0 <= r < N(s') ensures Front(s', a, r, Leader(s', a).fuo, |s'.terms[a].ops|) {
      DecideFront(s, a, s', r);
    }
  }

  lemma DecidePhase(s: State, a: nat, s': State)
    requires Decides(s, a, s')
    ensures PhaseOk(s', a)
  {
    hide Tokens, Answers, Ordered, Writes, Logs, Settled, DecidedOk, LeaderOk, Piped, Frontier, FastOk, ChosenBy;
    assert RunOk(s, a) && PhaseOk(s, a) && TermGrows(s, s', a);
    DecideFrontier(s, a, s');
    if s'.terms[a].phase.Fast? { FastKept(s, s', a, s'.terms[a].phase); }
  }

  lemma DecideLeader(s: State, a: nat, s': State)
    requires Decides(s, a, s')
    ensures LeaderOk(s', a) && DecidedOk(s', a)
  {
    hide Tokens, Answers, Ordered, Writes, Logs, NothingArrived, Settled, Piped, Frontier, FastOk;
    assert RunOk(s, a) && PhaseOk(s, a) && LeaderOk(s, a) && TermGrows(s, s', a);
    DecideDecided(s, a, s');
  }

  lemma DecideDecided(s: State, a: nat, s': State)
    requires Decides(s, a, s')
    ensures DecidedOk(s', a)
  {
    hide Tokens, Answers, Ordered, Writes, Logs, NothingArrived, Settled, PhaseOk, LeaderOk, Piped;
    assert RunOk(s, a) && DecidedOk(s, a) && TermGrows(s, s', a);
    forall k | 0 <= k < |s.terms[a].ops| && s.terms[a].ops[k].Put? ensures ChosenBy(s', a, k) {
      ChosenByKept(s, s', a, k);
    }
  }

  lemma DecideRun(s: State, a: nat, s': State)
    requires Decides(s, a, s')
    ensures RunOk(s', a)
  {
    DecidePhase(s, a, s');
    DecideLeader(s, a, s');
    assert RunOk(s, a);
    forall r | 0 <= r < N(s') ensures Piped(s', a, r) {
      assert SameDone(s, s', a, r);
      PipedKept(s, s', a, r);
    }
  }

  lemma DecideRep(s: State, a: nat, s': State)
    requires Decides(s, a, s')
    ensures RepOk(s', Pid(s, a))
  {
    hide Tokens, Answers, Ordered, Writes, Logs, PhaseOk, LeaderOk, Piped, Frontier, RunOk;
    var p := Pid(s, a);
    assert RepOk(s, p) && TermGrows(s, s', a);
    var rep := s.reps[p];
    forall i | 0 <= i < |rep.committed| ensures Chosen(s', i, rep.committed[i]) {
      ChosenKept(s, s', i, rep.committed[i]);
    }
  }

  lemma DecideEffect(s: State, a: nat)
    requires Shape(s) && Enabled(s, Decide(a))
    ensures IsTerm(s, a) && |Next(s, Decide(a)).terms| == |s.terms| && N(Next(s, Decide(a))) == N(s)
    ensures s.terms[a].phase.Write?
    ensures Next(s, Decide(a)).terms[a] == s.terms[a].(phase := s.terms[a].phase.next)
    ensures Next(s, Decide(a)).reps[Pid(s, a)] == Decided(Leader(s, a))
    ensures forall r :: 0 <= r < N(s) && r != Pid(s, a) ==> Next(s, Decide(a)).reps[r] == s.reps[r]
  {}

  lemma DecideIs(s: State, a: nat)
    requires Inv(s) && Enabled(s, Decide(a))
    ensures Decides(s, a, Next(s, Decide(a)))
    ensures OthersStay(s, Next(s, Decide(a)), a)
  {
    hide Next, Writes, Frontier, Piped, RunOk, RepOk, Exclusive;
    StepGrows(s, Decide(a));
    DecideArrivesNothing(s, a);
    BaseKept(s, Decide(a));
    DecideChosen(s, a);
    DecideEffect(s, a);
    assert TermGrows(s, Next(s, Decide(a)), a);
    DecideLeavesOthers(s, a);
  }

  lemma DecideKeepsInv(s: State, a: nat)
    requires Inv(s) && Enabled(s, Decide(a))
    ensures Inv(Next(s, Decide(a)))
  {
    hide Ordered, Tokens, Answers, PhaseOk, Frontier, Piped, Ids, Remotes, Acks, Decided, Delivered;
    hide Started, Granted, Answered, Written, Post, Writes, Logs, Settled, SafeValue, SafeProp, May;
    hide Potential, Wide, Enabled;
    var s' := Next(s, Decide(a));
    DecideIs(s, a);
    DecideEffect(s, a);
    assert RunOk(s, a) && PhaseOk(s, a);
    OthersRun(s, s', a);
    DecideRun(s, a, s');
    forall q | 0 <= q < N(s') ensures RepOk(s', q) {
      if q == Pid(s, a) {
        DecideRep(s, a, s');
      } else {
        assert RepOk(s, q);
        RepKept(s, s', q);
      }
    }
    ExclusiveKept(s, s');
  }
}
