// The invariant survives a post: a leader issues its next write.

module MuPostSteps {
  import opened Quorums
  import opened MuModel
  import opened MuHistory
  import opened MuElection
  import opened MuSafety
  import opened MuWrites
  import opened MuLogs
  import opened MuPhases
  import opened MuQuietSteps
  import opened MuLeaderSteps

  lemma ArrivalCarries(s: State, s': State, b: nat, k: nat, r: nat)
    requires Arrived(s, s', b, k, r) && Ordered(s) && Logs(s) && Writes(s')
    ensures Carries(s, s')
  {
    forall q, i | 0 <= q < N(s) && 0 <= i && Settled(s, q, i) ensures Settled(s', q, i) {
      SettledKept(s, s', b, k, r, q, i);
    }
  }

  lemma FrontWiden(s: State, b: nat, r: nat, n: nat, k: nat, k': nat)
    requires Shape(s) && IsTerm(s, b) && r < N(s) && k <= k' && Front(s, b, r, n, k)
    ensures Front(s, b, r, n, k')
  {
    forall i | 0 <= i < n ensures Covered(s, b, r, i, k') {
      assert Covered(s, b, r, i, k);
    }
  }

  /** At the leader itself nothing is ever under way. */
  lemma FrontOwn(s: State, s': State, b: nat, n: nat, k: nat)
    requires Carries(s, s') && IsTerm(s, b) && IsTerm(s', b) && Pid(s', b) == Pid(s, b)
    requires k <= |s.terms[b].ops| && Front(s, b, Pid(s, b), n, k)
    ensures Front(s', b, Pid(s, b), n, k)
  {
    forall i | 0 <= i < n ensures Covered(s', b, Pid(s, b), i, k) {
      assert Covered(s, b, Pid(s, b), i, k);
    }
  }

  lemma PostArrives(s: State, a: nat, op: Op, phase: Phase)
    requires Shape(s) && IsTerm(s, a) && Own(s, a) && Grows(s, Post(s, a, op, phase))
    ensures Arrived(s, Post(s, a, op, phase), a, |s.terms[a].ops|, Pid(s, a))
  {
    var s' := Post(s, a, op, phase);
    assert TermGrows(s, s', a);
    forall b, q | 0 <= b < |s.terms| && 0 <= q < N(s) && !(b == a && q == Pid(s, a)) ensures SameDone(s, s', b, q) {
      assert TermGrows(s, s', b);
    }
  }

  /** What a post leaves alone. */
  lemma PostLeavesOthers(s: State, a: nat, op: Op, phase: Phase)
    requires Shape(s) && IsTerm(s, a) && Own(s, a) && Grows(s, Post(s, a, op, phase))
    ensures OthersStay(s, Post(s, a, op, phase), a)
    ensures forall r :: 0 <= r < N(s) ==> SameHeader(s.reps[r], Post(s, a, op, phase).reps[r])
  {
    var s' := Post(s, a, op, phase);
    forall b | 0 <= b < |s.terms| && b != a ensures TermStays(s, s', b) && LeaderStays(s, s', b) {
      assert TermGrows(s, s', b);
    }
  }

  predicate SameHeader(rep: Replica, rep': Replica) {
    && rep'.fuo == rep.fuo && rep'.target == rep.target && rep'.committed == rep.committed && rep'.propNr == rep.propNr
  }

  /** The slot of a value is the leader's first undecided one; a copy goes elsewhere. */
  lemma PostedShape(s: State, ev: Event)
    requires Inv(s) && IsPost(ev) && Enabled(s, ev)
    ensures IsTerm(s, PostedBy(ev))
    ensures PostedOp(s, ev).Put? ==> PostedOp(s, ev).slot == Leader(s, PostedBy(ev)).fuo && PostedPhase(s, ev).Write?
    ensures PostedOp(s, ev).Copy? ==>
              && ev.PostCopy? && PostedOp(s, ev) == CopyOp(s, ev.a, ev.r)
                  && PostedPhase(s, ev) == CopyPhase(s, ev.a, ev.r)
              && ev.r != Pid(s, ev.a) && ev.r < N(s)
              && Front(s, ev.a, ev.r, PostedOp(s, ev).slot, |s.terms[ev.a].ops|)
    ensures PostedOp(s, ev).SetProp? ==>
          PostedPhase(s, ev) == UpdProp && PostedOp(s, ev).prop == Leader(s, PostedBy(ev)).propNr
    ensures !ev.PostCopy? ==> Frontier(s, PostedBy(ev))
    ensures !s.terms[PostedBy(ev)].phase.Write? && !s.terms[PostedBy(ev)].phase.Dead?
    ensures CaughtUp(Leader(s, PostedBy(ev)))
  {
    hide Next, Writes, TermShape, RepShape, ProposalIsHigh, IsFreshest, NothingRead, BusyAt, Leading;
    assert RunOk(s, PostedBy(ev)) && PhaseOk(s, PostedBy(ev)) && LeaderOk(s, PostedBy(ev));
  }

  lemma PostLogs(s: State, ev: Event, s': State)
    requires Inv(s) && IsPost(ev) && Enabled(s, ev) && s' == Next(s, ev) && Grows(s, s') && Writes(s')
    requires IsTerm(s, PostedBy(ev)) && Arrived(s, s', PostedBy(ev), |s.terms[PostedBy(ev)].ops|, Pid(s, PostedBy(ev)))
    ensures Logs(s') && Carries(s, s')
  {
    var a := PostedBy(ev);
    var p, k := Pid(s, a), |s.terms[a].ops|;
    PostedShape(s, ev);
    assert s'.terms[a].ops[k] == PostedOp(s, ev);
    assert RepOk(s, p);
    LogsArrived(s, s', a, k, p);
    ArrivalCarries(s, s', a, k, p);
  }

  /** What was in place or under way before the post still is. */
  lemma PostedFront(s: State, ev: Event, s': State, r: nat, n: nat, k: nat)
    requires Inv(s) && IsPost(ev) && Enabled(s, ev) && s' == Next(s, ev) && Carries(s, s')
    requires IsTerm(s, PostedBy(ev)) && IsTerm(s', PostedBy(ev))
    requires Arrived(s, s', PostedBy(ev), |s.terms[PostedBy(ev)].ops|, Pid(s, PostedBy(ev)))
    requires r < N(s) && k <= |s.terms[PostedBy(ev)].ops| && Front(s, PostedBy(ev), r, n, k)
    ensures Front(s', PostedBy(ev), r, n, k)
  {
    var a := PostedBy(ev);
    assert TermGrows(s, s', a);
    if r == Pid(s, a) {
      FrontOwn(s, s', a, n, k);
    } else {
      assert SameDone(s, s', a, r);
      FrontKept(s, s', a, r, n, k);
    }
  }

  ghost predicate Posted(s: State, ev: Event, s': State) {
    && Inv(s) && IsPost(ev) && Enabled(s, ev) && s' == Next(s, ev) && Carries(s, s') && Base(s')
    && IsTerm(s, PostedBy(ev)) && IsTerm(s', PostedBy(ev)) && Own(s, PostedBy(ev))
    && Arrived(s, s', PostedBy(ev), |s.terms[PostedBy(ev)].ops|, Pid(s, PostedBy(ev)))
  }

  lemma PostedOps(s: State, ev: Event)
    requires Shape(s) && IsPost(ev) && Enabled(s, ev) && PostedBy(ev) < |s.terms|
    ensures PostedBy(ev) < |Next(s, ev).terms|
    ensures Next(s, ev).terms[PostedBy(ev)].ops == s.terms[PostedBy(ev)].ops + [PostedOp(s, ev)]
    ensures Next(s, ev).terms[PostedBy(ev)].phase == PostedPhase(s, ev)
  {
    hide PostedOp, PostedPhase, Enabled;
  }

  lemma PostedPiped(s: State, ev: Event, s': State, r: nat)
    requires Posted(s, ev, s') && r < N(s)
    ensures Piped(s', PostedBy(ev), r)
  {
    hide Tokens, Answers, Ordered, Writes, Logs, PhaseOk, LeaderOk, DecidedOk, Enabled, Next;
    var a := PostedBy(ev);
    var n := |s.terms[a].ops|;
    PostedShape(s, ev);
    PostedOps(s, ev);
    assert RunOk(s, a) && Piped(s, a, r) && TermGrows(s, s', a);
    forall k | s'.terms[a].done[r] <= k < |s'.terms[a].ops| && Fills(s'.terms[a].ops[k], r)
      ensures Front(s', a, r, s'.terms[a].ops[k].slot, k)
    {
      PostedFront(s, ev, s', r, s'.terms[a].ops[k].slot, k);
    }
  }

  lemma PostedFrontier(s: State, ev: Event, s': State)
    requires Posted(s, ev, s') && !ev.PostCopy?
    ensures Frontier(s', PostedBy(ev))
  {
    hide PostedPhase, PostedOp, Enabled;
    var a := PostedBy(ev);
    PostedShape(s, ev);
    PostLeavesOthers(s, a, PostedOp(s, ev), PostedPhase(s, ev));
    forall r | 0 <= r < N(s') ensures Front(s', a, r, Leader(s', a).fuo, |s'.terms[a].ops|) {
      PostedFront(s, ev, s', r, Leader(s, a).fuo, |s.terms[a].ops|);
      FrontWiden(s', a, r, Leader(s, a).fuo, |s.terms[a].ops|, |s'.terms[a].ops|);
    }
  }

  lemma PostedCopyPhase(s: State, a: nat, r: nat, s': State)
    requires Posted(s, PostCopy(a, r), s')
    ensures PhaseOk(s', a)
  {
    hide Tokens, Answers, Ordered, Writes, Logs, LeaderOk, DecidedOk, Piped, Settled, SafeValue, SafeProp;
    var ev := PostCopy(a, r);
    PostedShape(s, ev);
    assert RunOk(s, a) && PhaseOk(s, a) && TermGrows(s, s', a);
    var upto, upto' := s.terms[a].phase.upto, s'.terms[a].phase.upto;
    var n, n' := |s.terms[a].ops|, |s'.terms[a].ops|;
    forall q | q in upto' ensures Front(s', a, q, upto'[q], n') {
      PostedFront(s, ev, s', q, upto[q], n);
      FrontWiden(s', a, q, upto[q], n, n');
      if q == r {
        assert Fills(s'.terms[a].ops[n], r) && s'.terms[a].ops[n].slot == upto[r];
        assert Covered(s', a, r, upto[r], n');
      }
    }
  }

  /** A term that has just posted its own value goes on to, or stays on, the fast path. */
  lemma PostedOwnValue(s: State, ev: Event, s': State)
    requires Posted(s, ev, s') && (ev.PostNew? || ev.PostFast?)
    ensures s'.terms[PostedBy(ev)].phase == PostedPhase(s, ev) && PostedPhase(s, ev).Write?
    ensures PostedPhase(s, ev).next.Fast? && FastOk(s', PostedBy(ev), PostedPhase(s, ev).next)
  {
    hide Tokens, Answers, Ordered, Writes, Logs, LeaderOk, DecidedOk, Piped, Frontier, FastOk;
    var a := PostedBy(ev);
    PostedShape(s, ev);
    PostLeavesOthers(s, a, PostedOp(s, ev), PostedPhase(s, ev));
    if ev.PostNew? {
      NewIsFast(s, a, ev.v);
    } else {
      FastIsOk(s, a, ev.v);
    }
    FastKept(s, s', a, PostedPhase(s, ev).next);
  }

  lemma PostedPhaseOk(s: State, ev: Event, s': State)
    requires Posted(s, ev, s')
    ensures PhaseOk(s', PostedBy(ev))
  {
    hide Tokens, Answers, Ordered, Writes, Logs, LeaderOk, DecidedOk, Piped, Frontier, FastOk, Enabled;
    hide Shape;
    var a := PostedBy(ev);
    PostedShape(s, ev);
    PostLeavesOthers(s, a, PostedOp(s, ev), PostedPhase(s, ev));
    if ev.PostCopy? {
      PostedCopyPhase(s, a, ev.r, s');
    } else {
      PostedFrontier(s, ev, s');
      if ev.PostNew? || ev.PostFast? {
        PostedOwnValue(s, ev, s');
      }
    }
  }

  lemma PostedLeader(s: State, ev: Event, s': State)
    requires Posted(s, ev, s')
    ensures LeaderOk(s', PostedBy(ev))
  {
    hide Tokens, Answers, Ordered, Writes, Logs, PhaseOk, DecidedOk, Piped, Frontier, Arrived, Enabled;
    hide Ids, Remotes, Acks;
    var a := PostedBy(ev);
    PostedShape(s, ev);
    PutsBelow(s, a);
    PostLeavesOthers(s, a, PostedOp(s, ev), PostedPhase(s, ev));
    assert RunOk(s, a);
    assert s'.terms[a].ops == s.terms[a].ops + [PostedOp(s, ev)];
  }

  lemma PostedDecided(s: State, ev: Event, s': State)
    requires Posted(s, ev, s')
    ensures DecidedOk(s', PostedBy(ev))
  {
    hide Tokens, Answers, Ordered, Writes, Logs, PhaseOk, LeaderOk, Piped, Frontier, Arrived, Next, Enabled;
    var a := PostedBy(ev);
    PostedShape(s, ev);
    PostedOps(s, ev);
    assert RunOk(s, a) && TermGrows(s, s', a);
    forall k | 0 <= k < |s.terms[a].ops| && s.terms[a].ops[k].Put? ensures ChosenBy(s', a, k) {
      ChosenByKept(s, s', a, k);
    }
  }

  lemma PostedLeaderOk(s: State, ev: Event, s': State)
    requires Posted(s, ev, s')
    ensures LeaderOk(s', PostedBy(ev)) && DecidedOk(s', PostedBy(ev))
  {
    hide LeaderOk, DecidedOk, Inv, Enabled, Next, Arrived;
    PostedLeader(s, ev, s');
    PostedDecided(s, ev, s');
  }

  lemma PostKeepsInv(s: State, ev: Event)
    requires Inv(s) && IsPost(ev) && Enabled(s, ev)
    ensures Inv(Next(s, ev))
  {
    hide Tokens, Answers, Ordered, Writes, Logs, Running, NewOpOk, PostedPhase, PostedOp, PhaseOk;
    hide Frontier, Piped, TermShape, RepShape, LastAcked, CopiesArrived;
    var s', a := Next(s, ev), PostedBy(ev);
    StepGrows(s, ev);
    PostIsOk(s, ev);
    PostArrives(s, a, PostedOp(s, ev), PostedPhase(s, ev));
    TokensKept(s, ev);
    AnswersKept(s, ev);
    OrderedKept(s, ev);
    WritesPosted(s, a, PostedOp(s, ev), PostedPhase(s, ev));
    PostLogs(s, ev, s');
    assert TermGrows(s, s', a);
    PostRuns(s, ev, s');
  }

  lemma PostRuns(s: State, ev: Event, s': State)
    requires Posted(s, ev, s')
    ensures Running(s')
  {
    hide Writes, Logs, PostedPhase, PostedOp, Enabled, TermShape, RepShape, Arrived, NothingArrived;
    var a := PostedBy(ev);
    PostLeavesOthers(s, a, PostedOp(s, ev), PostedPhase(s, ev));
    OthersRun(s, s', a);
    PostedPhaseOk(s, ev, s');
    PostedLeaderOk(s, ev, s');
    forall r | 0 <= r < N(s') ensures Piped(s', a, r) { PostedPiped(s, ev, s', r); }
    forall r | 0 <= r < N(s') ensures RepOk(s', r) {
      assert RepOk(s, r);
      RepKept(s, s', r);
    }
    ExclusiveEntered(s, s', a);
  }
}
