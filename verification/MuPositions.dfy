// Mu: where all stand.

module MuPositions {
  // Where a replica stands in its log: the two iterators, the header's offset and
  // the commit target keep step, but for one case, a leader that falls behind by one.

  import opened MuModel
  import opened MuHistory
  import opened MuElection
  import opened MuSafety
  import opened MuPhases
  import opened MuQuietSteps
  import opened MuDecideSteps

  /** Caught up; the iterator stands at the first undecided slot, or has looked at it. */
  predicate InStep(rep: Replica) {
    var c := |rep.committed|;
    rep.target == c && rep.fuo == c && (rep.seen == c || rep.seen == c + 1)
  }

  /** The last slot decided had been looked at before, as a follower: the leader
      found nothing new to sample, and has not committed that slot. */
  predicate Lags(rep: Replica) {
    var c := |rep.committed|;
    rep.target == c && rep.fuo == c + 1 && rep.seen == c + 1
  }

  /** Commits are still to be made, up to the target. */
  predicate Committing(rep: Replica) {
    |rep.committed| < rep.target && rep.target <= rep.seen <= rep.target + 1
  }

  predicate PosOk(rep: Replica) {
    InStep(rep) || Lags(rep) || Committing(rep)
  }

  ghost predicate Positions(s: State) {
    forall r :: 0 <= r < N(s) ==> PosOk(s.reps[r])
  }

  predicate SamePosition(rep: Replica, rep': Replica) {
    rep'.fuo == rep.fuo && rep'.seen == rep.seen && rep'.target == rep.target && rep'.committed == rep.committed
  }

  // ---------------------------------------------------------------------
  // Steps
  // ---------------------------------------------------------------------

  /** Only decisions, samples and commits move a position. */
  lemma OthersStayPut(s: State, ev: Event, r: nat)
    requires Shape(s) && Enabled(s, ev) && r < N(s)
    requires !ev.Decide? && !ev.Sample? && !ev.CommitOne?
    ensures N(Next(s, ev)) == N(s) && SamePosition(s.reps[r], Next(s, ev).reps[r])
  {
    hide Modulo, Max, LastAcked, TermShape, RepShape;
    if IsElection(ev) {
      ElectionStaysPut(s, ev, r);
    } else if IsQuiet(ev) {
      hide NextQuiet, Enabled;
      QuietIsMild(s, ev);
      assert Next(s, ev).reps[r] == s.reps[r].(propNr := Next(s, ev).reps[r].propNr);
    } else if IsPost(ev) {
      hide Enabled, PostedOp, PostedPhase;
      PostStaysPut(s, PostedBy(ev), PostedOp(s, ev), PostedPhase(s, ev), r);
    } else {
      hide NextQuiet, NextElection;
    }
  }

  lemma ElectionStaysPut(s: State, ev: Event, r: nat)
    requires Shape(s) && Enabled(s, ev) && IsElection(ev) && r < N(s)
    ensures N(Next(s, ev)) == N(s) && SamePosition(s.reps[r], Next(s, ev).reps[r])
  {
    var s' := NextElection(s, ev);
  }

  lemma PostStaysPut(s: State, a: nat, op: Op, phase: Phase, r: nat)
    requires a < |s.terms| && TermShape(s, a) && r < N(s)
    ensures N(Post(s, a, op, phase)) == N(s) && SamePosition(s.reps[r], Post(s, a, op, phase).reps[r])
  {}

  lemma SampledPosition(rep: Replica)
    requires PosOk(rep) && CaughtUp(rep) && rep.seen in rep.log && rep.log[rep.seen].fuo == rep.seen
    ensures PosOk(Sampled(rep)) && !Lags(Sampled(rep))
  {}

  lemma CommittedPosition(rep: Replica)
    requires PosOk(rep) && |rep.committed| < rep.target && |rep.committed| in rep.log
    ensures PosOk(OneMoreCommitted(rep)) && !Lags(OneMoreCommitted(rep))
  {}

  /** A decision leaves the leader behind exactly if it finds nothing to sample. */
  lemma DecidedPosition(rep: Replica)
    requires PosOk(rep) && CaughtUp(rep) && rep.fuo in rep.log
    ensures PosOk(Decided(rep))
    ensures Lags(Decided(rep)) <==> rep.seen !in rep.log
  {}

  lemma DecidesInLog(s: State, a: nat)
    requires Inv(s) && Enabled(s, Decide(a))
    ensures IsTerm(s, a) && CaughtUp(Leader(s, a)) && Leader(s, a).fuo in Leader(s, a).log
  {
    hide Tokens, Answers, Ordered, Writes, Logs, PhaseOk, DecidedOk, Piped;
    DecideChosen(s, a);
    assert RunOk(s, a) && LeaderOk(s, a);
  }

  lemma StepKeepsPositions(s: State, ev: Event)
    requires Inv(s) && Positions(s) && Enabled(s, ev)
    ensures Positions(Next(s, ev))
  {
    hide Tokens, Answers, Ordered, Writes, Logs, Running, PosOk, LastAcked, RepShape, NextQuiet, NextElection;
    var s' := Next(s, ev);
    StepGrows(s, ev);
    forall r | 0 <= r < N(s') ensures PosOk(s'.reps[r]) {
      if ev.Decide? {
        DecidesInLog(s, ev.a);
        DecideEffect(s, ev.a);
        assert PosOk(s.reps[Pid(s, ev.a)]);
        DecidedPosition(Leader(s, ev.a));
      } else if ev.Sample? {
        EmbeddedIsSlot(s, ev.r, s.reps[ev.r].seen);
        SampledPosition(s.reps[ev.r]);
      } else if ev.CommitOne? {
        CommittedPosition(s.reps[ev.r]);
      } else {
        hide Next;
        OthersStayPut(s, ev, r);
        SamePositionOk(s.reps[r], s'.reps[r]);
      }
    }
  }

  lemma SamePositionOk(rep: Replica, rep': Replica)
    requires PosOk(rep) && SamePosition(rep, rep')
    ensures PosOk(rep')
  {}
}
