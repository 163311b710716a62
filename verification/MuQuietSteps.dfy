// The invariant survives the steps in which no write arrives anywhere: election
// steps, the start of a term, reads and phase changes, decisions and commits.

module MuQuietSteps {
  import opened MuModel
  import opened MuHistory
  import opened MuElection
  import opened MuSafety
  import opened MuWrites
  import opened MuLogs
  import opened MuPhases

  // ---------------------------------------------------------------------
  // Common to all of them
  // ---------------------------------------------------------------------

  /** The whole invariant but the part about running leaders and commits. */
  ghost predicate Base(s: State) {
    Shape(s) && Tokens(s) && Answers(s) && Ordered(s) && Writes(s) && Logs(s)
  }

  lemma QuietCarries(s: State, s': State)
    requires NothingArrived(s, s')
    ensures Carries(s, s')
  {
    forall q, i | 0 <= q < N(s) && 0 <= i && Settled(s, q, i) ensures Settled(s', q, i) {
      SettledKeptQuietly(s, s', q, i);
    }
  }

  lemma BaseKept(s: State, ev: Event)
    requires Base(s) && Enabled(s, ev) && !IsPost(ev) && NothingArrived(s, Next(s, ev))
    ensures Base(Next(s, ev)) && Carries(s, Next(s, ev))
  {
    TokensKept(s, ev);
    AnswersKept(s, ev);
    OrderedKept(s, ev);
    WritesKeptQuietly(s, ev);
    LogsKept(s, Next(s, ev));
    QuietCarries(s, Next(s, ev));
  }

  /** Terms other than a go on as before, and the replicas too. */
  ghost predicate OthersStay(s: State, s': State, a: nat)
    requires Grows(s, s')
  {
    && |s'.terms| == |s.terms|
    && (forall b :: 0 <= b < |s.terms| && b != a ==> TermStays(s, s', b) && LeaderStays(s, s', b))
  }

  lemma OthersRun(s: State, s': State, a: nat)
    requires Carries(s, s') && Running(s) && OthersStay(s, s', a)
    ensures forall b :: 0 <= b < |s'.terms| && b != a ==> RunOk(s', b)
  {
    forall b | 0 <= b < |s'.terms| && b != a ensures RunOk(s', b) {
      assert RunOk(s, b) && TermGrows(s, s', b);
      RunKept(s, s', b);
    }
  }

  /** Mutual exclusion survives as long as nobody new gets busy. */
  lemma ExclusiveKept(s: State, s': State)
    requires Grows(s, s') && Exclusive(s) && |s'.terms| == |s.terms|
    requires forall b :: 0 <= b < |s.terms| && IsTerm(s, b) && s'.terms[b].phase.Busy() ==> s.terms[b].phase.Busy()
    ensures Exclusive(s')
  {
    forall a, b | 0 <= a < |s'.terms| && 0 <= b < |s'.terms| && a != b && IsTerm(s', a) && IsTerm(s', b)
        && Pid(s', a) == Pid(s', b)
      ensures !(InCharge(s', a) && s'.terms[b].phase.Busy())
    {
      assert TermGrows(s, s', a) && TermGrows(s, s', b);
    }
  }

  /** A term that is in charge is the only one of its replica: it may get busy. */
  lemma ExclusiveEntered(s: State, s': State, a: nat)
    requires Grows(s, s') && Exclusive(s) && Tokens(s) && |s'.terms| == |s.terms|
    requires IsTerm(s, a) && Own(s, a)
    requires forall b :: 0 <= b < |s.terms| && b != a && IsTerm(s, b) && s'.terms[b].phase.Busy() ==>
          s.terms[b].phase.Busy()
    ensures Exclusive(s')
  {
    forall x, b | 0 <= x < |s'.terms| && 0 <= b < |s'.terms| && x != b && IsTerm(s', x) && IsTerm(s', b)
        && Pid(s', x) == Pid(s', b)
      ensures !(InCharge(s', x) && s'.terms[b].phase.Busy())
    {
      assert TermGrows(s, s', x) && TermGrows(s, s', b);
      assert b == a ==> s.terms[x].tok != s.terms[a].tok;
    }
  }

  // ---------------------------------------------------------------------
  // Election steps and the start of a term
  // ---------------------------------------------------------------------

  lemma ElectionArrivesNothing(s: State, ev: Event)
    requires Shape(s) && IsElection(ev) && Enabled(s, ev) && Grows(s, Next(s, ev))
    ensures NothingArrived(s, Next(s, ev))
    ensures Next(s, ev).terms == s.terms
    ensures forall r :: 0 <= r < N(s) ==> SameData(s.reps[r], Next(s, ev).reps[r])
  {
    var s' := NextElection(s, ev);
    forall b, q | 0 <= b < |s.terms| && 0 <= q < N(s) ensures SameDone(s, s', b, q) {
      assert TermGrows(s, s', b);
    }
  }

  predicate SameData(rep: Replica, rep': Replica) {
    && rep'.log == rep.log && rep'.minProp == rep.minProp && rep'.propNr == rep.propNr
    && rep'.fuo == rep.fuo && rep'.target == rep.target && rep'.committed == rep.committed && rep'.seen == rep.seen
  }

  lemma ElectionKeepsInv(s: State, ev: Event)
    requires Inv(s) && IsElection(ev) && Enabled(s, ev)
    ensures Inv(Next(s, ev))
  {
    hide Chosen, ChosenBy, RunOk, RepOk, Exclusive, Next, Ordered, Tokens, Answers, Writes, Logs;
    hide Frontier, Piped, Settled, SafeValue, SafeProp, Grows, Mild, Enabled, Arrived, NothingArrived;
    var s' := Next(s, ev);
    StepGrows(s, ev);
    ElectionArrivesNothing(s, ev);
    BaseKept(s, ev);
    assert OthersStay(s, s', |s.terms|) by {
      forall b | 0 <= b < |s.terms| ensures TermStays(s, s', b) && LeaderStays(s, s', b) {
        assert TermGrows(s, s', b);
      }
    }
    OthersRun(s, s', |s.terms|);
    forall r | 0 <= r < N(s') ensures RepOk(s', r) {
      assert RepOk(s, r);
      RepKept(s, s', r);
    }
    ExclusiveKept(s, s');
  }

  lemma StartArrivesNothing(s: State, p: nat)
    requires Shape(s) && StartEnabled(s, p) && Grows(s, Started(s, p))
    ensures NothingArrived(s, Started(s, p))
  {
    var s' := Started(s, p);
    forall b, q | 0 <= b < |s.terms| && 0 <= q < N(s) ensures SameDone(s, s', b, q) {
      assert TermGrows(s, s', b);
    }
  }

  lemma StartExclusive(s: State, p: nat)
    requires Shape(s) && Exclusive(s) && StartEnabled(s, p) && Grows(s, Started(s, p))
    ensures Exclusive(Started(s, p))
  {
    hide MayLead, FastLeft, Modulo, RepShape;
    var s' := Started(s, p);
    assert !BusyAt(s, p) by { NotBusy(s, p); }
    forall a, b | 0 <= a < |s'.terms| && 0 <= b < |s'.terms| && a != b && IsTerm(s', a) && IsTerm(s', b)
        && Pid(s', a) == Pid(s', b)
      ensures !(InCharge(s', a) && s'.terms[b].phase.Busy())
    {
      if b < |s.terms| {
        assert TermGrows(s, s', b);
        if a < |s.terms| {
          assert TermGrows(s, s', a);
        }
      }
    }
  }

  lemma NotBusy(s: State, p: nat)
    requires Shape(s) && StartEnabled(s, p)
    ensures !BusyAt(s, p)
  {}

  lemma StartKeepsInv(s: State, p: nat)
    requires Inv(s) && StartEnabled(s, p)
    ensures Inv(Next(s, Start(p)))
  {
    hide Ordered, Tokens, Answers, Writes, TermOk, Unique, TermGrows, Grows, Mild, MildTerm, TermShape,
         RepShape, Arrived, NothingArrived;
    var s' := Next(s, Start(p));
    StepGrows(s, Start(p));
    StartArrivesNothing(s, p);
    BaseKept(s, Start(p));
    forall b | 0 <= b < |s'.terms| ensures RunOk(s', b) {
      if b < |s.terms| {
        assert TermGrows(s, s', b) && RunOk(s, b);
        assert forall r :: 0 <= r < N(s) ==> SameDone(s, s', b, r);
        RunKept(s, s', b);
      } else {
        assert TermShape(s', b);
      }
    }
    forall r | 0 <= r < N(s') ensures RepOk(s', r) {
      assert RepOk(s, r);
      RepKept(s, s', r);
    }
    StartExclusive(s, p);
  }

  // ---------------------------------------------------------------------
  // Followers and commits
  // ---------------------------------------------------------------------

  lemma EmbeddedIsSlot(s: State, r: nat, slot: nat)
    requires Shape(s) && Writes(s) && Logs(s) && r < N(s) && slot in s.reps[r].log
    ensures s.reps[r].log[slot].fuo == slot
  {
    assert LogOk(s, r) && Origin(s, r, slot);
    var e := s.reps[r].log[slot];
    assert TermOk(s, e.term);
  }

  lemma FollowerArrivesNothing(s: State, ev: Event)
    requires Shape(s) && Enabled(s, ev) && (ev.Sample? || ev.CommitOne?) && Grows(s, Next(s, ev))
    ensures NothingArrived(s, Next(s, ev)) && Next(s, ev).terms == s.terms
  {
    var s' := Next(s, ev);
    forall b, q | 0 <= b < |s.terms| && 0 <= q < N(s) ensures SameDone(s, s', b, q) {
      assert TermGrows(s, s', b);
    }
  }

  lemma InChargeOccupies(s: State, b: nat)
    requires Shape(s) && b < |s.terms| && IsTerm(s, b)
    ensures InCharge(s, b) ==> Leading(s, Pid(s, b)) || BusyAt(s, Pid(s, b))
  {}

  /** A follower that samples or commits moves no header a leader relies on. */
  lemma FollowerLeavesLeaders(s: State, ev: Event, b: nat)
    requires Inv(s) && Enabled(s, ev) && (ev.Sample? || ev.CommitOne?) && Grows(s, Next(s, ev))
    requires b < |s.terms| && Next(s, ev).terms == s.terms
    ensures LeaderStays(s, Next(s, ev), b)
  {
    hide Tokens, Answers, Ordered, Writes, Logs, PhaseOk, DecidedOk, Piped;
    var s' := Next(s, ev);
    assert TermGrows(s, s', b) && RunOk(s, b) && LeaderOk(s, b);
    InChargeOccupies(s, b);
  }

  lemma SampleOk(s: State, r: nat, s': State)
    requires Inv(s) && Enabled(s, Sample(r)) && s' == Next(s, Sample(r)) && Carries(s, s')
    ensures RepOk(s', r)
  {
    var rep := s.reps[r];
    assert RepOk(s, r) && LogOk(s, r) && NoHoles(s, r);
    EmbeddedIsSlot(s, r, rep.seen);
    forall i | 0 <= i < |rep.committed| ensures Chosen(s', i, rep.committed[i]) {
      ChosenKept(s, s', i, rep.committed[i]);
    }
  }

  lemma CommitOk(s: State, r: nat, s': State)
    requires Inv(s) && Enabled(s, CommitOne(r)) && s' == Next(s, CommitOne(r)) && Carries(s, s')
    ensures RepOk(s', r)
  {
    hide Chosen, ChosenBy, Shape, Max, Multiple, Decided, Delivered, Started, Granted, Answered, Written;
    hide Post;
    var rep, rep' := s.reps[r], s'.reps[r];
    assert RepOk(s, r);
    forall i | 0 <= i < |rep'.committed| ensures Chosen(s', i, rep'.committed[i]) {
      if i < |rep.committed| {
        ChosenKept(s, s', i, rep.committed[i]);
      } else {
        SettledIsChosen(s, r, i);
        ChosenKept(s, s', i, rep.log[i].val);
      }
    }
  }

  lemma FollowerKeepsInv(s: State, ev: Event)
    requires Inv(s) && Enabled(s, ev) && (ev.Sample? || ev.CommitOne?)
    ensures Inv(Next(s, ev))
  {
    hide Enabled, Logs, Ordered, Tokens, Answers, Writes, Frontier, Piped, RunOk, RepOk, Exclusive;
    var s' := Next(s, ev);
    StepGrows(s, ev);
    FollowerArrivesNothing(s, ev);
    BaseKept(s, ev);
    assert OthersStay(s, s', |s.terms|) by {
      forall b | 0 <= b < |s.terms| ensures TermStays(s, s', b) && LeaderStays(s, s', b) {
        FollowerLeavesLeaders(s, ev, b);
      }
    }
    OthersRun(s, s', |s.terms|);
    forall r | 0 <= r < N(s') ensures RepOk(s', r) {
      assert RepOk(s, r);
      if r != ev.r {
        RepKept(s, s', r);
      } else if ev.Sample? {
        SampleOk(s, r, s');
      } else {
        CommitOk(s, r, s');
      }
    }
    ExclusiveKept(s, s');
  }

  // ---------------------------------------------------------------------
  // Reads and phase changes of a leader
  // ---------------------------------------------------------------------

  /** Only the moving term and its leader's proposal number change. */
  lemma QuietEffect(s: State, ev: Event)
    requires Shape(s) && IsQuiet(ev) && Enabled(s, ev)
    ensures ev.a < |s.terms| && IsTerm(s, ev.a)
    ensures |Next(s, ev).terms| == |s.terms| && N(Next(s, ev)) == N(s)
    ensures forall b :: 0 <= b < |s.terms| && b != ev.a ==> Next(s, ev).terms[b] == s.terms[b]
    ensures !ev.RetryProp? ==> Next(s, ev).reps == s.reps
    ensures forall r :: 0 <= r < N(s) && r != Pid(s, ev.a) ==> Next(s, ev).reps[r] == s.reps[r]
  {
    var s' := NextQuiet(s, ev);
  }

  lemma QuietArrivesNothing(s: State, ev: Event)
    requires Shape(s) && IsQuiet(ev) && Enabled(s, ev) && Grows(s, Next(s, ev))
    ensures NothingArrived(s, Next(s, ev)) && Mild(s, Next(s, ev))
    ensures |Next(s, ev).terms| == |s.terms| && N(Next(s, ev)) == N(s)
    ensures ev.a < |s.terms|
    ensures forall b :: 0 <= b < |s.terms| && b != ev.a ==> Next(s, ev).terms[b] == s.terms[b]
    ensures Next(s, ev).terms[ev.a].ops == s.terms[ev.a].ops
    ensures Next(s, ev).terms[ev.a].done == s.terms[ev.a].done
    ensures forall r :: 0 <= r < N(s) ==> Next(s, ev).reps[r] == s.reps[r].(propNr := Next(s, ev).reps[r].propNr)
    ensures !ev.RetryProp? ==> Next(s, ev).reps == s.reps
    ensures forall r :: 0 <= r < N(s) && r != Pid(s, ev.a) ==> Next(s, ev).reps[r] == s.reps[r]
  {
    QuietIsMild(s, ev);
    QuietEffect(s, ev);
    MildArrivesNothing(s, Next(s, ev));
    assert MildTerm(s.terms[ev.a], Next(s, ev).terms[ev.a]);
  }

  lemma MildArrivesNothing(s: State, s': State)
    requires Grows(s, s') && Mild(s, s')
    ensures NothingArrived(s, s')
  {
    forall b, q | 0 <= b < |s.terms| && 0 <= q < N(s) ensures SameDone(s, s', b, q) {
      assert TermGrows(s, s', b) && MildTerm(s.terms[b], s'.terms[b]);
    }
  }

  /** Terms other than the one that moves keep their leader's header. */
  lemma QuietLeavesLeaders(s: State, ev: Event, b: nat)
    requires Inv(s) && IsQuiet(ev) && Enabled(s, ev) && Grows(s, Next(s, ev))
    requires b < |s.terms| && b != ev.a
    ensures ev.a < |s.terms| && LeaderStays(s, Next(s, ev), b)
  {
    hide Tokens, Answers, Ordered, Writes, Logs, RunOk, RepOk, Next, Enabled, Mild, NothingArrived;
    var s' := Next(s, ev);
    QuietArrivesNothing(s, ev);
    assert TermGrows(s, s', b) && TermGrows(s, s', ev.a);
    if ev.RetryProp? {
      NumberSteps(s, ev.a);
      assert InCharge(s, b) ==> Pid(s, b) != Pid(s, ev.a);
    } else {
      QuietKeepsNumbers(s, ev);
    }
    hide Exclusive, LeaderStays;
    SameLeaderStays(s, s', b);
  }

  lemma SameLeaderStays(s: State, s': State, b: nat)
    requires Grows(s, s') && b < |s.terms| && s'.terms[b] == s.terms[b] && IsTerm(s, b) && IsTerm(s', b)
    requires InCharge(s, b) ==> s'.reps[Pid(s, b)] == s.reps[Pid(s, b)]
    ensures LeaderStays(s, s', b)
  {
    hide TermGrows, Shape, RepShape;
  }

  lemma NumberSteps(s: State, a: nat)
    requires Shape(s) && Enabled(s, RetryProp(a))
    ensures N(Next(s, RetryProp(a))) == N(s) && IsTerm(s, a) && s.terms[a].phase.Busy()
    ensures forall r :: 0 <= r < N(s) && r != Pid(s, a) ==> Next(s, RetryProp(a)).reps[r] == s.reps[r]
  {
    hide RepShape, ProposalIsHigh;
  }

  lemma QuietKeepsNumbers(s: State, ev: Event)
    requires Shape(s) && IsQuiet(ev) && Enabled(s, ev) && !ev.RetryProp?
    ensures Next(s, ev).reps == s.reps
  {
    hide RepShape, ProposalIsHigh, LastAcked, ProposalsRead, EndUpdateEnabled;
  }

  /** The moving term: what remains is its phase. */
  lemma QuietRun(s: State, ev: Event)
    requires Inv(s) && IsQuiet(ev) && Enabled(s, ev)
    requires Carries(s, Next(s, ev)) && Base(Next(s, ev))
    requires ev.a < |s.terms| && IsTerm(s, ev.a) && IsTerm(Next(s, ev), ev.a)
    requires PhaseOk(Next(s, ev), ev.a)
    ensures RunOk(Next(s, ev), ev.a)
  {
    hide Next, Ordered, Tokens, Answers, Writes, Logs, PhaseOk, Frontier, Piped, Arrived, NothingArrived;
    var s', a := Next(s, ev), ev.a;
    QuietArrivesNothing(s, ev);
    assert RunOk(s, a) && LeaderOk(s, a) && TermGrows(s, s', a);
    QuietLeaderOk(s, ev);
    DecidedKept(s, s', a);
    forall r | 0 <= r < N(s') ensures Piped(s', a, r) {
      assert SameDone(s, s', a, r);
      PipedKept(s, s', a, r);
    }
  }

  /** The phases a quiet step leaves are not those in which a value is under way. */
  lemma QuietPhases(s: State, ev: Event)
    requires Shape(s) && IsQuiet(ev) && Enabled(s, ev)
    ensures ev.a < |s.terms| && ev.a < |Next(s, ev).terms|
    ensures !Next(s, ev).terms[ev.a].phase.Write?
    ensures Next(s, ev).terms[ev.a].phase.Dead? || !(s.terms[ev.a].phase.Write? || s.terms[ev.a].phase.Dead?)
    ensures Next(s, ev).terms[ev.a].phase.Busy() && !ev.BeginSlow? ==> s.terms[ev.a].phase.Busy()
    ensures ev.BeginSlow? ==>
          Own(s, ev.a) && CaughtUp(Leader(s, ev.a)) && Pid(s, ev.a) in Next(s, ev).terms[ev.a].touched
    ensures ev.Abort? ==> Next(s, ev).terms[ev.a].phase.Dead?
  {
    var s' := NextQuiet(s, ev);
  }

  lemma QuietLeaderOk(s: State, ev: Event)
    requires Inv(s) && IsQuiet(ev) && Enabled(s, ev) && Grows(s, Next(s, ev))
    requires ev.a < |s.terms| && IsTerm(s, ev.a) && IsTerm(Next(s, ev), ev.a)
    ensures LeaderOk(Next(s, ev), ev.a)
    ensures Next(s, ev).terms[ev.a].phase.Dead? || !(s.terms[ev.a].phase.Write? || s.terms[ev.a].phase.Dead?)
  {
    hide Next, Enabled, Writes, Logs, DecidedOk, PropRead, FastOk;
    var s', a := Next(s, ev), ev.a;
    QuietArrivesNothing(s, ev);
    QuietPhases(s, ev);
    assert RunOk(s, a) && TermGrows(s, s', a);
    QuietCharge(s, s', a);
  }

  /** What LeaderOk says carries over when only phase and proposal number move. */
  lemma QuietCharge(s: State, s': State, a: nat)
    requires Grows(s, s') && a < |s.terms| && IsTerm(s, a) && IsTerm(s', a) && TermGrows(s, s', a)
    requires LeaderOk(s, a) && PhaseOk(s, a) && s'.terms[a].ops == s.terms[a].ops
    requires Leader(s', a) == Leader(s, a).(propNr := Leader(s', a).propNr)
    requires !s'.terms[a].phase.Write?
    requires s'.terms[a].phase.Dead? || !(s.terms[a].phase.Write? || s.terms[a].phase.Dead?)
    requires s'.terms[a].phase.Busy() && !s.terms[a].phase.Busy() ==>
               Own(s, a) && CaughtUp(Leader(s, a)) && Pid(s, a) in s'.terms[a].touched
    ensures LeaderOk(s', a)
  {
    assert InCharge(s', a) ==> InCharge(s, a);
  }

  /** Only BeginSlow makes a leadership busy, and only one that leads. */
  lemma QuietStaysFree(s: State, ev: Event)
    requires Shape(s) && IsQuiet(ev) && Enabled(s, ev)
    requires ev.a < |s.terms| && ev.a < |Next(s, ev).terms|
    ensures ev.BeginSlow? ==> IsTerm(s, ev.a) && Own(s, ev.a)
    ensures !ev.BeginSlow? && Next(s, ev).terms[ev.a].phase.Busy() ==> s.terms[ev.a].phase.Busy()
  {
  }

  lemma QuietKeepsInv(s: State, ev: Event)
    requires Inv(s) && IsQuiet(ev) && Enabled(s, ev)
    requires Grows(s, Next(s, ev)) && Base(Next(s, ev)) && Carries(s, Next(s, ev))
    requires ev.a < |s.terms| && IsTerm(s, ev.a) && IsTerm(Next(s, ev), ev.a) && PhaseOk(Next(s, ev), ev.a)
    ensures Inv(Next(s, ev))
  {
    hide Next, NextQuiet, Enabled, Ordered, Tokens, Answers, Writes, TermOk, Logs, LogOk, PhaseOk, LeaderOk, RepOk;
    var s', a := Next(s, ev), ev.a;
    QuietArrivesNothing(s, ev);
    QuietRun(s, ev);
    assert OthersStay(s, s', a) by {
      forall b | 0 <= b < |s.terms| && b != a ensures TermStays(s, s', b) && LeaderStays(s, s', b) {
        QuietLeavesLeaders(s, ev, b);
      }
    }
    OthersRun(s, s', a);
    forall r | 0 <= r < N(s') ensures RepOk(s', r) {
      assert RepOk(s, r);
      RepKept(s, s', r);
    }
    QuietStaysFree(s, ev);
    if ev.BeginSlow? {
      ExclusiveEntered(s, s', a);
    } else {
      ExclusiveKept(s, s');
    }
  }
}
