// The invariant survives the arrival of a write at a follower.

module MuDeliverSteps {
  import opened Quorums
  import opened MuModel
  import opened MuHistory
  import opened MuElection
  import opened MuSafety
  import opened MuWrites
  import opened MuLogs
  import opened MuPhases
  import opened MuQuietSteps
  import opened MuLeaderSteps
  import opened MuPostSteps

  ghost predicate Delivers(s: State, a: nat, r: nat, s': State) {
    && Inv(s) && Carries(s, s') && Base(s')
    && IsTerm(s, a) && IsTerm(s', a) && r < N(s) && r != Pid(s, a) && Arrived(s, s', a, s.terms[a].done[r], r)
    && s'.terms[a].ops == s.terms[a].ops && s'.terms[a].phase == s.terms[a].phase
  }

  lemma DeliverArrives(s: State, a: nat, r: nat)
    requires Shape(s) && Enabled(s, Deliver(a, r)) && Grows(s, Next(s, Deliver(a, r)))
    ensures Arrived(s, Next(s, Deliver(a, r)), a, s.terms[a].done[r], r)
    ensures OthersStay(s, Next(s, Deliver(a, r)), a) && LeaderStays(s, Next(s, Deliver(a, r)), a)
    ensures forall q :: 0 <= q < N(s) ==> SameHeader(s.reps[q], Next(s, Deliver(a, r)).reps[q])
  {
    var s' := Delivered(s, a, r);
    assert TermGrows(s, s', a);
    forall b, q | 0 <= b < |s.terms| && 0 <= q < N(s) && !(b == a && q == r) ensures SameDone(s, s', b, q) {
      assert TermGrows(s, s', b);
    }
    forall b | 0 <= b < |s.terms| && b != a ensures TermStays(s, s', b) && LeaderStays(s, s', b) {
      assert TermGrows(s, s', b);
    }
  }

  /** On arrival everything below the slot is in place. */
  lemma DeliverReady(s: State, a: nat, r: nat)
    requires Inv(s) && Enabled(s, Deliver(a, r))
    ensures IsTerm(s, a)
    ensures Fills(s.terms[a].ops[s.terms[a].done[r]], r) ==>
              forall i :: 0 <= i < s.terms[a].ops[s.terms[a].done[r]].slot ==> Settled(s, r, i)
  {
    var k := s.terms[a].done[r];
    assert RunOk(s, a) && Piped(s, a, r);
    if Fills(s.terms[a].ops[k], r) {
      forall i | 0 <= i < s.terms[a].ops[k].slot ensures Settled(s, r, i) {
        assert Covered(s, a, r, i, k);
      }
    }
  }

  lemma DeliverKeepsBase(s: State, a: nat, r: nat)
    requires Inv(s) && Enabled(s, Deliver(a, r)) && Grows(s, Next(s, Deliver(a, r)))
    requires IsTerm(s, a) && Arrived(s, Next(s, Deliver(a, r)), a, s.terms[a].done[r], r)
    requires s.terms[a].done[r] < |s.terms[a].ops| && Next(s, Deliver(a, r)).terms[a].ops == s.terms[a].ops
    ensures Base(Next(s, Deliver(a, r))) && Carries(s, Next(s, Deliver(a, r)))
  {
    hide Tokens, Answers, Ordered, Writes, Logs, Running, Mild, Carries, Next, Enabled;
    var ev := Deliver(a, r);
    TokensKept(s, ev);
    AnswersKept(s, ev);
    OrderedKept(s, ev);
    WritesKeptQuietly(s, ev);
    DeliverReady(s, a, r);
    LogsArrived(s, Next(s, ev), a, s.terms[a].done[r], r);
    ArrivalCarries(s, Next(s, ev), a, s.terms[a].done[r], r);
  }

  lemma DeliverBase(s: State, a: nat, r: nat)
    requires Inv(s) && Enabled(s, Deliver(a, r))
    ensures Delivers(s, a, r, Next(s, Deliver(a, r)))
    ensures OthersStay(s, Next(s, Deliver(a, r)), a) && LeaderStays(s, Next(s, Deliver(a, r)), a)
  {
    hide Tokens, Answers, Ordered, Writes, Logs, Running, Mild, Base, Carries, Arrived;
    var s' := Next(s, Deliver(a, r));
    StepGrows(s, Deliver(a, r));
    DeliverArrives(s, a, r);
    DeliverKeepsBase(s, a, r);
    assert TermGrows(s, s', a);
  }

  /** The arriving write is chosen, or it is the value still under decision. */
  lemma FrontDelivered(s: State, a: nat, r: nat, s': State, n: nat, k: nat)
    requires Delivers(s, a, r, s') && k <= |s.terms[a].ops| && Front(s, a, r, n, k)
    requires var d := s.terms[a].done[r];
             d < k && s.terms[a].ops[d].Put? && s.terms[a].ops[d].slot < n ==> ChosenBy(s, a, d)
    ensures Front(s', a, r, n, k)
  {
    hide Tokens, Answers, Ordered, Writes, Logs, PhaseOk, LeaderOk, DecidedOk, Piped, Settled;
    var d := s.terms[a].done[r];
    var op := s.terms[a].ops[d];
    if Fills(op, r) && op.slot < n && d < k {
      if op.Put? { ChosenByKept(s, s', a, d); }
      ArrivalSettles(s, s', a, d, r);
    }
    forall i | 0 <= i < n ensures Covered(s', a, r, i, k) {
      assert Covered(s, a, r, i, k);
      if !Settled(s, r, i) {
        var j :| d <= j < k && j < |s.terms[a].ops| && Fills(s.terms[a].ops[j], r) && s.terms[a].ops[j].slot == i;
        if j > d {
          assert s'.terms[a].done[r] <= j < k && Fills(s'.terms[a].ops[j], r) && s'.terms[a].ops[j].slot == i;
        }
      }
    }
  }

  lemma FrontAnywhere(s: State, a: nat, r: nat, s': State, q: nat, n: nat, k: nat)
    requires Delivers(s, a, r, s') && q < N(s) && k <= |s.terms[a].ops| && Front(s, a, q, n, k)
    requires var d := s.terms[a].done[r];
             d < k && s.terms[a].ops[d].Put? && s.terms[a].ops[d].slot < n ==> ChosenBy(s, a, d)
    ensures Front(s', a, q, n, k)
  {
    if q == r {
      FrontDelivered(s, a, r, s', n, k);
    } else {
      assert SameDone(s, s', a, q);
      FrontKept(s, s', a, q, n, k);
    }
  }

  lemma PipedDelivered(s: State, a: nat, r: nat, s': State, q: nat)
    requires Delivers(s, a, r, s') && q < N(s)
    ensures Piped(s', a, q)
  {
    assert RunOk(s, a) && DecidedOk(s, a) && Piped(s, a, q) && TermGrows(s, s', a);
    var d := s.terms[a].done[r];
    forall k | s'.terms[a].done[q] <= k < |s'.terms[a].ops| && Fills(s'.terms[a].ops[k], q)
      ensures Front(s', a, q, s'.terms[a].ops[k].slot, k)
    {
      FrontAnywhere(s, a, r, s', q, s.terms[a].ops[k].slot, k);
    }
  }

  lemma FrontierDelivered(s: State, a: nat, r: nat, s': State)
    requires Delivers(s, a, r, s') && Frontier(s, a) && LeaderStays(s, s', a) && InCharge(s, a)
        && !s.terms[a].phase.Dead?
    ensures Frontier(s', a)
  {
    hide Next, Ordered, Tokens, Answers, Writes, Arrived, NothingArrived, Ids, Remotes, Acks;
    assert RunOk(s, a) && DecidedOk(s, a) && PhaseOk(s, a);
    var d := s.terms[a].done[r];
    forall q | 0 <= q < N(s') ensures Front(s', a, q, Leader(s', a).fuo, |s'.terms[a].ops|) {
      FrontAnywhere(s, a, r, s', q, Leader(s, a).fuo, |s.terms[a].ops|);
    }
  }

  lemma UpdateDelivered(s: State, a: nat, r: nat, s': State)
    requires Delivers(s, a, r, s') && s.terms[a].phase.Update?
    ensures PhaseOk(s', a)
  {
    assert RunOk(s, a) && DecidedOk(s, a) && PhaseOk(s, a) && TermGrows(s, s', a);
    var upto := s.terms[a].phase.upto;
    forall q | q in upto ensures Front(s', a, q, upto[q], |s'.terms[a].ops|) {
      FrontAnywhere(s, a, r, s', q, upto[q], |s.terms[a].ops|);
    }
  }

  lemma PropsDelivered(s: State, a: nat, r: nat, s': State)
    requires Delivers(s, a, r, s') && LeaderStays(s, s', a) && s.terms[a].phase.CatchProp?
    ensures PhaseOk(s', a)
  {
    hide Tokens, Answers, Ordered, Writes, Logs, LeaderOk, DecidedOk, Piped, Frontier, PropRead;
    assert RunOk(s, a) && PhaseOk(s, a) && TermGrows(s, s', a);
    FrontierDelivered(s, a, r, s');
    var props := s.terms[a].phase.props;
    forall q | q in props ensures q in s'.terms[a].touched && PropRead(s', a, q, props[q]) {
      PropReadKept(s, s', a, q, props[q]);
    }
  }

  lemma LateDelivered(s: State, a: nat, r: nat, s': State)
    requires Delivers(s, a, r, s') && LeaderStays(s, s', a)
    requires s.terms[a].phase.CatchProp? || s.terms[a].phase.UpdProp? || s.terms[a].phase.ReadSlot?
             || s.terms[a].phase.Write?
    ensures PhaseOk(s', a)
  {
    hide Tokens, Answers, Ordered, Writes, Logs, DecidedOk, Piped, Frontier, PropRead, FastOk;
    assert RunOk(s, a) && PhaseOk(s, a) && TermGrows(s, s', a);
    FrontierDelivered(s, a, r, s');
    match s.terms[a].phase
    case CatchProp(props) => PropsDelivered(s, a, r, s');
    case UpdProp =>
    case ReadSlot(slots) =>
      HasPropKept(s, s', a, Leader(s, a).propNr);
      SlotsKept(s, s', a, Leader(s, a).fuo, slots);
    case Write(next) =>
      if next.Fast? { FastKept(s, s', a, next); }
  }

  lemma PhaseDelivered(s: State, a: nat, r: nat, s': State)
    requires Delivers(s, a, r, s') && LeaderStays(s, s', a)
    ensures PhaseOk(s', a)
  {
    assert RunOk(s, a) && PhaseOk(s, a) && TermGrows(s, s', a);
    var phase := s.terms[a].phase;
    if phase.Update? {
      UpdateDelivered(s, a, r, s');
    } else if phase.Busy() && !phase.CatchFuo? {
      LateDelivered(s, a, r, s');
    } else if phase.Fast? && Own(s', a) {
      FrontierDelivered(s, a, r, s');
      FastKept(s, s', a, phase);
    }
  }

  lemma DeliverKeepsInv(s: State, a: nat, r: nat)
    requires Inv(s) && Enabled(s, Deliver(a, r))
    ensures Inv(Next(s, Deliver(a, r)))
  {
    hide Writes, PhaseOk, Frontier, Piped, Enabled, Logs, DecidedOk;
    var s' := Next(s, Deliver(a, r));
    DeliverBase(s, a, r);
    DeliverArrives(s, a, r);
    OthersRun(s, s', a);
    assert RunOk(s, a) && TermGrows(s, s', a);
    PhaseDelivered(s, a, r, s');
    DecidedKept(s, s', a);
    forall q | 0 <= q < N(s') ensures Piped(s', a, q) { PipedDelivered(s, a, r, s', q); }
    forall q | 0 <= q < N(s') ensures RepOk(s', q) {
      assert RepOk(s, q);
      RepKept(s, s', q);
    }
    ExclusiveKept(s, s');
  }
}
