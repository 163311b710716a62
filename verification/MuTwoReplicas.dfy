// Pieces of runs of two replicas, out of which the runs that go wrong are built:
// an election, the slow path up to the read of the slot, a write that gets decided.

module MuTwoReplicas {
  import opened Options
  import opened Quorums
  import opened MuModel

  // ---------------------------------------------------------------------
  // Pieces of runs
  // ---------------------------------------------------------------------

  /** A piece of a run of two replicas, from any state. */
  predicate IsPath(states: seq<State>, events: seq<Event>) {
    && |states| == |events| + 1
    && (forall i :: 0 <= i < |states| ==> N(states[i]) == 2)
    && (forall i :: 0 <= i < |events| ==> StepAt(states, events, i) && CallerProposes(events[i]))
  }

  /** The events lead from s to s'. */
  ghost predicate Leads(s: State, events: seq<Event>, s': State) {
    exists states :: IsPath(states, events) && states[0] == s && states[|events|] == s'
  }

  lemma LeadsOne(s: State, ev: Event, s': State)
    requires Shape(s) && Enabled(s, ev) && Next(s, ev) == s' && CallerProposes(ev) && N(s) == N(s') == 2
    ensures Leads(s, [ev], s')
  {
    hide Shape, Enabled, Next;
    var states := [s, s'];
    assert StepAt(states, [ev], 0);
    assert IsPath(states, [ev]);
  }

  lemma LeadsOn(s: State, events: seq<Event>, s': State, more: seq<Event>, s'': State)
    requires Leads(s, events, s') && Leads(s', more, s'')
    ensures Leads(s, events + more, s'')
  {
    hide Shape, Enabled, Next;
    var x :| IsPath(x, events) && x[0] == s && x[|events|] == s';
    var y :| IsPath(y, more) && y[0] == s' && y[|more|] == s'';
    var states, all := x + y[1..], events + more;
    forall i | 0 <= i < |all| ensures StepAt(states, all, i) {
      if i < |events| {
        assert StepAt(x, events, i);
      } else {
        assert StepAt(y, more, i - |events|);
      }
    }
    forall i | 0 <= i < |all| ensures CallerProposes(all[i]) {
      assert i < |events| ==> CallerProposes(events[i]);
      assert i >= |events| ==> CallerProposes(more[i - |events|]);
    }
    assert IsPath(states, all);
  }

  lemma LeadsOneMore(s: State, events: seq<Event>, s': State, ev: Event, s'': State)
    requires Leads(s, events, s') && Shape(s') && Enabled(s', ev) && Next(s', ev) == s''
    requires CallerProposes(ev) && N(s') == N(s'') == 2
    ensures Leads(s, events + [ev], s'')
  {
    hide Shape, Enabled, Next, Leads;
    LeadsOne(s', ev, s'');
    LeadsOn(s, events, s', [ev], s'');
  }

  /** What a step hands to propose. */
  function ProposedBy(ev: Event): seq<Value> {
    if ev.PostNew? || ev.PostFast? then [ev.v] else []
  }

  /** What callers have proposed, in order. */
  function Proposed(events: seq<Event>): seq<Value> {
    if events == [] then [] else ProposedBy(events[0]) + Proposed(events[1..])
  }

  lemma Regrouped(a: seq<Value>, b: seq<Value>, c: seq<Value>)
    ensures a + (b + c) == a + b + c
  {}

  lemma {:induction false} ProposedTogether(events: seq<Event>, more: seq<Event>)
    ensures Proposed(events + more) == Proposed(events) + Proposed(more)
  {
    hide ProposedBy;
    if events == [] {
      assert events + more == more;
    } else {
      var rest := events[1..];
      ProposedTogether(rest, more);
      assert (events + more)[0] == events[0] && (events + more)[1..] == rest + more;
      Regrouped(ProposedBy(events[0]), Proposed(rest), Proposed(more));
    }
  }

  lemma {:induction false} NothingProposed(events: seq<Event>)
    requires forall i :: 0 <= i < |events| ==> ProposedBy(events[i]) == []
    ensures Proposed(events) == []
  {
    if events != [] {
      NothingProposed(events[1..]);
    }
  }

  /** One call: its value is proposed first, and then nothing more. */
  lemma OneProposed(ev: Event, more: seq<Event>)
    requires forall i :: 0 <= i < |more| ==> ProposedBy(more[i]) == []
    ensures Proposed([ev] + more) == ProposedBy(ev)
  {
    NothingProposed(more);
    assert ([ev] + more)[1..] == more;
  }

  // ---------------------------------------------------------------------
  // Two replicas
  // ---------------------------------------------------------------------

  predicate Two(s: State) {
    Shape(s) && N(s) == 2
  }

  function Other(p: nat): nat
    requires p < 2
  {
    1 - p
  }

  lemma TwoIds(s: State, p: nat)
    requires Two(s) && p < 2
    ensures Ids(2) == {0, 1} && Remotes(s, p) == {Other(p)}
    ensures RemoteStrictMajority(1) == 1 && Majority(2) == 1
  {
    assert Ids(0) == {} && Ids(1) == {0} && Ids(2) == {0, 1};
  }

  lemma OneIsEnough(xs: set<nat>, x: nat)
    requires x in xs
    ensures |xs| >= 1
  {}

  lemma AckedByOther(s: State, a: nat)
    requires Two(s) && IsTerm(s, a) && |s.terms[a].ops| > 0 && s.terms[a].done[Other(Pid(s, a))] == |s.terms[a].ops|
    ensures LastAcked(s, a)
  {
    TwoIds(s, Pid(s, a));
    OneIsEnough(Acks(s, a, |s.terms[a].ops| - 1) - {Pid(s, a)}, Other(Pid(s, a)));
  }

  // ---------------------------------------------------------------------
  // An election
  // ---------------------------------------------------------------------

  lemma SetRepTwo(s: State, r: nat, rep: Replica)
    requires Two(s) && r < 2 && |rep.granted| == 2 && |rep.approvals| == 2
    ensures Two(SetRep(s, r, rep))
  {
    var s' := SetRep(s, r, rep);
    forall q | 0 <= q < 2 ensures RepShape(s', q) { assert RepShape(s, q); }
    forall a | 0 <= a < |s'.terms| ensures TermShape(s', a) { assert TermShape(s, a); }
  }

  lemma TwoShape(s: State)
    requires Two(s)
    ensures Modulo(s) > 0 && RepShape(s, 0) && RepShape(s, 1)
    ensures forall r :: 0 <= r < 2 ==> |s.reps[r].granted| == 2 && |s.reps[r].approvals| == 2
  {}

  /** p can become leader: it is idle, and its next request number is new. */
  ghost predicate CanElect(s: State, p: nat) {
    && Two(s) && p < 2 && CaughtUp(s.reps[p])
    && (forall a :: 0 <= a < |s.terms| && s.terms[a].tok.pid == p ==>
          !s.terms[a].phase.Busy() && s.terms[a].tok != Token(p, s.reps[p].reqNr))
    && s.ids[p] <= s.reps[p].reqNr && Multiple(s.reps[p].reqNr - s.ids[p], 2 * Modulo(s))
    && (forall r :: 0 <= r < 2 ==> |s.reps[r].granted| == 2 && s.reps[r].granted[p] < s.reps[p].reqNr)
  }

  lemma RequestStep(s: State, p: nat, s': State)
    requires Two(s) && p < 2 && s' == SetRep(s, p, s.reps[p].(reqNr := s.reps[p].reqNr + 2 * Modulo(s)))
    ensures Two(s') && Leads(s, [Request(p)], s')
  {
    hide Leads, Max, Multiple;
    TwoShape(s);
    SetRepTwo(s, p, s.reps[p].(reqNr := s.reps[p].reqNr + 2 * Modulo(s)));
    LeadsOne(s, Request(p), s');
  }

  lemma GrantStep(s: State, r: nat, p: nat, k: nat, s': State)
    requires Two(s) && r < 2 && p < 2 && Issued(s, p, k)
    requires |s.reps[r].granted| == 2 && k > s.reps[r].granted[p] && s' == SetRep(s, r, Granted(s.reps[r], p, k))
    ensures Two(s') && Leads(s, [Grant(r, p, k)], s')
  {
    hide Leads, Max, Multiple;
    TwoShape(s);
    SetRepTwo(s, r, Granted(s.reps[r], p, k));
    LeadsOne(s, Grant(r, p, k), s');
  }

  lemma ApproveStep(s: State, r: nat, p: nat, k: nat, s': State)
    requires Two(s) && r < 2 && p == Other(r) && s.reps[r].holder == Some(Token(p, k))
    requires |s.reps[p].approvals| == 2 && s' == SetRep(s, p, Answered(s.reps[p], r, k + Modulo(s)))
    ensures Two(s') && Leads(s, [Approve(r)], s')
  {
    hide Leads, Max, Multiple;
    TwoShape(s);
    SetRepTwo(s, p, Answered(s.reps[p], r, k + Modulo(s)));
    LeadsOne(s, Approve(r), s');
  }

  function ElectionEvents(s: State, p: nat): seq<Event>
    requires p < 2 && p < N(s)
  {
    var k := s.reps[p].reqNr;
    [Request(p)] + [Grant(p, p, k)] + [Grant(Other(p), p, k)] + [Approve(Other(p))]
  }

  /** Replica p after its election, and the other one. */
  function Elected(s: State, p: nat): Replica
    requires CanElect(s, p)
  {
    var k, m := s.reps[p].reqNr, Modulo(s);
    assert |s.reps[p].approvals| == 2 by { TwoShape(s); }
    Answered(Granted(s.reps[p].(reqNr := k + 2 * m), p, k), Other(p), k + m)
  }

  function Granting(s: State, p: nat): State
    requires CanElect(s, p)
  {
    var q := Other(p);
    SetRep(SetRep(s, p, Elected(s, p)), q, Granted(s.reps[q], p, s.reps[p].reqNr))
  }

  /** Both replicas grant p's next request, and p knows. */
  lemma Elects(s: State, p: nat)
    requires CanElect(s, p)
    ensures Two(Granting(s, p)) && Leads(s, ElectionEvents(s, p), Granting(s, p))
  {
    hide Leads, Max, Multiple, TermShape;
    var k, m, q := s.reps[p].reqNr, Modulo(s), Other(p);
    TwoShape(s);
    var s1 := SetRep(s, p, s.reps[p].(reqNr := k + 2 * m));
    RequestStep(s, p, s1);
    StillIssued(s, s1, p, k);
    var s2 := SetRep(s1, p, Granted(s1.reps[p], p, k));
    GrantStep(s1, p, p, k, s2);
    StillIssued(s, s2, p, k);
    var s3 := SetRep(s2, q, Granted(s2.reps[q], p, k));
    GrantStep(s2, q, p, k, s3);
    SameNumbers(s, s3);
    var s4 := SetRep(s3, p, Answered(s3.reps[p], q, k + m));
    ApproveStep(s3, q, p, k, s4);
    LeadsOn(s, [Request(p)], s1, [Grant(p, p, k)], s2);
    LeadsOn(s, [Request(p)] + [Grant(p, p, k)], s2, [Grant(q, p, k)], s3);
    LeadsOn(s, [Request(p)] + [Grant(p, p, k)] + [Grant(q, p, k)], s3, [Approve(q)], s4);
    assert s4.reps == Granting(s, p).reps;
  }

  lemma SameNumbers(s: State, s': State)
    requires s'.ids == s.ids
    ensures Modulo(s') == Modulo(s)
  {}

  lemma StillIssued(s: State, s': State, p: nat, k: nat)
    requires Two(s) && Two(s') && s'.ids == s.ids && p < 2
    requires s.ids[p] <= k < s'.reps[p].reqNr && Multiple(k - s.ids[p], 2 * Modulo(s))
    ensures Issued(s', p, k)
  {
    hide Multiple, Max;
    SameNumbers(s, s');
  }

  /** The term that begins: p leads from here on. */
  function Begun(s: State, p: nat): State
    requires CanElect(s, p)
  {
    var s1 := Granting(s, p);
    s1.(terms := s1.terms + [Term(Token(p, s.reps[p].reqNr), Idle, [], seq(2, _ => 0), {})])
  }

  lemma GrantingIs(s: State, p: nat)
    requires CanElect(s, p)
    ensures Granting(s, p).terms == s.terms && Granting(s, p).ids == s.ids && N(Granting(s, p)) == 2
    ensures Granting(s, p).reps[p] == Elected(s, p)
    ensures var rep := Granting(s, p).reps[p];
            && rep.reqNr == s.reps[p].reqNr + 2 * Modulo(s) && rep.holder == Some(Token(p, s.reps[p].reqNr))
            && rep.committed == s.reps[p].committed && rep.target == s.reps[p].target
            && |rep.approvals| == 2 && rep.approvals[Other(p)] == s.reps[p].reqNr + Modulo(s)
  {
    hide Max, Multiple, TermShape;
    TwoShape(s);
  }

  lemma BeginsTerm(s: State, p: nat)
    requires CanElect(s, p) && !FastLeft(s, p)
    ensures Two(Begun(s, p)) && Leads(s, ElectionEvents(s, p) + [Start(p)], Begun(s, p))
  {
    hide Leads, Max, Multiple, Granting, Elected, Modulo, TermShape;
    var s1 := Granting(s, p);
    Elects(s, p);
    GrantingIs(s, p);
    SameNumbers(s, s1);
    TwoShape(s1);
    assert StartEnabled(s1, p);
    LeadsOneMore(s, ElectionEvents(s, p), s1, Start(p), Begun(s, p));
    BegunTwo(s, p);
  }

  lemma BegunTwo(s: State, p: nat)
    requires CanElect(s, p) && Two(Granting(s, p))
    ensures Two(Begun(s, p))
  {
    hide Granting;
    var s1 := Granting(s, p);
    forall r | 0 <= r < 2 ensures RepShape(Begun(s, p), r) { assert RepShape(s1, r); }
    forall a | 0 <= a < |Begun(s, p).terms| ensures TermShape(Begun(s, p), a) {
      if a < |s1.terms| { assert TermShape(s1, a); }
    }
  }

  // ---------------------------------------------------------------------
  // The slow path, up to the read of the slot
  // ---------------------------------------------------------------------

  /** Term a leads both replicas and is between calls; the other replica is not
      behind. */
  ghost predicate CanCatchUp(s: State, a: nat) {
    && Two(s) && IsTerm(s, a) && s.terms[a].tok.pid < 2 && s.terms[a].phase.Idle?
    && Own(s, a) && Open(s, a, Other(Pid(s, a))) && CaughtUp(Leader(s, a))
    && s.terms[a].done[Other(Pid(s, a))] == |s.terms[a].ops|
    && s.reps[Other(Pid(s, a))].fuo >= Leader(s, a).fuo
  }

  /** Neither replica has seen a higher proposal. */
  ghost predicate CanPropose(s: State, a: nat) {
    && CanCatchUp(s, a)
    && Leader(s, a).minProp <= Leader(s, a).propNr && s.reps[Other(Pid(s, a))].minProp <= Leader(s, a).propNr
  }

  /** The term has got to a phase and has been in touch with these replicas. */
  function Stage(s: State, a: nat, phase: Phase, touched: set<nat>): State
    requires a < |s.terms|
  {
    SetTerm(s, a, s.terms[a].(phase := phase, touched := s.terms[a].touched + touched))
  }

  lemma StageTwo(s: State, a: nat, phase: Phase, touched: set<nat>)
    requires Two(s) && IsTerm(s, a) && touched <= {0, 1}
    ensures Two(Stage(s, a, phase, touched)) && IsTerm(Stage(s, a, phase, touched), a)
  {
    hide Ids, Remotes, Acks;
    var s' := Stage(s, a, phase, touched);
    TwoIds(s, 0);
    forall r | 0 <= r < 2 ensures RepShape(s', r) { assert RepShape(s, r); }
    forall b | 0 <= b < |s'.terms| ensures TermShape(s', b) { assert TermShape(s, b); }
  }

  lemma StageSame(s: State, a: nat, phase: Phase, touched: set<nat>, phase': Phase, touched': set<nat>)
    requires a < |s.terms|
    ensures Stage(Stage(s, a, phase, touched), a, phase', touched') == Stage(s, a, phase', touched + touched')
  {
    assert s.terms[a].touched + touched + touched' == s.terms[a].touched + (touched + touched');
  }

  function CatchUpEvents(a: nat, q: nat): seq<Event> {
    [BeginSlow(a)] + [ReadFuo(a, q)] + [EndCatchFuo(a)] + [EndUpdate(a)] + [ReadProp(a, q)]
  }

  /** Nobody lags, and no proposal read is too high. */
  function CaughtUpState(s: State, a: nat): State
    requires CanCatchUp(s, a)
  {
    var q := Other(Pid(s, a));
    Stage(s, a, CatchProp(map[q := s.reps[q].minProp]), {0, 1})
  }

  lemma QuietLeads(s: State, a: nat, ev: Event, phase: Phase, touched: set<nat>)
    requires Two(s) && IsTerm(s, a) && IsQuiet(ev) && Enabled(s, ev) && touched <= {0, 1}
    requires NextQuiet(s, ev) == Stage(s, a, phase, touched)
    ensures Two(Stage(s, a, phase, touched)) && IsTerm(Stage(s, a, phase, touched), a)
    ensures Leads(s, [ev], Stage(s, a, phase, touched))
  {
    hide Leads, NextQuiet, Enabled, Stage, RepShape, TermShape, Max, Ids, Modulo;
    StageTwo(s, a, phase, touched);
    LeadsOne(s, ev, Stage(s, a, phase, touched));
  }

  lemma MoveIsStage(s: State, a: nat, phase: Phase)
    requires a < |s.terms|
    ensures SetPhase(s, a, phase) == Stage(s, a, phase, {})
  {
    assert s.terms[a].touched + {} == s.terms[a].touched;
  }

  lemma ReadsFuo(s: State, a: nat)
    requires CanCatchUp(s, a)
    ensures var p, q := Pid(s, a), Other(Pid(s, a));
            var s2 := Stage(Stage(s, a, CatchFuo(map[]), {p}), a, CatchFuo(map[q := s.reps[q].fuo]), {q});
            && Two(s2) && IsTerm(s2, a) && Leads(s, [BeginSlow(a)] + [ReadFuo(a, q)], s2)
  {
    hide Leads, Max, LastAcked, NextElection, ProposalIsHigh, BusyAt, Leading;
    var p, q := Pid(s, a), Other(Pid(s, a));
    TwoIds(s, p);
    var s1 := Stage(s, a, CatchFuo(map[]), {p});
    QuietLeads(s, a, BeginSlow(a), CatchFuo(map[]), {p});
    QuietLeads(s1, a, ReadFuo(a, q), CatchFuo(map[q := s.reps[q].fuo]), {q});
    LeadsOn(s, [BeginSlow(a)], s1, [ReadFuo(a, q)], Stage(s1, a, CatchFuo(map[q := s.reps[q].fuo]), {q}));
  }

  lemma CatchesFuo(s: State, a: nat)
    requires CanCatchUp(s, a)
    ensures var q := Other(Pid(s, a));
            var s' := Stage(s, a, Update(map[q := s.reps[q].fuo]), {0, 1});
            && Two(s') && IsTerm(s', a)
            && Leads(s, [BeginSlow(a)] + [ReadFuo(a, q)] + [EndCatchFuo(a)], s')
  {
    hide Leads, Max, LastAcked, NextElection, ProposalIsHigh, BusyAt, Leading;
    var p, q := Pid(s, a), Other(Pid(s, a));
    TwoIds(s, p);
    ReadsFuo(s, a);
    var s1 := Stage(s, a, CatchFuo(map[]), {p});
    var s2 := Stage(s1, a, CatchFuo(map[q := s.reps[q].fuo]), {q});
    MoveIsStage(s2, a, Update(map[q := s.reps[q].fuo]));
    QuietLeads(s2, a, EndCatchFuo(a), Update(map[q := s.reps[q].fuo]), {});
    var s3 := Stage(s2, a, Update(map[q := s.reps[q].fuo]), {});
    LeadsOn(s, [BeginSlow(a)] + [ReadFuo(a, q)], s2, [EndCatchFuo(a)], s3);
    StageSame(s1, a, CatchFuo(map[q := s.reps[q].fuo]), {q}, Update(map[q := s.reps[q].fuo]), {});
    StageSame(s, a, CatchFuo(map[]), {p}, Update(map[q := s.reps[q].fuo]), {q} + {});
    assert {p} + ({q} + {}) == {0, 1};
  }

  lemma CopiesDone(s: State, a: nat)
    requires Two(s) && IsTerm(s, a) && s.terms[a].tok.pid < 2 && s.terms[a].done[Other(Pid(s, a))] == |s.terms[a].ops|
    ensures |set r | r in Remotes(s, Pid(s, a)) && CopiesArrived(s.terms[a], r)| >= RemoteStrictMajority(N(s) - 1)
  {
    TwoIds(s, Pid(s, a));
    var arrived := set r | r in Remotes(s, Pid(s, a)) && CopiesArrived(s.terms[a], r);
    OneIsEnough(arrived, Other(Pid(s, a)));
  }

  lemma CatchesProposals(s: State, a: nat)
    requires CanCatchUp(s, a)
    ensures var s' := CaughtUpState(s, a);
            && Two(s') && IsTerm(s', a)
            && Leads(s, CatchUpEvents(a, Other(Pid(s, a))), s')
  {
    hide Leads, TermShape, RepShape, Ids, Remotes, Acks, LastAcked, CopiesArrived, ProposalIsHigh;
    hide IsFreshest, NothingRead;
    var p, q := Pid(s, a), Other(Pid(s, a));
    TwoIds(s, p);
    CatchesFuo(s, a);
    var before := [BeginSlow(a)] + [ReadFuo(a, q)] + [EndCatchFuo(a)];
    var s3 := Stage(s, a, Update(map[q := s.reps[q].fuo]), {0, 1});
    CopiesDone(s3, a);
    MoveIsStage(s3, a, CatchProp(map[]));
    QuietLeads(s3, a, EndUpdate(a), CatchProp(map[]), {});
    var s4 := Stage(s3, a, CatchProp(map[]), {});
    QuietLeads(s4, a, ReadProp(a, q), CatchProp(map[q := s.reps[q].minProp]), {q});
    var s5 := Stage(s4, a, CatchProp(map[q := s.reps[q].minProp]), {q});
    LeadsOn(s, before, s3, [EndUpdate(a)], s4);
    LeadsOn(s, before + [EndUpdate(a)], s4, [ReadProp(a, q)], s5);
    StageSame(s3, a, CatchProp(map[]), {}, CatchProp(map[q := s.reps[q].minProp]), {q});
    StageSame(s, a, Update(map[q := s.reps[q].fuo]), {0, 1}, CatchProp(map[q := s.reps[q].minProp]), {} + {q});
    assert {0, 1} + ({} + {q}) == {0, 1};
  }

  // ---------------------------------------------------------------------
  // A write that both replicas receive
  // ---------------------------------------------------------------------

  /** Term a has both permissions, and all it sent has arrived. */
  ghost predicate Clear(s: State, a: nat) {
    && Two(s) && IsTerm(s, a) && s.terms[a].tok.pid < 2 && Own(s, a) && Open(s, a, Other(Pid(s, a)))
    && s.terms[a].done == [|s.terms[a].ops|, |s.terms[a].ops|]
  }

  /** Both replicas have the write. */
  function Sent(s: State, a: nat, op: Op, phase: Phase): State
    requires Two(s) && IsTerm(s, a)
  {
    var t := s.terms[a];
    var n := |t.ops| + 1;
    State(s.ids, [Written(s.reps[0], 0, op), Written(s.reps[1], 1, op)],
          s.terms[a := Term(t.tok, phase, t.ops + [op], [n, n], t.touched + {0, 1})])
  }

  lemma SentTwo(s: State, a: nat, op: Op, phase: Phase)
    requires Two(s) && IsTerm(s, a)
    ensures Two(Sent(s, a, op, phase)) && IsTerm(Sent(s, a, op, phase), a)
  {
    hide Next, Ids, Remotes, Acks;
    var s' := Sent(s, a, op, phase);
    TwoIds(s, 0);
    forall r | 0 <= r < 2 ensures RepShape(s', r) { assert RepShape(s, r); }
    forall b | 0 <= b < |s'.terms| ensures TermShape(s', b) { assert TermShape(s, b); }
  }

  lemma PostedTwo(s: State, a: nat, op: Op, phase: Phase)
    requires Clear(s, a)
    ensures Two(Post(s, a, op, phase)) && IsTerm(Post(s, a, op, phase), a)
  {
    var s1 := Post(s, a, op, phase);
    TwoIds(s, 0);
    forall r | 0 <= r < 2 ensures RepShape(s1, r) { assert RepShape(s, r); }
    forall b | 0 <= b < |s1.terms| ensures TermShape(s1, b) { assert TermShape(s, b); }
  }

  lemma PostTwo(s: State, a: nat, op: Op, phase: Phase)
    requires Clear(s, a)
    ensures Two(Post(s, a, op, phase)) && Enabled(Post(s, a, op, phase), Deliver(a, Other(Pid(s, a))))
    ensures Next(Post(s, a, op, phase), Deliver(a, Other(Pid(s, a)))) == Sent(s, a, op, phase)
  {
    hide Shape, RepShape, NextQuiet, NextElection, PostedOp, PostedPhase;
    var s1, p, q, n := Post(s, a, op, phase), Pid(s, a), Other(Pid(s, a)), |s.terms[a].ops|;
    PostedTwo(s, a, op, phase);
    var s2 := Delivered(s1, a, q);
    assert s1.terms[a].ops[n] == op;
    assert s2.reps == Sent(s, a, op, phase).reps;
    assert s2.terms[a].touched == s.terms[a].touched + {0, 1};
    assert s2.terms[a].done == [n + 1, n + 1];
  }

  lemma Sends(s: State, a: nat, ev: Event, op: Op, phase: Phase)
    requires Clear(s, a) && IsPost(ev) && Enabled(s, ev) && PostedBy(ev) == a
    requires PostedOp(s, ev) == op && PostedPhase(s, ev) == phase
    requires CallerProposes(ev)
    ensures Two(Sent(s, a, op, phase)) && IsTerm(Sent(s, a, op, phase), a)
    ensures Leads(s, [ev] + [Deliver(a, Other(Pid(s, a)))], Sent(s, a, op, phase))
  {
    hide Leads, Post, Enabled, PostedOp, PostedPhase, Shape, Sent;
    SentTwo(s, a, op, phase);
    PostTwo(s, a, op, phase);
    SendsFirst(s, a, ev);
    LeadsOneMore(s, [ev], Post(s, a, op, phase), Deliver(a, Other(Pid(s, a))), Sent(s, a, op, phase));
  }

  lemma SendsFirst(s: State, a: nat, ev: Event)
    requires Clear(s, a) && IsPost(ev) && Enabled(s, ev) && PostedBy(ev) == a && CallerProposes(ev)
    ensures Leads(s, [ev], Post(s, a, PostedOp(s, ev), PostedPhase(s, ev)))
  {
    hide Leads, Post;
    PostedTwo(s, a, PostedOp(s, ev), PostedPhase(s, ev));
    LeadsOne(s, ev, Next(s, ev));
  }

  /** What has been read of the leader's slot at the other replica; that much need not
      be read at all. */
  function ReadPhase(s: State, a: nat, look: bool): Phase
    requires CanPropose(s, a)
  {
    var q := Other(Pid(s, a));
    ReadSlot(if look then map[q := Lookup(s.reps[q].log, Leader(s, a).fuo)] else map[])
  }

  /** The leader's proposal is announced, and its slot read. */
  function SlotRead(s: State, a: nat, look: bool): State
    requires CanPropose(s, a)
  {
    var q := Other(Pid(s, a));
    var s1 := CaughtUpState(s, a);
    StageTwo(s, a, CatchProp(map[q := s.reps[q].minProp]), {0, 1});
    SentTwo(s1, a, SetProp(Leader(s, a).propNr), UpdProp);
    Stage(Sent(s1, a, SetProp(Leader(s, a).propNr), UpdProp), a, ReadPhase(s, a, look), {})
  }

  function AnnounceEvents(a: nat, q: nat, look: bool): seq<Event> {
    [PostProp(a)] + [Deliver(a, q)] + [EndProp(a)] + if look then [ReadRemoteSlot(a, q)] else []
  }

  /** The call of propose stands where it may write. */
  lemma ReadsSlot(s: State, a: nat, look: bool)
    requires CanPropose(s, a)
    ensures Two(SlotRead(s, a, look)) && IsTerm(SlotRead(s, a, look), a)
    ensures var q := Other(Pid(s, a)); Leads(s, CatchUpEvents(a, q) + AnnounceEvents(a, q, look), SlotRead(s, a, look))
  {
    hide Leads, CaughtUpState, SlotRead;
    CatchesProposals(s, a);
    Announces(s, a, look);
    var q := Other(Pid(s, a));
    LeadsOn(s, CatchUpEvents(a, q), CaughtUpState(s, a), AnnounceEvents(a, q, look), SlotRead(s, a, look));
  }

  lemma Announces(s: State, a: nat, look: bool)
    requires CanPropose(s, a)
    ensures Two(SlotRead(s, a, look)) && IsTerm(SlotRead(s, a, look), a)
    ensures Leads(CaughtUpState(s, a), AnnounceEvents(a, Other(Pid(s, a)), look), SlotRead(s, a, look))
  {
    hide Leads, CaughtUpState, Enabled, Next;
    var q := Other(Pid(s, a));
    var s5 := CaughtUpState(s, a);
    var op := SetProp(Leader(s, a).propNr);
    CaughtUpIs(s, a);
    CanAnnounce(s, a);
    Sends(s5, a, PostProp(a), op, UpdProp);
    var s7 := Sent(s5, a, op, UpdProp);
    Announced(s, a);
    var s8 := Stage(s7, a, ReadSlot(map[]), {});
    var events := [PostProp(a)] + [Deliver(a, q)] + [EndProp(a)];
    LeadsOn(s5, [PostProp(a)] + [Deliver(a, q)], s7, [EndProp(a)], s8);
    if look {
      ReadsThere(s, a, s7, s8);
      LeadsOn(s5, events, s8, [ReadRemoteSlot(a, q)], SlotRead(s, a, true));
    } else {
      assert AnnounceEvents(a, q, false) == events;
    }
  }

  /** The leader's number has stepped once. */
  function Raised(s: State, a: nat): State
    requires CanCatchUp(s, a)
  {
    SetRep(s, Pid(s, a), Leader(s, a).(propNr := Leader(s, a).propNr + Modulo(s)))
  }

  lemma RaisedTwo(s: State, a: nat)
    requires CanCatchUp(s, a)
    ensures CanCatchUp(Raised(s, a), a)
  {
    TwoShape(s);
    SetRepTwo(s, Pid(s, a), Leader(s, a).(propNr := Leader(s, a).propNr + Modulo(s)));
  }

  function RetryEvents(a: nat, q: nat): seq<Event> {
    [RetryProp(a)] + [ReadProp(a, q)]
  }

  lemma StepsNumber(s: State, a: nat)
    requires CanCatchUp(s, a) && !CanPropose(s, a) && CanCatchUp(Raised(s, a), a)
    requires Two(CaughtUpState(s, a)) && IsTerm(CaughtUpState(s, a), a)
    ensures var s1, s2 := CaughtUpState(s, a), Stage(Raised(s, a), a, CatchProp(map[]), {0, 1});
            && Enabled(s1, RetryProp(a)) && Next(s1, RetryProp(a)) == s2
            && Two(s2) && IsTerm(s2, a) && Pid(s2, a) == Pid(s, a)
  {
    hide Max, LastAcked, NextElection, RepShape, PostedPhase, PostedOp, TermShape, Multiple, Ids, Remotes;
    hide Acks;
    TwoIds(s, Pid(s, a));
    StageTwo(Raised(s, a), a, CatchProp(map[]), {0, 1});
  }

  lemma ReadsAfterStep(s: State, a: nat, s2: State)
    requires CanCatchUp(s, a) && s2 == Stage(s, a, CatchProp(map[]), {0, 1}) && Two(s2) && IsTerm(s2, a)
    ensures Two(CaughtUpState(s, a)) && IsTerm(CaughtUpState(s, a), a)
    ensures Leads(s2, [ReadProp(a, Other(Pid(s, a)))], CaughtUpState(s, a))
  {
    hide Leads, Max, RepShape;
    var q := Other(Pid(s, a));
    var phase := CatchProp(map[q := s.reps[q].minProp]);
    StageSame(s, a, CatchProp(map[]), {0, 1}, phase, {q});
    assert {0, 1} + {q} == {0, 1};
    QuietLeads(s2, a, ReadProp(a, q), phase, {q});
  }

  /** It has seen a higher proposal, steps its number and reads again. */
  lemma Retries(s: State, a: nat)
    requires CanCatchUp(s, a) && !CanPropose(s, a)
    requires Two(CaughtUpState(s, a)) && IsTerm(CaughtUpState(s, a), a)
    ensures CanCatchUp(Raised(s, a), a)
    ensures Leads(CaughtUpState(s, a), RetryEvents(a, Other(Pid(s, a))), CaughtUpState(Raised(s, a), a))
  {
    hide Leads, Max, CanPropose, CaughtUpState, Enabled, Next, Stage, Raised, RepShape, TermShape;
    RaisedTwo(s, a);
    SamePid(s, a);
    StepsNumber(s, a);
    TwoShapes(s, a);
    var q := Other(Pid(s, a));
    var s', s1, s2 := Raised(s, a), CaughtUpState(s, a), Stage(Raised(s, a), a, CatchProp(map[]), {0, 1});
    ReadsAfterStep(s', a, s2);
    SamePid(s, a);
    LeadsOne(s1, RetryProp(a), s2);
    LeadsOn(s1, [RetryProp(a)], s2, [ReadProp(a, q)], CaughtUpState(s', a));
  }

  lemma TwoShapes(s: State, a: nat)
    requires CanCatchUp(s, a) && CanCatchUp(Raised(s, a), a)
    requires Two(CaughtUpState(s, a)) && Two(Stage(Raised(s, a), a, CatchProp(map[]), {0, 1}))
    ensures Shape(CaughtUpState(s, a)) && N(CaughtUpState(s, a)) == 2
    ensures N(Stage(Raised(s, a), a, CatchProp(map[]), {0, 1})) == 2
  {}

  lemma ReadsSlotOnRetry(s: State, a: nat, look: bool)
    requires CanCatchUp(s, a) && !CanPropose(s, a) && CanPropose(Raised(s, a), a)
    ensures Two(SlotRead(Raised(s, a), a, look)) && IsTerm(SlotRead(Raised(s, a), a, look), a)
    ensures var q := Other(Pid(s, a));
            Leads(s, CatchUpEvents(a, q) + RetryEvents(a, q)
                + AnnounceEvents(a, q, look), SlotRead(Raised(s, a), a, look))
  {
    hide Leads, CaughtUpState, SlotRead, Raised;
    var q := Other(Pid(s, a));
    CatchesProposals(s, a);
    Retries(s, a);
    var s', s1 := Raised(s, a), CaughtUpState(Raised(s, a), a);
    assert Pid(s', a) == Pid(s, a) by { SamePid(s, a); }
    LeadsOn(s, CatchUpEvents(a, q), CaughtUpState(s, a), RetryEvents(a, q), s1);
    Announces(s', a, look);
    LeadsOn(s, CatchUpEvents(a, q) + RetryEvents(a, q), s1, AnnounceEvents(a, q, look), SlotRead(s', a, look));
  }

  lemma SamePid(s: State, a: nat)
    requires CanCatchUp(s, a)
    ensures a < |Raised(s, a).terms| && Pid(Raised(s, a), a) == Pid(s, a)
  {}

  lemma CaughtUpIs(s: State, a: nat)
    requires CanPropose(s, a)
    ensures var s5 := CaughtUpState(s, a);
            && Two(s5) && IsTerm(s5, a) && Clear(s5, a) && s5.reps == s.reps && Pid(s5, a) == Pid(s, a)
            && s5.terms[a].ops == s.terms[a].ops
            && s5.terms[a].phase == CatchProp(map[Other(Pid(s, a)) := s.reps[Other(Pid(s, a))].minProp])
  {
    StageTwo(s, a, CatchProp(map[Other(Pid(s, a)) := s.reps[Other(Pid(s, a))].minProp]), {0, 1});
  }

  lemma CanAnnounce(s: State, a: nat)
    requires CanPropose(s, a) && Two(CaughtUpState(s, a))
    ensures Enabled(CaughtUpState(s, a), PostProp(a))
    ensures PostedOp(CaughtUpState(s, a), PostProp(a)) == SetProp(Leader(s, a).propNr)
    ensures PostedPhase(CaughtUpState(s, a), PostProp(a)) == UpdProp
  {
    hide CaughtUpState, Max, LastAcked, Ids, RepShape;
    CaughtUpIs(s, a);
    TwoIds(s, Pid(s, a));
  }

  lemma Announced(s: State, a: nat)
    requires CanPropose(s, a) && Two(CaughtUpState(s, a)) && IsTerm(CaughtUpState(s, a), a)
    ensures var s7 := Sent(CaughtUpState(s, a), a, SetProp(Leader(s, a).propNr), UpdProp);
            && Two(s7) && IsTerm(s7, a)
            && Two(Stage(s7, a, ReadSlot(map[]), {})) && IsTerm(Stage(s7, a, ReadSlot(map[]), {}), a)
            && Leads(s7, [EndProp(a)], Stage(s7, a, ReadSlot(map[]), {}))
  {
    hide Leads, CaughtUpState;
    CaughtUpIs(s, a);
    SentTwo(CaughtUpState(s, a), a, SetProp(Leader(s, a).propNr), UpdProp);
    var s7 := Sent(CaughtUpState(s, a), a, SetProp(Leader(s, a).propNr), UpdProp);
    AckedByOther(s7, a);
    MoveIsStage(s7, a, ReadSlot(map[]));
    QuietLeads(s7, a, EndProp(a), ReadSlot(map[]), {});
  }

  lemma ReadsThere(s: State, a: nat, s7: State, s8: State)
    requires CanPropose(s, a) && Two(CaughtUpState(s, a)) && IsTerm(CaughtUpState(s, a), a)
    requires s7 == Sent(CaughtUpState(s, a), a, SetProp(Leader(s, a).propNr), UpdProp) && Two(s7) && IsTerm(s7, a)
    requires s8 == Stage(s7, a, ReadSlot(map[]), {}) && Two(s8) && IsTerm(s8, a)
    ensures Two(SlotRead(s, a, true)) && IsTerm(SlotRead(s, a, true), a)
    ensures Leads(s8, [ReadRemoteSlot(a, Other(Pid(s, a)))], SlotRead(s, a, true))
  {
    hide Leads, CaughtUpState;
    CaughtUpIs(s, a);
    var q := Other(Pid(s, a));
    var phase := ReadSlot(map[q := Lookup(s.reps[q].log, Leader(s, a).fuo)]);
    assert s8.reps[q].log == s.reps[q].log && s8.reps[Pid(s, a)].fuo == Leader(s, a).fuo;
    QuietLeads(s8, a, ReadRemoteSlot(a, q), phase, {q});
    StageSame(s7, a, ReadSlot(map[]), {}, phase, {q});
    StageAbsorbs(s7, a, phase, q);
  }

  lemma StageAbsorbs(s: State, a: nat, phase: Phase, q: nat)
    requires a < |s.terms| && q in s.terms[a].touched
    ensures Stage(s, a, phase, {} + {q}) == Stage(s, a, phase, {})
  {
    assert s.terms[a].touched + ({} + {q}) == s.terms[a].touched + {};
  }

  // ---------------------------------------------------------------------
  // A decision
  // ---------------------------------------------------------------------

  lemma CanDecide(s: State, a: nat, ev: Event, op: Op, next: Phase)
    requires Clear(s, a) && IsPost(ev) && Enabled(s, ev) && PostedBy(ev) == a && PostedOp(s, ev) == op && op.Put?
    requires Two(Sent(s, a, op, Write(next))) && IsTerm(Sent(s, a, op, Write(next)), a)
    ensures Enabled(Sent(s, a, op, Write(next)), Decide(a))
  {
    hide PostedOp;
    AckedByOther(Sent(s, a, op, Write(next)), a);
  }

  /** Only the write of a value is waited for. */
  lemma IsPut(s: State, ev: Event)
    requires Shape(s) && IsPost(ev) && Enabled(s, ev) && PostedPhase(s, ev).Write?
    ensures PostedOp(s, ev).Put?
  {
    hide Shape;
  }

  /** The call writes a value, both replicas have it, and the leader decides. */
  lemma Decides(s: State, a: nat, ev: Event, op: Op, next: Phase)
    requires Clear(s, a) && IsPost(ev) && Enabled(s, ev) && PostedBy(ev) == a
    requires PostedOp(s, ev) == op && PostedPhase(s, ev) == Write(next)
    requires CallerProposes(ev)
    ensures Two(Sent(s, a, op, Write(next))) && IsTerm(Sent(s, a, op, Write(next)), a)
    ensures var s1 := Sent(s, a, op, Write(next));
            && Enabled(s1, Decide(a)) && Two(Next(s1, Decide(a)))
            && Leads(s, [ev] + [Deliver(a, Other(Pid(s, a)))] + [Decide(a)], Next(s1, Decide(a)))
  {
    hide Leads, PostedOp, PostedPhase, Enabled, Next, Sent, RepShape, TermShape;
    Sends(s, a, ev, op, Write(next));
    var s1 := Sent(s, a, op, Write(next));
    IsPut(s, ev);
    CanDecide(s, a, ev, op, next);
    DecidedTwo(s1, a);
    LeadsOneMore(s, [ev] + [Deliver(a, Other(Pid(s, a)))], s1, Decide(a), Next(s1, Decide(a)));
  }

  lemma DecidedTwo(s: State, a: nat)
    requires Two(s) && Enabled(s, Decide(a))
    ensures Two(Next(s, Decide(a)))
  {
    hide NextQuiet, NextElection, LastAcked, Modulo, Max, Ids;
    var s' := Next(s, Decide(a));
    forall r | 0 <= r < 2 ensures RepShape(s', r) { assert RepShape(s, r); }
    forall b | 0 <= b < |s'.terms| ensures TermShape(s', b) { assert TermShape(s, b); }
  }

  // ---------------------------------------------------------------------
  // A whole turn: elected, a call of propose, a decision
  // ---------------------------------------------------------------------

  /** The proposal number with which p will write: its own, or the next. */
  function NumberOf(s: State, p: nat): nat
    requires |s.reps| == 2 && p < 2
  {
    var n := s.reps[p].propNr;
    if s.reps[0].minProp <= n && s.reps[1].minProp <= n then n else n + Modulo(s)
  }

  /** What p will find in its slot at the other replica, if it looks. */
  function Found(s: State, p: nat, look: bool): map<nat, Option<Entry>>
    requires |s.reps| == 2 && p < 2
  {
    if look then map[Other(p) := Lookup(s.reps[Other(p)].log, s.reps[p].fuo)] else map[]
  }

  /** p can be elected and can get entry e decided: a new value, or one it adopts. */
  ghost predicate CanServe(s: State, p: nat, look: bool, e: Entry, adopted: Option<Entry>) {
    && CanElect(s, p) && !FastLeft(s, p)
    && s.reps[p].fuo <= s.reps[Other(p)].fuo
    && s.reps[0].minProp <= NumberOf(s, p) && s.reps[1].minProp <= NumberOf(s, p)
    && e.prop == NumberOf(s, p) && e.term == |s.terms|
    && var local := Lookup(s.reps[p].log, s.reps[p].fuo);
       if adopted.Some? then
         IsFreshest(adopted.value, local, Found(s, p, look)) && e.val == adopted.value.val && e.fuo == adopted.value.fuo
       else
         NothingRead(local, Found(s, p, look)) && e.val.Value? && e.fuo == s.reps[p].fuo
  }

  function Writing(b: nat, e: Entry, adopted: Option<Entry>): Event {
    if adopted.Some? then PostAdopted(b, adopted.value) else PostNew(b, e.val)
  }

  function PhaseAfter(s: State, p: nat, look: bool, adopted: Option<Entry>): Phase
    requires |s.reps| == 2 && p < 2
  {
    if adopted.Some? then Idle else Fast(if look then {0, 1} else {p}, s.reps[p].fuo)
  }

  /** Both replicas have e, and p has yet to decide. */
  function Serving(s: State, p: nat, e: Entry, next: Phase): State
    requires CanElect(s, p)
  {
    var q, slot, n := Other(p), s.reps[p].fuo, NumberOf(s, p);
    assert |s.reps[q].granted| == 2 by { TwoShape(s); }
    var mine := Elected(s, p).(propNr := n, minProp := n, log := s.reps[p].log[slot := e]);
    var other := Granted(s.reps[q], p, s.reps[p].reqNr).(minProp := n, log := s.reps[q].log[slot := e]);
    State(s.ids, if p == 0 then [mine, other] else [other, mine],
          s.terms + [Term(Token(p, s.reps[p].reqNr), Write(next), [SetProp(n), Put(slot, e)], [2, 2], {0, 1})])
  }

  /** ... and has decided. */
  function Served(s: State, p: nat, e: Entry, next: Phase): State
    requires CanElect(s, p)
  {
    var s' := Serving(s, p, e, next);
    SetPhase(SetRep(s', p, Decided(s'.reps[p])), |s.terms|, next)
  }

  lemma ServedIs(s: State, p: nat, e: Entry, next: Phase)
    requires CanElect(s, p)
    ensures var s', q, slot, n, k := Served(s, p, e, next), Other(p), s.reps[p].fuo, NumberOf(s, p), s.reps[p].reqNr;
            && s'.ids == s.ids && |s'.reps| == 2 && |s.reps[q].granted| == 2
            && s'.reps[p] == Decided(Elected(s, p).(propNr := n, minProp := n, log := s.reps[p].log[slot := e]))
            && s'.reps[q] == Granted(s.reps[q], p, k).(minProp := n, log := s.reps[q].log[slot := e])
            && s'.terms == s.terms + [Term(Token(p, k), next, [SetProp(n), Put(slot, e)], [2, 2], {0, 1})]
  {
    hide Elected, NumberOf, Max, Multiple, TermShape;
    TwoShape(s);
  }

  function ServingEvents(s: State, p: nat, look: bool, e: Entry, adopted: Option<Entry>): seq<Event>
    requires |s.reps| == 2 && p < 2
  {
    var b, q := |s.terms|, Other(p);
    ElectionEvents(s, p) + [Start(p)]
    + (CatchUpEvents(b, q) + (if NumberOf(s, p) == s.reps[p].propNr then [] else RetryEvents(b, q))
        + AnnounceEvents(b, q, look))
    + ([Writing(b, e, adopted)] + [Deliver(b, q)])
  }

  /** The leadership that has begun, with the number it will use. */
  function Numbered(s: State, p: nat): State
    requires CanElect(s, p)
  {
    var s1 := Begun(s, p);
    SetRep(s1, p, s1.reps[p].(propNr := NumberOf(s, p)))
  }

  lemma BegunCan(s: State, p: nat, look: bool, e: Entry, adopted: Option<Entry>)
    requires CanServe(s, p, look, e, adopted) && Two(Begun(s, p))
    ensures var s1, b := Begun(s, p), |s.terms|;
            && CanCatchUp(s1, b) && Pid(s1, b) == p
            && (if NumberOf(s, p) == s.reps[p].propNr then CanPropose(s1, b) && Numbered(s, p) == s1
                else !CanPropose(s1, b) && Raised(s1, b) == Numbered(s, p) && CanPropose(Raised(s1, b), b))
  {
    hide Max, Multiple, RepShape;
    var s1, b := Begun(s, p), |s.terms|;
    TwoShape(s);
    SameNumbers(s, s1);
    assert TermShape(s1, b);
    assert s1.reps[p].propNr == s.reps[p].propNr && s1.reps[0].minProp == s.reps[0].minProp
        && s1.reps[1].minProp == s.reps[1].minProp;
    assert CanCatchUp(s1, b);
    if NumberOf(s, p) == s.reps[p].propNr {
      assert s1.reps[p].(propNr := NumberOf(s, p)) == s1.reps[p];
      assert SetRep(s1, p, s1.reps[p]).reps == s1.reps;
    } else {
      RaisedTwo(s1, b);
    }
  }

  lemma ReadsInTurn(s: State, p: nat, look: bool, e: Entry, adopted: Option<Entry>)
    requires CanServe(s, p, look, e, adopted)
    ensures CanPropose(Numbered(s, p), |s.terms|)
    ensures var b, q := |s.terms|, Other(p);
            var s2 := SlotRead(Numbered(s, p), b, look);
            && Two(s2) && IsTerm(s2, b)
            && Leads(s, ElectionEvents(s, p) + [Start(p)]
                        + (CatchUpEvents(b, q) + (if NumberOf(s, p) == s.reps[p].propNr then [] else RetryEvents(b, q))
                           + AnnounceEvents(b, q, look)), s2)
  {
    hide Leads, Begun, SlotRead, Numbered, CanPropose, Raised, NumberOf, Max, Multiple, TermShape, RepShape;
    hide CatchUpEvents, RetryEvents, AnnounceEvents, ElectionEvents;
    var s1, b, q := Begun(s, p), |s.terms|, Other(p);
    BeginsTerm(s, p);
    BegunCan(s, p, look, e, adopted);
    var s2, start := SlotRead(Numbered(s, p), b, look), ElectionEvents(s, p) + [Start(p)];
    if NumberOf(s, p) == s.reps[p].propNr {
      ReadsSlot(s1, b, look);
      assert CatchUpEvents(b, q) + [] + AnnounceEvents(b, q, look) == CatchUpEvents(b, q) + AnnounceEvents(b, q, look);
      LeadsOn(s, start, s1, CatchUpEvents(b, q) + AnnounceEvents(b, q, look), s2);
    } else {
      ReadsSlotOnRetry(s1, b, look);
      LeadsOn(s, start, s1, CatchUpEvents(b, q) + RetryEvents(b, q) + AnnounceEvents(b, q, look), s2);
    }
  }

  /** What the state it writes in looks like. */
  lemma SlotReadIs(s: State, a: nat, look: bool)
    requires CanPropose(s, a) && s.terms[a].ops == [] && s.terms[a].done == [0, 0] && s.terms[a].touched == {}
    ensures var s2, n := SlotRead(s, a, look), Leader(s, a).propNr;
            && s2.ids == s.ids && s2.terms
                == s.terms[a := Term(s.terms[a].tok, ReadPhase(s, a, look), [SetProp(n)], [1, 1], {0, 1})]
            && s2.reps == [s.reps[0].(minProp := n), s.reps[1].(minProp := n)]
  {
    hide Max, RepShape;
    var s2 := SlotRead(s, a, look);
    assert {} + {0, 1} + {0, 1} + {} == {0, 1};
    assert s2.terms[a].ops == [SetProp(Leader(s, a).propNr)];
    assert s2.terms[a].touched == {0, 1};
    assert s2.terms == s.terms[a := Term(s.terms[a].tok, ReadPhase(s, a, look), [SetProp(Leader(s, a).propNr)], [1, 1],
        {0, 1})];
  }

  lemma NumberedIs(s: State, p: nat)
    requires CanElect(s, p)
    ensures var s1, b, k := Numbered(s, p), |s.terms|, s.reps[p].reqNr;
            && s1.ids == s.ids && |s1.reps| == 2 && s1.terms == s.terms + [Term(Token(p, k), Idle, [], [0, 0], {})]
            && s1.reps[p] == Elected(s, p).(propNr := NumberOf(s, p))
            && |s.reps[Other(p)].granted| == 2 && s1.reps[Other(p)] == Granted(s.reps[Other(p)], p, k)
  {
    hide Max, Multiple, Elected, TermShape;
    TwoShape(s);
    assert seq(2, _ => 0) == [0, 0];
  }

  /** The guards of the write, and what it posts. */
  lemma WritesFrom(s: State, b: nat, found: map<nat, Option<Entry>>, e: Entry, adopted: Option<Entry>)
    requires Shape(s) && SlotsRead(s, b) && s.terms[b].phase == ReadSlot(found)
    requires e.prop == Leader(s, b).propNr && e.term == b
    requires if adopted.Some? then
               IsFreshest(adopted.value, LocalSlot(s, b), found) && e.val == adopted.value.val
                   && e.fuo == adopted.value.fuo
             else NothingRead(LocalSlot(s, b), found) && e.val.Value? && e.fuo == Leader(s, b).fuo
    ensures var ev := Writing(b, e, adopted);
            && Enabled(s, ev) && CallerProposes(ev) && PostedOp(s, ev) == Put(Leader(s, b).fuo, e)
            && PostedPhase(s, ev) == Write(if adopted.Some? then Idle else Fast(found.Keys
                + {Pid(s, b)}, Leader(s, b).fuo))
  {
    hide Shape, SlotsRead, IsFreshest, NothingRead, LocalSlot, TermShape;
  }

  /** It writes: the guards hold. */
  lemma WritesInTurn(s: State, p: nat, look: bool, e: Entry, adopted: Option<Entry>)
    requires CanServe(s, p, look, e, adopted) && CanPropose(Numbered(s, p), |s.terms|)
    requires var s2 := SlotRead(Numbered(s, p), |s.terms|, look); Two(s2) && IsTerm(s2, |s.terms|)
    ensures var s2, b, ev := SlotRead(Numbered(s, p), |s.terms|, look), |s.terms|, Writing(|s.terms|, e, adopted);
            && Shape(s2) && Enabled(s2, ev) && CallerProposes(ev)
            && PostedOp(s2, ev) == Put(s.reps[p].fuo, e)
                && PostedPhase(s2, ev) == Write(PhaseAfter(s, p, look, adopted))
  {
    hide Max, Multiple, SlotRead, Numbered, CanPropose, RepShape, TermShape, Ids, FastLeft, IsFreshest, NothingRead,
        Enabled, PostedOp, PostedPhase;
    SlotFound(s, p, look);
    TwoElects(s, p);
    hide CanElect, NumberOf, Clear, SlotsRead, Two, Shape, Found;
    WritesFrom(SlotRead(Numbered(s, p), |s.terms|, look), |s.terms|, Found(s, p, look), e, adopted);
    Readers(s, p, look);
  }

  lemma Readers(s: State, p: nat, look: bool)
    requires |s.reps| == 2 && p < 2
    ensures Found(s, p, look).Keys + {p} == if look then {0, 1} else {p}
  {}

  lemma SlotFound(s: State, p: nat, look: bool)
    requires CanElect(s, p) && CanPropose(Numbered(s, p), |s.terms|)
    requires var s2 := SlotRead(Numbered(s, p), |s.terms|, look); Two(s2) && IsTerm(s2, |s.terms|)
    ensures var s2, b := SlotRead(Numbered(s, p), |s.terms|, look), |s.terms|;
            && Clear(s2, b) && Pid(s2, b) == p && SlotsRead(s2, b)
            && s2.terms[b].phase == ReadSlot(Found(s, p, look))
            && Leader(s2, b).fuo == s.reps[p].fuo && Leader(s2, b).propNr == NumberOf(s, p)
                && Leader(s2, b).log == s.reps[p].log
  {
    hide Max, Multiple, SlotRead, Numbered, CanPropose, RepShape, TermShape, Ids, NumberOf;
    NumberedIs(s, p);
    SlotReadIs(Numbered(s, p), |s.terms|, look);
  }

  lemma SentIsServing(s: State, p: nat, look: bool, e: Entry, next: Phase)
    requires CanElect(s, p) && CanPropose(Numbered(s, p), |s.terms|)
    requires var s2 := SlotRead(Numbered(s, p), |s.terms|, look); Two(s2) && IsTerm(s2, |s.terms|)
    ensures Sent(SlotRead(Numbered(s, p), |s.terms|, look), |s.terms|, Put(s.reps[p].fuo, e), Write(next))
        == Serving(s, p, e, next)
  {
    hide Max, Multiple, SlotRead, Numbered, CanPropose, RepShape, TermShape, Ids, NumberOf, Elected;
    NumberedIs(s, p);
    SlotReadIs(Numbered(s, p), |s.terms|, look);
    ElectedIs(s, p);
    var s3, w := Sent(SlotRead(Numbered(s, p), |s.terms|, look), |s.terms|, Put(s.reps[p].fuo, e), Write(next)),
        Serving(s, p, e, next);
    assert s3.reps[p] == w.reps[p] && s3.reps[Other(p)] == w.reps[Other(p)];
    assert s3.reps == w.reps;
    assert s3.terms[|s.terms|] == w.terms[|s.terms|];
    assert s3.terms == w.terms;
  }

  lemma ElectedIs(s: State, p: nat)
    requires CanElect(s, p)
    ensures Elected(s, p).log == s.reps[p].log && Elected(s, p).fuo == s.reps[p].fuo
  {
    hide Max, Multiple;
  }

  /** The turn, up to where the entry has arrived. */
  lemma ServesUntil(s: State, p: nat, look: bool, e: Entry, adopted: Option<Entry>)
    requires CanServe(s, p, look, e, adopted)
    ensures var s3 := Serving(s, p, e, PhaseAfter(s, p, look, adopted));
            && Leads(s, ServingEvents(s, p, look, e, adopted), s3)
            && Two(s3) && IsTerm(s3, |s.terms|) && Enabled(s3, Decide(|s.terms|))
  {
    hide Leads, SlotRead, Numbered, CanPropose, Serving, Enabled, Sent, Clear, PostedOp, PostedPhase, TermShape,
        RepShape;
    hide Max, Multiple, ElectionEvents, CatchUpEvents, RetryEvents, AnnounceEvents;
    ReadsInTurn(s, p, look, e, adopted);
    SlotFound(s, p, look);
    WritesInTurn(s, p, look, e, adopted);
    SentIsServing(s, p, look, e, PhaseAfter(s, p, look, adopted));
    var b, q, next := |s.terms|, Other(p), PhaseAfter(s, p, look, adopted);
    var s2, op, ev := SlotRead(Numbered(s, p), b, look), Put(s.reps[p].fuo, e), Writing(b, e, adopted);
    Sends(s2, b, ev, op, Write(next));
    CanDecide(s2, b, ev, op, next);
    LeadsOn(s, ElectionEvents(s, p) + [Start(p)]
               + (CatchUpEvents(b, q) + (if NumberOf(s, p) == s.reps[p].propNr then [] else RetryEvents(b, q))
                  + AnnounceEvents(b, q, look)),
            s2, [ev] + [Deliver(b, q)], Serving(s, p, e, next));
  }

  // ---------------------------------------------------------------------
  // From state to state
  // ---------------------------------------------------------------------

  /** A decision, or the end, of one of the first n leaderships. */
  predicate Ends(ev: Event, n: nat) {
    (ev.Decide? || ev.Abort?) && ev.a < n
  }

  /** A piece of a run leads from s to s'; callers propose exactly these values, and
      no call of the leaderships in s comes to its end. */
  ghost predicate Gets(s: State, proposed: seq<Value>, s': State) {
    exists events :: GetsBy(s, events, proposed, s')
  }

  ghost predicate GetsBy(s: State, events: seq<Event>, proposed: seq<Value>, s': State) {
    && Leads(s, events, s') && Proposed(events) == proposed && |s.terms| <= |s'.terms|
    && forall i :: 0 <= i < |events| ==> !Ends(events[i], |s.terms|)
  }

  lemma GetsOne(s: State, ev: Event, s': State)
    requires Shape(s) && Enabled(s, ev) && Next(s, ev) == s' && CallerProposes(ev) && N(s) == N(s') == 2
    requires !Ends(ev, |s.terms|) && |s.terms| <= |s'.terms|
    ensures Gets(s, ProposedBy(ev), s')
  {
    hide Leads, Enabled, Next, Shape;
    LeadsOne(s, ev, s');
    OneProposed(ev, []);
    assert [ev] + [] == [ev];
    assert GetsBy(s, [ev], ProposedBy(ev), s');
  }

  lemma GetsOn(s: State, proposed: seq<Value>, s': State, more: seq<Value>, s'': State)
    requires Gets(s, proposed, s') && Gets(s', more, s'')
    ensures Gets(s, proposed + more, s'')
  {
    hide Leads;
    var x :| GetsBy(s, x, proposed, s');
    var y :| GetsBy(s', y, more, s'');
    LeadsOn(s, x, s', y, s'');
    ProposedTogether(x, y);
    assert GetsBy(s, x + y, proposed + more, s'');
  }

  /** Nothing is proposed, and no call ends. */
  predicate Calm(events: seq<Event>) {
    forall i :: 0 <= i < |events| ==> ProposedBy(events[i]) == [] && !events[i].Decide? && !events[i].Abort?
  }

  lemma GetsCalmly(s: State, events: seq<Event>, s': State)
    requires Leads(s, events, s') && Calm(events) && |s.terms| <= |s'.terms|
    ensures Gets(s, [], s')
  {
    hide Leads;
    NothingProposed(events);
    assert GetsBy(s, events, [], s');
  }

  lemma TurnIsCalm(s: State, p: nat, b: nat, q: nat, look: bool)
    requires |s.reps| == 2 && p < 2
    ensures Calm(ElectionEvents(s, p) + [Start(p)]) && Calm(CatchUpEvents(b, q))
    ensures Calm(RetryEvents(b, q)) && Calm(AnnounceEvents(b, q, look))
  {
    hide Other;
  }

  /** After calm events one more call proposes its value, and nothing else. */
  lemma CallAfterCalm(before: seq<Event>, ev: Event, more: seq<Event>)
    requires Calm(before) && Calm(more)
    ensures Proposed(before + ([ev] + more)) == ProposedBy(ev)
  {
    NothingProposed(before);
    NothingProposed(more);
    hide Calm, ProposedBy;
    ProposedTogether(before, [ev] + more);
    OneProposed(ev, more);
    hide Proposed;
    assert ProposedBy(ev) + [] == ProposedBy(ev);
  }

  lemma CallEndsNothing(before: seq<Event>, ev: Event, more: seq<Event>, n: nat)
    requires Calm(before) && Calm(more) && !ev.Decide? && !ev.Abort?
    ensures var all := before + ([ev] + more); forall i :: 0 <= i < |all| ==> !Ends(all[i], n)
  {
    hide ProposedBy;
    var all := before + ([ev] + more);
    forall i | 0 <= i < |all| ensures !Ends(all[i], n) {
      assert all[i] == if i < |before| then before[i] else if i == |before| then ev else more[i - |before| - 1];
    }
  }

  lemma ServingProposes(s: State, p: nat, look: bool, e: Entry, adopted: Option<Entry>)
    requires CanServe(s, p, look, e, adopted)
    ensures Proposed(ServingEvents(s, p, look, e, adopted)) == if adopted.Some? then [] else [e.val]
    ensures var events := ServingEvents(s, p, look, e, adopted);
            forall i :: 0 <= i < |events| ==> !Ends(events[i], |s.terms|)
  {
    hide CanElect, ElectionEvents, CatchUpEvents, RetryEvents, AnnounceEvents, Proposed;
    assert |s.reps| == 2 && p < 2 by { TwoElects(s, p); }
    hide NumberOf, IsFreshest, NothingRead, Found, FastLeft;
    var b, q := |s.terms|, Other(p);
    TurnIsCalm(s, p, b, q, look);
    var before := ElectionEvents(s, p) + [Start(p)]
      + (CatchUpEvents(b, q) + (if NumberOf(s, p) == s.reps[p].propNr then [] else RetryEvents(b, q))
          + AnnounceEvents(b, q, look));
    assert Calm(before);
    CallAfterCalm(before, Writing(b, e, adopted), [Deliver(b, q)]);
    CallEndsNothing(before, Writing(b, e, adopted), [Deliver(b, q)], b);
  }

  lemma TwoElects(s: State, p: nat)
    requires CanElect(s, p)
    ensures |s.reps| == 2 && p < 2
  {}

  /** The whole turn. */
  lemma Serves(s: State, p: nat, look: bool, e: Entry, adopted: Option<Entry>)
    requires CanServe(s, p, look, e, adopted)
    ensures var s' := Served(s, p, e, PhaseAfter(s, p, look, adopted));
            Two(s') && Gets(s, if adopted.Some? then [] else [e.val], s')
  {
    hide Leads, CanElect, Enabled, Serving, ServingEvents, TermShape, RepShape, Max;
    assert |s.reps| == 2 && p < 2 by { TwoElects(s, p); }
    ServesUntil(s, p, look, e, adopted);
    ServingProposes(s, p, look, e, adopted);
    var next, b, events := PhaseAfter(s, p, look, adopted), |s.terms|, ServingEvents(s, p, look, e, adopted);
    var s3, s4 := Serving(s, p, e, next), Served(s, p, e, next);
    ServingTerm(s, p, e, next);
    DecidedTwo(s3, b);
    assert Next(s3, Decide(b)) == s4;
    LeadsOneMore(s, events, s3, Decide(b), s4);
    OneProposed(Decide(b), []);
    assert [Decide(b)] + [] == [Decide(b)];
    ProposedTogether(events, [Decide(b)]);
    var all, proposed := events + [Decide(b)], if adopted.Some? then [] else [e.val];
    assert proposed + [] == proposed;
    assert GetsBy(s, all, proposed, s4);
  }

  lemma ServingTerm(s: State, p: nat, e: Entry, next: Phase)
    requires CanElect(s, p)
    ensures |Serving(s, p, e, next).terms| == |s.terms| + 1
    ensures Serving(s, p, e, next).terms[|s.terms|].phase == Write(next)
        && Serving(s, p, e, next).terms[|s.terms|].tok.pid == p
  {
    hide Elected;
  }
}
