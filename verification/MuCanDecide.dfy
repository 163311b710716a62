module MuCanDecide {
  // From every state of every run somebody can go on: a call whose leader keeps its
  // permission can finish, and any replica can become leader and finish one.

  import opened Options
  import opened Quorums
  import opened MuModel
  import opened MuHistory
  import opened MuElection
  import opened MuSafety
  import opened MuLogs
  import opened MuPhases
  import opened MuAgreement
  import opened MuProgress

  // ---------------------------------------------------------------------
  // A call finishes
  // ---------------------------------------------------------------------

  /** The call's next step. */
  lemma NextStep(s: State, a: nat, alive: set<nat>, bound: nat, v: Value) returns (ev: Event, s': State)
    requires IsTerm(s, a) && GoesOn(s, a, alive, bound)
    ensures OfCall(ev, a, alive, v) && StepTo(s, ev, s')
    ensures ev == Decide(a) || (!ev.Decide? && GoesOn(s', a, alive, bound) && Nearer(s, s', a, alive, bound))
  {
    hide Inv, Shape, GoesOn, Nearer, StepTo, Holds;
    GoesParts(s, a, alive, bound);
    if r :| r in alive && r < N(s) && s.terms[a].done[r] < |s.terms[a].ops| {
      ev := Deliver(a, r);
      s' := DeliverGoes(s, a, alive, bound, r);
    } else {
      assert AllArrived(s, a, alive);
      ev, s' := PhaseStep(s, a, alive, bound, v);
    }
  }

  lemma PhaseStep(s: State, a: nat, alive: set<nat>, bound: nat, v: Value) returns (ev: Event, s': State)
    requires IsTerm(s, a) && GoesOn(s, a, alive, bound) && AllArrived(s, a, alive)
    ensures OfCall(ev, a, alive, v) && StepTo(s, ev, s')
    ensures ev == Decide(a) || (!ev.Decide? && GoesOn(s', a, alive, bound) && Nearer(s, s', a, alive, bound))
  {
    hide Inv, Shape, GoesOn, Nearer, StepTo, Holds, AllArrived, ProposalsRead, ProposalIsHigh, SlotsRead, Enabled, Next,
        Behind;
    GoesParts(s, a, alive, bound);
    BusyNow(s, a, alive, bound);
    match s.terms[a].phase
    case CatchFuo(_) =>
      if r :| r in Unheard(s, a, alive) {
        ev := ReadFuo(a, r);
        s' := ReadFuoGoes(s, a, alive, bound, r);
      } else {
        ev := EndCatchFuo(a);
        s' := EndCatchFuoGoes(s, a, alive, bound);
      }
    case Update(upto) =>
      if r :| r in upto && upto[r] < Leader(s, a).fuo {
        ev := PostCopy(a, r);
        s' := PostCopyGoes(s, a, alive, bound, r);
      } else {
        ev := EndUpdate(a);
        s' := EndUpdateGoes(s, a, alive, bound);
      }
    case CatchProp(_) =>
      ev, s' := ProposalStep(s, a, alive, bound);
    case UpdProp =>
      ev := EndProp(a);
      s' := EndPropGoes(s, a, alive, bound);
    case ReadSlot(_) =>
      if r :| r in Unheard(s, a, alive) {
        ev := ReadRemoteSlot(a, r);
        s' := ReadSlotGoes(s, a, alive, bound, r);
      } else {
        SlotsIn(s, a, alive);
        ev, s' := ValueGoes(s, a, alive, bound, v);
      }
    case Write(_) =>
      ev := Decide(a);
      WriteThere(s, a);
      FewBehind(s, a, alive);
      AckedIff(s, a);
      s' := Next(s, ev);
      assert StepTo(s, ev, s') by { StepIs(s, ev); }
  }

  lemma StepIs(s: State, ev: Event)
    requires Shape(s) && Enabled(s, ev)
    ensures StepTo(s, ev, Next(s, ev))
  {}

  lemma BusyNow(s: State, a: nat, alive: set<nat>, bound: nat)
    requires IsTerm(s, a) && GoesOn(s, a, alive, bound)
    ensures s.terms[a].phase.Busy()
  {
    hide Inv, Holds;
  }

  lemma ProposalStep(s: State, a: nat, alive: set<nat>, bound: nat) returns (ev: Event, s': State)
    requires IsTerm(s, a) && s.terms[a].phase.CatchProp? && GoesOn(s, a, alive, bound)
    ensures OfCall(ev, a, alive, Value([])) && (ev.ReadProp? || ev.RetryProp? || ev.PostProp?) && ev.a == a
    ensures ev.ReadProp? ==> ev.r in alive
    ensures StepTo(s, ev, s') && GoesOn(s', a, alive, bound) && Nearer(s, s', a, alive, bound)
  {
    hide Inv, Shape, GoesOn, Nearer, StepTo, Holds, ProposalsRead, ProposalIsHigh;
    GoesParts(s, a, alive, bound);
    if r :| r in Unheard(s, a, alive) {
      ev := ReadProp(a, r);
      s' := ReadPropGoes(s, a, alive, bound, r);
    } else {
      ProposalsIn(s, a, alive);
      if ProposalIsHigh(s, a) {
        ev := PostProp(a);
        s' := PostPropGoes(s, a, alive, bound);
      } else {
        ev := RetryProp(a);
        s' := RetryGoes(s, a, alive, bound);
      }
    }
  }

  /** A piece of a run. */
  predicate IsPiece(states: seq<State>, events: seq<Event>) {
    |states| == |events| + 1 && forall i :: 0 <= i < |events| ==> StepAt(states, events, i)
  }

  lemma PieceBefore(s: State, ev: Event, states: seq<State>, events: seq<Event>)
    requires IsPiece(states, events) && |states| > 0 && StepTo(s, ev, states[0])
    ensures IsPiece([s] + states, [ev] + events)
  {
    hide Shape, Enabled, Next;
    forall i | 0 <= i < |events| + 1 ensures StepAt([s] + states, [ev] + events, i) {
      if i > 0 {
        assert StepAt(states, events, i - 1);
      }
    }
  }

  /** All steps are of this call, and only the last one decides. */
  predicate IsCall(events: seq<Event>, a: nat, alive: set<nat>, v: Value) {
    && |events| > 0 && events[|events| - 1] == Decide(a)
    && forall i :: 0 <= i < |events| ==> OfCall(events[i], a, alive, v) && (i < |events| - 1 ==> !events[i].Decide?)
  }

  lemma CallBefore(ev: Event, events: seq<Event>, a: nat, alive: set<nat>, v: Value)
    requires OfCall(ev, a, alive, v)
    requires if ev == Decide(a) then events == [] else !ev.Decide? && IsCall(events, a, alive, v)
    ensures IsCall([ev] + events, a, alive, v)
  {
    hide OfCall;
    assert forall i :: 0 < i <= |events| ==> ([ev] + events)[i] == events[i - 1];
  }

  lemma NoPiece(s: State)
    ensures IsPiece([s], [])
  {}

  lemma {:induction false} Finishes(s: State, a: nat, alive: set<nat>, bound: nat, v: Value)
    returns (states: seq<State>, events: seq<Event>)
    requires IsTerm(s, a) && GoesOn(s, a, alive, bound)
    ensures IsPiece(states, events) && |states| > 0 && states[0] == s && IsCall(events, a, alive, v)
    decreases Rank(s.terms[a].phase), ToDo(s, a, bound), |Unheard(s, a, alive)|, PendingAll(s, a, alive)
  {
    hide GoesOn, StepTo, OfCall, TermShape, Rank, ToDo, Unheard, PendingAll, IsPiece, IsCall;
    var ev, s' := NextStep(s, a, alive, bound, v);
    if ev == Decide(a) {
      NoPiece(s');
      states, events := [s'], [];
    } else {
      states, events := Finishes(s', a, alive, bound, v);
    }
    PieceBefore(s, ev, states, events);
    CallBefore(ev, events, a, alive, v);
    states, events := [s] + states, [ev] + events;
  }

  // ---------------------------------------------------------------------
  // From any state
  // ---------------------------------------------------------------------

  lemma {:induction false} AboveAll(xs: set<nat>) returns (bound: nat)
    ensures forall x :: x in xs ==> x <= bound
    decreases |xs|
  {
    if xs == {} {
      bound := 0;
    } else {
      var x :| x in xs;
      var rest := AboveAll(xs - {x});
      assert forall y :: y in xs ==> y == x || y in xs - {x};
      bound := if rest < x then x else rest;
    }
  }

  lemma BoundThere(s: State, a: nat) returns (bound: nat)
    requires IsTerm(s, a)
    ensures Bounded(s, a, bound)
  {
    hide TermShape;
    var ops, phase := s.terms[a].ops, s.terms[a].phase;
    var mins := set r | 0 <= r < N(s) :: s.reps[r].minProp;
    var announced := set k | 0 <= k < |ops| && ops[k].SetProp? :: ops[k].prop;
    var read := if phase.CatchProp? then set r | r in phase.props :: phase.props[r] else {};
    bound := AboveAll(mins + announced + read);
    forall r | 0 <= r < N(s) ensures s.reps[r].minProp <= bound {
      assert s.reps[r].minProp in mins;
    }
    forall k | 0 <= k < |ops| && ops[k].SetProp? ensures ops[k].prop <= bound {
      assert ops[k].prop in announced;
    }
    if phase.CatchProp? {
      forall r | r in phase.props ensures phase.props[r] <= bound {
        assert phase.props[r] in read;
      }
    }
  }

  /** The call is running, or can begin: on the fast path, or on the slow path while
      everybody answers. */
  predicate CanCall(s: State, a: nat, alive: set<nat>)
    requires IsTerm(s, a)
  {
    match s.terms[a].phase
    case Dead => false
    case Idle => CaughtUp(Leader(s, a)) && alive == Ids(N(s))
    case Fast(_, _) => CaughtUp(Leader(s, a))
    case _ => OffsetsSafe(s, a, alive)
  }

  lemma BeginSlowIs(s: State, a: nat)
    requires Shape(s) && IsTerm(s, a) && s.terms[a].phase.Idle? && Own(s, a) && CaughtUp(Leader(s, a))
    ensures StepTo(s, BeginSlow(a), AfterRead(s, a, Pid(s, a), CatchFuo(map[])))
  {}

  lemma PostFastIs(s: State, a: nat, v: Value)
    requires Shape(s) && IsTerm(s, a) && s.terms[a].phase.Fast? && Own(s, a) && CaughtUp(Leader(s, a))
    ensures StepTo(s, PostFast(a, v), Post(s, a, PutOp(s, a, v, Leader(s, a).fuo), Write(s.terms[a].phase)))
  {}

  lemma BeginsSlowly(s: State, a: nat) returns (s': State, bound: nat)
    requires Inv(s) && IsTerm(s, a) && s.terms[a].phase.Idle? && Holds(s, a, Ids(N(s))) && CaughtUp(Leader(s, a))
    ensures StepTo(s, BeginSlow(a), s') && N(s') == N(s) && GoesOn(s', a, Ids(N(s)), bound) && IsTerm(s', a)
  {
    hide Inv, Shape, StepTo, AfterRead;
    InvShape(s);
    BeginSlowIs(s, a);
    s' := AfterRead(s, a, Pid(s, a), CatchFuo(map[]));
    StepHolds(s, BeginSlow(a), s', a, Ids(N(s)));
    AfterReadIs(s, a, Pid(s, a), CatchFuo(map[]));
    bound := BoundThere(s', a);
  }

  lemma PostsFast(s: State, a: nat, alive: set<nat>, v: Value) returns (s': State)
    requires Inv(s) && IsTerm(s, a) && s.terms[a].phase.Fast? && Holds(s, a, alive) && CaughtUp(Leader(s, a))
    ensures StepTo(s, PostFast(a, v), s') && IsTerm(s', a) && GoesOn(s', a, alive, 0)
  {
    hide Inv, Shape, StepTo, Post, PutOp;
    InvShape(s);
    PostFastIs(s, a, v);
    var op, phase := PutOp(s, a, v, Leader(s, a).fuo), Write(s.terms[a].phase);
    s' := Post(s, a, op, phase);
    StepHolds(s, PostFast(a, v), s', a, alive);
    PostEffect(s, a, op, phase);
  }

  /** CALLS CAN FINISH.  In every state of the protocol, as long as the leader and as many
      others as a quorum needs grant it access, a call of propose that is running, or
      may begin, can go on to decide its slot, by steps of its own and of the network to
      those replicas only. */
  lemma CallCanFinish(s: State, a: nat, alive: set<nat>, v: Value) returns (states: seq<State>, events: seq<Event>)
    requires Inv(s) && IsTerm(s, a) && Holds(s, a, alive) && CanCall(s, a, alive)
    ensures IsPiece(states, events) && |states| > 0 && states[0] == s && IsCall(events, a, alive, v)
  {
    hide Inv, Shape, GoesOn, StepTo, IsPiece, IsCall, OfCall, Holds, TermShape;
    if s.terms[a].phase.Idle? {
      var s', bound := BeginsSlowly(s, a);
      states, events := Finishes(s', a, alive, bound, v);
      FirstStep(s, BeginSlow(a), states, events, a, alive, v);
      states, events := [s] + states, [BeginSlow(a)] + events;
    } else if s.terms[a].phase.Fast? {
      var s' := PostsFast(s, a, alive, v);
      states, events := Finishes(s', a, alive, 0, v);
      FirstStep(s, PostFast(a, v), states, events, a, alive, v);
      states, events := [s] + states, [PostFast(a, v)] + events;
    } else {
      var bound := BoundThere(s, a);
      RunningGoes(s, a, alive, bound);
      states, events := Finishes(s, a, alive, bound, v);
    }
  }

  lemma FirstStep(s: State, ev: Event, states: seq<State>, events: seq<Event>, a: nat, alive: set<nat>, v: Value)
    requires IsPiece(states, events) && |states| > 0 && StepTo(s, ev, states[0]) && IsCall(events, a, alive, v)
    requires ev == BeginSlow(a) || ev == PostFast(a, v)
    ensures IsPiece([s] + states, [ev] + events) && IsCall([ev] + events, a, alive, v)
  {
    PieceBefore(s, ev, states, events);
    CallBefore(ev, events, a, alive, v);
  }

  lemma RunningGoes(s: State, a: nat, alive: set<nat>, bound: nat)
    requires Inv(s) && IsTerm(s, a) && Holds(s, a, alive) && CanCall(s, a, alive) && Bounded(s, a, bound)
    requires s.terms[a].phase.Busy()
    ensures GoesOn(s, a, alive, bound)
  {
    hide Inv, Holds;
  }
}
