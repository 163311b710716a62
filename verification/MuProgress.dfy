// Mu: calls can finish.

module MuProgress {
  // No call of propose gets stuck.  When exactly each wait of a call ends, and that a
  // leader whose permission lasts can finish its call, whatever has happened before,
  // without the replicas that the quorums may do without.

  import opened Options
  import opened Quorums
  import opened MuModel
  import opened MuHistory
  import opened MuElection
  import opened MuSafety
  import opened MuLogs
  import opened MuPhases
  import opened MuAgreement

  // ---------------------------------------------------------------------
  // When each wait ends
  // ---------------------------------------------------------------------

  /** Remotes that some write of the leader has not reached yet. */
  function Behind(s: State, a: nat): set<nat>
    requires IsTerm(s, a)
  {
    set r | r in Remotes(s, Pid(s, a)) && s.terms[a].done[r] < |s.terms[a].ops|
  }

  /** Remotes to which a copy is still under way. */
  function Uncopied(s: State, a: nat): set<nat>
    requires IsTerm(s, a)
  {
    set r | r in Remotes(s, Pid(s, a)) && !CopiesArrived(s.terms[a], r)
  }

  lemma RemotesSplit(s: State, a: nat, heard: set<nat>, missing: set<nat>)
    requires IsTerm(s, a) && heard + missing == Remotes(s, Pid(s, a)) && heard !! missing
    ensures |heard| >= RemoteStrictMajority(N(s) - 1) <==> |missing| <= ToleratedFailures(N(s))
  {
    EnoughIff(N(s), Pid(s, a), heard);
    assert Ids(N(s)) - {Pid(s, a)} - heard == missing;
  }

  lemma LastAckedIff(s: State, a: nat)
    requires Shape(s) && IsTerm(s, a) && |s.terms[a].ops| > 0
    ensures LastAcked(s, a) <==> |Behind(s, a)| <= ToleratedFailures(N(s))
  {
    hide Shape, RepShape;
    var acked := Acks(s, a, |s.terms[a].ops| - 1) - {Pid(s, a)};
    assert acked + Behind(s, a) == Remotes(s, Pid(s, a));
    RemotesSplit(s, a, acked, Behind(s, a));
  }

  lemma AllCopiedIff(s: State, a: nat)
    requires IsTerm(s, a)
    ensures |set r | r in Remotes(s, Pid(s, a)) && CopiesArrived(s.terms[a], r)| >= RemoteStrictMajority(N(s) - 1)
       <==> |Uncopied(s, a)| <= ToleratedFailures(N(s))
  {
    hide CopiesArrived;
    var copied := set r | r in Remotes(s, Pid(s, a)) && CopiesArrived(s.terms[a], r);
    assert copied + Uncopied(s, a) == Remotes(s, Pid(s, a));
    RemotesSplit(s, a, copied, Uncopied(s, a));
  }

  /** THE WAITS.  A wait for remotes is over as soon as no more of them are missing than
      it can do without: the write of a value and the announcement of the proposal, */
  lemma AckedIff(s: State, a: nat)
    requires Shape(s) && IsTerm(s, a) && |s.terms[a].ops| > 0
    ensures s.terms[a].phase.Write? ==> (Enabled(s, Decide(a)) <==> |Behind(s, a)| <= ToleratedFailures(N(s)))
    ensures s.terms[a].phase.UpdProp? ==> (Enabled(s, EndProp(a)) <==> |Behind(s, a)| <= ToleratedFailures(N(s)))
  {
    hide LastAcked, Shape, Behind, TermShape;
    LastAckedIff(s, a);
  }

  /** the copies for those that lag, */
  lemma CopiedIff(s: State, a: nat)
    requires Shape(s) && IsTerm(s, a) && s.terms[a].phase.Update?
    ensures Enabled(s, EndUpdate(a)) <==>
              && (forall r :: r in s.terms[a].phase.upto ==> s.terms[a].phase.upto[r] >= Leader(s, a).fuo)
              && |Uncopied(s, a)| <= ToleratedFailures(N(s))
  {
    AllCopiedIff(s, a);
    hide Shape, RepShape, TermShape, CopiesArrived, Uncopied, Remotes;
  }

  /** the reads of everybody's offset, which can do without nobody, */
  lemma OffsetsIff(s: State, a: nat)
    requires Shape(s) && IsTerm(s, a) && s.terms[a].phase.CatchFuo?
    requires s.terms[a].phase.fuos.Keys <= Remotes(s, Pid(s, a))
    ensures Enabled(s, EndCatchFuo(a)) <==> |Remotes(s, Pid(s, a)) - s.terms[a].phase.fuos.Keys| == 0
  {
    var all, heard := Remotes(s, Pid(s, a)), s.terms[a].phase.fuos.Keys;
    hide Shape, Remotes, Ids, TermShape;
    assert |all - heard| == 0 <==> heard == all by { NobodyMissing(all, heard); }
  }

  lemma NobodyMissing(all: set<nat>, heard: set<nat>)
    requires heard <= all
    ensures |all - heard| == 0 <==> heard == all
  {
    if all - heard == {} {
      assert heard == all;
    }
  }

  /** and the reads of proposals and of the slot. */
  lemma ReadIff(s: State, a: nat)
    requires Shape(s) && IsTerm(s, a)
    ensures s.terms[a].phase.CatchProp? && s.terms[a].phase.props.Keys <= Remotes(s, Pid(s, a)) ==>
              (ProposalsRead(s, a) <==>
               |Remotes(s, Pid(s, a)) - s.terms[a].phase.props.Keys| <= ToleratedFailures(N(s)))
    ensures s.terms[a].phase.ReadSlot? && s.terms[a].phase.slots.Keys <= Remotes(s, Pid(s, a)) && Own(s, a) ==>
              (SlotsRead(s, a) <==>
               |Remotes(s, Pid(s, a)) - s.terms[a].phase.slots.Keys| <= N(s) - Majority(N(s)))
  {
    hide RepShape;
    if s.terms[a].phase.CatchProp? && s.terms[a].phase.props.Keys <= Remotes(s, Pid(s, a)) {
      EnoughIff(N(s), Pid(s, a), s.terms[a].phase.props.Keys);
    }
    if s.terms[a].phase.ReadSlot? && s.terms[a].phase.slots.Keys <= Remotes(s, Pid(s, a)) {
      EnoughIff(N(s), Pid(s, a), s.terms[a].phase.slots.Keys);
    }
  }

  // ---------------------------------------------------------------------
  // Where a call stands
  // ---------------------------------------------------------------------

  /** The leader of term a and the replicas `alive` still grant it access; no more are
      left out than may fail. */
  ghost predicate Holds(s: State, a: nat, alive: set<nat>) {
    && IsTerm(s, a) && Pid(s, a) in alive && alive <= Ids(N(s))
    && |Ids(N(s)) - alive| <= ToleratedFailures(N(s))
    && forall r :: r in alive && r < N(s) ==> Open(s, a, r)
  }

  /** Whoever is not among `alive` has been asked for its offset before: that first wait
      is for everybody. */
  predicate OffsetsSafe(s: State, a: nat, alive: set<nat>)
    requires IsTerm(s, a)
  {
    s.terms[a].phase.CatchFuo? ==> Remotes(s, Pid(s, a)) - s.terms[a].phase.fuos.Keys <= alive
  }

  /** No proposal anywhere is above the bound. */
  predicate Bounded(s: State, a: nat, bound: nat)
    requires IsTerm(s, a)
  {
    && (forall r :: 0 <= r < N(s) ==> s.reps[r].minProp <= bound)
    && (forall k :: 0 <= k < |s.terms[a].ops| && s.terms[a].ops[k].SetProp? ==> s.terms[a].ops[k].prop <= bound)
    && (s.terms[a].phase.CatchProp? ==>
          forall r :: r in s.terms[a].phase.props ==> s.terms[a].phase.props[r] <= bound)
  }

  /** The phases of a call, counted down. */
  function Rank(phase: Phase): nat {
    match phase
    case CatchFuo(_) => 5
    case Update(_) => 4
    case CatchProp(_) => 3
    case UpdProp => 2
    case ReadSlot(_) => 1
    case _ => 0
  }

  /** How many copies are still to be posted for replicas 0 .. n-1. */
  function Gaps(upto: map<nat, nat>, fuo: nat, n: nat): nat {
    if n == 0 then 0
    else Gaps(upto, fuo, n - 1) + if n - 1 in upto && upto[n - 1] < fuo then fuo - upto[n - 1] else 0
  }

  function ToDo(s: State, a: nat, bound: nat): nat
    requires IsTerm(s, a)
  {
    match s.terms[a].phase
    case Update(upto) => Gaps(upto, Leader(s, a).fuo, N(s))
    case CatchProp(props) => if Leader(s, a).propNr < bound then bound - Leader(s, a).propNr else 0
    case _ => 0
  }

  /** Who has answered in this phase. */
  function Heard(phase: Phase): set<nat> {
    match phase
    case CatchFuo(fuos) => fuos.Keys
    case CatchProp(props) => props.Keys
    case ReadSlot(slots) => slots.Keys
    case _ => {}
  }

  function Unheard(s: State, a: nat, alive: set<nat>): set<nat>
    requires IsTerm(s, a)
  {
    alive - {Pid(s, a)} - Heard(s.terms[a].phase)
  }

  /** How many deliveries to replicas 0 .. n-1 of `alive` are still to come. */
  function Pending(t: Term, alive: set<nat>, n: nat): nat
    requires n <= |t.done| && forall r :: 0 <= r < n ==> t.done[r] <= |t.ops|
  {
    if n == 0 then 0 else Pending(t, alive, n - 1) + if n - 1 in alive then |t.ops| - t.done[n - 1] else 0
  }

  function PendingAll(s: State, a: nat, alive: set<nat>): nat
    requires IsTerm(s, a)
  {
    Pending(s.terms[a], alive, N(s))
  }

  /** s' is nearer to the end of the call than s: in a later phase, or with less to do in
      this one, or with more heard, or with more delivered. */
  predicate Nearer(s: State, s': State, a: nat, alive: set<nat>, bound: nat) {
    IsTerm(s, a) && IsTerm(s', a) && (
      var r, r' := Rank(s.terms[a].phase), Rank(s'.terms[a].phase);
      r' < r || (r' == r && (
        var d, d' := ToDo(s, a, bound), ToDo(s', a, bound);
        d' < d || (d' == d && (
          var u, u' := |Unheard(s, a, alive)|, |Unheard(s', a, alive)|;
          u' < u || (u' == u && PendingAll(s', a, alive) < PendingAll(s, a, alive)))))))
  }

  predicate StepTo(s: State, ev: Event, s': State) {
    Shape(s) && Enabled(s, ev) && s' == Next(s, ev)
  }

  /** The call goes on in s. */
  ghost predicate GoesOn(s: State, a: nat, alive: set<nat>, bound: nat) {
    && Inv(s) && Holds(s, a, alive) && s.terms[a].phase.Busy() && OffsetsSafe(s, a, alive)
    && (Rank(s.terms[a].phase) >= 3 ==> Bounded(s, a, bound))
  }

  /** A step of the call of term a that proposes v, or of the network to `alive`. */
  predicate OfCall(ev: Event, a: nat, alive: set<nat>, v: Value) {
    match ev
    case ReadFuo(b, r) => b == a && r in alive
    case ReadProp(b, r) => b == a && r in alive
    case ReadRemoteSlot(b, r) => b == a && r in alive
    case Deliver(b, r) => b == a && r in alive
    case PostNew(b, w) => b == a && w == v
    case PostFast(b, w) => b == a && w == v
    case BeginSlow(b) => b == a
    case EndCatchFuo(b) => b == a
    case PostCopy(b, r) => b == a
    case EndUpdate(b) => b == a
    case RetryProp(b) => b == a
    case PostProp(b) => b == a
    case EndProp(b) => b == a
    case PostAdopted(b, e) => b == a
    case Decide(b) => b == a
    case _ => false
  }

  // ---------------------------------------------------------------------
  // One step nearer
  // ---------------------------------------------------------------------

  lemma StepHolds(s: State, ev: Event, s': State, a: nat, alive: set<nat>)
    requires Inv(s) && StepTo(s, ev, s') && !IsElection(ev) && Holds(s, a, alive)
    ensures Inv(s') && Holds(s', a, alive) && N(s') == N(s) && Pid(s', a) == Pid(s, a)
  {
    hide Next, Enabled, Answers, Ordered, Writes, Logs, Running, RepShape;
    StepKeepsInv(s, ev);
    StaysSteady(s, ev);
    StepGrows(s, ev);
    assert TermGrows(s, Next(s, ev), a);
  }

  lemma {:induction false} PendingDrops(t: Term, t': Term, alive: set<nat>, r: nat, n: nat)
    requires |t.done| == |t'.done| && n <= |t.done| && t'.ops == t.ops && r in alive && r < |t.done|
    requires t.done[r] < |t.ops| && t'.done == t.done[r := t.done[r] + 1]
    requires forall i :: 0 <= i < n ==> t.done[i] <= |t.ops|
    ensures Pending(t', alive, n) == Pending(t, alive, n) - if r < n then 1 else 0
  {
    if n > 0 {
      PendingDrops(t, t', alive, r, n - 1);
    }
  }

  lemma {:induction false} PendingSame(t: Term, t': Term, alive: set<nat>, n: nat)
    requires n <= |t.done| && t'.ops == t.ops && t'.done == t.done
    requires forall i :: 0 <= i < n ==> t.done[i] <= |t.ops|
    ensures Pending(t', alive, n) == Pending(t, alive, n)
  {
    if n > 0 {
      PendingSame(t, t', alive, n - 1);
    }
  }

  lemma {:induction false} GapsDrop(upto: map<nat, nat>, fuo: nat, r: nat, n: nat)
    requires r in upto && upto[r] < fuo
    ensures Gaps(upto[r := upto[r] + 1], fuo, n) == Gaps(upto, fuo, n) - if r < n then 1 else 0
  {
    if n > 0 {
      GapsDrop(upto, fuo, r, n - 1);
    }
  }

  lemma InvShape(s: State)
    requires Inv(s)
    ensures Shape(s)
  {}

  /** A step that leaves the replicas and the writes alone, into this phase. */
  lemma PhaseGoes(s: State, ev: Event, s': State, a: nat, alive: set<nat>, bound: nat, phase: Phase)
    requires a < |s.terms| == |s'.terms| && s'.reps == s.reps
    requires GoesOn(s, a, alive, bound) && StepTo(s, ev, s') && !IsElection(ev)
    requires s'.terms[a] == s.terms[a].(phase := phase, touched := s'.terms[a].touched)
    requires phase.Busy() && Rank(phase) <= Rank(s.terms[a].phase)
    requires phase.CatchFuo? ==> s.terms[a].phase.CatchFuo? && s.terms[a].phase.fuos.Keys <= phase.fuos.Keys
    requires phase.CatchProp? ==> forall r :: r in phase.props ==> phase.props[r] <= bound
    ensures GoesOn(s', a, alive, bound)
  {
    hide Inv, StepTo;
    StepHolds(s, ev, s', a, alive);
  }

  /** One more has been heard. */
  lemma NearerByOne(s: State, s': State, a: nat, alive: set<nat>, bound: nat, r: nat)
    requires IsTerm(s, a) && IsTerm(s', a) && N(s') == N(s) && Pid(s', a) == Pid(s, a)
    requires Rank(s'.terms[a].phase) == Rank(s.terms[a].phase) && ToDo(s', a, bound) == ToDo(s, a, bound)
    requires Heard(s'.terms[a].phase) == Heard(s.terms[a].phase) + {r} && r in Unheard(s, a, alive)
    ensures Nearer(s, s', a, alive, bound)
  {
    hide ToDo, Pending, Rank, Heard;
    assert Unheard(s', a, alive) == Unheard(s, a, alive) - {r};
  }

  lemma GoesParts(s: State, a: nat, alive: set<nat>, bound: nat)
    requires GoesOn(s, a, alive, bound)
    ensures Inv(s) && Shape(s) && Holds(s, a, alive) && IsTerm(s, a) && Own(s, a)
    ensures s.terms[a].phase.CatchProp? ==>
              forall r :: r in s.terms[a].phase.props ==> s.terms[a].phase.props[r] <= bound
    ensures s.terms[a].phase.CatchProp? ==> forall r :: 0 <= r < N(s) ==> s.reps[r].minProp <= bound
  {
    InvShape(s);
    hide Inv, Shape;
  }

  lemma AfterReadIs(s: State, a: nat, r: nat, phase: Phase)
    requires IsTerm(s, a) && r < N(s)
    ensures var s' := AfterRead(s, a, r, phase);
            && IsTerm(s', a) && s'.reps == s.reps && |s'.terms| == |s.terms| && Pid(s', a) == Pid(s, a)
            && s'.terms[a] == s.terms[a].(phase := phase, touched := s'.terms[a].touched)
  {}

  /** A read that brings one more answer. */
  lemma ReadGoes(s: State, ev: Event, a: nat, alive: set<nat>, bound: nat, r: nat, phase: Phase) returns (s': State)
    requires IsTerm(s, a) && Rank(phase) == Rank(s.terms[a].phase) && !phase.Update? && phase.Busy()
    requires r < N(s) && StepTo(s, ev, AfterRead(s, a, r, phase)) && !IsElection(ev)
    requires GoesOn(s, a, alive, bound) && r in Unheard(s, a, alive)
    requires Heard(phase) == Heard(s.terms[a].phase) + {r}
    requires phase.CatchProp? ==> forall r :: r in phase.props ==> phase.props[r] <= bound
    ensures StepTo(s, ev, s') && GoesOn(s', a, alive, bound) && Nearer(s, s', a, alive, bound)
  {
    hide StepTo, AfterRead, GoesOn, Nearer, Unheard, TermShape;
    s' := AfterRead(s, a, r, phase);
    AfterReadIs(s, a, r, phase);
    PhaseGoes(s, ev, s', a, alive, bound, phase);
    NearerByOne(s, s', a, alive, bound, r);
  }

  lemma PostEffect(s: State, a: nat, op: Op, phase: Phase)
    requires IsTerm(s, a)
    ensures var s' := Post(s, a, op, phase);
            && IsTerm(s', a) && Pid(s', a) == Pid(s, a) && N(s') == N(s)
            && s'.terms[a].phase == phase && s'.terms[a].ops == s.terms[a].ops + [op]
            && Leader(s', a).fuo == Leader(s, a).fuo
            && (!op.SetProp? ==> forall r :: 0 <= r < N(s) ==> s'.reps[r].minProp == s.reps[r].minProp)
  {}

  /** A step into one of the last phases. */
  lemma LateGoes(s: State, ev: Event, s': State, a: nat, alive: set<nat>, bound: nat)
    requires IsTerm(s, a) && IsTerm(s', a) && s'.terms[a].phase.Busy()
    requires Rank(s'.terms[a].phase) < 3 && Rank(s'.terms[a].phase) < Rank(s.terms[a].phase)
    requires GoesOn(s, a, alive, bound) && StepTo(s, ev, s') && !IsElection(ev)
    ensures GoesOn(s', a, alive, bound) && Nearer(s, s', a, alive, bound)
  {
    hide Inv, StepTo;
    StepHolds(s, ev, s', a, alive);
    hide Holds;
  }

  /** A write arrives. */
  lemma DeliverIs(s: State, a: nat, r: nat)
    requires Shape(s) && Reaches(s, a, r) && s.terms[a].done[r] < |s.terms[a].ops|
    ensures StepTo(s, Deliver(a, r), Delivered(s, a, r))
  {}

  lemma HoldsOpen(s: State, a: nat, alive: set<nat>, r: nat)
    requires Holds(s, a, alive) && r in alive && r != Pid(s, a)
    ensures Reaches(s, a, r)
  {}

  lemma ArrivedGoes(s: State, ev: Event, s': State, a: nat, alive: set<nat>, bound: nat, r: nat)
    requires IsTerm(s, a) && r in alive && r < N(s) && r != Pid(s, a) && s.terms[a].done[r] < |s.terms[a].ops|
    requires ev == Deliver(a, r) && Reaches(s, a, r) && s' == Delivered(s, a, r)
    requires GoesOn(s, a, alive, bound) && StepTo(s, ev, s')
    ensures GoesOn(s', a, alive, bound) && Nearer(s, s', a, alive, bound)
  {
    hide StepTo, Inv, Holds, Pending, Gaps, Reaches;
    StepHolds(s, ev, s', a, alive);
    PendingDrops(s.terms[a], s'.terms[a], alive, r, N(s));
  }

  lemma DeliverGoes(s: State, a: nat, alive: set<nat>, bound: nat, r: nat) returns (s': State)
    requires IsTerm(s, a) && r in alive && r < N(s) && s.terms[a].done[r] < |s.terms[a].ops|
    requires GoesOn(s, a, alive, bound)
    ensures StepTo(s, Deliver(a, r), s') && GoesOn(s', a, alive, bound) && Nearer(s, s', a, alive, bound)
  {
    hide StepTo, GoesOn, Inv, Shape, Holds, Pending, Gaps, Nearer;
    GoesParts(s, a, alive, bound);
    assert r != Pid(s, a);
    assert Reaches(s, a, r) by { HoldsOpen(s, a, alive, r); }
    DeliverIs(s, a, r);
    s' := Delivered(s, a, r);
    ArrivedGoes(s, Deliver(a, r), s', a, alive, bound, r);
  }

  /** Everything posted has reached everybody alive. */
  predicate AllArrived(s: State, a: nat, alive: set<nat>)
    requires IsTerm(s, a)
  {
    forall r :: r in alive && r < N(s) ==> s.terms[a].done[r] == |s.terms[a].ops|
  }

  lemma HoldsReaches(s: State, a: nat, alive: set<nat>, r: nat)
    requires Holds(s, a, alive) && r in Unheard(s, a, alive)
    ensures Reaches(s, a, r)
  {}

  // Reading the offsets.

  lemma ReadFuoIs(s: State, a: nat, r: nat)
    requires Shape(s) && Reaches(s, a, r) && s.terms[a].phase.CatchFuo?
    ensures StepTo(s, ReadFuo(a, r), AfterRead(s, a, r, CatchFuo(s.terms[a].phase.fuos[r := s.reps[r].fuo])))
  {}

  lemma EndCatchFuoIs(s: State, a: nat)
    requires Shape(s) && IsTerm(s, a) && s.terms[a].phase.CatchFuo?
    requires s.terms[a].phase.fuos.Keys == Remotes(s, Pid(s, a))
    ensures StepTo(s, EndCatchFuo(a), SetPhase(s, a, Update(s.terms[a].phase.fuos)))
  {}

  lemma OffsetsHeard(s: State, a: nat)
    requires Inv(s) && IsTerm(s, a) && s.terms[a].phase.CatchFuo?
    ensures Shape(s) && s.terms[a].phase.fuos.Keys <= Remotes(s, Pid(s, a))
  {
    hide Tokens, Answers, Ordered, Writes, Logs;
    assert RunOk(s, a) && PhaseOk(s, a);
  }

  lemma ReadFuoGoes(s: State, a: nat, alive: set<nat>, bound: nat, r: nat) returns (s': State)
    requires IsTerm(s, a) && s.terms[a].phase.CatchFuo? && GoesOn(s, a, alive, bound) && r in Unheard(s, a, alive)
    ensures StepTo(s, ReadFuo(a, r), s') && GoesOn(s', a, alive, bound) && Nearer(s, s', a, alive, bound)
  {
    hide StepTo, AfterRead, GoesOn, Nearer, Unheard, Inv, Shape, Bounded, Holds;
    GoesParts(s, a, alive, bound);
    HoldsReaches(s, a, alive, r);
    ReadFuoIs(s, a, r);
    s' := ReadGoes(s, ReadFuo(a, r), a, alive, bound, r, CatchFuo(s.terms[a].phase.fuos[r := s.reps[r].fuo]));
  }

  lemma OffsetsAllHeard(s: State, a: nat, alive: set<nat>, bound: nat)
    requires IsTerm(s, a) && s.terms[a].phase.CatchFuo? && GoesOn(s, a, alive, bound) && Unheard(s, a, alive) == {}
    ensures s.terms[a].phase.fuos.Keys == Remotes(s, Pid(s, a))
  {
    OffsetsHeard(s, a);
    hide Inv, Shape, Holds;
    forall r | r in Remotes(s, Pid(s, a)) ensures r in s.terms[a].phase.fuos.Keys {
      assert r in alive ==> r !in Unheard(s, a, alive);
    }
  }

  lemma EndCatchFuoGoes(s: State, a: nat, alive: set<nat>, bound: nat) returns (s': State)
    requires a < |s.terms| && s.terms[a].phase.CatchFuo? && GoesOn(s, a, alive, bound) && Unheard(s, a, alive) == {}
    ensures StepTo(s, EndCatchFuo(a), s') && GoesOn(s', a, alive, bound) && Nearer(s, s', a, alive, bound)
  {
    hide StepTo, GoesOn, Inv, Shape, Holds, OffsetsSafe;
    GoesParts(s, a, alive, bound);
    OffsetsAllHeard(s, a, alive, bound);
    EndCatchFuoIs(s, a);
    var phase := Update(s.terms[a].phase.fuos);
    s' := SetPhase(s, a, phase);
    PhaseGoes(s, EndCatchFuo(a), s', a, alive, bound, phase);
  }

  // Copying to those that lag.

  lemma PostCopyIs(s: State, a: nat, r: nat)
    requires Shape(s) && PostCopyEnabled(s, a, r)
    ensures StepTo(s, PostCopy(a, r), Post(s, a, CopyOp(s, a, r), CopyPhase(s, a, r)))
  {}

  lemma EndUpdateIs(s: State, a: nat)
    requires Shape(s) && Enabled(s, EndUpdate(a))
    ensures IsTerm(s, a) && StepTo(s, EndUpdate(a), SetPhase(s, a, CatchProp(map[])))
  {}

  /** What is to be copied is there. */
  lemma CopyThere(s: State, a: nat, r: nat)
    requires Inv(s) && IsTerm(s, a) && s.terms[a].phase.Update? && Own(s, a)
    requires r in s.terms[a].phase.upto && s.terms[a].phase.upto[r] < Leader(s, a).fuo
    ensures Shape(s) && PostCopyEnabled(s, a, r) && r in Remotes(s, Pid(s, a))
  {
    hide Tokens, Answers, Ordered, Writes, Logs, LeaderOk, DecidedOk, Piped;
    assert RunOk(s, a) && PhaseOk(s, a);
    assert RepOk(s, Pid(s, a)) && Settled(s, Pid(s, a), s.terms[a].phase.upto[r]);
  }

  lemma PostCopyGoes(s: State, a: nat, alive: set<nat>, bound: nat, r: nat) returns (s': State)
    requires IsTerm(s, a) && s.terms[a].phase.Update? && GoesOn(s, a, alive, bound)
    requires r in s.terms[a].phase.upto && s.terms[a].phase.upto[r] < Leader(s, a).fuo
    ensures StepTo(s, PostCopy(a, r), s') && GoesOn(s', a, alive, bound) && Nearer(s, s', a, alive, bound)
  {
    hide StepTo, GoesOn, Nearer, Inv, Shape, Holds, Post, TermShape;
    GoesParts(s, a, alive, bound);
    CopyThere(s, a, r);
    PostCopyIs(s, a, r);
    var op, phase := CopyOp(s, a, r), CopyPhase(s, a, r);
    s' := Post(s, a, op, phase);
    PostEffect(s, a, op, phase);
    CopyGoes(s, PostCopy(a, r), s', a, alive, bound, r);
  }

  lemma CopyGoes(s: State, ev: Event, s': State, a: nat, alive: set<nat>, bound: nat, r: nat)
    requires IsTerm(s, a) && IsTerm(s', a) && N(s') == N(s) && s.terms[a].phase.Update?
    requires GoesOn(s, a, alive, bound) && StepTo(s, ev, s') && !IsElection(ev)
    requires r in s.terms[a].phase.upto && s.terms[a].phase.upto[r] < Leader(s, a).fuo && r < N(s)
    requires s'.terms[a].phase == Update(s.terms[a].phase.upto[r := s.terms[a].phase.upto[r] + 1])
    requires |s'.terms[a].ops| == |s.terms[a].ops| + 1 && s.terms[a].ops <= s'.terms[a].ops
    requires s'.terms[a].ops[|s.terms[a].ops|].Copy? && Leader(s', a).fuo == Leader(s, a).fuo
    requires forall q :: 0 <= q < N(s) ==> s'.reps[q].minProp == s.reps[q].minProp
    ensures GoesOn(s', a, alive, bound) && Nearer(s, s', a, alive, bound)
  {
    hide StepTo, Inv, Holds, TermShape, Gaps, Pending;
    StepHolds(s, ev, s', a, alive);
    GapsDrop(s.terms[a].phase.upto, Leader(s, a).fuo, r, N(s));
  }

  lemma FewUncopied(s: State, a: nat, alive: set<nat>)
    requires Holds(s, a, alive) && AllArrived(s, a, alive)
    ensures |Uncopied(s, a)| <= ToleratedFailures(N(s))
  {
    assert Uncopied(s, a) <= Ids(N(s)) - alive;
    SubsetSize(Uncopied(s, a), Ids(N(s)) - alive);
  }

  lemma EndUpdateGoes(s: State, a: nat, alive: set<nat>, bound: nat) returns (s': State)
    requires IsTerm(s, a) && s.terms[a].phase.Update? && GoesOn(s, a, alive, bound) && AllArrived(s, a, alive)
    requires forall r :: r in s.terms[a].phase.upto ==> s.terms[a].phase.upto[r] >= Leader(s, a).fuo
    ensures StepTo(s, EndUpdate(a), s') && GoesOn(s', a, alive, bound) && Nearer(s, s', a, alive, bound)
  {
    hide StepTo, GoesOn, Inv, Shape, Holds, Enabled, Uncopied;
    GoesParts(s, a, alive, bound);
    FewUncopied(s, a, alive);
    CopiedIff(s, a);
    EndUpdateIs(s, a);
    s' := SetPhase(s, a, CatchProp(map[]));
    PhaseGoes(s, EndUpdate(a), s', a, alive, bound, CatchProp(map[]));
  }

  // Reading proposals, and announcing ours.

  lemma ProposalsHeard(s: State, a: nat)
    requires Inv(s) && IsTerm(s, a) && s.terms[a].phase.CatchProp?
    ensures Shape(s) && s.terms[a].phase.props.Keys <= Remotes(s, Pid(s, a))
  {
    hide Tokens, Answers, Ordered, Writes, Logs;
    assert RunOk(s, a) && PhaseOk(s, a);
  }

  lemma ReadPropIs(s: State, a: nat, r: nat)
    requires Shape(s) && Reaches(s, a, r) && s.terms[a].phase.CatchProp?
    ensures StepTo(s, ReadProp(a, r), AfterRead(s, a, r, CatchProp(s.terms[a].phase.props[r := s.reps[r].minProp])))
  {}

  lemma ReadPropGoes(s: State, a: nat, alive: set<nat>, bound: nat, r: nat) returns (s': State)
    requires IsTerm(s, a) && s.terms[a].phase.CatchProp? && GoesOn(s, a, alive, bound) && r in Unheard(s, a, alive)
    ensures StepTo(s, ReadProp(a, r), s') && GoesOn(s', a, alive, bound) && Nearer(s, s', a, alive, bound)
  {
    hide StepTo, AfterRead, GoesOn, Nearer, Unheard, Inv, Shape, Bounded, Holds;
    GoesParts(s, a, alive, bound);
    HoldsReaches(s, a, alive, r);
    ReadPropIs(s, a, r);
    var props := s.terms[a].phase.props;
    s' := ReadGoes(s, ReadProp(a, r), a, alive, bound, r, CatchProp(props[r := s.reps[r].minProp]));
  }

  /** Once everybody alive has answered. */
  lemma ProposalsIn(s: State, a: nat, alive: set<nat>)
    requires IsTerm(s, a) && Inv(s) && Holds(s, a, alive) && s.terms[a].phase.CatchProp? && Unheard(s, a, alive) == {}
    ensures Shape(s) && ProposalsRead(s, a)
  {
    hide Inv, Shape, TermShape;
    ProposalsHeard(s, a);
    var missing := Remotes(s, Pid(s, a)) - s.terms[a].phase.props.Keys;
    assert missing * alive <= Unheard(s, a, alive);
    assert missing <= Ids(N(s)) - alive;
    SubsetSize(missing, Ids(N(s)) - alive);
    ReadIff(s, a);
  }

  lemma RetryIs(s: State, a: nat)
    requires Shape(s) && ProposalsRead(s, a) && !ProposalIsHigh(s, a)
    ensures StepTo(s, RetryProp(a), SetPhase(SetRep(s, Pid(s, a),
              Leader(s, a).(propNr := Leader(s, a).propNr + Modulo(s))), a, CatchProp(map[]))) && Modulo(s) > 0
  {}

  lemma RetryGoes(s: State, a: nat, alive: set<nat>, bound: nat) returns (s': State)
    requires IsTerm(s, a) && s.terms[a].phase.CatchProp? && GoesOn(s, a, alive, bound)
    requires Shape(s) && ProposalsRead(s, a) && !ProposalIsHigh(s, a)
    ensures StepTo(s, RetryProp(a), s') && GoesOn(s', a, alive, bound) && Nearer(s, s', a, alive, bound)
  {
    hide StepTo, GoesOn, Nearer, Inv, Shape, Holds, Modulo, ProposalsRead;
    GoesParts(s, a, alive, bound);
    RetryIs(s, a);
    var lead := Leader(s, a).(propNr := Leader(s, a).propNr + Modulo(s));
    s' := SetPhase(SetRep(s, Pid(s, a), lead), a, CatchProp(map[]));
    assert Leader(s, a).propNr < bound;
    RaisedGoes(s, RetryProp(a), s', a, alive, bound);
  }

  lemma RaisedGoes(s: State, ev: Event, s': State, a: nat, alive: set<nat>, bound: nat)
    requires IsTerm(s, a) && IsTerm(s', a) && N(s') == N(s) && s.terms[a].phase.CatchProp?
    requires GoesOn(s, a, alive, bound) && StepTo(s, ev, s') && !IsElection(ev)
    requires s'.terms[a].phase == CatchProp(map[]) && s'.terms[a].ops == s.terms[a].ops
    requires Leader(s, a).propNr < bound && Leader(s', a).propNr > Leader(s, a).propNr
    requires forall q :: 0 <= q < N(s) ==> s'.reps[q].minProp == s.reps[q].minProp
    ensures GoesOn(s', a, alive, bound) && Nearer(s, s', a, alive, bound)
  {
    hide StepTo, Inv, Holds, TermShape, Pending;
    StepHolds(s, ev, s', a, alive);
  }

  lemma PostPropIs(s: State, a: nat)
    requires Shape(s) && ProposalsRead(s, a) && ProposalIsHigh(s, a) && Own(s, a)
    ensures StepTo(s, PostProp(a), Post(s, a, SetProp(Leader(s, a).propNr), UpdProp))
  {}

  lemma PostPropGoes(s: State, a: nat, alive: set<nat>, bound: nat) returns (s': State)
    requires IsTerm(s, a) && s.terms[a].phase.CatchProp? && GoesOn(s, a, alive, bound)
    requires Shape(s) && ProposalsRead(s, a) && ProposalIsHigh(s, a) && Own(s, a)
    ensures StepTo(s, PostProp(a), s') && GoesOn(s', a, alive, bound) && Nearer(s, s', a, alive, bound)
  {
    hide StepTo, GoesOn, Nearer, Inv, Shape, Holds, Post, ProposalsRead, ProposalIsHigh;
    PostPropIs(s, a);
    s' := Post(s, a, SetProp(Leader(s, a).propNr), UpdProp);
    PostEffect(s, a, SetProp(Leader(s, a).propNr), UpdProp);
    LateGoes(s, PostProp(a), s', a, alive, bound);
  }

  // Behind are only those left out.

  lemma FewBehind(s: State, a: nat, alive: set<nat>)
    requires Holds(s, a, alive) && AllArrived(s, a, alive)
    ensures |Behind(s, a)| <= ToleratedFailures(N(s))
  {
    assert Behind(s, a) <= Ids(N(s)) - alive;
    SubsetSize(Behind(s, a), Ids(N(s)) - alive);
  }

  lemma WriteThere(s: State, a: nat)
    requires Inv(s) && IsTerm(s, a) && (s.terms[a].phase.UpdProp? || s.terms[a].phase.Write?)
    ensures Shape(s) && |s.terms[a].ops| > 0
  {
    hide Tokens, Answers, Ordered, Writes, Logs;
    assert RunOk(s, a) && PhaseOk(s, a);
  }

  lemma EndPropIs(s: State, a: nat)
    requires Shape(s) && Enabled(s, EndProp(a))
    ensures IsTerm(s, a) && StepTo(s, EndProp(a), SetPhase(s, a, ReadSlot(map[])))
  {}

  lemma EndPropGoes(s: State, a: nat, alive: set<nat>, bound: nat) returns (s': State)
    requires IsTerm(s, a) && s.terms[a].phase.UpdProp? && GoesOn(s, a, alive, bound) && AllArrived(s, a, alive)
    ensures StepTo(s, EndProp(a), s') && GoesOn(s', a, alive, bound) && Nearer(s, s', a, alive, bound)
  {
    hide StepTo, GoesOn, Nearer, Inv, Shape, Holds, Enabled, Behind;
    GoesParts(s, a, alive, bound);
    WriteThere(s, a);
    FewBehind(s, a, alive);
    AckedIff(s, a);
    EndPropIs(s, a);
    s' := SetPhase(s, a, ReadSlot(map[]));
    assert IsTerm(s', a);
    LateGoes(s, EndProp(a), s', a, alive, bound);
  }

  // Reading the slot, and writing a value.

  lemma SlotsHeard(s: State, a: nat)
    requires Inv(s) && IsTerm(s, a) && s.terms[a].phase.ReadSlot?
    ensures Shape(s) && s.terms[a].phase.slots.Keys <= Remotes(s, Pid(s, a))
  {
    hide Tokens, Answers, Ordered, Writes, Logs;
    assert RunOk(s, a) && PhaseOk(s, a);
  }

  lemma ReadSlotIs(s: State, a: nat, r: nat)
    requires Shape(s) && Reaches(s, a, r) && s.terms[a].phase.ReadSlot?
    ensures StepTo(s, ReadRemoteSlot(a, r),
              AfterRead(s, a, r, ReadSlot(s.terms[a].phase.slots[r := Lookup(s.reps[r].log, Leader(s, a).fuo)])))
  {}

  lemma ReadSlotGoes(s: State, a: nat, alive: set<nat>, bound: nat, r: nat) returns (s': State)
    requires IsTerm(s, a) && s.terms[a].phase.ReadSlot? && GoesOn(s, a, alive, bound) && r in Unheard(s, a, alive)
    ensures StepTo(s, ReadRemoteSlot(a, r), s') && GoesOn(s', a, alive, bound) && Nearer(s, s', a, alive, bound)
  {
    hide StepTo, AfterRead, GoesOn, Nearer, Unheard, Inv, Shape, Bounded, Holds;
    GoesParts(s, a, alive, bound);
    HoldsReaches(s, a, alive, r);
    ReadSlotIs(s, a, r);
    var slots := s.terms[a].phase.slots;
    s' := ReadGoes(s, ReadRemoteSlot(a, r), a, alive, bound, r,
                   ReadSlot(slots[r := Lookup(s.reps[r].log, Leader(s, a).fuo)]));
  }

  lemma SlotsIn(s: State, a: nat, alive: set<nat>)
    requires IsTerm(s, a) && Inv(s) && Holds(s, a, alive) && s.terms[a].phase.ReadSlot? && Unheard(s, a, alive) == {}
    ensures Shape(s) && SlotsRead(s, a)
  {
    hide Inv, Shape, TermShape;
    SlotsHeard(s, a);
    var missing := Remotes(s, Pid(s, a)) - s.terms[a].phase.slots.Keys;
    assert missing * alive <= Unheard(s, a, alive);
    assert missing <= Ids(N(s)) - alive;
    SubsetSize(missing, Ids(N(s)) - alive);
    ReadIff(s, a);
  }

  /** Among what was read there is a freshest entry. */
  lemma {:induction false} FreshestOf(local: Option<Entry>, slots: map<nat, Option<Entry>>, keys: set<nat>)
    returns (e: Entry)
    requires keys <= slots.Keys && (local.Some? || exists r :: r in keys && slots[r].Some?)
    ensures local == Some(e) || exists r :: r in keys && slots[r] == Some(e)
    ensures local.Some? ==> local.value.prop <= e.prop
    ensures forall r :: r in keys && slots[r].Some? ==> slots[r].value.prop <= e.prop
    decreases |keys|
  {
    if local.Some? && keys == {} {
      e := local.value;
    } else {
      var r :| r in keys && (local.None? ==> slots[r].Some?);
      var rest := keys - {r};
      if local.None? && !exists q :: q in rest && slots[q].Some? {
        e := slots[r].value;
      } else {
        e := FreshestOf(local, slots, rest);
        if slots[r].Some? && slots[r].value.prop > e.prop {
          e := slots[r].value;
        }
      }
    }
  }

  lemma PostAdoptedIs(s: State, a: nat, e: Entry)
    requires Shape(s) && SlotsRead(s, a) && IsFreshest(e, LocalSlot(s, a), s.terms[a].phase.slots)
    ensures StepTo(s, PostAdopted(a, e), Post(s, a, PutOp(s, a, e.val, e.fuo), Write(Idle)))
  {}

  lemma PostNewIs(s: State, a: nat, v: Value)
    requires Shape(s) && SlotsRead(s, a) && NothingRead(LocalSlot(s, a), s.terms[a].phase.slots)
    ensures StepTo(s, PostNew(a, v), Post(s, a, PutOp(s, a, v, Leader(s, a).fuo),
              Write(Fast(s.terms[a].phase.slots.Keys + {Pid(s, a)}, Leader(s, a).fuo))))
  {}

  /** The value written is the freshest there is, or ours. */
  lemma ValueGoes(s: State, a: nat, alive: set<nat>, bound: nat, v: Value) returns (ev: Event, s': State)
    requires IsTerm(s, a) && s.terms[a].phase.ReadSlot? && GoesOn(s, a, alive, bound) && Shape(s) && SlotsRead(s, a)
    ensures OfCall(ev, a, alive, v) && (ev.PostNew? || ev.PostAdopted?)
    ensures StepTo(s, ev, s') && GoesOn(s', a, alive, bound) && Nearer(s, s', a, alive, bound)
  {
    hide Inv, Shape, StepTo, GoesOn, Nearer, Post, SlotsRead;
    var slots := s.terms[a].phase.slots;
    var op, phase;
    if NothingRead(LocalSlot(s, a), slots) {
      PostNewIs(s, a, v);
      ev := PostNew(a, v);
      op, phase := PutOp(s, a, v, Leader(s, a).fuo), Write(Fast(slots.Keys + {Pid(s, a)}, Leader(s, a).fuo));
    } else {
      var e := FreshestOf(LocalSlot(s, a), slots, slots.Keys);
      PostAdoptedIs(s, a, e);
      ev := PostAdopted(a, e);
      op, phase := PutOp(s, a, e.val, e.fuo), Write(Idle);
    }
    s' := Post(s, a, op, phase);
    PostEffect(s, a, op, phase);
    LateGoes(s, ev, s', a, alive, bound);
  }
}
