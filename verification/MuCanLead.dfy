// Mu: any replica can lead.

module MuCanLead {
  // From every state of every run any replica can become leader, if everybody answers,
  // and then finish a call: no history of leaderships, retries, failed calls or
  // half-delivered writes leaves the protocol stuck.

  import opened Options
  import opened Quorums
  import opened MuModel
  import opened MuHistory
  import opened MuElection
  import opened MuSafety
  import opened MuLogs
  import opened MuPhases
  import opened MuAgreement
  import opened MuDecideSteps
  import opened MuProgress
  import opened MuCanDecide

  // ---------------------------------------------------------------------
  // Request numbers
  // ---------------------------------------------------------------------

  /** Every request so far is below the next one, which steps up from the replica's id. */
  predicate AsksOk(s: State, p: nat)
    requires Shape(s) && p < N(s)
  {
    && s.ids[p] <= s.reps[p].reqNr && Multiple(s.reps[p].reqNr - s.ids[p], 2 * Modulo(s))
    && forall r :: 0 <= r < N(s) && RepShape(s, r) ==> s.reps[r].granted[p] < s.reps[p].reqNr
  }

  predicate Asks(s: State)
    requires Shape(s)
  {
    forall p :: 0 <= p < N(s) ==> AsksOk(s, p)
  }

  lemma InitAsks(s: State)
    requires Init(s) && Shape(s)
    ensures Asks(s)
  {
    forall p | 0 <= p < N(s) ensures AsksOk(s, p) {
      assert s.reps[p] == InitReplica(|s.ids|, s.ids[p]);
      forall r | 0 <= r < N(s) ensures s.reps[r].granted[p] < s.reps[p].reqNr {
        assert s.reps[r] == InitReplica(|s.ids|, s.ids[r]);
      }
    }
  }

  lemma OneMoreMultiple(x: nat, m: nat)
    requires m > 0 && Multiple(x, m)
    ensures Multiple(x + m, m)
  {}

  lemma SteadyAsks(s: State, s': State)
    requires Shape(s) && Shape(s') && Asks(s) && Steady(s, s') && s'.ids == s.ids
    ensures Asks(s')
  {
    hide Multiple, Modulo, ValidConfig;
    assert Modulo(s') == Modulo(s) by { SameModulo(s, s'); }
    forall p | 0 <= p < N(s') ensures AsksOk(s', p) {
      assert AsksOk(s, p);
      forall r | 0 <= r < N(s') && RepShape(s', r) ensures s'.reps[r].granted[p] < s'.reps[p].reqNr {
        assert RepShape(s, r);
      }
    }
  }

  lemma SameModulo(s: State, s': State)
    requires s'.ids == s.ids
    ensures Modulo(s') == Modulo(s)
  {}

  lemma RequestAsks(s: State, p: nat)
    requires Shape(s) && Asks(s) && p < N(s)
    ensures var s' := SetRep(s, p, s.reps[p].(reqNr := s.reps[p].reqNr + 2 * Modulo(s))); Shape(s') ==> Asks(s')
  {
    hide Modulo, Max;
    var s' := SetRep(s, p, s.reps[p].(reqNr := s.reps[p].reqNr + 2 * Modulo(s)));
    assert Modulo(s') == Modulo(s) > 0 by { SameModulo(s, s'); assert ValidConfig(s.ids); }
    if Shape(s') {
      forall q | 0 <= q < N(s') ensures AsksOk(s', q) {
        assert AsksOk(s, q);
        if q == p {
          OneMoreMultiple(s.reps[p].reqNr - s.ids[p], 2 * Modulo(s));
        }
        forall r | 0 <= r < N(s') && RepShape(s', r) ensures s'.reps[r].granted[q] < s'.reps[q].reqNr {
          assert RepShape(s, r);
        }
      }
    }
  }

  /** Answers and grants leave the numbers alone; what is granted has been asked. */
  lemma AnswerAsks(s: State, x: nat, rep: Replica)
    requires Shape(s) && Asks(s) && x < N(s) && rep.reqNr == s.reps[x].reqNr
    requires |rep.granted| == N(s) && forall p :: 0 <= p < N(s) ==> rep.granted[p] < s.reps[p].reqNr
    ensures Shape(SetRep(s, x, rep)) ==> Asks(SetRep(s, x, rep))
  {
    hide Multiple, Modulo, ValidConfig;
    var s' := SetRep(s, x, rep);
    assert Modulo(s') == Modulo(s) by { SameModulo(s, s'); }
    if Shape(s') {
      forall p | 0 <= p < N(s') ensures AsksOk(s', p) {
        assert AsksOk(s, p);
        forall r | 0 <= r < N(s') && RepShape(s', r) ensures s'.reps[r].granted[p] < s'.reps[p].reqNr {
          assert RepShape(s, r);
        }
      }
    }
  }

  lemma GrantedBelow(s: State, r: nat)
    requires Shape(s) && Asks(s) && IsRep(s, r)
    ensures forall p :: 0 <= p < N(s) ==> s.reps[r].granted[p] < s.reps[p].reqNr
  {
    forall p | 0 <= p < N(s) ensures s.reps[r].granted[p] < s.reps[p].reqNr {
      assert AsksOk(s, p);
    }
  }

  lemma ElectionAsks(s: State, ev: Event)
    requires Shape(s) && Asks(s) && Enabled(s, ev) && IsElection(ev) && Shape(Next(s, ev))
    ensures Asks(Next(s, ev))
  {
    hide Asks, Multiple, Max, AsksOk;
    match ev
    case Request(p) => RequestAsks(s, p);
    case Notify(r, p, k) =>
      GrantedBelow(s, p);
      AnswerAsks(s, p, Answered(s.reps[p], r, k));
    case Grant(r, p, k) =>
      GrantedBelow(s, r);
      AnswerAsks(s, r, Granted(s.reps[r], p, k));
    case Approve(r) =>
      var tok := s.reps[r].holder.value;
      GrantedBelow(s, tok.pid);
      AnswerAsks(s, tok.pid, Answered(s.reps[tok.pid], r, tok.req + Modulo(s)));
  }

  ghost predicate Sound(s: State) {
    Inv(s) && Asks(s)
  }

  lemma StepSound(s: State, ev: Event, s': State)
    requires Sound(s) && StepTo(s, ev, s')
    ensures Sound(s') && N(s') == N(s) && s'.ids == s.ids
  {
    hide Next, Enabled, Asks, Tokens, Answers, Ordered, Writes, Logs, Running;
    StepKeepsInv(s, ev);
    StepGrows(s, ev);
    if IsElection(ev) {
      ElectionAsks(s, ev);
    } else {
      StaysSteady(s, ev);
      SteadyAsks(s, s');
    }
  }

  lemma {:induction false} RunSound(states: seq<State>, events: seq<Event>, i: nat)
    requires IsRun(states, events) && i < |states|
    ensures Sound(states[i])
  {
    hide Shape, Next, Enabled, Inv;
    if i == 0 {
      InitInv(states[0]);
      InvShape(states[0]);
      InitAsks(states[0]);
    } else {
      RunSound(states, events, i - 1);
      assert StepAt(states, events, i - 1);
      StepSound(states[i - 1], events[i - 1], states[i]);
    }
  }

  // ---------------------------------------------------------------------
  // Pieces of runs
  // ---------------------------------------------------------------------

  /** Some piece of a run leads from s to s'. */
  ghost predicate CanReach(s: State, s': State) {
    exists states, events ::
      IsPiece(states, events) && |states| == |events| + 1 && states[0] == s && states[|events|] == s'
  }

  lemma ReachSelf(s: State)
    ensures CanReach(s, s)
  {
    NoPiece(s);
    assert IsPiece([s], []) && [s][0] == s;
  }

  lemma ReachStep(s: State, s': State, ev: Event, s'': State)
    requires CanReach(s, s') && StepTo(s', ev, s'')
    ensures CanReach(s, s'')
  {
    var states, events :| IsPiece(states, events) && |states| == |events| + 1 && states[0] == s
        && states[|events|] == s';
    hide Shape, Enabled, Next;
    var states', events' := states + [s''], events + [ev];
    forall i | 0 <= i < |events'| ensures StepAt(states', events', i) {
      if i < |events| {
        assert StepAt(states, events, i);
      }
    }
    assert IsPiece(states', events') && states'[0] == s && states'[|events'|] == s'';
  }

  /** s' can be reached from s, and everything reached is sound. */
  ghost predicate Gets(s: State, s': State) {
    CanReach(s, s') && Sound(s') && N(s') == N(s) && s'.ids == s.ids
  }

  lemma GetsSelf(s: State)
    requires Sound(s)
    ensures Gets(s, s)
  {
    ReachSelf(s);
    hide CanReach, Sound;
  }

  lemma GetsStep(s: State, s': State, ev: Event, s'': State)
    requires Gets(s, s') && StepTo(s', ev, s'')
    ensures Gets(s, s'')
  {
    hide CanReach, Sound, StepTo;
    ReachStep(s, s', ev, s'');
    StepSound(s', ev, s'');
  }

  lemma GetsShape(s: State, s': State)
    requires Gets(s, s')
    ensures Shape(s') && Inv(s') && Asks(s') && N(s') == N(s)
  {
    hide CanReach, Asks;
    InvShape(s');
    hide Inv, Shape;
  }

  // ---------------------------------------------------------------------
  // The way to a leadership
  // ---------------------------------------------------------------------

  /** The first n leaderships of p are over: no call is running, and the next would be
      on the slow path. */
  predicate Still(s: State, p: nat, n: nat)
    requires n <= |s.terms|
  {
    forall a :: 0 <= a < n && s.terms[a].tok.pid == p ==> !s.terms[a].phase.Busy() && !s.terms[a].phase.Fast?
  }

  lemma AbortIs(s: State, a: nat)
    requires Shape(s) && IsTerm(s, a)
    ensures StepTo(s, Abort(a), SetPhase(s, a, Dead))
  {}

  lemma BackToSlowIs(s: State, a: nat)
    requires Shape(s) && IsTerm(s, a) && s.terms[a].phase.Fast?
    ensures StepTo(s, BackToSlow(a), SetPhase(s, a, Idle))
  {}

  lemma TermThere(s: State, a: nat)
    requires Shape(s) && a < |s.terms|
    ensures IsTerm(s, a)
  {}

  /** A running call is given up, and a fast path left. */
  lemma {:induction false} GetsStill(s: State, p: nat, n: nat) returns (s': State)
    requires Sound(s) && n <= |s.terms|
    ensures Gets(s, s') && |s'.terms| == |s.terms| && Still(s', p, n)
  {
    hide Sound, Gets, StepTo, Shape, TermShape;
    if n == 0 {
      GetsSelf(s);
      s' := s;
    } else {
      var s0 := GetsStill(s, p, n - 1);
      GetsShape(s, s0);
      var a := n - 1;
      TermThere(s0, a);
      if s0.terms[a].tok.pid == p && s0.terms[a].phase.Busy() {
        AbortIs(s0, a);
        s' := SetPhase(s0, a, Dead);
        GetsStep(s, s0, Abort(a), s');
      } else if s0.terms[a].tok.pid == p && s0.terms[a].phase.Fast? {
        BackToSlowIs(s0, a);
        s' := SetPhase(s0, a, Idle);
        GetsStep(s, s0, BackToSlow(a), s');
      } else {
        s' := s0;
      }
    }
  }

  lemma CommitIs(s: State, r: nat)
    requires Inv(s) && r < N(s) && |s.reps[r].committed| < s.reps[r].target
    ensures |s.reps[r].committed| in s.reps[r].log
    ensures StepTo(s, CommitOne(r), SetRep(s, r, OneMoreCommitted(s.reps[r])))
  {
    CommitThere(s, r);
    InvShape(s);
    hide Inv, Shape;
    assert IsRep(s, r) by { RepThere(s, r); }
  }

  lemma RepThere(s: State, r: nat)
    requires Inv(s) && r < N(s)
    ensures IsRep(s, r)
  {
    hide Tokens, Answers, Ordered, Writes, Logs, Running;
  }

  lemma CommitThere(s: State, r: nat)
    requires Inv(s) && r < N(s) && |s.reps[r].committed| < s.reps[r].target
    ensures |s.reps[r].committed| in s.reps[r].log
  {
    hide Tokens, Answers, Ordered, Writes, Logs, RunOk, Exclusive;
    assert RepOk(s, r) && Settled(s, r, |s.reps[r].committed|);
  }

  /** The commit loop catches up. */
  lemma {:induction false} GetsCaughtUp(s: State, s0: State, p: nat) returns (s': State)
    requires Gets(s, s0) && p < N(s0)
    ensures Gets(s, s') && s'.terms == s0.terms && p < N(s') && CaughtUp(s'.reps[p])
    decreases s0.reps[p].target - |s0.reps[p].committed|
  {
    hide Sound, Gets, StepTo, Shape, Inv, Asks;
    GetsShape(s, s0);
    if CaughtUp(s0.reps[p]) {
      s' := s0;
    } else {
      CommitIs(s0, p);
      var s1 := SetRep(s0, p, OneMoreCommitted(s0.reps[p]));
      GetsStep(s, s0, CommitOne(p), s1);
      s' := GetsCaughtUp(s, s1, p);
    }
  }

  /** p's request k is out, and replicas 0 .. n-1 have granted it. */
  ghost predicate Won(s: State, p: nat, k: nat, n: nat) {
    && Shape(s) && IsRep(s, p) && n <= N(s) && Issued(s, p, k) && s.reps[p].reqNr == k + 2 * Modulo(s)
    && Still(s, p, |s.terms|) && CaughtUp(s.reps[p])
    && (forall a :: 0 <= a < |s.terms| ==> s.terms[a].tok != Token(p, k))
    && (forall r :: 0 <= r < n ==> s.reps[r].holder == Some(Token(p, k)))
    && (forall r :: n <= r < N(s) && RepShape(s, r) ==> s.reps[r].granted[p] < k)
  }

  lemma RequestIs(s: State, p: nat)
    requires Shape(s) && IsRep(s, p)
    ensures StepTo(s, Request(p), SetRep(s, p, s.reps[p].(reqNr := s.reps[p].reqNr + 2 * Modulo(s))))
  {}

  /** No leadership has the next request. */
  lemma NextIsNew(s: State, p: nat, a: nat)
    requires Inv(s) && Asks(s) && Shape(s) && p < N(s) && a < |s.terms|
    ensures s.terms[a].tok != Token(p, s.reps[p].reqNr)
  {
    hide Answers, Ordered, Writes, Logs, Running, Multiple;
    assert TermGranted(s, a) && TermShape(s, a) && RepShape(s, 0);
    if s.terms[a].tok.pid == p {
      assert AsksOk(s, p);
    }
  }

  lemma IssuedNext(s: State, p: nat)
    requires Shape(s) && p < N(s) && AsksOk(s, p)
    ensures var s' := SetRep(s, p, s.reps[p].(reqNr := s.reps[p].reqNr + 2 * Modulo(s)));
            Shape(s') ==> Issued(s', p, s.reps[p].reqNr) && Modulo(s') == Modulo(s)
  {
    hide Multiple;
    SameModulo(s, SetRep(s, p, s.reps[p].(reqNr := s.reps[p].reqNr + 2 * Modulo(s))));
    assert Modulo(s) > 0;
  }

  lemma GetsRequest(s: State, s0: State, p: nat) returns (s': State)
    requires Gets(s, s0) && p < N(s0) && Still(s0, p, |s0.terms|) && CaughtUp(s0.reps[p])
    ensures Gets(s, s') && Won(s', p, s0.reps[p].reqNr, 0)
  {
    hide Sound, Gets, StepTo, Shape, Inv, Asks, Issued, Modulo;
    GetsShape(s, s0);
    RepThere(s0, p);
    RequestIs(s0, p);
    s' := SetRep(s0, p, s0.reps[p].(reqNr := s0.reps[p].reqNr + 2 * Modulo(s0)));
    GetsStep(s, s0, Request(p), s');
    GetsShape(s, s');
    assert AsksOk(s0, p) by { AsksThere(s0, p); }
    IssuedNext(s0, p);
    RepThere(s', p);
    forall a | 0 <= a < |s'.terms| ensures s'.terms[a].tok != Token(p, s0.reps[p].reqNr) {
      NextIsNew(s0, p, a);
    }
    forall r | 0 <= r < N(s') && RepShape(s', r) ensures s'.reps[r].granted[p] < s0.reps[p].reqNr {
      RepThere(s0, r);
      AsksThere(s0, p);
    }
  }

  lemma AsksThere(s: State, p: nat)
    requires Shape(s) && Asks(s) && p < N(s)
    ensures AsksOk(s, p)
  {
    hide AsksOk;
  }

  lemma GrantIs(s: State, r: nat, p: nat, k: nat)
    requires Shape(s) && IsRep(s, r) && IsRep(s, p) && Issued(s, p, k) && k > s.reps[r].granted[p]
    ensures StepTo(s, Grant(r, p, k), SetRep(s, r, Granted(s.reps[r], p, k)))
  {}

  /** A grant changes nobody's requests. */
  lemma IssuedStill(s: State, s': State, p: nat, k: nat)
    requires Shape(s) && Shape(s') && p < N(s) && p < N(s') && s'.ids == s.ids
    requires s'.reps[p].reqNr == s.reps[p].reqNr && Issued(s, p, k)
    ensures Issued(s', p, k) && Modulo(s') == Modulo(s)
  {
    hide Multiple;
    SameModulo(s, s');
  }

  /** Everybody grants the request. */
  lemma {:induction false} GetsWon(s: State, s0: State, p: nat, k: nat, n: nat) returns (s': State)
    requires Gets(s, s0) && Won(s0, p, k, n)
    ensures Gets(s, s') && Won(s', p, k, N(s'))
    decreases N(s0) - n
  {
    hide Gets, StepTo, Shape, Issued, Modulo, CaughtUp;
    if n == N(s0) {
      s' := s0;
    } else {
      assert IsRep(s0, n) by { GetsRep(s, s0, n); }
      GrantIs(s0, n, p, k);
      var s1 := SetRep(s0, n, Granted(s0.reps[n], p, k));
      GetsStep(s, s0, Grant(n, p, k), s1);
      GetsSame(s, s0, s1);
      assert IsRep(s1, p) && CaughtUp(s1.reps[p]) by { GetsRep(s, s1, p); CaughtStill(s0.reps[p], s1.reps[p]); }
      IssuedStill(s0, s1, p, k);
      forall r | n + 1 <= r < N(s1) && RepShape(s1, r) ensures s1.reps[r].granted[p] < k {
        assert RepShape(s0, r);
      }
      s' := GetsWon(s, s1, p, k, n + 1);
    }
  }

  lemma GetsRep(s: State, s': State, r: nat)
    requires Gets(s, s') && r < N(s')
    ensures IsRep(s', r)
  {
    hide CanReach, Asks;
    RepThere(s', r);
  }

  lemma GetsSame(s: State, s0: State, s1: State)
    requires Gets(s, s0) && Gets(s, s1)
    ensures N(s0) == N(s1) == N(s) && s0.ids == s1.ids && Shape(s0) && Shape(s1)
  {
    GetsShape(s, s0);
    GetsShape(s, s1);
    hide CanReach, Sound;
  }

  lemma CaughtStill(rep: Replica, rep': Replica)
    requires rep'.target == rep.target && rep'.committed == rep.committed
    ensures CaughtUp(rep) <==> CaughtUp(rep')
  {}

  lemma ApproveIs(s: State, r: nat, p: nat, k: nat)
    requires Shape(s) && IsRep(s, r) && IsRep(s, p) && r != p && s.reps[r].holder == Some(Token(p, k))
    ensures StepTo(s, Approve(r), SetRep(s, p, Answered(s.reps[p], r, k + Modulo(s))))
  {}

  /** Those among 0 .. n-1 have answered, too. */
  ghost predicate Heard(s: State, p: nat, k: nat, n: nat) {
    && Won(s, p, k, N(s)) && n <= N(s)
    && forall r :: 0 <= r < n && r != p ==> s.reps[p].approvals[r] == k + Modulo(s)
  }

  /** Everybody approves. */
  lemma {:induction false} GetsHeard(s: State, s0: State, p: nat, k: nat, n: nat) returns (s': State)
    requires Gets(s, s0) && Heard(s0, p, k, n)
    ensures Gets(s, s') && Heard(s', p, k, N(s'))
    decreases N(s0) - n
  {
    hide Gets, StepTo, Shape, Issued, Modulo, CaughtUp;
    if n == N(s0) {
      s' := s0;
    } else if n == p {
      s' := GetsHeard(s, s0, p, k, n + 1);
    } else {
      assert IsRep(s0, n) by { GetsRep(s, s0, n); }
      ApproveIs(s0, n, p, k);
      var s1 := SetRep(s0, p, Answered(s0.reps[p], n, k + Modulo(s0)));
      GetsStep(s, s0, Approve(n), s1);
      GetsSame(s, s0, s1);
      assert IsRep(s1, p) && CaughtUp(s1.reps[p]) by { GetsRep(s, s1, p); CaughtStill(s0.reps[p], s1.reps[p]); }
      IssuedStill(s0, s1, p, k);
      s' := GetsHeard(s, s1, p, k, n + 1);
    }
  }

  lemma StartIs(s: State, p: nat, k: nat)
    requires Heard(s, p, k, N(s))
    ensures Shape(s) && StartEnabled(s, p) && StepTo(s, Start(p), Started(s, p))
    ensures s.reps[p].reqNr - 2 * Modulo(s) == k
  {
    hide Issued, Multiple, Max;
    assert Modulo(s) > 0;
    assert !BusyAt(s, p) && !FastLeft(s, p) && !Leading(s, p);
    assert MayLead(s, p);
  }

  /** The new leadership has everybody's permission. */
  lemma StartHolds(s: State, p: nat, k: nat, s': State)
    requires Heard(s, p, k, N(s)) && StartEnabled(s, p) && s.reps[p].reqNr - 2 * Modulo(s) == k
    requires s' == Started(s, p) && Shape(s')
    ensures IsTerm(s', |s.terms|) && Pid(s', |s.terms|) == p && Holds(s', |s.terms|, Ids(N(s')))
    ensures s'.terms[|s.terms|].phase.Idle? && CaughtUp(Leader(s', |s.terms|))
  {
    hide StartEnabled, Issued;
    assert TermShape(s', |s.terms|);
    assert Ids(N(s')) - Ids(N(s')) == {};
  }

  /** ANYBODY CAN LEAD.  From every state of every run there is a way on that makes any
      given replica leader, with everybody's permission. */
  lemma CanLead(states: seq<State>, events: seq<Event>, i: nat, p: nat) returns (s': State, a: nat)
    requires IsRun(states, events) && i < |states| && p < N(states[i])
    ensures CanReach(states[i], s') && Inv(s') && N(s') == N(states[i])
    ensures IsTerm(s', a) && Pid(s', a) == p && Holds(s', a, Ids(N(s')))
    ensures s'.terms[a].phase.Idle? && CaughtUp(Leader(s', a))
  {
    hide Shape, Inv, Sound, Gets, StepTo, Won, Heard, StartEnabled, Holds, CaughtUp;
    var s := states[i];
    RunSound(states, events, i);
    var s1 := GetsStill(s, p, |s.terms|);
    GetsShape(s, s1);
    var s2 := GetsCaughtUp(s, s1, p);
    var s3 := GetsRequest(s, s2, p);
    var k := s2.reps[p].reqNr;
    var s4 := GetsWon(s, s3, p, k, 0);
    assert Heard(s4, p, k, 0) by { NoneHeard(s4, p, k); }
    var s5 := GetsHeard(s, s4, p, k, 0);
    StartIs(s5, p, k);
    s', a := Started(s5, p), |s5.terms|;
    GetsStep(s, s5, Start(p), s');
    GetsShape(s, s');
    StartHolds(s5, p, k, s');
    assert CanReach(s, s') by { GetsReach(s, s'); }
  }

  lemma NoneHeard(s: State, p: nat, k: nat)
    requires Won(s, p, k, N(s))
    ensures Heard(s, p, k, 0)
  {
    hide Won;
  }

  lemma GetsReach(s: State, s': State)
    requires Gets(s, s')
    ensures CanReach(s, s')
  {
    hide CanReach, Sound;
  }

  /** ANYBODY CAN DECIDE.  From every state of every run there is a way on in which any
      given replica becomes leader and a call of propose there decides its slot. */
  lemma CanDecide(states: seq<State>, events: seq<Event>, i: nat, p: nat, v: Value)
    returns (states': seq<State>, events': seq<Event>, a: nat)
    requires IsRun(states, events) && i < |states| && p < N(states[i])
    ensures IsPiece(states', events') && |states'| > 0 && CanReach(states[i], states'[0])
    ensures IsTerm(states'[0], a) && Pid(states'[0], a) == p && N(states'[0]) == N(states[i])
    ensures IsCall(events', a, Ids(N(states[i])), v)
  {
    hide IsPiece, CanReach, IsCall, Inv, Holds, TermShape;
    var s';
    s', a := CanLead(states, events, i, p);
    states', events' := CallCanFinish(s', a, Ids(N(s')), v);
  }

  // ---------------------------------------------------------------------
  // Followers keep up
  // ---------------------------------------------------------------------

  lemma SampleIs(s: State, r: nat)
    requires Shape(s) && IsRep(s, r) && !BusyAt(s, r) && !Leading(s, r) && CaughtUp(s.reps[r])
    requires s.reps[r].seen in s.reps[r].log
    ensures StepTo(s, Sample(r), SetRep(s, r, Sampled(s.reps[r])))
  {}

  /** Nothing keeps r from following: it neither leads nor has a call running. */
  predicate Follows(s: State, r: nat) {
    r < N(s) && !BusyAt(s, r) && !Leading(s, r)
  }

  lemma FollowsStill(s: State, s': State, r: nat)
    requires Follows(s, r) && r < N(s') && s'.terms == s.terms && s'.reps[r].holder == s.reps[r].holder
    ensures Follows(s', r)
  {}

  lemma {:induction false} CommitsOn(s: State, s0: State, r: nat) returns (s': State)
    requires Gets(s, s0) && Follows(s0, r)
    ensures Gets(s, s') && Follows(s', r) && CaughtUp(s'.reps[r])
    ensures s'.reps[r].log == s0.reps[r].log && s'.reps[r].seen == s0.reps[r].seen
    ensures s'.reps[r].target == s0.reps[r].target
    decreases s0.reps[r].target - |s0.reps[r].committed|
  {
    hide Sound, Gets, StepTo, Shape, Inv, Asks, Follows;
    GetsShape(s, s0);
    assert r < N(s0) by { FollowsRep(s0, r); }
    if CaughtUp(s0.reps[r]) {
      s' := s0;
    } else {
      CommitIs(s0, r);
      var s1 := SetRep(s0, r, OneMoreCommitted(s0.reps[r]));
      GetsStep(s, s0, CommitOne(r), s1);
      FollowsStill(s0, s1, r);
      s' := CommitsOn(s, s1, r);
    }
  }

  lemma FollowsRep(s: State, r: nat)
    requires Follows(s, r)
    ensures r < N(s)
  {}

  lemma FollowsIs(s: State, r: nat)
    requires Follows(s, r)
    ensures r < N(s) && !BusyAt(s, r) && !Leading(s, r)
  {}

  lemma {:induction false} SamplesOn(s: State, s0: State, r: nat, slot: nat) returns (s': State)
    requires Gets(s, s0) && Follows(s0, r) && r < N(s0) && s0.reps[r].seen <= slot
    requires forall k :: s0.reps[r].seen <= k <= slot ==> k in s0.reps[r].log
    ensures Gets(s, s') && Follows(s', r) && r < N(s') && s'.reps[r].log == s0.reps[r].log
    ensures |s'.reps[r].committed| >= s0.reps[r].log[slot].fuo
    decreases slot - s0.reps[r].seen
  {
    hide Sound, Gets, StepTo, Shape, Inv, Asks, Follows;
    var s1 := CommitsOn(s, s0, r);
    FollowsRep(s1, r);
    GetsShape(s, s1);
    RepThere(s1, r);
    FollowsIs(s1, r);
    SampleIs(s1, r);
    var s2 := SetRep(s1, r, Sampled(s1.reps[r]));
    GetsStep(s, s1, Sample(r), s2);
    FollowsStill(s1, s2, r);
    if s0.reps[r].seen == slot {
      s' := CommitsOn(s, s2, r);
      FollowsRep(s', r);
    } else {
      s' := SamplesOn(s, s2, r, slot);
    }
  }

  /** FOLLOWERS CAN KEEP UP.  From every state of every run, a replica that neither leads
      nor has a call running can go on, by itself, to commit everything below the offset
      in any entry that its log has without a gap from where it looks next. */
  lemma CanCommit(states: seq<State>, events: seq<Event>, i: nat, r: nat, slot: nat) returns (s': State)
    requires IsRun(states, events) && i < |states| && Follows(states[i], r) && r < N(states[i])
    requires states[i].reps[r].seen <= slot
    requires forall k :: states[i].reps[r].seen <= k <= slot ==> k in states[i].reps[r].log
    ensures CanReach(states[i], s') && r < N(s') && s'.reps[r].log == states[i].reps[r].log
    ensures |s'.reps[r].committed| >= states[i].reps[r].log[slot].fuo
  {
    hide Shape, Inv, Sound, Gets, StepTo, CanReach, Follows;
    RunSound(states, events, i);
    GetsSelf(states[i]);
    s' := SamplesOn(states[i], states[i], r, slot);
    GetsReach(states[i], s');
  }
}
