// Mu: permissions, and leaderships in order.

module MuElection {
  // Permissions: what the request numbers and the two answers a replica writes
  // guarantee, and that later leaderships shut out earlier ones.

  import opened Quorums
  import opened MuModel
  import opened MuHistory

  /** The answer slot of replica r at p holds nothing, a step 1 answer, or a
      step 2 answer to a request that r has granted. */
  predicate AnswerOk(s: State, p: nat, r: nat)
    requires Shape(s) && IsRep(s, p) && IsRep(s, r)
  {
    var x := s.reps[p].approvals[r];
    || x == 0
    || Issued(s, p, x)
    || (x >= Modulo(s) && Issued(s, p, x - Modulo(s)) && s.reps[r].granted[p] >= x - Modulo(s))
  }

  predicate HolderOk(s: State, r: nat)
    requires Shape(s) && IsRep(s, r)
  {
    s.reps[r].holder.Some? ==>
      var t := s.reps[r].holder.value;
      IsRep(s, t.pid) && Issued(s, t.pid, t.req) && s.reps[r].granted[t.pid] >= t.req
  }

  ghost predicate Answers(s: State)
    requires Shape(s)
  {
    && (forall p: nat, r: nat :: IsRep(s, p) && IsRep(s, r) ==> AnswerOk(s, p, r))
    && (forall r: nat :: IsRep(s, r) ==> HolderOk(s, r))
  }

  /** Answers cannot be confused: a step 1 answer to one request is never the
      step 2 answer to another.  x and y count up from the replica's own id. */
  lemma {:induction false} StepsDiffer(m: nat, x: nat, y: nat)
    requires m > 0
    requires Multiple(x, 2 * m) && Multiple(y, 2 * m)
    ensures x != y + m
    decreases y
  {
    if y > 0 && x >= 2 * m {
      StepsDiffer(m, x - 2 * m, y - 2 * m);
    }
  }

  lemma AnswersKept(s: State, ev: Event)
    requires Shape(s) && Tokens(s) && Answers(s) && Enabled(s, ev)
    ensures Shape(Next(s, ev)) && Answers(Next(s, ev))
  {
    StepGrows(s, ev);
    if IsElection(ev) {
      ElectionAnswers(s, ev);
    } else {
      StaysSteady(s, ev);
      OtherAnswers(s, Next(s, ev));
    }
  }

  lemma OtherAnswers(s: State, s': State)
    requires Shape(s) && Shape(s') && Answers(s) && N(s') == N(s) && s'.ids == s.ids
    requires forall r :: 0 <= r < N(s) ==> SameRegisters(s.reps[r], s'.reps[r])
    ensures Answers(s')
  {
    hide Multiple, Max;
    forall p: nat, r: nat | IsRep(s', p) && IsRep(s', r) ensures AnswerOk(s', p, r) {
      assert IsRep(s, p) && IsRep(s, r) && AnswerOk(s, p, r);
    }
    forall r: nat | IsRep(s', r) ensures HolderOk(s', r) {
      assert IsRep(s, r) && HolderOk(s, r);
      if s'.reps[r].holder.Some? {
        assert IsRep(s', s'.reps[r].holder.value.pid);
      }
    }
  }

  predicate SameRegisters(rep: Replica, rep': Replica) {
    rep'.reqNr == rep.reqNr && rep'.holder == rep.holder && rep'.granted == rep.granted
        && rep'.approvals == rep.approvals
  }

  /** Outside elections, registers stay and commits only grow. */
  predicate Steady(s: State, s': State) {
    N(s') == N(s) && forall r :: 0 <= r < N(s) ==>
      SameRegisters(s.reps[r], s'.reps[r]) && s.reps[r].committed <= s'.reps[r].committed
  }

  lemma OneRepSteady(s: State, r: nat, rep: Replica)
    requires r < N(s) && SameRegisters(s.reps[r], rep) && s.reps[r].committed <= rep.committed
    ensures Steady(s, SetRep(s, r, rep))
  {
  }

  lemma PostSteady(s: State, a: nat, op: Op, phase: Phase)
    requires Shape(s) && IsTerm(s, a)
    ensures Steady(s, Post(s, a, op, phase))
  {
    OneRepSteady(s, Pid(s, a), Written(s.reps[Pid(s, a)], Pid(s, a), op));
  }

  lemma OtherSteady(s: State, ev: Event)
    requires Shape(s) && Enabled(s, ev) && !IsElection(ev) && !IsQuiet(ev) && !IsPost(ev)
    ensures Steady(s, Next(s, ev))
  {
    hide Steady, RepShape, LastAcked;
    match ev
    case Start(p) => SameSteady(s, Next(s, ev));
    case Decide(a) =>
      OneRepSteady(s, Pid(s, a), Decided(Leader(s, a)));
      SameSteadyAlso(s, SetRep(s, Pid(s, a), Decided(Leader(s, a))), Next(s, ev));
    case Deliver(a, r) =>
      var rep := Written(s.reps[r], r, s.terms[a].ops[s.terms[a].done[r]]);
      OneRepSteady(s, r, rep);
      SameSteadyAlso(s, SetRep(s, r, rep), Next(s, ev));
    case Sample(r) => OneRepSteady(s, r, Sampled(s.reps[r]));
    case CommitOne(r) => OneRepSteady(s, r, OneMoreCommitted(s.reps[r]));
  }

  lemma SameSteady(s: State, s': State)
    requires s'.reps == s.reps
    ensures Steady(s, s')
  {
  }

  lemma SameSteadyAlso(s: State, s': State, s'': State)
    requires Steady(s, s') && s''.reps == s'.reps
    ensures Steady(s, s'')
  {
  }

  /** Only election steps touch permissions. */
  lemma StaysSteady(s: State, ev: Event)
    requires Shape(s) && Enabled(s, ev) && !IsElection(ev)
    ensures Steady(s, Next(s, ev))
  {
    if IsQuiet(ev) {
      hide NextQuiet, Enabled;
      QuietIsMild(s, ev);
      MildSteady(s, Next(s, ev));
    } else if IsPost(ev) {
      hide Steady, Post;
      PostSteady(s, PostedBy(ev), PostedOp(s, ev), PostedPhase(s, ev));
    } else {
      hide Steady, Enabled;
      OtherSteady(s, ev);
    }
  }

  lemma MildSteady(s: State, s': State)
    requires Mild(s, s')
    ensures Steady(s, s')
  {
    forall r | 0 <= r < N(s)
      ensures SameRegisters(s.reps[r], s'.reps[r]) && s.reps[r].committed <= s'.reps[r].committed
    {
      assert s'.reps[r] == s.reps[r].(propNr := s'.reps[r].propNr);
    }
  }

  lemma ElectionAnswers(s: State, ev: Event)
    requires Shape(s) && Answers(s) && IsElection(ev) && Enabled(s, ev)
    requires Shape(Next(s, ev)) && N(Next(s, ev)) == N(s)
    ensures Answers(Next(s, ev))
  {
    var s' := Next(s, ev);
    forall p: nat, r: nat | IsRep(s', p) && IsRep(s', r) ensures AnswerOk(s', p, r) {
      ElectionAnswer(s, ev, p, r);
    }
    forall r: nat | IsRep(s', r) ensures HolderOk(s', r) {
      ElectionHolder(s, ev, r);
    }
  }

  lemma ElectionAnswer(s: State, ev: Event, p: nat, r: nat)
    requires Shape(s) && Answers(s) && IsElection(ev) && Enabled(s, ev)
    requires Shape(Next(s, ev)) && N(Next(s, ev)) == N(s)
    requires IsRep(s, p) && IsRep(s, r) && IsRep(Next(s, ev), p) && IsRep(Next(s, ev), r)
    ensures AnswerOk(Next(s, ev), p, r)
  {
    hide NextQuiet, Multiple, Max;
    var s' := NextElection(s, ev);
    assert AnswerOk(s, p, r);
    if ev.Approve? {
      assert HolderOk(s, ev.r);
      AnswerCarries(s, s', p, r);
    } else {
      AnswerCarries(s, s', p, r);
    }
  }

  /** An answer that was fine stays fine while request and grant numbers only grow. */
  lemma AnswerCarries(s: State, s': State, p: nat, r: nat)
    requires Shape(s) && Shape(s') && s'.ids == s.ids
    requires IsRep(s, p) && IsRep(s, r) && IsRep(s', p) && IsRep(s', r)
    requires s'.reps[p].reqNr >= s.reps[p].reqNr && s'.reps[r].granted[p] >= s.reps[r].granted[p]
    requires AnswerOk(s, p, r)
    ensures s'.reps[p].approvals[r] == s.reps[p].approvals[r] ==> AnswerOk(s', p, r)
  {}

  lemma ElectionHolder(s: State, ev: Event, r: nat)
    requires Shape(s) && Answers(s) && IsElection(ev) && Enabled(s, ev)
    requires Shape(Next(s, ev)) && N(Next(s, ev)) == N(s)
    requires IsRep(s, r) && IsRep(Next(s, ev), r)
    ensures HolderOk(Next(s, ev), r)
  {
    assert HolderOk(s, r);
    if ev.Grant? && ev.r == r {
      GrantHolder(s, r, ev.p, ev.k);
    } else {
      HolderCarries(s, ev, r);
    }
  }

  lemma GrantHolder(s: State, r: nat, p: nat, k: nat)
    requires Shape(s) && Enabled(s, Grant(r, p, k)) && Shape(Next(s, Grant(r, p, k)))
    ensures IsRep(Next(s, Grant(r, p, k)), r) && HolderOk(Next(s, Grant(r, p, k)), r)
  {
    assert RepShape(Next(s, Grant(r, p, k)), p);
  }

  lemma HolderCarries(s: State, ev: Event, r: nat)
    requires Shape(s) && IsElection(ev) && Enabled(s, ev) && !(ev.Grant? && ev.r == r)
    requires Shape(Next(s, ev)) && N(Next(s, ev)) == N(s)
    requires IsRep(s, r) && IsRep(Next(s, ev), r) && HolderOk(s, r)
    ensures HolderOk(Next(s, ev), r)
  {
    hide Enabled, Max, Multiple, Ids, Remotes, Acks;
    var s' := NextElection(s, ev);
    assert s'.reps[r].holder == s.reps[r].holder && s'.reps[r].granted == s.reps[r].granted;
    if s.reps[r].holder.Some? {
      var t := s.reps[r].holder.value;
      assert RepShape(s', t.pid) && s'.reps[t.pid].reqNr >= s.reps[t.pid].reqNr;
    }
  }

  /** When a leader starts, every replica has granted exactly its request. */
  lemma StartGranted(s: State, p: nat)
    requires Shape(s) && Answers(s) && StartEnabled(s, p)
    ensures forall r :: 0 <= r < N(s) && RepShape(s, r) ==> s.reps[r].granted[p] >= s.reps[p].reqNr - 2 * Modulo(s)
  {
    var m := Modulo(s);
    var k := s.reps[p].reqNr - 2 * m;
    assert HolderOk(s, p) && Issued(s, p, k);
    forall r | 0 <= r < N(s) && RepShape(s, r) ensures s.reps[r].granted[p] >= k {
      if r != p {
        assert AnswerOk(s, p, r);
        var x := s.reps[p].approvals[r];
        assert x == k + m;
        if Issued(s, p, x) {
          StepsDiffer(m, x - s.ids[p], k - s.ids[p]);
        }
      }
    }
  }

  lemma GrantedGrows(s: State, ev: Event, r: nat, p: nat)
    requires Shape(s) && Enabled(s, ev) && IsRep(s, r) && IsRep(Next(s, ev), r) && p < N(s) && N(Next(s, ev)) == N(s)
    ensures Next(s, ev).reps[r].granted[p] >= s.reps[r].granted[p]
  {
    if !IsElection(ev) { StaysSteady(s, ev); }
  }

  lemma TermGrantedKept(s: State, ev: Event, a: nat)
    requires Shape(s) && Enabled(s, ev) && Grows(s, Next(s, ev))
    requires a < |s.terms| && TermGranted(s, a)
    ensures TermGranted(Next(s, ev), a)
  {
    var s' := Next(s, ev);
    assert TermGrows(s, s', a);
    forall r | 0 <= r < N(s') && RepShape(s', r)
        ensures s'.reps[r].granted[s'.terms[a].tok.pid] >= s'.terms[a].tok.req {
      assert RepShape(s, r);
      GrantedGrows(s, ev, r, s.terms[a].tok.pid);
    }
  }

  lemma StartedGranted(s: State, p: nat)
    requires Shape(s) && Answers(s) && StartEnabled(s, p) && Shape(Started(s, p))
    ensures TermGranted(Started(s, p), |s.terms|)
  {
    StartGranted(s, p);
    var s' := Started(s, p);
    forall r | 0 <= r < N(s') && RepShape(s', r) ensures s'.reps[r].granted[p] >= s'.terms[|s.terms|].tok.req {
      assert RepShape(s, r);
    }
  }

  /** Only the start of a leadership adds one. */
  lemma NewTermStarts(s: State, ev: Event)
    requires Shape(s) && Enabled(s, ev) && |Next(s, ev).terms| > |s.terms|
    ensures ev.Start? && StartEnabled(s, ev.p) && Next(s, ev) == Started(s, ev.p)
  {
    hide StartEnabled;
  }

  lemma AllGranted(s: State, ev: Event)
    requires Shape(s) && Tokens(s) && Answers(s) && Enabled(s, ev) && Grows(s, Next(s, ev))
    ensures forall a :: 0 <= a < |Next(s, ev).terms| ==> TermGranted(Next(s, ev), a)
  {
    hide TermGranted, Answers, Enabled, Next, Shape, StartEnabled;
    forall a | 0 <= a < |s.terms| ensures TermGranted(Next(s, ev), a) {
      TermGrantedKept(s, ev, a);
    }
    if |Next(s, ev).terms| > |s.terms| {
      NewTermStarts(s, ev);
      StartedGranted(s, ev.p);
    }
  }

  lemma TokensKept(s: State, ev: Event)
    requires Shape(s) && Tokens(s) && Answers(s) && Enabled(s, ev)
    ensures Shape(Next(s, ev)) && Tokens(Next(s, ev))
  {
    hide Next, Answers, TermGranted, Enabled;
    var s' := Next(s, ev);
    StepGrows(s, ev);
    AllGranted(s, ev);
    forall a, b | 0 <= a < b < |s'.terms| ensures s'.terms[a].tok != s'.terms[b].tok {
      TokensDiffer(s, ev, a, b);
    }
  }

  lemma TokensDiffer(s: State, ev: Event, a: nat, b: nat)
    requires Shape(s) && Tokens(s) && Enabled(s, ev) && Grows(s, Next(s, ev))
    requires a < b < |Next(s, ev).terms|
    ensures Next(s, ev).terms[a].tok != Next(s, ev).terms[b].tok
  {
    hide Next, Enabled, TermGranted;
    var s' := Next(s, ev);
    if b < |s.terms| {
      assert TermGrows(s, s', a) && TermGrows(s, s', b);
    } else {
      NewTermStarts(s, ev);
      assert !Leading(s, ev.p);
    }
  }

  lemma QuietTouches(s: State, ev: Event, b: nat, r: nat)
    requires Shape(s) && IsQuiet(ev) && Enabled(s, ev)
    requires b < |Next(s, ev).terms| && r in Next(s, ev).terms[b].touched
    ensures b < |s.terms| && (r in s.terms[b].touched || (r < N(s) && Open(s, b, r)))
  {
    var s' := NextQuiet(s, ev);
    assert b < |s.terms|;
    if b != ev.a {
      assert s'.terms[b] == s.terms[b];
    }
  }

  lemma PostTouches(s: State, ev: Event, b: nat, r: nat)
    requires Shape(s) && IsPost(ev) && Enabled(s, ev)
    requires b < |Next(s, ev).terms| && r in Next(s, ev).terms[b].touched
    ensures b < |s.terms| && (r in s.terms[b].touched || (r < N(s) && Open(s, b, r)))
  {
    var a := PostedBy(ev);
    var s' := Post(s, a, PostedOp(s, ev), PostedPhase(s, ev));
    assert b < |s.terms| && Own(s, a);
    if b != a {
      assert s'.terms[b] == s.terms[b];
    }
  }

  /** A term touches a replica only while it holds the permission there. */
  lemma TouchedOpen(s: State, ev: Event, b: nat, r: nat)
    requires Shape(s) && Enabled(s, ev)
    requires b < |Next(s, ev).terms| && r in Next(s, ev).terms[b].touched
    ensures b < |s.terms| && (r in s.terms[b].touched || (r < N(s) && Open(s, b, r) && !IsElection(ev)))
  {
    if IsElection(ev) {
      assert NextElection(s, ev).terms == s.terms;
    } else if IsQuiet(ev) {
      QuietTouches(s, ev, b, r);
    } else if IsPost(ev) {
      PostTouches(s, ev, b, r);
    } else {
    }
  }

  /** Only a post or a delivery raises a count, and it touches the replica. */
  lemma DoneRises(s: State, ev: Event, b: nat, r: nat)
    requires Shape(s) && Enabled(s, ev)
    requires b < |s.terms| && b < |Next(s, ev).terms| && r < |s.terms[b].done| == |Next(s, ev).terms[b].done|
    ensures Next(s, ev).terms[b].done[r] == s.terms[b].done[r] || r in Next(s, ev).terms[b].touched
  {
    if IsElection(ev) {
      assert NextElection(s, ev).terms == s.terms;
    } else if IsQuiet(ev) {
      QuietIsMild(s, ev);
      assert MildTerm(s.terms[b], Next(s, ev).terms[b]);
    } else if IsPost(ev) {
      var s' := Post(s, PostedBy(ev), PostedOp(s, ev), PostedPhase(s, ev));
    } else {
    }
  }

  lemma DoneTouched(s: State, ev: Event, b: nat, r: nat)
    requires Shape(s) && Ordered(s) && Enabled(s, ev) && Grows(s, Next(s, ev))
    requires b < |Next(s, ev).terms| && r < N(s)
    requires IsTerm(Next(s, ev), b) && Next(s, ev).terms[b].done[r] > 0
    ensures r in Next(s, ev).terms[b].touched
  {
    if b < |s.terms| {
      assert TermGrows(s, Next(s, ev), b);
      DoneRises(s, ev, b, r);
    } else {
      StartHasNothing(s, ev, b);
    }
  }

  lemma StartHasNothing(s: State, ev: Event, b: nat)
    requires Shape(s) && Enabled(s, ev) && |s.terms| <= b < |Next(s, ev).terms|
    ensures forall r :: 0 <= r < |Next(s, ev).terms[b].done| ==> Next(s, ev).terms[b].done[r] == 0
  {}

  lemma OrderedKept(s: State, ev: Event)
    requires Shape(s) && Tokens(s) && Ordered(s) && Enabled(s, ev)
    ensures Shape(Next(s, ev)) && Ordered(Next(s, ev))
  {
    var s' := Next(s, ev);
    StepGrows(s, ev);
    forall a, b, r | 0 <= a < b < |s'.terms| && 0 <= r < N(s') && r in s'.terms[b].touched
      ensures !Open(s', a, r)
    {
      TouchedOpen(s, ev, b, r);
      assert TermGrows(s, s', a) && TermGrows(s, s', b);
      if Open(s, a, r) && !IsElection(ev) {
        StaysSteady(s, ev);
      }
    }
    forall b, r | 0 <= b < |s'.terms| && 0 <= r < N(s') && IsTerm(s', b) && s'.terms[b].done[r] > 0
      ensures r in s'.terms[b].touched
    {
      DoneTouched(s, ev, b, r);
    }
  }
}
