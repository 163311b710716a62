// While a request is under way some replicas have started their logs over and
// others have not.  The former take no further part: seen from the protocol, every
// step is one of a run in which they still had the logs they wiped.

module MuWiped {
  import opened Options
  import opened Quorums
  import opened MuModel
  import opened MuRecycling

  /** rep with the log and the position it had before it started over. */
  function Masked(rep: Replica, old_: Replica): Replica {
    rep.(log := old_.log, fuo := old_.fuo, seen := old_.seen, target := old_.target, committed := old_.committed)
  }

  function MaskedAt(s: State, wiped: map<nat, Replica>, r: nat): Replica
    requires r < N(s)
  {
    if r in wiped then Masked(s.reps[r], wiped[r]) else s.reps[r]
  }

  /** The state of the protocol if nobody had started over yet. */
  function Unwiped(s: State, wiped: map<nat, Replica>): (v: State)
    ensures N(v) == N(s) && v.ids == s.ids && v.terms == s.terms
    ensures forall r :: 0 <= r < N(s) ==> v.reps[r] == MaskedAt(s, wiped, r)
  {
    s.(reps := seq(N(s), r requires 0 <= r < N(s) => MaskedAt(s, wiped, r)))
  }

  function Shadow(g: Group): State {
    Unwiped(g.mu, g.wiped)
  }

  /** The replicas in `wiped` are at rest: they have received all that term a, which
      alone has access to them, will send before the round ends. */
  ghost predicate AtRest(s: State, wiped: map<nat, Replica>, a: nat)
    requires Shape(s)
  {
    && IsTerm(s, a) && s.terms[a].phase.Write?
    && (forall r :: r in wiped ==> r < N(s) && RestsAt(s, a, r))
  }

  ghost predicate RestsAt(s: State, a: nat, r: nat)
    requires IsTerm(s, a) && r < N(s)
  {
    && s.reps[r] == Restarted(s.reps[r])
    && s.reps[r].holder == Some(s.terms[a].tok)
    && s.terms[a].done[r] == |s.terms[a].ops|
    && (forall c :: 0 <= c < |s.terms| && c != a && s.terms[c].tok.pid == r ==> !s.terms[c].phase.Busy())
  }

  predicate TokensDistinct(s: State) {
    forall a, b :: 0 <= a < b < |s.terms| ==> s.terms[a].tok != s.terms[b].tok
  }

  // ---------------------------------------------------------------------
  // States
  // ---------------------------------------------------------------------

  lemma UnwipedShape(s: State, wiped: map<nat, Replica>)
    requires Shape(s)
    ensures Shape(Unwiped(s, wiped))
  {
    var v := Unwiped(s, wiped);
    forall r | 0 <= r < N(v) ensures RepShape(v, r) { assert RepShape(s, r); }
    forall a | 0 <= a < |v.terms| ensures TermShape(v, a) { assert TermShape(s, a); }
  }

  lemma SameStates(v: State, w: State)
    requires v.ids == w.ids && v.terms == w.terms && N(v) == N(w)
    requires forall r :: 0 <= r < N(v) ==> v.reps[r] == w.reps[r]
    ensures v == w
  {
    assert v.reps == w.reps;
  }

  lemma SetUnwiped(s: State, wiped: map<nat, Replica>, r: nat, rep: Replica)
    requires r < N(s)
    ensures Unwiped(SetRep(s, r, rep), wiped)
         == SetRep(Unwiped(s, wiped), r, if r in wiped then Masked(rep, wiped[r]) else rep)
  {
    SameStates(Unwiped(SetRep(s, r, rep), wiped),
        SetRep(Unwiped(s, wiped), r, if r in wiped then Masked(rep, wiped[r]) else rep));
  }

  lemma TermsUnwiped(s: State, wiped: map<nat, Replica>, terms: seq<Term>)
    ensures Unwiped(s.(terms := terms), wiped) == Unwiped(s, wiped).(terms := terms)
  {
    SameStates(Unwiped(s.(terms := terms), wiped), Unwiped(s, wiped).(terms := terms));
  }

  // ---------------------------------------------------------------------
  // Steps
  // ---------------------------------------------------------------------

  /** A step in the middle of a round. */
  ghost predicate InRound(s: State, wiped: map<nat, Replica>, a: nat, ev: Event) {
    && Shape(s) && AtRest(s, wiped, a) && TokensDistinct(s) && Enabled(s, ev)
    && !ev.Grant? && ev != Decide(a) && ev != Abort(a)
  }

  /** The same step, of the protocol in which nobody has started over. */
  ghost predicate Mirrors(s: State, wiped: map<nat, Replica>, ev: Event)
    requires Shape(s) && Enabled(s, ev)
  {
    var v := Unwiped(s, wiped);
    Shape(v) && Enabled(v, ev) && Next(v, ev) == Unwiped(Next(s, ev), wiped)
  }

  /** A term other than a that has access to a replica, or is in the middle of a
      call there, is not one of those at rest. */
  lemma ElsewhereOpen(s: State, wiped: map<nat, Replica>, a: nat, c: nat, r: nat)
    requires Shape(s) && AtRest(s, wiped, a) && TokensDistinct(s)
    requires c < |s.terms| && c != a && r < N(s) && Open(s, c, r)
    ensures r !in wiped
  {
    assert r in wiped ==> RestsAt(s, a, r);
    assert s.terms[c].tok != s.terms[a].tok;
  }

  lemma ElsewhereBusy(s: State, wiped: map<nat, Replica>, a: nat, c: nat)
    requires Shape(s) && AtRest(s, wiped, a)
    requires IsTerm(s, c) && c != a && s.terms[c].phase.Busy()
    ensures Pid(s, c) < N(s) && Pid(s, c) !in wiped
  {}

  lemma MirrorsElection(s: State, wiped: map<nat, Replica>, a: nat, ev: Event)
    requires InRound(s, wiped, a, ev) && IsElection(ev)
    ensures Mirrors(s, wiped, ev)
  {
    hide Multiple, Max, Unwiped, TermShape;
    UnwipedShape(s, wiped);
    match ev
    case Request(p) =>
      SetUnwiped(s, wiped, p, s.reps[p].(reqNr := s.reps[p].reqNr + 2 * Modulo(s)));
    case Notify(r, p, k) =>
      SetUnwiped(s, wiped, p, Answered(s.reps[p], r, k));
    case Approve(r) => MirrorsApprove(s, wiped, r);
  }

  lemma MirrorsApprove(s: State, wiped: map<nat, Replica>, r: nat)
    requires Shape(s) && Enabled(s, Approve(r)) && Shape(Unwiped(s, wiped))
    ensures Mirrors(s, wiped, Approve(r))
  {
    hide Multiple, Max, Unwiped, TermShape;
    var tok := s.reps[r].holder.value;
    SetUnwiped(s, wiped, tok.pid, Answered(s.reps[tok.pid], r, tok.req + Modulo(s)));
  }

  lemma MirrorsStart(s: State, wiped: map<nat, Replica>, a: nat, p: nat)
    requires InRound(s, wiped, a, Start(p))
    ensures Mirrors(s, wiped, Start(p))
  {
    hide Multiple, Max, Unwiped, TermShape;
    UnwipedShape(s, wiped);
    TermsUnwiped(s, wiped, Started(s, p).terms);
  }

  lemma MirrorsFollower(s: State, wiped: map<nat, Replica>, a: nat, ev: Event)
    requires InRound(s, wiped, a, ev) && (ev.Sample? || ev.CommitOne?)
    ensures Mirrors(s, wiped, ev)
  {
    hide Multiple, Max, Unwiped, TermShape;
    UnwipedShape(s, wiped);
    if ev.Sample? {
      SetUnwiped(s, wiped, ev.r, Sampled(s.reps[ev.r]));
    } else {
      SetUnwiped(s, wiped, ev.r, OneMoreCommitted(s.reps[ev.r]));
    }
  }

  lemma MirrorsDeliver(s: State, wiped: map<nat, Replica>, a: nat, c: nat, r: nat)
    requires InRound(s, wiped, a, Deliver(c, r))
    ensures Mirrors(s, wiped, Deliver(c, r))
  {
    hide Multiple, Max, Unwiped;
    UnwipedShape(s, wiped);
    if c != a {
      ElsewhereOpen(s, wiped, a, c, r);
    }
    var rep := Written(s.reps[r], r, s.terms[c].ops[s.terms[c].done[r]]);
    SetUnwiped(s, wiped, r, rep);
    TermsUnwiped(SetRep(s, r, rep), wiped, Delivered(s, c, r).terms);
  }

  lemma AckedMirrored(s: State, wiped: map<nat, Replica>, c: nat)
    requires Shape(s) && IsTerm(s, c)
    ensures Shape(Unwiped(s, wiped)) && IsTerm(Unwiped(s, wiped), c)
    ensures LastAcked(Unwiped(s, wiped), c) <==> LastAcked(s, c)
  {
    UnwipedShape(s, wiped);
    assert TermShape(Unwiped(s, wiped), c);
    if |s.terms[c].ops| > 0 {
      assert Acks(Unwiped(s, wiped), c, |s.terms[c].ops| - 1) == Acks(s, c, |s.terms[c].ops| - 1);
    }
  }

  lemma MirrorsDecide(s: State, wiped: map<nat, Replica>, a: nat, c: nat)
    requires InRound(s, wiped, a, Decide(c))
    ensures Mirrors(s, wiped, Decide(c))
  {
    hide Multiple, Max, Unwiped, TermShape, RepShape, LastAcked;
    UnwipedShape(s, wiped);
    ElsewhereBusy(s, wiped, a, c);
    AckedMirrored(s, wiped, c);
    var rep := Decided(Leader(s, c));
    SetUnwiped(s, wiped, Pid(s, c), rep);
    TermsUnwiped(SetRep(s, Pid(s, c), rep), wiped, Next(s, Decide(c)).terms);
  }

  lemma PostElsewhere(s: State, wiped: map<nat, Replica>, a: nat, ev: Event)
    requires InRound(s, wiped, a, ev) && IsPost(ev)
    ensures IsTerm(s, PostedBy(ev)) && PostedBy(ev) != a && Own(s, PostedBy(ev))
    ensures Pid(s, PostedBy(ev)) < N(s) && Pid(s, PostedBy(ev)) !in wiped
  {
    assert PostedBy(ev) != a && Own(s, PostedBy(ev));
    ElsewhereOpen(s, wiped, a, PostedBy(ev), Pid(s, PostedBy(ev)));
  }

  lemma PostMirrored(s: State, wiped: map<nat, Replica>, c: nat, op: Op, phase: Phase)
    requires Shape(s) && IsTerm(s, c) && Pid(s, c) !in wiped
    ensures IsTerm(Unwiped(s, wiped), c)
    ensures Post(Unwiped(s, wiped), c, op, phase) == Unwiped(Post(s, c, op, phase), wiped)
  {
    UnwipedShape(s, wiped);
    var p := Pid(s, c);
    var rep := Written(s.reps[p], p, op);
    SetUnwiped(s, wiped, p, rep);
    TermsUnwiped(SetRep(s, p, rep), wiped, Post(s, c, op, phase).terms);
  }

  /** It posts the same under the same guard. */
  lemma SamePost(s: State, wiped: map<nat, Replica>, ev: Event)
    requires Shape(s) && IsPost(ev) && Enabled(s, ev) && Shape(Unwiped(s, wiped))
    requires IsTerm(s, PostedBy(ev)) && Pid(s, PostedBy(ev)) < N(s) && Pid(s, PostedBy(ev)) !in wiped
    ensures var v := Unwiped(s, wiped);
            Enabled(v, ev) && PostedOp(v, ev) == PostedOp(s, ev) && PostedPhase(v, ev) == PostedPhase(s, ev)
  {
    hide Multiple, Max, Unwiped, Ids, IsFreshest, NothingRead;
    var v := Unwiped(s, wiped);
    assert TermShape(v, PostedBy(ev));
    assert Leader(v, PostedBy(ev)) == Leader(s, PostedBy(ev));
  }

  lemma MirrorsPost(s: State, wiped: map<nat, Replica>, a: nat, ev: Event)
    requires InRound(s, wiped, a, ev) && IsPost(ev)
    ensures Mirrors(s, wiped, ev)
  {
    hide Multiple, Max, Unwiped, TermShape, Post, Ids, Remotes, Acks;
    UnwipedShape(s, wiped);
    PostElsewhere(s, wiped, a, ev);
    SamePost(s, wiped, ev);
    hide PostedOp, PostedPhase, Enabled, InRound;
    PostMirrored(s, wiped, PostedBy(ev), PostedOp(s, ev), PostedPhase(s, ev));
  }

  lemma QuietElsewhere(s: State, wiped: map<nat, Replica>, a: nat, ev: Event)
    requires InRound(s, wiped, a, ev) && IsQuiet(ev)
    ensures IsTerm(s, ev.a) && ev.a != a && Pid(s, ev.a) < N(s)
    ensures !ev.BackToSlow? && !ev.Abort? ==> Pid(s, ev.a) !in wiped
    ensures ev.ReadFuo? || ev.ReadProp? || ev.ReadRemoteSlot? ==> ev.r < N(s) && ev.r !in wiped
  {
    if ev.BeginSlow? {
      ElsewhereOpen(s, wiped, a, ev.a, Pid(s, ev.a));
    } else if !ev.BackToSlow? && !ev.Abort? {
      ElsewhereBusy(s, wiped, a, ev.a);
      if ev.ReadFuo? || ev.ReadProp? || ev.ReadRemoteSlot? {
        ElsewhereOpen(s, wiped, a, ev.a, ev.r);
      }
    }
  }

  lemma QuietEnabled(s: State, wiped: map<nat, Replica>, a: nat, ev: Event)
    requires InRound(s, wiped, a, ev) && IsQuiet(ev)
    ensures Shape(Unwiped(s, wiped)) && Enabled(Unwiped(s, wiped), ev)
    ensures IsTerm(s, ev.a) && (Pid(s, ev.a) !in wiped ==>
          Pid(s, ev.a) < N(s) && Leader(Unwiped(s, wiped), ev.a) == Leader(s, ev.a))
  {
    hide Multiple, Max, Unwiped, RepShape, LastAcked;
    UnwipedShape(s, wiped);
    QuietElsewhere(s, wiped, a, ev);
    AckedMirrored(s, wiped, ev.a);
  }

  lemma MirrorsQuiet(s: State, wiped: map<nat, Replica>, a: nat, ev: Event)
    requires InRound(s, wiped, a, ev) && IsQuiet(ev)
    ensures Mirrors(s, wiped, ev)
  {
    hide Multiple, Max, Unwiped, TermShape, RepShape, LastAcked, Enabled, AtRest;
    QuietEnabled(s, wiped, a, ev);
    QuietElsewhere(s, wiped, a, ev);
    if ev.RetryProp? {
      RetryMirrored(s, wiped, ev.a);
    } else {
      QuietMirrored(s, wiped, ev);
    }
  }

  lemma RetryMirrored(s: State, wiped: map<nat, Replica>, c: nat)
    requires Shape(s) && Enabled(s, RetryProp(c)) && Shape(Unwiped(s, wiped))
        && Enabled(Unwiped(s, wiped), RetryProp(c))
    requires IsTerm(s, c) && Pid(s, c) !in wiped && Leader(Unwiped(s, wiped), c) == Leader(s, c)
    ensures Next(Unwiped(s, wiped), RetryProp(c)) == Unwiped(Next(s, RetryProp(c)), wiped)
  {
    hide Multiple, Max, Unwiped, RepShape, LastAcked, Enabled;
    var rep := Leader(s, c).(propNr := Leader(s, c).propNr + Modulo(s));
    SetUnwiped(s, wiped, Pid(s, c), rep);
    TermsUnwiped(SetRep(s, Pid(s, c), rep), wiped, Next(s, RetryProp(c)).terms);
  }

  lemma QuietMirrored(s: State, wiped: map<nat, Replica>, ev: Event)
    requires Shape(s) && Enabled(s, ev) && Shape(Unwiped(s, wiped)) && Enabled(Unwiped(s, wiped), ev)
    requires IsQuiet(ev) && !ev.RetryProp?
    requires IsTerm(s, ev.a) && (Pid(s, ev.a) !in wiped ==> Leader(Unwiped(s, wiped), ev.a) == Leader(s, ev.a))
    requires !ev.BackToSlow? && !ev.Abort? ==> Pid(s, ev.a) !in wiped
    requires ev.ReadFuo? || ev.ReadProp? || ev.ReadRemoteSlot? ==> ev.r < N(s) && ev.r !in wiped
    ensures Next(Unwiped(s, wiped), ev) == Unwiped(Next(s, ev), wiped)
  {
    hide Multiple, Max, Unwiped, RepShape, LastAcked;
    var v := Unwiped(s, wiped);
    assert Next(v, ev) == v.(terms := Next(s, ev).terms);
    TermsUnwiped(s, wiped, Next(s, ev).terms);
  }

  /** Every step in the middle of a round is one of the protocol in which nobody
      has started over. */
  lemma StepMirrors(s: State, wiped: map<nat, Replica>, a: nat, ev: Event)
    requires InRound(s, wiped, a, ev)
    ensures Mirrors(s, wiped, ev)
  {
    hide InRound, Mirrors, Enabled, Shape;
    if IsElection(ev) {
      MirrorsElection(s, wiped, a, ev);
    } else if IsQuiet(ev) {
      MirrorsQuiet(s, wiped, a, ev);
    } else if IsPost(ev) {
      MirrorsPost(s, wiped, a, ev);
    } else {
      match ev
      case Start(p) => MirrorsStart(s, wiped, a, p);
      case Decide(c) => MirrorsDecide(s, wiped, a, c);
      case Deliver(c, r) => MirrorsDeliver(s, wiped, a, c, r);
      case Sample(r) => MirrorsFollower(s, wiped, a, ev);
      case CommitOne(r) => MirrorsFollower(s, wiped, a, ev);
    }
  }
}
