// Asking for recycling, starting over, replying and waiting keep the invariant.

module MuRoundActions {
  import opened Options
  import opened MuModel
  import opened MuHistory
  import opened MuElection
  import opened MuSafety
  import opened MuPhases
  import opened MuQuietSteps
  import opened MuAgreement
  import opened MuPositions
  import opened MuRecycling
  import opened MuWiped
  import opened MuRequests
  import opened MuRounds
  import opened MuRoundSteps

  // ---------------------------------------------------------------------
  // The request
  // ---------------------------------------------------------------------

  /** For the protocol the request is one more value of the leader's own. */
  lemma RequestEffect(s: State, a: nat, v: Value)
    requires Shape(s) && Enabled(s, PostNew(a, v))
    ensures IsTerm(s, a) && N(Next(s, PostNew(a, v))) == N(s) && Next(s, PostNew(a, v)).ids == s.ids
    ensures |Next(s, PostNew(a, v)).terms| == |s.terms|
    ensures Next(s, PostNew(a, v)).terms[a].ops == s.terms[a].ops + [PutOp(s, a, v, Leader(s, a).fuo)]
    ensures Next(s, PostNew(a, v)).terms[a].tok == s.terms[a].tok
    ensures Next(s, PostNew(a, v)).terms[a].phase.Write? && s.terms[a].phase.ReadSlot?
    ensures forall b :: 0 <= b < |s.terms| && b != a ==> Next(s, PostNew(a, v)).terms[b] == s.terms[b]
    ensures forall r :: 0 <= r < N(s) ==> Next(s, PostNew(a, v)).reps[r].holder == s.reps[r].holder
    ensures s.reps[Pid(s, a)].holder == Some(s.terms[a].tok)
  {
    hide Multiple, Max, Modulo, NothingRead;
  }

  lemma RequestUnasked(s: State, a: nat, v: Value)
    requires Shape(s) && Enabled(s, PostNew(a, v)) && Unasked(s, None) && Shape(Next(s, PostNew(a, v)))
    ensures Unasked(Next(s, PostNew(a, v)), Some(a))
  {
    hide Next, Enabled;
    var ev := PostNew(a, v);
    var s' := Next(s, ev);
    RequestEffect(s, a, v);
    forall b: nat | b < |s'.terms| ensures OpsAsk(s', Some(a), b) && SlotsAsk(s', b) {
      assert OpsAsk(s, None, b) && SlotsAsk(s, b);
    }
    forall r: nat | r < N(s') ensures LogAsks(s', Some(a), r) {
      RequestLogs(s, a, v, r);
    }
  }

  lemma RequestLogs(s: State, a: nat, v: Value, r: nat)
    requires Shape(s) && Enabled(s, PostNew(a, v)) && Unasked(s, None) && Shape(Next(s, PostNew(a, v))) && r < N(s)
    ensures N(Next(s, PostNew(a, v))) == N(s) && LogAsks(Next(s, PostNew(a, v)), Some(a), r)
  {
    hide Next, Enabled;
    var ev := PostNew(a, v);
    var s' := Next(s, ev);
    RequestEffect(s, a, v);
    assert LogAsks(s, None, r) && TermShape(s', a);
    forall j: nat | j in s'.reps[r].log && s'.reps[r].log[j].val.Recycle?
      ensures HoldsRequest(s', a, r, j, s'.reps[r].log[j])
    {
      EntryComesFrom(s, ev, r, j);
      assert Fresh(s, ev, r, j, s'.reps[r].log[j]);
    }
  }

  lemma RequestChosen(g: Group, a: nat)
    requires GroupInv(g) && Ready(g, PostRequest(a))
    ensures GroupShape(After(g, PostRequest(a))) && After(g, PostRequest(a)).wiped == map[]
    ensures Shadow(g) == g.mu && Shadow(After(g, PostRequest(a))) == After(g, PostRequest(a)).mu
    ensures Inv(After(g, PostRequest(a)).mu) && Positions(After(g, PostRequest(a)).mu)
    ensures ValuesChosen(After(g, PostRequest(a)))
  {
    hide Next, Tokens, Answers, Ordered, Writes, Logs, PosOk, Replies, Owed, Unasked, PhaseOk, LeaderOk, DecidedOk,
        Piped;
    var s, ev := g.mu, PostNew(a, RequestOf(g, a));
    var s' := Next(s, ev);
    UnwipedNothing(s);
    UnwipedNothing(s');
    StepGrows(s, ev);
    StepKeepsInv(s, ev);
    StepKeepsPositions(s, ev);
    RequestEffect(s, a, RequestOf(g, a));
    var p := Pid(s, a);
    assert RepOk(s, p);
    var values := ValuesBelow(s.reps[p].log, s.reps[p].fuo);
    forall k | 0 <= k < |values| ensures Chosen(s', k, values[k]) {
      assert Settled(s, p, k);
      SettledIsChosen(s, p, k);
      ChosenKept(s, s', k, values[k]);
    }
  }

  lemma RequestReplies(g: Group, a: nat)
    requires GroupShape(g) && Replies(g) && Owed(g) && g.round.Normal? && g.wiped == map[]
    requires Ready(g, PostRequest(a)) && GroupShape(After(g, PostRequest(a)))
    ensures Replies(After(g, PostRequest(a))) && Owed(After(g, PostRequest(a)))
  {
    hide Next, NothingRead, LocalSlot, Modulo, TermShape, RepShape;
    var g' := After(g, PostRequest(a));
    RequestEffect(g.mu, a, RequestOf(g, a));
    SameModulo(g.mu, g'.mu);
    forall p, r | 0 <= p < N(g'.mu) && 0 <= r < N(g'.mu) ensures ReplyOk(g', p, r) {
      assert ReplyOk(g, p, r);
    }
  }

  lemma RequestReady(g: Group, a: nat)
    requires GroupShape(g) && Ready(g, PostRequest(a))
    ensures Enabled(g.mu, PostNew(a, RequestOf(g, a)))
  {}

  lemma RequestKeepsGroup(g: Group, a: nat)
    requires GroupInv(g) && Ready(g, PostRequest(a))
    ensures GroupInv(After(g, PostRequest(a)))
  {
    hide Next, Enabled, Inv, Positions, Replies, Owed, Unasked, ValuesChosen, Modulo;
    var g' := After(g, PostRequest(a));
    RequestReady(g, a);
    RequestChosen(g, a);
    RequestEffect(g.mu, a, RequestOf(g, a));
    SameModulo(g.mu, g'.mu);
    assert g.reqNr[Pid(g.mu, a)] > 0 by { assert Replies(g); PositiveNumbers(g, Pid(g.mu, a)); }
    RequestUnasked(g.mu, a, RequestOf(g, a));
    RequestReplies(g, a);
  }

  lemma PositiveNumbers(g: Group, p: nat)
    requires GroupShape(g) && Replies(g) && p < N(g.mu)
    ensures g.reqNr[p] > 0
  {}

  // ---------------------------------------------------------------------
  // Starting over
  // ---------------------------------------------------------------------

  lemma WipeUnseen(g: Group, r: nat)
    requires GroupShape(g) && r < N(g.mu) && r !in g.wiped
    ensures Shadow(Wipe(g, r)) == Shadow(g)
  {
    SameStates(Shadow(Wipe(g, r)), Shadow(g));
  }

  lemma WipeShape(g: Group, r: nat)
    requires GroupShape(g) && r < N(g.mu)
    ensures GroupShape(Wipe(g, r))
  {
    var s' := Wipe(g, r).mu;
    forall q | 0 <= q < N(s') ensures RepShape(s', q) { assert RepShape(g.mu, q); }
    forall a | 0 <= a < |s'.terms| ensures TermShape(s', a) { assert TermShape(g.mu, a); }
  }

  lemma WipeRests(g: Group, r: nat)
    requires GroupShape(g) && r < N(g.mu) && r !in g.wiped && g.round.Recycling?
    requires AtRest(g.mu, g.wiped, g.round.a)
    requires RestsAt(Wipe(g, r).mu, g.round.a, r)
    ensures GroupShape(Wipe(g, r)) && AtRest(Wipe(g, r).mu, Wipe(g, r).wiped, g.round.a)
  {
    WipeShape(g, r);
    var s' := Wipe(g, r).mu;
    forall q | q in Wipe(g, r).wiped ensures q < N(s') && RestsAt(s', g.round.a, q) {
      if q != r { assert RestsAt(g.mu, g.round.a, q); }
    }
  }

  lemma WipeUnasked(g: Group, r: nat, asker: Option<nat>)
    requires GroupShape(g) && r < N(g.mu) && Unasked(g.mu, asker)
    ensures GroupShape(Wipe(g, r)) && Unasked(Wipe(g, r).mu, asker)
  {
    WipeShape(g, r);
    var s' := Wipe(g, r).mu;
    forall b: nat | b < |s'.terms| ensures OpsAsk(s', asker, b) && SlotsAsk(s', b) {
      assert OpsAsk(g.mu, asker, b) && SlotsAsk(g.mu, b);
    }
    forall q: nat | q < N(s') ensures LogAsks(s', asker, q) {
      assert LogAsks(g.mu, asker, q);
    }
  }

  /** The leader itself: no other of its calls is under way. */
  lemma LeaderRests(g: Group)
    requires GroupInv(g) && Ready(g, RestartLeader)
    ensures Requestor(g) < N(g.mu) && Requestor(g) !in g.wiped
    ensures IsTerm(Wipe(g, Requestor(g)).mu, g.round.a) && RestsAt(Wipe(g, Requestor(g)).mu, g.round.a, Requestor(g))
  {
    hide Tokens, Answers, Ordered, Writes, Logs, PosOk, Replies, Owed, Unasked, PhaseOk, LeaderOk, DecidedOk, Piped,
        RepOk,
         LastAcked, ValuesChosen;
    var a, p := g.round.a, Requestor(g);
    WipeShape(g, p);
    assert TermShape(g.mu, a) && TermShape(Wipe(g, p).mu, a);
    var v := Shadow(g);
    assert Exclusive(v) && IsTerm(v, a) by { assert TermShape(v, a); }
    forall c | 0 <= c < |g.mu.terms| && c != a && g.mu.terms[c].tok.pid == p ensures !g.mu.terms[c].phase.Busy() {
      assert TermShape(v, c) && InCharge(v, a);
    }
  }

  lemma RestartLeaderKeepsGroup(g: Group)
    requires GroupInv(g) && Ready(g, RestartLeader)
    ensures GroupInv(After(g, RestartLeader))
  {
    hide Inv, Positions, Unasked, Replies, Owed, LastAcked, AtRest, ValuesChosen, Modulo;
    var p := Requestor(g);
    LeaderRests(g);
    WipeUnseen(g, p);
    WipeRests(g, p);
    WipeUnasked(g, p, Asker(g));
    var g' := After(g, RestartLeader);
    assert Shadow(g') == Shadow(g);
    UnwipedShape(g.mu, g.wiped);
    ValuesStay(g, g');
    SameModulo(g.mu, g'.mu);
    LeaderReplies(g);
  }

  lemma ValuesStay(g: Group, g': Group)
    requires GroupShape(g) && GroupShape(g') && g.round.Recycling? && g'.round.Recycling?
        && g'.round.values == g.round.values
    requires Shape(Shadow(g)) && Shadow(g') == Shadow(g) && ValuesChosen(g)
    ensures ValuesChosen(g')
  {}

  lemma LeaderReplies(g: Group)
    requires GroupShape(g) && Ready(g, RestartLeader) && GroupShape(After(g, RestartLeader)) && Replies(g) && Owed(g)
    ensures Replies(After(g, RestartLeader)) && Owed(After(g, RestartLeader))
  {
    var g' := After(g, RestartLeader);
    SameModulo(g.mu, g'.mu);
    forall p, r | 0 <= p < N(g'.mu) && 0 <= r < N(g'.mu) ensures ReplyOk(g', p, r) {
      assert ReplyOk(g, p, r);
    }
  }

  /** The request a follower has sampled is that of the round under way: it has
      received everything the leader sent, and is at rest once it has started over. */
  lemma SeenIsAsked(g: Group, r: nat)
    requires GroupInv(g) && RequestSeen(g.mu, r)
    ensures g.round.Recycling? && r < N(g.mu) && r !in g.wiped && r != Requestor(g)
    ensures g.mu.reps[r].seen - 1 in g.mu.reps[r].log
    ensures g.mu.reps[r].log[g.mu.reps[r].seen - 1].val == Recycle(Requestor(g), g.round.id, |g.round.values|)
    ensures g.mu.reps[r].seen - 1 == |g.round.values|
    ensures IsTerm(Wipe(g, r).mu, g.round.a) && RestsAt(Wipe(g, r).mu, g.round.a, r)
  {
    hide Inv, Positions, Replies, Owed, ValuesChosen, WipedOk;
    var rep := g.mu.reps[r];
    assert LogAsks(g.mu, Asker(g), r);
    assert HoldsRequest(g.mu, g.round.a, r, rep.seen - 1, rep.log[rep.seen - 1]);
    WipeShape(g, r);
    assert TermShape(Wipe(g, r).mu, g.round.a);
  }

  /** What the follower has committed by then is what was decided below the request. */
  lemma SeenIsCommitted(g: Group, r: nat)
    requires GroupInv(g) && RequestSeen(g.mu, r)
    ensures g.round.Recycling? && g.mu.reps[r].committed == g.round.values
  {
    hide Tokens, Answers, Ordered, Logs, Replies, Owed, PhaseOk, LeaderOk, DecidedOk, Piped;
    SeenIsAsked(g, r);
    var v, rep, n := Shadow(g), g.mu.reps[r], |g.round.values|;
    assert v.reps[r] == rep && RepOk(v, r) && PosOk(rep);
    EmbeddedIsSlot(v, r, rep.seen - 1);
    assert |rep.committed| == n;
    forall k | 0 <= k < n ensures rep.committed[k] == g.round.values[k] {
      AgreementNow(v, k, rep.committed[k], g.round.values[k]);
    }
  }

  lemma FollowerReplies(g: Group, r: nat)
    requires GroupShape(g) && Ready(g, RestartFollower(r)) && GroupShape(After(g, RestartFollower(r))) && Replies(g)
        && Owed(g)
    requires g.round.Recycling? && r !in g.wiped && r != Requestor(g)
    requires g.mu.reps[r].log[g.mu.reps[r].seen - 1].val == Recycle(Requestor(g), g.round.id, |g.round.values|)
    ensures Replies(After(g, RestartFollower(r))) && Owed(After(g, RestartFollower(r)))
  {
    var g' := After(g, RestartFollower(r));
    SameModulo(g.mu, g'.mu);
    forall p, q | 0 <= p < N(g'.mu) && 0 <= q < N(g'.mu) ensures ReplyOk(g', p, q) {
      assert ReplyOk(g, p, q);
    }
  }

  lemma RestartFollowerKeepsGroup(g: Group, r: nat)
    requires GroupInv(g) && Ready(g, RestartFollower(r))
    ensures GroupInv(After(g, RestartFollower(r)))
  {
    hide Inv, Positions, Unasked, Replies, Owed, AtRest, ValuesChosen, Modulo, RequestSeen, Next;
    hide LastAcked, CopiesArrived;
    SeenIsAsked(g, r);
    SeenIsCommitted(g, r);
    WipeUnseen(g, r);
    WipeRests(g, r);
    WipeUnasked(g, r, Asker(g));
    var g' := After(g, RestartFollower(r));
    assert Shadow(g') == Shadow(g);
    UnwipedShape(g.mu, g.wiped);
    ValuesStay(g, g');
    SameModulo(g.mu, g'.mu);
    FollowerReplies(g, r);
  }

  // ---------------------------------------------------------------------
  // Replies, and the end of the round
  // ---------------------------------------------------------------------

  lemma ReplyKeepsGroup(g: Group, r: nat)
    requires GroupInv(g) && Ready(g, Reply(r))
    ensures GroupInv(After(g, Reply(r)))
  {
    hide Inv, Positions, Unasked, AtRest, Modulo;
    var g' := After(g, Reply(r));
    assert g.round.Recycling? && r in g.wiped && g.owes[r].value == Ticket(Requestor(g), g.round.id);
    forall p, q | 0 <= p < N(g'.mu) && 0 <= q < N(g'.mu) ensures ReplyOk(g', p, q) {
      assert ReplyOk(g, p, q);
    }
  }

  /** When the leader stops waiting everybody has started over, and owes nothing. */
  lemma WaitedForAll(g: Group)
    requires GroupInv(g) && Ready(g, EndWait)
    ensures forall r :: 0 <= r < N(g.mu) ==> r in g.wiped && g.owes[r] == None
  {
    hide Inv, Positions, Unasked, AtRest, Modulo;
    forall r | 0 <= r < N(g.mu) ensures r in g.wiped && g.owes[r] == None {
      assert ReplyOk(g, Requestor(g), r);
    }
  }

  lemma GenerationShape(s: State, a: nat)
    requires Shape(s)
    ensures Shape(NewGeneration(s, a)) && |NewGeneration(s, a).terms| == |s.terms|
    ensures forall b :: 0 <= b < |s.terms| ==> NewGeneration(s, a).terms[b] == Renewed(s, b, a)
  {
    var s' := NewGeneration(s, a);
    forall r | 0 <= r < N(s') ensures RepShape(s', r) { assert RepShape(s, r); }
    forall b | 0 <= b < |s'.terms| ensures TermShape(s', b) { assert TermShape(s, b); }
  }

  /** Permissions and numbers are as they were. */
  lemma GenerationPermits(s: State, a: nat)
    requires Shape(s) && Tokens(s) && Answers(s) && Shape(NewGeneration(s, a))
    ensures Tokens(NewGeneration(s, a)) && Answers(NewGeneration(s, a))
  {
    var s' := NewGeneration(s, a);
    GenerationShape(s, a);
    OtherAnswers(s, s');
    forall b | 0 <= b < |s'.terms| ensures TermGranted(s', b) {
      assert TermGranted(s, b);
    }
  }

  lemma GenerationBegins(g: Group)
    requires GroupInv(g) && Ready(g, EndWait)
    ensures Begins(NewGeneration(g.mu, g.round.a))
  {
    hide Ordered, Writes, Logs, Running, Positions, Replies, Owed, Unasked, ValuesChosen, Requested, Multiple, Max;
    var s, a := g.mu, g.round.a;
    var s' := NewGeneration(s, a);
    WaitedForAll(g);
    GenerationShape(s, a);
    TokensUnwiped(s, g.wiped);
    AnswersUnwiped(s, g.wiped);
    GenerationPermits(s, a);
    forall r | 0 <= r < N(s') ensures s'.reps[r] == Restarted(s'.reps[r]) && NumberOf(s', r, s'.reps[r].propNr) {
      assert RestsAt(s, a, r);
      NumberKept(g, s', r);
    }
    forall b | 0 <= b < |s'.terms| ensures NothingDone(s', b) {
      assert TermShape(s, b) && TermShape(s', b) && RestsAt(s, a, Pid(s, b));
    }
  }

  lemma NumberKept(g: Group, s': State, r: nat)
    requires GroupInv(g) && Shape(s') && s'.ids == g.mu.ids && s'.reps == g.mu.reps && r < N(g.mu)
    ensures NumberOf(s', r, s'.reps[r].propNr)
  {
    hide Tokens, Answers, Ordered, Logs, Running, Positions, Ledger, RoundOk;
    var v := Shadow(g);
    assert NumberOf(v, r, v.reps[r].propNr);
    SameModulo(v, s');
  }

  lemma GenerationUnasked(s: State, a: nat)
    requires Shape(s) && (forall r :: 0 <= r < N(s) ==> s.reps[r].log == map[])
    requires forall b :: 0 <= b < |s.terms| && b != a ==> !s.terms[b].phase.Busy()
    ensures Unasked(NewGeneration(s, a), None)
  {
    GenerationShape(s, a);
    var s' := NewGeneration(s, a);
    forall b: nat | b < |s'.terms| ensures OpsAsk(s', None, b) && SlotsAsk(s', b) {}
    forall r: nat | r < N(s') ensures LogAsks(s', None, r) {}
  }

  lemma EndReplies(g: Group)
    requires GroupInv(g) && Ready(g, EndWait) && GroupShape(After(g, EndWait))
    ensures Replies(After(g, EndWait)) && Owed(After(g, EndWait))
  {
    hide Inv, Positions, Unasked, AtRest, Modulo;
    var g' := After(g, EndWait);
    WaitedForAll(g);
    SameModulo(g.mu, g'.mu);
    forall p, r | 0 <= p < N(g'.mu) && 0 <= r < N(g'.mu) ensures ReplyOk(g', p, r) {
      assert ReplyOk(g, p, r);
    }
  }

  lemma EndKeepsGroup(g: Group)
    requires GroupInv(g) && Ready(g, EndWait)
    ensures GroupInv(After(g, EndWait)) && Begins(After(g, EndWait).mu)
  {
    hide Inv, Positions, Replies, Owed, Unasked, ValuesChosen, Requested, Begins;
    var g' := After(g, EndWait);
    GenerationShape(g.mu, g.round.a);
    GenerationBegins(g);
    BeginsInv(g'.mu);
    UnwipedNothing(g'.mu);
    WaitedForAll(g);
    EndUnasked(g);
    EndReplies(g);
  }

  lemma EndUnasked(g: Group)
    requires GroupInv(g) && Ready(g, EndWait)
    ensures Unasked(NewGeneration(g.mu, g.round.a), None)
  {
    hide Inv, Positions, Ledger, ValuesChosen, Requested;
    WaitedForAll(g);
    var s, a := g.mu, g.round.a;
    forall r | 0 <= r < N(s) ensures s.reps[r].log == map[] { assert RestsAt(s, a, r); }
    forall b | 0 <= b < |s.terms| && b != a ensures !s.terms[b].phase.Busy() {
      assert TermShape(s, b) && RestsAt(s, a, s.terms[b].tok.pid);
    }
    GenerationUnasked(s, a);
  }

  // ---------------------------------------------------------------------
  // Every step
  // ---------------------------------------------------------------------

  lemma ActionKeepsGroup(g: Group, ac: Action)
    requires GroupInv(g) && Ready(g, ac) && Undisturbed(g, ac)
    ensures GroupInv(After(g, ac))
  {
    hide GroupInv, Ready, After;
    match ac
    case Step(ev) => StepKeepsGroup(g, ev);
    case PostRequest(a) => RequestKeepsGroup(g, a);
    case RestartLeader => RestartLeaderKeepsGroup(g);
    case RestartFollower(r) => RestartFollowerKeepsGroup(g, r);
    case Reply(r) => ReplyKeepsGroup(g, r);
    case EndWait => EndKeepsGroup(g);
  }
}
