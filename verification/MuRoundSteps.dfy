// Every step keeps the invariant of the protocol with recycling.

module MuRoundSteps {
  import opened Options
  import opened MuModel
  import opened MuHistory
  import opened MuElection
  import opened MuSafety
  import opened MuPhases
  import opened MuQuietSteps
  import opened MuDecideSteps
  import opened MuAgreement
  import opened MuPositions
  import opened MuRecycling
  import opened MuWiped
  import opened MuRequests
  import opened MuRounds

  lemma UnwipedNothing(s: State)
    ensures Unwiped(s, map[]) == s
  {
    SameStates(Unwiped(s, map[]), s);
  }

  lemma TokensUnwiped(s: State, wiped: map<nat, Replica>)
    requires Shape(s) && Shape(Unwiped(s, wiped))
    ensures Tokens(Unwiped(s, wiped)) <==> Tokens(s)
    ensures Tokens(s) ==> TokensDistinct(s)
  {
    var v := Unwiped(s, wiped);
    forall a | 0 <= a < |s.terms| ensures TermGranted(v, a) <==> TermGranted(s, a) {
      forall r | 0 <= r < N(s) ensures v.reps[r].granted == s.reps[r].granted && RepShape(s, r) && RepShape(v, r) {}
    }
  }

  lemma AnswersUnwiped(s: State, wiped: map<nat, Replica>)
    requires Shape(s) && Shape(Unwiped(s, wiped)) && Answers(Unwiped(s, wiped))
    ensures Answers(s)
  {
    OtherAnswers(Unwiped(s, wiped), s);
  }

  /** No call in a Write phase goes back to reading slots. */
  lemma NoReadAfterWrite(s: State)
    requires Inv(s)
    ensures forall b :: 0 <= b < |s.terms| && s.terms[b].phase.Write? ==> !s.terms[b].phase.next.ReadSlot?
  {
    hide Tokens, Answers, Ordered, Writes, Logs, LeaderOk, DecidedOk, Piped, Frontier, FastOk;
    forall b | 0 <= b < |s.terms| && s.terms[b].phase.Write? ensures !s.terms[b].phase.next.ReadSlot? {
      assert RunOk(s, b);
    }
  }

  // ---------------------------------------------------------------------
  // The ledger of requests and replies
  // ---------------------------------------------------------------------

  lemma LedgerSame(g: Group, g': Group)
    requires GroupShape(g) && GroupShape(g') && Replies(g) && Owed(g)
    requires N(g'.mu) == N(g.mu) && g'.mu.ids == g.mu.ids
    requires g'.reqNr == g.reqNr && g'.owes == g.owes && g'.replies == g.replies && g'.round == g.round
        && g'.wiped == g.wiped
    requires g.round.Recycling? ==> Requestor(g') == Requestor(g)
    ensures Replies(g') && Owed(g')
  {
    hide Max;
    forall p, r | 0 <= p < N(g'.mu) && 0 <= r < N(g'.mu) ensures ReplyOk(g', p, r) {
      assert ReplyOk(g, p, r);
    }
  }

  // ---------------------------------------------------------------------
  // Steps of the protocol
  // ---------------------------------------------------------------------

  lemma NormalStep(g: Group, ev: Event)
    requires GroupInv(g) && Ready(g, Step(ev)) && g.round.Normal?
    ensures GroupInv(After(g, Step(ev)))
  {
    hide Enabled, Next, Tokens, Answers, Ordered, Writes, Logs, Running, PosOk, Replies, Owed;
    var s, g' := g.mu, After(g, Step(ev));
    UnwipedNothing(s);
    TokensUnwiped(s, map[]);
    StepGrows(s, ev);
    StepKeepsInv(s, ev);
    StepKeepsPositions(s, ev);
    UnwipedNothing(g'.mu);
    NoReadAfterWrite(s);
    UnaskedKept(s, None, ev);
    LedgerSame(g, g');
  }

  /** What a step in the middle of a round may assume. */
  ghost predicate MidRound(g: Group, ev: Event) {
    && GroupInv(g) && Ready(g, Step(ev)) && g.round.Recycling? && Undisturbed(g, Step(ev))
  }

  lemma MidRoundIs(g: Group, ev: Event)
    requires MidRound(g, ev)
    ensures Shape(g.mu) && Tokens(g.mu) && TokensDistinct(g.mu)
    ensures InRound(g.mu, g.wiped, g.round.a, ev) && Plain(g.mu, Some(g.round.a), ev)
    ensures Grows(g.mu, Next(g.mu, ev))
    ensures Enabled(Shadow(g), ev) && Next(Shadow(g), ev) == Unwiped(Next(g.mu, ev), g.wiped)
  {
    hide Enabled, Next, Answers, Ordered, Writes, Logs, Running, PosOk, Replies, Owed, Tokens, Unwiped;
    TokensUnwiped(g.mu, g.wiped);
    StepGrows(g.mu, ev);
    StepMirrors(g.mu, g.wiped, g.round.a, ev);
  }

  /** The asking leader waits. */
  lemma AskerWaits(s: State, wiped: map<nat, Replica>, a: nat, ev: Event)
    requires InRound(s, wiped, a, ev)
    ensures a < |s.terms| && a < |Next(s, ev).terms| && Next(s, ev).terms[a].phase == s.terms[a].phase
  {
    hide Multiple, Max, Modulo, RepShape, LastAcked;
    if IsElection(ev) {
      hide Enabled;
      assert NextElection(s, ev).terms == s.terms;
    } else if IsQuiet(ev) {
      hide Enabled;
      QuietElsewhere(s, wiped, a, ev);
      QuietEffect(s, ev);
    } else if IsPost(ev) {
      hide Enabled, PostedOp, PostedPhase;
      PostElsewhere(s, wiped, a, ev);
    } else {
      hide NextElection, NextQuiet;
    }
  }

  /** Those at rest stay so. */
  lemma RestStays(s: State, wiped: map<nat, Replica>, a: nat, ev: Event, r: nat)
    requires InRound(s, wiped, a, ev) && r in wiped
    ensures r < N(s) && N(Next(s, ev)) == N(s) && Next(s, ev).reps[r] == Restarted(Next(s, ev).reps[r])
  {
    hide Multiple, Max, Modulo, RepShape, LastAcked, Next;
    assert RestsAt(s, a, r);
    if ev.Decide? {
      ElsewhereBusy(s, wiped, a, ev.a);
      DecideEffect(s, ev.a);
    } else if ev.Sample? || ev.CommitOne? {
      FollowerEffect(s, ev);
    } else {
      OthersStayPut(s, ev, r);
      LogStaysEmpty(s, wiped, a, ev, r);
    }
  }

  lemma FollowerEffect(s: State, ev: Event)
    requires Shape(s) && Enabled(s, ev) && (ev.Sample? || ev.CommitOne?)
    ensures N(Next(s, ev)) == N(s) && ev.r < N(s)
    ensures forall r :: 0 <= r < N(s) && r != ev.r ==> Next(s, ev).reps[r] == s.reps[r]
    ensures ev.Sample? ==> s.reps[ev.r].seen in s.reps[ev.r].log
    ensures ev.CommitOne? ==> |s.reps[ev.r].committed| < s.reps[ev.r].target
  {}

  lemma LogStaysEmpty(s: State, wiped: map<nat, Replica>, a: nat, ev: Event, r: nat)
    requires InRound(s, wiped, a, ev) && r in wiped
    requires !ev.Decide? && !ev.Sample? && !ev.CommitOne?
    ensures r < N(s) && N(Next(s, ev)) == N(s) && Next(s, ev).reps[r].log == map[]
  {
    hide Next, Enabled;
    assert RestsAt(s, a, r);
    EntryComesFrom(s, ev, r, 0);
    forall j: nat ensures j !in Next(s, ev).reps[r].log {
      EntryComesFrom(s, ev, r, j);
      NothingFresh(s, wiped, a, ev, r, j);
    }
    assert Next(s, ev).reps[r].log.Keys == {};
  }

  lemma NothingFresh(s: State, wiped: map<nat, Replica>, a: nat, ev: Event, r: nat, j: nat)
    requires InRound(s, wiped, a, ev) && r in wiped
    ensures forall e :: !Fresh(s, ev, r, j, e)
  {
    assert RestsAt(s, a, r);
    if IsPost(ev) {
      PostElsewhere(s, wiped, a, ev);
    } else if ev.Deliver? {
      if ev.a != a {
        ElsewhereOpen(s, wiped, a, ev.a, ev.r);
      }
    }
  }

  /** Nobody gets busy without access to their own log. */
  lemma BusyAfter(s: State, ev: Event, c: nat)
    requires Shape(s) && Enabled(s, ev) && c < |Next(s, ev).terms| && Next(s, ev).terms[c].phase.Busy()
    requires forall b :: 0 <= b < |s.terms| && s.terms[b].phase.Write? ==> !s.terms[b].phase.next.Busy()
    ensures c < |s.terms| && (s.terms[c].phase.Busy() || (IsTerm(s, c) && Own(s, c)))
  {
    hide Multiple, Max, Modulo, RepShape, LastAcked;
    if IsElection(ev) {
      hide Enabled;
      assert NextElection(s, ev).terms == s.terms;
    } else if IsQuiet(ev) {
      QuietEffect(s, ev);
      QuietPhases(s, ev);
    } else if IsPost(ev) {
      hide PostedOp, PostedPhase;
    } else {
      hide NextElection, NextQuiet;
    }
  }

  lemma NoBusyAfterWrite(s: State)
    requires Inv(s)
    ensures forall b :: 0 <= b < |s.terms| && s.terms[b].phase.Write? ==> !s.terms[b].phase.next.Busy()
  {
    hide Tokens, Answers, Ordered, Writes, Logs, LeaderOk, DecidedOk, Piped, Frontier, FastOk;
    forall b | 0 <= b < |s.terms| && s.terms[b].phase.Write? ensures !s.terms[b].phase.next.Busy() {
      assert RunOk(s, b);
    }
  }

  lemma QuietNearby(s: State, wiped: map<nat, Replica>, a: nat, ev: Event, r: nat, c: nat)
    requires InRound(s, wiped, a, ev) && Grows(s, Next(s, ev)) && r in wiped
    requires forall b :: 0 <= b < |s.terms| && s.terms[b].phase.Write? ==> !s.terms[b].phase.next.Busy()
    requires c < |Next(s, ev).terms| && c != a && Next(s, ev).terms[c].tok.pid == r
    ensures !Next(s, ev).terms[c].phase.Busy()
  {
    hide Next, Enabled;
    assert RestsAt(s, a, r);
    if Next(s, ev).terms[c].phase.Busy() {
      BusyAfter(s, ev, c);
      assert TermGrows(s, Next(s, ev), c);
      if IsTerm(s, c) && Own(s, c) { ElsewhereOpen(s, wiped, a, c, r); }
      assert false;
    }
  }

  lemma AtRestKept(s: State, wiped: map<nat, Replica>, a: nat, ev: Event)
    requires InRound(s, wiped, a, ev) && Grows(s, Next(s, ev))
    requires forall b :: 0 <= b < |s.terms| && s.terms[b].phase.Write? ==> !s.terms[b].phase.next.Busy()
    requires a < |s.terms| && Next(s, ev).terms[a].ops == s.terms[a].ops
    ensures AtRest(Next(s, ev), wiped, a)
  {
    hide Next, Enabled;
    var s' := Next(s, ev);
    AskerWaits(s, wiped, a, ev);
    assert TermGrows(s, s', a);
    forall r | r in wiped ensures r < N(s') && RestsAt(s', a, r) {
      assert RestsAt(s, a, r);
      RestStays(s, wiped, a, ev, r);
      HolderStays(s, ev, r);
      assert TermShape(s', a);
      forall c | 0 <= c < |s'.terms| && c != a && s'.terms[c].tok.pid == r ensures !s'.terms[c].phase.Busy() {
        QuietNearby(s, wiped, a, ev, r, c);
      }
    }
  }

  lemma RequestedKept(g: Group, ev: Event)
    requires MidRound(g, ev) && GroupShape(After(g, Step(ev)))
    requires InRound(g.mu, g.wiped, g.round.a, ev) && Grows(g.mu, Next(g.mu, ev))
    requires Next(g.mu, ev).terms[g.round.a].ops == g.mu.terms[g.round.a].ops
    ensures Requested(After(g, Step(ev))) && Requestor(After(g, Step(ev))) == Requestor(g)
  {
    hide Next, Enabled, Inv, Positions, Ledger, ValuesChosen, WipedOk, AtRest, Modulo;
    var s, s', a := g.mu, Next(g.mu, ev), g.round.a;
    assert TermGrows(s, s', a);
    AskerWaits(s, g.wiped, a, ev);
    HolderStays(s, ev, Requestor(g));
    assert Modulo(s') == Modulo(s) by { SameModulo(s, s'); }
  }

  lemma SameModulo(s: State, s': State)
    requires s'.ids == s.ids
    ensures Modulo(s') == Modulo(s)
  {}

  lemma ValuesStayChosen(g: Group, ev: Event)
    requires MidRound(g, ev) && GroupShape(After(g, Step(ev)))
    requires Enabled(Shadow(g), ev) && Shadow(After(g, Step(ev))) == Next(Shadow(g), ev)
    ensures Shape(Shadow(After(g, Step(ev)))) && ValuesChosen(After(g, Step(ev)))
  {
    hide Next, Enabled, Positions, Ledger, WipedOk, AtRest, Requested;
    var v, v' := Shadow(g), Shadow(After(g, Step(ev)));
    StepGrows(v, ev);
    forall k | 0 <= k < |g.round.values| ensures Chosen(v', k, g.round.values[k]) {
      ChosenKept(v, v', k, g.round.values[k]);
    }
  }

  lemma RoundStep(g: Group, ev: Event)
    requires MidRound(g, ev)
    ensures GroupInv(After(g, Step(ev)))
  {
    hide Enabled, Next, Tokens, Answers, Ordered, Writes, Logs, Running, PosOk, Replies, Owed, AtRest, Requested,
         ValuesChosen, Unasked, InRound, Plain, Unwiped;
    var s, v, g' := g.mu, Shadow(g), After(g, Step(ev));
    MidRoundIs(g, ev);
    NoBusyAfterWrite(v);
    NoReadAfterWrite(v);
    UnaskedKept(s, Some(g.round.a), ev);
    assert TermGrows(s, g'.mu, g.round.a);
    StepKeepsInv(v, ev);
    StepKeepsPositions(v, ev);
    AtRestKept(s, g.wiped, g.round.a, ev);
    RequestedKept(g, ev);
    ValuesStayChosen(g, ev);
    LedgerSame(g, g');
  }

  lemma StepKeepsGroup(g: Group, ev: Event)
    requires GroupInv(g) && Ready(g, Step(ev)) && Undisturbed(g, Step(ev))
    ensures GroupInv(After(g, Step(ev)))
  {
    hide GroupInv, Ready, Enabled;
    if g.round.Normal? {
      NormalStep(g, ev);
    } else {
      RoundStep(g, ev);
    }
  }
}
