// Mu: generations.

module MuGenerations {
  // Any number of generations of the log: what recycling keeps, and what it can lose.

  import opened Options
  import opened MuModel
  import opened MuHistory
  import opened MuElection
  import opened MuSafety
  import opened MuPhases
  import opened MuQuietSteps
  import opened MuDecideSteps
  import opened MuAgreement
  import opened MuPositions
  import opened MuRecycling
  import opened MuWiped
  import opened MuRequests
  import opened MuRounds
  import opened MuRoundSteps
  import opened MuRoundActions

  lemma {:induction false} GroupRunInv(groups: seq<Group>, actions: seq<Action>, i: nat)
    requires IsGroupRun(groups, actions) && i < |groups|
    ensures GroupInv(groups[i])
  {
    if i == 0 {
      StartsInv(groups[0]);
    } else {
      GroupRunInv(groups, actions, i - 1);
      assert ActionAt(groups, actions, i - 1);
      ActionKeepsGroup(groups[i - 1], actions[i - 1]);
    }
  }

  lemma StartsInv(g: Group)
    requires GroupInit(g)
    ensures GroupInv(g)
  {
    hide Begins, Inv, Positions;
    InitBegins(g.mu);
    BeginsInv(g.mu);
    UnwipedNothing(g.mu);
    forall r: nat | r < N(g.mu) ensures LogAsks(g.mu, None, r) {
      assert g.mu.reps[r] == InitReplica(|g.mu.ids|, g.mu.ids[r]);
    }
  }

  /** What one action of a run may assume. */
  ghost predicate Acts(g: Group, ac: Action) {
    GroupInv(g) && Ready(g, ac) && Undisturbed(g, ac)
  }

  lemma RunActs(groups: seq<Group>, actions: seq<Action>, i: nat)
    requires IsGroupRun(groups, actions) && i < |actions|
    ensures Acts(groups[i], actions[i]) && groups[i + 1] == After(groups[i], actions[i]) && GroupInv(groups[i + 1])
  {
    GroupRunInv(groups, actions, i);
    GroupRunInv(groups, actions, i + 1);
    assert ActionAt(groups, actions, i);
  }

  // ---------------------------------------------------------------------
  // What an action does to the state the protocol sees
  // ---------------------------------------------------------------------

  /** A step is a step of it; starting over and replying change nothing. */
  lemma ShadowAfter(g: Group, ac: Action)
    requires Acts(g, ac) && GroupInv(After(g, ac))
    ensures ac.Step? ==> Enabled(Shadow(g), ac.ev) && Shadow(After(g, ac)) == Next(Shadow(g), ac.ev)
    ensures ac.PostRequest? ==>
              && Shadow(g) == g.mu && Enabled(g.mu, PostNew(ac.a, RequestOf(g, ac.a)))
              && Shadow(After(g, ac)) == Next(g.mu, PostNew(ac.a, RequestOf(g, ac.a)))
    ensures ac.RestartLeader? || ac.RestartFollower? || ac.Reply? ==> Shadow(After(g, ac)) == Shadow(g)
  {
    hide Enabled, Next, Inv, Positions, Ledger, RequestSeen, LastAcked, AtRest, Requested, ValuesChosen;
    match ac
    case Step(ev) =>
      if g.round.Recycling? {
        MidRoundIs(g, ev);
      } else {
        UnwipedNothing(g.mu);
        UnwipedNothing(After(g, ac).mu);
      }
    case PostRequest(a) =>
      RequestReady(g, a);
      UnwipedNothing(g.mu);
      UnwipedNothing(After(g, ac).mu);
    case RestartLeader =>
      LeaderRests(g);
      WipeUnseen(g, Requestor(g));
    case RestartFollower(r) =>
      SeenIsAsked(g, r);
      WipeUnseen(g, r);
    case Reply(r) =>
    case EndWait =>
  }

  lemma ShadowGrows(g: Group, ac: Action)
    requires Acts(g, ac) && GroupInv(After(g, ac)) && !ac.EndWait?
    ensures Grows(Shadow(g), Shadow(After(g, ac)))
    ensures forall r :: 0 <= r < N(g.mu) ==> Shadow(g).reps[r].committed <= Shadow(After(g, ac)).reps[r].committed
  {
    hide Enabled, Next, Inv, Positions, Ledger, RoundOk, After, Unwiped, NothingRead, RequestSeen, LastAcked;
    ShadowAfter(g, ac);
    if ac.Step? {
      StepExtended(Shadow(g), ac.ev);
    } else if ac.PostRequest? {
      StepExtended(g.mu, PostNew(ac.a, RequestOf(g, ac.a)));
    } else {
      SelfGrows(Shadow(g));
    }
  }

  lemma StepExtended(s: State, ev: Event)
    requires Inv(s) && Enabled(s, ev)
    ensures Extends(s, Next(s, ev))
  {
    StepExtends(s, ev);
  }

  lemma SelfGrows(s: State)
    requires Inv(s)
    ensures Grows(s, s)
  {
    GrowsSelf(s);
  }

  /** No two different values are chosen for a slot in one generation, at whatever
      moments of it. */
  lemma AgreementInGeneration(groups: seq<Group>, actions: seq<Action>, i: nat, j: nat, slot: nat, v: Value, w: Value)
    requires IsGroupRun(groups, actions) && i <= j < |groups|
    requires forall k :: i <= k < j ==> !actions[k].EndWait?
    requires Shape(Shadow(groups[i])) && Chosen(Shadow(groups[i]), slot, v)
    requires Shape(Shadow(groups[j])) && Chosen(Shadow(groups[j]), slot, w)
    ensures v == w
  {
    hide Inv, Positions, RoundOk, Ledger;
    GenerationGrows(groups, actions, i, j);
    ChosenKept(Shadow(groups[i]), Shadow(groups[j]), slot, v);
    GroupRunInv(groups, actions, j);
    AgreesNow(Shadow(groups[j]), slot, v, w);
  }

  lemma AgreesNow(s: State, slot: nat, v: Value, w: Value)
    requires Inv(s) && Chosen(s, slot, v) && Chosen(s, slot, w)
    ensures v == w
  {
    AgreementNow(s, slot, v, w);
  }

  lemma {:induction false} GenerationGrows(groups: seq<Group>, actions: seq<Action>, i: nat, j: nat)
    requires IsGroupRun(groups, actions) && i <= j < |groups|
    requires forall k :: i <= k < j ==> !actions[k].EndWait?
    ensures Grows(Shadow(groups[i]), Shadow(groups[j]))
    decreases j
  {
    hide Inv, Positions, RoundOk, Ledger, Ready, After, Undisturbed;
    if i == j {
      GroupRunInv(groups, actions, i);
      SelfGrows(Shadow(groups[i]));
    } else {
      GenerationGrows(groups, actions, i, j - 1);
      RunActs(groups, actions, j - 1);
      ShadowGrows(groups[j - 1], actions[j - 1]);
      GrowsAlso(Shadow(groups[i]), Shadow(groups[j - 1]), Shadow(groups[j]));
    }
  }

  // ---------------------------------------------------------------------
  // Nothing is lost by starting over: followers
  // ---------------------------------------------------------------------

  /** A follower that starts over has committed every slot below the offset of the
      request, each with the value chosen for it, and nothing else. */
  lemma FollowerLosesNothing(groups: seq<Group>, actions: seq<Action>, i: nat, r: nat)
    requires IsGroupRun(groups, actions) && i < |actions| && actions[i] == RestartFollower(r)
    requires GroupShape(groups[i])
    ensures RequestSeen(groups[i].mu, r) && Shape(Shadow(groups[i]))
    ensures var rep := groups[i].mu.reps[r];
            var request := rep.log[rep.seen - 1].val;
            && |rep.committed| == request.upTo
            && forall k :: 0 <= k < request.upTo ==> Chosen(Shadow(groups[i]), k, rep.committed[k])
  {
    hide Inv, Positions, Ledger, AtRest;
    RunActs(groups, actions, i);
    UnwipedShape(groups[i].mu, groups[i].wiped);
    SeenIsAsked(groups[i], r);
    SeenIsCommitted(groups[i], r);
    assert ValuesChosen(groups[i]);
  }

  /** When the leader stops waiting, everybody else has started over. */
  lemma AllHaveRestarted(groups: seq<Group>, actions: seq<Action>, i: nat, r: nat)
    requires IsGroupRun(groups, actions) && i < |actions| && actions[i] == EndWait && r < N(groups[i].mu)
    ensures groups[i].mu.reps[r] == Restarted(groups[i].mu.reps[r]) && r in groups[i].wiped
  {
    hide Inv, Positions, Ledger;
    RunActs(groups, actions, i);
    WaitedForAll(groups[i]);
    assert RestsAt(groups[i].mu, groups[i].round.a, r);
  }

  lemma AnswerKept(g: Group, ac: Action, r: nat)
    requires Acts(g, ac) && GroupInv(After(g, ac)) && g.round.Recycling? && !ac.EndWait?
    requires r < N(g.mu) && g.replies[Requestor(g)][r] + Modulo(g.mu) == g.reqNr[Requestor(g)]
    ensures var g' := After(g, ac);
            && g'.round.Recycling? && Requestor(g') == Requestor(g) && N(g'.mu) == N(g.mu)
            && g'.replies[Requestor(g')][r] + Modulo(g'.mu) == g'.reqNr[Requestor(g')]
  {
    hide Inv, Positions, Enabled, Next, Modulo, AtRest, ValuesChosen, RequestSeen, LastAcked, Unasked;
    LagStays(g, ac);
    EarlierAfter(g, ac);
    IdsAfter(g, ac);
    SameModulo(g.mu, After(g, ac).mu);
  }

  lemma IdsAfter(g: Group, ac: Action)
    requires Acts(g, ac) && GroupInv(After(g, ac))
    ensures After(g, ac).mu.ids == g.mu.ids
  {
    hide Inv, Positions, Ledger, Enabled, Next, RequestSeen, LastAcked, RoundOk;
    if ac.Step? {
      TokensNow(g);
      StepGrows(g.mu, ac.ev);
    } else if ac.PostRequest? {
      RequestReady(g, ac.a);
      RequestEffect(g.mu, ac.a, RequestOf(g, ac.a));
    }
  }

  /** An answer once seen stands until the wait ends: the loop that sees them one after
      the other ends with all of them in place, as EndWait demands. */
  lemma {:induction false} AnswersStand(groups: seq<Group>, actions: seq<Action>, i: nat, j: nat, r: nat)
    requires IsGroupRun(groups, actions) && i <= j < |groups| && forall k :: i <= k < j ==> !actions[k].EndWait?
    requires GroupShape(groups[i]) && groups[i].round.Recycling? && r < N(groups[i].mu)
    requires groups[i].replies[Requestor(groups[i])][r] + Modulo(groups[i].mu) == groups[i].reqNr[Requestor(groups[i])]
    ensures GroupShape(groups[j]) && groups[j].round.Recycling? && N(groups[j].mu) == N(groups[i].mu)
    ensures Requestor(groups[j]) == Requestor(groups[i])
    ensures groups[j].replies[Requestor(groups[j])][r] + Modulo(groups[j].mu) == groups[j].reqNr[Requestor(groups[j])]
    decreases j
  {
    hide Inv, Positions, Ledger, RoundOk, Ready, After, Undisturbed, Modulo;
    if i < j {
      AnswersStand(groups, actions, i, j - 1, r);
      RunActs(groups, actions, j - 1);
      AnswerKept(groups[j - 1], actions[j - 1], r);
    }
  }

  // ---------------------------------------------------------------------
  // Nothing is lost by starting over: the leader
  // ---------------------------------------------------------------------

  /** The replica of the waiting leader stands where it stood. */
  lemma LeaderStandsStill(v: State, a: nat, ev: Event)
    requires Inv(v) && IsTerm(v, a) && v.terms[a].phase.Write? && Own(v, a) && Enabled(v, ev) && ev != Decide(a)
    ensures N(Next(v, ev)) == N(v) && SamePosition(Leader(v, a), Next(v, ev).reps[Pid(v, a)])
  {
    hide Tokens, Answers, Ordered, Writes, Logs, PhaseOk, DecidedOk, Piped, RepOk, Next;
    var p := Pid(v, a);
    assert RunOk(v, a) && LeaderOk(v, a) && Exclusive(v);
    if ev.Decide? {
      DecideEffect(v, ev.a);
      assert InCharge(v, a) && v.terms[ev.a].phase.Busy();
    } else if ev.Sample? || ev.CommitOne? {
      FollowerEffect(v, ev);
      assert Leading(v, p) && CaughtUp(Leader(v, a));
    } else {
      OthersStayPut(v, ev, p);
    }
  }

  lemma LagStays(g: Group, ac: Action)
    requires Acts(g, ac) && GroupInv(After(g, ac)) && g.round.Recycling? && !ac.EndWait?
    ensures After(g, ac).round.Recycling? && Requestor(After(g, ac)) == Requestor(g)
        && After(g, ac).round.values == g.round.values
    ensures SamePosition(Shadow(g).reps[Requestor(g)], Shadow(After(g, ac)).reps[Requestor(g)])
  {
    hide Enabled, Next, Inv, Positions, Ledger, RequestSeen, LastAcked, Unwiped, ValuesChosen;
    ShadowAfter(g, ac);
    if ac.Step? {
      var v := Shadow(g);
      UnwipedShape(g.mu, g.wiped);
      assert TermShape(v, g.round.a);
      assert Own(v, g.round.a);
      LeaderStandsStill(v, g.round.a, ac.ev);
      MidRoundIs(g, ac.ev);
      assert TermGrows(g.mu, Next(g.mu, ac.ev), g.round.a);
    }
  }

  /** In a round the leader has committed all below its request, or all but the last. */
  lemma LeaderCommitted(g: Group)
    requires GroupInv(g) && g.round.Recycling?
    ensures var rep := Shadow(g).reps[Requestor(g)];
            && (rep.committed == g.round.values <==> !Lags(rep))
            && (Lags(rep) ==> |g.round.values| > 0 && rep.committed == g.round.values[..|g.round.values| - 1])
  {
    hide Tokens, Answers, Ordered, Logs, Replies, Owed, DecidedOk, Piped, Unasked;
    var v, p, n := Shadow(g), Requestor(g), |g.round.values|;
    assert TermShape(v, g.round.a);
    assert RunOk(v, g.round.a) && LeaderOk(v, g.round.a) && PhaseOk(v, g.round.a) && RepOk(v, p) && PosOk(v.reps[p]);
    var c := v.reps[p].committed;
    forall k | 0 <= k < |c| && k < n ensures c[k] == g.round.values[k] {
      AgreementNow(v, k, c[k], g.round.values[k]);
    }
  }

  lemma {:induction false} LagThroughRound(groups: seq<Group>, actions: seq<Action>, i: nat, j: nat)
    requires IsGroupRun(groups, actions) && i < j < |groups| && actions[i].PostRequest?
    requires forall k :: i < k < j ==> !actions[k].EndWait?
    ensures GroupInv(groups[i]) && IsTerm(groups[i].mu, actions[i].a)
    ensures GroupInv(groups[j]) && groups[j].round.Recycling? && Requestor(groups[j]) == Pid(groups[i].mu, actions[i].a)
    ensures Lags(Shadow(groups[j]).reps[Requestor(groups[j])]) <==> Lags(Leader(groups[i].mu, actions[i].a))
    decreases j
  {
    hide Inv, Positions, RoundOk, Ledger, Undisturbed, Enabled, Next, Unwiped, NothingRead;
    RunActs(groups, actions, i);
    if j == i + 1 {
      LagWhenAsked(groups[i], actions[i].a);
    } else {
      LagThroughRound(groups, actions, i, j - 1);
      RunActs(groups, actions, j - 1);
      LagStays(groups[j - 1], actions[j - 1]);
    }
  }

  lemma LagWhenAsked(g: Group, a: nat)
    requires Acts(g, PostRequest(a)) && GroupInv(After(g, PostRequest(a)))
    ensures IsTerm(g.mu, a) && Requestor(After(g, PostRequest(a))) == Pid(g.mu, a)
    ensures SamePosition(Leader(g.mu, a), Shadow(After(g, PostRequest(a))).reps[Pid(g.mu, a)])
  {
    hide Inv, Positions, RoundOk, Ledger, Next, Unwiped;
    ShadowAfter(g, PostRequest(a));
    RequestEffect(g.mu, a, RequestOf(g, a));
    OthersStayPut(g.mu, PostNew(a, RequestOf(g, a)), Pid(g.mu, a));
  }

  /** The leader's restart loses nothing if and only if its iterators were in step
      when it asked; otherwise it loses exactly the last slot. */
  lemma LeaderLosesNothingIff(groups: seq<Group>, actions: seq<Action>, i: nat, j: nat)
    requires IsGroupRun(groups, actions) && i < j < |actions|
    requires actions[i].PostRequest? && actions[j] == RestartLeader && forall k :: i < k < j ==> !actions[k].EndWait?
    ensures GroupShape(groups[i]) && IsTerm(groups[i].mu, actions[i].a)
    ensures GroupShape(groups[j]) && groups[j].round.Recycling?
    ensures var committed := groups[j].mu.reps[Requestor(groups[j])].committed;
            var values := groups[j].round.values;
            var lags := Lags(Leader(groups[i].mu, actions[i].a));
            && (committed == values <==> !lags)
            && (lags ==> |values| > 0 && committed == values[..|values| - 1])
  {
    hide Inv, Positions, RoundOk, Ledger, Undisturbed;
    LagThroughRound(groups, actions, i, j);
    RunActs(groups, actions, j);
    LeaderRests(groups[j]);
    LeaderCommitted(groups[j]);
  }

  // ---------------------------------------------------------------------
  // When a leader lags
  // ---------------------------------------------------------------------

  /** Since replica p last decided a slot and its iterator found nothing there to
      sample, it has neither sampled as a follower, nor decided again, nor started over. */
  predicate LookedInVain(groups: seq<Group>, actions: seq<Action>, i: nat, p: nat)
    requires |groups| == |actions| + 1 && i < |groups|
    requires forall k :: 0 <= k < |groups| ==> GroupShape(groups[k])
  {
    if i == 0 then false
    else if DecidesAt(groups[i - 1], actions[i - 1], p) then
      p < N(groups[i - 1].mu) && groups[i - 1].mu.reps[p].seen !in groups[i - 1].mu.reps[p].log
    else if MovesAt(groups[i - 1], actions[i - 1], p) then false
    else LookedInVain(groups, actions, i - 1, p)
  }

  predicate DecidesAt(g: Group, ac: Action, p: nat) {
    ac.Step? && ac.ev.Decide? && ac.ev.a < |g.mu.terms| && Pid(g.mu, ac.ev.a) == p
  }

  predicate MovesAt(g: Group, ac: Action, p: nat)
    requires GroupShape(g)
  {
    || ac == Step(Sample(p)) || ac == RestartFollower(p)
    || (ac == RestartLeader && g.round.Recycling? && Requestor(g) == p)
  }

  /** One step on the replica: it is left behind only by deciding without finding
      anything to sample. */
  lemma LagAfterStep(s: State, ev: Event, p: nat)
    requires Inv(s) && Positions(s) && Enabled(s, ev) && p < N(s)
    ensures N(Next(s, ev)) == N(s)
    ensures Lags(Next(s, ev).reps[p]) <==>
              if ev.Decide? && ev.a < |s.terms| && Pid(s, ev.a) == p then s.reps[p].seen !in s.reps[p].log
              else ev != Sample(p) && Lags(s.reps[p])
  {
    hide Tokens, Answers, Ordered, Writes, Logs, Running, LastAcked, RepShape, NextQuiet, NextElection, Next;
    assert PosOk(s.reps[p]);
    if ev.Decide? {
      DecideEffect(s, ev.a);
      if Pid(s, ev.a) == p {
        DecidesInLog(s, ev.a);
        DecidedPosition(s.reps[p]);
      }
    } else if ev.Sample? || ev.CommitOne? {
      FollowerEffect(s, ev);
      if ev.r == p {
        FollowerLag(s, ev);
      }
    } else {
      OthersStayPut(s, ev, p);
    }
  }

  lemma FollowerLag(s: State, ev: Event)
    requires Inv(s) && Enabled(s, ev) && (ev.Sample? || ev.CommitOne?) && ev.r < N(s) && PosOk(s.reps[ev.r])
    ensures N(Next(s, ev)) == N(s) && !Lags(Next(s, ev).reps[ev.r])
    ensures ev.CommitOne? ==> !Lags(s.reps[ev.r])
  {
    if ev.Sample? {
      EmbeddedIsSlot(s, ev.r, s.reps[ev.r].seen);
      SampledPosition(s.reps[ev.r]);
    } else {
      CommittedPosition(s.reps[ev.r]);
    }
  }

  lemma RealPosition(g: Group, p: nat)
    requires GroupInv(g) && p < N(g.mu)
    ensures if p in g.wiped then g.mu.reps[p] == Restarted(g.mu.reps[p]) && !Lags(g.mu.reps[p])
            else Shadow(g).reps[p] == g.mu.reps[p]
  {
    hide Inv, Positions, Ledger;
    if p in g.wiped {
      assert RestsAt(g.mu, g.round.a, p);
    }
  }

  lemma LagAfterAction(g: Group, ac: Action, p: nat)
    requires Acts(g, ac) && GroupInv(After(g, ac)) && p < N(g.mu)
    ensures N(After(g, ac).mu) == N(g.mu)
    ensures Lags(After(g, ac).mu.reps[p]) <==>
              if DecidesAt(g, ac, p) then g.mu.reps[p].seen !in g.mu.reps[p].log
              else !MovesAt(g, ac, p) && Lags(g.mu.reps[p])
  {
    hide Inv, Positions, Ledger, Enabled, Next, Unwiped, RequestSeen, LastAcked, RoundOk;
    var g' := After(g, ac);
    ShadowAfter(g, ac);
    RealPosition(g, p);
    if ac.Step? {
      LagAfterStep(Shadow(g), ac.ev, p);
      RealPosition(g', p);
      if p in g.wiped { DecidesElsewhere(g, ac.ev, p); }
    } else if ac.PostRequest? {
      OthersStayPut(g.mu, PostNew(ac.a, RequestOf(g, ac.a)), p);
    }
  }

  /** A replica that has started over decides nothing while the round lasts. */
  lemma DecidesElsewhere(g: Group, ev: Event, p: nat)
    requires Acts(g, Step(ev)) && p in g.wiped
    ensures !DecidesAt(g, Step(ev), p)
  {
    hide Inv, Positions, Ledger, Next;
    MidRoundIs(g, ev);
    if ev.Decide? {
      ElsewhereBusy(g.mu, g.wiped, g.round.a, ev.a);
    }
  }

  /** A replica lags exactly if its last look, on deciding, was in vain. */
  lemma {:induction false} LagsIffLookedInVain(groups: seq<Group>, actions: seq<Action>, i: nat, p: nat)
    requires IsGroupRun(groups, actions) && i < |groups| && p < N(groups[0].mu)
    requires forall k :: 0 <= k < |groups| ==> GroupShape(groups[k])
    ensures N(groups[i].mu) == N(groups[0].mu)
    ensures Lags(groups[i].mu.reps[p]) <==> LookedInVain(groups, actions, i, p)
  {
    hide Inv, Positions, RoundOk, Ledger, Undisturbed, Enabled, Next;
    if i == 0 {
      assert groups[0].mu.reps[p] == InitReplica(|groups[0].mu.ids|, groups[0].mu.ids[p]);
    } else {
      LagsIffLookedInVain(groups, actions, i - 1, p);
      RunActs(groups, actions, i - 1);
      LagAfterAction(groups[i - 1], actions[i - 1], p);
    }
  }

  // ---------------------------------------------------------------------
  // What was posted in one generation does not reach the next
  // ---------------------------------------------------------------------

  /** A write of any leadership that has not arrived anywhere by the end of the wait
      cannot arrive: its leadership has lost its permission there ... */
  lemma LeftoversHaveNoAccess(groups: seq<Group>, actions: seq<Action>, i: nat, c: nat, r: nat)
    requires IsGroupRun(groups, actions) && i < |actions| && actions[i] == EndWait
    requires c < |groups[i].mu.terms| && r < N(groups[i].mu)
    ensures IsTerm(groups[i].mu, c)
    ensures groups[i].mu.terms[c].done[r] < |groups[i].mu.terms[c].ops| ==> !Open(groups[i].mu, c, r)
  {
    hide Inv, Positions, Ledger;
    var g := groups[i];
    RunActs(groups, actions, i);
    WaitedForAll(g);
    assert RestsAt(g.mu, g.round.a, r) && TermShape(g.mu, c);
    DistinctTokens(g);
  }

  lemma DistinctTokens(g: Group)
    requires GroupInv(g)
    ensures TokensDistinct(g.mu)
  {
    hide Answers, Ordered, Writes, Logs, Running, Positions, Ledger, RoundOk;
  }

  /** ... and does not get it back, in this generation or a later one. */
  lemma {:induction false} AccessNotRegained(groups: seq<Group>, actions: seq<Action>, i: nat, j: nat, c: nat, r: nat)
    requires IsGroupRun(groups, actions) && i <= j < |groups|
    requires c < |groups[i].mu.terms| && r < |groups[i].mu.reps| && !Open(groups[i].mu, c, r)
    ensures c < |groups[j].mu.terms| && r < |groups[j].mu.reps| && !Open(groups[j].mu, c, r)
    decreases j
  {
    hide Inv, Positions, RoundOk, Ledger, Undisturbed, Ready, After;
    if i < j {
      AccessNotRegained(groups, actions, i, j - 1, c, r);
      RunActs(groups, actions, j - 1);
      AccessAfter(groups[j - 1], actions[j - 1], c, r);
    }
  }

  lemma AccessAfter(g: Group, ac: Action, c: nat, r: nat)
    requires Acts(g, ac) && GroupInv(After(g, ac))
    requires c < |g.mu.terms| && r < N(g.mu) && !Open(g.mu, c, r)
    ensures c < |After(g, ac).mu.terms| && r < N(After(g, ac).mu) && !Open(After(g, ac).mu, c, r)
  {
    hide Inv, Positions, Ledger, RoundOk, Next, Enabled, RequestSeen, LastAcked, NothingRead, Unwiped;
    if ac.Step? {
      AccessAfterStep(g, ac.ev, c, r);
    } else if ac.PostRequest? {
      RequestReady(g, ac.a);
      RequestEffect(g.mu, ac.a, RequestOf(g, ac.a));
    }
  }

  lemma AccessAfterStep(g: Group, ev: Event, c: nat, r: nat)
    requires Acts(g, Step(ev))
    requires c < |g.mu.terms| && r < N(g.mu) && !Open(g.mu, c, r)
    ensures c < |Next(g.mu, ev).terms| && r < N(Next(g.mu, ev)) && !Open(Next(g.mu, ev), c, r)
  {
    hide Inv, Positions, Ledger, RoundOk, Next, Enabled, Unwiped;
    TokensNow(g);
    StepGrows(g.mu, ev);
    assert TermGrows(g.mu, Next(g.mu, ev), c);
  }

  lemma TokensNow(g: Group)
    requires GroupInv(g)
    ensures Tokens(g.mu)
  {
    hide Answers, Ordered, Writes, Logs, Running, Positions, Ledger, RoundOk, Tokens;
    TokensUnwiped(g.mu, g.wiped);
  }

  // ---------------------------------------------------------------------
  // What is handed to the commit handler, over all generations
  // ---------------------------------------------------------------------

  /** The leader was in step when it asked: the condition of LeaderLosesNothingIff. */
  ghost predicate AsksInStep(g: Group, ac: Action) {
    ac.PostRequest? && GroupShape(g) && IsTerm(g.mu, ac.a) ==> !Lags(Leader(g.mu, ac.a))
  }

  ghost predicate AllAskInStep(groups: seq<Group>, actions: seq<Action>)
    requires |groups| == |actions| + 1
  {
    forall i :: 0 <= i < |actions| ==> AsksInStep(groups[i], actions[i])
  }

  /** Nobody has missed anything of earlier generations. */
  ghost predicate Complete(g: Group) {
    && GroupShape(g)
    && (forall r :: 0 <= r < N(g.mu) ==>
          g.earlier[r] == if r in g.wiped then g.past + g.wiped[r].committed else g.past)
    && (g.round.Recycling? ==> !Lags(Shadow(g).reps[Requestor(g)]))
  }

  /** What was handed over is what was decided earlier, then what the protocol says
      this replica has committed. */
  lemma HandedIs(g: Group, r: nat)
    requires GroupInv(g) && Complete(g) && r < N(g.mu)
    ensures Handed(g, r) == g.past + Shadow(g).reps[r].committed
  {
    hide Inv, Positions, Ledger, RoundOk;
    RealPosition(g, r);
  }

  lemma EndIsComplete(g: Group)
    requires Acts(g, EndWait) && GroupInv(After(g, EndWait)) && Complete(g)
    ensures Complete(After(g, EndWait))
  {
    hide Inv, Positions, Ledger, AtRest, Requested, ValuesChosen;
    WaitedForAll(g);
    LeaderCommitted(g);
  }

  lemma AskIsComplete(g: Group, a: nat)
    requires Acts(g, PostRequest(a)) && GroupInv(After(g, PostRequest(a))) && Complete(g)
        && AsksInStep(g, PostRequest(a))
    ensures Complete(After(g, PostRequest(a)))
  {
    hide Inv, Positions, Ledger, Enabled, Next, Unwiped, RoundOk;
    LagWhenAsked(g, a);
    AskedFromNormal(g, a);
    RequestReady(g, a);
    RequestEffect(g.mu, a, RequestOf(g, a));
  }

  lemma OtherIsComplete(g: Group, ac: Action)
    requires Acts(g, ac) && GroupInv(After(g, ac)) && Complete(g) && !ac.EndWait? && !ac.PostRequest?
    ensures Complete(After(g, ac))
  {
    hide Inv, Positions, Ledger, RoundOk, Ready, After, Unwiped;
    if g.round.Recycling? { LagStays(g, ac); }
    EarlierAfter(g, ac);
    var g' := After(g, ac);
    assert forall r :: 0 <= r < N(g.mu) && r in g'.wiped && r in g.wiped ==> g'.wiped[r] == g.wiped[r];
  }

  lemma CompleteKept(g: Group, ac: Action)
    requires Acts(g, ac) && GroupInv(After(g, ac)) && Complete(g) && AsksInStep(g, ac)
    ensures Complete(After(g, ac))
  {
    hide GroupInv, Complete, Ready, After, Undisturbed, AsksInStep;
    match ac
    case EndWait => EndIsComplete(g);
    case PostRequest(a) => AskIsComplete(g, a);
    case Step(ev) => OtherIsComplete(g, ac);
    case RestartLeader => OtherIsComplete(g, ac);
    case RestartFollower(r) => OtherIsComplete(g, ac);
    case Reply(r) => OtherIsComplete(g, ac);
  }

  lemma AskedFromNormal(g: Group, a: nat)
    requires GroupInv(g) && Ready(g, PostRequest(a))
    ensures g.wiped == map[]
  {
    hide Inv, Positions, Ledger;
  }

  /** Starting over moves a replica's commits into its past; no other step touches that. */
  lemma EarlierAfter(g: Group, ac: Action)
    requires Acts(g, ac) && GroupInv(After(g, ac)) && !ac.EndWait? && !ac.PostRequest?
    ensures After(g, ac).past == g.past && N(After(g, ac).mu) == N(g.mu) && g.wiped.Keys <= After(g, ac).wiped.Keys
    ensures forall r :: 0 <= r < N(g.mu) && r in g.wiped ==>
              After(g, ac).earlier[r] == g.earlier[r] && After(g, ac).wiped[r] == g.wiped[r]
    ensures forall r :: 0 <= r < N(g.mu) && r !in g.wiped && r in After(g, ac).wiped ==>
              After(g, ac).earlier[r] == g.earlier[r] + After(g, ac).wiped[r].committed
    ensures forall r :: 0 <= r < N(g.mu) && r !in After(g, ac).wiped ==> After(g, ac).earlier[r] == g.earlier[r]
    ensures g.round.Normal? ==> After(g, ac).round.Normal?
  {
    hide Inv, Positions, Ledger, Enabled, Next, Unwiped, LastAcked, RoundOk;
    ShadowAfter(g, ac);
    if ac.RestartLeader? {
      LeaderRests(g);
    } else if ac.RestartFollower? {
      SeenIsAsked(g, ac.r);
    } else if ac.Step? {
      SameCount(g, ac.ev);
    }
  }

  lemma SameCount(g: Group, ev: Event)
    requires Acts(g, Step(ev))
    ensures N(After(g, Step(ev)).mu) == N(g.mu)
  {
    hide Inv, Positions, Ledger, RoundOk, Next;
    TokensNow(g);
    StepGrows(g.mu, ev);
  }

  lemma {:induction false} RunComplete(groups: seq<Group>, actions: seq<Action>, i: nat)
    requires IsGroupRun(groups, actions) && AllAskInStep(groups, actions) && i < |groups|
    ensures Complete(groups[i])
  {
    hide Inv, Positions, Ledger, RoundOk, Ready, After, Undisturbed;
    if i > 0 {
      RunComplete(groups, actions, i - 1);
      RunActs(groups, actions, i - 1);
      CompleteKept(groups[i - 1], actions[i - 1]);
    }
  }

  /** At any one moment the replicas differ only in how far they have got. */
  lemma HandedComparableNow(g: Group, p: nat, q: nat)
    requires GroupInv(g) && Complete(g) && p < N(g.mu) && q < N(g.mu)
    ensures Handed(g, p) <= Handed(g, q) || Handed(g, q) <= Handed(g, p)
  {
    hide Tokens, Answers, Ordered, Logs, Positions, Ledger, RoundOk;
    HandedIs(g, p);
    HandedIs(g, q);
    var v := Shadow(g);
    assert RepOk(v, p) && RepOk(v, q);
    var c, d := v.reps[p].committed, v.reps[q].committed;
    forall k | 0 <= k < |c| && k < |d| ensures c[k] == d[k] {
      AgreementNow(v, k, c[k], d[k]);
    }
  }

  /** Nothing handed over is taken back. */
  lemma HandedAfter(g: Group, ac: Action, r: nat)
    requires Acts(g, ac) && GroupInv(After(g, ac)) && r < N(g.mu)
    ensures N(After(g, ac).mu) == N(g.mu) && Handed(g, r) <= Handed(After(g, ac), r)
  {
    hide Inv, Positions, Ledger, Enabled, Next, RequestSeen, LastAcked, RoundOk, NothingRead;
    if ac.Step? {
      SameCount(g, ac.ev);
      CommittedGrows(g.mu, ac.ev);
    } else if ac.PostRequest? {
      RequestReady(g, ac.a);
      CommittedGrows(g.mu, PostNew(ac.a, RequestOf(g, ac.a)));
    }
  }

  lemma {:induction false} HandedGrows(groups: seq<Group>, actions: seq<Action>, i: nat, j: nat, r: nat)
    requires IsGroupRun(groups, actions) && i <= j < |groups| && r < |groups[i].mu.reps|
    ensures GroupInv(groups[i]) && GroupInv(groups[j]) && N(groups[j].mu) == N(groups[i].mu)
    ensures Handed(groups[i], r) <= Handed(groups[j], r)
    decreases j
  {
    hide Inv, Positions, Ledger, RoundOk, Ready, After, Undisturbed;
    GroupRunInv(groups, actions, i);
    if i < j {
      HandedGrows(groups, actions, i, j - 1, r);
      RunActs(groups, actions, j - 1);
      HandedAfter(groups[j - 1], actions[j - 1], r);
    }
  }

  /** STATE MACHINE SAFETY OVER GENERATIONS.  What any two replicas have handed to the
      commit handler since the start, at any two moments of a run with any number of
      recyclings, is comparable: one is a prefix of the other. */
  lemma HandedComparable(groups: seq<Group>, actions: seq<Action>, i: nat, j: nat, p: nat, q: nat)
    requires IsGroupRun(groups, actions) && AllAskInStep(groups, actions)
    requires i <= j < |groups| && p < |groups[i].mu.reps| && q < |groups[j].mu.reps|
    ensures GroupShape(groups[i]) && GroupShape(groups[j])
    ensures Handed(groups[i], p) <= Handed(groups[j], q) || Handed(groups[j], q) <= Handed(groups[i], p)
  {
    hide Inv, Positions, Ledger, RoundOk;
    HandedGrows(groups, actions, i, j, p);
    RunComplete(groups, actions, j);
    HandedComparableNow(groups[j], p, q);
  }
}
