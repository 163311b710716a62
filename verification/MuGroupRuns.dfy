// Building runs with recycling out of steps and out of pieces of runs of two replicas.

module MuGroupRuns {
  import opened Options
  import opened Quorums
  import opened MuModel
  import opened MuTwoReplicas
  import opened MuTwoRuns
  import opened MuRecycling
  import opened MuGenerations

  predicate TakenAt(groups: seq<Group>, actions: seq<Action>, i: nat)
    requires i < |actions| && i + 1 < |groups|
  {
    GroupShape(groups[i]) && Ready(groups[i], actions[i]) && groups[i + 1] == After(groups[i], actions[i])
  }

  /** Runs with recycling in which leaderships may change at any time. */
  predicate IsLooseRun(groups: seq<Group>, actions: seq<Action>) {
    && |groups| == |actions| + 1
    && GroupInit(groups[0])
    && forall i :: 0 <= i < |actions| ==> TakenAt(groups, actions, i)
  }

  /** The only thing that is not as the runs of MuRecycling demand. */
  ghost predicate OnlyGrants(g: Group, ac: Action) {
    !Undisturbed(g, ac) ==> ac.Step? && ac.ev.Grant?
  }

  function ActionProposes(ac: Action): seq<Value> {
    if ac.Step? then ProposedBy(ac.ev) else []
  }

  /** What callers have proposed in a run. */
  function Proposals(actions: seq<Action>): seq<Value> {
    if actions == [] then [] else Proposals(actions[..|actions| - 1]) + ActionProposes(actions[|actions| - 1])
  }

  /** calm: nothing disturbs a round; inStep: whoever asks for recycling is in step. */
  datatype Kind = Kind(calm: bool, inStep: bool)

  ghost predicate Allowed(kind: Kind, g: Group, ac: Action) {
    OnlyGrants(g, ac) && (kind.calm ==> Undisturbed(g, ac)) && (kind.inStep ==> AsksInStep(g, ac))
  }

  ghost predicate Goes(groups: seq<Group>, actions: seq<Action>, proposed: seq<Value>, kind: Kind, g: Group) {
    && IsLooseRun(groups, actions) && |groups| == |actions| + 1 && groups[|actions|] == g
    && Proposals(actions) == proposed
    && forall i :: 0 <= i < |actions| ==> Allowed(kind, groups[i], actions[i])
  }

  /** A run of this kind, in which callers propose these values, ends in g. */
  ghost predicate Arrives(proposed: seq<Value>, kind: Kind, g: Group) {
    exists groups, actions :: Goes(groups, actions, proposed, kind, g)
  }

  /** Such a run. */
  lemma Witness(proposed: seq<Value>, kind: Kind, g: Group) returns (groups: seq<Group>, actions: seq<Action>)
    requires Arrives(proposed, kind, g)
    ensures IsLooseRun(groups, actions) && |groups| == |actions| + 1 && groups[|actions|] == g
        && Proposals(actions) == proposed
    ensures forall i :: 0 <= i < |actions| ==> OnlyGrants(groups[i], actions[i])
    ensures kind.inStep ==> AllAskInStep(groups, actions)
    ensures kind.calm ==> IsGroupRun(groups, actions)
  {
    hide TakenAt, GroupInit, AsksInStep, OnlyGrants, Undisturbed, Proposals, IsGroupRun;
    groups, actions :| Goes(groups, actions, proposed, kind, g);
    if kind.calm { CalmIsGroupRun(groups, actions, proposed, kind, g); }
    forall i | 0 <= i < |actions|
      ensures OnlyGrants(groups[i], actions[i]) && (kind.inStep ==> AsksInStep(groups[i], actions[i]))
    {
      assert Allowed(kind, groups[i], actions[i]);
    }
  }

  lemma CalmIsGroupRun(groups: seq<Group>, actions: seq<Action>, proposed: seq<Value>, kind: Kind, g: Group)
    requires Goes(groups, actions, proposed, kind, g) && kind.calm
    ensures IsGroupRun(groups, actions)
  {
    hide GroupShape, Ready, After, GroupInit, AsksInStep;
    forall i | 0 <= i < |actions| ensures ActionAt(groups, actions, i) {
      assert TakenAt(groups, actions, i) && Allowed(kind, groups[i], actions[i]);
    }
  }

  /** Two replicas; no recycling has happened yet. */
  function Quiet(s: State): Group {
    Group(s, [1, 2], [None, None], [[0, 0], [0, 0]], Normal, [[], []], [], map[])
  }

  lemma ArrivesAtStart()
    ensures Arrives([], Kind(true, true), Quiet(Start0()))
  {
    StartsTwo();
    assert Goes([Quiet(Start0())], [], [], Kind(true, true), Quiet(Start0()));
  }

  lemma ArriveOn(proposed: seq<Value>, kind: Kind, g: Group, ac: Action)
    requires Arrives(proposed, kind, g) && GroupShape(g) && Ready(g, ac) && Allowed(kind, g, ac)
    ensures Arrives(proposed + ActionProposes(ac), kind, After(g, ac))
  {
    hide GroupShape, Ready, After, Goes, Allowed, ActionProposes;
    var groups, actions :| Goes(groups, actions, proposed, kind, g);
    GoesOn(groups, actions, proposed, kind, g, ac);
  }

  lemma GoesOn(groups: seq<Group>, actions: seq<Action>, proposed: seq<Value>, kind: Kind, g: Group, ac: Action)
    requires Goes(groups, actions, proposed, kind, g) && GroupShape(g) && Ready(g, ac) && Allowed(kind, g, ac)
    ensures Goes(groups + [After(g, ac)], actions + [ac], proposed + ActionProposes(ac), kind, After(g, ac))
  {
    hide GroupShape, Ready, After, GroupInit, Allowed, ActionProposes, Proposals;
    var groups', actions' := groups + [After(g, ac)], actions + [ac];
    forall i | 0 <= i < |actions'| ensures TakenAt(groups', actions', i) && Allowed(kind, groups'[i], actions'[i]) {
      if i < |actions| {
        assert TakenAt(groups, actions, i) && Allowed(kind, groups[i], actions[i]);
      }
    }
    OneMoreAction(actions, ac);
  }

  lemma OneMoreAction(actions: seq<Action>, ac: Action)
    ensures Proposals(actions + [ac]) == Proposals(actions) + ActionProposes(ac)
  {
    assert (actions + [ac])[..|actions|] == actions;
  }

  // ---------------------------------------------------------------------
  // Pieces of runs of the protocol
  // ---------------------------------------------------------------------

  /** The bookkeeping of two replicas; and what may happen leaves a waiting leader be. */
  predicate ForTwo(g: Group) {
    && |g.reqNr| == |g.owes| == |g.replies| == |g.earlier| == 2 && |g.replies[0]| == |g.replies[1]| == 2
    && (g.round.Recycling? ==> g.round.a < |g.mu.terms|)
  }

  lemma TermsStay(s: State, ev: Event)
    requires Shape(s) && Enabled(s, ev)
    ensures |Next(s, ev).terms| >= |s.terms|
  {
    hide Max, LastAcked, RepShape, Ids, BusyAt, Leading;
  }

  lemma StepAllowed(kind: Kind, g: Group, ev: Event, n: nat)
    requires ForTwo(g) && Two(g.mu) && Enabled(g.mu, ev) && CallerProposes(ev) && n <= |g.mu.terms| && !Ends(ev, n)
    requires g.round.Recycling? ==> g.round.a < n && (kind.calm ==> !ev.Grant?)
    ensures GroupShape(g) && Ready(g, Step(ev)) && Allowed(kind, g, Step(ev))
    ensures After(g, Step(ev)) == g.(mu := Next(g.mu, ev)) && ForTwo(After(g, Step(ev)))
    ensures n <= |Next(g.mu, ev).terms|
  {
    hide Enabled, Next, TermShape, RepShape;
    TermsStay(g.mu, ev);
    assert g.round.Recycling? ==> TermShape(g.mu, g.round.a);
  }

  lemma {:induction false} PathArrives(proposed: seq<Value>, kind: Kind, g: Group, states: seq<State>,
      events: seq<Event>, n: nat)
    requires Arrives(proposed, kind, g) && ForTwo(g) && n <= |g.mu.terms|
    requires g.round.Recycling? ==> !kind.calm && g.round.a < n
    requires IsPath(states, events) && states[0] == g.mu && forall i :: 0 <= i < |events| ==> !Ends(events[i], n)
    ensures Arrives(proposed + Proposed(events), kind, g.(mu := states[|events|]))
    decreases |events|
  {
    hide Enabled, Next, Shape, GroupShape, Ready, After, Allowed, Arrives, ForTwo;
    if events == [] {
      assert proposed + [] == proposed;
    } else {
      var ev, rest := events[0], events[1..];
      assert StepAt(states, events, 0) && CallerProposes(ev);
      StepAllowed(kind, g, ev, n);
      ArriveOn(proposed, kind, g, Step(ev));
      RestIsPath(states, events);
      PathArrives(proposed + ProposedBy(ev), kind, g.(mu := states[1]), states[1..], rest, n);
      assert proposed + ProposedBy(ev) + Proposed(rest) == proposed + (ProposedBy(ev) + Proposed(rest));
    }
  }

  lemma RestIsPath(states: seq<State>, events: seq<Event>)
    requires IsPath(states, events) && events != []
    ensures IsPath(states[1..], events[1..])
  {
    hide Enabled, Next, Shape;
    forall i | 0 <= i < |events| - 1 ensures StepAt(states[1..], events[1..], i) && CallerProposes(events[1..][i]) {
      assert StepAt(states, events, i + 1) && CallerProposes(events[i + 1]);
    }
  }

  lemma PieceArrives(proposed: seq<Value>, kind: Kind, g: Group, more: seq<Value>, s: State)
    requires Arrives(proposed, kind, g) && ForTwo(g) && Gets(g.mu, more, s)
    requires g.round.Recycling? ==> !kind.calm
    ensures Arrives(proposed + more, kind, g.(mu := s))
  {
    hide Arrives, StepAt;
    var events :| GetsBy(g.mu, events, more, s);
    var states :| IsPath(states, events) && states[0] == g.mu && states[|events|] == s;
    PathArrives(proposed, kind, g, states, events, |g.mu.terms|);
  }

  /** A single action that proposes nothing. */
  lemma ArriveNext(proposed: seq<Value>, kind: Kind, g: Group, ac: Action, g': Group)
    requires Arrives(proposed, kind, g) && GroupShape(g) && Ready(g, ac) && Allowed(kind, g, ac) && After(g, ac) == g'
    requires ActionProposes(ac) == []
    ensures Arrives(proposed, kind, g')
  {
    hide Arrives, GroupShape, Ready, After, Allowed;
    ArriveOn(proposed, kind, g, ac);
    assert proposed + [] == proposed;
  }

  /** Outside a round any piece of a run will do. */
  lemma PathInNormal(proposed: seq<Value>, kind: Kind, g: Group, events: seq<Event>, s: State)
    requires Arrives(proposed, kind, g) && ForTwo(g) && g.round.Normal? && Leads(g.mu, events, s)
    ensures Arrives(proposed + Proposed(events), kind, g.(mu := s))
  {
    hide Arrives, StepAt;
    var states :| IsPath(states, events) && states[0] == g.mu && states[|events|] == s;
    PathArrives(proposed, kind, g, states, events, 0);
  }

  // ---------------------------------------------------------------------
  // The end of a round
  // ---------------------------------------------------------------------

  /** A round that leader 1 of term 1 has begun, in which replica 0 has started over. */
  function HalfOver(mu: State, restarted: bool, owes0: Option<Ticket>, reply: nat, earlier1: seq<Value>,
      wiped: map<nat, Replica>): Group {
    Group(mu, [1, 4], [owes0, None], [[0, 0], [reply, 0]], Recycling(1, 2, restarted, [FIRST]), [[FIRST], earlier1],
        [], wiped)
  }

  function Emptied1(mu: State): State
    requires |mu.reps| == 2
  {
    SetRep(mu, 1, Restarted(mu.reps[1]))
  }

  /** The generation after that. */
  function Closed(mu: State): Group
    requires |mu.reps| == 2
  {
    Group(NewGeneration(Emptied1(mu), 1), [1, 4], [None, None], [[0, 0], [2, 0]], Normal, [[FIRST], [FIRST]], [FIRST],
        map[])
  }

  /** The leadership that waits has all its writes acknowledged. */
  ghost predicate Waits1(mu: State) {
    && Two(mu) && Modulo(mu) == 2 && 1 < |mu.terms| && mu.terms[1].tok.pid == 1
    && |mu.terms[1].ops| > 0 && |mu.terms[1].done| == 2 && mu.terms[1].done[0] == |mu.terms[1].ops|
    && mu.reps[1].committed == [FIRST]
  }

  lemma HalfShape(g: Group)
    requires Two(g.mu) && ForTwo(g)
    ensures GroupShape(g)
  {
    assert g.round.Recycling? ==> TermShape(g.mu, g.round.a);
  }

  lemma LeaderRestarts(mu: State, old0: Replica)
    requires Waits1(mu)
    ensures var g := HalfOver(mu, false, Some(Ticket(1, 2)), 0, [], map[0 := old0]);
            && GroupShape(g) && Ready(g, RestartLeader) && Two(Emptied1(mu)) && Modulo(Emptied1(mu)) == 2
            && After(g, RestartLeader)
            == HalfOver(Emptied1(mu), true, Some(Ticket(1, 2)), 0, [FIRST], map[0 := old0, 1 := mu.reps[1]])
  {
    hide Max, TermShape;
    var g := HalfOver(mu, false, Some(Ticket(1, 2)), 0, [], map[0 := old0]);
    HalfShape(g);
    TwoShape(mu);
    assert TermShape(mu, 1);
    AckedByOther(mu, 1);
    SetRepTwo(mu, 1, Restarted(mu.reps[1]));
    SameNumbers(mu, Emptied1(mu));
    assert [] + [FIRST] == [FIRST];
  }

  lemma WaitEnds(mu: State, wiped: map<nat, Replica>)
    requires Two(mu) && Modulo(mu) == 2 && 1 < |mu.terms| && mu.terms[1].tok.pid == 1
    ensures var g, g' := HalfOver(mu, true, Some(Ticket(1, 2)), 0, [FIRST], wiped),
        HalfOver(mu, true, None, 2, [FIRST], wiped);
            && GroupShape(g) && Ready(g, Reply(0)) && After(g, Reply(0)) == g' && GroupShape(g') && Ready(g', EndWait)
            && After(g', EndWait)
            == Group(NewGeneration(mu, 1), [1, 4], [None, None], [[0, 0], [2, 0]], Normal, [[FIRST], [FIRST]], [FIRST],
                map[])
  {
    hide Max, TermShape, Modulo;
    HalfShape(HalfOver(mu, true, Some(Ticket(1, 2)), 0, [FIRST], wiped));
    HalfShape(HalfOver(mu, true, None, 2, [FIRST], wiped));
    assert [] + [FIRST] == [FIRST];
    assert [0, 0][0 := 2] == [2, 0];
  }

  /** The leader starts over, replica 0 replies, and the leader stops waiting. */
  lemma RoundCloses(proposed: seq<Value>, kind: Kind, mu: State, old0: Replica)
    requires Waits1(mu) && Arrives(proposed, kind, HalfOver(mu, false, Some(Ticket(1, 2)), 0, [], map[0 := old0]))
    ensures Arrives(proposed, kind, Closed(mu))
  {
    hide Arrives, GroupShape, Ready, After, HalfOver, Waits1, NewGeneration;
    LeaderRestarts(mu, old0);
    Emptied1Term(mu);
    var wiped := map[0 := old0, 1 := mu.reps[1]];
    WaitEnds(Emptied1(mu), wiped);
    var g1 := HalfOver(Emptied1(mu), true, Some(Ticket(1, 2)), 0, [FIRST], wiped);
    var g2 := HalfOver(Emptied1(mu), true, None, 2, [FIRST], wiped);
    ArriveNext(proposed, kind, HalfOver(mu, false, Some(Ticket(1, 2)), 0, [], map[0 := old0]), RestartLeader, g1);
    ArriveNext(proposed, kind, g1, Reply(0), g2);
    ArriveNext(proposed, kind, g2, EndWait, Closed(mu));
  }

  lemma Emptied1Term(mu: State)
    requires Waits1(mu)
    ensures |mu.reps| == 2 && 1 < |Emptied1(mu).terms| && Emptied1(mu).terms[1].tok.pid == 1
  {}
}
