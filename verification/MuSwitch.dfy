// Mu: a switch inside a round.

module MuSwitch {
  // What a leadership switch does between a recycling request and its last reply: a run
  // in which a value that is proposed once is handed to the commit handler twice, and in
  // which two replicas hand over different values at the same position.

  import opened Options
  import opened Quorums
  import opened MuModel
  import opened MuTwoReplicas
  import opened MuTwoRuns
  import opened MuRecycling
  import opened MuGenerations
  import opened MuGroupRuns
  import opened MuLostCommit

  const AGAIN: Entry := Entry(3, FIRST, 0, 2)
  const LAST: Entry := Entry(4, SECOND, 0, 3)

  // ---------------------------------------------------------------------
  // Replica 0 leads, while replica 1 waits for its reply
  // ---------------------------------------------------------------------

  /** Replica 0 has started over; its fast path is over, too. */
  function Slow0(): State {
    OverState().(terms := [Term0().(phase := Idle), Asking1()])
  }

  /** Replica 0 when it has decided slot 0 once more. */
  function Again0(committed: seq<Value>): Replica {
    Replica(3, map[0 := AGAIN], 1, 1, 1, committed, Some(Token(0, 5)), [5, 2], 9, [0, 7], 3)
  }

  function Again1(): Replica {
    Replica(3, map[0 := AGAIN, 1 := ASKED], 1, 1, 1, [FIRST], Some(Token(0, 5)), [5, 2], 6, [4, 0], 2)
  }

  function DecidedAgain(committed: seq<Value>): State {
    State([1, 2], [Again0(committed), Again1()],
          [Term0().(phase := Idle), Asking1(), Term(Token(0, 5), Idle, [SetProp(3), Put(0, AGAIN)], [2, 2], {0, 1})])
  }

  lemma GetsSlow0()
    ensures Two(Slow0()) && Gets(OverState(), [], Slow0())
  {
    hide Gets, Max, Ids;
    TwoIs(OverState());
    TwoIs(Slow0());
    assert Next(OverState(), BackToSlow(0)).terms == Slow0().terms;
    GetsOne(OverState(), BackToSlow(0), Slow0());
  }

  /** It adopts what it finds in the old log of replica 1. */
  lemma CanServe0()
    ensures CanElect(Slow0(), 0) && CanServe(Slow0(), 0, true, AGAIN, Some(BY_1))
  {
    hide Max, Ids, RepShape, TermShape, Modulo, Two;
    TwoIs(Slow0());
    assert CanElect(Slow0(), 0);
    assert NumberOf(Slow0(), 0) == 3 && Found(Slow0(), 0, true)[1] == Some(BY_1);
  }

  lemma AgainIs()
    requires CanElect(Slow0(), 0)
    ensures var s' := Served(Slow0(), 0, AGAIN, Idle); |s'.reps| == 2 && s'.reps[0] == Again0([])
  {
    hide Multiple, Issued;
    TwoIs(Slow0());
    ServedIs(Slow0(), 0, AGAIN, Idle);
    assert NumberOf(Slow0(), 0) == 3 && Modulo(Slow0()) == 2;
    assert Slow0().reps[0] == Replica(2, map[], 0, 0, 0, [], Some(Token(1, 2)), [1, 2], 5, [0, 3], 1);
    hide Max, Served, CanElect, NumberOf, Modulo, Slow0;
    var rep := Served(Slow0(), 0, AGAIN, Idle).reps[0];
    assert rep.granted == [5, 2] && rep.approvals == [0, 7] && rep.log == map[0 := AGAIN];
  }

  lemma DecidedAgainIs()
    requires CanElect(Slow0(), 0)
    ensures Served(Slow0(), 0, AGAIN, Idle) == DecidedAgain([])
  {
    AgainIs();
    ServedIs(Slow0(), 0, AGAIN, Idle);
    assert NumberOf(Slow0(), 0) == 3 by { TwoIs(Slow0()); }
    hide Max, Served, CanElect, NumberOf, Modulo, Elected;
    var s' := Served(Slow0(), 0, AGAIN, Idle);
    assert s'.reps[1].granted == [5, 2] && s'.reps[1].log == map[0 := AGAIN, 1 := ASKED];
    assert s'.reps == DecidedAgain([]).reps;
    assert s'.terms == DecidedAgain([]).terms;
  }

  lemma GetsDecidedAgain()
    ensures Two(DecidedAgain([FIRST])) && Gets(OverState(), [], DecidedAgain([FIRST]))
  {
    hide Gets, Max, Served, CanServe, CanElect, Ids;
    GetsSlow0();
    CanServe0();
    Serves(Slow0(), 0, true, AGAIN, Some(BY_1));
    DecidedAgainIs();
    var none: seq<Value> := [];
    assert none + none == none;
    GetsOn(OverState(), [], Slow0(), [], DecidedAgain([]));
    var s, s' := DecidedAgain([]), DecidedAgain([FIRST]);
    assert [] + [FIRST] == [FIRST];
    assert SetRep(s, 0, OneMoreCommitted(s.reps[0])).reps == s'.reps;
    Commits(s, 0, s');
    GetsOn(OverState(), [], s, [], s');
  }

  // ---------------------------------------------------------------------
  // Replica 1 leads, after the round
  // ---------------------------------------------------------------------

  /** The round is over: replica 1 has an empty log, replica 0 has not. */
  function AfterRound(): State {
    State([1, 2], [Again0([FIRST]), Restarted(Again1())],
          [Cleared(Term0(), Idle), Cleared(Asking1(), Idle), Term(Token(0, 5), Idle, [], [0, 0], {})])
  }

  function DecidedLast(committed: seq<Value>): State {
    State([1, 2],
          [Replica(4, map[0 := LAST], 1, 1, 1, [FIRST], Some(Token(1, 6)), [5, 6], 9, [0, 7], 3),
           Replica(4, map[0 := LAST], 1, 1, 1, committed, Some(Token(1, 6)), [5, 6], 10, [8, 0], 4)],
          AfterRound().terms + [Term(Token(1, 6), Fast({1}, 0), [SetProp(4), Put(0, LAST)], [2, 2], {0, 1})])
  }

  lemma AgainWaits()
    ensures |DecidedAgain([FIRST]).reps| == 2 && Waits1(DecidedAgain([FIRST]))
  {
    hide Max, Ids;
    TwoIs(DecidedAgain([FIRST]));
  }

  lemma AfterRoundIs()
    requires |DecidedAgain([FIRST]).reps| == 2
    ensures Closed(DecidedAgain([FIRST])).mu == AfterRound()
  {
    var s := Closed(DecidedAgain([FIRST])).mu;
    assert s.reps == AfterRound().reps;
    assert s.terms[0].done == [0, 0] && s.terms[1].done == [0, 0] && s.terms[2].done == [0, 0];
    assert s.terms == AfterRound().terms;
  }

  /** With two replicas no remote slot need be read. */
  lemma CanServeLast()
    ensures CanElect(AfterRound(), 1) && CanServe(AfterRound(), 1, false, LAST, None)
  {
    hide Max, Ids, RepShape, TermShape;
    TwoIs(AfterRound());
    assert CanElect(AfterRound(), 1);
  }

  lemma DecidedLastIs()
    requires CanElect(AfterRound(), 1)
    ensures Served(AfterRound(), 1, LAST, Fast({1}, 0)) == DecidedLast([])
  {
    TwoIs(AfterRound());
    ServedIs(AfterRound(), 1, LAST, Fast({1}, 0));
    hide Max, Served, CanElect;
    var s' := Served(AfterRound(), 1, LAST, Fast({1}, 0));
    assert s'.reps[0].granted == [5, 6] && s'.reps[1].granted == [5, 6] && s'.reps[1].approvals == [8, 0];
    assert s'.reps[0].log == map[0 := LAST] && s'.reps[1].log == map[0 := LAST];
    assert s'.reps == DecidedLast([]).reps;
    assert s'.terms == DecidedLast([]).terms;
  }

  lemma GetsDecidedLast()
    ensures Two(DecidedLast([SECOND])) && Gets(AfterRound(), [SECOND], DecidedLast([SECOND]))
  {
    hide Gets, Max, Served, CanServe, CanElect, Ids;
    CanServeLast();
    Serves(AfterRound(), 1, false, LAST, None);
    DecidedLastIs();
    var s, s' := DecidedLast([]), DecidedLast([SECOND]);
    assert [] + [SECOND] == [SECOND];
    assert SetRep(s, 1, OneMoreCommitted(s.reps[1])).reps == s'.reps;
    Commits(s, 1, s');
    GetsOn(AfterRound(), [SECOND], s, [], s');
    assert [SECOND] + [] == [SECOND];
  }

  // ---------------------------------------------------------------------
  // The run
  // ---------------------------------------------------------------------

  lemma EndsSo()
    requires |DecidedAgain([FIRST]).reps| == 2
    ensures ForTwo(Closed(DecidedAgain([FIRST]))) && Closed(DecidedAgain([FIRST])).round.Normal?
    ensures var g := Closed(DecidedAgain([FIRST])).(mu := DecidedLast([SECOND]));
            GroupShape(g) && N(g.mu) == 2 && Handed(g, 0) == [FIRST, FIRST] && Handed(g, 1) == [FIRST, SECOND]
  {
    hide NewGeneration, Max, Ids;
    TwoIs(DecidedLast([SECOND]));
    HalfShape(Closed(DecidedAgain([FIRST])).(mu := DecidedLast([SECOND])));
  }

  lemma ArrivesAtAgain()
    ensures Arrives([FIRST], Kind(false, true),
        HalfOver(DecidedAgain([FIRST]), false, Some(Ticket(1, 2)), 0, [], map[0 := Asked0(2)]))
  {
    hide Arrives, Gets, DecidedAgain, OverState;
    var kind := Kind(false, true);
    ArrivesAtOver();
    Relaxed([FIRST], Kind(true, true), kind, Over());
    GetsDecidedAgain();
    OverForTwo();
    PieceArrives([FIRST], kind, Over(), [], DecidedAgain([FIRST]));
    assert [FIRST] + [] == [FIRST];
  }

  lemma OverForTwo()
    ensures ForTwo(Over()) && Over().mu == OverState()
  {}

  /** TWICE, AND APART.  Callers propose two values, each once, and nothing but the
      times at which permission changes hands is out of order.  Replica 0 commits the
      first value and starts its log over as the leader, replica 1, asks.  Then it
      becomes leader itself, finds the value in replica 1's old log, adopts it for its
      new slot 0, and commits it again.  When the round is over replica 1 leads, with
      an empty log, and commits the other value. */
  lemma SwitchBreaks() returns (groups: seq<Group>, actions: seq<Action>)
    ensures IsLooseRun(groups, actions) && AllAskInStep(groups, actions)
    ensures forall i :: 0 <= i < |actions| ==> OnlyGrants(groups[i], actions[i])
    ensures Proposals(actions) == [FIRST, SECOND]
    ensures var g := groups[|actions|];
            GroupShape(g) && N(g.mu) == 2 && Handed(g, 0) == [FIRST, FIRST] && Handed(g, 1) == [FIRST, SECOND]
  {
    hide Arrives, Gets, GroupShape, IsLooseRun, AllAskInStep, OnlyGrants, Proposals, Closed, Waits1, DecidedAgain,
        DecidedLast;
    AgainWaits();
    var kind, s, g := Kind(false, true), DecidedAgain([FIRST]), Closed(DecidedAgain([FIRST]));
    ArrivesAtAgain();
    RoundCloses([FIRST], kind, s, Asked0(2));
    AfterRoundIs();
    GetsDecidedLast();
    EndsSo();
    PieceArrives([FIRST], kind, g, [SECOND], DecidedLast([SECOND]));
    groups, actions := Witness([FIRST] + [SECOND], kind, g.(mu := DecidedLast([SECOND])));
  }
}
