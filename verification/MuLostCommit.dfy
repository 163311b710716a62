// Recycling with two replicas: a round that goes as it should, and one in which the
// leader starts its log over without having committed the last slot below its own request.

module MuLostCommit {
  import opened Options
  import opened Quorums
  import opened MuModel
  import opened MuTwoReplicas
  import opened MuTwoRuns
  import opened MuPositions
  import opened MuRecycling
  import opened MuGenerations
  import opened MuGroupRuns

  const ASKED: Entry := Entry(2, Recycle(1, 2, 1), 1, 1)

  /** Replica 1's leadership, which has posted its request. */
  function Asking1(): Term {
    Term(Token(1, 2), Write(Fast({0, 1}, 1)), [SetProp(2), Put(0, BY_1), SetProp(2), Put(1, ASKED)], [4, 4], {0, 1})
  }

  /** Replica 0 when it has the request, and has looked up to slot `seen`. */
  function Asked0(seen: nat): Replica {
    Replica(2, map[0 := BY_1, 1 := ASKED], 1, seen, 1, [FIRST], Some(Token(1, 2)), [1, 2], 5, [0, 3], 1)
  }

  function Asked1(looked: bool): Replica {
    Replica(2, map[0 := BY_1, 1 := ASKED], 1, 1, 1 - Seen1(looked), Committed1(looked), Some(Token(1, 2)), [1, 2], 6,
        [4, 0], 2)
  }

  /** Both replicas have the request of replica 1. */
  function Asked(looked: bool): Group {
    Quiet(State([1, 2], [Asked0(1), Asked1(looked)], [Term0(), Asking1()]))
    .(reqNr := [1, 4], round := Recycling(1, 2, false, [FIRST]))
  }

  lemma CanAsk(looked: bool)
    requires Two(Reads1Again(looked))
    ensures Enabled(Reads1Again(looked), PostNew(1, Recycle(1, 2, 1)))
    ensures PostedOp(Reads1Again(looked), PostNew(1, Recycle(1, 2, 1))) == Put(1, ASKED)
    ensures PostedPhase(Reads1Again(looked), PostNew(1, Recycle(1, 2, 1))) == Write(Fast({0, 1}, 1))
  {
    hide Max, RepShape, Ids, TermShape;
    ReadsAgainAre(looked);
    hide Clear, SlotsRead, Shape;
    assert Reads1Again(looked).terms[1].phase.slots.Keys + {1} == {0, 1};
  }

  lemma AskedIs(looked: bool)
    requires Two(Reads1Again(looked)) && IsTerm(Reads1Again(looked), 1)
    ensures Sent(Reads1Again(looked), 1, Put(1, ASKED), Write(Fast({0, 1}, 1))) == Asked(looked).mu
  {
    hide Max, RepShape, Ids;
    var s' := Sent(Reads1Again(looked), 1, Put(1, ASKED), Write(Fast({0, 1}, 1)));
    assert s'.reps[0].log == map[0 := BY_1, 1 := ASKED] && s'.reps[1].log == map[0 := BY_1, 1 := ASKED];
    assert s'.reps == Asked(looked).mu.reps;
    assert s'.terms[1].ops == Asked(looked).mu.terms[1].ops && s'.terms[1].touched == {0, 1};
    assert s'.terms == Asked(looked).mu.terms;
  }

  /** It asks, lagging if it had looked at the slot before. */
  lemma Asks(looked: bool)
    requires Two(Reads1Again(looked))
    ensures GroupShape(Quiet(Reads1Again(looked))) && Ready(Quiet(Reads1Again(looked)), PostRequest(1))
    ensures IsTerm(Reads1Again(looked), 1) && (Lags(Leader(Reads1Again(looked), 1)) <==> looked)
    ensures var g := After(Quiet(Reads1Again(looked)), PostRequest(1));
            GroupShape(g) && Ready(g, Step(Deliver(1, 0))) && After(g, Step(Deliver(1, 0))) == Asked(looked)
  {
    hide Max, RepShape, Ids, TermShape, Enabled, PostedOp, PostedPhase, Sent, Post, LastAcked, RequestSeen;
    ReadsAgainAre(looked);
    AsksNow(looked);
  }

  /** The request it posts, and its arrival. */
  lemma AsksNow(looked: bool)
    requires Two(Reads1Again(looked)) && Clear(Reads1Again(looked), 1) && SlotsRead(Reads1Again(looked), 1)
    requires GroupShape(Quiet(Reads1Again(looked))) && Ready(Quiet(Reads1Again(looked)), PostRequest(1))
    ensures var g := After(Quiet(Reads1Again(looked)), PostRequest(1));
            GroupShape(g) && Ready(g, Step(Deliver(1, 0))) && After(g, Step(Deliver(1, 0))) == Asked(looked)
  {
    hide Max, RepShape, Ids, TermShape, Enabled, PostedOp, PostedPhase, Sent, Post, LastAcked, RequestSeen;
    hide Clear, SlotsRead, NothingRead;
    var s, op, phase := Reads1Again(looked), Put(1, ASKED), Write(Fast({0, 1}, 1));
    CanAsk(looked);
    PostTwo(s, 1, op, phase);
    AskedIs(looked);
    AskedShape(s, op, phase);
    PostedGroup(looked);
    hide Shape;
  }

  lemma PostedGroup(looked: bool)
    requires Two(Reads1Again(looked)) && Clear(Reads1Again(looked), 1) && SlotsRead(Reads1Again(looked), 1)
    requires GroupShape(Quiet(Reads1Again(looked))) && Ready(Quiet(Reads1Again(looked)), PostRequest(1))
    ensures After(Quiet(Reads1Again(looked)), PostRequest(1))
         == Asked(looked).(mu := Post(Reads1Again(looked), 1, Put(1, ASKED), Write(Fast({0, 1}, 1))))
  {
    hide Max, RepShape, Ids, TermShape, Enabled, PostedOp, PostedPhase, Sent, Post, LastAcked, RequestSeen;
    hide Clear, SlotsRead, NothingRead;
    CanAsk(looked);
    TwoIs(Reads1Again(looked));
    hide Shape;
    assert ValuesBelow(Reads1Again(looked).reps[1].log, 1) == [FIRST];
    assert After(Quiet(Reads1Again(looked)), PostRequest(1)).reqNr == [1, 4];
  }

  lemma AskedShape(s: State, op: Op, phase: Phase)
    requires Clear(s, 1)
    ensures Two(Post(s, 1, op, phase)) && IsTerm(Post(s, 1, op, phase), 1)
  {
    PostedTwo(s, 1, op, phase);
  }

  lemma ArrivesAtAsked(looked: bool)
    ensures Arrives([FIRST], Kind(true, !looked), Asked(looked))
  {
    hide Arrives, Gets, GroupShape, Ready, After, Reads1Again, Asked, Lags;
    var kind := Kind(true, !looked);
    ArrivesAtStart();
    Relaxed([], Kind(true, true), kind, Quiet(Start0()));
    GetsReads1Again(looked);
    PieceArrives([], kind, Quiet(Start0()), [FIRST], Reads1Again(looked));
    assert [] + [FIRST] == [FIRST];
    Asks(looked);
    var g := Quiet(Reads1Again(looked));
    ArriveNext([FIRST], kind, g, PostRequest(1), After(g, PostRequest(1)));
    ArriveNext([FIRST], kind, After(g, PostRequest(1)), Step(Deliver(1, 0)), Asked(looked));
  }

  /** A kind that allows more. */
  lemma Relaxed(proposed: seq<Value>, kind: Kind, kind': Kind, g: Group)
    requires Arrives(proposed, kind, g) && (kind'.calm ==> kind.calm) && (kind'.inStep ==> kind.inStep)
    ensures Arrives(proposed, kind', g)
  {
    hide GroupShape, Ready, After, GroupInit, AsksInStep, Undisturbed, TakenAt;
    var groups, actions :| Goes(groups, actions, proposed, kind, g);
    forall i | 0 <= i < |actions| ensures Allowed(kind', groups[i], actions[i]) {
      assert Allowed(kind, groups[i], actions[i]);
    }
    assert Goes(groups, actions, proposed, kind', g);
  }

  // ---------------------------------------------------------------------
  // The lost commit
  // ---------------------------------------------------------------------

  lemma Restarts()
    ensures GroupShape(Asked(true)) && Ready(Asked(true), RestartLeader)
    ensures var g := After(Asked(true), RestartLeader);
            && GroupShape(g) && g.round.Recycling? && g.round.values == [FIRST] && Requestor(g) == 1
            && Handed(g, 0) == [FIRST] && Handed(g, 1) == [] && g.mu.reps[1].log == map[]
  {
    hide Max, Ids, LastAcked, Modulo;
    TwoIs(Asked(true).mu);
    assert TermShape(Asked(true).mu, 1);
    AckedByOther(Asked(true).mu, 1);
    var g := After(Asked(true), RestartLeader);
    TwoIs(g.mu);
    assert TermShape(g.mu, 1);
  }

  /** THE LOST COMMIT.  A run, undisturbed, in which the leader starts its log over
      without having committed slot 0, which is below the offset its request carries;
      replica 0 has committed it, and there is no log left to commit it from. */
  lemma LeaderLosesACommit() returns (groups: seq<Group>, actions: seq<Action>)
    ensures IsGroupRun(groups, actions)
    ensures var g := groups[|actions|];
            && GroupShape(g) && g.round.Recycling? && g.round.values == [FIRST] && Requestor(g) == 1
            && Handed(g, 0) == [FIRST] && Handed(g, 1) == [] && g.mu.reps[1].log == map[]
  {
    hide GroupShape, Ready, After, Arrives, IsLooseRun;
    ArrivesAtAsked(true);
    Restarts();
    var g, kind := Asked(true), Kind(true, false);
    ArriveNext([FIRST], kind, g, RestartLeader, After(g, RestartLeader));
    groups, actions := Witness([FIRST], kind, After(g, RestartLeader));
  }

  // ---------------------------------------------------------------------
  // A round that goes as it should
  // ---------------------------------------------------------------------

  function Looked(): Group {
    Quiet(State([1, 2], [Asked0(2), Asked1(false)], [Term0(), Asking1()]))
    .(reqNr := [1, 4], round := Recycling(1, 2, false, [FIRST]))
  }

  /** Replica 0 has started over. */
  function OverState(): State {
    State([1, 2], [Restarted(Asked0(2)), Asked1(false)], [Term0(), Asking1()])
  }

  function Over(): Group {
    HalfOver(OverState(), false, Some(Ticket(1, 2)), 0, [], map[0 := Asked0(2)])
  }

  lemma LooksAtRequest()
    ensures GroupShape(Asked(false)) && Ready(Asked(false), Step(Sample(0)))
        && After(Asked(false), Step(Sample(0))) == Looked()
  {
    hide Max, Ids, LastAcked, TermShape, RepShape;
    RequestThere();
    assert Next(Asked(false).mu, Sample(0)).reps == Looked().mu.reps;
  }

  lemma RequestThere()
    ensures GroupShape(Asked(false)) && Enabled(Asked(false).mu, Sample(0))
  {
    hide Max, Ids, LastAcked;
    TwoIs(Asked(false).mu);
    assert TermShape(Asked(false).mu, 1);
  }

  lemma LookedShape()
    ensures GroupShape(Looked()) && Shape(Looked().mu) && RepShape(Looked().mu, 0)
  {
    hide Max, Ids, Modulo;
    TwoIs(Looked().mu);
    assert TermShape(Looked().mu, 1);
  }

  lemma StartsOver()
    ensures GroupShape(Looked()) && Ready(Looked(), RestartFollower(0)) && After(Looked(), RestartFollower(0)) == Over()
  {
    hide Max, Ids, Modulo, Shape, RepShape, TermShape;
    LookedShape();
    var s := Looked().mu;
    assert !BusyAt(s, 0) && !Leading(s, 0);
    hide BusyAt, Leading;
    assert s.reps[0].log[1] == ASKED;
    assert [] + [FIRST] == [FIRST];
    assert SetRep(s, 0, Restarted(s.reps[0])).reps == Over().mu.reps;
  }

  lemma ArrivesAtOver()
    ensures Arrives([FIRST], Kind(true, true), Over())
  {
    hide Arrives, GroupShape, Ready, After, Asked, Looked, Over;
    ArrivesAtAsked(false);
    LooksAtRequest();
    StartsOver();
    ArriveNext([FIRST], Kind(true, true), Asked(false), Step(Sample(0)), Looked());
    ArriveNext([FIRST], Kind(true, true), Looked(), RestartFollower(0), Over());
  }

  // ---------------------------------------------------------------------
  // The second generation
  // ---------------------------------------------------------------------

  const NEXT: Entry := Entry(2, SECOND, 0, 1)

  function Cleared(t: Term, phase: Phase): Term {
    Term(t.tok, phase, [], [0, 0], {})
  }

  /** All logs are empty, and the leader may go on. */
  function Generation2(): State {
    State([1, 2], [Restarted(Asked0(2)), Restarted(Asked1(false))],
        [Cleared(Term0(), Term0().phase), Cleared(Asking1(), Idle)])
  }

  function Reads2(): State {
    Generation2().(terms := [Cleared(Term0(), Term0().phase),
                             Term(Token(1, 2), ReadSlot(map[0 := None]), [SetProp(2)], [1, 1], {0, 1})])
  }

  /** Replica 1 has a value of the new generation decided. */
  function Decided2(committed: seq<Value>): State {
    State([1, 2],
          [Restarted(Asked0(2)).(log := map[0 := NEXT]),
           Restarted(Asked1(false)).(log := map[0 := NEXT], fuo := 1, seen := 1, target := 1, committed := committed)],
          [Cleared(Term0(), Term0().phase),
           Term(Token(1, 2), Fast({0, 1}, 0), [SetProp(2), Put(0, NEXT)], [2, 2], {0, 1})])
  }

  lemma OverWaits()
    ensures Waits1(OverState())
  {
    hide Max, Ids;
    TwoIs(OverState());
  }

  lemma ClosedIs()
    requires |OverState().reps| == 2
    ensures Closed(OverState()).mu == Generation2()
  {
    var s := Closed(OverState()).mu;
    assert s.reps == Generation2().reps;
    assert s.terms[0].done == [0, 0] && s.terms[1].done == [0, 0];
    assert s.terms == Generation2().terms;
  }

  lemma ReadsIn2()
    ensures Two(Generation2()) && CanPropose(Generation2(), 1) && SlotRead(Generation2(), 1, true) == Reads2()
  {
    hide Max, RepShape, Ids, SlotRead;
    var s := Generation2();
    TwoIs(s);
    assert TermShape(s, 1);
    assert CanPropose(s, 1);
    SlotReadIs(s, 1, true);
    assert SlotRead(s, 1, true).reps == s.reps;
  }

  lemma WritesIn2()
    requires Two(Reads2())
    ensures Clear(Reads2(), 1) && Enabled(Reads2(), PostNew(1, SECOND))
    ensures PostedOp(Reads2(), PostNew(1, SECOND)) == Put(0, NEXT)
        && PostedPhase(Reads2(), PostNew(1, SECOND)) == Write(Fast({0, 1}, 0))
  {
    hide Max, RepShape, Ids, TermShape;
    assert TermShape(Reads2(), 1);
    assert Clear(Reads2(), 1) && SlotsRead(Reads2(), 1);
    hide Clear, SlotsRead, Shape;
    assert Reads2().terms[1].phase.slots.Keys + {1} == {0, 1};
  }

  lemma DecidedIs2()
    requires Two(Reads2()) && IsTerm(Reads2(), 1)
    requires var s1 := Sent(Reads2(), 1, Put(0, NEXT), Write(Fast({0, 1}, 0))); Two(s1) && Enabled(s1, Decide(1))
    ensures Next(Sent(Reads2(), 1, Put(0, NEXT), Write(Fast({0, 1}, 0))), Decide(1)) == Decided2([])
  {
    hide Max, LastAcked, RepShape;
    var s1 := Sent(Reads2(), 1, Put(0, NEXT), Write(Fast({0, 1}, 0)));
    assert s1.reps[0].log == map[0 := NEXT] && s1.reps[1].log == map[0 := NEXT];
    assert s1.terms[1].ops == [SetProp(2), Put(0, NEXT)] && s1.terms[1].touched == {0, 1};
    assert Next(s1, Decide(1)).reps == Decided2([]).reps;
    assert Next(s1, Decide(1)).terms == Decided2([]).terms;
  }

  lemma DecidesIn2()
    ensures exists events :: Leads(Generation2(), events, Decided2([SECOND])) && Proposed(events) == [SECOND]
  {
    hide Leads, Two, CanPropose, Generation2, Reads2, Decided2, CatchUpEvents, AnnounceEvents, Proposed;
    var slow, call := CatchUpEvents(1, 0) + AnnounceEvents(1, 0, true), [PostNew(1, SECOND)] + [Deliver(1, 0)]
        + [Decide(1)];
    ReadsIn2();
    LeadsToReads2();
    CallLeads2();
    LeadsOn(Generation2(), slow, Reads2(), call, Decided2([]));
    CommitsIn2();
    LeadsOn(Generation2(), slow + call, Decided2([]), [CommitOne(1)], Decided2([SECOND]));
    SlowIsCalm();
    CallProposes(slow, PostNew(1, SECOND), [Deliver(1, 0)] + [Decide(1)] + [CommitOne(1)]);
    assert slow + call + [CommitOne(1)] == slow
        + ([PostNew(1, SECOND)] + ([Deliver(1, 0)] + [Decide(1)] + [CommitOne(1)]));
  }

  lemma SlowIsCalm()
    ensures Calm(CatchUpEvents(1, 0) + AnnounceEvents(1, 0, true))
  {}

  lemma LeadsToReads2()
    requires CanPropose(Generation2(), 1) && SlotRead(Generation2(), 1, true) == Reads2()
    ensures Two(Reads2()) && Leads(Generation2(), CatchUpEvents(1, 0) + AnnounceEvents(1, 0, true), Reads2())
  {
    hide Leads, SlotRead, CanPropose, CatchUpEvents, AnnounceEvents;
    ReadsSlot(Generation2(), 1, true);
    assert Pid(Generation2(), 1) == 1;
  }

  lemma CallLeads2()
    requires Two(Reads2())
    ensures Leads(Reads2(), [PostNew(1, SECOND)] + [Deliver(1, 0)] + [Decide(1)], Decided2([]))
  {
    hide Leads, Sent, Next, Enabled, Clear, PostedOp, PostedPhase, Decided2, TermShape, RepShape, Shape;
    Pid2();
    WritesIn2();
    Decides(Reads2(), 1, PostNew(1, SECOND), Put(0, NEXT), Fast({0, 1}, 0));
    DecidedIs2();
  }

  lemma Pid2()
    requires Two(Reads2())
    ensures IsTerm(Reads2(), 1) && Pid(Reads2(), 1) == 1
  {}

  lemma CallProposes(before: seq<Event>, ev: Event, more: seq<Event>)
    requires forall i :: 0 <= i < |before| ==> ProposedBy(before[i]) == []
    requires forall i :: 0 <= i < |more| ==> ProposedBy(more[i]) == []
    ensures Proposed(before + ([ev] + more)) == ProposedBy(ev)
  {
    NothingProposed(before);
    ProposedTogether(before, [ev] + more);
    OneProposed(ev, more);
  }

  lemma CommitsIn2()
    ensures Leads(Decided2([]), [CommitOne(1)], Decided2([SECOND]))
  {
    hide Leads, Max, Ids;
    var s := Decided2([]);
    TwoIs(s);
    assert [] + [SECOND] == [SECOND];
    assert Next(s, CommitOne(1)).reps == Decided2([SECOND]).reps;
    LeadsOne(s, CommitOne(1), Decided2([SECOND]));
  }

  lemma EndIs()
    requires |OverState().reps| == 2
    ensures ForTwo(Closed(OverState())) && Closed(OverState()).round.Normal?
    ensures var g := Closed(OverState()).(mu := Decided2([SECOND]));
            GroupShape(g) && N(g.mu) == 2 && g.past == [FIRST] && Handed(g, 0) == [FIRST]
                && Handed(g, 1) == [FIRST, SECOND]
  {
    hide NewGeneration, Max, Ids;
    TwoIs(Decided2([SECOND]));
    HalfShape(Closed(OverState()).(mu := Decided2([SECOND])));
  }

  /** A ROUND THAT ENDS.  An undisturbed run into the second generation: what was
      decided in the first is past, everybody has handed it over, and the leader has
      handed over a value of the second as well. */
  lemma SecondGeneration() returns (groups: seq<Group>, actions: seq<Action>)
    ensures IsGroupRun(groups, actions) && AllAskInStep(groups, actions)
    ensures var g := groups[|actions|];
            GroupShape(g) && N(g.mu) == 2 && g.past == [FIRST] && Handed(g, 0) == [FIRST]
                && Handed(g, 1) == [FIRST, SECOND]
  {
    hide Arrives, GroupShape, Ready, After, Leads, IsLooseRun, Over, Generation2, Decided2, Closed, Waits1,
        AllAskInStep;
    var kind, g := Kind(true, true), Closed(OverState());
    ArrivesAtOver();
    OverWaits();
    OverIs();
    RoundCloses([FIRST], kind, OverState(), Asked0(2));
    ClosedIs();
    DecidesIn2();
    EndIs();
    var events :| Leads(Generation2(), events, Decided2([SECOND])) && Proposed(events) == [SECOND];
    PathInNormal([FIRST], kind, g, events, Decided2([SECOND]));
    groups, actions := Witness([FIRST] + [SECOND], kind, g.(mu := Decided2([SECOND])));
  }

  lemma OverIs()
    ensures Over() == HalfOver(OverState(), false, Some(Ticket(1, 2)), 0, [], map[0 := Asked0(2)])
  {}
}
