// Mu: leading with leftover flags.

module MuLeftover {
  // Leading again without a call of `propose` in between.  A replica whose last call
  // succeeded on the fast path keeps its flags (fast_path set, became_leader not);
  // only a call that is rejected or fails resets them.  If such a replica loses the
  // lead and regains it before anybody calls propose there, its next call goes
  // straight to the fast path, under an old proposal and from an old offset.

  import opened Options
  import opened Quorums
  import opened MuModel
  import opened MuAgreement
  import opened MuTwoReplicas
  import opened MuTwoRuns

  /** A step of the protocol, or a leadership of p that begins with the flags that its
      leadership a has left. */
  datatype Move = Plain(ev: Event) | Resume(p: nat, a: nat)

  predicate Possible(s: State, move: Move)
    requires Shape(s)
  {
    match move
    case Plain(ev) => Enabled(s, ev) && CallerProposes(ev)
    case Resume(p, a) => MayLead(s, p) && a < |s.terms| && s.terms[a].tok.pid == p && s.terms[a].phase.Fast?
  }

  /** The new leadership goes on where the old one stood. */
  function Resumed(s: State, p: nat, a: nat): State
    requires Shape(s) && Possible(s, Resume(p, a))
  {
    var tok := Token(p, s.reps[p].reqNr - 2 * Modulo(s));
    var t := s.terms[a];
    s.(terms := s.terms[a := t.(phase := Idle)] + [Term(tok, t.phase, [], seq(N(s), _ => 0), {})])
  }

  function Moved(s: State, move: Move): State
    requires Shape(s) && Possible(s, move)
  {
    match move
    case Plain(ev) => Next(s, ev)
    case Resume(p, a) => Resumed(s, p, a)
  }

  predicate MoveAt(states: seq<State>, moves: seq<Move>, i: nat)
    requires i < |moves| && i + 1 < |states|
  {
    Shape(states[i]) && Possible(states[i], moves[i]) && states[i + 1] == Moved(states[i], moves[i])
  }

  predicate IsFlagRun(states: seq<State>, moves: seq<Move>) {
    && |states| == |moves| + 1
    && Init(states[0])
    && forall i :: 0 <= i < |moves| ==> MoveAt(states, moves, i)
  }

  // ---------------------------------------------------------------------
  // Safe with a rejected or failed call in between
  // ---------------------------------------------------------------------

  /** p begins to lead. */
  predicate Begins(move: Move, p: nat) {
    (move.Plain? && move.ev == Start(p)) || (move.Resume? && move.p == p)
  }

  /** Whenever a replica begins to lead, a call of propose there has been rejected or
      has failed since its last success on the fast path, if there was one. */
  ghost predicate FlagsReset(states: seq<State>, moves: seq<Move>)
    requires |states| == |moves| + 1
  {
    forall i, p :: 0 <= i < |moves| && Begins(moves[i], p) ==> !FastLeft(states[i], p)
  }

  function EventOf(move: Move): Event {
    if move.Plain? then move.ev else Start(move.p)
  }

  lemma ResetIsRun(states: seq<State>, moves: seq<Move>) returns (events: seq<Event>)
    requires IsFlagRun(states, moves) && FlagsReset(states, moves)
    ensures IsRun(states, events)
  {
    hide Shape, Next, Init, Resumed;
    events := seq(|moves|, i requires 0 <= i < |moves| => EventOf(moves[i]));
    forall i | 0 <= i < |events| ensures StepAt(states, events, i) {
      assert MoveAt(states, moves, i);
      NotResumed(states, moves, i);
    }
  }

  lemma NotResumed(states: seq<State>, moves: seq<Move>, i: nat)
    requires IsFlagRun(states, moves) && FlagsReset(states, moves) && i < |moves|
    ensures moves[i].Plain?
  {
    hide Shape, Next, Init, Resumed;
    assert MoveAt(states, moves, i);
    var p := if moves[i].Resume? then moves[i].p else 0;
    assert Begins(moves[i], p) ==> !FastLeft(states[i], p);
  }

  /** AGREEMENT, for the protocol with its flags: if they are reset between two
      leaderships of one replica, no two different values are ever chosen for a slot. */
  lemma AgreementIfReset(states: seq<State>, moves: seq<Move>, i: nat, j: nat, slot: nat, v: Value, w: Value)
    requires IsFlagRun(states, moves) && FlagsReset(states, moves) && i < |states| && j < |states|
    requires Shape(states[i]) && Chosen(states[i], slot, v)
    requires Shape(states[j]) && Chosen(states[j], slot, w)
    ensures v == w
  {
    hide Shape, Chosen, MoveAt, Init;
    var events := ResetIsRun(states, moves);
    Agreement(states, events, i, j, slot, v, w);
  }

  // ---------------------------------------------------------------------
  // Unsafe without
  // ---------------------------------------------------------------------

  const THIRD: Value := Value([3])
  const SECOND_BY_1: Entry := Entry(2, SECOND, 1, 1)
  const THIRD_BY_0: Entry := Entry(1, THIRD, 1, 2)

  function Term1(): Term {
    Term(Token(1, 2), Fast({0, 1}, 1), [SetProp(2), Put(0, BY_1), SetProp(2), Put(1, SECOND_BY_1)], [4, 4], {0, 1})
  }

  /** Replica 1 has a value of its own decided in slot 1. */
  function Second1(): State {
    State([1, 2],
          [Replica(2, map[0 := BY_1, 1 := SECOND_BY_1], 1, 1, 1, [FIRST], Some(Token(1, 2)), [1, 2], 5, [0, 3], 1),
           Replica(2, map[0 := BY_1, 1 := SECOND_BY_1], 2, 2, 2, [], Some(Token(1, 2)), [1, 2], 6, [4, 0], 2)],
          [Term0(), Term1()])
  }

  /** Replica 0 leads again, with its flags as they were: next is the fast path. */
  function Leads0Again(): State {
    State([1, 2],
          [Replica(2, map[0 := BY_1, 1 := SECOND_BY_1], 1, 1, 1, [FIRST], Some(Token(0, 5)), [5, 2], 9, [0, 7], 1),
           Replica(2, map[0 := BY_1, 1 := SECOND_BY_1], 2, 2, 2, [], Some(Token(0, 5)), [5, 2], 6, [4, 0], 2)],
          [Term0().(phase := Idle), Term1(), Term(Token(0, 5), Fast({0, 1}, 0), [], [0, 0], {})])
  }

  ghost predicate Reached(s: State) {
    exists events :: Leads(Start0(), events, s)
  }

  lemma ReachOn(s: State, events: seq<Event>, s': State)
    requires Reached(s) && Leads(s, events, s')
    ensures Reached(s')
  {
    hide Leads;
    var before :| Leads(Start0(), before, s);
    LeadsOn(Start0(), before, s, events, s');
  }

  lemma ReachesSecond1()
    ensures Two(Second1()) && Reached(Second1())
  {
    hide Leads, Max, Sent, Next;
    GetsReads1Again(true);
    var before :| GetsBy(Start0(), before, [FIRST], Reads1Again(true));
    SecondWrites();
    Decides(Reads1Again(true), 1, PostNew(1, SECOND), Put(1, SECOND_BY_1), Fast({0, 1}, 1));
    SecondIs();
    ReachOn(Reads1Again(true), [PostNew(1, SECOND)] + [Deliver(1, 0)] + [Decide(1)], Second1());
  }

  lemma SecondWrites()
    requires Two(Reads1Again(true))
    ensures Clear(Reads1Again(true), 1) && Enabled(Reads1Again(true), PostNew(1, SECOND))
    ensures PostedOp(Reads1Again(true), PostNew(1, SECOND)) == Put(1, SECOND_BY_1)
    ensures PostedPhase(Reads1Again(true), PostNew(1, SECOND)) == Write(Fast({0, 1}, 1))
  {
    hide Max, RepShape, Ids, TermShape;
    ReadsAgainAre(true);
    hide Clear, SlotsRead, Shape;
    assert Reads1Again(true).terms[1].phase.slots.Keys + {1} == {0, 1};
  }

  lemma SecondIs()
    requires Two(Reads1Again(true)) && IsTerm(Reads1Again(true), 1)
    requires var s1 := Sent(Reads1Again(true), 1, Put(1, SECOND_BY_1), Write(Fast({0, 1}, 1)));
             Two(s1) && Enabled(s1, Decide(1))
    ensures Next(Sent(Reads1Again(true), 1, Put(1, SECOND_BY_1), Write(Fast({0, 1}, 1))), Decide(1)) == Second1()
  {
    hide Max, LastAcked, RepShape;
    var s1 := Sent(Reads1Again(true), 1, Put(1, SECOND_BY_1), Write(Fast({0, 1}, 1)));
    assert s1.reps[0].log == map[0 := BY_1, 1 := SECOND_BY_1] && s1.reps[1].log == map[0 := BY_1, 1 := SECOND_BY_1];
    assert s1.terms[1].ops == Term1().ops && s1.terms[1].touched == {0, 1};
    assert Next(s1, Decide(1)).reps == Second1().reps;
    assert Next(s1, Decide(1)).terms == Second1().terms;
  }

  /** Replica 0 is granted its next request; nobody has called propose there. */
  lemma ReachesElection()
    ensures CanElect(Second1(), 0) && Two(Granting(Second1(), 0)) && Reached(Granting(Second1(), 0))
    ensures Possible(Granting(Second1(), 0), Resume(0, 0)) && Resumed(Granting(Second1(), 0), 0, 0) == Leads0Again()
  {
    hide Leads, Max, Granting, Elected;
    ReachesSecond1();
    var s := Second1();
    TwoIs(s);
    assert CanElect(s, 0);
    Elects(s, 0);
    ReachOn(s, ElectionEvents(s, 0), Granting(s, 0));
    AgainIs();
  }

  lemma AgainIs()
    requires CanElect(Second1(), 0) && Two(Granting(Second1(), 0))
    ensures Possible(Granting(Second1(), 0), Resume(0, 0)) && Resumed(Granting(Second1(), 0), 0, 0) == Leads0Again()
  {
    hide Max, Multiple;
    var s := Granting(Second1(), 0);
    TwoIs(Second1());
    assert s.reps[0].granted == [5, 2] && s.reps[1].granted == [5, 2] && s.reps[0].approvals == [0, 7];
    assert s.reps == Leads0Again().reps && s.terms == Second1().terms;
    assert Modulo(s) == 2;
    assert MayLead(s, 0);
    var s' := Resumed(s, 0, 0);
    assert s'.terms[2].done == [0, 0];
    assert s'.terms == Leads0Again().terms;
  }

  function Clash(): State
    requires Two(Leads0Again()) && IsTerm(Leads0Again(), 2)
  {
    Sent(Leads0Again(), 2, Put(1, THIRD_BY_0), Write(Fast({0, 1}, 0)))
  }

  /** The fast path writes over the slot that is already decided. */
  lemma FastClashes()
    ensures Two(Leads0Again()) && IsTerm(Leads0Again(), 2) && Two(Clash())
    ensures Enabled(Leads0Again(), PostFast(2, THIRD))
    ensures Enabled(Next(Leads0Again(), PostFast(2, THIRD)), Deliver(2, 1))
    ensures Next(Next(Leads0Again(), PostFast(2, THIRD)), Deliver(2, 1)) == Clash()
  {
    hide Max, RepShape, Ids, Sent, Post;
    var s := Leads0Again();
    TwoIs(s);
    assert TermShape(s, 2);
    assert Clear(s, 2);
    PostTwo(s, 2, Put(1, THIRD_BY_0), Write(Fast({0, 1}, 0)));
    SentTwo(s, 2, Put(1, THIRD_BY_0), Write(Fast({0, 1}, 0)));
  }

  lemma WrittenToBoth(s: State, a: nat, k: nat)
    requires Two(s) && IsTerm(s, a) && k < |s.terms[a].ops| && s.terms[a].ops[k].Put?
    requires s.terms[a].done[0] == s.terms[a].done[1] == |s.terms[a].ops|
    ensures Chosen(s, s.terms[a].ops[k].slot, s.terms[a].ops[k].entry.val)
  {
    hide Max, RepShape, Ids;
    TwoIds(s, 0);
    assert Acks(s, a, k) == {0, 1};
    assert ChosenBy(s, a, k);
  }

  lemma BothChosen()
    requires Two(Leads0Again()) && IsTerm(Leads0Again(), 2) && Two(Clash())
    ensures Chosen(Clash(), 1, SECOND) && Chosen(Clash(), 1, THIRD)
  {
    hide Max, RepShape, Chosen, Ids;
    var s := Clash();
    assert TermShape(s, 1) && TermShape(s, 2);
    assert s.terms[2].ops == [Put(1, THIRD_BY_0)];
    WrittenToBoth(s, 1, 3);
    WrittenToBoth(s, 2, 0);
  }

  function Plains(events: seq<Event>): (moves: seq<Move>)
    ensures |moves| == |events| && forall i :: 0 <= i < |events| ==> moves[i] == Plain(events[i])
  {
    seq(|events|, i requires 0 <= i < |events| => Plain(events[i]))
  }

  lemma PathIsFlagRun(events: seq<Event>, s: State) returns (states: seq<State>, moves: seq<Move>)
    requires Leads(Start0(), events, s)
    ensures IsFlagRun(states, moves) && states[|moves|] == s
  {
    hide Next, Enabled, Shape;
    StartsTwo();
    states :| IsPath(states, events) && states[0] == Start0() && states[|events|] == s;
    moves := Plains(events);
    forall i | 0 <= i < |moves| ensures MoveAt(states, moves, i) {
      assert StepAt(states, events, i) && CallerProposes(events[i]);
    }
  }

  lemma FlagRunGoesOn(states: seq<State>, moves: seq<Move>, move: Move)
    requires IsFlagRun(states, moves) && Shape(states[|moves|]) && Possible(states[|moves|], move)
    ensures IsFlagRun(states + [Moved(states[|moves|], move)], moves + [move])
  {
    hide Shape, Possible, Moved, Init;
    var states', moves' := states + [Moved(states[|moves|], move)], moves + [move];
    forall i | 0 <= i < |moves'| ensures MoveAt(states', moves', i) {
      if i < |moves| {
        assert MoveAt(states, moves, i);
      }
    }
  }

  /** A run in which a replica leads again with its flags as they were, and two
      different values are chosen for one slot. */
  lemma DisagreesWithoutReset() returns (states: seq<State>, moves: seq<Move>)
    ensures IsFlagRun(states, moves) && !FlagsReset(states, moves)
    ensures Shape(states[|moves|]) && Chosen(states[|moves|], 1, SECOND) && Chosen(states[|moves|], 1, THIRD)
  {
    hide Leads, Shape, Possible, Moved, Init, Chosen, Granting;
    ReachesElection();
    var s := Granting(Second1(), 0);
    var events :| Leads(Start0(), events, s);
    states, moves := PathIsFlagRun(events, s);
    MovesAre(s);
    FlagRunGoesOn(states, moves, Resume(0, 0));
    states, moves := states + [Moved(states[|moves|], Resume(0, 0))], moves + [Resume(0, 0)];
    FlagRunGoesOn(states, moves, Plain(PostFast(2, THIRD)));
    states, moves := states + [Moved(states[|moves|], Plain(PostFast(2, THIRD)))], moves + [Plain(PostFast(2, THIRD))];
    FlagRunGoesOn(states, moves, Plain(Deliver(2, 1)));
    states, moves := states + [Moved(states[|moves|], Plain(Deliver(2, 1)))], moves + [Plain(Deliver(2, 1))];
    BothChosen();
    if FlagsReset(states, moves) {
      var v := ResetIsRun(states, moves);
      AgreementIfReset(states, moves, |moves|, |moves|, 1, SECOND, THIRD);
      assert false;
    }
  }

  lemma MovesAre(s: State)
    requires Two(s) && Possible(s, Resume(0, 0)) && Resumed(s, 0, 0) == Leads0Again()
    ensures Moved(s, Resume(0, 0)) == Leads0Again()
    ensures Two(Leads0Again()) && IsTerm(Leads0Again(), 2) && Two(Clash())
    ensures Possible(Leads0Again(), Plain(PostFast(2, THIRD)))
    ensures var s1 := Moved(Leads0Again(), Plain(PostFast(2, THIRD)));
            Shape(s1) && Possible(s1, Plain(Deliver(2, 1))) && Moved(s1, Plain(Deliver(2, 1))) == Clash()
  {
    hide Enabled, Next, Max, RepShape, Ids, Sent;
    FastClashes();
    FastKeepsShape();
  }

  lemma FastKeepsShape()
    requires Two(Leads0Again()) && Enabled(Leads0Again(), PostFast(2, THIRD)) && IsTerm(Leads0Again(), 2)
    ensures Shape(Next(Leads0Again(), PostFast(2, THIRD)))
  {
    hide Max, RepShape, Ids;
    assert Clear(Leads0Again(), 2);
    PostedTwo(Leads0Again(), 2, Put(1, THIRD_BY_0), Write(Fast({0, 1}, 0)));
  }
}
