// Two runs of two replicas.  Replica 0 gets a value decided; replica 1, which has
// looked at the slot as a follower (or has not), becomes leader, adopts that value and
// decides it again, and then finds its next slot empty everywhere.

module MuTwoRuns {
  import opened Options
  import opened Quorums
  import opened MuModel
  import opened MuTwoReplicas

  const FIRST: Value := Value([1])
  const SECOND: Value := Value([2])
  const BY_0: Entry := Entry(1, FIRST, 0, 0)
  const BY_1: Entry := Entry(2, FIRST, 0, 1)

  function Start0(): State {
    State([1, 2], [InitReplica(2, 1), InitReplica(2, 2)], [])
  }

  function Term0(): Term {
    Term(Token(0, 1), Fast({0, 1}, 0), [SetProp(1), Put(0, BY_0)], [2, 2], {0, 1})
  }

  function Decided0(committed: seq<Value>): State {
    State([1, 2],
          [Replica(1, map[0 := BY_0], 1, 1, 1, committed, Some(Token(0, 1)), [1, 0], 5, [0, 3], 1),
           Replica(1, map[0 := BY_0], 0, 0, 0, [], Some(Token(0, 1)), [1, 0], 2, [0, 0], 2)],
          [Term0()])
  }

  /** The next slot replica 1 looks at as a follower. */
  function Seen1(looked: bool): nat {
    if looked then 1 else 0
  }

  /** Replica 0 has committed the value, and replica 1 may have looked at it. */
  function Sampled1(looked: bool): State {
    State([1, 2],
          [Replica(1, map[0 := BY_0], 1, 1, 1, [FIRST], Some(Token(0, 1)), [1, 0], 5, [0, 3], 1),
           Replica(1, map[0 := BY_0], 0, Seen1(looked), 0, [], Some(Token(0, 1)), [1, 0], 2, [0, 0], 2)],
          [Term0()])
  }

  /** Replica 1 has decided slot 0 again.  If its iterator was past it, nothing was
      sampled, and nothing is committed. */
  function Decided1(looked: bool, committed: seq<Value>): State {
    State([1, 2],
          [Replica(2, map[0 := BY_1], 1, 1, 1, [FIRST], Some(Token(1, 2)), [1, 2], 5, [0, 3], 1),
           Replica(2, map[0 := BY_1], 1, 1, 1 - Seen1(looked), committed, Some(Token(1, 2)), [1, 2], 6, [4, 0], 2)],
          [Term0(), Term(Token(1, 2), Idle, [SetProp(2), Put(0, BY_1)], [2, 2], {0, 1})])
  }

  function Committed1(looked: bool): seq<Value> {
    if looked then [] else [FIRST]
  }

  /** Slot 1 is empty at both replicas. */
  function Reads1Again(looked: bool): State {
    State([1, 2], Decided1(looked, Committed1(looked)).reps,
          [Term0(),
           Term(Token(1, 2), ReadSlot(map[0 := None]), [SetProp(2), Put(0, BY_1), SetProp(2)], [3, 3], {0, 1})])
  }

  // ---------------------------------------------------------------------
  // The pieces
  // ---------------------------------------------------------------------

  lemma StartsTwo()
    ensures Init(Start0()) && Two(Start0()) && Modulo(Start0()) == 2
  {
    ModuloIs2();
    forall r | 0 <= r < 2 ensures RepShape(Start0(), r) {}
  }

  lemma ModuloIs2()
    ensures Max([1, 2]) == 2
  {
    assert [1, 2][1..] == [2] && [2][1..] == [];
    assert Max([]) == 0;
    assert Max([2]) == 2;
  }

  lemma TwoIs(s: State)
    requires s.ids == [1, 2] && |s.reps| == 2
    requires forall r :: 0 <= r < 2 ==> |s.reps[r].granted| == 2 && |s.reps[r].approvals| == 2
    requires forall a :: 0 <= a < |s.terms| ==>
               && s.terms[a].tok.pid < 2 && |s.terms[a].done| == 2 && s.terms[a].touched <= {0, 1}
               && s.terms[a].done[0] == s.terms[a].done[1] == |s.terms[a].ops|
    ensures Two(s) && Modulo(s) == 2
  {
    ModuloIs2();
    assert Ids(0) == {} && Ids(1) == {0} && Ids(2) == {0, 1};
  }

  lemma Commits(s: State, r: nat, s': State)
    requires Two(s) && r < 2 && |s.reps[r].committed| < s.reps[r].target && |s.reps[r].committed| in s.reps[r].log
    requires s' == SetRep(s, r, OneMoreCommitted(s.reps[r])) && |s'.reps[r].granted| == 2 && |s'.reps[r].approvals| == 2
    ensures Two(s') && Gets(s, [], s')
  {
    hide Gets, Max;
    SetRepTwo(s, r, OneMoreCommitted(s.reps[r]));
    GetsOne(s, CommitOne(r), s');
  }

  lemma GetsDecided0()
    ensures Two(Decided0([])) && Gets(Start0(), [FIRST], Decided0([]))
  {
    hide Max, Gets, Served;
    StartsTwo();
    var s := Start0();
    assert CanElect(s, 0);
    assert CanServe(s, 0, true, BY_0, None);
    Serves(s, 0, true, BY_0, None);
    assert Served(s, 0, BY_0, Fast({0, 1}, 0)) == Decided0([]) by { DecidedIs0(); }
  }

  lemma DecidedIs0()
    requires CanElect(Start0(), 0)
    ensures Served(Start0(), 0, BY_0, Fast({0, 1}, 0)) == Decided0([])
  {
    StartsTwo();
    ServedIs(Start0(), 0, BY_0, Fast({0, 1}, 0));
    hide Max, Served, CanElect;
    var s, s' := Start0(), Served(Start0(), 0, BY_0, Fast({0, 1}, 0));
    assert s.reps[0].granted == [0, 0] && s.reps[1].granted == [0, 0];
    assert s.reps[0].approvals == [0, 0] && s.reps[1].approvals == [0, 0];
    assert s'.reps[0].granted == [1, 0] && s'.reps[1].granted == [1, 0] && s'.reps[0].approvals == [0, 3];
    assert s'.reps == Decided0([]).reps;
    assert s'.terms == Decided0([]).terms;
  }

  lemma GetsSampled1(looked: bool)
    ensures Two(Sampled1(looked)) && Gets(Start0(), [FIRST], Sampled1(looked))
  {
    hide Gets, Max;
    GetsDecided0();
    var s, s' := Decided0([]), Decided0([FIRST]);
    assert [] + [FIRST] == [FIRST];
    assert SetRep(s, 0, OneMoreCommitted(s.reps[0])).reps == s'.reps;
    Commits(s, 0, s');
    GetsOn(Start0(), [FIRST], s, [], s');
    assert [FIRST] + [] == [FIRST];
    if looked {
      assert Next(s', Sample(1)).reps == Sampled1(true).reps;
      GetsOne(s', Sample(1), Sampled1(true));
      GetsOn(Start0(), [FIRST], s', [], Sampled1(true));
    }
    TwoIs(Sampled1(looked));
  }

  lemma CanServe1(looked: bool)
    ensures CanElect(Sampled1(looked), 1) && CanServe(Sampled1(looked), 1, true, BY_1, Some(BY_0))
  {
    hide Max;
    TwoIs(Sampled1(looked));
    assert CanElect(Sampled1(looked), 1);
  }

  lemma GetsDecided1(looked: bool)
    ensures Two(Decided1(looked, Committed1(looked))) && Gets(Start0(), [FIRST], Decided1(looked, Committed1(looked)))
  {
    hide Gets, Max, Served, CanServe, CanElect;
    GetsSampled1(looked);
    CanServe1(looked);
    Serves(Sampled1(looked), 1, true, BY_1, Some(BY_0));
    DecidedIs1(looked);
    GetsOn(Start0(), [FIRST], Sampled1(looked), [], Decided1(looked, []));
    assert [FIRST] + [] == [FIRST];
    if !looked {
      assert [] + [FIRST] == [FIRST];
      var s, s' := Decided1(false, []), Decided1(false, [FIRST]);
      assert SetRep(s, 1, OneMoreCommitted(s.reps[1])).reps == s'.reps;
      Commits(s, 1, s');
      GetsOn(Start0(), [FIRST], s, [], s');
    }
  }

  lemma DecidedIs1(looked: bool)
    requires CanElect(Sampled1(looked), 1)
    ensures Served(Sampled1(looked), 1, BY_1, Idle) == Decided1(looked, [])
  {
    TwoIs(Sampled1(looked));
    ServedIs(Sampled1(looked), 1, BY_1, Idle);
    hide Max, Served, CanElect;
    var s' := Served(Sampled1(looked), 1, BY_1, Idle);
    assert s'.reps[0].granted == [1, 2] && s'.reps[1].granted == [1, 2] && s'.reps[1].approvals == [4, 0];
    assert s'.reps[0].log == map[0 := BY_1] && s'.reps[1].log == map[0 := BY_1];
    assert s'.reps == Decided1(looked, []).reps;
    assert s'.terms == Decided1(looked, []).terms;
  }

  lemma GetsReads1Again(looked: bool)
    ensures Two(Reads1Again(looked)) && Gets(Start0(), [FIRST], Reads1Again(looked))
  {
    hide Leads, Max, SlotRead, Gets;
    GetsDecided1(looked);
    var s := Decided1(looked, Committed1(looked));
    assert CanPropose(s, 1);
    ReadsSlot(s, 1, true);
    ReadIs1Again(looked);
    var events := CatchUpEvents(1, 0) + AnnounceEvents(1, 0, true);
    GetsCalmly(s, events, Reads1Again(looked));
    GetsOn(Start0(), [FIRST], s, [], Reads1Again(looked));
    assert [FIRST] + [] == [FIRST];
  }

  lemma ReadIs1Again(looked: bool)
    requires CanPropose(Decided1(looked, Committed1(looked)), 1)
    ensures SlotRead(Decided1(looked, Committed1(looked)), 1, true) == Reads1Again(looked)
  {
    var s' := SlotRead(Decided1(looked, Committed1(looked)), 1, true);
    assert s'.reps == Reads1Again(looked).reps;
    assert s'.terms[1].touched == {0, 1} && s'.terms[1].ops == [SetProp(2), Put(0, BY_1), SetProp(2)];
    assert s'.terms[1] == Reads1Again(looked).terms[1];
    assert s'.terms == Reads1Again(looked).terms;
  }

  lemma ReadsAgainAre(looked: bool)
    requires Two(Reads1Again(looked))
    ensures Clear(Reads1Again(looked), 1) && SlotsRead(Reads1Again(looked), 1)
  {
    hide Max, RepShape, Ids, TermShape;
    assert TermShape(Reads1Again(looked), 1);
  }
}
