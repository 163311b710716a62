// Mu: deciding another's value.

module MuOthersValue {
  // A call of `propose` that succeeds without its value: replica 1 is asked to propose
  // one value, finds another in the slot, and decides that.

  import opened Options
  import opened Quorums
  import opened MuModel
  import opened MuTwoReplicas
  import opened MuTwoRuns
  import opened MuValidity

  lemma {:induction false} ProposedAmong(events: seq<Event>, i: nat)
    requires i < |events|
    ensures forall v :: v in ProposedBy(events[i]) ==> v in MuTwoReplicas.Proposed(events)
  {
    if i > 0 {
      ProposedAmong(events[1..], i - 1);
    }
  }

  /** Every value handed over among the first i was v. */
  lemma {:induction false} AllAsked(events: seq<Event>, args: seq<Value>, i: nat, v: Value)
    requires i <= |events| && |args| == |events| && forall j :: 0 <= j < i ==> args[j] == v
    ensures forall a :: a in Asked(events, args, i) ==> Asked(events, args, i)[a] == v
  {
    if i > 0 {
      AllAsked(events, args, i - 1, v);
    }
  }

  lemma {:induction false} StillAsked(events: seq<Event>, args: seq<Value>, i: nat, j: nat, a: nat, v: Value)
    requires i <= j <= |events| && |args| == |events| && forall k :: i <= k < j ==> args[k] == v
    requires a in Asked(events, args, i) && Asked(events, args, i)[a] == v
    ensures a in Asked(events, args, j) && Asked(events, args, j)[a] == v
    decreases j
  {
    if i < j {
      StillAsked(events, args, i, j - 1, a, v);
    }
  }

  /** FIRST is what all calls have, until replica 1 is asked for SECOND. */
  function ArgsOf(events: seq<Event>, n: nat): (args: seq<Value>)
    ensures |args| == |events| && forall j :: 0 <= j < |events| ==> args[j] == if j < n then FIRST else SECOND
  {
    seq(|events|, j => if j < n then FIRST else SECOND)
  }

  lemma ArgsFit(states: seq<State>, events: seq<Event>, before: seq<Event>, more: seq<Event>, i: nat)
    requires IsRun(states, events) && events == before + more && i < |events|
    requires MuTwoReplicas.Proposed(before) == [FIRST] && forall j :: 0 <= j < |more| ==> ProposedBy(more[j]) == []
    ensures ArgOk(events, ArgsOf(events, |before|), i)
  {
    hide Next, Shape;
    var args := ArgsOf(events, |before|);
    assert StepAt(states, events, i);
    if i < |before| {
      ProposedAmong(before, i);
      assert events[i] == before[i];
      AllAsked(events, args, i, FIRST);
      if events[i].PostNew? {
        ReadsWhenNew(states[i], events[i].a, events[i].v);
        InCall(states, events, args, i, events[i].a);
        assert events[i].v in ProposedBy(before[i]);
      } else if events[i].PostFast? {
        assert events[i].v in ProposedBy(before[i]);
      }
    } else {
      assert events[i] == more[i - |before|] && ProposedBy(more[i - |before|]) == [];
    }
  }

  lemma ReadsWhenNew(s: State, a: nat, v: Value)
    requires Shape(s) && Enabled(s, PostNew(a, v))
    ensures a < |s.terms| && s.terms[a].phase.Busy()
  {}

  /** From replica 1's election to the acknowledgement of its write. */
  function Adopting(): seq<Event> {
    ServingEvents(Sampled1(true), 1, true, BY_1, Some(BY_0))
  }

  function Waits1(): State
    requires CanElect(Sampled1(true), 1)
  {
    Serving(Sampled1(true), 1, BY_1, Idle)
  }

  lemma AdoptingLeads()
    ensures Two(Sampled1(true)) && Gets(Start0(), [FIRST], Sampled1(true)) && CanElect(Sampled1(true), 1)
    ensures Leads(Sampled1(true), Adopting(), Waits1()) && Two(Waits1()) && Enabled(Waits1(), Decide(1))
    ensures N(Next(Waits1(), Decide(1))) == 2
  {
    hide Leads, Gets, Enabled, CanElect, CanServe, Serving, Max, ServingEvents;
    GetsSampled1(true);
    CanServe1(true);
    ServesUntil(Sampled1(true), 1, true, BY_1, Some(BY_0));
    TwoShapeOf(Waits1());
    DecidedTwo(Waits1(), 1);
  }

  /** The call begins after the election, and proposes nothing. */
  lemma AdoptingIs()
    ensures |Adopting()| > 5 && Adopting()[5] == BeginSlow(1)
    ensures forall j :: 0 <= j < |Adopting()| ==> ProposedBy(Adopting()[j]) == []
  {
    hide Max;
    TwoIs(Sampled1(true));
    assert NumberOf(Sampled1(true), 1) == 2;
    assert Adopting() == [Request(1), Grant(1, 1, 2), Grant(0, 1, 2), Approve(0), Start(1),
                          BeginSlow(1), ReadFuo(1, 0), EndCatchFuo(1), EndUpdate(1), ReadProp(1, 0),
                          PostProp(1), Deliver(1, 0), EndProp(1), ReadRemoteSlot(1, 0), PostAdopted(1, BY_0),
                              Deliver(1, 0)];
  }

  lemma LastWritten()
    requires CanElect(Sampled1(true), 1)
    ensures IsTerm(Waits1(), 1) && |Waits1().terms[1].ops| > 0 && Leader(Waits1(), 1).fuo == 0
    ensures Waits1().terms[1].ops[|Waits1().terms[1].ops| - 1] == Put(0, BY_1)
  {
    hide Max;
    assert Ids(0) == {} && Ids(1) == {0} && Ids(2) == {0, 1};
  }

  lemma PathIsRun(states: seq<State>, events: seq<Event>)
    requires IsPath(states, events) && states[0] == Start0()
    ensures IsRun(states, events)
  {
    hide StepAt;
    StartsTwo();
  }

  /** A call that succeeds: its caller's value is not decided, and will not be. */
  lemma DecidesAnothers() returns (states: seq<State>, events: seq<Event>, args: seq<Value>)
    ensures IsCallRun(states, events, args) && |events| > 0 && events[|events| - 1] == Decide(1)
    ensures var asked := Asked(events, args, |events| - 1); 1 in asked && asked[1] == SECOND
    ensures var s := states[|events| - 1]; Shape(s) && Chosen(s, 0, FIRST) && !Chosen(s, 0, SECOND)
  {
    hide Leads, Max, Serving, Next, Enabled, Chosen, Shape, Asked, ArgOk, Adopting, Sampled1, StepAt, CanElect;
    AdoptingLeads();
    AdoptingIs();
    var before :| GetsBy(Start0(), before, [FIRST], Sampled1(true));
    var more := Adopting() + [Decide(1)];
    events := before + more;
    states := Assembled(before, events);
    PathIsRun(states, events);
    args := ArgsOf(events, |before|);
    forall i | 0 <= i < |events| ensures ArgOk(events, args, i) {
      ArgsFit(states, events, before, more, i);
    }
    AskedSecond(events, args, |before|, |before| + 5);
    LastWritten();
    SuccessDecides(states, events, |events| - 1, 1, FIRST);
    SuccessDecides(states, events, |events| - 1, 1, SECOND);
  }

  lemma Assembled(before: seq<Event>, events: seq<Event>) returns (states: seq<State>)
    requires Leads(Start0(), before, Sampled1(true)) && events == before + (Adopting() + [Decide(1)])
    requires CanElect(Sampled1(true), 1)
    requires Leads(Sampled1(true), Adopting(), Waits1()) && Two(Waits1()) && Enabled(Waits1(), Decide(1))
    requires N(Next(Waits1(), Decide(1))) == 2
    ensures IsPath(states, events) && states[0] == Start0() && states[|events| - 1] == Waits1()
  {
    hide Leads, Max, Serving, Next, Enabled, Shape, Adopting, Sampled1, CanElect;
    LeadsOn(Start0(), before, Sampled1(true), Adopting(), Waits1());
    var path := before + Adopting();
    assert events == path + [Decide(1)];
    states := PathWithLast(path, Decide(1), Waits1());
  }

  lemma PathWithLast(events: seq<Event>, ev: Event, s: State) returns (states: seq<State>)
    requires Leads(Start0(), events, s) && Two(s) && Enabled(s, ev) && CallerProposes(ev) && N(Next(s, ev)) == 2
    ensures IsPath(states, events + [ev]) && states[0] == Start0() && states[|events|] == s
  {
    hide Next, Enabled, Shape;
    var x :| IsPath(x, events) && x[0] == Start0() && x[|events|] == s;
    states := x + [Next(s, ev)];
    var all := events + [ev];
    assert Shape(s) by { TwoShapeOf(s); }
    forall i | 0 <= i < |all| ensures StepAt(states, all, i) && CallerProposes(all[i]) {
      if i < |events| {
        assert StepAt(x, events, i) && CallerProposes(events[i]);
      }
    }
  }

  lemma TwoShapeOf(s: State)
    requires Two(s)
    ensures Shape(s)
  {}

  lemma AskedSecond(events: seq<Event>, args: seq<Value>, n: nat, i: nat)
    requires n <= i < |events| - 1 && args == ArgsOf(events, n) && events[i] == BeginSlow(1)
    ensures var asked := Asked(events, args, |events| - 1); 1 in asked && asked[1] == SECOND
  {
    assert 1 in Asked(events, args, i + 1);
    StillAsked(events, args, i + 1, |events| - 1, 1, SECOND);
  }
}
