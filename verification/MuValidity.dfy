// Mu: whose value is decided.

module MuValidity {
  // Whose value is decided: nothing is chosen that no caller proposed, and what a
  // successful call of `propose` has decided is its own value unless it adopted one.

  import opened Options
  import opened Quorums
  import opened MuModel
  import opened MuHistory
  import opened MuElection
  import opened MuSafety
  import opened MuPhases
  import opened MuDecideSteps
  import opened MuAgreement
  import opened MuRequests

  /** Among the first i events, a caller's own value v was written. */
  predicate Proposed(events: seq<Event>, i: nat, v: Value)
    requires i <= |events|
  {
    exists j :: 0 <= j < i && OwnWrite(events[j], v)
  }

  predicate OwnWrite(ev: Event, v: Value) {
    (ev.PostNew? || ev.PostFast?) && ev.v == v
  }

  /** An adopted entry comes from the log of some replica. */
  lemma AdoptedIsWritten(s: State, a: nat, e: Entry)
    requires Inv(s) && Enabled(s, PostAdopted(a, e))
    ensures IsTerm(s, a) && HasPut(s, Leader(s, a).fuo, e)
  {
    hide Ordered, Tokens, Answers, Writes, DecidedOk, Piped, Frontier, PropRead, FastOk;
    assert RunOk(s, a) && PhaseOk(s, a);
    if LocalSlot(s, a) == Some(e) {
      assert LogOk(s, Pid(s, a)) && Origin(s, Pid(s, a), Leader(s, a).fuo);
    }
  }

  /** Every value written was proposed. */
  lemma {:induction false} WrittenWasProposed(states: seq<State>, events: seq<Event>, i: nat, a: nat, k: nat)
    requires IsRun(states, events) && i < |states|
    requires a < |states[i].terms| && k < |states[i].terms[a].ops| && states[i].terms[a].ops[k].Put?
    ensures Proposed(events, i, states[i].terms[a].ops[k].entry.val)
    decreases i
  {
    hide Inv, Enabled, Next, HasPut;
    if i > 0 {
      var s, ev := states[i - 1], events[i - 1];
      assert StepAt(states, events, i - 1);
      RunInv(states, events, i - 1);
      ShapeOf(s);
      OpsAfter(s, ev, a);
      if a < |s.terms| && k < |s.terms[a].ops| {
        WrittenWasProposed(states, events, i - 1, a, k);
        ProposedStays(events, i - 1, i, s.terms[a].ops[k].entry.val);
      } else {
        PutIsProposed(states, events, i, a, k);
      }
    }
  }

  lemma ShapeOf(s: State)
    requires Inv(s)
    ensures Shape(s)
  {}

  lemma ProposedStays(events: seq<Event>, i: nat, j: nat, v: Value)
    requires i <= j <= |events| && Proposed(events, i, v)
    ensures Proposed(events, j, v)
  {}

  lemma PutIsProposed(states: seq<State>, events: seq<Event>, i: nat, a: nat, k: nat)
    requires IsRun(states, events) && 0 < i < |states|
    requires Inv(states[i - 1]) && Enabled(states[i - 1], events[i - 1]) && IsPost(events[i - 1])
        && PostedBy(events[i - 1]) == a
    requires a < |states[i - 1].terms| && k == |states[i - 1].terms[a].ops|
    requires a < |states[i].terms|
        && states[i].terms[a].ops == states[i - 1].terms[a].ops + [PostedOp(states[i - 1], events[i - 1])]
    requires states[i].terms[a].ops[k].Put?
    ensures Proposed(events, i, states[i].terms[a].ops[k].entry.val)
    decreases i, 0
  {
    hide Inv, Next;
    var s, ev := states[i - 1], events[i - 1];
    var v := states[i].terms[a].ops[k].entry.val;
    if ev.PostAdopted? {
      AdoptedIsWritten(s, a, ev.e);
      var j :| 0 <= j < |s.terms[ev.e.term].ops| && s.terms[ev.e.term].ops[j] == Put(Leader(s, a).fuo, ev.e);
      WrittenWasProposed(states, events, i - 1, ev.e.term, j);
      ProposedStays(events, i - 1, i, v);
    } else {
      assert OwnWrite(events[i - 1], v);
    }
  }

  /** VALIDITY.  Whatever is chosen was proposed. */
  lemma ChosenWasProposed(states: seq<State>, events: seq<Event>, i: nat, slot: nat, v: Value)
    requires IsRun(states, events) && i < |states| && Shape(states[i]) && Chosen(states[i], slot, v)
    ensures Proposed(events, i, v)
  {
    var a: nat, k: nat :| ChosenBy(states[i], a, k) && states[i].terms[a].ops[k].slot == slot
        && states[i].terms[a].ops[k].entry.val == v;
    WrittenWasProposed(states, events, i, a, k);
  }

  // ---------------------------------------------------------------------
  // Whose value a successful call decides
  // ---------------------------------------------------------------------

  /** A call of `propose` begins here. */
  predicate BeginsCall(ev: Event) {
    ev.BeginSlow? || ev.PostFast?
  }

  /** What the callers have handed over, by leadership: the value of the call that is
      running, or of the last one.  args[j] is the value handed over if events[j]
      begins a call. */
  function Asked(events: seq<Event>, args: seq<Value>, i: nat): map<nat, Value>
    requires i <= |events| && |args| == |events|
  {
    if i == 0 then map[]
    else if BeginsCall(events[i - 1]) then Asked(events, args, i - 1)[events[i - 1].a := args[i - 1]]
    else Asked(events, args, i - 1)
  }

  /** A call writes a value of its own only if it is what the caller handed over. */
  predicate ArgOk(events: seq<Event>, args: seq<Value>, i: nat)
    requires i < |events| && |args| == |events|
  {
    var ev, asked := events[i], Asked(events, args, i);
    && (ev.PostNew? ==> ev.a in asked && asked[ev.a] == ev.v)
    && (ev.PostFast? ==> args[i] == ev.v)
  }

  /** A run in which each call of propose has its value. */
  predicate IsCallRun(states: seq<State>, events: seq<Event>, args: seq<Value>) {
    && IsRun(states, events) && |args| == |events|
    && forall i :: 0 <= i < |events| ==> ArgOk(events, args, i)
  }

  /** The guards of the branches that write the caller's own value: the fast path, or
      the slot empty here and wherever it was read. */
  predicate OwnGuard(s: State, a: nat)
    requires IsTerm(s, a)
  {
    || s.terms[a].phase.Fast?
    || (s.terms[a].phase.ReadSlot? && NothingRead(LocalSlot(s, a), s.terms[a].phase.slots))
  }

  predicate WritesValue(ev: Event, a: nat) {
    (ev.PostNew? || ev.PostFast? || ev.PostAdopted?) && ev.a == a
  }

  lemma BusyFrom(s: State, ev: Event, a: nat)
    requires Shape(s) && Enabled(s, ev) && a < |Next(s, ev).terms| && Next(s, ev).terms[a].phase.Busy()
    ensures a < |s.terms|
    ensures s.terms[a].phase.Busy() || (BeginsCall(ev) && ev.a == a)
  {
    hide RepShape, Max, Modulo, Multiple, LastAcked, PostedOp, ProposalIsHigh, Ids, BusyAt, Leading;
    hide TermShape, Remotes, Acks;
  }

  /** Who is busy is in a call. */
  lemma {:induction false} InCall(states: seq<State>, events: seq<Event>, args: seq<Value>, i: nat, a: nat)
    requires IsRun(states, events) && |args| == |events| && i < |states|
    requires a < |states[i].terms| && states[i].terms[a].phase.Busy()
    ensures a in Asked(events, args, i)
  {
    hide Enabled, Next, Shape;
    if i > 0 {
      assert StepAt(states, events, i - 1);
      BusyFrom(states[i - 1], events[i - 1], a);
      if states[i - 1].terms[a].phase.Busy() {
        InCall(states, events, args, i - 1, a);
      }
    }
  }

  /** Only writing a value leads to the wait for its acknowledgements, and nothing
      happens to the write or the call until it ends. */
  lemma WaitsFrom(s: State, ev: Event, a: nat)
    requires Shape(s) && Enabled(s, ev) && a < |Next(s, ev).terms| && Next(s, ev).terms[a].phase.Write?
    ensures a < |s.terms|
    ensures if s.terms[a].phase.Write?
            then Next(s, ev).terms[a].ops == s.terms[a].ops && !(BeginsCall(ev) && ev.a == a) && !WritesValue(ev, a)
            else WritesValue(ev, a) && Next(s, ev).terms[a].ops == s.terms[a].ops + [PostedOp(s, ev)]
  {
    hide RepShape, Max, Modulo, Multiple, LastAcked, ProposalIsHigh, Ids, BusyAt, Leading, PutOp;
    hide TermShape, Remotes, Acks;
  }

  /** The write that a leadership waits for. */
  lemma {:induction false} FindWrite(states: seq<State>, events: seq<Event>, args: seq<Value>, i: nat, a: nat)
      returns (w: nat)
    requires IsRun(states, events) && |args| == |events| && i < |states|
    requires a < |states[i].terms| && states[i].terms[a].phase.Write?
    ensures w < i && StepAt(states, events, w) && WritesValue(events[w], a) && a < |states[w].terms|
    ensures states[i].terms[a].ops == states[w].terms[a].ops + [PostedOp(states[w], events[w])]
    ensures a in Asked(events, args, i) && a in Asked(events, args, w + 1)
    ensures Asked(events, args, i)[a] == Asked(events, args, w + 1)[a]
    ensures forall j :: w < j < i ==> !WritesValue(events[j], a)
  {
    hide Enabled, Next, Shape, PostedOp;
    InCall(states, events, args, i, a);
    assert i > 0;
    assert StepAt(states, events, i - 1);
    WaitsFrom(states[i - 1], events[i - 1], a);
    if states[i - 1].terms[a].phase.Write? {
      w := FindWrite(states, events, args, i - 1, a);
    } else {
      w := i - 1;
    }
  }

  lemma GuardAtWrite(s: State, ev: Event, a: nat)
    requires Shape(s) && Enabled(s, ev) && WritesValue(ev, a)
    ensures IsTerm(s, a) && (OwnGuard(s, a) <==> !ev.PostAdopted?)
    ensures PostedOp(s, ev).Put? && PostedOp(s, ev).entry.val == if ev.PostAdopted? then ev.e.val else ev.v
  {
    hide RepShape, Max, Ids, TermShape;
  }

  /** A call of propose that succeeds decides its slot, with what it last wrote. */
  lemma SuccessDecides(states: seq<State>, events: seq<Event>, i: nat, a: nat, v: Value)
    requires IsRun(states, events) && i < |events| && events[i] == Decide(a)
    ensures Shape(states[i]) && IsTerm(states[i], a) && |states[i].terms[a].ops| > 0
    ensures var op := states[i].terms[a].ops[|states[i].terms[a].ops| - 1];
            op.Put? && (Chosen(states[i], Leader(states[i], a).fuo, v) <==> v == op.entry.val)
  {
    hide Tokens, Answers, Ordered, Logs, Running, TermOk, Unique, Next, LastAcked;
    RunInv(states, events, i);
    assert StepAt(states, events, i);
    var s := states[i];
    DecideChosen(s, a);
    var n := |s.terms[a].ops| - 1;
    assert Chosen(s, Leader(s, a).fuo, s.terms[a].ops[n].entry.val);
    if Chosen(s, Leader(s, a).fuo, v) {
      AgreementNow(s, Leader(s, a).fuo, v, s.terms[a].ops[n].entry.val);
    }
  }

  lemma DecidesWaiting(s: State, a: nat)
    requires Shape(s) && Enabled(s, Decide(a))
    ensures IsTerm(s, a) && s.terms[a].phase.Write?
  {}

  /** WHOSE VALUE.  A call of propose that succeeds has decided its caller's value if and
      only if, when it wrote, it was on the fast path or had found its slot empty here
      and wherever it read it, or the value it adopted happened to be the caller's. */
  lemma CallersValueIff(states: seq<State>, events: seq<Event>, args: seq<Value>, i: nat, a: nat) returns (w: nat)
    requires IsCallRun(states, events, args) && i < |events| && events[i] == Decide(a)
    ensures w < i && Shape(states[i]) && IsTerm(states[i], a) && IsTerm(states[w], a)
    ensures WritesValue(events[w], a) && (forall j :: w < j < i ==> !WritesValue(events[j], a))
    ensures a in Asked(events, args, i)
    ensures var v := Asked(events, args, i)[a];
            Chosen(states[i], Leader(states[i], a).fuo, v)
            <==> OwnGuard(states[w], a) || (events[w].PostAdopted? && events[w].e.val == v)
  {
    hide Next, Chosen, OwnGuard, PostedOp;
    assert StepAt(states, events, i);
    DecidesWaiting(states[i], a);
    w := FindWrite(states, events, args, i, a);
    assert StepAt(states, events, w) && ArgOk(events, args, w);
    GuardAtWrite(states[w], events[w], a);
    SuccessDecides(states, events, i, a, Asked(events, args, i)[a]);
  }
}
