// While a leader that everybody has let in waits for replies, the request lies where
// every follower will find it: no log reaches beyond it, and nobody has gone past it.

module MuRoundRoom {
  import opened Options
  import opened Quorums
  import opened MuModel
  import opened MuHistory
  import opened MuElection
  import opened MuSafety
  import opened MuLogs
  import opened MuPhases
  import opened MuQuietSteps
  import opened MuDecideSteps
  import opened MuAgreement
  import opened MuPositions
  import opened MuRecycling
  import opened MuWiped
  import opened MuRequests
  import opened MuRounds
  import opened MuRoundSteps
  import opened MuRoundActions
  import opened MuGenerations

  /** Everybody lets term a in. */
  predicate OpenAll(s: State, a: nat)
    requires a < |s.terms|
  {
    forall r :: 0 <= r < N(s) ==> Open(s, a, r)
  }

  /** Replica r has nothing above slot n, and nothing decided at or above it. */
  predicate RoomAt(s: State, r: nat, n: nat)
    requires r < N(s)
  {
    && (forall m :: m in s.reps[r].log ==> m <= n)
    && s.reps[r].target <= n && s.reps[r].fuo <= n
  }

  ghost predicate Room(s: State, a: nat, n: nat)
    requires a < |s.terms|
  {
    forall r :: 0 <= r < N(s) && r != Pid(s, a) ==> RoomAt(s, r, n)
  }

  /** While everybody lets term a in, no later leadership has got through anywhere. */
  lemma LaterIsShut(s: State, a: nat, c: nat, r: nat)
    requires Inv(s) && a < c < |s.terms| && OpenAll(s, a) && r < N(s)
    ensures r !in s.terms[c].touched && IsTerm(s, c) && s.terms[c].done[r] == 0
  {
    hide Tokens, Answers, Writes, Logs, Running;
    assert TermShape(s, c);
    assert Open(s, a, r);
  }

  lemma LaterChoosesNothing(s: State, a: nat, c: nat, k: nat)
    requires Inv(s) && a < c < |s.terms| && OpenAll(s, a)
    ensures Shape(s) && !ChosenBy(s, c, k)
  {
    InvHasShape(s);
    if ChosenBy(s, c, k) {
      var r :| r in Acks(s, c, k);
      LaterIsShut(s, a, c, r);
    }
  }

  lemma InvHasShape(s: State)
    requires Inv(s)
    ensures Shape(s)
  {}

  // ---------------------------------------------------------------------
  // When the request is posted
  // ---------------------------------------------------------------------

  function OtherThan(v: Value): (w: Value)
    ensures w != v
  {
    if v == Value([]) then Value([0]) else Value([])
  }

  /** Where a new value may be written nothing has been chosen. */
  lemma NothingChosenThere(s: State, a: nat, v: Value, c: nat, k: nat)
    requires Inv(s) && Shape(s) && Enabled(s, PostNew(a, v)) && a < |s.terms| && OpenAll(s, a)
    requires c < |s.terms| && k < |s.terms[c].ops| && s.terms[c].ops[k].Put?
    requires IsTerm(s, a) && s.terms[c].ops[k].slot == Leader(s, a).fuo
    ensures !ChosenBy(s, c, k)
  {
    if c > a {
      LaterChoosesNothing(s, a, c, k);
    } else if c == a {
      OwnPutsBelow(s, a, v, k);
    } else if ChosenBy(s, c, k) {
      var w := OtherThan(s.terms[c].ops[k].entry.val);
      OlderDisagrees(s, a, v, w, c, k);
    }
  }

  lemma OwnPutsBelow(s: State, a: nat, v: Value, k: nat)
    requires Inv(s) && Shape(s) && Enabled(s, PostNew(a, v)) && IsTerm(s, a)
    requires k < |s.terms[a].ops| && s.terms[a].ops[k].Put?
    ensures s.terms[a].ops[k].slot < Leader(s, a).fuo
  {
    RequestEffect(s, a, v);
    hide Enabled, Tokens, Answers, Ordered, Writes, Logs, PhaseOk, DecidedOk, Piped;
    assert RunOk(s, a) && LeaderOk(s, a);
  }

  lemma NewEnabled(s: State, a: nat, v: Value, w: Value)
    requires Shape(s) && Enabled(s, PostNew(a, v))
    ensures Enabled(s, PostNew(a, w))
  {}

  /** Had an older leadership's value been chosen there, no other could be written. */
  lemma OlderDisagrees(s: State, a: nat, v: Value, w: Value, c: nat, k: nat)
    requires Inv(s) && Shape(s) && Enabled(s, PostNew(a, v)) && IsTerm(s, a)
    requires c < a && k < |s.terms[c].ops| && s.terms[c].ops[k].Put? && ChosenBy(s, c, k)
    requires s.terms[c].ops[k].slot == Leader(s, a).fuo
    ensures s.terms[c].ops[k].entry.val == w
  {
    NewEnabled(s, a, v, w);
    RequestEffect(s, a, w);
    var s' := Next(s, PostNew(a, w));
    StepKeepsInv(s, PostNew(a, w));
    hide Enabled, Next, Tokens, Answers, Ordered, Logs, Running;
    InvHasShape(s');
    var n := |s.terms[a].ops|;
    assert TermOk(s', a) && s'.terms[a].ops[n] == PutOp(s, a, w, Leader(s, a).fuo);
    assert SafeValue(s', a, Leader(s, a).fuo, w);
    assert TermShape(s', c) && s'.terms[c] == s.terms[c];
    assert Acks(s', c, k) == Acks(s, c, k);
    AckedMay(s', c, k);
  }

  lemma SettledByChosen(s: State, r: nat, slot: nat) returns (c: nat, k: nat)
    requires Shape(s) && r < N(s) && Settled(s, r, slot)
    ensures ChosenBy(s, c, k) && s.terms[c].ops[k].slot == slot
    ensures s.terms[c].ops[k].entry.val == s.reps[r].log[slot].val && c <= s.reps[r].log[slot].term
  {
    c, k :| Vouches(s, c, k, slot, s.reps[r].log[slot]);
  }

  lemma RoomBefore(s: State, a: nat, v: Value, r: nat)
    requires Inv(s) && Shape(s) && Enabled(s, PostNew(a, v)) && IsTerm(s, a) && OpenAll(s, a) && r < N(s)
    ensures RoomAt(s, r, Leader(s, a).fuo)
  {
    var n := Leader(s, a).fuo;
    if Settled(s, r, n) {
      var c, k := SettledByChosen(s, r, n);
      NothingChosenThere(s, a, v, c, k);
    }
    hide Enabled, Tokens, Answers, Ordered, Writes, Settled, RunOk;
    assert LogOk(s, r) && NoHoles(s, r) && RepOk(s, r);
  }

  lemma RoomAtRequest(s: State, a: nat, v: Value)
    requires Inv(s) && Shape(s) && Enabled(s, PostNew(a, v)) && IsTerm(s, a) && OpenAll(s, a)
    ensures a < |Next(s, PostNew(a, v)).terms| && Room(Next(s, PostNew(a, v)), a, Leader(s, a).fuo)
  {
    RequestEffect(s, a, v);
    forall r | 0 <= r < N(s) && r != Pid(s, a) ensures RoomAt(Next(s, PostNew(a, v)), r, Leader(s, a).fuo) {
      RoomBefore(s, a, v, r);
      PostLeavesOthers(s, a, v, r);
    }
  }

  lemma PostLeavesOthers(s: State, a: nat, v: Value, r: nat)
    requires Shape(s) && Enabled(s, PostNew(a, v)) && IsTerm(s, a) && r < N(s) && r != Pid(s, a)
    ensures N(Next(s, PostNew(a, v))) == N(s) && Next(s, PostNew(a, v)).reps[r] == s.reps[r]
  {}

  // ---------------------------------------------------------------------
  // While the leader waits
  // ---------------------------------------------------------------------

  /** Term a has posted its request to slot n, and everybody lets it in. */
  ghost predicate Waiting(s: State, a: nat, n: nat) {
    && Inv(s) && IsTerm(s, a) && s.terms[a].phase.Write? && s.terms[a].phase.next.Fast? && OpenAll(s, a)
    && |s.terms[a].ops| > 0 && s.terms[a].ops[|s.terms[a].ops| - 1].Put?
    && s.terms[a].ops[|s.terms[a].ops| - 1].slot == n
    && s.terms[a].ops[|s.terms[a].ops| - 1].entry.val.Recycle?
    && forall b :: 0 <= b < |s.terms| ==> OpsAsk(s, Some(a), b)
  }

  lemma WaitingShape(s: State, a: nat, n: nat)
    requires Waiting(s, a, n)
    ensures Shape(s) && Inv(s) && IsTerm(s, a) && OpenAll(s, a) && s.terms[a].phase.Write?
  {
    InvHasShape(s);
    hide Inv, Shape;
  }

  /** Nobody else's value is chosen where the request is. */
  lemma ElsewhereNotChosen(s: State, a: nat, n: nat, c: nat, k: nat)
    requires Waiting(s, a, n) && Shape(s) && c < |s.terms| && c != a
    requires k < |s.terms[c].ops| && s.terms[c].ops[k].Put? && s.terms[c].ops[k].slot == n
    ensures !ChosenBy(s, c, k)
  {
    if c > a {
      LaterChoosesNothing(s, a, c, k);
    } else if ChosenBy(s, c, k) {
      AckedMay(s, c, k);
      NewIsSafe(s, a, n, n, OtherThan(s.terms[c].ops[k].entry.val));
    }
  }

  /** The leader found nothing: no older value can be chosen from there on. */
  lemma NewIsSafe(s: State, a: nat, n: nat, m: nat, v: Value)
    requires Waiting(s, a, n) && Shape(s) && n <= m
    ensures SafeValue(s, a, m, v)
  {
    hide Tokens, Answers, Ordered, Writes, Logs, LeaderOk, DecidedOk, Piped, Frontier, SafeValue;
    assert RunOk(s, a) && PhaseOk(s, a);
    var next := s.terms[a].phase.next;
    assert FastOk(s, a, next);
    OwnValueSafe(s, a, next.readers, next.base, m, v);
  }

  /** New entries come from the leader that is let in. */
  lemma NewEntryBelow(s: State, ev: Event, a: nat, n: nat, r: nat, m: nat)
    requires Waiting(s, a, n) && Shape(s) && Enabled(s, ev) && r < N(s) && r != Pid(s, a) && N(Next(s, ev)) == N(s)
    requires RoomAt(s, r, n) && m in Next(s, ev).reps[r].log
    ensures m <= n
  {
    hide Inv, Waiting, Next, Enabled, Shape, OpenAll, PostedOp, TermShape;
    WaitingShape(s, a, n);
    EntryComesFrom(s, ev, r, m);
    var e := Next(s, ev).reps[r].log[m];
    if Fresh(s, ev, r, m, e) {
      if IsPost(ev) {
        PosterIsLetIn(s, ev);
        TokensApart(s, a, PostedBy(ev), r);
      } else {
        ArriverIsLetIn(s, ev);
        TokensApart(s, a, ev.a, r);
        FilledBelow(s, a, n, s.terms[a].done[r]);
      }
    }
  }

  lemma PosterIsLetIn(s: State, ev: Event)
    requires Shape(s) && Enabled(s, ev) && IsPost(ev)
    ensures IsTerm(s, PostedBy(ev)) && Own(s, PostedBy(ev))
  {}

  lemma ArriverIsLetIn(s: State, ev: Event)
    requires Shape(s) && Enabled(s, ev) && ev.Deliver?
    ensures Reaches(s, ev.a, ev.r) && s.terms[ev.a].done[ev.r] < |s.terms[ev.a].ops|
  {}

  /** Who is let in somewhere is term a. */
  lemma TokensApart(s: State, a: nat, c: nat, r: nat)
    requires Inv(s) && a < |s.terms| && c < |s.terms| && r < N(s) && OpenAll(s, a) && Open(s, c, r)
    ensures c == a
  {
    hide Answers, Ordered, Writes, Logs, Running, TermGranted;
    assert Open(s, a, r);
  }

  lemma PutsBelow(s: State, a: nat, n: nat, k: nat)
    requires Waiting(s, a, n) && Shape(s) && k < |s.terms[a].ops| && s.terms[a].ops[k].Put?
    ensures s.terms[a].ops[k].slot <= n
  {
    hide Tokens, Answers, Ordered, Logs, Running;
    assert TermOk(s, a) && OpsOrdered(s, a);
  }

  /** What the leader copies is decided, hence below. */
  lemma FilledBelow(s: State, a: nat, n: nat, k: nat)
    requires Waiting(s, a, n) && Shape(s) && k < |s.terms[a].ops| && !s.terms[a].ops[k].SetProp?
    ensures s.terms[a].ops[k].slot <= n
  {
    if s.terms[a].ops[k].Put? {
      PutsBelow(s, a, n, k);
    } else {
      var c, kc := CopyIsChosen(s, a, n, k);
      if s.terms[a].ops[k].slot > n {
        if c == a {
          PutsBelow(s, a, n, kc);
        } else {
          AckedMay(s, c, kc);
          NewIsSafe(s, a, n, s.terms[c].ops[kc].slot, OtherThan(s.terms[c].ops[kc].entry.val));
        }
      }
    }
  }

  lemma CopyIsChosen(s: State, a: nat, n: nat, k: nat) returns (c: nat, kc: nat)
    requires Waiting(s, a, n) && Shape(s) && k < |s.terms[a].ops| && s.terms[a].ops[k].Copy?
    ensures c <= a && ChosenBy(s, c, kc) && s.terms[c].ops[kc].slot == s.terms[a].ops[k].slot
  {
    hide Tokens, Answers, Ordered, Logs, Running;
    assert TermOk(s, a) && CopiesOk(s, a);
    var op := s.terms[a].ops[k];
    c, kc :| Vouches(s, c, kc, op.slot, op.entry);
  }

  lemma SampleBelow(s: State, ev: Event, a: nat, n: nat, r: nat)
    requires Waiting(s, a, n) && Shape(s) && Enabled(s, ev) && ev == Sample(r) && r < N(s) && RoomAt(s, r, n)
    ensures N(Next(s, ev)) == N(s) && RoomAt(Next(s, ev), r, n)
  {
    SampleReads(s, r);
    hide Tokens, Answers, Ordered, Running, Enabled, Next;
    EmbeddedIsSlot(s, r, s.reps[r].seen);
  }

  lemma SampleReads(s: State, r: nat)
    requires Shape(s) && Enabled(s, Sample(r)) && r < N(s)
    ensures s.reps[r].seen in s.reps[r].log && N(Next(s, Sample(r))) == N(s)
    ensures Next(s, Sample(r)).reps[r] == Sampled(s.reps[r])
  {}

  lemma CommitBelow(s: State, ev: Event, a: nat, n: nat, r: nat)
    requires Shape(s) && Enabled(s, ev) && ev == CommitOne(r) && r < N(s) && RoomAt(s, r, n)
    ensures N(Next(s, ev)) == N(s) && RoomAt(Next(s, ev), r, n)
  {}

  lemma DecideBelow(s: State, ev: Event, a: nat, n: nat, c: nat)
    requires Waiting(s, a, n) && Shape(s) && Enabled(s, ev) && ev == Decide(c) && c != a && IsTerm(s, c)
    requires RoomAt(s, Pid(s, c), n)
    ensures N(Next(s, ev)) == N(s) && RoomAt(Next(s, ev), Pid(s, c), n)
  {
    hide Inv, Waiting, Next, Enabled, Shape, OpenAll, TermShape;
    WaitingShape(s, a, n);
    DecideChosen(s, c);
    if Leader(s, c).fuo == n {
      ElsewhereNotChosen(s, a, n, c, |s.terms[c].ops| - 1);
    }
    DecideMoves(s, c);
  }

  lemma DecideMoves(s: State, c: nat)
    requires Shape(s) && Enabled(s, Decide(c)) && IsTerm(s, c)
    ensures N(Next(s, Decide(c))) == N(s) && Next(s, Decide(c)).reps[Pid(s, c)] == Decided(Leader(s, c))
    ensures forall r :: 0 <= r < N(s) && r != Pid(s, c) ==> Next(s, Decide(c)).reps[r] == s.reps[r]
  {}

  lemma OtherReps(s: State, ev: Event, r: nat)
    requires Shape(s) && Enabled(s, ev) && (ev.Sample? || ev.CommitOne?) && r < N(s) && r != ev.r
    ensures N(Next(s, ev)) == N(s) && Next(s, ev).reps[r] == s.reps[r]
  {}

  lemma DecideTerm(s: State, c: nat)
    requires Shape(s) && Enabled(s, Decide(c))
    ensures IsTerm(s, c)
  {}

  lemma RoomAtStays(s: State, ev: Event, a: nat, n: nat, r: nat)
    requires Waiting(s, a, n) && Shape(s) && Enabled(s, ev) && ev != Decide(a)
    requires r < N(s) && r != Pid(s, a) && RoomAt(s, r, n)
    ensures r < N(Next(s, ev)) && RoomAt(Next(s, ev), r, n)
  {
    hide Inv, Waiting, Enabled, Next, Shape, OpenAll;
    if ev.Decide? {
      DecideTerm(s, ev.a);
      DecideMoves(s, ev.a);
      if Pid(s, ev.a) == r {
        DecideBelow(s, ev, a, n, ev.a);
      }
    } else if ev.Sample? {
      if ev.r == r { SampleBelow(s, ev, a, n, r); } else { OtherReps(s, ev, r); }
    } else if ev.CommitOne? {
      if ev.r == r { CommitBelow(s, ev, a, n, r); } else { OtherReps(s, ev, r); }
    } else {
      OthersStayPut(s, ev, r);
      forall m | m in Next(s, ev).reps[r].log ensures m <= n {
        NewEntryBelow(s, ev, a, n, r, m);
      }
    }
  }

  // ---------------------------------------------------------------------
  // Over whole runs
  // ---------------------------------------------------------------------

  /** The leader that asked found nothing, and if everybody lets it in there is room. */
  ghost predicate RoundRoom(g: Group) {
    GroupShape(g) && (g.round.Recycling? ==>
      && g.mu.terms[g.round.a].phase.Write? && g.mu.terms[g.round.a].phase.next.Fast?
      && (OpenAll(Shadow(g), g.round.a) ==> Room(Shadow(g), g.round.a, |g.round.values|)))
  }

  /** Whoever has started over owes its reply, or has sent it. */
  ghost predicate Served(g: Group) {
    GroupShape(g) && (g.round.Recycling? ==>
      forall r :: r in g.wiped && 0 <= r < N(g.mu) && r != Requestor(g) ==>
        g.owes[r].Some? || g.replies[Requestor(g)][r] + Modulo(g.mu) == g.reqNr[Requestor(g)])
  }

  lemma IsWaiting(g: Group)
    requires GroupInv(g) && RoundRoom(g) && g.round.Recycling? && OpenAll(Shadow(g), g.round.a)
    ensures Waiting(Shadow(g), g.round.a, |g.round.values|)
  {
    hide Inv, Positions, Replies, Owed, ValuesChosen, WipedOk, AtRest;
    assert Requested(g);
    InvHasShape(Shadow(g));
    hide Unwiped, Requested;
    assert TermShape(Shadow(g), g.round.a) by { hide TermShape; }
    forall b | 0 <= b < |Shadow(g).terms| ensures OpsAsk(Shadow(g), Some(g.round.a), b) {
      assert OpsAsk(g.mu, Asker(g), b);
    }
  }

  lemma StepKeepsRoom(g: Group, ev: Event)
    requires Acts(g, Step(ev)) && RoundRoom(g) && GroupInv(After(g, Step(ev))) && g.round.Recycling?
    ensures RoundRoom(After(g, Step(ev)))
  {
    hide Inv, Positions, Ledger, RoundOk, Enabled, Next, InRound, Plain, Waiting, Unwiped, Shape;
    var a, v := g.round.a, Shadow(g);
    MidRoundIs(g, ev);
    ShadowAfter(g, Step(ev));
    AskerWaits(g.mu, g.wiped, a, ev);
    ShadowShape(g);
    assert ev != Decide(a) && !ev.Grant?;
    var v' := Next(v, ev);
    if OpenAll(v', a) {
      OpenBefore(v, ev, a);
      IsWaiting(g);
      RoomStays(v, ev, a, |g.round.values|);
    }
  }

  lemma ShadowShape(g: Group)
    requires GroupInv(g)
    ensures Shape(Shadow(g)) && Inv(Shadow(g)) && Shadow(g).terms == g.mu.terms && N(Shadow(g)) == N(g.mu)
  {
    hide Positions, Ledger, RoundOk;
    InvHasShape(Shadow(g));
  }

  lemma OpenBefore(s: State, ev: Event, a: nat)
    requires Shape(s) && Enabled(s, ev) && !ev.Grant? && a < |s.terms| && Inv(s)
    requires a < |Next(s, ev).terms| && OpenAll(Next(s, ev), a)
    ensures OpenAll(s, a) && N(Next(s, ev)) == N(s) && Pid(Next(s, ev), a) == Pid(s, a)
  {
    hide Enabled, Next, Answers, Ordered, Writes, Logs, Running;
    StepGrows(s, ev);
    assert TermGrows(s, Next(s, ev), a);
    forall r | 0 <= r < N(s) ensures Open(s, a, r) {
      HolderStays(s, ev, r);
      assert Open(Next(s, ev), a, r);
    }
  }

  lemma RoomStays(s: State, ev: Event, a: nat, n: nat)
    requires a < |s.terms| && Waiting(s, a, n) && Shape(s) && Enabled(s, ev) && ev != Decide(a) && Room(s, a, n)
    requires a < |Next(s, ev).terms| && Pid(Next(s, ev), a) == Pid(s, a) && N(Next(s, ev)) == N(s)
    ensures Room(Next(s, ev), a, n)
  {
    hide Waiting, Enabled, Next, Shape, RoomAt;
    forall r | 0 <= r < N(s) && r != Pid(s, a) ensures RoomAt(Next(s, ev), r, n) {
      RoomAtStays(s, ev, a, n, r);
    }
  }

  lemma RequestKeepsRoom(g: Group, a: nat)
    requires Acts(g, PostRequest(a)) && GroupInv(After(g, PostRequest(a)))
    ensures RoundRoom(After(g, PostRequest(a)))
  {
    hide Inv, Positions, Ledger, RoundOk, Enabled, Next, Unwiped, Room;
    var g', v := After(g, PostRequest(a)), RequestOf(g, a);
    ShadowAfter(g, PostRequest(a));
    ShadowShape(g);
    ShadowShape(g');
    RequestEffect(g.mu, a, v);
    FastNext(g.mu, a, v);
    if OpenAll(Shadow(g'), a) {
      SameHolders(g.mu, Shadow(g'), a);
      RoomAtRequest(g.mu, a, v);
    }
  }

  lemma SameHolders(s: State, s': State, a: nat)
    requires a < |s.terms| && a < |s'.terms| && N(s') == N(s) && s'.terms[a].tok == s.terms[a].tok && OpenAll(s', a)
    requires forall r :: 0 <= r < N(s) ==> s'.reps[r].holder == s.reps[r].holder
    ensures OpenAll(s, a)
  {
    forall r | 0 <= r < N(s) ensures Open(s, a, r) {
      assert Open(s', a, r);
    }
  }

  lemma FastNext(s: State, a: nat, v: Value)
    requires Shape(s) && Enabled(s, PostNew(a, v))
    ensures a < |Next(s, PostNew(a, v)).terms|
    ensures Next(s, PostNew(a, v)).terms[a].phase.Write? && Next(s, PostNew(a, v)).terms[a].phase.next.Fast?
  {}

  lemma KeepsRoom(g: Group, ac: Action)
    requires Acts(g, ac) && RoundRoom(g) && GroupInv(After(g, ac))
    ensures RoundRoom(After(g, ac))
  {
    hide Inv, Positions, Ledger, RoundOk, Enabled, Next, Unwiped, Room, OpenAll, Shape;
    match ac
    case Step(ev) =>
      if g.round.Recycling? {
        StepKeepsRoom(g, ev);
      }
    case PostRequest(a) => RequestKeepsRoom(g, a);
    case EndWait =>
    case _ => ShadowAfter(g, ac);
  }

  lemma StepKeepsServed(g: Group, ac: Action)
    requires Acts(g, ac) && Served(g) && GroupInv(After(g, ac))
    ensures Served(After(g, ac))
  {
    hide Inv, Positions, AtRest, ValuesChosen, WipedOk, Replies, Enabled, Next, Unwiped, RequestSeen, LastAcked;
    var g' := After(g, ac);
    IdsAfter(g, ac);
    SameModulo(g.mu, g'.mu);
    match ac
    case Step(ev) =>
      if g.round.Recycling? {
        LagStays(g, ac);
      }
    case PostRequest(a) => RequestChosen(g, a);
    case EndWait =>
    case RestartFollower(r) => SeenIsAsked(g, r);
    case _ =>
  }

  lemma {:induction false} RunServed(groups: seq<Group>, actions: seq<Action>, i: nat)
    requires IsGroupRun(groups, actions) && i < |groups|
    ensures GroupInv(groups[i]) && RoundRoom(groups[i]) && Served(groups[i])
  {
    hide GroupInv, RoundRoom, Served, Acts, After;
    GroupRunInv(groups, actions, i);
    if i == 0 {
      StartsServed(groups[0]);
    } else {
      RunServed(groups, actions, i - 1);
      RunActs(groups, actions, i - 1);
      KeepsRoom(groups[i - 1], actions[i - 1]);
      StepKeepsServed(groups[i - 1], actions[i - 1]);
    }
  }

  lemma StartsServed(g: Group)
    requires GroupInit(g)
    ensures RoundRoom(g) && Served(g)
  {}
}
