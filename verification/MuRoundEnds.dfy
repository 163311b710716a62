// Mu: rounds can end.

module MuRoundEnds {
  // A round of log recycling can end if and only if everybody lets the leader in that
  // posted the request: then every follower can get all of the leader's writes, find
  // the request, commit what is below it, start over and reply.

  import opened Options
  import opened Quorums
  import opened MuModel
  import opened MuHistory
  import opened MuElection
  import opened MuSafety
  import opened MuLogs
  import opened MuPhases
  import opened MuQuietSteps
  import opened MuAgreement
  import opened MuPositions
  import opened MuRecycling
  import opened MuWiped
  import opened MuRequests
  import opened MuRounds
  import opened MuRoundSteps
  import opened MuRoundActions
  import opened MuGenerations
  import opened MuProgress
  import opened MuRoundRoom

  // ---------------------------------------------------------------------
  // Pieces of runs
  // ---------------------------------------------------------------------

  /** A piece of a run in which nothing disturbs the round. */
  predicate IsGroupPiece(groups: seq<Group>, actions: seq<Action>) {
    |groups| == |actions| + 1 && forall i :: 0 <= i < |actions| ==> ActionAt(groups, actions, i)
  }

  ghost predicate Leads(g: Group, g': Group) {
    exists groups, actions ::
      IsGroupPiece(groups, actions) && |groups| == |actions| + 1 && groups[0] == g && groups[|actions|] == g'
  }

  lemma LeadsSelf(g: Group)
    ensures Leads(g, g)
  {
    hide GroupShape, Ready, After;
    assert IsGroupPiece([g], []) && [g][0] == g;
  }

  lemma LeadsByStep(g: Group, ac: Action)
    requires GroupShape(g) && Ready(g, ac) && Undisturbed(g, ac)
    ensures Leads(g, After(g, ac))
  {
    hide GroupShape, Ready, After;
    var groups, actions := [g, After(g, ac)], [ac];
    assert IsGroupPiece(groups, actions) && groups[0] == g && groups[|actions|] == After(g, ac);
  }

  /** A round of term a, which everybody lets in. */
  ghost predicate Live(g: Group, a: nat) {
    && GroupInv(g) && RoundRoom(g) && Served(g)
    && g.round.Recycling? && g.round.a == a && a < |g.mu.terms| && OpenAll(g.mu, a)
  }

  /** The same round of the same leader; nobody un-restarts. */
  predicate SameRound(g: Group, g': Group) {
    && N(g'.mu) == N(g.mu) && g'.past == g.past && g.wiped.Keys <= g'.wiped.Keys
    && g.round.Recycling? && g'.round.Recycling? && g'.round.a == g.round.a
    && g'.round.values == g.round.values && (g.round.restarted ==> g'.round.restarted)
    && g.round.a < |g.mu.terms| && g.round.a < |g'.mu.terms| && Pid(g'.mu, g.round.a) == Pid(g.mu, g.round.a)
  }

  /** g' comes after g, in the same round. */
  ghost predicate Gets(g: Group, g': Group, a: nat) {
    Leads(g, g') && Live(g', a) && SameRound(g, g')
  }

  lemma LiveShape(g: Group, a: nat)
    requires Live(g, a)
    ensures GroupShape(g) && Shape(g.mu) && GroupInv(g) && g.round.Recycling? && g.round.a == a && IsTerm(g.mu, a)
    ensures Shape(Shadow(g)) && Inv(Shadow(g)) && RoundRoom(g) && Served(g)
  {
    hide RoundRoom, Served, Inv, Positions, Ledger, RoundOk, OpenAll;
    ShadowShape(g);
    hide Shape, Unwiped;
    assert IsTerm(g.mu, a);
  }

  lemma GetsSelf(g: Group, a: nat)
    requires Live(g, a)
    ensures Gets(g, g, a)
  {
    hide Live;
    LiveShape(g, a);
    LeadsSelf(g);
  }

  lemma LeadsAlso(g: Group, g1: Group, g2: Group)
    requires Leads(g, g1) && Leads(g1, g2)
    ensures Leads(g, g2)
  {
    hide GroupShape, Ready, After;
    var trace1, steps1 :| IsGroupPiece(trace1, steps1) && |trace1| == |steps1| + 1 && trace1[0] == g
        && trace1[|steps1|] == g1;
    var trace2, steps2 :| IsGroupPiece(trace2, steps2) && |trace2| == |steps2| + 1 && trace2[0] == g1
        && trace2[|steps2|] == g2;
    var groups, actions := JoinPieces(trace1, steps1, trace2, steps2);
  }

  lemma JoinPieces(trace1: seq<Group>, steps1: seq<Action>, trace2: seq<Group>, steps2: seq<Action>)
    returns (groups: seq<Group>, actions: seq<Action>)
    requires IsGroupPiece(trace1, steps1) && IsGroupPiece(trace2, steps2) && |trace1| == |steps1| + 1
        && |trace2| == |steps2| + 1
    requires trace1[|steps1|] == trace2[0]
    ensures IsGroupPiece(groups, actions) && |groups| == |actions| + 1 && groups[0] == trace1[0]
    ensures groups[|actions|] == trace2[|steps2|] && actions == steps1 + steps2
  {
    hide GroupShape, Ready, After;
    groups, actions := trace1 + trace2[1..], steps1 + steps2;
    forall i | 0 <= i < |actions| ensures ActionAt(groups, actions, i) {
      if i < |steps1| {
        assert ActionAt(trace1, steps1, i);
      } else {
        assert ActionAt(trace2, steps2, i - |steps1|);
      }
    }
  }

  lemma GetsAlso(g: Group, g1: Group, g2: Group, a: nat)
    requires Gets(g, g1, a) && Gets(g1, g2, a)
    ensures Gets(g, g2, a)
  {
    hide Leads, Live;
    LeadsAlso(g, g1, g2);
  }

  lemma GetsStep(g: Group, ac: Action, a: nat)
    requires Live(g, a) && GroupShape(g) && Ready(g, ac) && Undisturbed(g, ac) && !ac.EndWait?
    ensures Gets(g, After(g, ac), a)
  {
    hide GroupInv, RoundRoom, Served, Leads, OpenAll, GroupShape, Ready, After;
    LeadsByStep(g, ac);
    LiveShape(g, a);
    ActionKeepsGroup(g, ac);
    KeepsRoom(g, ac);
    StepKeepsServed(g, ac);
    LagStays(g, ac);
    OpenStays(g, ac, a);
    RoundStays(g, ac, a);
  }

  lemma RoundStays(g: Group, ac: Action, a: nat)
    requires Live(g, a) && Acts(g, ac) && GroupInv(After(g, ac)) && !ac.EndWait?
    ensures var g' := After(g, ac);
            && N(g'.mu) == N(g.mu) && g'.past == g.past && g.wiped.Keys <= g'.wiped.Keys
            && g'.round.Recycling? && g'.round.a == a && (g.round.restarted ==> g'.round.restarted)
  {
    hide Inv, Positions, Ledger, RoundOk, RoundRoom, Served, OpenAll, RequestSeen, LastAcked, Unwiped;
    if ac.Step? {
      hide Enabled, Next;
      MidRoundIs(g, ac.ev);
    }
  }

  lemma OpenStays(g: Group, ac: Action, a: nat)
    requires Live(g, a) && Acts(g, ac) && GroupInv(After(g, ac)) && !ac.EndWait?
    ensures a < |After(g, ac).mu.terms| && OpenAll(After(g, ac).mu, a)
  {
    hide Inv, Positions, Ledger, RoundOk, RoundRoom, Served, RequestSeen, LastAcked, Unwiped;
    var s, s' := g.mu, After(g, ac).mu;
    if ac.Step? {
      hide Enabled, Next;
      MidRoundIs(g, ac.ev);
      assert TermGrows(s, s', a);
      forall r | 0 <= r < N(s') ensures Open(s', a, r) {
        HolderStays(s, ac.ev, r);
        assert Open(s, a, r);
      }
    } else {
      forall r | 0 <= r < N(s') ensures Open(s', a, r) {
        assert Open(s, a, r);
      }
    }
  }

  // ---------------------------------------------------------------------
  // A follower starts over
  // ---------------------------------------------------------------------

  /** Replica r follows, has no call running, and has not started over. */
  predicate IsFree(g: Group, a: nat, r: nat) {
    && a < |g.mu.terms| && r < N(g.mu) && r != Pid(g.mu, a) && r !in g.wiped
    && NoCalls(g.mu, r, |g.mu.terms|)
  }

  lemma TermThere(g: Group, a: nat, c: nat)
    requires Live(g, a) && c < |g.mu.terms|
    ensures IsTerm(g.mu, c)
  {
    hide Live, GroupInv, GroupShape;
    LiveShape(g, a);
  }

  lemma RepThere(g: Group, a: nat, r: nat)
    requires Live(g, a) && r < N(g.mu)
    ensures IsRep(g.mu, r) && a < |g.mu.terms| && Open(g.mu, a, r)
  {
    hide GroupInv, GroupShape, RoundRoom, Served, TermShape;
    LiveShape(g, a);
  }

  lemma AbortReady(g: Group, a: nat, c: nat)
    requires GroupShape(g) && g.round.Recycling? && g.round.a == a && IsTerm(g.mu, c) && c != a
    ensures Ready(g, Step(Abort(c))) && Undisturbed(g, Step(Abort(c)))
    ensures After(g, Step(Abort(c))) == g.(mu := SetPhase(g.mu, c, Dead))
  {}

  lemma GivesOneUp(g: Group, a: nat, c: nat)
    requires Live(g, a) && a < |g.mu.terms| && c < |g.mu.terms| && c != a
    ensures GroupShape(g) && Ready(g, Step(Abort(c))) && Gets(g, After(g, Step(Abort(c))), a)
    ensures After(g, Step(Abort(c))) == g.(mu := SetPhase(g.mu, c, Dead))
  {
    hide Live, Gets, GroupShape, Ready, After, TermShape;
    LiveShape(g, a);
    TermThere(g, a, c);
    AbortReady(g, a, c);
    GetsStep(g, Step(Abort(c)), a);
  }

  /** The calls of r among the first n terms are over. */
  predicate NoCalls(s: State, r: nat, n: nat) {
    forall c :: 0 <= c < n && c < |s.terms| && s.terms[c].tok.pid == r ==> !s.terms[c].phase.Busy()
  }

  /** Its calls are given up. */
  lemma {:induction false} GivesUp(g: Group, a: nat, r: nat, n: nat) returns (g': Group)
    requires Live(g, a) && a < |g.mu.terms| && r < N(g.mu) && r != Pid(g.mu, a) && n <= |g.mu.terms|
    ensures Gets(g, g', a) && g'.wiped == g.wiped && |g'.mu.terms| == |g.mu.terms| && Pid(g'.mu, a) == Pid(g.mu, a)
    ensures NoCalls(g'.mu, r, n)
  {
    hide Live, Gets, GroupShape, Ready, After, TermShape;
    if n == 0 {
      g' := g;
      GetsSelf(g, a);
    } else {
      var g1 := GivesUp(g, a, r, n - 1);
      g' := g1;
      if g1.mu.terms[n - 1].tok.pid == r && g1.mu.terms[n - 1].phase.Busy() {
        assert Live(g1, a) by { GetsLive(g, g1, a); }
        GivesOneUp(g1, a, n - 1);
        g' := g1.(mu := SetPhase(g1.mu, n - 1, Dead));
        GetsAlso(g, g1, g', a);
      }
    }
  }

  lemma GetsLive(g: Group, g': Group, a: nat)
    requires Gets(g, g', a)
    ensures Live(g', a) && SameRound(g, g')
  {
    hide Live, Leads;
  }

  lemma DeliverReady(g: Group, a: nat, r: nat)
    requires GroupShape(g) && IsTerm(g.mu, a) && r < N(g.mu) && r != Pid(g.mu, a) && Open(g.mu, a, r)
    requires g.mu.terms[a].done[r] < |g.mu.terms[a].ops|
    ensures Ready(g, Step(Deliver(a, r))) && Undisturbed(g, Step(Deliver(a, r)))
    ensures After(g, Step(Deliver(a, r))) == g.(mu := Delivered(g.mu, a, r))
  {}

  lemma DeliveredIs(s: State, a: nat, r: nat)
    requires Reaches(s, a, r) && s.terms[a].done[r] < |s.terms[a].ops|
    ensures var s' := Delivered(s, a, r);
            && |s'.terms| == |s.terms| && N(s') == N(s) && Pid(s', a) == Pid(s, a)
            && (forall c :: 0 <= c < |s.terms| ==>
                  s'.terms[c].tok == s.terms[c].tok && s'.terms[c].phase == s.terms[c].phase)
            && s'.terms[a].ops == s.terms[a].ops && s'.terms[a].done == s.terms[a].done[r := s.terms[a].done[r] + 1]
  {}

  /** Everything the leader has written arrives. */
  lemma {:induction false} Receives(g: Group, a: nat, r: nat) returns (g': Group)
    requires Live(g, a) && IsFree(g, a, r) && IsTerm(g.mu, a)
    ensures Gets(g, g', a) && IsFree(g', a, r) && IsTerm(g'.mu, a) && g'.mu.terms[a].done[r] == |g'.mu.terms[a].ops|
    decreases |g.mu.terms[a].ops| - g.mu.terms[a].done[r]
  {
    hide Live, Gets, GroupShape, Ready, After, Delivered;
    if g.mu.terms[a].done[r] == |g.mu.terms[a].ops| {
      g' := g;
      GetsSelf(g, a);
    } else {
      LiveShape(g, a);
      RepThere(g, a, r);
      DeliverReady(g, a, r);
      GetsStep(g, Step(Deliver(a, r)), a);
      var g1 := After(g, Step(Deliver(a, r)));
      DeliveredIs(g.mu, a, r);
      GetsLive(g, g1, a);
      TermThere(g1, a, a);
      g' := Receives(g1, a, r);
      GetsAlso(g, g1, g', a);
    }
  }

  /** Whoever has received all of it finds the request in its slot, and everything below. */
  lemma RequestThere(s: State, a: nat, n: nat, r: nat)
    requires Waiting(s, a, n) && Shape(s) && r < N(s) && s.terms[a].done[r] == |s.terms[a].ops|
    ensures n in s.reps[r].log && s.reps[r].log[n].val.Recycle?
    ensures forall j :: 0 <= j <= n ==> j in s.reps[r].log
  {
    LatestHere(s, a, n, r);
    BelowHere(s, r, n);
    var e := s.reps[r].log[n];
    if Vouched(s, n, e) {
      var c, k := SettledByChosen(s, r, n);
      if c != a {
        ElsewhereNotChosen(s, a, n, c, k);
      } else {
        OnlyRequestAt(s, a, n, k);
      }
    } else {
      var k := EntryOfTerm(s, a, n, r);
      OnlyRequestAt(s, a, n, k);
    }
  }

  lemma BelowHere(s: State, r: nat, n: nat)
    requires Inv(s) && Shape(s) && r < N(s) && n in s.reps[r].log
    ensures forall j :: 0 <= j <= n ==> j in s.reps[r].log
  {
    hide Tokens, Answers, Ordered, Writes, Running, Vouched, Origin, Latest, MinOk;
    assert LogOk(s, r) && NoHoles(s, r);
    forall j | 0 <= j <= n ensures j in s.reps[r].log {
      if j < n {
        assert Settled(s, r, j);
      }
    }
  }

  lemma LatestHere(s: State, a: nat, n: nat, r: nat)
    requires Waiting(s, a, n) && Shape(s) && r < N(s) && s.terms[a].done[r] == |s.terms[a].ops|
    ensures n in s.reps[r].log && (s.reps[r].log[n].term >= a || Vouched(s, n, s.reps[r].log[n]))
  {
    hide Tokens, Answers, Ordered, Writes, Running, Vouched, Origin, NoHoles, MinOk;
    assert LogOk(s, r) && Latest(s, r, a);
  }

  /** An entry that a later leadership wrote would have come from somebody let in here. */
  lemma EntryOfTerm(s: State, a: nat, n: nat, r: nat) returns (k: nat)
    requires Waiting(s, a, n) && Shape(s) && r < N(s) && n in s.reps[r].log && s.reps[r].log[n].term >= a
    ensures k < |s.terms[a].ops| && s.terms[a].ops[k] == Put(n, s.reps[r].log[n])
  {
    OriginHere(s, r, n);
    var e := s.reps[r].log[n];
    if e.term > a {
      var x :| e.term <= x < |s.terms| && r in s.terms[x].touched;
      LaterIsShut(s, a, x, r);
    }
    k :| 0 <= k < |s.terms[e.term].ops| && s.terms[e.term].ops[k] == Put(n, e);
  }

  lemma OriginHere(s: State, r: nat, n: nat)
    requires Inv(s) && Shape(s) && r < N(s) && n in s.reps[r].log
    ensures Origin(s, r, n)
  {
    hide Tokens, Answers, Ordered, Writes, Running, Origin, Latest, NoHoles, MinOk;
    assert LogOk(s, r);
  }

  lemma OnlyRequestAt(s: State, a: nat, n: nat, k: nat)
    requires Waiting(s, a, n) && Shape(s) && k < |s.terms[a].ops| && s.terms[a].ops[k].Put?
        && s.terms[a].ops[k].slot == n
    ensures k == |s.terms[a].ops| - 1 && s.terms[a].ops[k].entry.val.Recycle?
  {
    hide Tokens, Answers, Ordered, Logs, Running;
    assert TermOk(s, a) && OpsOrdered(s, a);
  }

  /** The protocol sees the same permissions. */
  lemma ShadowOpen(g: Group, a: nat)
    requires Live(g, a)
    ensures Shape(Shadow(g)) && IsTerm(Shadow(g), a) && OpenAll(Shadow(g), a)
  {
    hide GroupInv, RoundRoom, Served, Shape;
    LiveShape(g, a);
    forall r | 0 <= r < N(g.mu) ensures Open(Shadow(g), a, r) {
      assert Open(g.mu, a, r);
    }
  }

  lemma LiveWaits(g: Group, a: nat)
    requires Live(g, a)
    ensures Waiting(Shadow(g), a, |g.round.values|) && Shape(Shadow(g)) && Positions(Shadow(g))
    ensures Room(Shadow(g), a, |g.round.values|)
  {
    hide Live, Inv, Positions, Ledger, RoundOk, Waiting, Unwiped, Room, OpenAll, Served;
    LiveShape(g, a);
    ShadowOpen(g, a);
    IsWaiting(g);
  }

  /** A follower that has received everything: the request lies in its slot, with nothing
      missing below it, and nothing to be committed beyond. */
  predicate HasAll(s: State, r: nat, n: nat) {
    && IsRep(s, r) && !BusyAt(s, r) && !Leading(s, r)
    && n in s.reps[r].log && s.reps[r].log[n].val.Recycle? && s.reps[r].log[n].fuo == n
    && (forall j :: 0 <= j <= n ==> j in s.reps[r].log)
    && s.reps[r].target <= n && PosOk(s.reps[r])
  }

  lemma NotLeading(g: Group, a: nat, r: nat)
    requires Live(g, a) && IsFree(g, a, r)
    ensures IsRep(g.mu, r) && !BusyAt(g.mu, r) && !Leading(g.mu, r)
  {
    hide Live, GroupInv, GroupShape;
    RepThere(g, a, r);
    LiveShape(g, a);
    DistinctTokens(g);
  }

  lemma FollowerHasAll(g: Group, a: nat, r: nat)
    requires Live(g, a) && IsFree(g, a, r) && IsTerm(g.mu, a) && g.mu.terms[a].done[r] == |g.mu.terms[a].ops|
    ensures HasAll(g.mu, r, |g.round.values|)
  {
    hide Live, Inv, Shape, Waiting, PosOk, Unwiped, TermShape, Leading, BusyAt;
    LiveShape(g, a);
    var v, n := Shadow(g), |g.round.values|;
    NotLeading(g, a, r);
    LiveWaits(g, a);
    WaitingShape(v, a, n);
    RequestThere(v, a, n, r);
    EmbeddedHere(v, r, n);
    assert RoomAt(v, r, n);
  }

  lemma EmbeddedHere(s: State, r: nat, slot: nat)
    requires Inv(s) && Shape(s) && r < N(s) && slot in s.reps[r].log
    ensures s.reps[r].log[slot].fuo == slot
  {
    hide Tokens, Answers, Ordered, Running;
    EmbeddedIsSlot(s, r, slot);
  }

  lemma SampleReady(g: Group, r: nat)
    requires GroupShape(g) && IsRep(g.mu, r) && !BusyAt(g.mu, r) && !Leading(g.mu, r) && CaughtUp(g.mu.reps[r])
    requires g.mu.reps[r].seen in g.mu.reps[r].log
    ensures Ready(g, Step(Sample(r))) && Undisturbed(g, Step(Sample(r)))
    ensures After(g, Step(Sample(r))) == g.(mu := SetRep(g.mu, r, Sampled(g.mu.reps[r])))
  {}

  lemma CommitReady(g: Group, r: nat)
    requires GroupShape(g) && IsRep(g.mu, r) && |g.mu.reps[r].committed| < g.mu.reps[r].target
    requires |g.mu.reps[r].committed| in g.mu.reps[r].log
    ensures Ready(g, Step(CommitOne(r))) && Undisturbed(g, Step(CommitOne(r)))
    ensures After(g, Step(CommitOne(r))) == g.(mu := SetRep(g.mu, r, OneMoreCommitted(g.mu.reps[r])))
  {}

  lemma SeenAll(s: State, r: nat, n: nat)
    requires Shape(s) && HasAll(s, r, n) && CaughtUp(s.reps[r]) && s.reps[r].seen > n
    ensures RequestSeen(s, r)
  {}

  lemma SamplesOne(g: Group, a: nat, r: nat)
    requires IsRep(g.mu, r) && !BusyAt(g.mu, r) && !Leading(g.mu, r) && CaughtUp(g.mu.reps[r])
    requires g.mu.reps[r].seen in g.mu.reps[r].log && Live(g, a)
    ensures Gets(g, g.(mu := SetRep(g.mu, r, Sampled(g.mu.reps[r]))), a)
  {
    hide Live, Gets, GroupShape, Shape, Ready, After, BusyAt, Leading;
    LiveShape(g, a);
    SampleReady(g, r);
    GetsStep(g, Step(Sample(r)), a);
  }

  lemma CommitsOne(g: Group, a: nat, r: nat)
    requires IsRep(g.mu, r) && |g.mu.reps[r].committed| < g.mu.reps[r].target
    requires |g.mu.reps[r].committed| in g.mu.reps[r].log && Live(g, a)
    ensures Gets(g, g.(mu := SetRep(g.mu, r, OneMoreCommitted(g.mu.reps[r]))), a)
  {
    hide Live, Gets, GroupShape, Shape, Ready, After;
    LiveShape(g, a);
    CommitReady(g, r);
    GetsStep(g, Step(CommitOne(r)), a);
  }

  lemma HasNext(s: State, r: nat, n: nat)
    requires HasAll(s, r, n)
    ensures IsRep(s, r) && !BusyAt(s, r) && !Leading(s, r) && s.reps[r].seen <= n + 1
    ensures s.reps[r].seen <= n ==> s.reps[r].seen in s.reps[r].log
    ensures !CaughtUp(s.reps[r]) ==> |s.reps[r].committed| in s.reps[r].log
  {
    hide BusyAt, Leading;
  }

  /** It commits, and looks on, until it has seen the request and committed up to it. */
  lemma {:induction false} LooksOn(g: Group, a: nat, r: nat) returns (g': Group)
    requires Live(g, a) && IsFree(g, a, r) && IsTerm(g.mu, a) && g.mu.terms[a].done[r] == |g.mu.terms[a].ops|
    ensures Gets(g, g', a) && Shape(g'.mu) && RequestSeen(g'.mu, r)
    decreases |g.round.values| + 1 - g.mu.reps[r].seen, g.mu.reps[r].target - |g.mu.reps[r].committed|
  {
    hide Live, Gets, GroupShape, Shape, HasAll, TermShape, RequestSeen, BusyAt, Leading;
    LiveShape(g, a);
    var s, n := g.mu, |g.round.values|;
    FollowerHasAll(g, a, r);
    HasNext(s, r, n);
    if CaughtUp(s.reps[r]) && s.reps[r].seen > n {
      g' := g;
      GetsSelf(g, a);
      SeenAll(s, r, n);
    } else {
      var g1;
      if CaughtUp(s.reps[r]) {
        SamplesOne(g, a, r);
        g1 := g.(mu := SetRep(s, r, Sampled(s.reps[r])));
      } else {
        CommitsOne(g, a, r);
        g1 := g.(mu := SetRep(s, r, OneMoreCommitted(s.reps[r])));
      }
      GetsLive(g, g1, a);
      TermThere(g1, a, a);
      g' := LooksOn(g1, a, r);
      GetsLive(g1, g', a);
      LiveShape(g', a);
      GetsAlso(g, g1, g', a);
    }
  }

  lemma RestartReady(g: Group, r: nat)
    requires GroupShape(g) && RequestSeen(g.mu, r)
    ensures r < N(g.mu) && Ready(g, RestartFollower(r)) && Undisturbed(g, RestartFollower(r))
    ensures r in After(g, RestartFollower(r)).wiped
  {}

  /** From wherever it is, it can go on to start over. */
  lemma StartsOver(g: Group, a: nat, r: nat) returns (g': Group)
    requires Live(g, a) && a < |g.mu.terms| && r < N(g.mu) && r != Pid(g.mu, a)
    ensures Gets(g, g', a) && r in g'.wiped
  {
    hide Live, Gets, GroupShape, Shape, Ready, After, RequestSeen, TermShape;
    if r in g.wiped {
      g' := g;
      GetsSelf(g, a);
    } else {
      var g1 := GivesUp(g, a, r, |g.mu.terms|);
      GetsLive(g, g1, a);
      TermThere(g1, a, a);
      var g2 := Receives(g1, a, r);
      GetsLive(g1, g2, a);
      GetsAlso(g, g1, g2, a);
      var g3 := LooksOn(g2, a, r);
      GetsLive(g2, g3, a);
      GetsAlso(g, g2, g3, a);
      LiveShape(g3, a);
      RestartReady(g3, r);
      GetsStep(g3, RestartFollower(r), a);
      g' := After(g3, RestartFollower(r));
      GetsAlso(g, g3, g', a);
    }
  }

  // ---------------------------------------------------------------------
  // Everybody starts over and replies
  // ---------------------------------------------------------------------

  /** The followers among 0 .. n-1 have started over. */
  predicate AllOver(g: Group, a: nat, n: nat) {
    a < |g.mu.terms| && forall r :: 0 <= r < n && r < N(g.mu) && r != Pid(g.mu, a) ==> r in g.wiped
  }

  lemma OverStays(g: Group, g': Group, a: nat, n: nat)
    requires AllOver(g, a, n) && Gets(g, g', a)
    ensures AllOver(g', a, n)
  {
    hide Leads;
  }

  lemma {:induction false} AllStartOver(g: Group, a: nat, n: nat) returns (g': Group)
    requires Live(g, a) && a < |g.mu.terms| && n <= N(g.mu)
    ensures Gets(g, g', a) && AllOver(g', a, n) && N(g'.mu) == N(g.mu)
  {
    hide Live, Leads;
    if n == 0 {
      g' := g;
      GetsSelf(g, a);
      NoneOver(g, a);
    } else {
      var g1 := AllStartOver(g, a, n - 1);
      g' := g1;
      if n - 1 != Pid(g1.mu, a) {
        g' := StartsOver(g1, a, n - 1);
        OverStays(g1, g', a, n - 1);
        GetsAlso(g, g1, g', a);
      }
      OneMoreOver(g', a, n - 1);
    }
  }

  lemma NoneOver(g: Group, a: nat)
    requires a < |g.mu.terms|
    ensures AllOver(g, a, 0)
  {}

  lemma OneMoreOver(g: Group, a: nat, n: nat)
    requires AllOver(g, a, n) && (n < N(g.mu) ==> n == Pid(g.mu, a) || n in g.wiped)
    ensures AllOver(g, a, n + 1)
  {}

  /** Then the leader's last write has arrived everywhere. */
  lemma AllArrived(g: Group, a: nat)
    requires Live(g, a) && AllOver(g, a, N(g.mu))
    ensures IsTerm(g.mu, a) && Shape(g.mu) && LastAcked(g.mu, a)
  {
    hide Live, Inv, Positions, Ledger, LastAcked, ValuesChosen, WipedOk, Shape, Unwiped, RoundRoom, Served;
    LiveShape(g, a);
    assert Requested(g) && AtRest(g.mu, g.wiped, a);
    forall r | r in Remotes(g.mu, Pid(g.mu, a)) ensures g.mu.terms[a].done[r] == |g.mu.terms[a].ops| {
      assert RestsAt(g.mu, a, r);
    }
    assert Behind(g.mu, a) == {};
    LastAckedIff(g.mu, a);
  }

  lemma RestartLeaderReady(g: Group)
    requires GroupShape(g) && g.round.Recycling? && !g.round.restarted && LastAcked(g.mu, g.round.a)
    ensures Ready(g, RestartLeader) && Undisturbed(g, RestartLeader)
    ensures After(g, RestartLeader).round.Recycling? && After(g, RestartLeader).round.restarted
  {}

  lemma LeaderStartsOver(g: Group, a: nat) returns (g': Group)
    requires Live(g, a) && AllOver(g, a, N(g.mu))
    ensures Gets(g, g', a) && AllOver(g', a, N(g'.mu)) && g'.round.Recycling? && g'.round.restarted
  {
    hide Live, GroupShape, Shape, TermShape, Ready, After, LastAcked, Leads, AllOver;
    LiveShape(g, a);
    if g.round.restarted {
      g' := g;
      GetsSelf(g, a);
    } else {
      AllArrived(g, a);
      RestartLeaderReady(g);
      GetsStep(g, RestartLeader, a);
      g' := After(g, RestartLeader);
    }
    OverStays(g, g', a, N(g.mu));
  }

  lemma ReplyReady(g: Group, a: nat, r: nat)
    requires Live(g, a) && r < N(g.mu) && r < |g.owes| && g.owes[r].Some?
    ensures GroupShape(g) && Ready(g, Reply(r)) && Undisturbed(g, Reply(r))
    ensures After(g, Reply(r)).owes == g.owes[r := None] && After(g, Reply(r)).round == g.round
  {
    hide Live, Inv, Positions, Unasked, Replies, RoundOk, Shape, RoundRoom, Served;
    LiveShape(g, a);
    assert Owed(g);
  }

  /** Replicas 0 .. n-1 owe no reply, and everybody has started over. */
  predicate AllPaid(g: Group, a: nat, n: nat) {
    && AllOver(g, a, N(g.mu)) && g.round.Recycling? && g.round.restarted && |g.owes| == N(g.mu)
    && forall r :: 0 <= r < n && r < |g.owes| ==> g.owes[r].None?
  }

  lemma {:induction false} AllReply(g: Group, a: nat, n: nat) returns (g': Group)
    requires Live(g, a) && AllPaid(g, a, 0) && n <= N(g.mu)
    ensures Gets(g, g', a) && AllPaid(g', a, n) && N(g'.mu) == N(g.mu)
  {
    hide Live, Leads, AllOver, GroupShape, Ready, After;
    if n == 0 {
      g' := g;
      GetsSelf(g, a);
    } else {
      var g1 := AllReply(g, a, n - 1);
      g' := g1;
      if g1.owes[n - 1].Some? {
        ReplyReady(g1, a, n - 1);
        GetsStep(g1, Reply(n - 1), a);
        g' := After(g1, Reply(n - 1));
        OverStays(g1, g', a, N(g1.mu));
        GetsAlso(g, g1, g', a);
      }
    }
  }

  lemma EndReady(g: Group, a: nat)
    requires Live(g, a) && AllPaid(g, a, N(g.mu))
    ensures GroupShape(g) && Ready(g, EndWait) && Undisturbed(g, EndWait)
    ensures g.round.Recycling? && After(g, EndWait).round.Normal? && After(g, EndWait).past == g.past + g.round.values
  {
    hide Live, Inv, Positions, Ledger, RoundOk, Shape, RoundRoom;
    LiveShape(g, a);
  }

  // ---------------------------------------------------------------------
  // The round ends
  // ---------------------------------------------------------------------

  lemma RunIsLive(groups: seq<Group>, actions: seq<Action>, i: nat)
    requires IsGroupRun(groups, actions) && i < |groups| && GroupShape(groups[i]) && groups[i].round.Recycling?
    requires OpenAll(groups[i].mu, groups[i].round.a)
    ensures Live(groups[i], groups[i].round.a)
  {
    hide GroupInv, RoundRoom, Served, OpenAll, Ready, After, Undisturbed;
    RunServed(groups, actions, i);
  }

  lemma AskerThere(g: Group)
    requires GroupShape(g) && g.round.Recycling?
    ensures g.round.a < |g.mu.terms|
  {
    hide Shape;
  }

  /** THE ROUND CAN END.  From every state of every run in which a recycling request is
      under way, if everybody lets the leader that posted it in, there is a way on by
      which everybody starts over and replies, and the generation ends with what was
      decided in it, whatever calls are running and whatever has not arrived yet. */
  lemma RoundCanEnd(groups: seq<Group>, actions: seq<Action>, i: nat)
    returns (groups': seq<Group>, actions': seq<Action>)
    requires IsGroupRun(groups, actions) && i < |groups| && GroupShape(groups[i]) && groups[i].round.Recycling?
    requires OpenAll(groups[i].mu, groups[i].round.a)
    ensures IsGroupPiece(groups', actions') && |groups'| == |actions'| + 1 && groups'[0] == groups[i]
    ensures |actions'| > 0 && actions'[|actions'| - 1] == EndWait && groups'[|actions'|].round.Normal?
    ensures groups'[|actions'|].past == groups[i].past + groups[i].round.values
  {
    hide GroupShape, Live, Leads, OpenAll, AllOver, Ready, After, IsGroupRun, Undisturbed;
    AskerThere(groups[i]);
    var g, a := groups[i], groups[i].round.a;
    RunIsLive(groups, actions, i);
    var g1 := AllStartOver(g, a, N(g.mu));
    GetsLive(g, g1, a);
    var g2 := LeaderStartsOver(g1, a);
    GetsAlso(g, g1, g2, a);
    GetsLive(g, g2, a);
    NonePaid(g2, a);
    var g3 := AllReply(g2, a, N(g2.mu));
    GetsAlso(g, g2, g3, a);
    GetsLive(g, g3, a);
    EndReady(g3, a);
    groups', actions' := EndsWith(g, g3);
  }

  lemma NonePaid(g: Group, a: nat)
    requires Live(g, a) && AllOver(g, a, N(g.mu)) && g.round.Recycling? && g.round.restarted
    ensures AllPaid(g, a, 0)
  {
    hide Live, AllOver;
    LiveShape(g, a);
  }

  lemma EndsWith(g: Group, g': Group) returns (groups: seq<Group>, actions: seq<Action>)
    requires Leads(g, g') && GroupShape(g') && Ready(g', EndWait)
    ensures IsGroupPiece(groups, actions) && |groups| == |actions| + 1 && groups[0] == g
    ensures |actions| > 0 && actions[|actions| - 1] == EndWait && groups[|actions|] == After(g', EndWait)
  {
    hide GroupShape, Ready, After;
    var trace, steps :| IsGroupPiece(trace, steps) && |trace| == |steps| + 1 && trace[0] == g && trace[|steps|] == g';
    LeadsByStep(g', EndWait);
    var one := [g', After(g', EndWait)];
    assert IsGroupPiece(one, [EndWait]);
    groups, actions := JoinPieces(trace, steps, one, [EndWait]);
  }

  /** Nobody replies to a leader that it does not let in. */
  lemma {:induction false} OpenIfEnds(groups: seq<Group>, actions: seq<Action>)
    requires IsGroupPiece(groups, actions) && |groups| == |actions| + 1 && |actions| > 0
    requires GroupInv(groups[0]) && groups[0].round.Recycling? && GroupShape(groups[0])
    requires EndWait in actions
    ensures OpenAll(groups[0].mu, groups[0].round.a)
  {
    hide GroupInv, GroupShape, Ready, After, Undisturbed;
    assert ActionAt(groups, actions, 0);
    if actions[0] == EndWait {
      EndIsOpen(groups[0]);
    } else {
      ActionKeepsGroup(groups[0], actions[0]);
      RoundGoesOn(groups[0], actions[0]);
      forall i | 0 <= i < |actions[1..]| ensures ActionAt(groups[1..], actions[1..], i) {
        assert ActionAt(groups, actions, i + 1);
      }
      OpenIfEnds(groups[1..], actions[1..]);
      OpenWasThere(groups[0], actions[0]);
    }
  }

  lemma EndIsOpen(g: Group)
    requires GroupInv(g) && GroupShape(g) && Ready(g, EndWait) && g.round.Recycling?
    ensures OpenAll(g.mu, g.round.a)
  {
    hide Inv, Positions, Ledger, Unwiped, ValuesChosen, WipedOk;
    WaitedForAll(g);
    forall r | 0 <= r < N(g.mu) ensures Open(g.mu, g.round.a, r) {
      assert RestsAt(g.mu, g.round.a, r);
    }
  }

  lemma RoundGoesOn(g: Group, ac: Action)
    requires Acts(g, ac) && GroupInv(After(g, ac)) && g.round.Recycling? && !ac.EndWait?
    ensures GroupShape(After(g, ac)) && After(g, ac).round.Recycling? && After(g, ac).round.a == g.round.a
    ensures g.round.a < |After(g, ac).mu.terms|
  {
    hide Inv, Positions, Ledger, RoundOk, RequestSeen, LastAcked, Unwiped, Enabled, Next;
  }

  lemma OpenWasThere(g: Group, ac: Action)
    requires Acts(g, ac) && GroupInv(After(g, ac)) && g.round.Recycling? && !ac.EndWait?
    requires g.round.a < |After(g, ac).mu.terms| && OpenAll(After(g, ac).mu, g.round.a)
    ensures g.round.a < |g.mu.terms| && OpenAll(g.mu, g.round.a)
  {
    hide Inv, Positions, Ledger, RoundOk, RequestSeen, LastAcked, Unwiped;
    var s, s', a := g.mu, After(g, ac).mu, g.round.a;
    if ac.Step? {
      hide Enabled, Next;
      MidRoundIs(g, ac.ev);
      assert TermGrows(s, s', a);
      forall r | 0 <= r < N(s) ensures Open(s, a, r) {
        HolderStays(s, ac.ev, r);
        assert Open(s', a, r);
      }
    } else {
      forall r | 0 <= r < N(s) ensures Open(s, a, r) {
        assert Open(s', a, r);
      }
    }
  }

  /** Some way on from g ends the wait. */
  ghost predicate CanEnd(g: Group) {
    exists groups, actions ::
      IsGroupPiece(groups, actions) && |groups| == |actions| + 1 && groups[0] == g && EndWait in actions
  }

  /** AND ONLY THEN.  An undisturbed round can end exactly if everybody lets the leader in. */
  lemma RoundCanEndIff(groups: seq<Group>, actions: seq<Action>, i: nat)
    requires IsGroupRun(groups, actions) && i < |groups| && GroupShape(groups[i]) && groups[i].round.Recycling?
    ensures CanEnd(groups[i]) <==> OpenAll(groups[i].mu, groups[i].round.a)
  {
    hide GroupInv, GroupShape, IsGroupRun, IsGroupPiece, OpenAll;
    GroupRunInv(groups, actions, i);
    AskerThere(groups[i]);
    if CanEnd(groups[i]) {
      var trace, steps :| IsGroupPiece(trace, steps) && |trace| == |steps| + 1 && trace[0] == groups[i]
          && EndWait in steps;
      OpenIfEnds(trace, steps);
    }
    if OpenAll(groups[i].mu, groups[i].round.a) {
      var trace, steps := RoundCanEnd(groups, actions, i);
      assert EndWait in steps;
    }
  }
}
