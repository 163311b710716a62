module MuAgreement {
  // The main results about Mu: they hold in every state of every run, for any
  // number of replicas, any leaders, retries and permission switches.

  import opened MuModel
  import opened MuHistory
  import opened MuElection
  import opened MuSafety
  import opened MuPhases
  import opened MuQuietSteps
  import opened MuLeaderSteps
  import opened MuPostSteps
  import opened MuDeliverSteps
  import opened MuDecideSteps

  lemma InitInv(s: State)
    requires Init(s)
    ensures Inv(s)
  {
    assert Shape(s) by {
      forall r | 0 <= r < N(s) ensures RepShape(s, r) {}
    }
    forall r: nat | r < N(s) ensures LogOk(s, r) && RepOk(s, r) {
      assert s.reps[r] == InitReplica(|s.ids|, s.ids[r]);
    }
    forall p: nat, r: nat | IsRep(s, p) && IsRep(s, r) ensures AnswerOk(s, p, r) {
      assert s.reps[p] == InitReplica(|s.ids|, s.ids[p]);
    }
    forall p: nat | p < N(s) ensures NumberOf(s, p, s.reps[p].propNr) {
      assert s.reps[p] == InitReplica(|s.ids|, s.ids[p]);
    }
  }

  lemma StepKeepsInv(s: State, ev: Event)
    requires Inv(s) && Enabled(s, ev)
    ensures Inv(Next(s, ev))
  {
    if IsElection(ev) {
      ElectionKeepsInv(s, ev);
    } else if IsQuiet(ev) {
      QuietStepKeepsInv(s, ev);
    } else if IsPost(ev) {
      PostKeepsInv(s, ev);
    } else {
      match ev
      case Start(p) => StartKeepsInv(s, p);
      case Decide(a) => DecideKeepsInv(s, a);
      case Deliver(a, r) => DeliverKeepsInv(s, a, r);
      case Sample(r) => FollowerKeepsInv(s, ev);
      case CommitOne(r) => FollowerKeepsInv(s, ev);
    }
  }

  lemma {:induction false} RunInv(states: seq<State>, events: seq<Event>, i: nat)
    requires IsRun(states, events) && i < |states|
    ensures Inv(states[i])
  {
    if i == 0 {
      InitInv(states[0]);
    } else {
      RunInv(states, events, i - 1);
      assert StepAt(states, events, i - 1);
      StepKeepsInv(states[i - 1], events[i - 1]);
    }
  }

  lemma GrowsAlso(s: State, s': State, s'': State)
    requires Grows(s, s') && Grows(s', s'')
    ensures Grows(s, s'')
  {
    forall a | 0 <= a < |s.terms| ensures TermGrows(s, s'', a) {
      assert TermGrows(s, s', a) && TermGrows(s', s'', a);
    }
  }

  lemma GrowsSelf(s: State)
    requires Shape(s)
    ensures Grows(s, s)
  {
    forall a | 0 <= a < |s.terms| ensures TermGrows(s, s, a) {
      assert TermShape(s, a);
    }
  }

  ghost predicate Extends(s: State, s': State) {
    Grows(s, s') && forall r :: 0 <= r < N(s) ==> s.reps[r].committed <= s'.reps[r].committed
  }

  lemma StepExtends(s: State, ev: Event)
    requires Inv(s) && Enabled(s, ev)
    ensures Extends(s, Next(s, ev))
  {
    StepGrows(s, ev);
    CommittedGrows(s, ev);
  }

  lemma ExtendsAlso(s: State, s': State, s'': State)
    requires Extends(s, s') && Extends(s', s'')
    ensures Extends(s, s'')
  {
    GrowsAlso(s, s', s'');
  }

  /** Later states of a run have grown out of earlier ones, commits included. */
  lemma {:induction false} RunGrows(states: seq<State>, events: seq<Event>, i: nat, j: nat)
    requires IsRun(states, events) && i <= j < |states|
    ensures Extends(states[i], states[j])
    decreases j
  {
    if i == j {
      RunInv(states, events, i);
      GrowsSelf(states[i]);
    } else {
      RunGrows(states, events, i, j - 1);
      RunStep(states, events, j - 1);
      ExtendsAlso(states[i], states[j - 1], states[j]);
    }
  }

  lemma RunStep(states: seq<State>, events: seq<Event>, i: nat)
    requires IsRun(states, events) && i < |events|
    ensures Extends(states[i], states[i + 1])
  {
    RunInv(states, events, i);
    assert StepAt(states, events, i);
    StepExtends(states[i], events[i]);
  }

  lemma CommittedGrows(s: State, ev: Event)
    requires Shape(s) && Enabled(s, ev)
    ensures N(Next(s, ev)) == N(s)
    ensures forall r :: 0 <= r < N(s) ==> s.reps[r].committed <= Next(s, ev).reps[r].committed
  {
    hide Next, Enabled;
    if IsElection(ev) {
      ElectionCommitsNothing(s, ev);
    } else {
      StaysSteady(s, ev);
    }
  }

  lemma ElectionCommitsNothing(s: State, ev: Event)
    requires Shape(s) && Enabled(s, ev) && IsElection(ev)
    ensures N(Next(s, ev)) == N(s)
    ensures forall r :: 0 <= r < N(s) ==> Next(s, ev).reps[r].committed == s.reps[r].committed
  {
    var s' := NextElection(s, ev);
  }

  /** AGREEMENT.  At no two instants of a run are two different values chosen for one slot. */
  lemma Agreement(states: seq<State>, events: seq<Event>, i: nat, j: nat, slot: nat, v: Value, w: Value)
    requires IsRun(states, events) && i < |states| && j < |states|
    requires Shape(states[i]) && Chosen(states[i], slot, v)
    requires Shape(states[j]) && Chosen(states[j], slot, w)
    ensures v == w
  {
    var last := if i <= j then j else i;
    RunGrows(states, events, i, last);
    RunGrows(states, events, j, last);
    RunInv(states, events, last);
    ChosenKept(states[i], states[last], slot, v);
    ChosenKept(states[j], states[last], slot, w);
    AgreementNow(states[last], slot, v, w);
  }

  /** STATE MACHINE SAFETY.  What any two replicas have handed to the commit
      handler, at any two instants of a run, is comparable: one is a prefix of
      the other. */
  lemma CommitsComparable(states: seq<State>, events: seq<Event>, i: nat, j: nat, p: nat, q: nat)
    requires IsRun(states, events) && i < |states| && j < |states|
    requires p < |states[i].reps| && q < |states[j].reps|
    ensures states[i].reps[p].committed <= states[j].reps[q].committed
         || states[j].reps[q].committed <= states[i].reps[p].committed
  {
    RunInv(states, events, i);
    RunInv(states, events, j);
    var c, d := states[i].reps[p].committed, states[j].reps[q].committed;
    assert RepOk(states[i], p) && RepOk(states[j], q);
    forall k | 0 <= k < |c| && k < |d| ensures c[k] == d[k] {
      Agreement(states, events, i, j, k, c[k], d[k]);
    }
  }

  /** Nothing is committed but chosen values, each in its slot. */
  lemma CommittedIsChosen(states: seq<State>, events: seq<Event>, i: nat, r: nat, k: nat)
    requires IsRun(states, events) && i < |states| && r < |states[i].reps| && k < |states[i].reps[r].committed|
    ensures Shape(states[i]) && Chosen(states[i], k, states[i].reps[r].committed[k])
  {
    RunInv(states, events, i);
    assert RepOk(states[i], r);
  }

  /** Below a populated slot a replica has no holes, and holds exactly the chosen
      values: this is what lets a follower commit up to an embedded offset. */
  lemma BelowPopulated(states: seq<State>, events: seq<Event>, i: nat, r: nat, slot: nat, k: nat)
    requires IsRun(states, events) && i < |states| && r < |states[i].reps|
    requires slot in states[i].reps[r].log && k < states[i].reps[r].log[slot].fuo
    ensures k in states[i].reps[r].log
    ensures Shape(states[i]) && Chosen(states[i], k, states[i].reps[r].log[k].val)
  {
    var s := states[i];
    RunInv(states, events, i);
    assert LogOk(s, r) && NoHoles(s, r);
    EmbeddedIsSlot(s, r, slot);
    assert Settled(s, r, k);
    SettledIsChosen(s, r, k);
  }

  /** The header never claims more than is chosen, in the replica's own log. */
  lemma BelowHeader(states: seq<State>, events: seq<Event>, i: nat, r: nat, k: nat)
    requires IsRun(states, events) && i < |states| && r < |states[i].reps|
    requires k < states[i].reps[r].fuo || k < states[i].reps[r].target
    ensures k in states[i].reps[r].log
    ensures Shape(states[i]) && Chosen(states[i], k, states[i].reps[r].log[k].val)
  {
    RunInv(states, events, i);
    assert RepOk(states[i], r) && Settled(states[i], r, k);
    SettledIsChosen(states[i], r, k);
  }

  /** SKIPPING PREPARE IS SAFE.  A value written on the fast path, without
      reading its slot from anybody, agrees with every value that an earlier
      leadership gets chosen for that slot, before the write or after it. */
  lemma FastPathSafe(states: seq<State>, events: seq<Event>, i: nat, a: nat, v: Value, j: nat, c: nat, k: nat)
    requires IsRun(states, events) && i < |events| && events[i] == PostFast(a, v)
    requires i < j < |states| && Shape(states[j]) && ChosenBy(states[j], c, k) && c < a
    requires a < |states[i].terms| && states[i].terms[a].tok.pid < |states[i].reps|
    requires states[j].terms[c].ops[k].slot == states[i].reps[states[i].terms[a].tok.pid].fuo
    ensures states[j].terms[c].ops[k].entry.val == v
  {
    var s := states[i];
    RunInv(states, events, i);
    RunInv(states, events, j);
    RunGrows(states, events, i + 1, j);
    assert StepAt(states, events, i);
    var n := |s.terms[a].ops|;
    FastPosts(s, a, v);
    OpsKept(states[i + 1], states[j], a, n);
    AckedMay(states[j], c, k);
    LaterAgrees(states[j], c, k, a, n);
  }

  lemma FastPosts(s: State, a: nat, v: Value)
    requires Inv(s) && Enabled(s, PostFast(a, v))
    ensures IsTerm(s, a) && a < |Next(s, PostFast(a, v)).terms|
    ensures Next(s, PostFast(a, v)).terms[a].ops == s.terms[a].ops + [PutOp(s, a, v, Leader(s, a).fuo)]
  {}

  /** The guards that keep the model well defined hold back no real step: what a
      leader still has to copy, and what a replica still has to commit, is there. */
  lemma NothingMissing(states: seq<State>, events: seq<Event>, i: nat, a: nat, r: nat)
    requires IsRun(states, events) && i < |states|
    ensures a < |states[i].terms| && states[i].terms[a].phase.Update? && r in states[i].terms[a].phase.upto
            && states[i].terms[a].tok.pid < |states[i].reps|
            && states[i].terms[a].phase.upto[r] < states[i].reps[states[i].terms[a].tok.pid].fuo
            ==> states[i].terms[a].phase.upto[r] in states[i].reps[states[i].terms[a].tok.pid].log
    ensures r < |states[i].reps| && |states[i].reps[r].committed| < states[i].reps[r].target
            ==> |states[i].reps[r].committed| in states[i].reps[r].log
  {
    var s := states[i];
    RunInv(states, events, i);
    if a < |s.terms| && s.terms[a].phase.Update? && r in s.terms[a].phase.upto && s.terms[a].tok.pid < |s.reps|
       && s.terms[a].phase.upto[r] < s.reps[s.terms[a].tok.pid].fuo {
      assert RepOk(s, s.terms[a].tok.pid) && Settled(s, s.terms[a].tok.pid, s.terms[a].phase.upto[r]);
    }
    if r < |s.reps| && |s.reps[r].committed| < s.reps[r].target {
      assert RepOk(s, r) && Settled(s, r, |s.reps[r].committed|);
    }
  }

  /** Accepted proposals are positive, so that the search for the freshest value,
      which starts from 0, overlooks none. */
  lemma ProposalsPositive(states: seq<State>, events: seq<Event>, i: nat, r: nat, slot: nat)
    requires IsRun(states, events) && i < |states| && r < |states[i].reps| && slot in states[i].reps[r].log
    ensures states[i].reps[r].log[slot].prop > 0
  {
    var s := states[i];
    RunInv(states, events, i);
    assert LogOk(s, r) && Origin(s, r, slot);
    var t := s.reps[r].log[slot].term;
    assert TermOk(s, t) && Numbered(s, t);
  }
}
