// Mu: generations begin well.

module MuRounds {
  // The invariant of the protocol with recycling: in every generation of the log the
  // protocol's own invariant holds, read with the logs that have been wiped in the
  // round under way.

  import opened Options
  import opened MuModel
  import opened MuHistory
  import opened MuElection
  import opened MuSafety
  import opened MuPhases
  import opened MuAgreement
  import opened MuPositions
  import opened MuRecycling
  import opened MuWiped
  import opened MuRequests

  // ---------------------------------------------------------------------
  // The invariant
  // ---------------------------------------------------------------------

  function Asker(g: Group): Option<nat> {
    if g.round.Recycling? then Some(g.round.a) else None
  }

  /** The request is the leader's last write, and asks for the slots below its own. */
  ghost predicate Requested(g: Group)
    requires GroupShape(g) && g.round.Recycling?
  {
    var t := g.mu.terms[g.round.a];
    var n := |g.round.values|;
    && t.phase.Write?
    && |t.ops| > 0 && t.ops[|t.ops| - 1].Put? && t.ops[|t.ops| - 1].slot == n
    && t.ops[|t.ops| - 1].entry.val == Recycle(Requestor(g), g.round.id, n)
    && g.mu.reps[Requestor(g)].holder == Some(t.tok)
    && g.round.id > 0 && g.reqNr[Requestor(g)] == g.round.id + Modulo(g.mu)
    && (Requestor(g) in g.wiped <==> g.round.restarted)
  }

  /** What is decided below the request, in the eyes of the protocol. */
  ghost predicate ValuesChosen(g: Group)
    requires GroupShape(g) && g.round.Recycling? && Shape(Shadow(g))
  {
    forall k :: 0 <= k < |g.round.values| ==> Chosen(Shadow(g), k, g.round.values[k])
  }

  /** Followers that have started over had committed all of it. */
  ghost predicate WipedOk(g: Group)
    requires GroupShape(g) && g.round.Recycling?
  {
    forall r :: r in g.wiped && r != Requestor(g) ==> g.wiped[r].committed == g.round.values
  }

  ghost predicate RoundOk(g: Group)
    requires GroupShape(g) && Shape(Shadow(g))
  {
    if g.round.Normal? then g.wiped == map[]
    else AtRest(g.mu, g.wiped, g.round.a) && Requested(g) && ValuesChosen(g) && WipedOk(g)
  }

  /** A word of p's scratchpad holds nothing, or the number of an earlier request, or
      of this one from somebody who has started over. */
  predicate ReplyOk(g: Group, p: nat, r: nat)
    requires GroupShape(g) && p < N(g.mu) && r < N(g.mu)
  {
    || g.replies[p][r] == 0
    || g.replies[p][r] + Modulo(g.mu) < g.reqNr[p]
    || (g.replies[p][r] + Modulo(g.mu) == g.reqNr[p]
        && (g.round.Recycling? && Requestor(g) == p ==> r in g.wiped && g.owes[r].None?))
  }

  ghost predicate Replies(g: Group)
    requires GroupShape(g)
  {
    && (forall p :: 0 <= p < N(g.mu) ==> g.reqNr[p] > 0)
    && (forall p, r :: 0 <= p < N(g.mu) && 0 <= r < N(g.mu) ==> ReplyOk(g, p, r))
  }

  /** Replies are owed for this round's request only. */
  ghost predicate Owed(g: Group)
    requires GroupShape(g)
  {
    forall r :: 0 <= r < N(g.mu) && g.owes[r].Some? ==>
      g.round.Recycling? && r in g.wiped && r != Requestor(g) && g.owes[r].value == Ticket(Requestor(g), g.round.id)
  }

  ghost predicate Ledger(g: Group)
    requires GroupShape(g)
  {
    Replies(g) && Owed(g) && Unasked(g.mu, Asker(g))
  }

  ghost predicate GroupInv(g: Group) {
    && GroupShape(g) && Inv(Shadow(g)) && Positions(Shadow(g)) && RoundOk(g) && Ledger(g)
  }

  // ---------------------------------------------------------------------
  // The start of a generation
  // ---------------------------------------------------------------------

  /** All logs are empty, nothing is under way and nobody is in a call; permissions,
      proposal and request numbers are whatever they have become. */
  ghost predicate Begins(s: State) {
    && Shape(s) && Tokens(s) && Answers(s)
    && (forall r :: 0 <= r < N(s) ==> s.reps[r] == Restarted(s.reps[r]) && NumberOf(s, r, s.reps[r].propNr))
    && (forall b :: 0 <= b < |s.terms| ==> NothingDone(s, b))
  }

  predicate NothingDone(s: State, b: nat)
    requires b < |s.terms|
  {
    && s.terms[b].ops == [] && s.terms[b].touched == {} && !s.terms[b].phase.Busy()
    && (s.terms[b].phase.Fast? ==> IsTerm(s, b) && !Own(s, b))
  }

  lemma BeginsWrites(s: State)
    requires Begins(s)
    ensures Writes(s)
  {
    hide Tokens, Answers, Multiple, Max, NumberOf, Own;
    forall b | 0 <= b < |s.terms| ensures TermOk(s, b) {
      assert NothingDone(s, b) && TermShape(s, b);
    }
    forall b | 0 <= b < |s.terms| ensures s.terms[b].ops == [] {
      assert NothingDone(s, b);
    }
  }

  lemma BeginsLogs(s: State)
    requires Begins(s)
    ensures Ordered(s) && Logs(s)
  {
    hide Tokens, Answers, NumberOf, Own, Vouched;
    forall b | 0 <= b < |s.terms| ensures s.terms[b].touched == {} && s.terms[b].ops == [] {
      assert NothingDone(s, b);
    }
    forall b, r | 0 <= b < |s.terms| && 0 <= r < N(s) && IsTerm(s, b) ensures s.terms[b].done[r] == 0 {
      assert NothingDone(s, b);
    }
    forall r: nat | r < N(s) ensures LogOk(s, r) {
      assert s.reps[r] == Restarted(s.reps[r]);
    }
  }

  lemma BeginsRunning(s: State)
    requires Begins(s)
    ensures Running(s)
  {
    hide Tokens, Answers, NumberOf;
    forall b | 0 <= b < |s.terms| ensures RunOk(s, b) && !s.terms[b].phase.Busy() {
      assert NothingDone(s, b) && TermShape(s, b);
      assert s.reps[Pid(s, b)] == Restarted(s.reps[Pid(s, b)]);
    }
    forall r: nat | r < N(s) ensures RepOk(s, r) {
      assert s.reps[r] == Restarted(s.reps[r]);
    }
  }

  /** The protocol's invariant holds at the start of any generation. */
  lemma BeginsInv(s: State)
    requires Begins(s)
    ensures Inv(s) && Positions(s)
  {
    BeginsWrites(s);
    BeginsLogs(s);
    BeginsRunning(s);
    assert forall r :: 0 <= r < N(s) ==> s.reps[r] == Restarted(s.reps[r]);
  }

  lemma InitBegins(s: State)
    requires Init(s)
    ensures Begins(s)
  {
    InitInv(s);
    forall r | 0 <= r < N(s) ensures s.reps[r] == Restarted(s.reps[r]) {
      assert s.reps[r] == InitReplica(|s.ids|, s.ids[r]);
    }
  }
}
