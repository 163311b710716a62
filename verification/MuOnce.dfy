// Mu: nothing handed over twice.

module MuOnce {
  // No command is handed over twice: what callers propose once sits in one slot of one
  // generation of the log, and no replica gives it to the commit handler twice.

  import opened MuModel
  import opened MuHistory
  import opened MuElection
  import opened MuSafety
  import opened MuPhases
  import opened MuPositions
  import opened MuRecycling
  import opened MuWiped
  import opened MuRounds
  import opened MuRoundSteps
  import opened MuRoundActions
  import opened MuRequests
  import opened MuGenerations
  import MuValidity

  predicate AtMostOnce(vs: seq<Value>, v: Value) {
    forall i, j :: 0 <= i < j < |vs| ==> !(vs[i] == v && vs[j] == v)
  }

  predicate Hands(ac: Action, v: Value) {
    ac.Step? && MuValidity.OwnWrite(ac.ev, v)
  }

  predicate HandsBefore(actions: seq<Action>, i: nat, v: Value)
    requires i <= |actions|
  {
    exists j :: 0 <= j < i && Hands(actions[j], v)
  }

  /** Callers propose v once at most. */
  predicate ProposedOnce(actions: seq<Action>, v: Value) {
    forall i :: 0 <= i < |actions| && Hands(actions[i], v) ==> !HandsBefore(actions, i, v)
  }

  // ---------------------------------------------------------------------
  // In one slot
  // ---------------------------------------------------------------------

  /** The k-th write of term a puts v into a slot. */
  predicate Puts(s: State, a: nat, k: nat, v: Value) {
    a < |s.terms| && k < |s.terms[a].ops| && s.terms[a].ops[k].Put? && s.terms[a].ops[k].entry.val == v
  }

  ghost predicate Unwritten(s: State, v: Value) {
    forall a: nat, k: nat :: !Puts(s, a, k, v)
  }

  ghost predicate OnlyIn(s: State, v: Value, slot: nat) {
    forall a: nat, k: nat :: Puts(s, a, k, v) ==> s.terms[a].ops[k].slot == slot
  }

  ghost predicate InOneSlot(s: State, v: Value) {
    exists slot :: OnlyIn(s, v, slot)
  }

  lemma UnwrittenInAny(s: State, v: Value, slot: nat)
    requires Unwritten(s, v)
    ensures OnlyIn(s, v, slot)
  {}

  /** A write that was there before, or the one just posted. */
  lemma PutsBefore(s: State, ev: Event, a: nat, k: nat, v: Value)
    requires Shape(s) && Enabled(s, ev) && Puts(Next(s, ev), a, k, v)
    ensures (Puts(s, a, k, v) && s.terms[a].ops[k] == Next(s, ev).terms[a].ops[k])
         || (IsPost(ev) && PostedBy(ev) == a && Next(s, ev).terms[a].ops[k] == PostedOp(s, ev))
  {
    hide Enabled, Next, Shape, PostedOp;
    OpsAfter(s, ev, a);
  }

  /** Adopting writes nothing new, and leaves it in its slot. */
  lemma AdoptedInSlot(s: State, a: nat, e: Entry, slot: nat)
    requires Inv(s) && Enabled(s, PostAdopted(a, e)) && OnlyIn(s, e.val, slot)
    ensures PostedOp(s, PostAdopted(a, e)).slot == slot && !Unwritten(s, e.val)
  {
    hide Inv;
    MuValidity.AdoptedIsWritten(s, a, e);
    var j :| 0 <= j < |s.terms[e.term].ops| && s.terms[e.term].ops[j] == Put(Leader(s, a).fuo, e);
    assert Puts(s, e.term, j, e.val);
  }

  lemma PutsAfter(s: State, ev: Event, v: Value, slot: nat)
    requires Inv(s) && Enabled(s, ev) && OnlyIn(s, v, slot) && !MuValidity.OwnWrite(ev, v)
    ensures OnlyIn(Next(s, ev), v, slot)
    ensures Unwritten(s, v) ==> Unwritten(Next(s, ev), v)
  {
    hide Inv, Next, Enabled, PostedOp;
    MuValidity.ShapeOf(s);
    forall a: nat, k: nat | Puts(Next(s, ev), a, k, v)
      ensures Next(s, ev).terms[a].ops[k].slot == slot && !Unwritten(s, v)
    {
      PutsBefore(s, ev, a, k, v);
      if !Puts(s, a, k, v) || s.terms[a].ops[k] != Next(s, ev).terms[a].ops[k] {
        PostedIsAdopted(s, ev, v);
        AdoptedInSlot(s, ev.a, ev.e, slot);
      }
    }
  }

  lemma PostedIsAdopted(s: State, ev: Event, v: Value)
    requires Shape(s) && Enabled(s, ev) && IsPost(ev) && PostedOp(s, ev).Put? && PostedOp(s, ev).entry.val == v
    requires !MuValidity.OwnWrite(ev, v)
    ensures ev.PostAdopted? && ev.e.val == v
  {
    hide Enabled;
  }

  /** The first time it is written. */
  lemma FirstPut(s: State, ev: Event, v: Value)
    requires Inv(s) && Enabled(s, ev) && Unwritten(s, v)
    ensures InOneSlot(Next(s, ev), v)
  {
    hide Inv, Next, Enabled, PostedOp;
    MuValidity.ShapeOf(s);
    var slot: nat := if IsPost(ev) && PostedOp(s, ev).Put? then PostedOp(s, ev).slot else 0;
    forall a: nat, k: nat | Puts(Next(s, ev), a, k, v)
      ensures Next(s, ev).terms[a].ops[k].slot == slot
    {
      PutsBefore(s, ev, a, k, v);
    }
    assert OnlyIn(Next(s, ev), v, slot);
  }

  // ---------------------------------------------------------------------
  // In one generation
  // ---------------------------------------------------------------------

  /** What a replica has handed over in the generations that are over. */
  function Older(g: Group, r: nat): seq<Value>
    requires GroupShape(g) && r < N(g.mu)
  {
    var mine := g.earlier[r];
    if r in g.wiped && |g.wiped[r].committed| <= |mine| then mine[..|mine| - |g.wiped[r].committed|] else mine
  }

  ghost predicate OlderOk(g: Group, r: nat, v: Value)
    requires GroupShape(g) && r < N(g.mu)
  {
    && g.earlier[r] == Older(g, r) + (if r in g.wiped then g.wiped[r].committed else [])
    && AtMostOnce(Older(g, r), v) && (v in Older(g, r) ==> v in g.past)
  }

  /** v is in one slot of this generation, or was decided in an earlier one. */
  ghost predicate Placed(g: Group, v: Value, proposed: bool)
    requires GroupShape(g)
  {
    && (!proposed ==> Unwritten(Shadow(g), v) && v !in g.past)
    && InOneSlot(Shadow(g), v)
    && (v in g.past ==> Unwritten(Shadow(g), v))
    && forall r: nat :: r < N(g.mu) ==> OlderOk(g, r, v)
  }

  lemma StartPlaced(g: Group, v: Value)
    requires GroupInit(g)
    ensures GroupShape(g) && Placed(g, v, false)
  {
    UnwrittenInAny(Shadow(g), v, 0);
  }

  /** Nobody's past changes but by the end of a round. */
  lemma OlderStays(g: Group, ac: Action, v: Value)
    requires Acts(g, ac) && GroupInv(After(g, ac)) && !ac.EndWait? && forall r: nat :: r < N(g.mu) ==> OlderOk(g, r, v)
    ensures After(g, ac).past == g.past && N(After(g, ac).mu) == N(g.mu)
    ensures forall r: nat :: r < N(g.mu) ==> OlderOk(After(g, ac), r, v)
  {
    hide Inv, Positions, RoundOk, Ledger, Ready, Undisturbed, After;
    if ac.PostRequest? {
      AskStays(g, ac.a);
    } else {
      EarlierAfter(g, ac);
    }
    var g' := After(g, ac);
    forall r: nat | r < N(g.mu) ensures OlderOk(g', r, v) {
      assert OlderOk(g, r, v);
      assert Older(g', r) == Older(g, r);
    }
  }

  lemma AskStays(g: Group, a: nat)
    requires Acts(g, PostRequest(a)) && GroupInv(After(g, PostRequest(a)))
    ensures var g' := After(g, PostRequest(a));
            && IsTerm(g.mu, a) && GroupShape(g') && N(g'.mu) == N(g.mu) && g'.past == g.past
            && g'.earlier == g.earlier && g.wiped == g'.wiped == map[]
  {
    hide Inv, Positions, Ledger, Enabled, Next, Unwiped, RoundOk, NothingRead;
    AskedFromNormal(g, a);
    RequestReady(g, a);
    RequestEffect(g.mu, a, RequestOf(g, a));
  }

  /** The end of the wait: what was decided is past, and nothing is written yet. */
  lemma EndUnwritten(g: Group, v: Value)
    requires Acts(g, EndWait) && GroupInv(After(g, EndWait))
    ensures Unwritten(Shadow(After(g, EndWait)), v) && After(g, EndWait).past == g.past + g.round.values
    ensures After(g, EndWait).wiped == map[] && After(g, EndWait).earlier == g.earlier
        && N(After(g, EndWait).mu) == N(g.mu)
  {
    hide Inv, Positions, Ledger, RoundOk;
    var g' := After(g, EndWait);
    UnwipedNothing(g'.mu);
    forall a: nat, k: nat ensures !Puts(Shadow(g'), a, k, v) {
      assert a < |g'.mu.terms| ==> g'.mu.terms[a].ops == [];
    }
  }

  /** A value decided in this generation has been written to that slot. */
  lemma ValueIsPut(g: Group, k: nat)
    requires GroupInv(g) && g.round.Recycling? && k < |g.round.values|
    ensures !Unwritten(Shadow(g), g.round.values[k])
    ensures forall slot :: OnlyIn(Shadow(g), g.round.values[k], slot) ==> slot == k
  {
    hide Inv, Positions, Ledger, AtRest, Requested;
    ShadowShape(g);
    assert ValuesChosen(g);
    ChosenIsPut(Shadow(g), k, g.round.values[k]);
  }

  lemma ShadowShape(g: Group)
    requires GroupInv(g)
    ensures Shape(Shadow(g))
  {}

  lemma ChosenIsPut(s: State, slot: nat, v: Value)
    requires Shape(s) && Chosen(s, slot, v)
    ensures !Unwritten(s, v) && forall j :: OnlyIn(s, v, j) ==> j == slot
  {
    var a: nat, k: nat :| ChosenBy(s, a, k) && s.terms[a].ops[k].slot == slot && s.terms[a].ops[k].entry.val == v;
    assert Puts(s, a, k, v);
  }

  lemma ValuesOnce(g: Group, v: Value)
    requires GroupInv(g) && g.round.Recycling? && InOneSlot(Shadow(g), v)
    ensures AtMostOnce(g.round.values, v)
    ensures v in g.round.values ==> !Unwritten(Shadow(g), v)
  {
    hide Inv, Positions, RoundOk, Ledger, OnlyIn, Unwritten;
    var slot :| OnlyIn(Shadow(g), v, slot);
    forall i | 0 <= i < |g.round.values| && g.round.values[i] == v ensures i == slot && !Unwritten(Shadow(g), v) {
      ValueIsPut(g, i);
    }
  }

  /** Whoever has started over had committed what is decided, or all but the last of it. */
  lemma WipedIsPrefix(g: Group, r: nat)
    requires GroupInv(g) && g.round.Recycling? && r < N(g.mu) && r in g.wiped
    ensures g.wiped[r].committed <= g.round.values
  {
    hide Inv, Positions, Ledger, AtRest, ValuesChosen;
    if r == Requestor(g) {
      LeaderCommitted(g);
      assert Shadow(g).reps[r].committed == g.wiped[r].committed;
    }
  }

  lemma EndPlaced(g: Group, v: Value, proposed: bool)
    requires Acts(g, EndWait) && GroupInv(After(g, EndWait)) && Placed(g, v, proposed)
    ensures Placed(After(g, EndWait), v, proposed)
  {
    hide Inv, Positions, RoundOk, Ledger, After, OnlyIn, Unwritten, Undisturbed;
    var g' := After(g, EndWait);
    EndUnwritten(g, v);
    ValuesOnce(g, v);
    WaitedForAll(g);
    UnwrittenInAny(Shadow(g'), v, 0);
    forall r: nat | r < N(g'.mu) ensures OlderOk(g', r, v) {
      assert OlderOk(g, r, v);
      WipedIsPrefix(g, r);
      assert Older(g', r) == Older(g, r) + g.wiped[r].committed;
    }
  }

  lemma StepPlaced(g: Group, ac: Action, v: Value, proposed: bool)
    requires Acts(g, ac) && GroupInv(After(g, ac)) && !ac.EndWait? && Placed(g, v, proposed) && v.Value?
    requires Hands(ac, v) ==> !proposed
    ensures Placed(After(g, ac), v, proposed || Hands(ac, v))
  {
    hide Inv, Positions, RoundOk, Ledger, After, Ready, Undisturbed, Unwritten, OlderOk, OnlyIn, Enabled, Next;
    OlderStays(g, ac, v);
    ShadowAfter(g, ac);
    ShadowInv(g);
    if ac.Step? && Hands(ac, v) {
      FirstPut(Shadow(g), ac.ev, v);
    } else {
      var slot :| OnlyIn(Shadow(g), v, slot);
      if ac.Step? {
        PutsAfter(Shadow(g), ac.ev, v, slot);
      } else if ac.PostRequest? {
        AskStays(g, ac.a);
        PutsAfter(Shadow(g), PostNew(ac.a, RequestOf(g, ac.a)), v, slot);
      }
    }
  }

  lemma ShadowInv(g: Group)
    requires GroupInv(g)
    ensures Inv(Shadow(g))
  {}

  lemma {:induction false} RunPlaced(groups: seq<Group>, actions: seq<Action>, i: nat, v: Value)
    requires IsGroupRun(groups, actions) && i < |groups| && v.Value? && ProposedOnce(actions, v)
    ensures GroupInv(groups[i]) && Placed(groups[i], v, HandsBefore(actions, i, v))
  {
    hide Inv, Positions, RoundOk, Ledger, Placed, After, MuValidity.OwnWrite;
    GroupRunInv(groups, actions, i);
    if i == 0 {
      StartPlaced(groups[0], v);
    } else {
      RunPlaced(groups, actions, i - 1, v);
      RunActs(groups, actions, i - 1);
      var g, ac, before := groups[i - 1], actions[i - 1], HandsBefore(actions, i - 1, v);
      assert HandsBefore(actions, i, v) == (before || Hands(ac, v));
      if ac.EndWait? {
        EndPlaced(g, v, before);
      } else {
        StepPlaced(g, ac, v, before);
      }
    }
  }

  // ---------------------------------------------------------------------
  // Handed over once
  // ---------------------------------------------------------------------

  /** What was handed over in earlier generations, then what the protocol says was
      committed in this one. */
  lemma HandedParts(g: Group, r: nat, v: Value)
    requires GroupInv(g) && r < N(g.mu) && OlderOk(g, r, v)
    ensures Handed(g, r) == Older(g, r) + Shadow(g).reps[r].committed
  {
    hide Inv, Positions, Ledger, RoundOk;
    RealPosition(g, r);
    if r in g.wiped {
      assert g.mu.reps[r].committed == [];
      assert Shadow(g).reps[r].committed == g.wiped[r].committed;
    }
  }

  lemma CommittedIsPut(s: State, r: nat, k: nat)
    requires Inv(s) && r < N(s) && k < |s.reps[r].committed|
    ensures !Unwritten(s, s.reps[r].committed[k])
    ensures forall slot :: OnlyIn(s, s.reps[r].committed[k], slot) ==> slot == k
  {
    hide Tokens, Answers, Ordered, Writes, Logs, RunOk, Unwritten, OnlyIn;
    assert RepOk(s, r);
    ChosenIsPut(s, k, s.reps[r].committed[k]);
  }

  /** HANDED OVER ONCE.  Over any number of generations: what callers propose at most
      once, no replica hands to the commit handler more than once. */
  lemma HandedOnce(groups: seq<Group>, actions: seq<Action>, i: nat, r: nat, v: Value)
    requires IsGroupRun(groups, actions) && v.Value? && ProposedOnce(actions, v)
    requires i < |groups| && r < |groups[i].mu.reps|
    ensures GroupShape(groups[i]) && AtMostOnce(Handed(groups[i], r), v)
  {
    hide Inv, Positions, Ledger, RoundOk, Unwritten, OnlyIn, ProposedOnce;
    RunPlaced(groups, actions, i, v);
    var g := groups[i];
    assert OlderOk(g, r, v);
    HandedParts(g, r, v);
    var older, committed := Older(g, r), Shadow(g).reps[r].committed;
    var slot :| OnlyIn(Shadow(g), v, slot);
    forall k | 0 <= k < |committed| && committed[k] == v ensures k == slot && v !in older {
      CommittedIsPut(Shadow(g), r, k);
    }
    assert forall k :: 0 <= k < |older| ==> older[k] in older;
  }
}
