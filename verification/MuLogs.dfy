// The invariants on logs survive: a write arrives at one replica, or none does.

module MuLogs {
  import opened MuModel
  import opened MuHistory
  import opened MuSafety

  predicate SameDone(s: State, s': State, a: nat, q: nat) {
    IsTerm(s, a) && IsTerm(s', a) && q < N(s) && q < N(s') && s'.terms[a].done[q] == s.terms[a].done[q]
  }

  /** From s to s' exactly the k-th write of term b has arrived, at replica r. */
  ghost predicate Arrived(s: State, s': State, b: nat, k: nat, r: nat) {
    && Grows(s, s') && |s'.terms| == |s.terms|
    && IsTerm(s, b) && IsTerm(s', b) && r < N(s) && Open(s, b, r)
    && k == s.terms[b].done[r] && k < |s'.terms[b].ops| && s'.terms[b].done[r] == k + 1
    && r in s'.terms[b].touched
    && (forall a, q :: 0 <= a < |s.terms| && 0 <= q < N(s) && !(a == b && q == r) ==> SameDone(s, s', a, q))
    && s'.reps[r].log == Written(s.reps[r], r, s'.terms[b].ops[k]).log
    && s'.reps[r].minProp == Written(s.reps[r], r, s'.terms[b].ops[k]).minProp
    && (forall q :: 0 <= q < N(s) && q != r ==>
          s'.reps[q].log == s.reps[q].log && s'.reps[q].minProp == s.reps[q].minProp)
  }

  /** From s to s' no write has arrived anywhere. */
  ghost predicate NothingArrived(s: State, s': State) {
    && Grows(s, s')
    && (forall a, q :: 0 <= a < |s.terms| && 0 <= q < N(s) ==> SameDone(s, s', a, q))
    && (forall a, q :: |s.terms| <= a < |s'.terms| && IsTerm(s', a) && 0 <= q < |s'.terms[a].done| ==>
          s'.terms[a].done[q] == 0)
    && (forall q :: 0 <= q < N(s) ==> s'.reps[q].log == s.reps[q].log && s'.reps[q].minProp == s.reps[q].minProp)
  }

  /** op changes the log of replica r. */
  predicate Fills(op: Op, r: nat) {
    op.Put? || (op.Copy? && op.dst == r)
  }

  // ---------------------------------------------------------------------
  // A settled slot stays settled
  // ---------------------------------------------------------------------

  lemma PutKeepsVouched(s: State, s': State, b: nat, k: nat, slot: nat, old_: Entry)
    requires Grows(s, s') && Writes(s') && b < |s'.terms| && k < |s'.terms[b].ops|
    requires s'.terms[b].ops[k].Put? && s'.terms[b].ops[k].slot == slot
    requires Vouched(s, slot, old_) && old_.term <= b
    ensures Vouched(s', slot, s'.terms[b].ops[k].entry)
  {
    VouchedKept(s, s', slot, old_);
    var c: nat, kc: nat :| Vouches(s', c, kc, slot, old_);
    AckedMay(s', c, kc);
    LaterAgrees(s', c, kc, b, k);
    assert TermOk(s', b);
    assert Vouches(s', c, kc, slot, s'.terms[b].ops[k].entry);
  }

  lemma SettledKept(s: State, s': State, b: nat, k: nat, r: nat, q: nat, slot: nat)
    requires Arrived(s, s', b, k, r) && Ordered(s) && Logs(s) && Writes(s')
    requires q < N(s) && Settled(s, q, slot)
    ensures Settled(s', q, slot)
  {
    var op := s'.terms[b].ops[k];
    if q == r && Fills(op, r) && op.slot == slot {
      if op.Put? {
        EntriesNotNewer(s, b, r, slot);
        PutKeepsVouched(s, s', b, k, slot, s.reps[r].log[slot]);
      } else {
        assert TermOk(s', b) && CopyOk(s', b, slot, op.entry);
      }
    } else {
      VouchedKept(s, s', slot, s.reps[q].log[slot]);
    }
  }

  lemma SettledKeptQuietly(s: State, s': State, q: nat, slot: nat)
    requires NothingArrived(s, s') && q < N(s) && Settled(s, q, slot)
    ensures Settled(s', q, slot)
  {
    VouchedKept(s, s', slot, s.reps[q].log[slot]);
  }

  /** A write of a chosen value, or a catch-up copy, settles its slot. */
  lemma ArrivalSettles(s: State, s': State, b: nat, k: nat, r: nat)
    requires Arrived(s, s', b, k, r) && Writes(s')
    requires Fills(s'.terms[b].ops[k], r)
    requires s'.terms[b].ops[k].Put? ==> ChosenBy(s', b, k)
    ensures Settled(s', r, s'.terms[b].ops[k].slot)
  {
    var op := s'.terms[b].ops[k];
    assert TermOk(s', b);
    if op.Put? {
      assert Vouches(s', b, k, op.slot, op.entry);
    } else {
      assert CopyOk(s', b, op.slot, op.entry);
    }
  }

  // ---------------------------------------------------------------------
  // A write arrives
  // ---------------------------------------------------------------------

  lemma TouchedSinceKept(s: State, s': State, r: nat, a: nat)
    requires Grows(s, s') && TouchedSince(s, r, a)
    ensures TouchedSince(s', r, a)
  {
    var x :| a <= x < |s.terms| && r in s.terms[x].touched;
    assert TermGrows(s, s', x);
  }

  lemma OriginArrived(s: State, s': State, b: nat, k: nat, r: nat, q: nat, slot: nat)
    requires Arrived(s, s', b, k, r) && Logs(s) && Writes(s')
    requires q < N(s) && slot in s'.reps[q].log
    ensures Origin(s', q, slot)
  {
    var op := s'.terms[b].ops[k];
    if q == r && Fills(op, r) && op.slot == slot {
      assert TermOk(s', b);
      assert op.Copy? ==> CopyOk(s', b, slot, op.entry);
      assert TouchedSince(s', r, op.entry.term);
    } else {
      assert LogOk(s, q) && Origin(s, q, slot);
      HasPutKept(s, s', slot, s.reps[q].log[slot]);
      TouchedSinceKept(s, s', q, s.reps[q].log[slot].term);
    }
  }

  /** Nothing that a later term sent is at a replica that term b still reaches. */
  lemma LaterNotYet(s: State, s': State, b: nat, k: nat, r: nat, a: nat)
    requires Arrived(s, s', b, k, r) && Ordered(s) && b < a < |s.terms| && IsTerm(s, a) && IsTerm(s', a)
    ensures s'.terms[a].done[r] == 0
  {
    assert SameDone(s, s', a, r);
  }

  ghost predicate LatestAt(s: State, q: nat, a: nat, slot: nat)
    requires Shape(s) && q < N(s)
  {
    slot in s.reps[q].log && (s.reps[q].log[slot].term >= a || Vouched(s, slot, s.reps[q].log[slot]))
  }

  /** The arriving write itself is now the latest at its slot. */
  lemma LatestWritten(s: State, s': State, b: nat, k: nat, r: nat, a: nat)
    requires Arrived(s, s', b, k, r) && Writes(s') && a <= b
    requires Fills(s'.terms[b].ops[k], r)
    ensures LatestAt(s', r, a, s'.terms[b].ops[k].slot)
  {
    var op := s'.terms[b].ops[k];
    assert TermOk(s', b);
    assert op.Copy? ==> CopyOk(s', b, op.slot, op.entry);
  }

  lemma LatestElsewhere(s: State, s': State, q: nat, a: nat, slot: nat)
    requires Grows(s, s') && q < N(s) && LatestAt(s, q, a, slot)
    requires slot in s'.reps[q].log && s'.reps[q].log[slot] == s.reps[q].log[slot]
    ensures LatestAt(s', q, a, slot)
  {
    if Vouched(s, slot, s.reps[q].log[slot]) { VouchedKept(s, s', slot, s.reps[q].log[slot]); }
  }

  lemma LatestArrived(s: State, s': State, b: nat, k: nat, r: nat, q: nat, a: nat)
    requires Arrived(s, s', b, k, r) && Ordered(s) && Logs(s) && Writes(s')
    requires q < N(s) && a < |s.terms| && IsTerm(s, a) && IsTerm(s', a)
    ensures Latest(s', q, a)
  {
    var op := s'.terms[b].ops[k];
    if q == r && a > b { LaterNotYet(s, s', b, k, r, a); }
    assert LogOk(s, q) && Latest(s, q, a);
    forall j | 0 <= j < s'.terms[a].done[q] && s'.terms[a].ops[j].Put?
      ensures LatestAt(s', q, a, s'.terms[a].ops[j].slot)
    {
      var slot := s'.terms[a].ops[j].slot;
      if q == r && Fills(op, r) && op.slot == slot {
        LatestWritten(s, s', b, k, r, a);
      } else {
        LatestBefore(s, s', b, k, r, q, a, j);
        LatestElsewhere(s, s', q, a, slot);
      }
    }
  }

  /** A value write of term a other than the arriving one had arrived before. */
  lemma LatestBefore(s: State, s': State, b: nat, k: nat, r: nat, q: nat, a: nat, j: nat)
    requires Arrived(s, s', b, k, r) && Logs(s)
    requires q < N(s) && a < |s.terms| && IsTerm(s, a) && IsTerm(s', a) && j < s'.terms[a].done[q]
        && s'.terms[a].ops[j].Put?
    requires !(q == r && Fills(s'.terms[b].ops[k], r) && s'.terms[b].ops[k].slot == s'.terms[a].ops[j].slot)
    ensures LatestAt(s, q, a, s'.terms[a].ops[j].slot)
    ensures s'.terms[a].ops[j].slot in s'.reps[q].log
    ensures s'.reps[q].log[s'.terms[a].ops[j].slot] == s.reps[q].log[s'.terms[a].ops[j].slot]
  {
    assert j < s.terms[a].done[q] by {
      assert !(a == b && q == r) ==> SameDone(s, s', a, q);
    }
    OpsKept(s, s', a, j);
    assert LogOk(s, q) && Latest(s, q, a);
  }

  /** The arriving proposal is not below those that r had and that may still complete. */
  lemma MinWritten(s: State, s': State, b: nat, k: nat, r: nat, a: nat, j: nat)
    requires Arrived(s, s', b, k, r) && Writes(s') && s'.terms[b].ops[k].SetProp?
    requires a <= b && IsTerm(s', a) && j < s'.terms[a].done[r] && s'.terms[a].ops[j].SetProp? && May(s', a, j)
    ensures s'.terms[a].ops[j].prop <= s'.reps[r].minProp
  {
    assert TermOk(s', b);
    if a < b {
      assert SafeProp(s', b, s'.terms[b].ops[k].prop);
    } else {
      assert OpsOrdered(s', b);
    }
  }

  lemma MinElsewhere(s: State, s': State, b: nat, k: nat, r: nat, q: nat, a: nat, j: nat)
    requires Arrived(s, s', b, k, r) && Logs(s) && !(q == r && s'.terms[b].ops[k].SetProp?)
    requires q < N(s) && a < |s.terms| && IsTerm(s, a) && IsTerm(s', a)
    requires j < s'.terms[a].done[q] && s'.terms[a].ops[j].SetProp? && May(s', a, j)
    ensures s'.terms[a].ops[j].prop <= s'.reps[q].minProp
  {
    assert !(a == b && q == r) ==> SameDone(s, s', a, q);
    OpsKept(s, s', a, j);
    MayShrinks(s, s', a, j);
    assert LogOk(s, q) && MinOk(s, q, a);
  }

  lemma MinArrived(s: State, s': State, b: nat, k: nat, r: nat, q: nat, a: nat)
    requires Arrived(s, s', b, k, r) && Ordered(s) && Logs(s) && Writes(s')
    requires q < N(s) && a < |s.terms| && IsTerm(s, a) && IsTerm(s', a)
    ensures MinOk(s', q, a)
  {
    if q == r && a > b { LaterNotYet(s, s', b, k, r, a); }
    forall j | 0 <= j < s'.terms[a].done[q] && s'.terms[a].ops[j].SetProp? && May(s', a, j)
      ensures s'.terms[a].ops[j].prop <= s'.reps[q].minProp
    {
      if q == r && s'.terms[b].ops[k].SetProp? {
        MinWritten(s, s', b, k, r, a, j);
      } else {
        MinElsewhere(s, s', b, k, r, q, a, j);
      }
    }
  }

  lemma NoHolesArrived(s: State, s': State, b: nat, k: nat, r: nat, q: nat)
    requires Arrived(s, s', b, k, r) && Ordered(s) && Logs(s) && Writes(s')
    requires q < N(s)
    requires Fills(s'.terms[b].ops[k], r) ==> forall i :: 0 <= i < s'.terms[b].ops[k].slot ==> Settled(s, r, i)
    ensures NoHoles(s', q)
  {
    assert LogOk(s, q) && NoHoles(s, q);
    forall i, j | 0 <= i < j && j in s'.reps[q].log ensures Settled(s', q, i) {
      assert Settled(s, q, i);
      SettledKept(s, s', b, k, r, q, i);
    }
  }

  lemma LogsArrived(s: State, s': State, b: nat, k: nat, r: nat)
    requires Arrived(s, s', b, k, r) && Ordered(s) && Logs(s) && Writes(s')
    requires Fills(s'.terms[b].ops[k], r) ==> forall i :: 0 <= i < s'.terms[b].ops[k].slot ==> Settled(s, r, i)
    ensures Logs(s')
  {
    forall q: nat | q < N(s') ensures LogOk(s', q) {
      forall j: nat | j in s'.reps[q].log ensures Origin(s', q, j) {
        OriginArrived(s, s', b, k, r, q, j);
      }
      forall a: nat | a < |s'.terms| && IsTerm(s', a) ensures Latest(s', q, a) && MinOk(s', q, a) {
        assert TermGrows(s, s', a);
        LatestArrived(s, s', b, k, r, q, a);
        MinArrived(s, s', b, k, r, q, a);
      }
      NoHolesArrived(s, s', b, k, r, q);
    }
  }

  // ---------------------------------------------------------------------
  // Nothing arrives
  // ---------------------------------------------------------------------

  lemma LatestKept(s: State, s': State, q: nat, a: nat)
    requires NothingArrived(s, s') && Logs(s) && q < N(s) && a < |s.terms| && IsTerm(s, a) && IsTerm(s', a)
    ensures Latest(s', q, a) && MinOk(s', q, a)
  {
    assert SameDone(s, s', a, q);
    assert LogOk(s, q) && Latest(s, q, a) && MinOk(s, q, a);
    forall j | 0 <= j < s'.terms[a].done[q] && s'.terms[a].ops[j].Put?
      ensures LatestAt(s', q, a, s'.terms[a].ops[j].slot)
    {
      OpsKept(s, s', a, j);
      LatestElsewhere(s, s', q, a, s'.terms[a].ops[j].slot);
    }
    forall j | 0 <= j < s'.terms[a].done[q] && s'.terms[a].ops[j].SetProp? && May(s', a, j)
      ensures s'.terms[a].ops[j].prop <= s'.reps[q].minProp
    {
      OpsKept(s, s', a, j);
      MayShrinks(s, s', a, j);
    }
  }

  lemma LogsKept(s: State, s': State)
    requires NothingArrived(s, s') && Logs(s)
    ensures Logs(s')
  {
    forall q: nat | q < N(s') ensures LogOk(s', q) {
      assert LogOk(s, q);
      forall j: nat | j in s'.reps[q].log ensures Origin(s', q, j) {
        assert Origin(s, q, j);
        HasPutKept(s, s', j, s.reps[q].log[j]);
        TouchedSinceKept(s, s', q, s.reps[q].log[j].term);
      }
      forall a: nat | a < |s'.terms| && IsTerm(s', a) ensures Latest(s', q, a) && MinOk(s', q, a) {
        if a < |s.terms| {
          assert TermGrows(s, s', a);
          LatestKept(s, s', q, a);
        }
      }
      forall i: nat, j: nat | i < j && j in s'.reps[q].log ensures Settled(s', q, i) {
        assert NoHoles(s, q) && Settled(s, q, i);
        SettledKeptQuietly(s, s', q, i);
      }
    }
  }
}
