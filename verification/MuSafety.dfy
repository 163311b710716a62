// Mu: what is safe.

module MuSafety {
  // Why a value may be written: the invariants on posted writes and on logs, and
  // the argument that an adopted, a new or a fast-path value is safe.

  import opened Options
  import opened Quorums
  import opened MuModel
  import opened MuHistory

  // ---------------------------------------------------------------------
  // Posted writes
  // ---------------------------------------------------------------------

  /** Term b writes each slot at most once, in slot order, with its own mark and
      the slot embedded as first undecided offset; its proposals never go down. */
  ghost predicate OpsOrdered(s: State, b: nat)
    requires b < |s.terms|
  {
    var ops := s.terms[b].ops;
    && (forall k :: 0 <= k < |ops| && ops[k].Put? ==> ops[k].entry.term == b && ops[k].entry.fuo == ops[k].slot)
    && (forall k, k' :: 0 <= k < k' < |ops| && ops[k].Put? && ops[k'].Put? ==> ops[k].slot < ops[k'].slot)
    && (forall k, k' :: 0 <= k < k' < |ops| && ops[k].SetProp? && ops[k'].SetProp? ==> ops[k].prop <= ops[k'].prop)
  }

  /** The entry was created by a posted write. */
  ghost predicate HasPut(s: State, slot: nat, e: Entry) {
    e.term < |s.terms| && exists k :: 0 <= k < |s.terms[e.term].ops| && s.terms[e.term].ops[k] == Put(slot, e)
  }

  ghost predicate CopiesOk(s: State, b: nat)
    requires Shape(s) && b < |s.terms|
  {
    forall k :: 0 <= k < |s.terms[b].ops| && s.terms[b].ops[k].Copy? ==>
      CopyOk(s, b, s.terms[b].ops[k].slot, s.terms[b].ops[k].entry)
  }

  ghost predicate CopyOk(s: State, b: nat, slot: nat, e: Entry)
    requires Shape(s)
  {
    Vouched(s, slot, e) && HasPut(s, slot, e) && e.term <= b
  }

  /** Whoever has posted a proposal or a value has been in touch with a quorum. */
  ghost predicate Backed(s: State, b: nat)
    requires b < |s.terms|
  {
    (exists k :: 0 <= k < |s.terms[b].ops| && !s.terms[b].ops[k].Copy?) ==> Wide(s, b)
  }

  ghost predicate SafeOps(s: State, b: nat)
    requires Shape(s) && b < |s.terms|
  {
    var ops := s.terms[b].ops;
    && (forall k :: 0 <= k < |ops| && ops[k].Put? ==> SafeValue(s, b, ops[k].slot, ops[k].entry.val))
    && (forall k :: 0 <= k < |ops| && ops[k].Put? ==> HasProp(s, b, ops[k].entry.prop))
    && (forall k :: 0 <= k < |ops| && ops[k].SetProp? ==> SafeProp(s, b, ops[k].prop))
  }

  /** A proposal number of replica p. */
  predicate NumberOf(s: State, p: nat, q: nat)
    requires Shape(s) && p < N(s)
  {
    q >= s.ids[p] && Multiple(q - s.ids[p], Modulo(s))
  }

  ghost predicate Numbered(s: State, b: nat)
    requires Shape(s) && IsTerm(s, b)
  {
    var ops := s.terms[b].ops;
    && (forall k :: 0 <= k < |ops| && ops[k].Put? ==> NumberOf(s, Pid(s, b), ops[k].entry.prop))
    && (forall k :: 0 <= k < |ops| && ops[k].SetProp? ==> ops[k].prop <= Leader(s, b).propNr)
  }

  ghost predicate TermOk(s: State, b: nat)
    requires Shape(s) && b < |s.terms|
  {
    IsTerm(s, b) && OpsOrdered(s, b) && CopiesOk(s, b) && Backed(s, b) && SafeOps(s, b) && Numbered(s, b)
  }

  /** One proposal number carries one value per slot. */
  ghost predicate Unique(s: State)
    requires Shape(s)
  {
    forall a, b, k, k' ::
      && 0 <= a < b < |s.terms| && 0 <= k < |s.terms[a].ops| && 0 <= k' < |s.terms[b].ops|
      && s.terms[a].ops[k].Put? && s.terms[b].ops[k'].Put?
      && s.terms[a].ops[k].slot == s.terms[b].ops[k'].slot
      && s.terms[a].ops[k].entry.prop == s.terms[b].ops[k'].entry.prop
      ==> s.terms[a].ops[k].entry.val == s.terms[b].ops[k'].entry.val
  }

  ghost predicate Writes(s: State)
    requires Shape(s)
  {
    && (forall b :: 0 <= b < |s.terms| ==> TermOk(s, b))
    && (forall p :: 0 <= p < N(s) ==> NumberOf(s, p, s.reps[p].propNr))
    && Unique(s)
  }

  // ---------------------------------------------------------------------
  // Logs
  // ---------------------------------------------------------------------

  ghost predicate TouchedSince(s: State, r: nat, a: nat) {
    exists x :: a <= x < |s.terms| && r in s.terms[x].touched
  }

  ghost predicate Origin(s: State, r: nat, slot: nat)
    requires Shape(s) && r < N(s) && slot in s.reps[r].log
  {
    HasPut(s, slot, s.reps[r].log[slot]) && TouchedSince(s, r, s.reps[r].log[slot].term)
  }

  /** What replica r holds is not older than any value write it has received,
      except where it holds the chosen value anyway. */
  ghost predicate Latest(s: State, r: nat, a: nat)
    requires Shape(s) && r < N(s) && IsTerm(s, a)
  {
    forall k :: 0 <= k < s.terms[a].done[r] && s.terms[a].ops[k].Put? ==>
      var slot := s.terms[a].ops[k].slot;
      slot in s.reps[r].log && (s.reps[r].log[slot].term >= a || Vouched(s, slot, s.reps[r].log[slot]))
  }

  /** Below a populated slot every slot is populated, with the chosen value. */
  ghost predicate NoHoles(s: State, r: nat)
    requires Shape(s) && r < N(s)
  {
    forall i, j :: 0 <= i < j && j in s.reps[r].log ==> Settled(s, r, i)
  }

  ghost predicate MinOk(s: State, r: nat, a: nat)
    requires Shape(s) && r < N(s) && IsTerm(s, a)
  {
    forall k :: 0 <= k < s.terms[a].done[r] && s.terms[a].ops[k].SetProp? && May(s, a, k) ==>
      s.terms[a].ops[k].prop <= s.reps[r].minProp
  }

  ghost predicate LogOk(s: State, r: nat)
    requires Shape(s) && r < N(s)
  {
    && (forall j :: j in s.reps[r].log ==> Origin(s, r, j))
    && (forall a :: 0 <= a < |s.terms| && IsTerm(s, a) ==> Latest(s, r, a))
    && (forall a :: 0 <= a < |s.terms| && IsTerm(s, a) ==> MinOk(s, r, a))
    && NoHoles(s, r)
  }

  ghost predicate Logs(s: State)
    requires Shape(s)
  {
    forall r :: 0 <= r < N(s) ==> LogOk(s, r)
  }

  // ---------------------------------------------------------------------
  // Consequences
  // ---------------------------------------------------------------------

  /** The numbers of two replicas never meet. */
  lemma {:induction false} NumbersDiffer(m: nat, id: nat, id': nat, q: nat)
    requires 0 < id <= m && 0 < id' <= m && id <= q && id' <= q
    requires Multiple(q - id, m) && Multiple(q - id', m)
    ensures id == id'
    decreases q
  {
    if q > m {
      NumbersDiffer(m, id, id', q - m);
    }
  }

  lemma SameNumberSamePid(s: State, p: nat, p': nat, q: nat)
    requires Shape(s) && p < N(s) && p' < N(s)
    requires NumberOf(s, p, q) && NumberOf(s, p', q)
    ensures p == p'
  {
    NumbersDiffer(Modulo(s), s.ids[p], s.ids[p'], q);
  }

  /** Completed proposals follow the order of the leaderships. */
  lemma ProposalsOrdered(s: State, a: nat, qa: nat, b: nat, qb: nat)
    requires Shape(s) && a < b < |s.terms| && HasProp(s, a, qa) && HasProp(s, b, qb)
    requires TermOk(s, b)
    ensures qa <= qb
  {
    var k :| 0 <= k < |s.terms[a].ops| && s.terms[a].ops[k] == SetProp(qa) && |Acks(s, a, k)| >= StrictMajority(N(s));
    AckedMay(s, a, k);
    var k' :| 0 <= k' < |s.terms[b].ops| && s.terms[b].ops[k'] == SetProp(qb)
        && |Acks(s, b, k')| >= StrictMajority(N(s));
    assert SafeProp(s, b, s.terms[b].ops[k'].prop);
  }

  /** The value of a later write agrees with one that may still be chosen. */
  lemma LaterAgrees(s: State, a: nat, k: nat, x: nat, kx: nat)
    requires Shape(s) && Writes(s)
    requires a <= x < |s.terms| && IsTerm(s, a) && k < |s.terms[a].ops| && kx < |s.terms[x].ops|
    requires s.terms[a].ops[k].Put? && s.terms[x].ops[kx].Put? && s.terms[a].ops[k].slot == s.terms[x].ops[kx].slot
    requires May(s, a, k)
    ensures s.terms[x].ops[kx].entry.val == s.terms[a].ops[k].entry.val
  {
    assert TermOk(s, x);
    if a < x {
      assert SafeValue(s, x, s.terms[x].ops[kx].slot, s.terms[x].ops[kx].entry.val);
    }
  }

  /** A chosen value agrees with every value that may still be chosen. */
  lemma ChosenAgrees(s: State, c: nat, kc: nat, a: nat, k: nat)
    requires Shape(s) && Writes(s)
    requires ChosenBy(s, c, kc)
    requires IsTerm(s, a) && k < |s.terms[a].ops| && s.terms[a].ops[k].Put? && May(s, a, k)
    requires s.terms[a].ops[k].slot == s.terms[c].ops[kc].slot
    ensures s.terms[a].ops[k].entry.val == s.terms[c].ops[kc].entry.val
  {
    AckedMay(s, c, kc);
    if a <= c {
      LaterAgrees(s, a, k, c, kc);
    } else {
      LaterAgrees(s, c, kc, a, k);
    }
  }

  /** No two different values are chosen for one slot. */
  lemma AgreementNow(s: State, slot: nat, v: Value, w: Value)
    requires Shape(s) && Writes(s)
    requires Chosen(s, slot, v) && Chosen(s, slot, w)
    ensures v == w
  {
    var a: nat, k: nat :| ChosenBy(s, a, k) && s.terms[a].ops[k].slot == slot && s.terms[a].ops[k].entry.val == v;
    var b: nat, j: nat :| ChosenBy(s, b, j) && s.terms[b].ops[j].slot == slot && s.terms[b].ops[j].entry.val == w;
    AckedMay(s, a, k);
    ChosenAgrees(s, b, j, a, k);
  }

  lemma PutProps(s: State, b: nat, k: nat)
    requires Shape(s) && Writes(s) && b < |s.terms| && k < |s.terms[b].ops| && s.terms[b].ops[k].Put?
    ensures HasProp(s, b, s.terms[b].ops[k].entry.prop)
    ensures IsTerm(s, b) && NumberOf(s, Pid(s, b), s.terms[b].ops[k].entry.prop)
  {
    assert TermOk(s, b);
  }

  /** An entry with at least the proposal of a write that may still be chosen
      carries the same value. */
  lemma FresherAgrees(s: State, slot: nat, e: Entry, a: nat, k: nat)
    requires Shape(s) && Writes(s) && HasPut(s, slot, e)
    requires IsTerm(s, a) && k < |s.terms[a].ops| && s.terms[a].ops[k].Put? && s.terms[a].ops[k].slot == slot
    requires May(s, a, k) && e.prop >= s.terms[a].ops[k].entry.prop
    ensures e.val == s.terms[a].ops[k].entry.val
  {
    var ke :| 0 <= ke < |s.terms[e.term].ops| && s.terms[e.term].ops[ke] == Put(slot, e);
    if e.term >= a {
      LaterAgrees(s, a, k, e.term, ke);
    } else {
      PutProps(s, e.term, ke);
      PutProps(s, a, k);
      assert TermOk(s, a);
      ProposalsOrdered(s, e.term, e.prop, a, s.terms[a].ops[k].entry.prop);
    }
  }

  // ---------------------------------------------------------------------
  // Slots read by a new leader
  // ---------------------------------------------------------------------

  /** No earlier term can get through to r any more. */
  predicate Shut(s: State, b: nat, r: nat)
    requires b < |s.terms| && r < N(s)
  {
    forall a :: 0 <= a < b ==> !Open(s, a, r)
  }

  /** o is what term b read from the slot at replica r. */
  ghost predicate ReadOk(s: State, b: nat, r: nat, slot: nat, o: Option<Entry>)
    requires Shape(s) && b < |s.terms| && r < N(s)
  {
    && Shut(s, b, r)
    && (o.Some? ==> HasPut(s, slot, o.value) && o.value.term < b)
    && (forall a :: 0 <= a < b && IsTerm(s, a) ==> ReadCovers(s, a, r, slot, o))
  }

  /** The read o reflects every value write of term a that r has received. */
  ghost predicate ReadCovers(s: State, a: nat, r: nat, slot: nat, o: Option<Entry>)
    requires Shape(s) && IsTerm(s, a) && r < N(s)
  {
    forall k :: 0 <= k < s.terms[a].done[r] && s.terms[a].ops[k].Put? ==>
      && (o.None? ==> s.terms[a].ops[k].slot < slot)
      && (o.Some? && s.terms[a].ops[k].slot == slot ==> o.value.term >= a || Vouched(s, slot, o.value))
  }

  lemma OpenShut(s: State, b: nat, r: nat)
    requires Shape(s) && Tokens(s) && b < |s.terms| && r < N(s) && Open(s, b, r)
    ensures Shut(s, b, r)
  {}

  /** Nothing newer than the term that holds the permission is in the log. */
  lemma EntriesNotNewer(s: State, b: nat, r: nat, slot: nat)
    requires Shape(s) && Ordered(s) && Logs(s)
    requires b < |s.terms| && r < N(s) && Open(s, b, r) && slot in s.reps[r].log
    ensures s.reps[r].log[slot].term <= b
  {
    assert LogOk(s, r) && Origin(s, r, slot);
    var x :| s.reps[r].log[slot].term <= x < |s.terms| && r in s.terms[x].touched;
  }

  lemma ReadCoversNow(s: State, r: nat, slot: nat, a: nat)
    requires Shape(s) && Logs(s) && r < N(s) && IsTerm(s, a)
    ensures ReadCovers(s, a, r, slot, Lookup(s.reps[r].log, slot))
  {
    assert LogOk(s, r) && Latest(s, r, a) && NoHoles(s, r);
    forall k | 0 <= k < s.terms[a].done[r] && s.terms[a].ops[k].Put? && slot !in s.reps[r].log
      ensures s.terms[a].ops[k].slot < slot
    {
      var j := s.terms[a].ops[k].slot;
      assert j in s.reps[r].log;
      assert slot < j ==> Settled(s, r, slot);
    }
  }

  lemma EntryOlder(s: State, b: nat, r: nat, slot: nat)
    requires Shape(s) && Ordered(s) && Logs(s)
    requires b < |s.terms| && r < N(s) && Open(s, b, r) && slot in s.reps[r].log
    requires forall k :: 0 <= k < |s.terms[b].ops| && s.terms[b].ops[k].Put? ==> s.terms[b].ops[k].slot < slot
    ensures HasPut(s, slot, s.reps[r].log[slot]) && s.reps[r].log[slot].term < b
  {
    EntriesNotNewer(s, b, r, slot);
    assert LogOk(s, r) && Origin(s, r, slot);
  }

  /** Reading a slot under the permission gives a faithful answer. */
  lemma ReadIsOk(s: State, b: nat, r: nat, slot: nat)
    requires Shape(s) && Tokens(s) && Ordered(s) && Logs(s)
    requires b < |s.terms| && r < N(s) && Open(s, b, r)
    requires forall k :: 0 <= k < |s.terms[b].ops| && s.terms[b].ops[k].Put? ==> s.terms[b].ops[k].slot < slot
    ensures ReadOk(s, b, r, slot, Lookup(s.reps[r].log, slot))
  {
    OpenShut(s, b, r);
    if slot in s.reps[r].log {
      EntryOlder(s, b, r, slot);
    }
    forall a | 0 <= a < b && IsTerm(s, a) ensures ReadCovers(s, a, r, slot, Lookup(s.reps[r].log, slot)) {
      ReadCoversNow(s, r, slot, a);
    }
  }

  lemma ReadOkKept(s: State, s': State, b: nat, r: nat, slot: nat, o: Option<Entry>)
    requires Grows(s, s') && b < |s.terms| && r < N(s)
    requires ReadOk(s, b, r, slot, o)
    ensures ReadOk(s', b, r, slot, o)
  {
    assert Shut(s', b, r) by {
      forall a | 0 <= a < b ensures !Open(s', a, r) { assert TermGrows(s, s', a); }
    }
    if o.Some? {
      HasPutKept(s, s', slot, o.value);
    }
    forall a | 0 <= a < b && IsTerm(s', a) ensures ReadCovers(s', a, r, slot, o) {
      assert TermGrows(s, s', a);
      assert ReadCovers(s, a, r, slot, o);
      if o.Some? && Vouched(s, slot, o.value) {
        VouchedKept(s, s', slot, o.value);
      }
      forall k | 0 <= k < s'.terms[a].done[r] && s'.terms[a].ops[k].Put?
        ensures o.None? ==> s'.terms[a].ops[k].slot < slot
        ensures o.Some? && s'.terms[a].ops[k].slot == slot ==> o.value.term >= a || Vouched(s', slot, o.value)
      {
        OpsKept(s, s', a, k);
      }
    }
  }

  lemma HasPutKept(s: State, s': State, slot: nat, e: Entry)
    requires Grows(s, s') && HasPut(s, slot, e)
    ensures HasPut(s', slot, e)
  {
    var k :| 0 <= k < |s.terms[e.term].ops| && s.terms[e.term].ops[k] == Put(slot, e);
    OpsKept(s, s', e.term, k);
  }

  // ---------------------------------------------------------------------
  // Adopting a value
  // ---------------------------------------------------------------------

  /** Term b has read the slot at a read quorum, its own log included. */
  ghost predicate QuorumRead(s: State, b: nat, slot: nat, found: map<nat, Option<Entry>>)
    requires Shape(s) && b < |s.terms|
  {
    && found.Keys <= Ids(N(s))
    && |found.Keys| >= Majority(N(s))
    && Pid(s, b) in found
    && forall r :: r in found ==> ReadOk(s, b, r, slot, found[r])
  }

  ghost predicate IsMax(e: Entry, found: map<nat, Option<Entry>>) {
    && (exists r :: r in found && found[r] == Some(e))
    && forall r :: r in found && found[r].Some? ==> found[r].value.prop <= e.prop
  }

  /** A write of term a that may still be chosen shows up in the read quorum. */
  lemma MayShows(s: State, b: nat, slot: nat, found: map<nat, Option<Entry>>, a: nat, k: nat) returns (r: nat)
    requires Shape(s) && b < |s.terms| && QuorumRead(s, b, slot, found)
    requires a < b && IsTerm(s, a) && k < |s.terms[a].ops| && s.terms[a].ops[k].Put? && May(s, a, k)
    ensures r in found && r < N(s) && s.terms[a].done[r] > k && ReadCovers(s, a, r, slot, found[r])
  {
    r := ReadMeetsWrite(N(s), found.Keys, Potential(s, a, k));
    assert ReadOk(s, b, r, slot, found[r]);
  }

  /** An entry shown for a write that may still be chosen, or may have been: the
      freshest entry has that write's value. */
  lemma ShownAgrees(s: State, slot: nat, o: Entry, e: Entry, a: nat, k: nat)
    requires Shape(s) && Writes(s) && HasPut(s, slot, o) && HasPut(s, slot, e) && o.prop <= e.prop
    requires IsTerm(s, a) && k < |s.terms[a].ops| && s.terms[a].ops[k].Put? && s.terms[a].ops[k].slot == slot
        && May(s, a, k)
    requires o.term >= a || Vouched(s, slot, o)
    ensures e.val == s.terms[a].ops[k].entry.val
  {
    if o.term >= a {
      NotOlderProp(s, slot, o, a, k);
      FresherAgrees(s, slot, e, a, k);
    } else {
      var c := VouchedAgrees(s, slot, o, e);
      ChosenAgrees(s, c.0, c.1, a, k);
    }
  }

  /** An entry not older than a write has at least its proposal. */
  lemma NotOlderProp(s: State, slot: nat, o: Entry, a: nat, k: nat)
    requires Shape(s) && Writes(s) && HasPut(s, slot, o)
    requires IsTerm(s, a) && k < |s.terms[a].ops| && s.terms[a].ops[k].Put? && s.terms[a].ops[k].slot == slot
    requires o.term >= a
    ensures s.terms[a].ops[k].entry.prop <= o.prop
  {
    hide Settled, SafeValue, SafeProp, TermShape, RepShape, May, NumberOf, HasProp, Backed, SafeOps, Numbered, Unique,
        CopiesOk;
    var ko :| 0 <= ko < |s.terms[o.term].ops| && s.terms[o.term].ops[ko] == Put(slot, o);
    PutProps(s, o.term, ko);
    PutProps(s, a, k);
    assert TermOk(s, o.term);
    hide Writes;
    if o.term > a {
      ProposalsOrdered(s, a, s.terms[a].ops[k].entry.prop, o.term, o.prop);
    }
  }

  /** If o is vouched for, a fresher e has the value of the write that vouches. */
  lemma VouchedAgrees(s: State, slot: nat, o: Entry, e: Entry) returns (c: (nat, nat))
    requires Shape(s) && Writes(s) && HasPut(s, slot, o) && HasPut(s, slot, e) && o.prop <= e.prop
    requires Vouched(s, slot, o)
    ensures Vouches(s, c.0, c.1, slot, o) && e.val == s.terms[c.0].ops[c.1].entry.val
  {
    var x: nat, kx: nat :| Vouches(s, x, kx, slot, o);
    c := (x, kx);
    AckedMay(s, x, kx);
    NotOlderProp(s, slot, o, x, kx);
    FresherAgrees(s, slot, e, x, kx);
  }

  /** The freshest value read is safe to write. */
  lemma AdoptedSafe(s: State, b: nat, slot: nat, found: map<nat, Option<Entry>>, e: Entry)
    requires Shape(s) && Writes(s) && b < |s.terms|
    requires QuorumRead(s, b, slot, found) && IsMax(e, found)
    ensures SafeValue(s, b, slot, e.val)
  {
    var re :| re in found && found[re] == Some(e);
    assert ReadOk(s, b, re, slot, found[re]);
    forall a, k | 0 <= a < b && IsTerm(s, a) && 0 <= k < |s.terms[a].ops| && s.terms[a].ops[k].Put?
        && s.terms[a].ops[k].slot == slot && May(s, a, k)
      ensures s.terms[a].ops[k].entry.val == e.val
    {
      var r := MayShows(s, b, slot, found, a, k);
      assert ReadOk(s, b, r, slot, found[r]);
      ShownAgrees(s, slot, found[r].value, e, a, k);
    }
  }

  /** A leader finds what it wrote in an earlier term under the same proposal. */
  lemma OwnWriteShows(s: State, b: nat, slot: nat, found: map<nat, Option<Entry>>, a: nat, k: nat) returns (o: Entry)
    requires Shape(s) && Writes(s) && a < b < |s.terms| && QuorumRead(s, b, slot, found)
    requires k < |s.terms[a].ops| && s.terms[a].ops[k].Put? && s.terms[a].ops[k].slot == slot
    requires IsTerm(s, b) && s.terms[a].ops[k].entry.prop == Leader(s, b).propNr
    ensures found[Pid(s, b)] == Some(o) && HasPut(s, slot, o)
    ensures o.term >= a || Vouched(s, slot, o)
  {
    var p := Pid(s, b);
    PutProps(s, a, k);
    SameNumberSamePid(s, Pid(s, a), p, Leader(s, b).propNr);
    assert ReadOk(s, b, p, slot, found[p]) && TermShape(s, a) && ReadCovers(s, a, p, slot, found[p]);
    o := found[p].value;
  }

  /** Two writes of one slot under one proposal carry one value. */
  lemma SameProposalSameValue(s: State, a: nat, k: nat, b: nat, k': nat)
    requires Shape(s) && Unique(s) && a < |s.terms| && b < |s.terms| && OpsOrdered(s, a)
    requires k < |s.terms[a].ops| && s.terms[a].ops[k].Put? && k' < |s.terms[b].ops| && s.terms[b].ops[k'].Put?
    requires s.terms[a].ops[k].slot == s.terms[b].ops[k'].slot
        && s.terms[a].ops[k].entry.prop == s.terms[b].ops[k'].entry.prop
    ensures s.terms[a].ops[k].entry.val == s.terms[b].ops[k'].entry.val
  {
    if a == b {
      assert k == k';
    }
  }

  /** What an earlier term wrote under the proposal the leader now has, and an
      entry at least as fresh, are the same value. */
  lemma SameProposalAgrees(s: State, b: nat, slot: nat, e: Entry, a: nat, k: nat)
    requires Shape(s) && Writes(s) && a < b < |s.terms| && HasPut(s, slot, e) && e.term < b
    requires IsTerm(s, b) && HasProp(s, b, Leader(s, b).propNr)
    requires k < |s.terms[a].ops| && s.terms[a].ops[k].Put? && s.terms[a].ops[k].slot == slot
    requires s.terms[a].ops[k].entry.prop == Leader(s, b).propNr <= e.prop
    ensures e.val == s.terms[a].ops[k].entry.val
  {
    var ke :| 0 <= ke < |s.terms[e.term].ops| && s.terms[e.term].ops[ke] == Put(slot, e);
    assert e.prop == Leader(s, b).propNr by {
      PutProps(s, e.term, ke);
      assert TermOk(s, b);
      ProposalsOrdered(s, e.term, e.prop, b, Leader(s, b).propNr);
    }
    assert TermOk(s, a);
    SameProposalSameValue(s, a, k, e.term, ke);
  }

  /** Nor does it clash with an earlier value under the same proposal number. */
  lemma AdoptedUnique(s: State, b: nat, slot: nat, found: map<nat, Option<Entry>>, e: Entry, a: nat, k: nat)
    requires Shape(s) && Writes(s) && a < b < |s.terms|
    requires QuorumRead(s, b, slot, found) && IsMax(e, found)
    requires IsTerm(s, b) && HasProp(s, b, Leader(s, b).propNr)
    requires k < |s.terms[a].ops| && s.terms[a].ops[k].Put? && s.terms[a].ops[k].slot == slot
    requires s.terms[a].ops[k].entry.prop == Leader(s, b).propNr
    ensures s.terms[a].ops[k].entry.val == e.val
  {
    var o := OwnWriteShows(s, b, slot, found, a, k);
    var re :| re in found && found[re] == Some(e);
    assert ReadOk(s, b, re, slot, found[re]);
    assert TermShape(s, a);
    if o.term >= a {
      NotOlderProp(s, slot, o, a, k);
      SameProposalAgrees(s, b, slot, e, a, k);
    } else {
      var c := VouchedAgrees(s, slot, o, e);
      AckedMay(s, c.0, c.1);
      LaterAgrees(s, c.0, c.1, a, k);
    }
  }

  // ---------------------------------------------------------------------
  // A value of one's own: slow path and fast path
  // ---------------------------------------------------------------------

  /** Earlier terms cannot have anything chosen at `base` or above: a read
      quorum, the leader's own log included, holds none of their writes there. */
  ghost predicate NothingAbove(s: State, b: nat, readers: set<nat>, base: nat)
    requires Shape(s) && b < |s.terms|
  {
    && readers <= Ids(N(s))
    && |readers| >= Majority(N(s))
    && Pid(s, b) in readers
    && forall r :: r in readers ==> ReadOk(s, b, r, base, None)
  }

  lemma NotAbove(s: State, b: nat, readers: set<nat>, base: nat, a: nat, k: nat)
    requires Shape(s) && b < |s.terms| && NothingAbove(s, b, readers, base)
    requires a < b && IsTerm(s, a) && k < |s.terms[a].ops| && s.terms[a].ops[k].Put? && base <= s.terms[a].ops[k].slot
    ensures !May(s, a, k)
  {
    forall r | r in readers ensures r !in Potential(s, a, k) {
      assert ReadOk(s, b, r, base, None) && ReadCovers(s, a, r, base, None);
    }
    if May(s, a, k) {
      var r := ReadMeetsWrite(N(s), readers, Potential(s, a, k));
      assert false;
    }
  }

  lemma OwnValueSafe(s: State, b: nat, readers: set<nat>, base: nat, slot: nat, v: Value)
    requires Shape(s) && b < |s.terms| && NothingAbove(s, b, readers, base) && base <= slot
    ensures SafeValue(s, b, slot, v)
  {
    forall a, k | 0 <= a < b && IsTerm(s, a) && 0 <= k < |s.terms[a].ops| && s.terms[a].ops[k].Put?
        && s.terms[a].ops[k].slot == slot
      ensures !May(s, a, k)
    {
      NotAbove(s, b, readers, base, a, k);
    }
  }

  lemma OwnValueUnique(s: State, b: nat, readers: set<nat>, base: nat, a: nat, k: nat)
    requires Shape(s) && Writes(s) && a < b < |s.terms| && NothingAbove(s, b, readers, base)
    requires IsTerm(s, b) && IsTerm(s, a) && k < |s.terms[a].ops| && s.terms[a].ops[k].Put?
    requires s.terms[a].ops[k].entry.prop == Leader(s, b).propNr
    ensures s.terms[a].ops[k].slot < base
  {
    var p := Pid(s, b);
    PutProps(s, a, k);
    SameNumberSamePid(s, Pid(s, a), p, Leader(s, b).propNr);
    assert ReadOk(s, b, p, base, None) && ReadCovers(s, a, p, base, None);
  }
}
