// Log: slots of the protocol, bytes of the buffer.

module SlotsAndBytes {
  // The two views of one log: the slots of the protocol and the bytes in memory.
  // What the follower's loop does to the bytes is what the protocol's Sample and
  // CommitOne steps do to the slots.

  import opened LogFormat
  import opened LogBuffer
  import opened LogIterators
  import Mu = MuModel

  function ValueOf(r: Record): Mu.Value {
    Mu.Value(r.payload)
  }

  /** The values of the first n records. */
  function Values(records: seq<Record>, n: nat): (vs: seq<Mu.Value>)
    requires n <= |records|
    ensures |vs| == n
  {
    seq(n, i requires 0 <= i < n => ValueOf(records[i]))
  }

  /** Slot by slot the replica's log holds these records; a first undecided offset
      in bytes is the start of the slot the entry names. */
  ghost predicate Shows(rep: Mu.Replica, records: seq<Record>, cuts: seq<nat>) {
    && Cut(records, cuts)
    && (forall j: nat :: j in rep.log <==> j < |records|)
    && (forall j: nat :: j < |records| ==>
          && rep.log[j].prop == records[j].proposal && rep.log[j].val == ValueOf(records[j])
          && rep.log[j].fuo == cuts[j])
  }

  /** The replica has looked at n slots and committed as far as they told it. */
  ghost predicate Stands(rep: Mu.Replica, records: seq<Record>, cuts: seq<nat>, n: nat) {
    && Shows(rep, records, cuts) && n <= |records| && Reach(cuts, n) <= |records|
    && rep.seen == n && rep.fuo == Reach(cuts, n)
    && rep.committed == Values(records, Reach(cuts, n)) && Mu.CaughtUp(rep)
  }

  /** CommitOne as often as there is something to commit. */
  function CatchUp(rep: Mu.Replica): (r: Mu.Replica)
    ensures r.log == rep.log && r.seen == rep.seen && r.target == rep.target
    decreases rep.target - |rep.committed|
  {
    if |rep.committed| < rep.target && |rep.committed| in rep.log then CatchUp(Mu.OneMoreCommitted(rep)) else rep
  }

  lemma OneMoreValue(rep: Mu.Replica, records: seq<Record>, cuts: seq<nat>)
    requires Shows(rep, records, cuts) && |rep.committed| < rep.target <= |records|
    requires rep.committed == Values(records, |rep.committed|)
    ensures |rep.committed| in rep.log
    ensures var next := Mu.OneMoreCommitted(rep);
            && Shows(next, records, cuts) && next.target == rep.target && next.fuo == rep.target
            && next.committed == Values(records, |rep.committed| + 1)
  {
    hide Cut;
    OneMore(records, |rep.committed|);
  }

  lemma OneMore(records: seq<Record>, n: nat)
    requires n < |records|
    ensures Values(records, n + 1) == Values(records, n) + [ValueOf(records[n])]
  {
  }

  lemma {:induction false} CatchUpCommits(rep: Mu.Replica, records: seq<Record>, cuts: seq<nat>)
    requires Shows(rep, records, cuts) && rep.target <= |records| && |rep.committed| <= |records|
    requires rep.committed == Values(records, |rep.committed|)
    ensures var r := CatchUp(rep);
            var c := Max(|rep.committed|, rep.target);
            r.committed == Values(records, c) && r.fuo == if |rep.committed| < rep.target then rep.target else rep.fuo
    decreases rep.target - |rep.committed|
  {
    hide Cut, Mu.OneMoreCommitted;
    if |rep.committed| < rep.target {
      var next := Mu.OneMoreCommitted(rep);
      OneMoreValue(rep, records, cuts);
      CatchUpCommits(next, records, cuts);
    }
  }

  /** One round of the follower is one Sample step and the CommitOne steps it
      makes possible, and ends where LogIterators.Round does. */
  lemma RoundRefines(rep: Mu.Replica, records: seq<Record>, cuts: seq<nat>, n: nat)
    requires Stands(rep, records, cuts, n) && n < |records|
    ensures n in rep.log && Stands(CatchUp(Mu.Sampled(rep)), records, cuts, n + 1)
  {
    assert rep.log[n].fuo == cuts[n] && cuts[n] <= n;
    CatchUpCommits(Mu.Sampled(rep), records, cuts);
  }

  /** All rounds until nothing new is there. */
  function FollowAll(rep: Mu.Replica, n: nat): Mu.Replica
    decreases n
  {
    if n == 0 || rep.seen !in rep.log then rep else FollowAll(CatchUp(Mu.Sampled(rep)), n - 1)
  }

  lemma FollowNone(rep: Mu.Replica)
    ensures FollowAll(rep, 0) == rep
  {
  }

  lemma FollowOne(rep: Mu.Replica, n: nat)
    requires n > 0 && rep.seen in rep.log
    ensures FollowAll(rep, n) == FollowAll(CatchUp(Mu.Sampled(rep)), n - 1)
  {
  }

  lemma {:induction false} FollowStands(rep: Mu.Replica, records: seq<Record>, cuts: seq<nat>, n: nat)
    requires Stands(rep, records, cuts, n)
    ensures Stands(FollowAll(rep, |records| - n), records, cuts, |records|)
    decreases |records| - n
  {
    hide CatchUp, Reach, Shows, Values, FollowAll;
    if n == |records| {
      FollowNone(rep);
    } else {
      RoundRefines(rep, records, cuts, n);
      FollowOne(rep, |records| - n);
      FollowStands(CatchUp(Mu.Sampled(rep)), records, cuts, n + 1);
    }
  }

  function AsValues(payloads: seq<seq<Byte>>): seq<Mu.Value> {
    seq(|payloads|, i requires 0 <= i < |payloads| => Mu.Value(payloads[i]))
  }

  lemma ValuesSplit(records: seq<Record>, a: nat, b: nat)
    requires a <= b <= |records|
    ensures Values(records, b) == Values(records, a) + AsValues(Payloads(records[a..b]))
  {
  }

  /** The protocol's follower commits exactly the payloads that
      LogIterators.Follow hands out for the same bytes. */
  lemma FollowRefines(rep: Mu.Replica, records: seq<Record>, cuts: seq<nat>, n: nat)
    requires Stands(rep, records, cuts, n)
    ensures Reach(cuts, n) <= Reach(cuts, |records|) <= |records|
    ensures FollowAll(rep, |records| - n).committed
         == rep.committed + AsValues(Payloads(records[Reach(cuts, n)..Reach(cuts, |records|)]))
  {
    hide FollowAll;
    FollowStands(rep, records, cuts, n);
    ReachGrows(cuts, n, |records|);
    ValuesSplit(records, Reach(cuts, n), Reach(cuts, |records|));
  }

  lemma {:induction false} ReachGrows(cuts: seq<nat>, n: nat, m: nat)
    requires n <= m <= |cuts|
    ensures Reach(cuts, n) <= Reach(cuts, m)
  {
    if n < m {
      ReachGrows(cuts, n, m - 1);
    }
  }

  /** The leader's side: a slot written at its first undecided offset, when that is
      the end of the log, starts at the byte offset of that slot, and the offset it
      stores next is that of the slot after it. */
  lemma LeaderOffsets(rep: Mu.Replica, records: seq<Record>, cuts: seq<nat>, r: Record)
    requires Shows(rep, records, cuts) && rep.fuo == |records|
    requires r.fuo == HEADER + Offset(records, rep.fuo)
    ensures Cut(records + [r], cuts + [rep.fuo])
    ensures var rep' := rep.(log := rep.log[rep.fuo := Mu.Entry(r.proposal, ValueOf(r), rep.fuo, 0)]);
            Shows(rep', records + [r], cuts + [rep.fuo])
    ensures RoundUp(r.fuo + Size(r)) == HEADER + Offset(records + [r], rep.fuo + 1)
  {
    hide RoundUp, Offset;
    var all, cuts' := records + [r], cuts + [rep.fuo];
    NextFuo(records, r);
    forall i | 0 <= i < |cuts'|
      ensures cuts'[i] <= i && all[i].fuo == HEADER + Offset(all, cuts'[i])
    {
      if i < |records| {
        OffsetPrefix(records, all, cuts[i]);
      } else {
        OffsetPrefix(records, all, |records|);
      }
    }
  }
}
