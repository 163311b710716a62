// Mu: recycling requests and their replies.

module Recycling {
  // The bookkeeping of recycling requests and replies at the leader that asks, in the
  // form of the source.  What it means for the logs is the subject of MuRecycling and
  // MuGenerations.

  import opened MuModel

  class LogRecycling {
    const myId: nat
    const modulo: nat
    var reqNr: nat

    constructor (myId: nat, modulo: nat)
      ensures this.myId == myId && this.modulo == modulo && reqNr == myId
    {
      this.myId, this.modulo, reqNr := myId, modulo, myId;
    }

    method GenerateRequest(fuo: nat) returns (request: Value)
      modifies this
      ensures request == Recycle(myId, old(reqNr), fuo) && reqNr == old(reqNr) + modulo
    {
      request := Recycle(myId, reqNr, fuo);
      reqNr := reqNr + modulo;
    }

    /** Looks at the reply words again and again; polls[t] is what they hold the
        t-th time.  True once every remote has been seen to answer the last
        request; false here only means that the polls given ran out before each
        remote had one for itself in which all words show the answer. */
    method WaitForReplies(remoteIds: seq<nat>, polls: seq<map<nat, nat>>) returns (done: bool)
      requires |remoteIds| > 0
      requires forall t, k :: 0 <= t < |polls| && 0 <= k < |remoteIds| ==> remoteIds[k] in polls[t]
      ensures done ==> forall k :: 0 <= k < |remoteIds| ==> Answered(polls, remoteIds[k])
      ensures forall u: nat :: AllAnswerFrom(polls, remoteIds, u) && u + |remoteIds| <= |polls| ==> done
    {
      var ids := remoteIds;
      var t := 0;
      while t < |polls|
        invariant 0 <= t <= |polls|
        invariant forall k :: 0 <= k < |ids| ==> ids[k] in remoteIds
        invariant forall k :: 0 <= k < |remoteIds| ==> remoteIds[k] in ids || Answered(polls, remoteIds[k])
        invariant 0 < |ids| <= |remoteIds|
        invariant forall u: nat :: AllAnswerFrom(polls, remoteIds, u) && u <= t ==> |ids| + (t - u) <= |remoteIds|
      {
        var eliminated := -1;
        var i := 0;
        while i < |ids|
          invariant 0 <= i <= |ids| && eliminated == -1
          invariant (exists u: nat :: AllAnswerFrom(polls, remoteIds, u) && u <= t) ==> i == 0
        {
          assert ids[i] in remoteIds;
          if polls[t][ids[i]] + modulo == reqNr {
            eliminated := i;
            break;
          }
          i := i + 1;
        }
        if eliminated >= 0 {
          assert Answered(polls, ids[eliminated]);
          ghost var before := ids;
          ids := ids[eliminated := ids[|ids| - 1]];
          ids := ids[..|ids| - 1];
          assert forall x :: x in before ==> x in ids || x == before[eliminated] by {
            SwapRemoved(before, eliminated);
          }
          if |ids| == 0 {
            return true;
          }
        }
        t := t + 1;
      }
      done := false;
    }

    /** From look u on every remote's word shows the answer to the last request. */
    ghost predicate AllAnswerFrom(polls: seq<map<nat, nat>>, remoteIds: seq<nat>, u: nat)
      reads this
    {
      forall t, k :: u <= t < |polls| && 0 <= k < |remoteIds| && remoteIds[k] in polls[t] ==>
        polls[t][remoteIds[k]] + modulo == reqNr
    }

    /** At some look the word of pid held the last request's number. */
    ghost predicate Answered(polls: seq<map<nat, nat>>, pid: nat)
      reads this
    {
      exists t :: 0 <= t < |polls| && pid in polls[t] && polls[t][pid] + modulo == reqNr
    }
  }

  /** Swapping the last element into a place and dropping the end loses only that
      place's element. */
  lemma SwapRemoved(ids: seq<nat>, k: nat)
    requires k < |ids|
    ensures var ids' := ids[k := ids[|ids| - 1]][..|ids| - 1];
            forall x :: x in ids ==> x in ids' || x == ids[k]
  {
    var ids' := ids[k := ids[|ids| - 1]][..|ids| - 1];
    forall x | x in ids
      ensures x in ids' || x == ids[k]
    {
      var i :| 0 <= i < |ids| && ids[i] == x;
      if i != k && i < |ids| - 1 {
        assert ids'[i] == x;
      } else if i != k {
        assert ids'[k] == x;
      }
    }
  }
}
