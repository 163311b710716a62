module SlotReader {
  // Reading one log slot from a quorum of remote logs: which process still has to be
  // asked, which has been, which has answered, and how many bytes to ask for.

  import opened LogFormat
  import opened Quorums

  // ---------------------------------------------------------------------
  // How many bytes to read
  // ---------------------------------------------------------------------

  /** A rolling average over the last four lengths seen. */
  class LengthPredictor {
    var sum: nat
    var nextIdx: nat
    const history: array<nat>
    ghost var recent: seq<nat>   // the last four, oldest first

    constructor (initialLength: nat)
      ensures Valid() && fresh(history) && recent == [initialLength, initialLength, initialLength, initialLength]
    {
      sum, nextIdx := 4 * initialLength, 0;
      history := new nat[4](_ => initialLength);
      recent := [initialLength, initialLength, initialLength, initialLength];
    }

    /** history is a ring whose oldest entry is at nextIdx. */
    ghost predicate Valid()
      reads this, history
    {
      && history.Length == 4 && nextIdx < 4 && |recent| == 4
      && recent == history[nextIdx..] + history[..nextIdx]
      && sum == recent[0] + recent[1] + recent[2] + recent[3]
    }

    /** Always more than the average of the last four. */
    method Predict() returns (length: nat)
      requires Valid()
      ensures sum < 4 * length <= sum + 4
    {
      length := (sum + 4) / 4;
    }

    method Adjust(len: nat)
      requires Valid()
      modifies this, history
      ensures Valid() && recent == old(recent)[1..] + [len]
    {
      assert recent[0] == history[nextIdx];
      sum := sum - history[nextIdx];
      sum := sum + len;
      history[nextIdx] := len;
      nextIdx := if nextIdx == 3 then 0 else nextIdx + 1;
      recent := recent[1..] + [len];
      assert recent == history[nextIdx..] + history[..nextIdx];
    }
  }

  /** Once one length has been seen four times in a row, the prediction covers it. */
  method PredictAfterFour(predictor: LengthPredictor, len: nat) returns (length: nat)
    requires predictor.Valid()
    modifies predictor, predictor.history
    ensures predictor.Valid() && length == len + 1
  {
    var i := 0;
    while i < 4
      invariant 0 <= i <= 4 && predictor.Valid()
      invariant forall k :: 4 - i <= k < 4 ==> predictor.recent[k] == len
    {
      predictor.Adjust(len);
      i := i + 1;
    }
    length := predictor.Predict();
  }

  // ---------------------------------------------------------------------
  // What a read brought
  // ---------------------------------------------------------------------

  const ENTRY_READ: nat := 4   // quorum::EntryRd

  /** A completion of process pid: `data` is what lies in its slot of the scratchpad
      once the read of `size` bytes is done. */
  datatype SlotCompletion = SlotCompletion(ok: bool, kind: nat, pid: nat, seqNr: nat, data: seq<Byte>, size: nat)

  predicate Populated(data: seq<Byte>) {
    |data| >= 8 && LengthAt(data, 0) != 0
  }

  /** The read was long enough for the whole entry, and its canary has arrived. */
  predicate Complete(data: seq<Byte>, size: nat) {
    && |data| >= 8 && LengthAt(data, 0) + 9 <= size
    && Readable(data, 0) && CanaryAt(data, 0) != 0
  }

  // ---------------------------------------------------------------------
  // Bookkeeping
  // ---------------------------------------------------------------------

  class ToBePolled {
    const kind: nat
    var reqId: nat
    var completed: set<nat>
    var toBePosted: set<nat>
    var toBePolled: set<nat>

    constructor (kind: nat, remoteIds: set<nat>)
      ensures this.kind == kind && Partition(remoteIds) && toBePosted == remoteIds
    {
      this.kind := kind;
      reqId, completed, toBePosted, toBePolled := 0, {}, remoteIds, {};
    }

    /** Every process still taken into account is in exactly one of the three sets. */
    predicate Partition(live: set<nat>)
      reads this
    {
      && completed + toBePosted + toBePolled == live
      && completed !! toBePosted && completed !! toBePolled && toBePosted !! toBePolled
    }

    method FocusOnReqId(id: nat)
      modifies this`reqId
      ensures reqId == id
    {
      reqId := id;
    }

    method Posted(ghost live: set<nat>)
      requires Partition(live)
      modifies this`toBePosted, this`toBePolled
      ensures Partition(live) && toBePosted == {} && toBePolled == old(toBePolled + toBePosted)
    {
      toBePolled := toBePolled + toBePosted;
      toBePosted := {};
    }

    method RescheduleCompleted(ghost live: set<nat>)
      requires Partition(live)
      modifies this`toBePosted, this`completed
      ensures Partition(live) && completed == {} && toBePosted == old(toBePosted + completed)
    {
      toBePosted := toBePosted + completed;
      completed := {};
    }

    /** Only processes being polled are listened to, and each only once: by its first
        completion a failed one is dropped for good, a remnant of another request is
        asked again, and the others have answered. */
    method ActuallyPolled(entries: seq<SlotCompletion>, ghost live: set<nat>)
      returns (positive: seq<nat>, negative: seq<nat>)
      requires Partition(live)
      modifies this`completed, this`toBePosted, this`toBePolled
      ensures Partition(live - AsSet(negative)) && completed == old(completed) && Distinct(positive)
      ensures forall pid :: pid in positive <==> pid in old(toBePolled) && Answers(entries, kind, reqId, pid)
      ensures forall pid :: pid in negative <==> pid in old(toBePolled) && Fails(entries, pid)
      ensures AsSet(positive) <= toBePosted
      ensures toBePolled == set pid | pid in old(toBePolled) && Silent(entries, pid)
    {
      NoEntries(entries, kind, reqId);
      hide Answers, Fails, Silent;
      positive, negative := [], [];
      var i := 0;
      while i < |entries|
        invariant 0 <= i <= |entries|
        invariant Partition(live - AsSet(negative)) && completed == old(completed) && Distinct(positive)
        invariant toBePolled == set pid | pid in old(toBePolled) && Silent(entries[..i], pid)
        invariant forall pid :: pid in positive <==> pid in old(toBePolled) && Answers(entries[..i], kind, reqId, pid)
        invariant forall pid :: pid in negative <==> pid in old(toBePolled) && Fails(entries[..i], pid)
        invariant forall pid :: pid in positive ==> pid in toBePosted
        invariant forall pid :: pid in negative ==> pid in live
      {
        var e := entries[i];
        OneMoreEntry(entries, i, kind, reqId);
        i := i + 1;
        if e.pid !in toBePolled {
          continue;
        }
        if !e.ok {
          toBePosted := toBePosted - {e.pid};
          toBePolled := toBePolled - {e.pid};
          completed := completed - {e.pid};
          assert AsSet(negative + [e.pid]) == AsSet(negative) + {e.pid};
          negative := negative + [e.pid];
          continue;
        }
        toBePosted := toBePosted + {e.pid};
        toBePolled := toBePolled - {e.pid};
        if e.kind != kind || e.seqNr != reqId {
          continue;
        }
        positive := positive + [e.pid];
      }
      assert entries[..i] == entries;
    }

    /** Fails, as the source throws, for a process still being polled or not ready to
        be asked again. */
    method MoveToCompleted(remoteId: nat, ghost live: set<nat>) returns (ok: bool)
      requires Partition(live)
      modifies this`completed, this`toBePosted
      ensures ok <==> remoteId !in toBePolled && remoteId in old(toBePosted)
      ensures ok ==> Partition(live) && completed == old(completed) + {remoteId}
      ensures ok ==> toBePosted == old(toBePosted) - {remoteId}
      ensures !ok ==> completed == old(completed) && toBePosted == old(toBePosted)
    {
      if remoteId in toBePolled {
        return false;
      }
      if remoteId !in toBePosted {
        return false;
      }
      completed := completed + {remoteId};
      toBePosted := toBePosted - {remoteId};
      ok := true;
    }
  }

  function AsSet(xs: seq<nat>): set<nat> {
    set x | x in xs
  }

  predicate Distinct(xs: seq<nat>) {
    forall i, j :: 0 <= i < j < |xs| ==> xs[i] != xs[j]
  }

  /** Nothing of pid is among the entries. */
  predicate Silent(entries: seq<SlotCompletion>, pid: nat) {
    forall i :: 0 <= i < |entries| ==> entries[i].pid != pid
  }

  /** The i-th entry is the first of its process. */
  predicate IsFirst(entries: seq<SlotCompletion>, i: nat) {
    i < |entries| && Silent(entries[..i], entries[i].pid)
  }

  /** The first completion of pid is a successful read for this very request. */
  predicate Answers(entries: seq<SlotCompletion>, kind: nat, reqId: nat, pid: nat) {
    exists i :: 0 <= i < |entries| && IsFirst(entries, i) && entries[i].pid == pid && entries[i].ok
        && entries[i].kind == kind && entries[i].seqNr == reqId
  }

  /** The first completion of pid is an error. */
  predicate Fails(entries: seq<SlotCompletion>, pid: nat) {
    exists i :: 0 <= i < |entries| && IsFirst(entries, i) && entries[i].pid == pid && !entries[i].ok
  }

  lemma NoEntries(entries: seq<SlotCompletion>, kind: nat, reqId: nat)
    ensures forall pid :: Silent(entries[..0], pid)
    ensures forall pid :: !Answers(entries[..0], kind, reqId, pid) && !Fails(entries[..0], pid)
  {}

  lemma OneMoreEntry(entries: seq<SlotCompletion>, i: nat, kind: nat, reqId: nat)
    requires i < |entries|
    ensures forall pid :: Silent(entries[..i + 1], pid) <==> Silent(entries[..i], pid) && entries[i].pid != pid
    ensures forall pid :: Answers(entries[..i + 1], kind, reqId, pid) <==>
              Answers(entries[..i], kind, reqId, pid)
              || (Silent(entries[..i], pid) && entries[i].pid == pid
                  && entries[i].ok && entries[i].kind == kind && entries[i].seqNr == reqId)
    ensures forall pid :: Fails(entries[..i + 1], pid) <==>
              Fails(entries[..i], pid) || (Silent(entries[..i], pid) && entries[i].pid == pid && !entries[i].ok)
  {
    var before, now := entries[..i], entries[..i + 1];
    assert now == before + [entries[i]];
    forall k | 0 <= k < i ensures now[..k] == before[..k] {}
    assert now[..i] == before;
    assert forall k :: 0 <= k < i ==> (IsFirst(now, k) <==> IsFirst(before, k));
    assert IsFirst(now, i) <==> Silent(before, entries[i].pid);
  }

  // ---------------------------------------------------------------------
  // The reader
  // ---------------------------------------------------------------------

  /** What one round brings: a batch of completions, or an error from posting or
      polling. */
  datatype Round = Batch(entries: seq<SlotCompletion>) | PollError

  /** StillWaiting only means that the rounds given ran out. */
  datatype Outcome = Read | MajorityError | StillWaiting

  /** A process that answered: with an entry, or that there is nothing. */
  datatype Success = Something(pid: nat) | Nothing(pid: nat)

  function Pids(successes: seq<Success>): (pids: seq<nat>)
    ensures |pids| == |successes| && forall i :: 0 <= i < |pids| ==> pids[i] == successes[i].pid
  {
    seq(|successes|, i requires 0 <= i < |successes| => successes[i].pid)
  }

  /** The data that came with an answer of this process to this request bear the
      success out. */
  predicate BornOut(rounds: seq<Round>, n: nat, kind: nat, reqId: nat, success: Success)
    requires n <= |rounds|
  {
    exists t, i :: 0 <= t < n && rounds[t].Batch? && 0 <= i < |rounds[t].entries| && IsFirst(rounds[t].entries, i) &&
      var e := rounds[t].entries[i];
      && e.pid == success.pid && e.ok && e.kind == kind && e.seqNr == reqId
      && (success.Something? <==> Populated(e.data)) && (success.Something? ==> Complete(e.data, e.size))
  }

  function AllAnswered(rounds: seq<Round>, n: nat, reqId: nat, live: set<nat>): set<nat>
    requires n <= |rounds|
  {
    set pid | pid in live && Answered(rounds, n, reqId, pid)
  }

  function AllDropped(rounds: seq<Round>, n: nat, reqId: nat, live: set<nat>): set<nat>
    requires n <= |rounds|
  {
    set pid | pid in live && Dropped(rounds, n, reqId, pid)
  }

  lemma DroppedGrows(rounds: seq<Round>, n: nat, reqId: nat, live: set<nat>)
    requires n < |rounds|
    ensures AllDropped(rounds, n, reqId, live) <= AllDropped(rounds, n + 1, reqId, live) <= live
  {
    hide Breaks, Delivers;
  }

  /** One round more, for everybody at once: those polled are neither completed nor
      dropped, and answer, fail or neither. */
  lemma RoundStands(rounds: seq<Round>, n: nat, reqId: nat, live: set<nat>, dropped: set<nat>, completed: set<nat>,
      positive: set<nat>, negative: set<nat>)
    requires n < |rounds| && rounds[n].Batch?
    requires dropped == AllDropped(rounds, n, reqId, live) && completed == AllAnswered(rounds, n, reqId, live)
    requires forall pid :: pid in positive <==>
               pid in live - dropped - completed && Answers(rounds[n].entries, ENTRY_READ, reqId, pid)
    requires forall pid :: pid in negative <==> pid in live - dropped - completed && Fails(rounds[n].entries, pid)
    ensures AllAnswered(rounds, n + 1, reqId, live)
         == completed + set pid | pid in positive && Delivers(rounds[n], reqId, pid)
    ensures AllDropped(rounds, n + 1, reqId, live) == dropped + negative
  {
    hide Answered, Dropped, Delivers, Answers, Fails;
    forall pid | pid in live
      ensures Answered(rounds, n + 1, reqId, pid)
         <==> pid in completed || (pid in positive && Delivers(rounds[n], reqId, pid))
      ensures Dropped(rounds, n + 1, reqId, pid) <==> pid in dropped || pid in negative
    {
      OneMoreRound(rounds, n, reqId, pid);
      NeitherYet(rounds, n, reqId, pid);
      DeliversIs(rounds[n].entries, reqId, pid);
      assert rounds[n] == Batch(rounds[n].entries);
    }
  }

  /** The answer of pid in a batch. */
  function AnswerOf(entries: seq<SlotCompletion>, kind: nat, reqId: nat, pid: nat): (i: nat)
    requires Answers(entries, kind, reqId, pid)
    ensures i < |entries| && IsFirst(entries, i) && entries[i].pid == pid && entries[i].ok
    ensures entries[i].kind == kind && entries[i].seqNr == reqId
  {
    var n := |entries| - 1;
    OneMoreEntry(entries, n, kind, reqId);
    assert entries[..n + 1] == entries;
    if Answers(entries[..n], kind, reqId, pid) then
      var i := AnswerOf(entries[..n], kind, reqId, pid);
      assert entries[..n][..i] == entries[..i];
      i
    else n
  }

  /** What was read shows that there is nothing, or an entire entry. */
  predicate Usable(e: SlotCompletion) {
    !Populated(e.data) || Complete(e.data, e.size)
  }

  /** A slot with a whole record in it is usable exactly if the read was long enough for
      all of it, and an empty slot always; of a record that has arrived in part only
      what still looks empty is. */
  lemma UsableIff(e: SlotCompletion, r: Record, p: nat)
    requires Fits(r) && p <= Size(r) <= |e.data|
    requires LiesAt(e.data, 0, Encode(r)[..p] + Zeros(Size(r) - p))
    ensures p == Size(r) ==> Populated(e.data) && (Usable(e) <==> Size(r) <= e.size)
    ensures p == 0 ==> !Populated(e.data) && Usable(e)
    ensures p < Size(r) ==> (Usable(e) <==> !Populated(e.data))
  {
    if p == Size(r) {
      WholeLies(e.data, r);
      RecordRoundTrip(e.data, 0, r);
    } else {
      TornRecord(e.data, 0, r, p);
      if p == 0 {
        NothingLies(e.data, r);
      }
    }
    hide Encode, Zeros, LiesAt, LengthAt, CanaryAt, ParsedAt;
  }

  lemma WholeLies(m: seq<Byte>, r: Record)
    requires Fits(r) && LiesAt(m, 0, Encode(r)[..Size(r)] + Zeros(0))
    ensures LiesAt(m, 0, Encode(r))
  {
    hide Encode;
    assert Encode(r)[..Size(r)] + Zeros(0) == Encode(r);
  }

  lemma NothingLies(m: seq<Byte>, r: Record)
    requires Fits(r) && LiesAt(m, 0, Encode(r)[..0] + Zeros(Size(r)))
    ensures |m| >= 8 && LengthAt(m, 0) == 0
  {
    hide Encode;
    assert m[0..8] == m[0..Size(r)][..8] == Zeros(8);
    ZerosAreZero(8);
  }

  /** In this round pid answers this request with something usable. */
  predicate Delivers(round: Round, reqId: nat, pid: nat) {
    && round.Batch?
    && exists i :: 0 <= i < |round.entries| && IsFirst(round.entries, i) && round.entries[i].pid == pid
         && round.entries[i].ok && round.entries[i].kind == ENTRY_READ && round.entries[i].seqNr == reqId
         && Usable(round.entries[i])
  }

  predicate Breaks(round: Round, pid: nat) {
    round.Batch? && Fails(round.entries, pid)
  }

  /** Within the first n rounds pid gives a usable answer, and does not fail before. */
  predicate Answered(rounds: seq<Round>, n: nat, reqId: nat, pid: nat)
    requires n <= |rounds|
  {
    exists t :: 0 <= t < n && Delivers(rounds[t], reqId, pid) && forall u :: 0 <= u < t ==> !Breaks(rounds[u], pid)
  }

  /** Within the first n rounds pid fails, and has not answered before. */
  predicate Dropped(rounds: seq<Round>, n: nat, reqId: nat, pid: nat)
    requires n <= |rounds|
  {
    exists t :: 0 <= t < n && Breaks(rounds[t], pid) && forall u :: 0 <= u < t ==> !Delivers(rounds[u], reqId, pid)
  }

  lemma FirstIsOne(entries: seq<SlotCompletion>, i: nat, j: nat)
    requires IsFirst(entries, i) && IsFirst(entries, j) && entries[i].pid == entries[j].pid
    ensures i == j
  {
    if i < j {
      NotSilent(entries, i, j);
    } else if j < i {
      NotSilent(entries, j, i);
    }
  }

  lemma NotSilent(entries: seq<SlotCompletion>, i: nat, j: nat)
    requires i < j <= |entries|
    ensures !Silent(entries[..j], entries[i].pid)
  {
    assert entries[..j][i] == entries[i];
  }

  /** With a usable answer the answer is the usable one; an answer is no failure. */
  lemma DeliversIs(entries: seq<SlotCompletion>, reqId: nat, pid: nat)
    ensures Delivers(Batch(entries), reqId, pid) <==>
              Answers(entries, ENTRY_READ, reqId, pid)
              && Usable(entries[AnswerOf(entries, ENTRY_READ, reqId, pid)])
    ensures !(Answers(entries, ENTRY_READ, reqId, pid) && Fails(entries, pid))
  {
    hide Usable;
    if Answers(entries, ENTRY_READ, reqId, pid) {
      var k := AnswerOf(entries, ENTRY_READ, reqId, pid);
      forall i | 0 <= i < |entries| && IsFirst(entries, i) && entries[i].pid == pid ensures i == k {
        FirstIsOne(entries, i, k);
      }
    }
  }

  /** As long as a process has neither answered nor been dropped, nothing has happened. */
  lemma {:induction false} NeitherYet(rounds: seq<Round>, n: nat, reqId: nat, pid: nat)
    requires n <= |rounds|
    ensures !(Answered(rounds, n, reqId, pid) && Dropped(rounds, n, reqId, pid))
    ensures !Answered(rounds, n, reqId, pid) && !Dropped(rounds, n, reqId, pid) ==>
              forall t :: 0 <= t < n ==> !Delivers(rounds[t], reqId, pid) && !Breaks(rounds[t], pid)
  {
    if n > 0 {
      NeitherYet(rounds, n - 1, reqId, pid);
      if rounds[n - 1].Batch? {
        DeliversIs(rounds[n - 1].entries, reqId, pid);
      }
      hide Delivers, Breaks;
      if Answered(rounds, n - 1, reqId, pid) {
        assert Answered(rounds, n, reqId, pid);
      }
    }
  }

  lemma OneMoreRound(rounds: seq<Round>, n: nat, reqId: nat, pid: nat)
    requires n < |rounds|
    ensures Answered(rounds, n + 1, reqId, pid) <==>
              Answered(rounds, n, reqId, pid) || (!Dropped(rounds, n, reqId, pid) && Delivers(rounds[n], reqId, pid))
    ensures Dropped(rounds, n + 1, reqId, pid) <==>
              Dropped(rounds, n, reqId, pid) || (!Answered(rounds, n, reqId, pid) && Breaks(rounds[n], pid))
  {
    hide Delivers, Breaks;
    NeitherYet(rounds, n, reqId, pid);
  }

  class LogSlotReader {
    const remotes: set<nat>
    const quorumSize: nat
    const toleratedFailures: nat
    var tracker: ToBePolled
    var requestId: nat
    var failed: set<nat>
    var successes: seq<Success>

    /** The quorum leaves the reader itself out. */
    constructor (remotes: set<nat>)
      ensures Valid() && fresh(tracker) && this.remotes == remotes && failed == {} && requestId == 1
      ensures quorumSize == Majority(|remotes| + 1) - 1 && toleratedFailures == Minority(|remotes| + 1)
    {
      this.remotes := remotes;
      quorumSize, toleratedFailures := Majority(|remotes| + 1) - 1, Minority(|remotes| + 1);
      tracker := new ToBePolled(ENTRY_READ, remotes);
      requestId, failed, successes := 1, {}, [];
    }

    ghost predicate Valid()
      reads this, tracker
    {
      failed <= remotes && tracker.kind == ENTRY_READ && tracker.Partition(remotes - failed)
    }

    /** After an error: everybody counts again, and the request id is reused. */
    method RecoverFromError(reqId: nat)
      modifies this`tracker, this`failed, this`requestId
      ensures Valid() && fresh(tracker) && failed == {} && requestId == reqId && tracker.toBePosted == remotes
    {
      requestId := reqId;
      tracker := new ToBePolled(ENTRY_READ, remotes);
      failed := {};
    }

    /** What became of this round's answers so far: distinct, completed, borne out. */
    ghost predicate Gathered(rounds: seq<Round>, n: nat, reqId: nat)
      requires n <= |rounds|
      reads this, tracker
    {
      && Distinct(Pids(successes)) && AsSet(Pids(successes)) == tracker.completed
      && forall k :: 0 <= k < |successes| ==> BornOut(rounds, n, ENTRY_READ, reqId, successes[k])
    }

    /** Move the processes that answered to the completed ones, unless what they sent
        is incomplete: those are asked again.  The exceptions of moveToCompleted
        cannot happen here. */
    method TakeAnswers(rounds: seq<Round>, ghost n: nat, entries: seq<SlotCompletion>, positive: seq<nat>)
      requires Valid() && n < |rounds| && rounds[n] == Batch(entries) && Gathered(rounds, n, requestId)
      requires AsSet(positive) <= tracker.toBePosted && Distinct(positive)
      requires forall pid :: pid in positive ==> Answers(entries, ENTRY_READ, requestId, pid)
      modifies this`successes, tracker
      ensures Valid() && Gathered(rounds, n + 1, requestId)
      ensures tracker.reqId == old(tracker.reqId)
      ensures tracker.completed == old(tracker.completed)
            + set pid | pid in AsSet(positive) && Delivers(rounds[n], requestId, pid)
    {
      hide Delivers, Answers, IsFirst;
      BornOutLater(rounds, n, requestId, successes);
      var i := 0;
      while i < |positive|
        invariant 0 <= i <= |positive| && Valid() && tracker.reqId == old(tracker.reqId)
        invariant forall k :: i <= k < |positive| ==> positive[k] in tracker.toBePosted
        invariant Gathered(rounds, n + 1, requestId)
        invariant tracker.completed == old(tracker.completed)
              + set pid | pid in AsSet(positive[..i]) && Delivers(rounds[n], requestId, pid)
      {
        var pid := positive[i];
        var e := entries[AnswerOf(entries, ENTRY_READ, requestId, pid)];
        DeliversIs(entries, requestId, pid);
        assert AsSet(positive[..i + 1]) == AsSet(positive[..i]) + {pid} by {
          assert positive[..i + 1] == positive[..i] + [pid];
        }
        var populated := Populated(e.data);
        if !populated || Complete(e.data, e.size) {
          TakeOne(rounds, n, entries, pid, if populated then Something(pid) else Nothing(pid));
        }
        i := i + 1;
      }
      assert positive[..i] == positive;
    }

    /** A process that answered is completed, and a success. */
    method TakeOne(ghost rounds: seq<Round>, ghost n: nat, ghost entries: seq<SlotCompletion>, pid: nat,
        success: Success)
      requires Valid() && n < |rounds| && rounds[n] == Batch(entries) && Gathered(rounds, n + 1, requestId)
      requires pid in tracker.toBePosted && Answers(entries, ENTRY_READ, requestId, pid) && success.pid == pid
      requires var e := entries[AnswerOf(entries, ENTRY_READ, requestId, pid)];
               (success.Something? <==> Populated(e.data)) && (success.Something? ==> Complete(e.data, e.size))
      modifies this`successes, tracker
      ensures Valid() && Gathered(rounds, n + 1, requestId) && tracker.reqId == old(tracker.reqId)
      ensures tracker.completed == old(tracker.completed) + {pid}
      ensures tracker.toBePosted == old(tracker.toBePosted) - {pid}
    {
      hide Populated, Complete, Answers, IsFirst;
      ghost var k := AnswerOf(entries, ENTRY_READ, requestId, pid);
      var moved := tracker.MoveToCompleted(pid, remotes - failed);
      assert moved;
      assert BornOut(rounds, n + 1, ENTRY_READ, requestId, success) by {
        assert rounds[n].entries[k] == entries[k];
      }
      hide BornOut;
      AddOne(successes, success);
      successes := successes + [success];
    }

    /** A quorum of live processes has answered within the first n rounds. */
    predicate Enough(rounds: seq<Round>, n: nat, reqId: nat, live: set<nat>)
      requires n <= |rounds|
    {
      |AllAnswered(rounds, n, reqId, live)| >= quorumSize
    }

    /** Somebody fails in the last of the first n rounds, and that is too many now. */
    predicate TooMany(rounds: seq<Round>, n: nat, reqId: nat, failed0: set<nat>)
      requires n <= |rounds|
    {
      var live := remotes - failed0;
      && n > 0 && AllDropped(rounds, n, reqId, live) != AllDropped(rounds, n - 1, reqId, live)
      && |failed0 + AllDropped(rounds, n, reqId, live)| > toleratedFailures
    }

    /** Where everybody taken into account at first stands after n rounds. */
    ghost predicate Stands(rounds: seq<Round>, n: nat, failed0: set<nat>)
      requires n <= |rounds|
      reads this, tracker
    {
      && failed0 <= remotes
      && failed == failed0 + AllDropped(rounds, n, requestId, remotes - failed0)
      && tracker.completed == AllAnswered(rounds, n, requestId, remotes - failed0)
    }

    /** Ask those not asked yet, and poll: whoever is neither completed nor failed is heard. */
    method AskAndPoll(entries: seq<SlotCompletion>) returns (positive: seq<nat>, negative: seq<nat>)
      requires Valid() && tracker.reqId == requestId
      modifies this`failed, tracker
      ensures Valid() && tracker.completed == old(tracker.completed) && tracker.reqId == old(tracker.reqId)
      ensures forall pid :: pid in positive <==>
                pid in remotes - old(failed) - tracker.completed && Answers(entries, ENTRY_READ, requestId, pid)
      ensures forall pid :: pid in negative <==>
                pid in remotes - old(failed) - tracker.completed && Fails(entries, pid)
      ensures AsSet(positive) <= tracker.toBePosted && Distinct(positive)
      ensures failed == old(failed) + AsSet(negative)
    {
      hide Answers, Fails, Silent, Distinct;
      if tracker.toBePosted != {} {
        tracker.Posted(remotes - failed);
      }
      assert tracker.toBePolled == remotes - failed - tracker.completed;
      positive, negative := tracker.ActuallyPolled(entries, remotes - failed);
      assert remotes - (failed + AsSet(negative)) == remotes - failed - AsSet(negative);
      failed := failed + AsSet(negative);
    }

    /** One round: ask, poll, and sort out the answers.  False if somebody failed and too
        many have by now. */
    method OneRound(rounds: seq<Round>, ghost n: nat, entries: seq<SlotCompletion>, ghost failed0: set<nat>)
      returns (ok: bool)
      requires Valid() && n < |rounds| && rounds[n] == Batch(entries) && Gathered(rounds, n, requestId)
      requires tracker.reqId == requestId && Stands(rounds, n, failed0)
      modifies this`failed, this`successes, tracker
      ensures Valid() && Gathered(rounds, n + 1, requestId) && tracker.reqId == requestId
      ensures Stands(rounds, n + 1, failed0)
      ensures ok <==> !TooMany(rounds, n + 1, requestId, failed0)
      ensures |tracker.completed| >= quorumSize <==> Enough(rounds, n + 1, requestId, remotes - failed0)
    {
      hide BornOut, Answers, Fails, AllAnswered, AllDropped, TooMany, Delivers, Distinct;
      ghost var completed := tracker.completed;
      var positive, negative := AskAndPoll(entries);
      TakeAnswers(rounds, n, entries, positive);
      ok := |negative| == 0 || |failed| <= toleratedFailures;
      SetIsEmpty(negative);
      RoundSettles(rounds, n, failed0, old(failed), completed, AsSet(positive), AsSet(negative));
    }

    /** What the sets of a round make of where everybody stands. */
    lemma RoundSettles(rounds: seq<Round>, n: nat, failed0: set<nat>, failed1: set<nat>, completed: set<nat>,
        positive: set<nat>, negative: set<nat>)
      requires n < |rounds| && rounds[n].Batch?
      requires failed1 == failed0 + AllDropped(rounds, n, requestId, remotes - failed0) <= remotes
      requires completed == AllAnswered(rounds, n, requestId, remotes - failed0)
      requires forall pid :: pid in positive <==>
                 pid in remotes - failed1 - completed && Answers(rounds[n].entries, ENTRY_READ, requestId, pid)
      requires forall pid :: pid in negative <==>
                 pid in remotes - failed1 - completed && Fails(rounds[n].entries, pid)
      ensures failed1 + negative == failed0 + AllDropped(rounds, n + 1, requestId, remotes - failed0)
      ensures completed + (set pid | pid in positive && Delivers(rounds[n], requestId, pid))
           == AllAnswered(rounds, n + 1, requestId, remotes - failed0)
      ensures TooMany(rounds, n + 1, requestId, failed0)
         <==> negative != {} && |failed1 + negative| > toleratedFailures
    {
      var live, dropped := remotes - failed0, AllDropped(rounds, n, requestId, remotes - failed0);
      DroppedGrows(rounds, n, requestId, live);
      assert live - dropped == remotes - failed1;
      RoundStands(rounds, n, requestId, live, dropped, completed, positive, negative);
      hide AllDropped, AllAnswered, Answers, Fails, Delivers;
      assert AllDropped(rounds, n + 1, requestId, live) == dropped + negative;
      assert failed0 + (dropped + negative) == failed1 + negative;
      assert negative !! dropped;
    }

    /** Everybody still taken into account is to be asked again. */
    method Restart(ghost rounds: seq<Round>)
      requires Valid()
      modifies this`successes, tracker
      ensures Valid() && tracker.reqId == requestId && Gathered(rounds, 0, requestId)
      ensures Stands(rounds, 0, failed)
    {
      NoneYet();
      tracker.FocusOnReqId(requestId);
      tracker.RescheduleCompleted(remotes - failed);
      successes := [];
    }

    lemma Settles(rounds: seq<Round>, n: nat, failed0: set<nat>)
      requires Valid() && n <= |rounds| && Stands(rounds, n, failed0) && Gathered(rounds, n, requestId)
      ensures failed == failed0 + AllDropped(rounds, n, requestId, remotes - failed0)
      ensures AsSet(Pids(successes)) == AllAnswered(rounds, n, requestId, remotes - failed0) <= remotes - failed
      ensures Enough(rounds, n, requestId, remotes - failed0) <==> |tracker.completed| >= quorumSize
      ensures n == 0 ==> !TooMany(rounds, n, requestId, failed0)
      ensures Distinct(Pids(successes)) && |successes| == |tracker.completed|
      ensures forall k :: 0 <= k < |successes| ==> BornOut(rounds, n, ENTRY_READ, requestId, successes[k])
    {
      hide BornOut, Distinct, AsSet, Pids;
      PidsCount(successes);
    }

    /** None of these rounds settles anything yet. */
    predicate Undecided(rounds: seq<Round>, n: nat, reqId: nat, failed0: set<nat>)
      requires n <= |rounds|
    {
      forall u :: 0 <= u < n ==>
        && rounds[u].Batch? && !TooMany(rounds, u, reqId, failed0)
        && (u > 0 ==> !Enough(rounds, u, reqId, remotes - failed0))
    }

    /** The loop of readSlotAt, after the restart: round after round. */
    method Collect(rounds: seq<Round>, ghost failed0: set<nat>) returns (outcome: Outcome, ghost used: nat)
      requires Valid() && tracker.reqId == requestId && Gathered(rounds, 0, requestId) && Stands(rounds, 0, failed0)
      modifies this`failed, this`successes, tracker
      ensures Valid() && used <= |rounds|
      ensures Gathered(rounds, used, requestId) && Stands(rounds, used, failed0)
      ensures Undecided(rounds, used, requestId, failed0)
      ensures outcome.Read? <==>
                && used > 0 && Enough(rounds, used, requestId, remotes - failed0)
                && !TooMany(rounds, used, requestId, failed0)
      ensures outcome.StillWaiting? ==> used == |rounds| && !TooMany(rounds, used, requestId, failed0)
      ensures outcome.MajorityError? ==>
                TooMany(rounds, used, requestId, failed0) || (used < |rounds| && rounds[used].PollError?)
    {
      hide TooMany, Enough, Stands, Gathered, Valid;
      Settles(rounds, 0, failed0);
      used := 0;
      var t := 0;
      var waiting := true;
      while waiting
        invariant 0 <= t == used <= |rounds| && Valid() && tracker.reqId == requestId
        invariant Gathered(rounds, t, requestId) && Stands(rounds, t, failed0)
        invariant waiting <==> t == 0 || !Enough(rounds, t, requestId, remotes - failed0)
        invariant Undecided(rounds, t, requestId, failed0) && !TooMany(rounds, t, requestId, failed0)
        decreases waiting, |rounds| - t
      {
        if t == |rounds| {
          return StillWaiting, used;
        }
        var round := rounds[t];
        if round.PollError? {
          return MajorityError, used;
        }
        var ok := OneRound(rounds, t, round.entries, failed0);
        t, used := t + 1, used + 1;
        if !ok {
          return MajorityError, used;
        }
        waiting := |tracker.completed| < quorumSize;
      }
      outcome := Read;
    }

    /** readSlotAt: ask, poll and sort out answers until a quorum has answered.  Who has,
        is told by the rounds alone.  It succeeds after the first round with which a
        quorum has given usable answers, unless polling fails or too many processes
        have failed by then, and asks on as long as there is neither. */
    method ReadSlotAt(rounds: seq<Round>) returns (outcome: Outcome, ghost used: nat)
      requires Valid()
      modifies this, tracker
      ensures Valid() && tracker == old(tracker) && used <= |rounds|
      ensures requestId == if outcome.Read? then old(requestId) + 1 else old(requestId)
      ensures failed == old(failed) + AllDropped(rounds, used, old(requestId), remotes - old(failed))
      ensures AsSet(Pids(successes)) == AllAnswered(rounds, used, old(requestId), remotes - old(failed))
      ensures Distinct(Pids(successes)) && AsSet(Pids(successes)) <= remotes - failed
      ensures forall k :: 0 <= k < |successes| ==> BornOut(rounds, used, ENTRY_READ, old(requestId), successes[k])
      ensures Undecided(rounds, used, old(requestId), old(failed))
      ensures outcome.Read? <==>
                && used > 0 && Enough(rounds, used, old(requestId), remotes - old(failed))
                && !TooMany(rounds, used, old(requestId), old(failed))
      ensures outcome.Read? ==> |successes| >= quorumSize
      ensures outcome.StillWaiting? ==> used == |rounds| && !TooMany(rounds, used, old(requestId), old(failed))
      ensures outcome.MajorityError? ==>
                TooMany(rounds, used, old(requestId), old(failed)) || (used < |rounds| && rounds[used].PollError?)
    {
      hide BornOut, Distinct, AsSet, Pids, AllAnswered, AllDropped, TooMany, Enough, Undecided;
      ghost var failed0 := failed;
      Restart(rounds);
      outcome, used := Collect(rounds, failed0);
      Settles(rounds, used, failed0);
      if outcome.Read? {
        requestId := requestId + 1;
      }
    }
  }

  lemma SetIsEmpty(xs: seq<nat>)
    ensures AsSet(xs) == {} <==> |xs| == 0
  {
    if |xs| > 0 {
      assert xs[0] in AsSet(xs);
    }
  }

  lemma NoneYet()
    ensures Distinct(Pids([])) && AsSet(Pids([])) == {}
  {
  }

  lemma AddOne(successes: seq<Success>, success: Success)
    requires Distinct(Pids(successes)) && success.pid !in AsSet(Pids(successes))
    ensures Distinct(Pids(successes + [success]))
    ensures AsSet(Pids(successes + [success])) == AsSet(Pids(successes)) + {success.pid}
  {
    var pids, pids' := Pids(successes), Pids(successes + [success]);
    assert pids' == pids + [success.pid];
    assert forall i :: 0 <= i < |pids| ==> pids[i] in AsSet(pids);
  }

  lemma BornOutLater(rounds: seq<Round>, n: nat, reqId: nat, successes: seq<Success>)
    requires n < |rounds|
    requires forall k :: 0 <= k < |successes| ==> BornOut(rounds, n, ENTRY_READ, reqId, successes[k])
    ensures forall k :: 0 <= k < |successes| ==> BornOut(rounds, n + 1, ENTRY_READ, reqId, successes[k])
  {
    forall k | 0 <= k < |successes|
      ensures BornOut(rounds, n + 1, ENTRY_READ, reqId, successes[k])
    {
      assert BornOut(rounds, n, ENTRY_READ, reqId, successes[k]);
    }
  }

  lemma PidsCount(successes: seq<Success>)
    requires Distinct(Pids(successes))
    ensures |AsSet(Pids(successes))| == |successes|
  {
    DistinctCount(Pids(successes));
  }

  lemma {:induction false} DistinctCount(xs: seq<nat>)
    requires Distinct(xs)
    ensures |AsSet(xs)| == |xs|
  {
    if xs != [] {
      var n := |xs| - 1;
      DistinctCount(xs[..n]);
      assert xs == xs[..n] + [xs[n]];
      assert AsSet(xs) == AsSet(xs[..n]) + {xs[n]};
    }
  }
}
