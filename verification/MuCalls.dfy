// Mu: the loops in a call.

module MuCalls {
  // The loops inside one call of propose, in the form of the source, against what
  // the protocol steps of MuModel demand of them.

  import opened Options
  import opened MuModel

  function AsSet(pids: seq<nat>): set<nat> {
    set pid | pid in pids
  }

  class CatchUpWithFollowers {
    var proposalNr: nat
    const modulo: nat
    const quorumSize: nat
    var needUpdatePids: seq<nat>
    var needUpdateDiff: map<nat, nat>
    var needUpdateQuorum: nat

    constructor (id: nat, modulo: nat, quorumSize: nat)
      ensures proposalNr == id && this.modulo == modulo && this.quorumSize == quorumSize
    {
      proposalNr, this.modulo, this.quorumSize := id, modulo, quorumSize;
      needUpdatePids, needUpdateDiff, needUpdateQuorum := [], map[], 0;
    }

    /** One round of catchProposal after its reads.  A retry has stepped the number once. */
    method CatchProposal(reading: Reading) returns (ok: bool)
      requires AsSet(reading.pids) <= reading.slots.Keys
      modifies this`proposalNr
      ensures ok <==> Covers(old(proposalNr), reading)
      ensures proposalNr == if ok then old(proposalNr) else old(proposalNr) + modulo
    {
      var pids, slots := reading.pids, reading.slots;
      var maxProposal := reading.header;
      var i := 0;
      while i < |pids|
        invariant 0 <= i <= |pids|
        invariant maxProposal >= reading.header && forall j :: 0 <= j < i ==> slots[pids[j]] <= maxProposal
        invariant maxProposal == reading.header || exists j :: 0 <= j < i && slots[pids[j]] == maxProposal
      {
        assert pids[i] in AsSet(pids);
        var read := slots[pids[i]];
        if maxProposal < read {
          maxProposal := read;
        }
        i := i + 1;
      }
      ok := maxProposal <= proposalNr;
      if !ok {
        proposalNr := proposalNr + modulo;
      }
    }

    /** A round on what a term has read: it succeeds exactly when the protocol may go on
        to announce the proposal, and otherwise takes exactly the protocol's retry. */
    method CatchProposalRound(ghost s: State, ghost a: nat, reading: Reading) returns (ok: bool)
      requires Shape(s) && ProposalsRead(s, a)
      requires reading.slots == s.terms[a].phase.props && AsSet(reading.pids) == reading.slots.Keys
      requires reading.header == Leader(s, a).minProp && proposalNr == Leader(s, a).propNr && modulo == Modulo(s)
      modifies this`proposalNr
      ensures ok ==> proposalNr == Leader(s, a).propNr && !Enabled(s, RetryProp(a)) && (Own(s, a) ==>
            Enabled(s, PostProp(a)))
      ensures !ok ==> !Enabled(s, PostProp(a)) && Enabled(s, RetryProp(a))
      ensures !ok ==> N(Next(s, RetryProp(a))) == N(s) && proposalNr == Next(s, RetryProp(a)).reps[Pid(s, a)].propNr
    {
      hide Covers, ProposalIsHigh, Enabled, Next, Modulo;
      CoversIsGuard(s, a, reading);
      RoundSteps(s, a);
      ok := CatchProposal(reading);
    }

    /** The retry loop of propose: each round reads the headers again, and readings[u] is
        what round u finds.  It stops at the first round in which nothing read exceeds
        the number, which has stepped once for each round before. */
    method CatchProposalLoop(readings: seq<Reading>) returns (rounds: nat, ok: bool)
      requires forall u :: 0 <= u < |readings| ==> AsSet(readings[u].pids) <= readings[u].slots.Keys
      modifies this`proposalNr
      ensures rounds <= |readings| && (!ok ==> rounds == |readings|)
      ensures forall u :: 0 <= u < rounds && (ok ==> u < rounds - 1) ==>
            !Covers(StepsOn(old(proposalNr), modulo, u), readings[u])
      ensures ok ==> rounds > 0 && Covers(proposalNr, readings[rounds - 1])
      ensures ok ==> proposalNr == StepsOn(old(proposalNr), modulo, rounds - 1)
      ensures !ok ==> proposalNr == StepsOn(old(proposalNr), modulo, rounds)
    {
      hide Covers, AsSet;
      rounds, ok := 0, false;
      while rounds < |readings|
        invariant rounds <= |readings| && !ok && proposalNr == StepsOn(old(proposalNr), modulo, rounds)
        invariant forall u :: 0 <= u < rounds ==> !Covers(StepsOn(old(proposalNr), modulo, u), readings[u])
      {
        ok := CatchProposal(readings[rounds]);
        rounds := rounds + 1;
        if ok {
          return;
        }
      }
    }

    /** catchFUO after its reads: who lags, by how much, and how many of them have to
        be brought up to date for a quorum.  `places` are the places of those listed
        among those that answered: all whose offset is behind, in the same order. */
    method CatchFuo(myFuo: nat, pids: seq<nat>, slots: map<nat, nat>) returns (ghost places: seq<nat>)
      requires AsSet(pids) <= slots.Keys
      modifies this`needUpdatePids, this`needUpdateDiff, this`needUpdateQuorum
      ensures forall i :: 0 <= i < |pids| ==> pids[i] in slots && (i in places <==> slots[pids[i]] < myFuo)
      ensures IsSelection(places, pids, needUpdatePids)
      ensures forall pid :: pid in pids ==> (pid in needUpdatePids <==> slots[pid] < myFuo)
      ensures forall pid :: pid in needUpdatePids ==> pid in pids && pid in needUpdateDiff
      ensures forall pid :: pid in pids ==>
            slots[pid] + (if pid in needUpdatePids then needUpdateDiff[pid] else 0) == Later(myFuo, slots[pid])
      ensures needUpdateQuorum + (|pids| - |needUpdatePids|) >= quorumSize
      ensures needUpdateQuorum > 0 ==> needUpdateQuorum + (|pids| - |needUpdatePids|) == quorumSize
    {
      hide IsSelection;
      needUpdatePids, places := [], [];
      NothingSelected(pids);
      var i := 0;
      while i < |pids|
        invariant 0 <= i <= |pids| && |needUpdatePids| <= i
        invariant IsSelection(places, pids, needUpdatePids)
        invariant forall u :: 0 <= u < |places| ==> places[u] < i
        invariant forall k :: 0 <= k < i ==> pids[k] in slots && (k in places <==> slots[pids[k]] < myFuo)
        invariant forall pid :: pid in needUpdatePids ==>
                    pid in pids && pid in slots && pid in needUpdateDiff && slots[pid] + needUpdateDiff[pid] == myFuo
      {
        assert pids[i] in AsSet(pids);
        var pid := pids[i];
        var remote := slots[pid];
        if myFuo > remote {
          SelectOneMore(places, pids, needUpdatePids, i);
          needUpdatePids, places := needUpdatePids + [pid], places + [i];
          needUpdateDiff := needUpdateDiff[pid := myFuo - remote];
        }
        i := i + 1;
      }
      forall pid | pid in pids
        ensures pid in needUpdatePids <==> slots[pid] < myFuo
      {
        SelectedIff(places, pids, needUpdatePids, myFuo, slots, pid);
      }
      var upToDate := |pids| - |needUpdatePids|;
      needUpdateQuorum := if upToDate >= quorumSize then 0 else quorumSize - upToDate;
    }
  }

  function Later(x: nat, y: nat): nat {
    if x < y then y else x
  }

  /** `chosen` is what stands at these places of xs, in the order of xs, each place once. */
  predicate IsSelection(places: seq<nat>, xs: seq<nat>, chosen: seq<nat>) {
    && |places| == |chosen|
    && (forall i, j :: 0 <= i < j < |places| ==> places[i] < places[j])
    && (forall i :: 0 <= i < |places| ==> places[i] < |xs| && chosen[i] == xs[places[i]])
  }

  lemma NothingSelected(xs: seq<nat>)
    ensures IsSelection([], xs, [])
  {}

  lemma SelectOneMore(places: seq<nat>, xs: seq<nat>, chosen: seq<nat>, i: nat)
    requires IsSelection(places, xs, chosen) && i < |xs| && forall u :: 0 <= u < |places| ==> places[u] < i
    ensures IsSelection(places + [i], xs, chosen + [xs[i]])
  {}

  /** Whoever is behind wherever it is listed, and only they, is selected. */
  lemma SelectedIff(places: seq<nat>, pids: seq<nat>, chosen: seq<nat>, myFuo: nat, slots: map<nat, nat>, pid: nat)
    requires IsSelection(places, pids, chosen) && pid in pids && pid in slots
    requires forall k :: 0 <= k < |pids| ==> pids[k] in slots && (k in places <==> slots[pids[k]] < myFuo)
    ensures pid in chosen <==> slots[pid] < myFuo
  {
    var k :| 0 <= k < |pids| && pids[k] == pid;
    if k in places {
      var u :| 0 <= u < |places| && places[u] == k;
      assert chosen[u] == pid;
    }
    if pid in chosen {
      var u :| 0 <= u < |chosen| && chosen[u] == pid;
      assert places[u] in places;
    }
  }

  /** What one round of reads finds: the own header, who answered, and with what. */
  datatype Reading = Reading(header: nat, pids: seq<nat>, slots: map<nat, nat>)

  /** Nothing read is above the number. */
  predicate Covers(number: nat, reading: Reading)
    requires AsSet(reading.pids) <= reading.slots.Keys
  {
    reading.header <= number && forall pid :: pid in reading.pids ==> reading.slots[pid] <= number
  }

  lemma CoversIsGuard(s: State, a: nat, reading: Reading)
    requires Shape(s) && ProposalsRead(s, a)
    requires reading.slots == s.terms[a].phase.props && AsSet(reading.pids) == reading.slots.Keys
    requires reading.header == Leader(s, a).minProp
    ensures Covers(Leader(s, a).propNr, reading) <==> ProposalIsHigh(s, a)
  {
    assert forall pid :: pid in reading.pids <==> pid in AsSet(reading.pids);
  }

  /** The two steps that the protocol offers at this point. */
  lemma RoundSteps(s: State, a: nat)
    requires Shape(s) && ProposalsRead(s, a)
    ensures Enabled(s, RetryProp(a)) <==> !ProposalIsHigh(s, a)
    ensures Enabled(s, PostProp(a)) <==> ProposalIsHigh(s, a) && Own(s, a)
    ensures !ProposalIsHigh(s, a) ==>
              && N(Next(s, RetryProp(a))) == N(s)
              && Next(s, RetryProp(a)).reps[Pid(s, a)].propNr == Leader(s, a).propNr + Modulo(s)
  {
    hide ProposalIsHigh, Modulo;
  }

  /** The number after u retries. */
  function StepsOn(number: nat, modulo: nat, u: nat): nat {
    if u == 0 then number else StepsOn(number, modulo, u - 1) + modulo
  }

  lemma {:induction false} StepsGrow(number: nat, modulo: nat, u: nat)
    requires modulo > 0
    ensures StepsOn(number, modulo, u) >= number + u
    ensures Multiple(StepsOn(number, modulo, u) - number, modulo)
  {
    if u > 0 {
      StepsGrow(number, modulo, u - 1);
      MultipleSteps(StepsOn(number, modulo, u - 1) - number, modulo);
    }
  }

  /** As long as what is read stays below a bound, the retries end: after that many
      rounds the number covers everything. */
  lemma RetriesEnd(number: nat, modulo: nat, bound: nat, reading: Reading, u: nat)
    requires modulo > 0 && AsSet(reading.pids) <= reading.slots.Keys
    requires reading.header <= bound && (forall pid :: pid in reading.pids ==> reading.slots[pid] <= bound)
    requires u >= bound
    ensures Covers(StepsOn(number, modulo, u), reading)
  {
    StepsGrow(number, modulo, u);
  }

  lemma MultipleSteps(x: nat, m: nat)
    requires m > 0 && Multiple(x, m)
    ensures Multiple(x + m, m)
  {
  }

  // ---------------------------------------------------------------------
  // The freshest value
  // ---------------------------------------------------------------------

  /** An answer of the slot reader: a negative id means nothing to read there. */
  datatype Answer = Nothing(pid: nat) | Something(pid: nat)

  /** The slots the answers stand for. */
  function SlotsOf(answers: seq<Answer>, stored: map<nat, Entry>): map<nat, Option<Entry>>
    requires forall i :: 0 <= i < |answers| && answers[i].Something? ==> answers[i].pid in stored
  {
    if answers == [] then map[]
    else
      var last := answers[|answers| - 1];
      SlotsOf(answers[..|answers| - 1], stored)[last.pid := if last.Nothing? then None else Some(stored[last.pid])]
  }

  predicate PidsDiffer(answers: seq<Answer>) {
    forall i, j :: 0 <= i < j < |answers| ==> answers[i].pid != answers[j].pid
  }

  lemma {:induction false} SlotsOfAre(answers: seq<Answer>, stored: map<nat, Entry>)
    requires forall i :: 0 <= i < |answers| && answers[i].Something? ==> answers[i].pid in stored
    requires PidsDiffer(answers)
    ensures forall pid :: pid in SlotsOf(answers, stored) <==> exists i :: 0 <= i < |answers| && answers[i].pid == pid
    ensures forall i :: 0 <= i < |answers| ==> answers[i].pid in SlotsOf(answers, stored)
    ensures forall i :: 0 <= i < |answers| ==>
              SlotsOf(answers, stored)[answers[i].pid]
                  == if answers[i].Nothing? then None else Some(stored[answers[i].pid])
  {
    if answers != [] {
      var before := answers[..|answers| - 1];
      assert forall i :: 0 <= i < |before| ==> before[i] == answers[i];
      SlotsOfAre(before, stored);
    }
  }

  /** The search of the slow path: starting from the local slot it keeps the entry
      with the greatest accepted proposal.  It finds nothing exactly when nothing
      was there, and otherwise a value the protocol may adopt, provided accepted
      proposals are positive, as process ids are. */
  method FindFreshest(local: Option<Entry>, answers: seq<Answer>, stored: map<nat, Entry>)
    returns (freshest: Option<Entry>)
    requires forall i :: 0 <= i < |answers| && answers[i].Something? ==> answers[i].pid in stored
    requires PidsDiffer(answers)
    requires forall i :: 0 <= i < |answers| && answers[i].Something? ==> stored[answers[i].pid].prop > 0
    ensures freshest.None? <==> NothingRead(local, SlotsOf(answers, stored))
    ensures freshest.Some? ==> IsFreshest(freshest.value, local, SlotsOf(answers, stored))
  {
    SlotsOfAre(answers, stored);
    freshest := None;
    var maxAccepted := 0;
    if local.Some? {
      freshest, maxAccepted := local, local.value.prop;
    }
    var i := 0;
    while i < |answers|
      invariant 0 <= i <= |answers|
      invariant freshest.Some? ==> freshest.value.prop == maxAccepted
      invariant freshest.None? ==> maxAccepted == 0 && local.None?
      invariant local.Some? ==> local.value.prop <= maxAccepted
      invariant forall j :: 0 <= j < i && answers[j].Something? ==> stored[answers[j].pid].prop <= maxAccepted
      invariant freshest.None? || freshest == local
             || exists j :: 0 <= j < i && answers[j].Something? && freshest == Some(stored[answers[j].pid])
    {
      if answers[i].Something? {
        var e := stored[answers[i].pid];
        if maxAccepted < e.prop {
          freshest, maxAccepted := Some(e), e.prop;
        }
      }
      i := i + 1;
    }
  }
}
