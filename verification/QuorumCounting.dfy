module QuorumCounting {
  // What the scoreboard means: with the completions of each process in order,
  // however they interleave, next_id is one past the last id a quorum has
  // acknowledged.

  import opened QuorumWaiter

  // ---------------------------------------------------------------------
  // Counting scores
  // ---------------------------------------------------------------------

  lemma {:induction false} AtLeastUpdate(scores: seq<int>, p: nat, v: int, id: int)
    requires p < |scores|
    ensures AtLeast(scores[p := v], id)
         == AtLeast(scores, id) - (if scores[p] >= id then 1 else 0) + (if v >= id then 1 else 0)
  {
    var n := |scores| - 1;
    if p < n {
      assert scores[p := v][..n] == scores[..n][p := v];
      AtLeastUpdate(scores[..n], p, v, id);
    } else {
      assert scores[p := v][..n] == scores[..n];
    }
  }

  lemma {:induction false} AtLeastFalls(scores: seq<int>, lo: int, hi: int)
    requires lo <= hi
    ensures AtLeast(scores, hi) <= AtLeast(scores, lo)
  {
    if scores != [] {
      AtLeastFalls(scores[..|scores| - 1], lo, hi);
    }
  }

  lemma {:induction false} NoneAbove(scores: seq<int>, id: int)
    requires forall i :: 0 <= i < |scores| ==> scores[i] < id
    ensures AtLeast(scores, id) == 0
  {
    if scores != [] {
      NoneAbove(scores[..|scores| - 1], id);
    }
  }

  // ---------------------------------------------------------------------
  // Completions in order
  // ---------------------------------------------------------------------

  /** Each process's completions of our kind carry its next id, one by one. */
  predicate InOrder(c: Config, b: Board, es: seq<Completion>)
    requires c.Valid() && InRange(es, |b.scores|)
  {
    es == [] ||
    var before, e := es[..|es| - 1], es[|es| - 1];
    && InOrder(c, b, before)
    && (e.kind == c.kind ==> FastFold(c, b, before).scores[e.pid] + c.modulo == e.seqNr)
  }

  /** How many completions of our kind process p has among es. */
  function Acks(c: Config, es: seq<Completion>, p: nat): nat {
    if es == [] then 0
    else
      var e := es[|es| - 1];
      Acks(c, es[..|es| - 1], p) + if e.kind == c.kind && e.pid == p then 1 else 0
  }

  lemma {:induction false} ScoreCountsAcks(c: Config, b: Board, es: seq<Completion>, p: nat)
    requires c.Valid() && InRange(es, |b.scores|) && InOrder(c, b, es) && p < |b.scores|
    ensures FastFold(c, b, es).scores[p] == b.scores[p] + Acks(c, es, p) * c.modulo
  {
    if es != [] {
      ScoreCountsAcks(c, b, es[..|es| - 1], p);
      var n := Acks(c, es[..|es| - 1], p);
      assert (n + 1) * c.modulo == n * c.modulo + c.modulo;
    }
  }

  // ---------------------------------------------------------------------
  // next_id as an order statistic
  // ---------------------------------------------------------------------

  /** A quorum has the id before next, and no quorum has next. */
  predicate Settled(c: Config, b: Board) {
    AtLeast(b.scores, b.next) < c.quorum <= AtLeast(b.scores, b.next - c.modulo)
  }

  lemma {:induction false} AdvanceHeld(c: Config, scores: seq<int>, next: int)
    requires c.Valid()
    ensures var n := Advance(c, scores, next); n == next || AtLeast(scores, n - c.modulo) >= c.quorum
    decreases Top(scores) - next + 1
  {
    if AtLeast(scores, next) >= c.quorum {
      TopIsReached(scores, next);
      AdvanceHeld(c, scores, next + c.modulo);
    }
  }

  /** Having advanced on fewer scores does not matter. */
  lemma {:induction false} AdvanceAgain(c: Config, fewer: seq<int>, scores: seq<int>, next: int)
    requires c.Valid()
    requires forall id :: AtLeast(fewer, id) <= AtLeast(scores, id)
    ensures Advance(c, scores, Advance(c, fewer, next)) == Advance(c, scores, next)
    decreases Top(fewer) - next + 1
  {
    if AtLeast(fewer, next) >= c.quorum {
      TopIsReached(fewer, next);
      AdvanceAgain(c, fewer, scores, next + c.modulo);
      assert AtLeast(scores, next) >= c.quorum;
    }
  }

  lemma {:induction false} NextFromScores(c: Config, b: Board, es: seq<Completion>)
    requires c.Valid() && InRange(es, |b.scores|) && InOrder(c, b, es)
    requires AtLeast(b.scores, b.next) < c.quorum
    ensures var b' := FastFold(c, b, es); b'.next == Advance(c, b'.scores, b.next)
    ensures var b' := FastFold(c, b, es); forall id :: AtLeast(b.scores, id) <= AtLeast(b'.scores, id)
  {
    if es != [] {
      var before, e := es[..|es| - 1], es[|es| - 1];
      NextFromScores(c, b, before);
      var m, b' := FastFold(c, b, before), FastFold(c, b, es);
      if e.kind == c.kind {
        forall id
          ensures AtLeast(m.scores, id) <= AtLeast(b'.scores, id)
        {
          AtLeastUpdate(m.scores, e.pid, e.seqNr, id);
        }
        AdvanceAgain(c, m.scores, b'.scores, b.next);
      }
    }
  }

  /** The quorum-th highest acknowledged id lies just below next_id: no completed
      quorum is missed, none is claimed. */
  lemma NextIsStatistic(c: Config, b: Board, es: seq<Completion>)
    requires c.Valid() && InRange(es, |b.scores|) && InOrder(c, b, es) && Settled(c, b)
    ensures var b' := FastFold(c, b, es);
            && (forall id :: id <= b'.next - c.modulo ==> AtLeast(b'.scores, id) >= c.quorum)
            && (forall id :: id >= b'.next ==> AtLeast(b'.scores, id) < c.quorum)
  {
    NextFromScores(c, b, es);
    var b' := FastFold(c, b, es);
    AdvanceHeld(c, b'.scores, b.next);
    forall id | id <= b'.next - c.modulo
      ensures AtLeast(b'.scores, id) >= c.quorum
    {
      AtLeastFalls(b'.scores, id, b'.next - c.modulo);
      assert AtLeast(b.scores, b.next - c.modulo) <= AtLeast(b'.scores, b.next - c.modulo);
    }
    forall id | id >= b'.next
      ensures AtLeast(b'.scores, id) < c.quorum
    {
      AtLeastFalls(b'.scores, b'.next, id);
    }
  }

  /** Two interleavings of the same completions leave the same board. */
  lemma InterleavingIsIrrelevant(c: Config, b: Board, es: seq<Completion>, fs: seq<Completion>)
    requires c.Valid() && AtLeast(b.scores, b.next) < c.quorum
    requires InRange(es, |b.scores|) && InOrder(c, b, es)
    requires InRange(fs, |b.scores|) && InOrder(c, b, fs)
    requires forall p: nat :: p < |b.scores| ==> Acks(c, es, p) == Acks(c, fs, p)
    ensures FastFold(c, b, es) == FastFold(c, b, fs)
  {
    var x, y := FastFold(c, b, es), FastFold(c, b, fs);
    forall p: nat | p < |b.scores|
      ensures x.scores[p] == y.scores[p]
    {
      ScoreCountsAcks(c, b, es, p);
      ScoreCountsAcks(c, b, fs, p);
    }
    NextFromScores(c, b, es);
    NextFromScores(c, b, fs);
    assert x.scores == y.scores;
  }

  // ---------------------------------------------------------------------
  // The countdown form
  // ---------------------------------------------------------------------

  /** No process acknowledges a request before the one before it is replicated. */
  predicate RoundsApart(c: Config, b: Board, es: seq<Completion>)
    requires c.Valid() && InRange(es, |b.scores|)
  {
    es == [] ||
    var before, e := es[..|es| - 1], es[|es| - 1];
    && RoundsApart(c, b, before)
    && (e.kind == c.kind ==> e.seqNr <= FastFold(c, b, before).next)
  }

  predicate NoneAhead(b: Board) {
    forall i :: 0 <= i < |b.scores| ==> b.scores[i] <= b.next
  }

  /** `left` is what a quorum still lacks. */
  predicate LeftIsRight(c: Config, b: Board, left: int) {
    left == c.quorum - AtLeast(b.scores, b.next)
  }

  /** One completion, in order and not ahead of its round. */
  lemma CountdownStep(c: Config, d: Countdown, e: Completion)
    requires c.Valid() && e.pid < |d.board.scores|
    requires e.kind == c.kind ==> e.seqNr == d.board.scores[e.pid] + c.modulo && e.seqNr <= d.board.next
    requires NoneAhead(d.board) && AtLeast(d.board.scores, d.board.next) < c.quorum
    requires LeftIsRight(c, d.board, d.left)
    ensures var d', b' := CountStep(c, d, e), FastStep(c, d.board, e);
            d'.board == b' && LeftIsRight(c, b', d'.left) && NoneAhead(b') && AtLeast(b'.scores, b'.next) < c.quorum
  {
    if e.kind == c.kind {
      var m := d.board;
      var scores := Scored(c, m.scores, e);
      AtLeastUpdate(m.scores, e.pid, e.seqNr, m.next);
      assert scores == m.scores[e.pid := e.seqNr] && e.seqNr <= m.next;
      if AtLeast(scores, m.next) >= c.quorum {
        assert e.seqNr == m.next && AtLeast(scores, m.next) == c.quorum;
        NoneAbove(scores, m.next + c.modulo);
        assert Advance(c, scores, m.next) == Advance(c, scores, m.next + c.modulo) == m.next + c.modulo;
      }
    }
  }

  lemma {:induction false} CountdownAgrees(c: Config, d: Countdown, es: seq<Completion>)
    requires c.Valid() && InRange(es, |d.board.scores|)
    requires InOrder(c, d.board, es) && RoundsApart(c, d.board, es)
    requires NoneAhead(d.board) && AtLeast(d.board.scores, d.board.next) < c.quorum
    requires LeftIsRight(c, d.board, d.left)
    ensures var d', b' := CountFold(c, d, es), FastFold(c, d.board, es);
            d'.board == b' && LeftIsRight(c, b', d'.left) && NoneAhead(b') && AtLeast(b'.scores, b'.next) < c.quorum
  {
    hide AtLeast, NoneAhead, LeftIsRight, FastStep, CountStep;
    if es != [] {
      var before, e := es[..|es| - 1], es[|es| - 1];
      CountdownAgrees(c, d, before);
      CountdownStep(c, CountFold(c, d, before), e);
    }
  }

  /** Who has acknowledged this id or a later one. */
  function Acked(b: Board, id: int): set<nat> {
    set p | 0 <= p < |b.scores| && b.scores[p] >= id
  }

  function PidsOf(successes: seq<nat>): set<nat> {
    set p | p in successes
  }

  lemma AckedCount(b: Board, id: int)
    ensures |Acked(b, id)| == AtLeast(b.scores, id)
  {
    AtLeastCounts(b.scores, id);
    assert Acked(b, id) == set p | 0 <= p < |b.scores| && b.scores[p] >= id;
  }

  /** SUCCESSES.  From the start of a round on, with completions in order and rounds apart:
      those listed as successful have all acknowledged its request; until the round is
      over they are just those, and once it is there are a quorum of them. */
  lemma {:induction false} SuccessesAcked(c: Config, d: Countdown, es: seq<Completion>)
    requires c.Valid() && InRange(es, |d.board.scores|)
    requires InOrder(c, d.board, es) && RoundsApart(c, d.board, es)
    requires NoneAhead(d.board) && AtLeast(d.board.scores, d.board.next) == 0
    requires d.left == c.quorum && d.successes == []
    ensures var d', id := CountFold(c, d, es), d.board.next;
            && d'.board.next >= id
            && (forall p :: p in d'.successes ==> p in Acked(d'.board, id))
            && (d'.board.next == id ==> forall p :: p in Acked(d'.board, id) ==> p in d'.successes)
            && (d'.board.next > id ==> |PidsOf(d'.successes)| >= c.quorum)
  {
    if es == [] {
      AckedCount(d.board, d.board.next);
    } else {
      var before, e := es[..|es| - 1], es[|es| - 1];
      SuccessesAcked(c, d, before);
      CountdownAgrees(c, d, before);
      hide InOrder, RoundsApart;
      SuccessStep(c, CountFold(c, d, before), e, d.board.next);
    }
  }

  lemma SuccessStep(c: Config, m: Countdown, e: Completion, id: int)
    requires c.Valid() && e.pid < |m.board.scores| && m.board.next >= id
    requires e.kind == c.kind ==> e.seqNr == m.board.scores[e.pid] + c.modulo && e.seqNr <= m.board.next
    requires LeftIsRight(c, m.board, m.left) && AtLeast(m.board.scores, m.board.next) < c.quorum
    requires forall p :: p in m.successes ==> p in Acked(m.board, id)
    requires m.board.next == id ==> forall p :: p in Acked(m.board, id) ==> p in m.successes
    requires m.board.next > id ==> |PidsOf(m.successes)| >= c.quorum
    ensures var d' := CountStep(c, m, e);
            && d'.board.next >= id
            && (forall p :: p in d'.successes ==> p in Acked(d'.board, id))
            && (d'.board.next == id ==> forall p :: p in Acked(d'.board, id) ==> p in d'.successes)
            && (d'.board.next > id ==> |PidsOf(d'.successes)| >= c.quorum)
  {
    var d' := CountStep(c, m, e);
    var s, s' := PidsOf(m.successes), PidsOf(d'.successes);
    AckedCount(m.board, m.board.next);
    hide AtLeast;
    if e.kind == c.kind {
      assert d'.board.scores == m.board.scores[e.pid := e.seqNr];
      if e.seqNr == m.board.next {
        assert s' == s + {e.pid};
        if m.board.next == id {
          assert s == Acked(m.board, id) && e.pid !in s;
          assert |s'| == |s| + 1;
        } else {
          SubsetCount(s, s');
        }
      } else {
        assert d'.successes == m.successes;
      }
    }
  }

  lemma SubsetCount(s: set<nat>, s': set<nat>)
    requires s <= s'
    ensures |s| <= |s'|
  {
    assert s' == s + (s' - s);
  }

  /** An acknowledgement out of turn takes its process out of every count. */
  lemma OutOfTurn(c: Config, b: Board, e: Completion, id: int)
    requires c.Valid() && e.pid < |b.scores| && id > 0
    requires e.kind == c.kind && e.seqNr != b.scores[e.pid] + c.modulo
    ensures Acked(FastStep(c, b, e), id) == Acked(b, id) - {e.pid}
  {
    hide Advance;
  }

  // ---------------------------------------------------------------------
  // Reset
  // ---------------------------------------------------------------------

  function FreshBoard(c: Config, slots: nat, next: int): Board {
    Board(seq(slots, _ => next - c.modulo), next)
  }

  /** The processes that may acknowledge: distinct ids with a place on the board. */
  predicate AreRemotes(remotes: seq<nat>, slots: nat) {
    && (forall i :: 0 <= i < |remotes| ==> remotes[i] < slots)
    && (forall i, j :: 0 <= i < j < |remotes| ==> remotes[i] != remotes[j])
  }

  predicate ComeFrom(es: seq<Completion>, remotes: seq<nat>) {
    forall i :: 0 <= i < |es| ==> es[i].pid in remotes
  }

  /** Whatever completions of these processes follow, in order and rounds apart, both
      forms agree. */
  ghost predicate AgreeFrom(c: Config, b: Board, left: int, remotes: seq<nat>)
    requires c.Valid()
  {
    forall es :: InRange(es, |b.scores|) && ComeFrom(es, remotes) && InOrder(c, b, es) && RoundsApart(c, b, es) ==>
      CountFold(c, Countdown(b, left, []), es).board == FastFold(c, b, es)
  }

  /** Acknowledgements of `next` by the first k of them. */
  function FirstAcks(c: Config, remotes: seq<nat>, next: int, k: nat): (es: seq<Completion>)
    requires k <= |remotes|
    ensures |es| == k && ComeFrom(es, remotes)
  {
    seq(k, i requires 0 <= i < k => Completion(true, c.kind, remotes[i], next))
  }

  function Marked(c: Config, slots: nat, remotes: seq<nat>, next: int, k: nat): (scores: seq<int>)
    requires AreRemotes(remotes, slots) && k <= |remotes|
    ensures |scores| == slots
  {
    if k == 0 then FreshBoard(c, slots, next).scores
    else Marked(c, slots, remotes, next, k - 1)[remotes[k - 1] := next]
  }

  lemma {:induction false} NotMarkedYet(c: Config, slots: nat, remotes: seq<nat>, next: int, k: nat, p: nat)
    requires AreRemotes(remotes, slots) && k <= |remotes| && p < slots && p !in remotes[..k]
    ensures Marked(c, slots, remotes, next, k)[p] == next - c.modulo
  {
    if k > 0 {
      assert remotes[k - 1] in remotes[..k];
      NotMarkedYet(c, slots, remotes, next, k - 1, p);
    }
  }

  lemma {:induction false} MarkedCount(c: Config, slots: nat, remotes: seq<nat>, next: int, k: nat)
    requires c.Valid() && AreRemotes(remotes, slots) && k <= |remotes|
    ensures AtLeast(Marked(c, slots, remotes, next, k), next) == k
  {
    if k == 0 {
      NoneAbove(Marked(c, slots, remotes, next, 0), next);
    } else {
      MarkedCount(c, slots, remotes, next, k - 1);
      NotMarkedYet(c, slots, remotes, next, k - 1, remotes[k - 1]);
      AtLeastUpdate(Marked(c, slots, remotes, next, k - 1), remotes[k - 1], next, next);
    }
  }

  lemma AckStep(c: Config, slots: nat, remotes: seq<nat>, next: int, k: nat)
    requires c.Valid() && AreRemotes(remotes, slots) && 0 < k <= |remotes| && k < c.quorum
    ensures Marked(c, slots, remotes, next, k - 1)[remotes[k - 1]] + c.modulo == next
    ensures FastStep(c, Board(Marked(c, slots, remotes, next, k - 1), next),
        Completion(true, c.kind, remotes[k - 1], next))
         == Board(Marked(c, slots, remotes, next, k), next)
  {
    hide AtLeast;
    NotMarkedYet(c, slots, remotes, next, k - 1, remotes[k - 1]);
    MarkedCount(c, slots, remotes, next, k);
  }

  lemma {:induction false} FirstAcksFold(c: Config, slots: nat, remotes: seq<nat>, next: int, left: int, k: nat)
    requires c.Valid() && AreRemotes(remotes, slots) && c.quorum <= |remotes| && k <= left < c.quorum
    ensures var b, es := FreshBoard(c, slots, next), FirstAcks(c, remotes, next, k);
            && InRange(es, slots) && InOrder(c, b, es) && RoundsApart(c, b, es)
            && FastFold(c, b, es) == Board(Marked(c, slots, remotes, next, k), next)
  {
    var es := FirstAcks(c, remotes, next, k);
    if k > 0 {
      hide Advance, AtLeast, FastStep, Marked;
      FirstAcksFold(c, slots, remotes, next, left, k - 1);
      assert es[..k - 1] == FirstAcks(c, remotes, next, k - 1);
      AckStep(c, slots, remotes, next, k);
    }
  }

  /** The countdown form counts them down from `left`, and moves on too soon. */
  lemma {:induction false} FirstAcksCount(c: Config, slots: nat, remotes: seq<nat>, next: int, left: int, k: nat)
    requires c.Valid() && AreRemotes(remotes, slots) && c.quorum <= |remotes| && k <= left < c.quorum
    ensures var b, es := FreshBoard(c, slots, next), FirstAcks(c, remotes, next, k);
            && InRange(es, slots)
            && (k < left ==>
                  CountFold(c, Countdown(b, left, []), es).board == Board(Marked(c, slots, remotes, next, k), next))
            && (k < left ==> CountFold(c, Countdown(b, left, []), es).left == left - k)
            && (0 < k == left ==> CountFold(c, Countdown(b, left, []), es).board.next == next + c.modulo)
  {
    var es := FirstAcks(c, remotes, next, k);
    if k > 0 {
      FirstAcksCount(c, slots, remotes, next, left, k - 1);
      assert es[..k - 1] == FirstAcks(c, remotes, next, k - 1);
      NotMarkedYet(c, slots, remotes, next, k - 1, remotes[k - 1]);
    }
  }

  /** reset clears the scores but not `left`: the countdown form is right after it, for
      whatever a quorum or more of remotes may send, if and only if no acknowledgement
      of the abandoned round had counted. */
  lemma ResetIsRight(c: Config, slots: nat, remotes: seq<nat>, next: int, left: int)
    requires c.Valid() && AreRemotes(remotes, slots) && c.quorum <= |remotes| && 1 <= left <= c.quorum
    ensures AgreeFrom(c, FreshBoard(c, slots, next), left, remotes) <==> left == c.quorum
  {
    var b := FreshBoard(c, slots, next);
    NoneAbove(b.scores, next);
    if left == c.quorum {
      forall es | InRange(es, |b.scores|) && ComeFrom(es, remotes) && InOrder(c, b, es) && RoundsApart(c, b, es)
        ensures CountFold(c, Countdown(b, left, []), es).board == FastFold(c, b, es)
      {
        CountdownAgrees(c, Countdown(b, left, []), es);
      }
    } else {
      FirstAcksFold(c, slots, remotes, next, left, left);
      FirstAcksCount(c, slots, remotes, next, left, left);
      var es := FirstAcks(c, remotes, next, left);
      assert CountFold(c, Countdown(b, left, []), es).board != FastFold(c, b, es);
    }
  }

  // ---------------------------------------------------------------------
  // Pipelined writes
  // ---------------------------------------------------------------------

  /** What one poll of the completion queue brings; Error is a negative count. */
  datatype Poll = Entries(entries: seq<Completion>) | Error

  datatype Outcome = Replicated | Failed | StillWaiting

  predicate PollsInRange(polls: seq<Poll>, n: nat) {
    forall i :: 0 <= i < |polls| && polls[i].Entries? ==> InRange(polls[i].entries, n)
  }

  /** All that these polls bring, in order. */
  function Flat(polls: seq<Poll>, n: nat): (es: seq<Completion>)
    requires PollsInRange(polls, n)
    ensures InRange(es, n)
  {
    if polls == [] then []
    else
      var last := polls[|polls| - 1];
      Flat(polls[..|polls| - 1], n) + if last.Entries? then last.entries else []
  }

  predicate AllOk(es: seq<Completion>) {
    forall i :: 0 <= i < |es| ==> es[i].ok
  }

  /** No poll fails and nothing polled has failed. */
  predicate Clean(polls: seq<Poll>) {
    forall i :: 0 <= i < |polls| ==> polls[i].Entries? && AllOk(polls[i].entries)
  }

  /** The first u polls bring acknowledgements enough, and no failure. */
  predicate Suffice(c: Config, b: Board, polls: seq<Poll>, u: nat, fastId: int, outstanding: nat)
    requires c.Valid() && PollsInRange(polls, |b.scores|)
  {
    && u <= |polls| && Clean(polls[..u])
    && fastId - FastFold(c, b, Flat(polls[..u], |b.scores|)).next <= outstanding
  }

  /** `es` is all of `all` before the first that failed. */
  predicate UpToFailure(es: seq<Completion>, all: seq<Completion>) {
    es <= all && AllOk(es) && (|es| < |all| ==> !all[|es|].ok)
  }

  lemma AtStart(c: Config, b: Board, polls: seq<Poll>)
    requires c.Valid()
    ensures polls[..0] == [] && Clean([]) && Flat([], |b.scores|) == [] && AllOk([]) && FastFold(c, b, []) == b
  {}

  lemma SufficeNow(c: Config, b: Board, polls: seq<Poll>, used: nat, fastId: int, outstanding: nat)
    requires c.Valid() && PollsInRange(polls, |b.scores|) && used <= |polls| && Clean(polls[..used])
    ensures Suffice(c, b, polls, used, fastId, outstanding)
       <==> fastId - FastFold(c, b, Flat(polls[..used], |b.scores|)).next <= outstanding
  {}

  lemma OneMorePoll(polls: seq<Poll>, i: nat, n: nat)
    requires PollsInRange(polls, n) && i < |polls|
    ensures Clean(polls[..i + 1]) <==> Clean(polls[..i]) && polls[i].Entries? && AllOk(polls[i].entries)
    ensures Flat(polls[..i + 1], n) == Flat(polls[..i], n) + if polls[i].Entries? then polls[i].entries else []
  {
    assert polls[..i + 1][..i] == polls[..i] && polls[..i + 1][i] == polls[i];
    assert forall k :: 0 <= k < i ==> polls[..i + 1][k] == polls[..i][k];
  }

  lemma GoodJoins(es: seq<Completion>, fs: seq<Completion>)
    requires AllOk(es)
    ensures UpToFailure(es + fs[..Good(fs)], es + fs)
  {
    GoodIs(fs);
    hide Good;
    if Good(fs) < |fs| {
      assert (es + fs)[|es| + Good(fs)] == fs[Good(fs)];
    }
  }

  /** No further polls suffice either once there are none, or one has failed. */
  lemma NoneSuffices(c: Config, b: Board, polls: seq<Poll>, used: nat, fastId: int, outstanding: nat)
    requires c.Valid() && PollsInRange(polls, |b.scores|) && used <= |polls|
    requires forall u :: 0 <= u < used ==> !Suffice(c, b, polls, u, fastId, outstanding)
    requires Clean(polls[..used]) ==> !Suffice(c, b, polls, used, fastId, outstanding)
    requires used == |polls| || !Clean(polls[..used])
    ensures !exists u: nat :: Suffice(c, b, polls, u, fastId, outstanding)
  {
    hide FastFold, Flat, AllOk;
    forall u: nat | used <= u <= |polls|
      ensures Clean(polls[..u]) ==> Clean(polls[..used])
    {
      CleanBefore(polls, used, u);
    }
    hide Clean;
  }

  lemma CleanBefore(polls: seq<Poll>, used: nat, u: nat)
    requires used <= u <= |polls|
    ensures Clean(polls[..u]) ==> Clean(polls[..used])
  {
    assert forall k :: 0 <= k < used ==> polls[..used][k] == polls[..u][k];
  }

  /** fastWrite after its sends: take an id, then poll until at most `outstanding`
      requests are unreplicated.  `polls` is what the queue would answer; it may
      run out while still waiting.  It succeeds if and only if some of the polls bring
      acknowledgements enough before anything fails, and then asks for no more. */
  method FastWrite(w: SerialQuorumWaiter, polls: seq<Poll>, outstanding: nat)
    returns (outcome: Outcome, ghost used: nat, ghost consumed: seq<Completion>)
    requires w.Configured().Valid() && PollsInRange(polls, |w.scoreboard|)
    modifies w
    ensures w.Configured() == old(w.Configured()) && w.fastId == old(w.fastId) + w.modulo
    ensures used <= |polls| && InRange(consumed, |old(w.scoreboard)|)
    ensures w.State() == FastFold(old(w.Configured()), old(w.State()), consumed)
    ensures UpToFailure(consumed, Flat(polls[..used], |old(w.scoreboard)|))
    ensures !outcome.Failed? ==> Clean(polls[..used]) && consumed == Flat(polls[..used], |old(w.scoreboard)|)
    ensures outcome.Failed? ==> used > 0 && !Clean(polls[..used])
    ensures outcome.Replicated? <==>
              exists u: nat :: Suffice(old(w.Configured()), old(w.State()), polls, u, w.fastId, outstanding)
    ensures outcome.Replicated? ==> w.fastId - w.nextId <= outstanding
    ensures outcome.StillWaiting? ==> used == |polls|
    ensures forall u :: 0 <= u < used ==>
              Clean(polls[..u]) && !Suffice(old(w.Configured()), old(w.State()), polls, u, w.fastId, outstanding)
  {
    hide FastFold, Flat, Clean, Suffice, AllOk, Good;
    ghost var c, b, n := w.Configured(), w.State(), |w.scoreboard|;
    consumed, used := [], 0;
    AtStart(c, b, polls);
    w.fastId := w.fastId + w.modulo;
    var next := w.fastId;
    var i := 0;
    while !w.CanContinueWithOutstanding(outstanding, next)
      invariant 0 <= i == used <= |polls| && next == w.fastId == old(w.fastId) + w.modulo
      invariant w.Configured() == c && |w.scoreboard| == n
      invariant Clean(polls[..used]) && consumed == Flat(polls[..used], n) && AllOk(consumed)
      invariant InRange(consumed, n)
      invariant w.State() == FastFold(c, b, consumed)
      invariant forall u :: 0 <= u < used ==> Clean(polls[..u]) && !Suffice(c, b, polls, u, w.fastId, outstanding)
      decreases |polls| - i
    {
      SufficeNow(c, b, polls, used, w.fastId, outstanding);
      if i == |polls| {
        NoneSuffices(c, b, polls, used, w.fastId, outstanding);
        return StillWaiting, used, consumed;
      }
      var poll := polls[i];
      OneMorePoll(polls, i, n);
      i, used := i + 1, used + 1;
      if poll.Error? {
        NoneSuffices(c, b, polls, used, w.fastId, outstanding);
        return Failed, used, consumed;
      }
      ghost var more := poll.entries[..Good(poll.entries)];
      assert poll.entries[..|poll.entries|] == poll.entries;
      FoldsJoin(c, b, consumed, more);
      GoodIs(poll.entries);
      GoodJoins(consumed, poll.entries);
      var ok, left := w.FastConsume(poll.entries, |poll.entries|, 0);
      consumed := consumed + more;
      if !ok {
        NoneSuffices(c, b, polls, used, w.fastId, outstanding);
        return Failed, used, consumed;
      }
      assert more == poll.entries;
    }
    SufficeNow(c, b, polls, used, w.fastId, outstanding);
    assert Suffice(c, b, polls, used, w.fastId, outstanding);
    outcome := Replicated;
  }

  lemma {:induction false} GoodIs(es: seq<Completion>)
    ensures AllOk(es[..Good(es)]) && (Good(es) < |es| ==> !es[Good(es)].ok)
    ensures AllOk(es) <==> Good(es) == |es|
  {
    if es != [] && es[0].ok {
      GoodIs(es[1..]);
      assert es[..Good(es)] == [es[0]] + es[1..][..Good(es[1..])];
    }
  }

  lemma {:induction false} FoldsJoin(c: Config, b: Board, es: seq<Completion>, fs: seq<Completion>)
    requires c.Valid() && InRange(es, |b.scores|) && InRange(fs, |b.scores|)
    ensures InRange(es + fs, |b.scores|)
    ensures FastFold(c, b, es + fs) == FastFold(c, FastFold(c, b, es), fs)
  {
    if fs == [] {
      assert es + fs == es;
    } else {
      var n := |fs| - 1;
      FoldsJoin(c, b, es, fs[..n]);
      assert (es + fs)[..|es + fs| - 1] == es + fs[..n];
    }
  }

  /** So, with completions in order, every request but the last `outstanding` ids
      is held by a quorum when fastWrite reports success. */
  lemma OnlyOutstandingAtRisk(c: Config, b: Board, es: seq<Completion>, fastId: int, outstanding: nat)
    requires c.Valid() && InRange(es, |b.scores|) && InOrder(c, b, es) && Settled(c, b)
    requires fastId - FastFold(c, b, es).next <= outstanding
    ensures forall id :: id + outstanding + c.modulo <= fastId ==>
              AtLeast(FastFold(c, b, es).scores, id) >= c.quorum
  {
    NextIsStatistic(c, b, es);
  }
}
