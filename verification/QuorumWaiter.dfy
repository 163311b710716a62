module QuorumWaiter {
  // The scoreboard that counts completions of pipelined requests: how far a quorum
  // of processes has acknowledged them.

  /** A polled work completion; the source packs kind, pid and seq into wr_id. */
  datatype Completion = Completion(ok: bool, kind: nat, pid: nat, seqNr: int)

  /** What is configured: quorum size, distance between request ids, kind. */
  datatype Config = Config(quorum: nat, modulo: int, kind: nat) {
    predicate Valid() {
      quorum >= 1 && modulo >= 1
    }
  }

  /** The last id each process acknowledged, and the id being waited for. */
  datatype Board = Board(scores: seq<int>, next: int)

  /** How many processes have acknowledged id or more. */
  function AtLeast(scores: seq<int>, id: int): (n: nat)
    ensures n <= |scores|
  {
    if scores == [] then 0
    else AtLeast(scores[..|scores| - 1], id) + if scores[|scores| - 1] >= id then 1 else 0
  }

  lemma {:induction false} AtLeastCounts(scores: seq<int>, id: int)
    ensures AtLeast(scores, id) == |set p | 0 <= p < |scores| && scores[p] >= id|
  {
    if scores != [] {
      var n := |scores| - 1;
      AtLeastCounts(scores[..n], id);
      var before, now := set p | 0 <= p < n && scores[..n][p] >= id, set p | 0 <= p < |scores| && scores[p] >= id;
      assert now == if scores[n] >= id then before + {n} else before;
    }
  }

  function Top(scores: seq<int>): int {
    if scores == [] then 0
    else
      var rest, last := Top(scores[..|scores| - 1]), scores[|scores| - 1];
      if |scores| == 1 || last > rest then last else rest
  }

  lemma {:induction false} TopIsReached(scores: seq<int>, id: int)
    requires AtLeast(scores, id) >= 1
    ensures id <= Top(scores)
  {
    if scores[|scores| - 1] < id {
      TopIsReached(scores[..|scores| - 1], id);
    }
  }

  /** The first id, from `next` on, that no quorum has acknowledged yet. */
  function Advance(c: Config, scores: seq<int>, next: int): (n: int)
    requires c.Valid()
    ensures n >= next && AtLeast(scores, n) < c.quorum
    decreases Top(scores) - next + 1
  {
    if AtLeast(scores, next) >= c.quorum then
      TopIsReached(scores, next);
      Advance(c, scores, next + c.modulo)
    else next
  }

  /** An acknowledgement counts if it is the process's next one; otherwise its
      score falls to 0. */
  function Scored(c: Config, scores: seq<int>, e: Completion): seq<int>
    requires e.pid < |scores|
  {
    scores[e.pid := if scores[e.pid] + c.modulo == e.seqNr then e.seqNr else 0]
  }

  predicate InRange(es: seq<Completion>, n: nat) {
    forall i :: 0 <= i < |es| ==> es[i].pid < n
  }

  /** One completion, in the fast form. */
  function FastStep(c: Config, b: Board, e: Completion): (b': Board)
    requires c.Valid() && e.pid < |b.scores|
    ensures |b'.scores| == |b.scores| && b'.next >= b.next
  {
    if e.kind != c.kind then b
    else
      var scores := Scored(c, b.scores, e);
      Board(scores, Advance(c, scores, b.next))
  }

  function FastFold(c: Config, b: Board, es: seq<Completion>): (b': Board)
    requires c.Valid() && InRange(es, |b.scores|)
    ensures |b'.scores| == |b.scores|
  {
    if es == [] then b
    else FastStep(c, FastFold(c, b, es[..|es| - 1]), es[|es| - 1])
  }

  /** The board of the countdown form, how many acknowledgements of the current
      id are still missing, and who sent those that counted. */
  datatype Countdown = Countdown(board: Board, left: int, successes: seq<nat>)

  function CountStep(c: Config, d: Countdown, e: Completion): (d': Countdown)
    requires e.pid < |d.board.scores|
    ensures |d'.board.scores| == |d.board.scores|
  {
    if e.kind != c.kind then d
    else
      var b := d.board;
      var scores := Scored(c, b.scores, e);
      var counts := scores[e.pid] == b.next;
      var left := if counts then d.left - 1 else d.left;
      var successes := if counts then d.successes + [e.pid] else d.successes;
      if left == 0 then Countdown(Board(scores, b.next + c.modulo), c.quorum, successes)
      else Countdown(Board(scores, b.next), left, successes)
  }

  function CountFold(c: Config, d: Countdown, es: seq<Completion>): (d': Countdown)
    requires InRange(es, |d.board.scores|)
    ensures |d'.board.scores| == |d.board.scores|
  {
    if es == [] then d
    else CountStep(c, CountFold(c, d, es[..|es| - 1]), es[|es| - 1])
  }

  // ---------------------------------------------------------------------
  // The class
  // ---------------------------------------------------------------------

  /** How many completions come before the first failed one. */
  function Good(es: seq<Completion>): (n: nat)
    ensures n <= |es|
  {
    if es == [] || !es[0].ok then 0 else Good(es[1..]) + 1
  }

  lemma {:induction false} GoodAll(es: seq<Completion>)
    requires forall i :: 0 <= i < |es| ==> es[i].ok
    ensures Good(es) == |es|
  {
    if es != [] {
      GoodAll(es[1..]);
    }
  }

  lemma {:induction false} GoodStops(es: seq<Completion>, n: nat)
    requires n < |es| && !es[n].ok && forall i :: 0 <= i < n ==> es[i].ok
    ensures Good(es) == n
  {
    if n > 0 {
      GoodStops(es[1..], n - 1);
    }
  }

  /** The completions that did not fail. */
  function Succeeded(es: seq<Completion>): seq<Completion> {
    if es == [] then []
    else
      var rest, e := Succeeded(es[..|es| - 1]), es[|es| - 1];
      if e.ok then rest + [e] else rest
  }

  /** They are all there, in their order: one more that failed makes no difference, and
      one more that did not comes last. */
  lemma SucceededMore(es: seq<Completion>, e: Completion)
    ensures Succeeded(es + [e]) == if e.ok then Succeeded(es) + [e] else Succeeded(es)
  {
    assert (es + [e])[..|es|] == es;
  }

  lemma {:induction false} SucceededInRange(es: seq<Completion>, n: nat)
    requires InRange(es, n)
    ensures InRange(Succeeded(es), n)
  {
    if es != [] {
      SucceededInRange(es[..|es| - 1], n);
    }
  }

  /** One more completion at the end of those folded so far. */
  lemma FoldsExtend(c: Config, b: Board, d: Countdown, es: seq<Completion>, e: Completion)
    requires c.Valid() && |b.scores| == |d.board.scores| && InRange(es + [e], |b.scores|)
    ensures InRange(es, |b.scores|)
    ensures FastFold(c, b, es + [e]) == FastStep(c, FastFold(c, b, es), e)
    ensures CountFold(c, d, es + [e]) == CountStep(c, CountFold(c, d, es), e)
  {
    assert forall i :: 0 <= i < |es| ==> (es + [e])[i] == es[i];
    assert (es + [e])[|es|] == e;
    assert (es + [e])[..|es|] == es;
  }

  lemma FoldOfNone(c: Config, b: Board, d: Countdown)
    requires c.Valid()
    ensures FastFold(c, b, []) == b && CountFold(c, d, []) == d
  {
  }

  class SerialQuorumWaiter {
    const modulo: int
    const kind: nat
    var quorumSize: nat
    var scoreboard: seq<int>
    var nextId: int
    var fastId: int
    var left: int

    function Configured(): Config
      reads this
    {
      Config(quorumSize, modulo, kind)
    }

    function State(): Board
      reads this
    {
      Board(scoreboard, nextId)
    }

    /** `slots` is one more than the largest remote id; for id 0 the source throws. */
    constructor (kind: nat, slots: nat, quorumSize: nat, nextId: int, modulo: int)
      requires nextId != 0
      ensures this.kind == kind && this.modulo == modulo && this.quorumSize == quorumSize
      ensures State() == Board(seq(slots, _ => nextId - modulo), nextId) && left == quorumSize
    {
      this.kind, this.quorumSize, this.modulo := kind, quorumSize, modulo;
      scoreboard := seq(slots, _ => nextId - modulo);
      this.nextId, fastId, left := nextId, nextId, quorumSize;
    }

    /** False, where the source throws, for 0. */
    method Reset(next: int) returns (ok: bool)
      modifies this`scoreboard, this`nextId
      ensures ok <==> next != 0
      ensures ok ==> State() == Board(seq(|old(scoreboard)|, _ => next - modulo), next)
      ensures !ok ==> State() == old(State())
    {
      if next == 0 {
        return false;
      }
      var i := 0;
      while i < |scoreboard|
        invariant 0 <= i <= |scoreboard| == |old(scoreboard)|
        invariant forall k :: 0 <= k < i ==> scoreboard[k] == next - modulo
      {
        scoreboard := scoreboard[i := next - modulo];
        i := i + 1;
      }
      nextId := next;
      ok := true;
    }

    /** count_if over the scoreboard. */
    method CountAtLeast(id: int) returns (n: nat)
      ensures n == AtLeast(scoreboard, id)
    {
      n := 0;
      var i := 0;
      while i < |scoreboard|
        invariant 0 <= i <= |scoreboard|
        invariant n == AtLeast(scoreboard[..i], id)
      {
        assert scoreboard[..i + 1][..i] == scoreboard[..i];
        if scoreboard[i] >= id {
          n := n + 1;
        }
        i := i + 1;
      }
      assert scoreboard[..i] == scoreboard;
    }

    method Score(e: Completion)
      requires e.pid < |scoreboard|
      modifies this`scoreboard
      ensures scoreboard == Scored(Configured(), old(scoreboard), e)
    {
      scoreboard := scoreboard[e.pid := if scoreboard[e.pid] + modulo == e.seqNr then e.seqNr else 0];
    }

    /** The loop after each acknowledgement: step over every id a quorum has. */
    method CatchUp()
      requires Configured().Valid()
      modifies this`nextId, this`left
      ensures nextId == Advance(Configured(), scoreboard, old(nextId))
      ensures left == quorumSize - AtLeast(scoreboard, nextId)
    {
      ghost var c, scores, next := Configured(), scoreboard, nextId;
      var n := CountAtLeast(nextId);
      while n >= quorumSize
        invariant Configured() == c && scoreboard == scores && n == AtLeast(scores, nextId)
        invariant Advance(c, scores, nextId) == Advance(c, scores, next)
        decreases Top(scores) - nextId + 1
      {
        TopIsReached(scores, nextId);
        nextId := nextId + modulo;
        n := CountAtLeast(nextId);
      }
      left := quorumSize - n;
    }

    /** Stops at the first failed completion. */
    method FastConsume(entries: seq<Completion>, num: nat, expected: int) returns (ok: bool, retLeft: int)
      requires Configured().Valid() && num <= |entries| && InRange(entries, |scoreboard|)
      modifies this`scoreboard, this`nextId, this`left
      ensures ok == (Good(entries[..num]) == num)
      ensures State() == FastFold(old(Configured()), old(State()), entries[..Good(entries[..num])])
      ensures retLeft == if exists i :: 0 <= i < Good(entries[..num]) && entries[i].kind == kind
                         then quorumSize - AtLeast(scoreboard, nextId) else expected
    {
      hide Advance, Scored, Good, AtLeast, FastFold;
      ghost var c, b := Configured(), State();
      ghost var d := Countdown(b, left, []);
      retLeft := expected;
      var i := 0;
      assert FastFold(c, b, []) == b by { FoldOfNone(c, b, d); }
      while i < num
        invariant 0 <= i <= num && |scoreboard| == |b.scores| && Configured() == c
        invariant forall k :: 0 <= k < i ==> entries[k].ok
        invariant State() == FastFold(c, b, entries[..i])
        invariant retLeft == if exists k :: 0 <= k < i && entries[k].kind == kind
                             then quorumSize - AtLeast(scoreboard, nextId) else expected
      {
        var entry := entries[i];
        if !entry.ok {
          GoodStops(entries[..num], i);
          assert entries[..num][..i] == entries[..i];
          return false, retLeft;
        }
        assert entries[..i + 1] == entries[..i] + [entry];
        FoldsExtend(c, b, d, entries[..i], entry);
        if entry.kind == kind {
          Score(entry);
          CatchUp();
          retLeft := left;
        }
        i := i + 1;
      }
      GoodAll(entries[..num]);
      ok := true;
    }

    /** One completion, in the countdown form; other kinds do not concern us. */
    method CountDown(entry: Completion, successes: seq<nat>) returns (successes': seq<nat>)
      requires entry.pid < |scoreboard|
      modifies this`scoreboard, this`nextId, this`left
      ensures |scoreboard| == |old(scoreboard)|
      ensures Countdown(State(), left, successes')
           == CountStep(Configured(), Countdown(old(State()), old(left), successes), entry)
    {
      successes' := successes;
      if entry.kind != kind {
        return;
      }
      Score(entry);
      if scoreboard[entry.pid] == nextId {
        left := left - 1;
        successes' := successes' + [entry.pid];
      }
      if left == 0 {
        left := quorumSize;
        nextId := nextId + modulo;
      }
    }

    /** Failed completions are passed over, not stopped at. */
    method Consume(entries: seq<Completion>) returns (ok: bool, successes: seq<nat>)
      requires Configured().Valid() && InRange(entries, |scoreboard|)
      modifies this`scoreboard, this`nextId, this`left
      ensures ok == (forall i :: 0 <= i < |entries| ==> entries[i].ok)
      ensures InRange(Succeeded(entries), |old(scoreboard)|)
      ensures Countdown(State(), left, successes)
           == CountFold(old(Configured()), Countdown(old(State()), old(left), []), Succeeded(entries))
    {
      hide Scored, CountStep, FastFold;
      ghost var c, d := Configured(), Countdown(State(), left, []);
      ok, successes := true, [];
      var i := 0;
      FoldOfNone(c, d.board, d);
      while i < |entries|
        invariant 0 <= i <= |entries| && |scoreboard| == |d.board.scores| && Configured() == c
        invariant ok == (forall k :: 0 <= k < i ==> entries[k].ok)
        invariant InRange(Succeeded(entries[..i]), |scoreboard|)
        invariant Countdown(State(), left, successes) == CountFold(c, d, Succeeded(entries[..i]))
      {
        var entry := entries[i];
        assert entries[..i + 1][..i] == entries[..i];
        SucceededInRange(entries[..i + 1], |scoreboard|);
        if !entry.ok {
          ok := false;
        } else {
          FoldsExtend(c, d.board, d, Succeeded(entries[..i]), entry);
          successes := CountDown(entry, successes);
        }
        i := i + 1;
      }
      assert entries[..i] == entries;
    }

    predicate CanContinueWithOutstanding(outstanding: int, expected: int)
      reads this
    {
      nextId + outstanding >= expected
    }
  }
}
