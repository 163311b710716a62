// Log: iterators, and the loop that commits.

module LogIterators {
  // The two iterators of the log and the follower's loop over them: what it hands
  // to commit is exactly a prefix of what was written.

  import opened LogFormat
  import opened LogBuffer

  /** Memory m holds these records from the header on, and then ends. */
  predicate Written(m: seq<Byte>, records: seq<Record>) {
    && AllFit(records) && LiesAt(m, HEADER, Image(records))
    && EndsAt(m, HEADER + Offset(records, |records|))
  }

  /** A log with some room left can be walked to its end. */
  lemma LogIsWritten(m: seq<Byte>, records: seq<Record>)
    requires Holds(m, records) && HEADER + Offset(records, |records|) + 9 <= |m|
    ensures Written(m, records)
  {
    hide Offset, Image, EndsAt;
    var o := HEADER + Offset(records, |records|);
    ZerosLie(m, o, 9);
    ZerosEnd(m, o);
  }

  /** So can one whose last record has only arrived in part: the walk stops before it. */
  lemma TornLogIsWritten(m: seq<Byte>, records: seq<Record>, r: Record, p: nat)
    requires AllFit(records) && LiesAt(m, HEADER, Image(records)) && Fits(r) && p < Size(r)
    requires LiesAt(m, HEADER + Offset(records, |records|), Encode(r)[..p] + Zeros(Size(r) - p))
    ensures Written(m, records)
  {
    hide Offset, Image, Encode;
    TornRecord(m, HEADER + Offset(records, |records|), r, p);
  }

  class BlockingIterator {
    const savedEntryPtr: nat
    var entryPtr: nat
    var increment: nat

    constructor (entryPtr: nat)
      ensures savedEntryPtr == this.entryPtr == entryPtr && increment == 0
    {
      savedEntryPtr, this.entryPtr, increment := entryPtr, entryPtr, 0;
    }

    /** The next record to be sampled is record i. */
    ghost predicate Before(records: seq<Record>, i: nat)
      reads this
    {
      i <= |records| && entryPtr + increment == HEADER + Offset(records, i)
    }

    method Reset()
      modifies this
      ensures entryPtr == savedEntryPtr && increment == 0
    {
      entryPtr, increment := savedEntryPtr, 0;
    }

    /** Moves to record i exactly if it has been written. */
    method SampleNext(buf: array<Byte>, ghost records: seq<Record>, ghost i: nat) returns (ok: bool)
      requires Written(buf[..], records) && Before(records, i)
      modifies this
      ensures ok == (i < |records|)
      ensures ok ==> entryPtr == HEADER + Offset(records, i) && Before(records, i + 1)
      ensures ok ==> HasRecord(buf[..], entryPtr) && ParsedAt(buf[..], entryPtr) == records[i]
      ensures !ok ==> entryPtr == old(entryPtr) && increment == old(increment)
    {
      hide RoundUp, Offset, FromBytes, Image;
      ghost var m := buf[..];
      PopulatedUpTo(m, records, i);
      var tmp := entryPtr + increment;
      if LengthAt(buf[..], tmp) == 0 {
        return false;
      }
      if CanaryAt(buf[..], tmp) == 0 {
        return false;
      }
      NextPlace(m, records, i);
      entryPtr := tmp;
      increment := RoundUp(LengthAt(buf[..], tmp) + 8 + 1);
      ok := true;
    }
  }

  class LiveIterator {
    var entryPtr: nat
    var increment: nat

    constructor (entryPtr: nat)
      ensures this.entryPtr == entryPtr && increment == 0
    {
      this.entryPtr, increment := entryPtr, 0;
    }

    ghost predicate Before(records: seq<Record>, i: nat)
      reads this
    {
      i <= |records| && entryPtr + increment == HEADER + Offset(records, i)
    }

    method HasNext(limit: nat) returns (more: bool)
      modifies this
      ensures entryPtr == old(entryPtr + increment) && increment == 0
      ensures more == (entryPtr < limit)
    {
      entryPtr, increment := entryPtr + increment, 0;
      more := entryPtr < limit;
    }

    /** Moves to record i, without looking whether it is there. */
    method Next(buf: array<Byte>, ghost records: seq<Record>, ghost i: nat)
      requires Written(buf[..], records) && i < |records| && Before(records, i)
      modifies this
      ensures entryPtr == HEADER + Offset(records, i) && Before(records, i + 1)
      ensures HasRecord(buf[..], entryPtr) && ParsedAt(buf[..], entryPtr) == records[i]
    {
      hide RoundUp, Offset, FromBytes, Image;
      PopulatedUpTo(buf[..], records, i);
      NextPlace(buf[..], records, i);
      entryPtr := entryPtr + increment;
      increment := RoundUp(LengthAt(buf[..], entryPtr) + 8 + 1);
    }
  }

  function Payloads(records: seq<Record>): (p: seq<seq<Byte>>)
    ensures |p| == |records|
  {
    seq(|records|, i requires 0 <= i < |records| => records[i].payload)
  }

  function Max(a: nat, b: nat): nat {
    if a < b then b else a
  }

  /** The commit loop: everything from record i up to a first undecided offset
      that is the start of record k. */
  method CommitUpTo(live: LiveIterator, buf: array<Byte>, fuo: nat, ghost records: seq<Record>, ghost i: nat,
                    ghost k: nat)
    returns (committed: seq<seq<Byte>>)
    requires Written(buf[..], records) && live.Before(records, i)
    requires k <= |records| && fuo == HEADER + Offset(records, k)
    modifies live
    ensures live.Before(records, Max(i, k))
    ensures committed == Payloads(records[i..Max(i, k)])
  {
    hide RoundUp, Offset, Written, HasRecord;
    committed := [];
    ghost var j := i;
    Order(records, j, k);
    var more := live.HasNext(fuo);
    while more
      invariant i <= j <= Max(i, k) && live.Before(records, j)
      invariant more == (j < k)
      invariant committed == Payloads(records[i..j])
      decreases k - j
    {
      live.Next(buf, records, j);
      committed := committed + [ParsedAt(buf[..], live.entryPtr).payload];
      j := j + 1;
      Order(records, j, k);
      more := live.HasNext(fuo);
    }
  }

  lemma Order(records: seq<Record>, i: nat, k: nat)
    requires i <= |records| && k <= |records|
    ensures Offset(records, i) < Offset(records, k) <==> i < k
  {
    if i < k {
      OffsetsAscend(records, i, k);
    } else {
      OffsetsAscend(records, k, i);
    }
  }

  /** Each record carries the start of record cuts[i], at or before itself, as its
      first undecided offset. */
  ghost predicate Cut(records: seq<Record>, cuts: seq<nat>) {
    && |cuts| == |records|
    && forall i :: 0 <= i < |cuts| ==> cuts[i] <= i && records[i].fuo == HEADER + Offset(records, cuts[i])
  }

  /** The furthest cut among the first n. */
  function Reach(cuts: seq<nat>, n: nat): nat
    requires n <= |cuts|
  {
    if n == 0 then 0 else Max(Reach(cuts, n - 1), cuts[n - 1])
  }

  lemma {:induction false} ReachBelow(records: seq<Record>, cuts: seq<nat>, n: nat)
    requires Cut(records, cuts) && n <= |records|
    ensures Reach(cuts, n) <= n
  {
    if n > 0 {
      ReachBelow(records, cuts, n - 1);
    }
  }

  lemma PayloadsJoin(records: seq<Record>, a: nat, b: nat, c: nat)
    requires a <= b <= c <= |records|
    ensures Payloads(records[a..b]) + Payloads(records[b..c]) == Payloads(records[a..c])
  {
  }

  /** One round with record i just sampled: commit up to what it carries. */
  method Round(log: Log, iter: BlockingIterator, live: LiveIterator, ghost records: seq<Record>, ghost cuts: seq<nat>,
               ghost i: nat)
    returns (more: seq<seq<Byte>>)
    requires Written(log.buf[..], records) && Cut(records, cuts) && i < |records|
    requires HasRecord(log.buf[..], iter.entryPtr) && ParsedAt(log.buf[..], iter.entryPtr) == records[i]
    requires live.Before(records, Reach(cuts, i)) && Reach(cuts, i) <= i
    requires log.firstUndecidedOffset == HEADER + Offset(records, Reach(cuts, i))
    modifies live, log`firstUndecidedOffset
    ensures live.Before(records, Reach(cuts, i + 1)) && Reach(cuts, i) <= Reach(cuts, i + 1) <= i
    ensures log.firstUndecidedOffset == HEADER + Offset(records, Reach(cuts, i + 1))
    ensures more == Payloads(records[Reach(cuts, i)..Reach(cuts, i + 1)])
  {
    hide RoundUp, Offset, Written, HasRecord;
    var fuo := ParsedAt(log.buf[..], iter.entryPtr).fuo;
    more := CommitUpTo(live, log.buf, fuo, records, Reach(cuts, i), cuts[i]);
    if |more| > 0 {
      log.firstUndecidedOffset := fuo;
    }
  }

  /** The follower's rounds until nothing new is there: it samples record after
      record and commits up to the first undecided offset each carries. */
  method Follow(log: Log, iter: BlockingIterator, live: LiveIterator, ghost records: seq<Record>, ghost cuts: seq<nat>,
                ghost n: nat)
    returns (committed: seq<seq<Byte>>)
    requires Written(log.buf[..], records) && Cut(records, cuts) && n <= |records|
    requires iter.Before(records, n) && live.Before(records, Reach(cuts, n))
    requires log.firstUndecidedOffset == HEADER + Offset(records, Reach(cuts, n))
    modifies iter, live, log`firstUndecidedOffset
    ensures iter.Before(records, |records|) && live.Before(records, Reach(cuts, |records|))
    ensures Reach(cuts, n) <= Reach(cuts, |records|) <= |records|
    ensures committed == Payloads(records[Reach(cuts, n)..Reach(cuts, |records|)])
    ensures log.firstUndecidedOffset == HEADER + Offset(records, Reach(cuts, |records|))
  {
    hide RoundUp, Offset, Written, HasRecord, Reach;
    committed := [];
    ghost var i := n;
    ReachBelow(records, cuts, n);
    var hasNext := iter.SampleNext(log.buf, records, i);
    while hasNext
      invariant n <= i <= |records| && hasNext == (i < |records|)
      invariant hasNext ==> iter.Before(records, i + 1)
      invariant !hasNext ==> iter.Before(records, i)
      invariant hasNext ==> HasRecord(log.buf[..], iter.entryPtr) && ParsedAt(log.buf[..], iter.entryPtr) == records[i]
      invariant live.Before(records, Reach(cuts, i))
      invariant Reach(cuts, n) <= Reach(cuts, i) <= i
      invariant committed == Payloads(records[Reach(cuts, n)..Reach(cuts, i)])
      invariant log.firstUndecidedOffset == HEADER + Offset(records, Reach(cuts, i))
      decreases |records| - i
    {
      var more := Round(log, iter, live, records, cuts, i);
      committed := committed + more;
      PayloadsJoin(records, Reach(cuts, n), Reach(cuts, i), Reach(cuts, i + 1));
      i := i + 1;
      hasNext := iter.SampleNext(log.buf, records, i);
    }
  }
}
