// Log: entries, slots and the buffer they lie in.

module LogBuffer {
  // The log in its buffer: slots are appended in place, iterators walk over them,
  // and rebuildLog finds the append point again.

  import opened LogFormat

  /** The header's place: three words, rounded up to the alignment. */
  const HEADER: nat := 64

  /** m with s written over it from `at` on. */
  function Overwrite(m: seq<Byte>, at: nat, s: seq<Byte>): (w: seq<Byte>)
    requires at + |s| <= |m|
    ensures |w| == |m|
  {
    seq(|m|, i requires 0 <= i < |m| => if at <= i < at + |s| then s[i - at] else m[i])
  }

  lemma OverwrittenLies(m: seq<Byte>, at: nat, s: seq<Byte>)
    requires at + |s| <= |m|
    ensures LiesAt(Overwrite(m, at, s), at, s)
  {
  }

  lemma OverwriteSpares(m: seq<Byte>, at: nat, s: seq<Byte>, o: nat, a: seq<Byte>)
    requires LiesAt(m, o, a) && o + |a| <= at && at + |s| <= |m|
    ensures LiesAt(Overwrite(m, at, s), o, a)
  {
    assert Overwrite(m, at, s)[o..o + |a|] == m[o..o + |a|];
  }

  lemma OverwriteTwice(m: seq<Byte>, at: nat, a: seq<Byte>, b: seq<Byte>)
    requires at + |a| + |b| <= |m|
    ensures Overwrite(Overwrite(m, at, a), at + |a|, b) == Overwrite(m, at, a + b)
  {
    var w, w' := Overwrite(Overwrite(m, at, a), at + |a|, b), Overwrite(m, at, a + b);
    forall i | 0 <= i < |m|
      ensures w[i] == w'[i]
    {
    }
  }

  method Put(buf: array<Byte>, at: nat, s: seq<Byte>)
    requires at + |s| <= buf.Length
    modifies buf
    ensures buf[..] == Overwrite(old(buf[..]), at, s)
  {
    forall i | 0 <= i < |s| {
      buf[at + i] := s[i];
    }
  }

  // ---------------------------------------------------------------------
  // Entries under construction
  // ---------------------------------------------------------------------

  class Entry {
    const buf: array<Byte>
    const base: nat
    const space: nat
    var start: nat
    var len: nat

    constructor (buf: array<Byte>, base: nat, space: nat)
      ensures this.buf == buf && this.base == base && this.space == space
      ensures start == base + 8 && len == 0
    {
      this.buf, this.base, this.space := buf, base, space;
      start, len := base + 8, 0;
    }

    ghost predicate Valid()
      reads this
    {
      start == base + 8 + len
    }

    /** Append to the entry, unless it says it has no room.  The check looks at the
        space of the whole entry but not at the 9 bytes of its frame, so the
        caller has to keep those free. */
    method StoreBuf(s: seq<Byte>) returns (ok: bool)
      requires Valid() && start + |s| <= buf.Length
      modifies this, buf
      ensures Valid() && ok == (old(len) + |s| <= space)
      ensures ok ==> len == old(len) + |s| && buf[..] == Overwrite(old(buf[..]), old(start), s)
      ensures !ok ==> len == old(len) && buf[..] == old(buf[..])
    {
      ok := len + |s| <= space;
      if ok {
        Put(buf, start, s);
        start, len := start + |s|, len + |s|;
      }
    }

    method StoreUint64(x: nat) returns (ok: bool)
      requires Valid() && start + 8 <= buf.Length && x < TWO_TO_64
      modifies this, buf
      ensures Valid() && ok == (old(len) + 8 <= space)
      ensures ok ==> len == old(len) + 8 && buf[..] == Overwrite(old(buf[..]), old(start), Word(x))
      ensures !ok ==> len == old(len) && buf[..] == old(buf[..])
    {
      ok := StoreBuf(Word(x));
    }

    /** Two words and a payload at once, without looking at the space. */
    method FastStore(x: nat, y: nat, payload: seq<Byte>)
      requires Valid() && start + 16 + |payload| <= buf.Length && x < TWO_TO_64 && y < TWO_TO_64
      modifies this, buf
      ensures Valid() && len == old(len) + 16 + |payload|
      ensures buf[..] == Overwrite(old(buf[..]), old(start), Word(x) + Word(y) + payload)
    {
      var temp := start;
      ghost var before := buf[..];
      Put(buf, start, Word(x));
      start := start + 8;
      Put(buf, start, Word(y));
      start := start + 8;
      OverwriteTwice(before, temp, Word(x), Word(y));
      Put(buf, start, payload);
      start := start + |payload|;
      OverwriteTwice(before, temp, Word(x) + Word(y), payload);
      len := len + (start - temp);
    }

    /** Length in front, canary behind. */
    method Finalize() returns (size: nat)
      requires Valid() && start < buf.Length && len < TWO_TO_64
      modifies buf
      ensures size == len + 1 + 8
      ensures buf[..] == Overwrite(Overwrite(old(buf[..]), start - len - 8, Word(len)), start, [CANARY])
    {
      Put(buf, start - len - 8, Word(len));
      Put(buf, start, [CANARY]);
      size := len + 1 + 8;
    }
  }

  // ---------------------------------------------------------------------
  // Inside the space of an entry
  // ---------------------------------------------------------------------

  /** Nothing but the bytes of the entry's space is different. */
  predicate SameOutside(m: seq<Byte>, w: seq<Byte>, base: nat, space: nat) {
    |w| == |m| && forall i :: 0 <= i < |m| && !(base <= i < base + space) ==> w[i] == m[i]
  }

  /** What StoreBuf and Finalize make of memory m, for a single piece s. */
  function Entered(m: seq<Byte>, base: nat, s: seq<Byte>): (w: seq<Byte>)
    requires base + 9 + |s| <= |m| && |s| < TWO_TO_64
    ensures |w| == |m|
  {
    Overwrite(Overwrite(Overwrite(m, base + 8, s), base, Word(|s|)), base + 8 + |s|, [CANARY])
  }

  lemma EnteredAt(m: seq<Byte>, base: nat, s: seq<Byte>, i: nat)
    requires base + 9 + |s| <= |m| && |s| < TWO_TO_64 && i < |m|
    ensures i == base + 8 + |s| ==> Entered(m, base, s)[i] == CANARY
    ensures i < base || i > base + 8 + |s| ==> Entered(m, base, s)[i] == m[i]
  {
    hide Word;
  }

  lemma FittingStaysInside(m: seq<Byte>, base: nat, space: nat, s: seq<Byte>)
    requires base + 9 + |s| <= |m| && |s| < TWO_TO_64 && |s| + 9 <= space
    ensures SameOutside(m, Entered(m, base, s), base, space)
  {
    hide Entered;
    forall i | 0 <= i < |m| && !(base <= i < base + space) ensures Entered(m, base, s)[i] == m[i] {
      EnteredAt(m, base, s, i);
    }
  }

  /** An entry stays inside its space, whatever the memory held before, if and only if
      there is room for the nine bytes of its frame as well. */
  lemma InsideIffFrameFits(base: nat, space: nat, s: seq<Byte>, size: nat)
    requires base + 9 + |s| <= size && |s| < TWO_TO_64
    ensures (forall m: seq<Byte> :: |m| == size ==> SameOutside(m, Entered(m, base, s), base, space))
        <==> |s| + 9 <= space
  {
    hide Entered;
    if |s| + 9 <= space {
      forall m: seq<Byte> | |m| == size ensures SameOutside(m, Entered(m, base, s), base, space) {
        FittingStaysInside(m, base, space, s);
      }
    } else {
      var m: seq<Byte> := Zeros(size);
      EnteredAt(m, base, s, base + 8 + |s|);
      assert !SameOutside(m, Entered(m, base, s), base, space);
    }
  }

  /** Every piece that StoreBuf just accepts, with less than the nine bytes left, has
      its canary written behind the space of the entry. */
  method CanaryOutside(buf: array<Byte>, base: nat, space: nat, s: seq<Byte>) returns (ok: bool)
    requires space < |s| + 9 <= space + 9 && base + 9 + |s| <= buf.Length && |s| < TWO_TO_64
    modifies buf
    ensures ok && base + space <= base + 8 + |s| && buf[base + 8 + |s|] == CANARY
    ensures buf[..] == Entered(old(buf[..]), base, s)
  {
    var e := new Entry(buf, base, space);
    ok := e.StoreBuf(s);
    var size := e.Finalize();
  }

  // ---------------------------------------------------------------------
  // The log
  // ---------------------------------------------------------------------

  predicate ZeroFrom(m: seq<Byte>, o: nat) {
    o <= |m| && forall i :: o <= i < |m| ==> m[i] == 0
  }

  /** In memory m the log holds these records, and only zeros behind them. */
  ghost predicate Holds(m: seq<Byte>, records: seq<Record>) {
    && AllFit(records) && LiesAt(m, HEADER, Image(records))
    && ZeroFrom(m, HEADER + Offset(records, |records|))
  }

  lemma ZerosLie(m: seq<Byte>, o: nat, n: nat)
    requires ZeroFrom(m, o) && o + n <= |m|
    ensures LiesAt(m, o, Zeros(n))
  {
  }

  lemma WrittenBehind(m: seq<Byte>, h: nat, image: seq<Byte>, s: seq<Byte>, pad: nat)
    requires LiesAt(m, h, image) && ZeroFrom(m, h + |image|) && h + |image| + |s| + pad <= |m|
    ensures var w := Overwrite(m, h + |image|, s);
            LiesAt(w, h, image + (s + Zeros(pad))) && ZeroFrom(w, h + |image| + |s| + pad)
  {
    var o := h + |image|;
    var w := Overwrite(m, o, s);
    OverwriteSpares(m, o, s, h, image);
    OverwrittenLies(m, o, s);
    ZerosLie(w, o + |s|, pad);
    JoinLies(w, o, s, Zeros(pad));
    JoinLies(w, h, image, s + Zeros(pad));
  }

  lemma OffsetAppend(records: seq<Record>, r: Record)
    ensures Offset(records + [r], |records| + 1) == Offset(records, |records|) + RoundUp(Size(r))
  {
    OffsetPrefix(records, records + [r], |records|);
  }

  /** Writing one more record where the zeros begin. */
  lemma OverwriteAppends(m: seq<Byte>, records: seq<Record>, r: Record, o: nat)
    requires Holds(m, records) && Fits(r)
    requires o == HEADER + Offset(records, |records|) && o + RoundUp(Size(r)) <= |m|
    ensures Holds(Overwrite(m, o, Encode(r)), records + [r])
  {
    hide RoundUp, Offset, Image, Encode, Overwrite;
    var image, pad := Image(records), RoundUp(Size(r)) - Size(r);
    ImageLength(records);
    assert o == HEADER + |image|;
    WrittenBehind(m, HEADER, image, Encode(r), pad);
    ImageAppend(records, r);
    OffsetAppend(records, r);
    assert Padded(r) == Encode(r) + Zeros(pad);
  }

  /** A body stored behind a gap, framed, is the encoded record. */
  lemma FramedRecord(m: seq<Byte>, o: nat, r: Record)
    requires Fits(r) && o + Size(r) <= |m|
    ensures var w0 := Overwrite(m, o + 8, Body(r));
            var w1 := Overwrite(Overwrite(w0, o, Word(|Body(r)|)), o + 8 + |Body(r)|, [CANARY]);
            w1 == Overwrite(m, o, Encode(r))
  {
    var w0 := Overwrite(m, o + 8, Body(r));
    var w1 := Overwrite(Overwrite(w0, o, Word(|Body(r)|)), o + 8 + |Body(r)|, [CANARY]);
    var w := Overwrite(m, o, Encode(r));
    forall i | 0 <= i < |m|
      ensures w1[i] == w[i]
    {
    }
  }

  /** Body, then length, then canary: the log holds one record more. */
  lemma SlotWritten(m: seq<Byte>, records: seq<Record>, r: Record, o: nat, w: seq<Byte>)
    requires Holds(m, records) && Fits(r)
    requires o == HEADER + Offset(records, |records|) && o + RoundUp(Size(r)) <= |m|
    requires w == Overwrite(Overwrite(Overwrite(m, o + 8, Body(r)), o, Word(|Body(r)|)),
                            o + 8 + |Body(r)|, [CANARY])
    ensures Holds(w, records + [r])
    ensures HEADER + Offset(records + [r], |records| + 1) == o + RoundUp(Size(r))
  {
    hide RoundUp, Offset, Image, Encode, Overwrite;
    FramedRecord(m, o, r);
    OverwriteAppends(m, records, r, o);
    OffsetAppend(records, r);
  }

  /** Exactly the places of the records are populated. */
  lemma PopulatedUpTo(m: seq<Byte>, records: seq<Record>, i: nat)
    requires AllFit(records) && LiesAt(m, HEADER, Image(records)) && i <= |records|
    requires EndsAt(m, HEADER + Offset(records, |records|))
    ensures var o := HEADER + Offset(records, i);
            && o <= |m| && Readable(m, o)
            && (IsPopulated(m, o) <==> i < |records|) && (LooksPopulated(m, o) <==> i < |records|)
            && (i < |records| ==> HasRecord(m, o))
            && (i < |records| ==> ParsedAt(m, o) == records[i])
            && (i < |records| ==> LengthAt(m, o) + 8 + 1 == Size(records[i]))
  {
    hide FromBytes, Offset, Image;
    var o := HEADER + Offset(records, i);
    if i < |records| {
      RecordLies(m, HEADER, records, i);
      RecordRoundTrip(m, o, records[i]);
    }
  }

  /** The next place is where the length read here leads. */
  lemma NextPlace(m: seq<Byte>, records: seq<Record>, i: nat)
    requires AllFit(records) && LiesAt(m, HEADER, Image(records)) && i < |records|
    requires EndsAt(m, HEADER + Offset(records, |records|))
    ensures var o := HEADER + Offset(records, i);
            && Readable(m, o)
            && o + RoundUp(LengthAt(m, o) + 8 + 1) == HEADER + Offset(records, i + 1)
    ensures HEADER + Offset(records, i + 1) <= |m|
  {
    PopulatedUpTo(m, records, i);
    PopulatedUpTo(m, records, i + 1);
  }

  class Log {
    const buf: array<Byte>
    const initialFuo: nat
    const initialFreeBytes: nat
    var minProposal: nat
    var firstUndecidedOffset: nat
    var freeBytes: nat

    /** What the log holds, and that the free space begins right behind it. */
    ghost predicate Valid(records: seq<Record>)
      reads this, buf
    {
      && buf.Length < TWO_TO_64
      && Holds(buf[..], records)
      && HEADER + Offset(records, |records|) + freeBytes == buf.Length
    }

    /** Over a zeroed, aligned buffer. */
    constructor (buf: array<Byte>)
      requires HEADER <= buf.Length < TWO_TO_64
      requires ZeroFrom(buf[..], 0)
      ensures this.buf == buf && Valid([])
      ensures minProposal == 0 && firstUndecidedOffset == initialFuo == HEADER
      ensures freeBytes == initialFreeBytes == buf.Length - HEADER
    {
      this.buf := buf;
      minProposal := 0;
      freeBytes := buf.Length - HEADER;
      initialFuo, initialFreeBytes := HEADER, buf.Length - HEADER;
      firstUndecidedOffset := HEADER;
    }

    method NewEntry() returns (e: Entry)
      requires freeBytes <= buf.Length
      ensures fresh(e) && e.Valid() && e.len == 0
      ensures e.buf == buf && e.base == buf.Length - freeBytes && e.space == freeBytes
    {
      e := new Entry(buf, buf.Length - freeBytes, freeBytes);
    }

    method FinalizeEntry(e: Entry)
      requires e.buf == buf && e.Valid() && e.start < buf.Length && e.len < TWO_TO_64
      requires RoundUp(e.len + 1 + 8) <= freeBytes
      modifies this`freeBytes, buf
      ensures freeBytes == old(freeBytes) - RoundUp(e.len + 1 + 8)
      ensures buf[..] == Overwrite(Overwrite(old(buf[..]), e.start - e.len - 8, Word(e.len)), e.start, [CANARY])
    {
      var used := e.Finalize();
      freeBytes := freeBytes - RoundUp(used);
    }

    method ResetFuo()
      modifies this`firstUndecidedOffset
      ensures firstUndecidedOffset == initialFuo
    {
      firstUndecidedOffset := initialFuo;
    }

    /** Zero everything behind the header: the log is empty again.  free_bytes is
        left as it is. */
    method Bzero()
      requires initialFuo == HEADER && initialFuo + initialFreeBytes == buf.Length
      modifies buf
      ensures Holds(buf[..], []) && buf[..HEADER] == old(buf[..HEADER])
    {
      forall i | 0 <= i < initialFreeBytes {
        buf[initialFuo + i] := 0;
      }
    }

    /** From a first undecided offset that is the start of record k, rebuildLog
        finds the end of the records the memory holds, whatever free_bytes said,
        even if a torn record follows them. */
    method RebuildLog(ghost records: seq<Record>, ghost k: nat)
      requires AllFit(records) && LiesAt(buf[..], HEADER, Image(records))
      requires EndsAt(buf[..], HEADER + Offset(records, |records|))
      requires k <= |records| && firstUndecidedOffset == HEADER + Offset(records, k)
      modifies this`freeBytes
      ensures HEADER + Offset(records, |records|) + freeBytes == buf.Length
    {
      hide *;
      ghost var m, i := buf[..], k;
      PopulatedUpTo(m, records, k);
      freeBytes := buf.Length - firstUndecidedOffset;
      var offset := firstUndecidedOffset;
      var populated := IsPopulated(buf[..], offset);
      while populated
        invariant i <= |records| && offset == HEADER + Offset(records, i)
        invariant offset + freeBytes == buf.Length && buf[..] == m
        invariant populated == (i < |records|)
        decreases |records| - i
      {
        NextPlace(m, records, i);
        var used := RoundUp(LengthAt(buf[..], offset) + 8 + 1);
        offset := offset + used;
        freeBytes := freeBytes - used;
        i := i + 1;
        PopulatedUpTo(m, records, i);
        populated := IsPopulated(buf[..], offset);
      }
    }
  }

  // ---------------------------------------------------------------------
  // Slots
  // ---------------------------------------------------------------------

  /** A slot written field by field, in the one order it allows. */
  class Slot {
    const log: Log
    const entry: Entry
    var seqNr: nat
    ghost const before: seq<Byte>

    /** The slot lies behind the records of the log; so far it holds `body`. */
    ghost predicate Building(records: seq<Record>, body: seq<Byte>)
      reads this, log, entry, log.buf
    {
      && entry.buf == log.buf && entry.Valid() && entry.len == |body|
      && log.buf.Length < TWO_TO_64 && |before| == log.buf.Length && Holds(before, records)
      && HEADER + Offset(records, |records|) + log.freeBytes == log.buf.Length
      && entry.base == log.buf.Length - log.freeBytes && entry.space == log.freeBytes
      && entry.base + 8 + |body| <= log.buf.Length
      && log.buf[..] == Overwrite(before, entry.base + 8, body)
    }

    constructor (log: Log, ghost records: seq<Record>)
      requires log.Valid(records) && log.freeBytes >= 8
      ensures this.log == log && fresh(entry) && seqNr == 0 && Building(records, [])
    {
      var e := log.NewEntry();
      this.log, entry, seqNr := log, e, 0;
      before := log.buf[..];
    }

    /** Each store first checks that it comes in its turn: out of turn, at any stage of
        the slot, it is refused (an exception) and nothing changes. */
    method StoreAcceptedProposal(proposal: nat, ghost records: seq<Record>) returns (ok: bool)
      requires seqNr == 0 ==> Building(records, []) && proposal < TWO_TO_64 && log.freeBytes >= 16
      modifies this`seqNr, entry, log.buf
      ensures ok == (old(seqNr) == 0)
      ensures ok ==> seqNr == 1 && Building(records, Word(proposal))
      ensures !ok ==> seqNr == old(seqNr) && log.buf[..] == old(log.buf[..])
    {
      if seqNr != 0 {
        return false;
      }
      seqNr := 1;
      ok := entry.StoreUint64(proposal);
    }

    method StoreFirstUndecidedOffset(proposal: nat, fuo: nat, ghost records: seq<Record>) returns (ok: bool)
      requires proposal < TWO_TO_64 && fuo < TWO_TO_64
      requires seqNr == 1 ==> Building(records, Word(proposal)) && log.freeBytes >= 24
      modifies this`seqNr, entry, log.buf
      ensures ok == (old(seqNr) == 1)
      ensures ok ==> seqNr == 2 && Building(records, Word(proposal) + Word(fuo))
      ensures !ok ==> seqNr == old(seqNr) && log.buf[..] == old(log.buf[..])
    {
      if seqNr != 1 {
        return false;
      }
      seqNr := 2;
      ok := entry.StoreUint64(fuo);
      OverwriteTwice(before, entry.base + 8, Word(proposal), Word(fuo));
    }

    /** The last store finishes the slot: the log holds one record more. */
    method StorePayload(r: Record, ghost records: seq<Record>) returns (ok: bool)
      requires Fits(r)
      requires seqNr == 2 ==> Building(records, Word(r.proposal) + Word(r.fuo)) && RoundUp(Size(r)) <= log.freeBytes
      modifies this`seqNr, entry, log`freeBytes, log.buf
      ensures ok == (old(seqNr) == 2)
      ensures ok ==> log.Valid(records + [r]) && log.freeBytes == old(log.freeBytes) - RoundUp(Size(r))
      ensures !ok ==> log.freeBytes == old(log.freeBytes) && log.buf[..] == old(log.buf[..])
    {
      hide RoundUp, Offset, Holds, Encode, Overwrite;
      if seqNr != 2 {
        return false;
      }
      seqNr := 3;
      ok := entry.StoreBuf(r.payload);
      OverwriteTwice(before, entry.base + 8, Word(r.proposal) + Word(r.fuo), r.payload);
      assert Word(r.proposal) + Word(r.fuo) + r.payload == Body(r);
      log.FinalizeEntry(entry);
      SlotWritten(before, records, r, entry.base, log.buf[..]);
    }
  }

  /** The leader's next first undecided offset, the end of the slot it wrote
      rounded up, is where the slot after it starts. */
  lemma NextFuo(records: seq<Record>, r: Record)
    ensures RoundUp(HEADER + Offset(records, |records|) + Size(r)) == HEADER + Offset(records + [r], |records| + 1)
    ensures (HEADER + Offset(records, |records|)) % 64 == 0
  {
    hide RoundUp, Offset;
    var o := HEADER + Offset(records, |records|);
    OffsetAligned(records, |records|);
    assert o % 64 == 0;
    RoundUpAligned(o, Size(r));
    OffsetAppend(records, r);
  }

  /** The five-argument constructor: a whole slot at once.  Returns its location;
      the leader's next first undecided offset is where the next slot will be. */
  method WriteSlot(log: Log, r: Record, ghost records: seq<Record>) returns (offset: nat, size: nat)
    requires log.Valid(records) && Fits(r) && RoundUp(Size(r)) <= log.freeBytes
    modifies log`freeBytes, log.buf
    ensures log.Valid(records + [r])
    ensures offset == HEADER + Offset(records, |records|) && size == Size(r)
    ensures offset % 64 == 0
    ensures RoundUp(offset + size) == HEADER + Offset(records + [r], |records| + 1)
  {
    hide RoundUp, Offset, Holds, Encode, Overwrite;
    ghost var before := log.buf[..];
    var entry := log.NewEntry();
    entry.FastStore(r.proposal, r.fuo, r.payload);
    log.FinalizeEntry(entry);
    offset, size := entry.base, entry.len + 1 + 8;
    SlotWritten(before, records, r, entry.base, log.buf[..]);
    NextFuo(records, r);
  }
}
