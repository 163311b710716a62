module LogFormat {
  // The byte format of the log: little-endian integers, records with a length in
  // front and a canary behind, and rows of records aligned to cache lines.

  type Byte = b: int | 0 <= b < 256

  const CANARY: Byte := 0xff

  // ---------------------------------------------------------------------
  // Little-endian integers
  // ---------------------------------------------------------------------

  function Pow256(k: nat): (p: nat)
    ensures p >= 1
  {
    if k == 0 then 1 else 256 * Pow256(k - 1)
  }

  /** The bytes of x, the least significant first. */
  function Digits(x: nat): seq<Byte> {
    if x == 0 then [] else [x % 256] + Digits(x / 256)
  }

  function FromBytes(s: seq<Byte>): nat {
    if s == [] then 0 else s[0] + 256 * FromBytes(s[1..])
  }

  function Zeros(n: nat): (s: seq<Byte>)
    ensures |s| == n && forall i :: 0 <= i < n ==> s[i] == 0
  {
    seq(n, _ => 0)
  }

  lemma {:induction false} DigitsFit(x: nat, k: nat)
    requires x < Pow256(k)
    ensures |Digits(x)| <= k
  {
    if x > 0 {
      DigitsFit(x / 256, k - 1);
    }
  }

  lemma {:induction false} ZerosAreZero(n: nat)
    ensures FromBytes(Zeros(n)) == 0
  {
    if n > 0 {
      assert Zeros(n)[1..] == Zeros(n - 1);
      ZerosAreZero(n - 1);
    }
  }

  lemma {:induction false} DigitsRoundTrip(x: nat, n: nat)
    ensures FromBytes(Digits(x) + Zeros(n)) == x
  {
    if x == 0 {
      assert Digits(x) + Zeros(n) == Zeros(n);
      ZerosAreZero(n);
    } else {
      DigitsRoundTrip(x / 256, n);
      assert (Digits(x) + Zeros(n))[1..] == Digits(x / 256) + Zeros(n);
    }
  }

  /** The first p bytes of a number, the others still zero, never read as more. */
  lemma {:induction false} TornDigits(x: nat, n: nat, p: nat)
    requires p <= |Digits(x)| + n
    ensures FromBytes((Digits(x) + Zeros(n))[..p] + Zeros(|Digits(x)| + n - p)) <= x
  {
    var torn := (Digits(x) + Zeros(n))[..p] + Zeros(|Digits(x)| + n - p);
    if p == 0 || x == 0 {
      assert torn == Zeros(|torn|);
      ZerosAreZero(|torn|);
    } else {
      TornDigits(x / 256, n, p - 1);
      assert torn[1..] == (Digits(x / 256) + Zeros(n))[..p - 1] + Zeros(|Digits(x / 256)| + n - (p - 1));
      assert torn[0] == x % 256;
    }
  }

  /** What a 64-bit word of the source can hold. */
  const TWO_TO_64: nat := 0x1_0000_0000_0000_0000

  lemma WordSize()
    ensures Pow256(8) == TWO_TO_64
  {
    assert Pow256(2) == 0x1_0000;
    assert Pow256(4) == 0x1_0000_0000;
    assert Pow256(6) == 0x1_0000_0000_0000;
  }

  lemma WordFits(x: nat)
    requires x < TWO_TO_64
    ensures |Digits(x)| <= 8
  {
    WordSize();
    DigitsFit(x, 8);
  }

  /** x in eight bytes. */
  function Word(x: nat): (s: seq<Byte>)
    requires x < TWO_TO_64
    ensures |s| == 8 && FromBytes(s) == x
  {
    WordFits(x);
    DigitsRoundTrip(x, 8 - |Digits(x)|);
    Digits(x) + Zeros(8 - |Digits(x)|)
  }

  lemma TornWord(x: nat, p: nat)
    requires x < TWO_TO_64 && p <= 8
    ensures FromBytes(Word(x)[..p] + Zeros(8 - p)) <= x
  {
    WordFits(x);
    TornDigits(x, 8 - |Digits(x)|, p);
  }

  // ---------------------------------------------------------------------
  // Records
  // ---------------------------------------------------------------------

  datatype Record = Record(proposal: nat, fuo: nat, payload: seq<Byte>)

  /** The fields fit the words of the format. */
  predicate Fits(r: Record) {
    r.proposal < TWO_TO_64 && r.fuo < TWO_TO_64 && 16 + |r.payload| < TWO_TO_64
  }

  function Body(r: Record): (s: seq<Byte>)
    requires Fits(r)
    ensures |s| == 16 + |r.payload|
  {
    Word(r.proposal) + Word(r.fuo) + r.payload
  }

  /** A record as it lies in memory. */
  function Encode(r: Record): (s: seq<Byte>)
    requires Fits(r)
    ensures |s| == Size(r)
  {
    Word(|Body(r)|) + Body(r) + [CANARY]
  }

  function Size(r: Record): nat {
    24 + |r.payload| + 1
  }

  /** The next multiple of the alignment, 64. */
  function RoundUp(v: nat): (r: nat)
    ensures v <= r < v + 64
  {
    if v == 0 then 0 else if v <= 64 then 64 else 64 + RoundUp(v - 64)
  }

  /** round_up_powerof2: add what is missing, then drop the remainder. */
  lemma {:induction false} RoundUpDrops(v: nat)
    ensures RoundUp(v) == (v + 63) - (v + 63) % 64
    ensures RoundUp(v) % 64 == 0
  {
    if v > 64 {
      RoundUpDrops(v - 64);
    }
  }

  /** A record followed by the zeros up to the next aligned place. */
  function Padded(r: Record): (s: seq<Byte>)
    requires Fits(r)
    ensures |s| == RoundUp(Size(r))
  {
    Encode(r) + Zeros(RoundUp(Size(r)) - Size(r))
  }

  predicate AllFit(records: seq<Record>) {
    forall i :: 0 <= i < |records| ==> Fits(records[i])
  }

  function Image(records: seq<Record>): seq<Byte>
    requires AllFit(records)
  {
    if records == [] then [] else Padded(records[0]) + Image(records[1..])
  }

  /** How far behind the first record record i starts. */
  function Offset(records: seq<Record>, i: nat): nat
    requires i <= |records|
  {
    if i == 0 then 0 else Offset(records, i - 1) + RoundUp(Size(records[i - 1]))
  }

  // ---------------------------------------------------------------------
  // Reading a place in memory
  // ---------------------------------------------------------------------

  function LengthAt(m: seq<Byte>, o: nat): nat
    requires o + 8 <= |m|
  {
    FromBytes(m[o..o + 8])
  }

  /** The bytes that isPopulated and sampleNext look at exist. */
  predicate Readable(m: seq<Byte>, o: nat) {
    o + 8 <= |m| && o + 8 + LengthAt(m, o) < |m|
  }

  function CanaryAt(m: seq<Byte>, o: nat): Byte
    requires Readable(m, o)
  {
    m[o + 8 + LengthAt(m, o)]
  }

  predicate IsPopulated(m: seq<Byte>, o: nat)
    requires Readable(m, o)
  {
    LengthAt(m, o) != 0 && CanaryAt(m, o) == CANARY
  }

  /** The test of the iterators, which take any byte but zero for the canary. */
  predicate LooksPopulated(m: seq<Byte>, o: nat)
    requires Readable(m, o)
  {
    LengthAt(m, o) != 0 && CanaryAt(m, o) != 0
  }

  /** There is a whole record at o for the accessors to read. */
  predicate HasRecord(m: seq<Byte>, o: nat) {
    Readable(m, o) && IsPopulated(m, o) && LengthAt(m, o) >= 16
  }

  function ParsedAt(m: seq<Byte>, o: nat): Record
    requires HasRecord(m, o)
  {
    Record(FromBytes(m[o + 8..o + 16]),
           FromBytes(m[o + 16..o + 24]),
           m[o + 24..o + 8 + LengthAt(m, o)])
  }

  /** The bytes of m from o on start with s. */
  predicate LiesAt(m: seq<Byte>, o: nat, s: seq<Byte>) {
    o + |s| <= |m| && m[o..o + |s|] == s
  }

  lemma PieceLies(m: seq<Byte>, o: nat, a: seq<Byte>, b: seq<Byte>, c: seq<Byte>)
    requires LiesAt(m, o, a + b + c)
    ensures LiesAt(m, o, a) && LiesAt(m, o + |a|, b) && LiesAt(m, o + |a| + |b|, c)
  {
    var s := a + b + c;
    assert m[o..o + |a|] == m[o..o + |s|][..|a|] == a;
    assert m[o + |a|..o + |a| + |b|] == m[o..o + |s|][|a|..|a| + |b|] == b;
    assert m[o + |a| + |b|..o + |s|] == m[o..o + |s|][|a| + |b|..] == c;
  }

  lemma JoinLies(m: seq<Byte>, o: nat, a: seq<Byte>, b: seq<Byte>)
    requires LiesAt(m, o, a) && LiesAt(m, o + |a|, b)
    ensures LiesAt(m, o, a + b)
  {
    assert m[o..o + |a| + |b|] == m[o..o + |a|] + m[o + |a|..o + |a| + |b|];
  }

  /** What is written is what is read. */
  lemma RecordRoundTrip(m: seq<Byte>, o: nat, r: Record)
    requires Fits(r) && LiesAt(m, o, Encode(r))
    ensures HasRecord(m, o) && LooksPopulated(m, o) && ParsedAt(m, o) == r
    ensures LengthAt(m, o) + 8 + 1 == Size(r)
  {
    PieceLies(m, o, Word(|Body(r)|), Body(r), [CANARY]);
    assert m[o + 8 + |Body(r)|..o + Size(r)][0] == CANARY;
    PieceLies(m, o + 8, Word(r.proposal), Word(r.fuo), r.payload);
  }

  /** A record written only in part, byte after byte over zeros, is not taken for
      one, by either test; not even when its length is half written. */
  lemma TornRecord(m: seq<Byte>, o: nat, r: Record, p: nat)
    requires Fits(r) && p < Size(r)
    requires LiesAt(m, o, Encode(r)[..p] + Zeros(Size(r) - p))
    ensures Readable(m, o) && !IsPopulated(m, o) && !LooksPopulated(m, o)
  {
    var len, whole := |Body(r)|, Encode(r)[..p] + Zeros(Size(r) - p);
    var q := if p < 8 then p else 8;
    var torn := Word(len)[..q] + Zeros(8 - q);
    assert whole[..8] == torn;
    assert m[o..o + 8] == m[o..o + |whole|][..8];
    TornWord(len, q);
    if p >= 8 {
      assert torn == Word(len);
    }
    var at := 8 + LengthAt(m, o);
    assert m[o + at] == m[o..o + |whole|][at] == 0;
  }

  // ---------------------------------------------------------------------
  // Rows of records
  // ---------------------------------------------------------------------

  lemma {:induction false} ImageLength(records: seq<Record>)
    requires AllFit(records)
    ensures |Image(records)| == Offset(records, |records|)
  {
    if records != [] {
      ImageLength(records[1..]);
      OffsetTail(records, |records|);
    }
  }

  lemma {:induction false} OffsetTail(records: seq<Record>, i: nat)
    requires 1 <= i <= |records|
    ensures Offset(records, i) == RoundUp(Size(records[0])) + Offset(records[1..], i - 1)
  {
    if i > 1 {
      OffsetTail(records, i - 1);
      assert records[i - 1] == records[1..][i - 2];
    }
  }

  /** Every record starts at a multiple of the alignment. */
  lemma {:induction false} OffsetAligned(records: seq<Record>, i: nat)
    requires i <= |records|
    ensures Offset(records, i) % 64 == 0
  {
    if i > 0 {
      OffsetAligned(records, i - 1);
      RoundUpDrops(Size(records[i - 1]));
    }
  }

  lemma {:induction false} OffsetPrefix(a: seq<Record>, b: seq<Record>, i: nat)
    requires i <= |a| <= |b| && a == b[..|a|]
    ensures Offset(a, i) == Offset(b, i)
  {
    if i > 0 {
      OffsetPrefix(a, b, i - 1);
      assert a[i - 1] == b[i - 1];
    }
  }

  lemma {:induction false} OffsetsAscend(records: seq<Record>, i: nat, j: nat)
    requires i <= j <= |records|
    ensures Offset(records, i) <= Offset(records, j)
    ensures i < j ==> Offset(records, i) < Offset(records, j)
  {
    if i < j {
      OffsetsAscend(records, i, j - 1);
    }
  }

  lemma {:induction false} ImageAppend(records: seq<Record>, r: Record)
    requires AllFit(records) && Fits(r)
    ensures AllFit(records + [r])
    ensures Image(records + [r]) == Image(records) + Padded(r)
  {
    assert AllFit(records + [r]);
    if records == [] {
      assert [r][1..] == [];
    } else {
      assert (records + [r])[1..] == records[1..] + [r];
      ImageAppend(records[1..], r);
    }
  }

  /** Each record of a row lies at its offset. */
  lemma {:induction false} RecordLies(m: seq<Byte>, o: nat, records: seq<Record>, i: nat)
    requires AllFit(records) && i < |records| && LiesAt(m, o, Image(records))
    ensures LiesAt(m, o + Offset(records, i), Encode(records[i]))
    decreases i
  {
    var r := records[0];
    var pad := Zeros(RoundUp(Size(r)) - Size(r));
    assert Image(records) == Encode(r) + pad + Image(records[1..]);
    PieceLies(m, o, Encode(r), pad, Image(records[1..]));
    if i > 0 {
      RecordLies(m, o + |Padded(r)|, records[1..], i - 1);
      OffsetTail(records, i);
    }
  }

  // ---------------------------------------------------------------------
  // The end of a log
  // ---------------------------------------------------------------------

  /** Nobody takes the bytes at o for a record. */
  predicate EndsAt(m: seq<Byte>, o: nat) {
    Readable(m, o) && !IsPopulated(m, o) && !LooksPopulated(m, o)
  }

  lemma ZerosEnd(m: seq<Byte>, o: nat)
    requires LiesAt(m, o, Zeros(8 + 1))
    ensures EndsAt(m, o)
  {
    assert m[o..o + 8] == m[o..o + 8 + 1][..8] == Zeros(8);
    ZerosAreZero(8);
  }

  /** Rounding up what follows an aligned place. */
  lemma {:induction false} RoundUpAligned(o: nat, v: nat)
    requires o % 64 == 0
    ensures RoundUp(o + v) == o + RoundUp(v)
  {
    if o > 0 {
      RoundUpAligned(o - 64, v);
    }
  }
}
