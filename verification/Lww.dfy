module Lww {
  // Last writer wins: a value packed with the version it was written at, replaced
  // only by greater versions.

  const COUNTER_LIMIT: nat := 0x100_0000        // 24 bits
  const WRITER_LIMIT: nat := 0x100              // 8 bits
  const CLOCK_LIMIT: nat := 0x1_0000_0000       // 32 bits
  const PACKED_LIMIT: nat := 0x1_0000_0000_0000_0000

  datatype Write = Write(counter: nat, writer: nat, value: int)

  predicate Fits(w: Write) {
    && w.counter < COUNTER_LIMIT && w.writer < WRITER_LIMIT
    && -0x8000_0000 <= w.value < 0x8000_0000
  }

  /** The version in 32 bits: counter above, writer below. */
  function Version(w: Write): nat {
    w.counter * 256 + w.writer
  }

  /** The packed word: version above, the value's 32 bits below. */
  function Pack(w: Write): nat {
    Version(w) * 0x1_0000_0000 + w.value % 0x1_0000_0000
  }

  function VersionOf(packed: nat): nat {
    packed / 0x1_0000_0000
  }

  function ValueOf(packed: nat): int {
    var low := packed % 0x1_0000_0000;
    if low >= 0x8000_0000 then low - 0x1_0000_0000 else low
  }

  /** The source builds a version with a shift and an or. */
  lemma ShiftOrIsSum(counter: bv32, writer: bv32)
    requires counter < 0x100_0000 && writer < 0x100
    ensures (counter << 8) | writer == counter * 0x100 + writer
  {
  }

  lemma PackRoundTrip(w: Write)
    requires Fits(w)
    ensures Pack(w) < PACKED_LIMIT
    ensures VersionOf(Pack(w)) == Version(w) && ValueOf(Pack(w)) == w.value
    ensures Version(w) / 256 == w.counter && Version(w) % 256 == w.writer
  {
  }

  /** Exactly the writes that fit come back. */
  lemma PackNeedsFit(w: Write)
    ensures Fits(w) <==>
              && Pack(w) < PACKED_LIMIT && ValueOf(Pack(w)) == w.value
              && VersionOf(Pack(w)) / 256 == w.counter && VersionOf(Pack(w)) % 256 == w.writer
  {
    if Fits(w) {
      PackRoundTrip(w);
    }
  }

  /** Versions compare like (counter, writer), and so do packed words. */
  lemma VersionOrder(v: Write, w: Write)
    requires Fits(v) && Fits(w)
    ensures Version(v) < Version(w) <==> v.counter < w.counter || (v.counter == w.counter && v.writer < w.writer)
    ensures VersionOf(Pack(v)) < VersionOf(Pack(w)) <==> Version(v) < Version(w)
    ensures Version(v) < Version(w) ==> Pack(v) < Pack(w)
  {
    PackRoundTrip(v);
    PackRoundTrip(w);
  }

  // ---------------------------------------------------------------------
  // Merging
  // ---------------------------------------------------------------------

  function Merge(packed: nat, w: Write): nat {
    if VersionOf(packed) < Version(w) then Pack(w) else packed
  }

  function MergeAll(ws: seq<Write>): nat {
    if ws == [] then 0 else Merge(MergeAll(ws[..|ws| - 1]), ws[|ws| - 1])
  }

  /** The word holds the greatest of the writes; 0 if there is none. */
  ghost predicate Holds(packed: nat, ws: set<Write>) {
    if ws == {} then packed == 0
    else exists w :: w in ws && packed == Pack(w) && forall v :: v in ws ==> Version(v) <= Version(w)
  }

  /** Counters start at 1. */
  predicate AllFit(ws: set<Write>) {
    forall w :: w in ws ==> Fits(w) && w.counter > 0
  }

  /** A version belongs to one write. */
  predicate Distinct(ws: set<Write>) {
    forall v, w :: v in ws && w in ws && Version(v) == Version(w) ==> v == w
  }

  lemma MergeHolds(packed: nat, ws: set<Write>, w: Write)
    requires Holds(packed, ws) && AllFit(ws + {w}) && Distinct(ws + {w})
    ensures Holds(Merge(packed, w), ws + {w})
  {
    hide Pack, Version;
    assert w in ws + {w};
    PackRoundTrip(w);
    if ws == {} {
      VersionIsPositive(w);
    } else {
      var u :| u in ws && packed == Pack(u) && forall v :: v in ws ==> Version(v) <= Version(u);
      assert u in ws + {w};
      PackRoundTrip(u);
      if Version(u) < Version(w) {
        assert forall v :: v in ws + {w} ==> Version(v) <= Version(w);
      } else {
        assert forall v :: v in ws + {w} ==> Version(v) <= Version(u);
      }
    }
  }

  lemma VersionIsPositive(w: Write)
    requires Fits(w) && w.counter > 0
    ensures Version(w) > VersionOf(0)
  {
  }

  lemma HeldOnce(p: nat, q: nat, ws: set<Write>)
    requires Holds(p, ws) && Holds(q, ws) && Distinct(ws)
    ensures p == q
  {
  }

  function AsSet(ws: seq<Write>): set<Write> {
    set w | w in ws
  }

  lemma {:induction false} MergeAllHolds(ws: seq<Write>)
    requires AllFit(AsSet(ws)) && Distinct(AsSet(ws))
    ensures Holds(MergeAll(ws), AsSet(ws))
  {
    if ws == [] {
      assert AsSet(ws) == {};
    } else {
      var before, w := ws[..|ws| - 1], ws[|ws| - 1];
      assert ws == before + [w];
      assert AsSet(ws) == AsSet(before) + {w};
      MergeAllHolds(before);
      MergeHolds(MergeAll(before), AsSet(before), w);
    }
  }

  /** Whoever applied the same writes, in any order and any number of times, holds
      the same word. */
  lemma Converges(ws: seq<Write>, ws': seq<Write>)
    requires AsSet(ws) == AsSet(ws') && AllFit(AsSet(ws)) && Distinct(AsSet(ws))
    ensures MergeAll(ws) == MergeAll(ws')
  {
    MergeAllHolds(ws);
    MergeAllHolds(ws');
    HeldOnce(MergeAll(ws), MergeAll(ws'), AsSet(ws));
  }

  // ---------------------------------------------------------------------
  // The objects
  // ---------------------------------------------------------------------

  datatype Result<T> = Ok(value: T) | Throws

  /** Between a load and the next compare-and-swap, other threads may have merged
      some writes, and the swap may fail for no reason. */
  datatype Meanwhile = Meanwhile(merged: seq<Write>, spurious: bool)

  function MergeMore(packed: nat, ws: seq<Write>): nat {
    if ws == [] then packed else Merge(MergeMore(packed, ws[..|ws| - 1]), ws[|ws| - 1])
  }

  function Others(env: seq<Meanwhile>): seq<Write> {
    if env == [] then [] else Others(env[..|env| - 1]) + env[|env| - 1].merged
  }

  class Register {
    var state: nat
    var clock: nat

    constructor ()
      ensures state == 0 && clock == 0
    {
      state, clock := 0, 0;
    }

    /** Source of a write: the next counter, unless it or the writer does not fit;
        the clock has moved even then. */
    method Execute(self: int) returns (version: Result<(nat, nat)>)
      requires clock < CLOCK_LIMIT
      modifies this`clock
      ensures clock == (old(clock) + 1) % CLOCK_LIMIT
      ensures version.Ok? <==> clock < COUNTER_LIMIT && 0 <= self <= 255
      ensures version.Ok? ==> version.value.0 == clock && version.value.1 == self
    {
      clock := (clock + 1) % CLOCK_LIMIT;
      var counter := clock;
      if counter >= COUNTER_LIMIT || self < 0 || self > 255 {
        return Throws;
      }
      version := Ok((counter, self));
    }

    method AdvanceClock(observed: nat)
      modifies this`clock
      ensures clock == if old(clock) < observed then observed else old(clock)
    {
      var current := clock;
      if current < observed {
        clock := observed;
      }
    }

    /** The compare-and-swap loop: however other threads interfere, the write is
        merged at one moment among theirs. */
    method StoreIfNewer(w: Write, env: seq<Meanwhile>) returns (ghost used: nat, ghost at: nat)
      requires Fits(w)
      modifies this`state
      ensures used <= |env| && at <= |Others(env[..used])|
      ensures var others := Others(env[..used]);
              state == MergeMore(old(state), others[..at] + [w] + others[at..])
    {
      PackRoundTrip(w);
      hide Pack, Version, VersionOf, MergeMore, Others;
      used := 0;
      var i := 0;
      var current := state;
      assert env[..0] == [];
      NoOthers(old(state));
      while VersionOf(current) < Version(w)
        invariant used == i <= |env|
        invariant current == state == MergeMore(old(state), Others(env[..i]))
        decreases |env| - i
      {
        if i == |env| {
          at := |Others(env[..used])|;
          MergedLast(old(state), Others(env[..used]), w);
          state := Pack(w);
          return;
        }
        var meanwhile := env[i];
        ghost var before := Others(env[..i]);
        OthersOne(env, i);
        MergeMoreJoin(old(state), before, meanwhile.merged);
        state := MergeMore(state, meanwhile.merged);
        i, used := i + 1, i + 1;
        if state == current && !meanwhile.spurious {
          at := |Others(env[..used])|;
          MergedLast(old(state), Others(env[..used]), w);
          state := Pack(w);
          return;
        }
        current := state;
      }
      at := |Others(env[..used])|;
      MergedLast(old(state), Others(env[..used]), w);
    }

    /** A downstream write alone: the clock catches up and the write is merged. */
    method ExecuteDownstream(w: Write) returns (ok: bool)
      requires -0x8000_0000 <= w.value < 0x8000_0000
      modifies this
      ensures ok == (w.counter < COUNTER_LIMIT && w.writer <= 255)
      ensures ok ==> state == Merge(old(state), w)
      ensures ok ==> clock == if old(clock) < w.counter then w.counter else old(clock)
      ensures !ok ==> state == old(state) && clock == old(clock)
    {
      if w.counter >= COUNTER_LIMIT || w.writer > 255 {
        return false;
      }
      AdvanceClock(w.counter);
      ghost var used, at;
      used, at := StoreIfNewer(w, []);
      ghost var others := Others([][..used]);
      assert others == [] && others[..at] + [w] + others[at..] == [w];
      assert [w][..0] == [];
      ok := true;
    }
  }

  class KvStore {
    const entries: array<nat>

    constructor (keyCount: nat)
      ensures fresh(entries) && entries.Length == keyCount && forall k :: 0 <= k < keyCount ==> entries[k] == 0
    {
      entries := new nat[keyCount](_ => 0);
    }

    /** Source of a put: one more than the counter this key's entry carries. */
    method Execute(key: int, self: int) returns (version: Result<(nat, nat)>)
      ensures version.Ok? <==>
                0 <= key < entries.Length && 0 <= self <= 255 && VersionOf(entries[key]) / 256 + 1 < COUNTER_LIMIT
      ensures version.Ok? ==> version.value == (VersionOf(entries[key]) / 256 + 1, self)
    {
      if key < 0 || key >= entries.Length {
        return Throws;
      }
      var counter := VersionOf(entries[key]) / 256 + 1;
      if counter >= COUNTER_LIMIT || self < 0 || self > 255 {
        return Throws;
      }
      version := Ok((counter, self));
    }

    method ExecuteDownstream(key: int, w: Write) returns (ok: bool)
      requires -0x8000_0000 <= w.value < 0x8000_0000
      modifies entries
      ensures ok == (0 <= key < entries.Length && w.counter < COUNTER_LIMIT && w.writer <= 255)
      ensures ok ==> entries[..] == old(entries[..])[key := Merge(old(entries[key]), w)]
      ensures !ok ==> entries[..] == old(entries[..])
    {
      if key < 0 || key >= entries.Length {
        return false;
      }
      if w.counter >= COUNTER_LIMIT || w.writer > 255 {
        return false;
      }
      if VersionOf(entries[key]) < Version(w) {
        entries[key] := Pack(w);
      }
      ok := true;
    }
  }

  lemma NoOthers(packed: nat)
    ensures Others([]) == [] && MergeMore(packed, []) == packed
  {
  }

  lemma OthersOne(env: seq<Meanwhile>, i: nat)
    requires i < |env|
    ensures Others(env[..i + 1]) == Others(env[..i]) + env[i].merged
  {
    assert env[..i + 1][..i] == env[..i];
  }

  /** Merging a write after all the others. */
  lemma MergedLast(packed: nat, others: seq<Write>, w: Write)
    ensures var at := |others|;
            MergeMore(packed, others[..at] + [w] + others[at..]) == Merge(MergeMore(packed, others), w)
  {
    MergeMoreOne(packed, others, w);
    assert others[..|others|] + [w] + others[|others|..] == others + [w];
  }

  lemma MergeMoreOne(packed: nat, ws: seq<Write>, w: Write)
    ensures MergeMore(packed, ws + [w]) == Merge(MergeMore(packed, ws), w)
  {
    assert (ws + [w])[..|ws|] == ws;
  }

  lemma {:induction false} MergeMoreJoin(packed: nat, ws: seq<Write>, ws': seq<Write>)
    ensures MergeMore(packed, ws + ws') == MergeMore(MergeMore(packed, ws), ws')
  {
    if ws' == [] {
      assert ws + ws' == ws;
    } else {
      var n := |ws'| - 1;
      MergeMoreJoin(packed, ws, ws'[..n]);
      assert ws + ws' == (ws + ws'[..n]) + [ws'[n]];
      MergeMoreOne(packed, ws + ws'[..n], ws'[n]);
    }
  }
}
