// Memory: the layout of what is registered.

module MemoryLayout {
  // How the registered memory is carved up: an overlay allocator that hands out
  // aligned pieces, and the scratchpad whose layout is first measured in a dry run
  // from address 0 and then made for real.

  import opened Options

  /** A piece of memory: its address and its length. */
  datatype Piece = Piece(at: nat, len: nat)

  predicate Apart(p: Piece, q: Piece) {
    p.at + p.len <= q.at || q.at + q.len <= p.at
  }

  function AlignUp(addr: nat, alignment: nat): (a: nat)
    requires alignment > 0
    ensures addr <= a < addr + alignment
  {
    if addr % alignment != 0 then addr + (alignment - addr % alignment) else addr
  }

  lemma AlignUpIsMultiple(addr: nat, alignment: nat)
    requires alignment > 0
    ensures exists k: nat :: AlignUp(addr, alignment) == k * alignment
  {
    var q, r := addr / alignment, addr % alignment;
    assert addr == q * alignment + r;
    if r != 0 {
      assert (q + 1) * alignment == q * alignment + alignment;
      assert AlignUp(addr, alignment) == (q + 1) * alignment;
    } else {
      assert AlignUp(addr, alignment) == q * alignment;
    }
  }

  ghost predicate Aligned(addr: nat, alignment: nat)
    requires alignment > 0
  {
    exists k: nat :: addr == k * alignment
  }

  // ---------------------------------------------------------------------
  // Overlay allocator
  // ---------------------------------------------------------------------

  class OverlayAllocator {
    const buf: nat
    const size: nat
    var allocations: seq<Piece>

    constructor (buf: nat, size: nat)
      ensures this.buf == buf && this.size == size && allocations == [] && Valid()
    {
      this.buf, this.size, allocations := buf, size, [];
    }

    /** Allocations lie in the buffer, one behind the other. */
    predicate Valid()
      reads this
    {
      && (forall i :: 0 <= i < |allocations| ==>
            buf <= allocations[i].at && allocations[i].at + allocations[i].len <= buf + size)
      && (forall i, j :: 0 <= i < j < |allocations| ==>
            allocations[i].at + allocations[i].len <= allocations[j].at)
    }

    function Remaining(): nat
      requires Valid()
      reads this
    {
      if |allocations| > 0 then
        var last := allocations[|allocations| - 1];
        buf + size - (last.at + last.len)
      else size
    }

    function NextAligned(alignment: nat): nat
      requires Valid() && alignment > 0
      reads this
    {
      AlignUp(buf + size - Remaining(), alignment)
    }

    /** A piece of the wanted length and alignment, apart from all others, unless the
        rest of the buffer is too small for it. */
    method Allocate(length: nat, alignment: nat) returns (piece: Option<nat>)
      requires Valid() && alignment > 0
      modifies this
      ensures Valid()
      ensures piece.Some? <==> old(NextAligned(alignment)) + length <= buf + size
      ensures piece.None? ==> allocations == old(allocations)
      ensures piece.Some? ==> allocations == old(allocations) + [Piece(piece.value, length)]
      ensures piece.Some? ==> piece.value == old(NextAligned(alignment)) && Aligned(piece.value, alignment)
      ensures piece.Some? ==>
                forall i :: 0 <= i < |old(allocations)| ==> Apart(old(allocations)[i], Piece(piece.value, length))
    {
      if Remaining() < length {
        return None;
      }
      var next := NextAligned(alignment);
      if next + length > buf + size {
        return None;
      }
      AlignUpIsMultiple(buf + size - Remaining(), alignment);
      allocations := allocations + [Piece(next, length)];
      piece := Some(next);
    }

    /** Whatever is left, from the next aligned address on. */
    method AllocateRemaining(alignment: nat) returns (piece: Option<Piece>)
      requires Valid() && alignment > 0
      modifies this
      ensures Valid()
      ensures piece.Some? <==> old(NextAligned(alignment)) <= buf + size
      ensures piece.Some? ==> piece.value.at + piece.value.len == buf + size && Aligned(piece.value.at, alignment)
      ensures piece.Some? ==> allocations == old(allocations) + [piece.value]
      ensures piece.None? ==> allocations == old(allocations)
    {
      var next := NextAligned(alignment);
      if next > buf + size {
        return None;   // the length wraps around to more than remains
      }
      var len := buf + size - next;
      var got := Allocate(len, alignment);
      piece := Some(Piece(got.value, len));
    }
  }

  // ---------------------------------------------------------------------
  // Scratchpad
  // ---------------------------------------------------------------------

  const SLOT: nat := 0x10_0000   // 1 MiB

  // The areas of the scratchpad, in the order of `setup`.
  const READ_FUO := 0
  const READ_PROPOSAL_NR := 1
  const READ_LOG_ENTRY := 2
  const READ_LEADER_CHANGE := 3
  const WRITE_LEADER_CHANGE := 4
  const READ_LOG_RECYCLING := 5
  const LOG_RECYCLING_RESPONSE := 6
  const WRITE := 7
  const LEADER_REQUEST := 8
  const LEADER_RESPONSE := 9
  const LEADER_HEARTBEAT := 10
  const READ_LEADER_HEARTBEAT := 11

  /** Those that are looked up by process id. */
  const PER_PROCESS: set<nat> := {READ_FUO, READ_PROPOSAL_NR, READ_LOG_ENTRY, READ_LEADER_CHANGE,
                                  WRITE_LEADER_CHANGE, READ_LOG_RECYCLING, READ_LEADER_HEARTBEAT}

  /** How many slots each of the twelve areas of `setup` has, in its order. */
  function Areas(maxId: nat): seq<nat> {
    [maxId + 1, maxId + 1, maxId + 1, maxId + 1, maxId + 1, maxId + 1, 1, 1, 1, 1, 1, maxId + 1]
  }

  /** Where area k of these starts, when the first starts at `base`; k == |counts|
      is the end. */
  function AreaStart(base: nat, counts: seq<nat>, k: nat, alignment: nat): nat
    requires k <= |counts| && alignment > 0
  {
    if k == 0 then base
    else AlignUp(AreaStart(base, counts, k - 1, alignment) + counts[k - 1] * SLOT, alignment)
  }

  function SlotAt(base: nat, counts: seq<nat>, k: nat, pid: nat, alignment: nat): Piece
    requires k < |counts| && alignment > 0
  {
    Piece(AreaStart(base, counts, k, alignment) + pid * SLOT, SLOT)
  }

  lemma AlignUpShifts(addr: nat, base: nat, alignment: nat)
    requires alignment > 0 && Aligned(base, alignment)
    ensures AlignUp(base + addr, alignment) == base + AlignUp(addr, alignment)
  {
    var k: nat :| base == k * alignment;
    ModShifts(addr, k, alignment);
  }

  lemma {:induction false} ModShifts(addr: nat, k: nat, m: nat)
    requires m > 0
    ensures (k * m + addr) % m == addr % m
  {
    var q, r := addr / m, addr % m;
    assert addr == q * m + r;
    assert k * m + addr == (k + q) * m + r;
    ModOf(k + q, r, m);
  }

  lemma ModOf(q: nat, r: nat, m: nat)
    requires m > 0 && r < m
    ensures (q * m + r) % m == r
  {
    var x := q * m + r;
    var q', r' := x / m, x % m;
    assert x == q' * m + r';
    assert (q - q') * m == q * m - q' * m == r' - r;
    FarApart(q - q', m);
  }

  lemma FarApart(d: int, m: nat)
    ensures d == 0 || d * m >= m || d * m + m <= 0
  {
    if d > 0 {
      assert (d - 1) * m >= 0;
    } else if d < 0 {
      assert (-d - 1) * m >= 0;
    }
  }

  /** From an aligned base the layout is the one measured from 0, shifted. */
  lemma {:induction false} SameRelativeLayout(base: nat, counts: seq<nat>, k: nat, alignment: nat)
    requires k <= |counts| && alignment > 0 && Aligned(base, alignment)
    ensures AreaStart(base, counts, k, alignment) == base + AreaStart(0, counts, k, alignment)
  {
    hide AlignUp, Aligned;
    if k > 0 {
      SameRelativeLayout(base, counts, k - 1, alignment);
      assert base + AreaStart(0, counts, k - 1, alignment) + counts[k - 1] * SLOT
          == base + (AreaStart(0, counts, k - 1, alignment) + counts[k - 1] * SLOT);
      AlignUpShifts(AreaStart(0, counts, k - 1, alignment) + counts[k - 1] * SLOT, base, alignment);
    }
  }

  lemma {:induction false} AreasAscend(base: nat, counts: seq<nat>, k: nat, l: nat, alignment: nat)
    requires k < l <= |counts| && alignment > 0
    ensures AreaStart(base, counts, k, alignment) + counts[k] * SLOT <= AreaStart(base, counts, l, alignment)
  {
    if l > k + 1 {
      AreasAscend(base, counts, k, l - 1, alignment);
    }
  }

  /** All slots of all areas are apart and inside the measured size. */
  lemma SlotsApart(base: nat, counts: seq<nat>, alignment: nat, k: nat, pid: nat, l: nat, qid: nat)
    requires alignment > 0 && k < |counts| && pid < counts[k] && l < |counts| && qid < counts[l]
    requires (k, pid) != (l, qid)
    ensures Apart(SlotAt(base, counts, k, pid, alignment), SlotAt(base, counts, l, qid, alignment))
  {
    if k < l {
      AreasAscend(base, counts, k, l, alignment);
    } else if l < k {
      AreasAscend(base, counts, l, k, alignment);
    }
  }

  lemma SlotInBounds(base: nat, counts: seq<nat>, alignment: nat, k: nat, pid: nat)
    requires alignment > 0 && k < |counts| && pid < counts[k]
    ensures var p := SlotAt(base, counts, k, pid, alignment);
            base <= p.at && p.at + p.len <= AreaStart(base, counts, |counts|, alignment)
  {
    AreasAscend(base, counts, k, |counts|, alignment);
    if k > 0 {
      AreasAscend(base, counts, 0, k, alignment);
    }
  }

  class Scratchpad {
    const maxId: nat
    const alignment: nat
    const base: nat
    var next: nat
    var areas: seq<seq<nat>>   // the slot addresses of each area

    /** Slots are laid out from ptr on; `base` is what offsets are counted from. */
    constructor (maxId: nat, alignment: nat, ptr: nat)
      requires alignment > 0
      ensures this.maxId == maxId && this.alignment == alignment
      ensures LaidOut(ptr) && HasAllSlots()
    {
      this.maxId, this.alignment, this.base := maxId, alignment, ptr;
      next, areas := ptr, [];
      new;
      Setup(ptr);
    }

    ghost predicate LaidUpTo(ptr: nat, k: nat)
      requires alignment > 0
      reads this
    {
      && k <= |Areas(maxId)| && |areas| == k
      && next == AreaStart(ptr, Areas(maxId), k, alignment)
      && forall i :: 0 <= i < k ==>
           |areas[i]| == Areas(maxId)[i] &&
           forall pid :: 0 <= pid < |areas[i]| ==> areas[i][pid] == SlotAt(ptr, Areas(maxId), i, pid, alignment).at
    }

    /** Each process has a slot of its own in every area looked up by process id, and
        every other area is a single slot. */
    ghost predicate HasAllSlots()
      reads this
    {
      && |areas| == 12
      && forall k :: 0 <= k < 12 ==> |areas[k]| == if k in PER_PROCESS then maxId + 1 else 1
    }

    ghost predicate LaidOut(ptr: nat)
      requires alignment > 0
      reads this
    {
      LaidUpTo(ptr, |Areas(maxId)|)
    }

    method Setup(ptr: nat)
      requires alignment > 0 && LaidUpTo(ptr, 0)
      modifies this
      ensures LaidOut(ptr) && HasAllSlots()
    {
      var k := 0;
      while k < 12
        invariant k <= 12 && LaidUpTo(ptr, k)
      {
        SetupSlots(ptr, k, if 6 <= k < 11 then 1 else maxId + 1);
        k := k + 1;
      }
    }

    /** One area of `count` slots; a single slot is an area of one. */
    method SetupSlots(ghost ptr: nat, ghost k: nat, count: nat)
      requires alignment > 0 && k < |Areas(maxId)| && LaidUpTo(ptr, k) && count == Areas(maxId)[k]
      modifies this
      ensures LaidUpTo(ptr, k + 1)
    {
      var slots := [];
      var pid := 0;
      while pid < count
        invariant pid <= count && |slots| == pid
        invariant forall i :: 0 <= i < pid ==> slots[i] == next + i * SLOT
      {
        slots := slots + [next + pid * SLOT];
        pid := pid + 1;
      }
      areas := areas + [slots];
      next := AlignUp(next + |slots| * SLOT, alignment);
    }
  }

  /** Measure in a dry run from address 0, allocate as much, lay out again: the
      second layout ends exactly where the allocation does. */
  method MakeScratchpad(maxId: nat, alignment: nat, overlay: OverlayAllocator) returns (made: Option<Scratchpad>)
    requires alignment > 0 && overlay.Valid()
    modifies overlay
    ensures overlay.Valid()
    ensures made.Some? <==>
              old(overlay.NextAligned(alignment)) + AreaStart(0, Areas(maxId), |Areas(maxId)|, alignment)
              <= overlay.buf + overlay.size
    ensures made.Some? ==> fresh(made.value) && |overlay.allocations| == |old(overlay.allocations)| + 1
    ensures made.Some? ==>
              var piece := overlay.allocations[|old(overlay.allocations)|];
              var pad := made.value;
              && pad.alignment == alignment && pad.maxId == maxId && pad.LaidOut(piece.at) && pad.HasAllSlots()
              && pad.next == piece.at + piece.len
              && Aligned(piece.at, alignment)
    ensures made.None? ==> overlay.allocations == old(overlay.allocations)
  {
    var dry := new Scratchpad(maxId, alignment, 0);
    var required := dry.next;
    var mem := overlay.Allocate(required, alignment);
    if mem.None? {
      return None;   // the source throws: overlay allocation exceeded
    }
    var pad := new Scratchpad(maxId, alignment, mem.value);
    SameRelativeLayout(mem.value, Areas(maxId), |Areas(maxId)|, alignment);
    made := Some(pad);
  }
}
