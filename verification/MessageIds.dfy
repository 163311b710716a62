module MessageIds {
  // Work request ids: kind, process and sequence number in one 64-bit word.

  const MAX_KIND: nat := 15

  function NumberOfBits(x: nat): nat {
    if x < 2 then x else 1 + NumberOfBits(x / 2)
  }

  /** Where the fields start, as the source computes it from the largest kind. */
  lemma Shifts()
    ensures NumberOfBits(MAX_KIND) == 4      // kind_size
    ensures 16 - NumberOfBits(MAX_KIND) == 12  // pid_size
    ensures 64 - NumberOfBits(MAX_KIND) == 60  // kind_shift
    ensures 60 - 12 == 48                      // pid_shift
  {
    assert NumberOfBits(7) == 3;
  }

  const PID_MASK: bv64 := 0x0fff_0000_0000_0000
  const SEQ_MASK: bv64 := 0x0000_ffff_ffff_ffff

  function Pack(kind: bv64, pid: bv64, seqNr: bv64): bv64 {
    (kind << 60) | (pid << 48) | seqNr
  }

  function UnpackKind(packed: bv64): bv64 {
    packed >> 60
  }

  function UnpackPid(packed: bv64): bv64 {
    (packed & PID_MASK) >> 48
  }

  function UnpackSeq(packed: bv64): bv64 {
    packed & SEQ_MASK
  }

  predicate InRange(kind: bv64, pid: bv64, seqNr: bv64) {
    kind < 0x10 && pid < 0x1000 && seqNr < 0x1_0000_0000_0000
  }

  /** What is packed is what is unpacked, and every word is some packed triple. */
  lemma PackRoundTrip(kind: bv64, pid: bv64, seqNr: bv64)
    requires InRange(kind, pid, seqNr)
    ensures UnpackKind(Pack(kind, pid, seqNr)) == kind
    ensures UnpackPid(Pack(kind, pid, seqNr)) == pid
    ensures UnpackSeq(Pack(kind, pid, seqNr)) == seqNr
  {
  }

  /** The fields in their places: sequence number lowest, then process, then kind. */
  lemma PackIsSum(kind: bv64, pid: bv64, seqNr: bv64)
    requires InRange(kind, pid, seqNr)
    ensures Pack(kind, pid, seqNr) == kind * 0x1000_0000_0000_0000 + pid * 0x1_0000_0000_0000 + seqNr
  {
  }

  lemma UnpackRoundTrip(packed: bv64)
    ensures InRange(UnpackKind(packed), UnpackPid(packed), UnpackSeq(packed))
    ensures Pack(UnpackKind(packed), UnpackPid(packed), UnpackSeq(packed)) == packed
  {
  }

  /** A kind that does not fit is cut off: the triple comes back if and only if
      every field fits. */
  lemma PackNeedsRange(kind: bv64, pid: bv64, seqNr: bv64)
    ensures UnpackKind(Pack(kind, pid, seqNr)) == kind
         && UnpackPid(Pack(kind, pid, seqNr)) == pid
         && UnpackSeq(Pack(kind, pid, seqNr)) == seqNr
       <==> InRange(kind, pid, seqNr)
  {
  }
}
