module Quorums {
  // Quorum sizes of the replication protocol and the fact everything rests on:
  // the two formulas the source uses for reading slots and for writing them
  // always share a replica.

  /** The ids 0 .. n-1 of the replicas. */
  function Ids(n: nat): (ids: set<nat>)
    ensures forall r :: r in ids <==> 0 <= r < n
    ensures |ids| == n
  {
    if n == 0 then {}
    else
      var smaller := Ids(n - 1);
      assert n - 1 !in smaller;
      smaller + {n - 1}
  }

  function StrictMajority(total: nat): nat {
    total / 2 + 1
  }

  /** How many remotes have to acknowledge, the caller itself not counted. */
  function RemoteStrictMajority(remotes: nat): nat {
    StrictMajority(remotes + 1) - 1
  }

  /** The quorum used when slots are read; it is not a strict majority for even totals. */
  function Majority(total: nat): nat {
    (total + 1) / 2
  }

  function Minority(total: nat): int {
    (total + 1) / 2 - 1
  }

  function ToleratedFailures(total: nat): int {
    total - StrictMajority(total)
  }

  lemma SubsetSize(a: set<nat>, b: set<nat>)
    requires a <= b
    ensures |a| <= |b|
  {
    assert b == a + (b - a);
  }

  /** Two sets of replicas whose sizes add up to more than n share a replica. */
  lemma Overlap(n: nat, a: set<nat>, b: set<nat>) returns (r: nat)
    requires a <= Ids(n) && b <= Ids(n)
    requires |a| + |b| > n
    ensures r in a && r in b
  {
    if a * b == {} {
      assert |a + b| == |a| + |b|;
      SubsetSize(a + b, Ids(n));
      assert false;
    }
    r :| r in a * b;
  }

  /** A slot-read quorum meets a write quorum for every number of replicas, odd or even. */
  lemma ReadMeetsWrite(n: nat, readers: set<nat>, writers: set<nat>) returns (r: nat)
    requires readers <= Ids(n) && writers <= Ids(n)
    requires |readers| >= Majority(n)
    requires |writers| >= StrictMajority(n)
    ensures r in readers && r in writers
  {
    r := Overlap(n, readers, writers);
  }

  /** The failures each operation tolerates leave it its quorum of remotes. */
  lemma FailuresTolerated(n: nat, p: nat, failed: set<nat>)
    requires p < n && failed <= Ids(n) - {p}
    ensures |failed| <= ToleratedFailures(n) ==> |Ids(n) - {p} - failed| >= RemoteStrictMajority(n - 1)
    ensures |failed| <= Minority(n) ==> |Ids(n) - {p} - failed| >= Majority(n) - 1
  {
    var alive := Ids(n) - {p} - failed;
    assert Ids(n) == {p} + failed + alive;
    assert |{p} + failed| == 1 + |failed|;
    assert |{p} + failed + alive| == 1 + |failed| + |alive|;
  }

  /** An operation has its quorum of remotes if and only if no more are missing than it
      can do without: for slot reads that is one more than the failures it tolerates when
      the number of replicas is even. */
  lemma EnoughIff(n: nat, p: nat, heard: set<nat>)
    requires p < n && heard <= Ids(n) - {p}
    ensures |heard| >= RemoteStrictMajority(n - 1) <==> |Ids(n) - {p} - heard| <= ToleratedFailures(n)
    ensures |heard| >= Majority(n) - 1 <==> |Ids(n) - {p} - heard| <= n - Majority(n)
    ensures Minority(n) <= n - Majority(n)
  {
    var missing := Ids(n) - {p} - heard;
    assert Ids(n) == {p} + heard + missing;
    assert |{p} + heard| == 1 + |heard|;
    assert |{p} + heard + missing| == 1 + |heard| + |missing|;
  }

  /** What either formula calls a minority: all the failures a strict majority survives. */
  lemma MinorityIsTolerated(n: nat)
    requires n > 0
    ensures Minority(n) == ToleratedFailures(n) && StrictMajority(n) == n - Minority(n)
    ensures Majority(n) == Minority(n) + 1
  {
  }

  /** Both formulas are as small as they can be: with one reader or one writer
      fewer, two disjoint sets exist, for every n. */
  lemma QuorumsAreTight(n: nat) returns (readers: set<nat>, writers: set<nat>, readers': set<nat>, writers': set<nat>)
    requires n > 0
    ensures readers <= Ids(n) && writers <= Ids(n) && readers !! writers
    ensures |readers| == Majority(n) - 1 && |writers| == StrictMajority(n)
    ensures readers' <= Ids(n) && writers' <= Ids(n) && readers' !! writers'
    ensures |readers'| == Majority(n) && |writers'| == StrictMajority(n) - 1
  {
    readers := Ids(Majority(n) - 1);
    writers := Ids(n) - readers;
    assert Ids(n) == readers + writers;
    readers' := Ids(Majority(n));
    writers' := Ids(n) - readers';
    assert Ids(n) == readers' + writers';
  }
}
