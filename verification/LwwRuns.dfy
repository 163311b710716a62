module LwwRuns {
  // Whole runs of the register and the key-value store: versions do not repeat until a
  // clock has gone all the way round, a write beats all its writer knew, and replicas
  // converge.

  import opened Lww

  /** A write to a key, and the writes its writer had applied by then. */
  datatype Issued = Issued(key: nat, write: Write, seen: set<nat>)

  /** Packed words and clocks, one per key; the register has one key.  `refused`
      counts the calls that were refused here. */
  datatype Replica = Replica(words: seq<nat>, clocks: seq<nat>, refused: seq<nat>, applied: set<nat>)

  /** So many refused calls take a clock from the last counter that fits to its end. */
  const ROUND: nat := 0xff00_0000

  /** The register keeps a clock of its own; the store reads the counter off the word. */
  datatype System = System(clocked: bool, keys: nat, reps: seq<Replica>, issued: seq<Issued>)

  datatype Event = Put(r: nat, key: nat, value: int) | Refuse(r: nat, key: nat) | Deliver(r: nat, k: nat)

  predicate Init(s: System) {
    s.issued == [] && forall r :: 0 <= r < |s.reps| ==>
      s.reps[r] == Replica(seq(s.keys, _ => 0), seq(s.keys, _ => 0), seq(s.keys, _ => 0), {})
  }

  predicate Shape(s: System) {
    && (forall r :: 0 <= r < |s.reps| ==>
          |s.reps[r].words| == s.keys && |s.reps[r].clocks| == s.keys && |s.reps[r].refused| == s.keys)
    && (forall k :: 0 <= k < |s.issued| ==> s.issued[k].key < s.keys)
  }

  function NextCounter(s: System, r: nat, key: nat): nat
    requires Shape(s) && r < |s.reps| && key < s.keys
  {
    if s.clocked then (s.reps[r].clocks[key] + 1) % 0x1_0000_0000 else VersionOf(s.reps[r].words[key]) / 256 + 1
  }

  /** A put whose version does not fit throws. */
  predicate Enabled(s: System, ev: Event) {
    Shape(s) &&
    match ev
    case Put(r, key, value) =>
      && r < |s.reps| && key < s.keys
      && Fits(Write(NextCounter(s, r, key), r, value))
    case Refuse(r, key) =>
      && r < |s.reps| && key < s.keys
      && !Fits(Write(NextCounter(s, r, key), r, 0))
    case Deliver(r, k) => r < |s.reps| && k < |s.issued| && k !in s.reps[r].applied
  }

  /** executeDownstream of write k. */
  function Applied(rep: Replica, i: Issued, k: nat): Replica
    requires i.key < |rep.words| && |rep.clocks| == |rep.words|
  {
    var clock := rep.clocks[i.key];
    Replica(rep.words[i.key := Merge(rep.words[i.key], i.write)],
            rep.clocks[i.key := if clock < i.write.counter then i.write.counter else clock],
            rep.refused,
            rep.applied + {k})
  }

  /** The register takes its counter from its clock, which moves; the store has none. */
  function Ticked(s: System, r: nat, key: nat): Replica
    requires Shape(s) && r < |s.reps| && key < s.keys
  {
    var rep := s.reps[r];
    if s.clocked then rep.(clocks := rep.clocks[key := NextCounter(s, r, key)]) else rep
  }

  /** The clock has moved even so. */
  function Refused(s: System, r: nat, key: nat): Replica
    requires Shape(s) && r < |s.reps| && key < s.keys
  {
    var rep := Ticked(s, r, key);
    rep.(refused := rep.refused[key := rep.refused[key] + 1])
  }

  function Next(s: System, ev: Event): System
    requires Enabled(s, ev)
  {
    match ev
    case Put(r, key, value) =>
      var i := Issued(key, Write(NextCounter(s, r, key), r, value), s.reps[r].applied);
      s.(issued := s.issued + [i], reps := s.reps[r := Applied(Ticked(s, r, key), i, |s.issued|)])
    case Refuse(r, key) => s.(reps := s.reps[r := Refused(s, r, key)])
    case Deliver(r, k) =>
      s.(reps := s.reps[r := Applied(s.reps[r], s.issued[k], k)])
  }

  predicate StepAt(states: seq<System>, events: seq<Event>, i: nat)
    requires i < |events| && i + 1 < |states|
  {
    Enabled(states[i], events[i]) && states[i + 1] == Next(states[i], events[i])
  }

  predicate IsRun(states: seq<System>, events: seq<Event>) {
    && |states| == |events| + 1 && Init(states[0])
    && forall i: nat :: i < |events| ==> StepAt(states, events, i)
  }

  /** No clock has gone round: what callers can tell from counting refused calls. */
  predicate Unwrapped(s: System) {
    s.clocked ==> forall r, key :: 0 <= r < |s.reps| && 0 <= key < |s.reps[r].refused| ==>
          s.reps[r].refused[key] < ROUND
  }

  // ---------------------------------------------------------------------
  // Invariant
  // ---------------------------------------------------------------------

  function WritesAt(issued: seq<Issued>, ks: set<nat>, key: nat): set<Write> {
    set k | k in ks && k < |issued| && issued[k].key == key :: issued[k].write
  }

  /** Counters of one writer grow, per key, and a write's version is above those of
      the writes its writer had applied. */
  predicate IssuedOk(s: System, k: nat)
    requires k < |s.issued|
  {
    var i := s.issued[k];
    && Fits(i.write) && i.write.counter > 0 && i.write.writer < |s.reps|
    && (forall l :: l in i.seen ==> l < k && (s.issued[l].key == i.key ==>
          Version(s.issued[l].write) < Version(i.write)))
    && (forall l :: 0 <= l < k && s.issued[l].key == i.key && s.issued[l].write.writer == i.write.writer ==>
          s.issued[l].write.counter < i.write.counter)
  }

  ghost predicate ReplicaOk(s: System, r: nat)
    requires r < |s.reps|
  {
    var rep := s.reps[r];
    && (forall k :: k in rep.applied ==> k < |s.issued|)
    && (forall k :: 0 <= k < |s.issued| && s.issued[k].write.writer == r ==> k in rep.applied)
    && (forall k :: k in rep.applied && k < |s.issued| && s.issued[k].key < |rep.clocks| ==>
          s.issued[k].write.counter <= rep.clocks[s.issued[k].key])
    && (forall key: nat :: key < |rep.clocks| && key < |rep.refused| ==>
          rep.clocks[key] < COUNTER_LIMIT + rep.refused[key])
    && (forall key: nat :: key < |rep.words| ==> Holds(rep.words[key], WritesAt(s.issued, rep.applied, key)))
  }

  ghost predicate Inv(s: System) {
    && Shape(s)
    && (forall k: nat :: k < |s.issued| ==> IssuedOk(s, k))
    && (forall r: nat :: r < |s.reps| ==> ReplicaOk(s, r))
  }

  /** No two writes to a key carry the same version. */
  lemma VersionsDiffer(s: System, k: nat, l: nat)
    requires forall k: nat :: k < |s.issued| ==> IssuedOk(s, k)
    requires k < |s.issued| && l < |s.issued| && s.issued[k].key == s.issued[l].key
    requires Version(s.issued[k].write) == Version(s.issued[l].write)
    ensures k == l
  {
    assert IssuedOk(s, k) && IssuedOk(s, l);
    PackRoundTrip(s.issued[k].write);
    PackRoundTrip(s.issued[l].write);
  }

  lemma WritesDistinct(s: System, ks: set<nat>, key: nat)
    requires forall k: nat :: k < |s.issued| ==> IssuedOk(s, k)
    ensures Distinct(WritesAt(s.issued, ks, key)) && AllFit(WritesAt(s.issued, ks, key))
  {
    var ws := WritesAt(s.issued, ks, key);
    forall v, w | v in ws && w in ws && Version(v) == Version(w)
      ensures v == w
    {
      var k :| k in ks && k < |s.issued| && s.issued[k].key == key && s.issued[k].write == v;
      var l :| l in ks && l < |s.issued| && s.issued[l].key == key && s.issued[l].write == w;
      VersionsDiffer(s, k, l);
    }
    forall w | w in ws
      ensures Fits(w) && w.counter > 0
    {
      var k :| k in ks && k < |s.issued| && s.issued[k].key == key && s.issued[k].write == w;
      assert IssuedOk(s, k);
    }
  }

  lemma WritesAtMore(issued: seq<Issued>, ks: set<nat>, k: nat, key: nat)
    requires k < |issued|
    ensures WritesAt(issued, ks + {k}, key)
         == WritesAt(issued, ks, key) + if issued[k].key == key then {issued[k].write} else {}
  {
  }

  lemma WritesAtGrows(issued: seq<Issued>, i: Issued, ks: set<nat>, key: nat)
    requires forall k :: k in ks ==> k < |issued|
    ensures WritesAt(issued + [i], ks, key) == WritesAt(issued, ks, key)
  {
    var more := issued + [i];
    assert forall k :: k in ks ==> more[k] == issued[k];
    forall w | w in WritesAt(issued, ks, key)
      ensures w in WritesAt(more, ks, key)
    {
      var k :| k in ks && k < |issued| && issued[k].key == key && issued[k].write == w;
      assert more[k].key == key && more[k].write == w;
    }
  }

  lemma CounterIsNext(s: System, r: nat, key: nat)
    requires Inv(s) && Unwrapped(s) && r < |s.reps| && key < s.keys
    ensures NextCounter(s, r, key) > 0
    ensures s.clocked ==> NextCounter(s, r, key) == s.reps[r].clocks[key] + 1
  {
    hide Holds;
    assert ReplicaOk(s, r);
  }

  /** The next counter is above all counters its writer has applied. */
  lemma NextCounterIsNew(s: System, r: nat, key: nat, k: nat)
    requires Inv(s) && Unwrapped(s) && r < |s.reps| && key < s.keys
    requires k in s.reps[r].applied && k < |s.issued| && s.issued[k].key == key
    ensures s.issued[k].write.counter < NextCounter(s, r, key)
  {
    var rep, w := s.reps[r], s.issued[k].write;
    assert ReplicaOk(s, r) && IssuedOk(s, k);
    CounterIsNext(s, r, key);
    if !s.clocked {
      var ws := WritesAt(s.issued, rep.applied, key);
      assert w in ws;
      WritesDistinct(s, rep.applied, key);
      var top :| top in ws && rep.words[key] == Pack(top) && forall v :: v in ws ==> Version(v) <= Version(top);
      PackRoundTrip(top);
      PackRoundTrip(w);
    }
  }

  lemma PutIsOk(s: System, ev: Event)
    requires Inv(s) && Unwrapped(s) && Enabled(s, ev) && ev.Put?
    ensures forall k: nat :: k < |Next(s, ev).issued| ==> IssuedOk(Next(s, ev), k)
  {
    hide NextCounter, Holds;
    var s', n, r := Next(s, ev), |s.issued|, ev.r;
    var i := s'.issued[n];
    assert ReplicaOk(s, r);
    assert forall l :: 0 <= l < n ==> s'.issued[l] == s.issued[l];
    forall k: nat | k < |s'.issued|
      ensures IssuedOk(s', k)
    {
      if k < n {
        assert IssuedOk(s, k);
      } else {
        CounterIsNext(s, r, ev.key);
        forall l | l in i.seen
          ensures l < n && (s.issued[l].key == i.key ==> Version(s.issued[l].write) < Version(i.write))
        {
          if s.issued[l].key == i.key {
            assert IssuedOk(s, l);
            NextCounterIsNew(s, r, ev.key, l);
            VersionOrder(s.issued[l].write, i.write);
          }
        }
        forall l | 0 <= l < n && s.issued[l].key == i.key && s.issued[l].write.writer == r
          ensures s.issued[l].write.counter < i.write.counter
        {
          NextCounterIsNew(s, r, ev.key, l);
        }
      }
    }
  }

  /** A replica that applies one more write, its own or another's. */
  lemma AppliedIsOk(s: System, r: nat, k: nat, issued: seq<Issued>, rep: Replica)
    requires Inv(s) && r < |s.reps| && k < |issued|
    requires rep == s.reps[r].(clocks := rep.clocks) && |rep.clocks| == s.keys
    requires forall key :: 0 <= key < s.keys ==> s.reps[r].clocks[key] <= rep.clocks[key]
    requires forall key :: 0 <= key < s.keys ==> rep.clocks[key] < COUNTER_LIMIT + rep.refused[key]
    requires issued == s.issued || (|issued| == |s.issued| + 1 && issued[..|s.issued|] == s.issued && k == |s.issued|)
    requires var s' := s.(issued := issued); Shape(s') && forall l: nat :: l < |issued| ==> IssuedOk(s', l)
    requires k == |s.issued| ==> issued[k].write.writer == r
    ensures ReplicaOk(s.(issued := issued, reps := s.reps[r := Applied(rep, issued[k], k)]), r)
  {
    hide Merge, Holds, Version, Pack;
    var i := issued[k];
    var s0 := s.(issued := issued);
    var s' := s0.(reps := s.reps[r := Applied(rep, i, k)]);
    assert IssuedOk(s0, k) && i.write.counter < COUNTER_LIMIT;
    assert ReplicaOk(s, r);
    assert forall l :: 0 <= l < |s.issued| ==> issued[l] == s.issued[l];
    forall key: nat | key < s.keys
      ensures Holds(s'.reps[r].words[key], WritesAt(issued, s'.reps[r].applied, key))
    {
      assert WritesAt(issued, rep.applied, key) == WritesAt(s.issued, rep.applied, key) by {
        if issued != s.issued {
          assert issued == s.issued + [i];
          WritesAtGrows(s.issued, i, rep.applied, key);
        }
      }
      WritesAtMore(issued, rep.applied, k, key);
      if key == i.key {
        WritesDistinct(s0, rep.applied + {k}, key);
        assert WritesAt(issued, rep.applied + {k}, key) == WritesAt(s.issued, rep.applied, key) + {i.write};
        MergeHolds(rep.words[key], WritesAt(s.issued, rep.applied, key), i.write);
      } else {
        assert WritesAt(issued, rep.applied + {k}, key) == WritesAt(s.issued, rep.applied, key);
        assert Holds(rep.words[key], WritesAt(s.issued, rep.applied, key));
      }
    }
  }

  lemma OtherIsOk(s: System, s': System, q: nat)
    requires Inv(s) && q < |s.reps| && |s'.reps| == |s.reps| && s'.reps[q] == s.reps[q]
    requires s'.issued == s.issued
          || (|s'.issued| == |s.issued| + 1 && s'.issued[..|s.issued|] == s.issued
              && s'.issued[|s.issued|].write.writer != q)
    ensures ReplicaOk(s', q)
  {
    hide Holds;
    assert ReplicaOk(s, q);
    assert forall l :: 0 <= l < |s.issued| ==> s'.issued[l] == s.issued[l];
    forall key: nat | key < |s.reps[q].words|
      ensures Holds(s'.reps[q].words[key], WritesAt(s'.issued, s'.reps[q].applied, key))
    {
      if s'.issued != s.issued {
        assert s'.issued == s.issued + [s'.issued[|s.issued|]];
        WritesAtGrows(s.issued, s'.issued[|s.issued|], s.reps[q].applied, key);
      }
    }
  }

  lemma RefuseKeepsInv(s: System, ev: Event)
    requires Inv(s) && Unwrapped(s) && Enabled(s, ev) && ev.Refuse?
    ensures Inv(Next(s, ev))
  {
    hide NextCounter, Holds, Fits;
    var s' := Next(s, ev);
    CounterIsNext(s, ev.r, ev.key);
    forall l: nat | l < |s'.issued|
      ensures IssuedOk(s', l)
    {
      assert IssuedOk(s, l);
    }
    forall q: nat | q < |s'.reps|
      ensures ReplicaOk(s', q)
    {
      assert ReplicaOk(s, q);
    }
  }

  lemma StepKeepsInv(s: System, ev: Event)
    requires Inv(s) && Unwrapped(s) && Enabled(s, ev)
    ensures Inv(Next(s, ev))
  {
    if ev.Refuse? {
      RefuseKeepsInv(s, ev);
    } else {
      WriteKeepsInv(s, ev);
    }
  }

  /** A put moves the clock by one, and the counter fits. */
  lemma PutTicks(s: System, ev: Event)
    requires Inv(s) && Unwrapped(s) && Enabled(s, ev) && ev.Put?
    ensures var rep := Ticked(s, ev.r, ev.key);
            && rep == s.reps[ev.r].(clocks := rep.clocks) && |rep.clocks| == s.keys
            && (forall key :: 0 <= key < s.keys ==> s.reps[ev.r].clocks[key] <= rep.clocks[key])
            && (forall key :: 0 <= key < s.keys ==> rep.clocks[key] < COUNTER_LIMIT + rep.refused[key])
  {
    hide Holds;
    assert ReplicaOk(s, ev.r);
    CounterIsNext(s, ev.r, ev.key);
  }

  lemma WriteKeepsInv(s: System, ev: Event)
    requires Inv(s) && Unwrapped(s) && Enabled(s, ev) && !ev.Refuse?
    ensures Inv(Next(s, ev))
  {
    hide NextCounter, Holds, Merge, Version, Pack;
    var s', r := Next(s, ev), ev.r;
    var k := if ev.Put? then |s.issued| else ev.k;
    if ev.Put? {
      PutIsOk(s, ev);
    }
    assert Shape(s');
    forall l: nat | l < |s'.issued|
      ensures IssuedOk(s', l) && IssuedOk(s.(issued := s'.issued), l)
    {
      if ev.Deliver? {
        assert IssuedOk(s, l);
      } else {
        assert IssuedOk(s', l);
      }
    }
    if ev.Put? {
      PutTicks(s, ev);
      AppliedIsOk(s, r, k, s'.issued, Ticked(s, r, ev.key));
    } else {
      assert ReplicaOk(s, r);
      AppliedIsOk(s, r, k, s'.issued, s.reps[r]);
    }
    forall q: nat | q < |s'.reps|
      ensures ReplicaOk(s', q)
    {
      if q != r {
        OtherIsOk(s, s', q);
      }
    }
  }

  /** Refused calls are counted, never forgotten. */
  lemma UnwrappedBefore(s: System, ev: Event)
    requires Enabled(s, ev) && Unwrapped(Next(s, ev))
    ensures Unwrapped(s)
  {
    hide NextCounter, Merge, Fits;
    var s' := Next(s, ev);
    forall r, key | s.clocked && 0 <= r < |s.reps| && 0 <= key < |s.reps[r].refused|
      ensures s.reps[r].refused[key] < ROUND
    {
      assert s'.reps[r].refused[key] >= s.reps[r].refused[key];
    }
  }

  lemma {:induction false} RunInv(states: seq<System>, events: seq<Event>, i: nat)
    requires IsRun(states, events) && i <= |events| && Unwrapped(states[i])
    ensures Inv(states[i])
  {
    if i > 0 {
      assert StepAt(states, events, i - 1);
      UnwrappedBefore(states[i - 1], events[i - 1]);
      RunInv(states, events, i - 1);
      StepKeepsInv(states[i - 1], events[i - 1]);
    } else {
      forall r: nat | r < |states[0].reps|
        ensures ReplicaOk(states[0], r)
      {
        assert forall key :: WritesAt([], {}, key) == {};
      }
    }
  }

  // ---------------------------------------------------------------------
  // What every run guarantees
  // ---------------------------------------------------------------------

  /** No two writes to a key ever carry the same version. */
  lemma VersionsNeverRepeat(states: seq<System>, events: seq<Event>, i: nat, k: nat, l: nat)
    requires IsRun(states, events) && i <= |events| && Unwrapped(states[i])
    requires k < l < |states[i].issued| && states[i].issued[k].key == states[i].issued[l].key
    ensures Version(states[i].issued[k].write) != Version(states[i].issued[l].write)
  {
    RunInv(states, events, i);
    if Version(states[i].issued[k].write) == Version(states[i].issued[l].write) {
      VersionsDiffer(states[i], k, l);
    }
  }

  /** A write beats every write to its key its writer had applied. */
  lemma WriteBeatsWhatItSaw(states: seq<System>, events: seq<Event>, i: nat, k: nat, l: nat)
    requires IsRun(states, events) && i <= |events| && Unwrapped(states[i])
    requires k < |states[i].issued| && l in states[i].issued[k].seen
    ensures l < k
    ensures states[i].issued[l].key == states[i].issued[k].key ==>
              Version(states[i].issued[l].write) < Version(states[i].issued[k].write)
  {
    RunInv(states, events, i);
    assert IssuedOk(states[i], k);
  }

  /** A replica shows, for each key, the value of the greatest version it applied. */
  lemma GreatestWins(states: seq<System>, events: seq<Event>, i: nat, r: nat, k: nat)
    requires IsRun(states, events) && i <= |events| && Unwrapped(states[i]) && r < |states[i].reps|
    requires k < |states[i].issued| && k in states[i].reps[r].applied
    requires forall l :: l in states[i].reps[r].applied && l < |states[i].issued| ==>
               states[i].issued[l].key == states[i].issued[k].key ==>
               Version(states[i].issued[l].write) <= Version(states[i].issued[k].write)
    ensures states[i].issued[k].key < |states[i].reps[r].words|
    ensures ValueOf(states[i].reps[r].words[states[i].issued[k].key]) == states[i].issued[k].write.value
  {
    RunInv(states, events, i);
    var s := states[i];
    var key, w := s.issued[k].key, s.issued[k].write;
    assert ReplicaOk(s, r) && IssuedOk(s, k);
    var ws := WritesAt(s.issued, s.reps[r].applied, key);
    WritesDistinct(s, s.reps[r].applied, key);
    assert w in ws;
    var top :| top in ws && s.reps[r].words[key] == Pack(top) && forall v :: v in ws ==> Version(v) <= Version(top);
    var l :| l in s.reps[r].applied && l < |s.issued| && s.issued[l].key == key && s.issued[l].write == top;
    assert top == w;
    PackRoundTrip(w);
  }

  /** Replicas that applied the same writes hold the same words. */
  lemma SameWritesSameWords(states: seq<System>, events: seq<Event>, i: nat, q: nat, r: nat)
    requires IsRun(states, events) && i <= |events| && Unwrapped(states[i])
    requires q < |states[i].reps| && r < |states[i].reps|
    requires states[i].reps[q].applied == states[i].reps[r].applied
    ensures states[i].reps[q].words == states[i].reps[r].words
  {
    RunInv(states, events, i);
    var s := states[i];
    assert ReplicaOk(s, q) && ReplicaOk(s, r);
    forall key: nat | key < s.keys
      ensures s.reps[q].words[key] == s.reps[r].words[key]
    {
      WritesDistinct(s, s.reps[q].applied, key);
      HeldOnce(s.reps[q].words[key], s.reps[r].words[key], WritesAt(s.issued, s.reps[q].applied, key));
    }
  }

  // ---------------------------------------------------------------------
  // When a clock has gone round
  // ---------------------------------------------------------------------

  /** The writer has used counter 1, and its clock stands at c. */
  ghost predicate ClockAt(s: System, c: nat) {
    && Shape(s) && s.clocked && s.keys == 1 && |s.reps| == 1 && s.reps[0].clocks[0] == c
    && |s.issued| > 0 && s.issued[0].key == 0 && s.issued[0].write.counter == 1 && s.issued[0].write.writer == 0
    && s.reps[0].refused[0] == if c < COUNTER_LIMIT then 0 else c - COUNTER_LIMIT + 1
  }

  lemma OneMoreStep(states: seq<System>, events: seq<Event>, ev: Event)
    requires IsRun(states, events) && Enabled(states[|events|], ev)
    ensures IsRun(states + [Next(states[|events|], ev)], events + [ev])
  {
    var states', events' := states + [Next(states[|events|], ev)], events + [ev];
    forall i: nat | i < |events'| ensures StepAt(states', events', i) {
      if i < |events| { assert StepAt(states, events, i); }
    }
  }

  /** The call that follows: a put while the counter fits, refused from then on. */
  lemma ClockTicks(s: System, c: nat) returns (ev: Event)
    requires ClockAt(s, c) && c + 1 < 0x1_0000_0000
    ensures Enabled(s, ev) && ClockAt(Next(s, ev), c + 1)
  {
    hide Merge;
    ev := if c + 1 < COUNTER_LIMIT then Put(0, 0, 0) else Refuse(0, 0);
  }

  /** A clock gets anywhere. */
  lemma {:induction false} ClockReaches(c: nat) returns (states: seq<System>, events: seq<Event>)
    requires 1 <= c < 0x1_0000_0000
    ensures IsRun(states, events) && ClockAt(states[|events|], c)
  {
    hide ClockAt, Enabled, Next;
    if c == 1 {
      states, events := FirstPut();
    } else {
      states, events := ClockReaches(c - 1);
      var ev := ClockTicks(states[|events|], c - 1);
      OneMoreStep(states, events, ev);
      states, events := states + [Next(states[|events|], ev)], events + [ev];
    }
  }

  lemma FirstPut() returns (states: seq<System>, events: seq<Event>)
    ensures IsRun(states, events) && ClockAt(states[|events|], 1)
  {
    hide Merge;
    var s := System(true, 1, [Replica([0], [0], [0], {})], []);
    assert s.reps[0] == Replica(seq(s.keys, _ => 0), seq(s.keys, _ => 0), seq(s.keys, _ => 0), {});
    states, events := [s, Next(s, Put(0, 0, 0))], [Put(0, 0, 0)];
    assert StepAt(states, events, 0);
  }

  /** After ROUND refused calls the counters start again: the call after the next
      carries a version that was used before. */
  lemma VersionRepeats() returns (states: seq<System>, events: seq<Event>)
    ensures IsRun(states, events)
    ensures var s := states[|events|];
            && |s.reps| == 1 && s.reps[0].refused == [ROUND] && |s.issued| > 1
            && s.issued[0].key == s.issued[|s.issued| - 1].key
            && Version(s.issued[0].write) == Version(s.issued[|s.issued| - 1].write)
  {
    hide Merge;
    states, events := ClockReaches(0xffff_ffff);
    var s := states[|events|];
    var s' := Next(s, Put(0, 0, 0));
    OneMoreStep(states, events, Put(0, 0, 0));
    states, events := states + [s'], events + [Put(0, 0, 0)];
    var s'' := Next(s', Put(0, 0, 0));
    OneMoreStep(states, events, Put(0, 0, 0));
    states, events := states + [s''], events + [Put(0, 0, 0)];
  }

  /** At most so many calls have been refused at any replica, for any key. */
  predicate RefusedAtMost(s: System, limit: nat) {
    forall r, key :: 0 <= r < |s.reps| && 0 <= key < |s.reps[r].refused| ==> s.reps[r].refused[key] <= limit
  }

  predicate AllVersionsDiffer(s: System) {
    forall k, l :: 0 <= k < l < |s.issued| && s.issued[k].key == s.issued[l].key ==>
      Version(s.issued[k].write) != Version(s.issued[l].write)
  }

  /** In no run with at most `limit` refused calls anywhere does a version repeat. */
  ghost predicate SafeLimit(limit: nat) {
    forall states: seq<System>, events: seq<Event> ::
      IsRun(states, events) && RefusedAtMost(states[|events|], limit) ==> AllVersionsDiffer(states[|events|])
  }

  /** THE EXACT BOUND.  Versions are safe up to a number of refused calls if and only if
      it does not take a clock all the way round. */
  lemma SafeLimitIff(limit: nat)
    ensures SafeLimit(limit) <==> limit < ROUND
  {
    if limit < ROUND {
      forall states: seq<System>, events: seq<Event> | IsRun(states, events) && RefusedAtMost(states[|events|], limit)
        ensures AllVersionsDiffer(states[|events|])
      {
        var s := states[|events|];
        forall k, l | 0 <= k < l < |s.issued| && s.issued[k].key == s.issued[l].key
          ensures Version(s.issued[k].write) != Version(s.issued[l].write)
        {
          VersionsNeverRepeat(states, events, |events|, k, l);
        }
      }
    } else {
      var states, events := VersionRepeats();
      var s := states[|events|];
      assert RefusedAtMost(s, limit);
      assert !AllVersionsDiffer(s);
    }
  }

  // ---------------------------------------------------------------------
  // Nothing stands in the way of agreement
  // ---------------------------------------------------------------------

  /** The run goes on by deliveries alone. */
  predicate GoesOnTo(states: seq<System>, events: seq<Event>, states': seq<System>, events': seq<Event>) {
    && IsRun(states, events) && IsRun(states', events') && states <= states' && events <= events'
    && forall i :: |events| <= i < |events'| ==> events'[i].Deliver?
  }

  lemma DeliversOne(states: seq<System>, events: seq<Event>, states1: seq<System>, events1: seq<Event>, ev: Event)
    requires GoesOnTo(states, events, states1, events1) && Enabled(states1[|events1|], ev) && ev.Deliver?
    ensures GoesOnTo(states, events, states1 + [Next(states1[|events1|], ev)], events1 + [ev])
  {
    OneMoreStep(states1, events1, ev);
  }

  /** Deliveries refuse no call. */
  predicate Quiet(s: System, s': System) {
    s'.clocked == s.clocked && s'.keys == s.keys && |s'.reps| == |s.reps|
    && forall r :: 0 <= r < |s.reps| ==> s'.reps[r].refused == s.reps[r].refused
  }

  lemma DeliverKeepsShape(s: System, r: nat, k: nat)
    requires Enabled(s, Deliver(r, k))
    ensures Shape(Next(s, Deliver(r, k)))
  {}

  /** Replica r receives the first n writes. */
  lemma {:induction false} ReceivesUpTo(states: seq<System>, events: seq<Event>, r: nat, n: nat)
    returns (states': seq<System>, events': seq<Event>)
    requires IsRun(states, events) && r < |states[|events|].reps| && n <= |states[|events|].issued|
        && Shape(states[|events|])
    ensures GoesOnTo(states, events, states', events')
    ensures var s, s' := states[|events|], states'[|events'|];
            && s'.issued == s.issued && |s'.reps| == |s.reps| && Quiet(s, s')
            && (forall q :: 0 <= q < |s.reps| && q != r ==> s'.reps[q] == s.reps[q])
            && (forall k :: 0 <= k < n ==> k in s'.reps[r].applied) && Shape(s')
  {
    if n == 0 {
      states', events' := states, events;
    } else {
      var states1, events1 := ReceivesUpTo(states, events, r, n - 1);
      var s1 := states1[|events1|];
      if n - 1 in s1.reps[r].applied {
        states', events' := states1, events1;
      } else {
        var ev := Deliver(r, n - 1);
        DeliversOne(states, events, states1, events1, ev);
        DeliverKeepsShape(s1, r, n - 1);
        states', events' := states1 + [Next(s1, ev)], events1 + [ev];
      }
    }
  }

  /** The first m replicas receive everything. */
  lemma {:induction false} AllReceive(states: seq<System>, events: seq<Event>, m: nat)
    returns (states': seq<System>, events': seq<Event>)
    requires IsRun(states, events) && m <= |states[|events|].reps| && Shape(states[|events|])
    ensures GoesOnTo(states, events, states', events')
    ensures var s, s' := states[|events|], states'[|events'|];
            && s'.issued == s.issued && |s'.reps| == |s.reps| && Quiet(s, s')
            && (forall r, k :: 0 <= r < m && 0 <= k < |s.issued| ==> k in s'.reps[r].applied) && Shape(s')
  {
    if m == 0 {
      states', events' := states, events;
    } else {
      var states1, events1 := AllReceive(states, events, m - 1);
      states', events' := ReceivesUpTo(states1, events1, m - 1, |states[|events|].issued|);
    }
  }

  /** AGREEMENT IS ALWAYS POSSIBLE.  Every run in which no clock has gone round can go on,
      by deliveries alone, until all replicas have applied every write, and then they
      hold the same words. */
  lemma CanAgree(states: seq<System>, events: seq<Event>) returns (states': seq<System>, events': seq<Event>)
    requires IsRun(states, events) && Unwrapped(states[|events|])
    ensures GoesOnTo(states, events, states', events') && states'[|events'|].issued == states[|events|].issued
    ensures Quiet(states[|events|], states'[|events'|])
    ensures var s' := states'[|events'|];
            && (forall r, k :: 0 <= r < |s'.reps| && 0 <= k < |s'.issued| ==> k in s'.reps[r].applied)
            && (forall q, r :: 0 <= q < |s'.reps| && 0 <= r < |s'.reps| ==> s'.reps[q].words == s'.reps[r].words)
  {
    RunInv(states, events, |events|);
    states', events' := AllReceive(states, events, |states[|events|].reps|);
    var s' := states'[|events'|];
    assert Unwrapped(s');
    RunInv(states', events', |events'|);
    forall q, r | 0 <= q < |s'.reps| && 0 <= r < |s'.reps| ensures s'.reps[q].words == s'.reps[r].words {
      assert ReplicaOk(s', q) && ReplicaOk(s', r);
      assert s'.reps[q].applied == s'.reps[r].applied;
      SameWritesSameWords(states', events', |events'|, q, r);
    }
  }

  // ---------------------------------------------------------------------
  // A write takes effect everywhere
  // ---------------------------------------------------------------------

  /** Replica r has applied everything. */
  predicate UpToDate(s: System, r: nat)
    requires r < |s.reps|
  {
    forall k :: 0 <= k < |s.issued| ==> k in s.reps[r].applied
  }

  /** The run goes on by this write, and then by deliveries. */
  predicate GoesOnBy(states: seq<System>, events: seq<Event>, ev: Event, states': seq<System>, events': seq<Event>) {
    && IsRun(states, events) && Enabled(states[|events|], ev)
    && GoesOnTo(states + [Next(states[|events|], ev)], events + [ev], states', events')
  }

  /** What the replicas hold depends on nothing but what they have applied. */
  lemma SameApplied(s: System, s': System, r: nat, q: nat, key: nat)
    requires Inv(s) && Inv(s') && s'.issued == s.issued && s'.keys == s.keys && key < s.keys
    requires r < |s.reps| && q < |s'.reps| && UpToDate(s, r) && UpToDate(s', q)
    ensures key < |s.reps[r].words| && key < |s'.reps[q].words| && s'.reps[q].words[key] == s.reps[r].words[key]
  {
    assert ReplicaOk(s, r) && ReplicaOk(s', q);
    assert s'.reps[q].applied == s.reps[r].applied;
    WritesDistinct(s, s.reps[r].applied, key);
    HeldOnce(s.reps[r].words[key], s'.reps[q].words[key], WritesAt(s.issued, s.reps[r].applied, key));
  }

  /** At its source a write is the greatest, and changes its key only. */
  lemma PutDoes(states: seq<System>, events: seq<Event>, r: nat, key: nat, value: int)
    requires IsRun(states, events) && Unwrapped(states[|events|]) && r < |states[|events|].reps|
    requires Enabled(states[|events|], Put(r, key, value))
    requires UpToDate(states[|events|], r)
    ensures var s, s1 := states[|events|], Next(states[|events|], Put(r, key, value));
            && Inv(s) && Inv(s1) && Unwrapped(s1) && UpToDate(s1, r)
            && |s.reps[r].words| == |s1.reps[r].words| == s.keys
            && ValueOf(s1.reps[r].words[key]) == value
            && forall k :: 0 <= k < s.keys && k != key ==> s1.reps[r].words[k] == s.reps[r].words[k]
  {
    var s, ev, n := states[|events|], Put(r, key, value), |states[|events|].issued|;
    var s1 := Next(s, ev);
    RunInv(states, events, |events|);
    OneMoreStep(states, events, ev);
    assert s1.issued[n].seen == s.reps[r].applied;
    RunInv(states + [s1], events + [ev], |events| + 1);
    assert IssuedOk(s1, n) && ReplicaOk(s1, r);
    hide IsRun, Merge, Holds, Inv, NextCounter;
    forall l | l in s1.reps[r].applied && l < |s1.issued| && s1.issued[l].key == key
      ensures Version(s1.issued[l].write) <= Version(s1.issued[n].write)
    {
      assert l == n || l in s1.issued[n].seen;
    }
    assert s1.issued[n].key == key && (states + [s1])[|events| + 1] == s1;
    GreatestWins(states + [s1], events + [ev], |events| + 1, r, n);
  }

  /** A WRITE TAKES EFFECT EVERYWHERE.  Where all replicas have applied everything, and no
      clock has gone round, any of them can write to any key as long as the version
      fits, and then, by deliveries alone, all come to show the value written there,
      and at every other key what they showed. */
  lemma WriteTakesEffect(states: seq<System>, events: seq<Event>, r: nat, key: nat, value: int)
    returns (states': seq<System>, events': seq<Event>)
    requires IsRun(states, events) && Unwrapped(states[|events|]) && r < |states[|events|].reps|
    requires Shape(states[|events|]) && key < states[|events|].keys && -0x8000_0000 <= value < 0x8000_0000
    requires forall q :: 0 <= q < |states[|events|].reps| ==> UpToDate(states[|events|], q)
    requires r < WRITER_LIMIT && NextCounter(states[|events|], r, key) < COUNTER_LIMIT
    ensures GoesOnBy(states, events, Put(r, key, value), states', events')
    ensures var s, s' := states[|events|], states'[|events'|];
            && |s'.reps| == |s.reps|
            && forall q, k :: 0 <= q < |s'.reps| && 0 <= k < s.keys ==>
                 && k < |s'.reps[q].words| && k < |s.reps[q].words|
                 && if k == key then ValueOf(s'.reps[q].words[k]) == value
                    else s'.reps[q].words[k] == s.reps[q].words[k]
  {
    var s, ev := states[|events|], Put(r, key, value);
    PutDoes(states, events, r, key, value);
    hide IsRun, Inv, NextCounter, UpToDate;
    OneMoreStep(states, events, ev);
    var s1 := Next(s, ev);
    states', events' := CanAgree(states + [s1], events + [ev]);
    var s' := states'[|events'|];
    assert Unwrapped(s');
    RunInv(states', events', |events'|);
    forall q, k | 0 <= q < |s'.reps| && 0 <= k < s.keys
      ensures k < |s'.reps[q].words| && k < |s.reps[q].words|
      ensures if k == key then ValueOf(s'.reps[q].words[k]) == value else s'.reps[q].words[k] == s.reps[q].words[k]
    {
      assert UpToDate(s', q) by { AllApplied(s', q); }
      SameApplied(s1, s', r, q, k);
      SameApplied(s, s, r, q, k);
    }
  }

  lemma AllApplied(s: System, q: nat)
    requires q < |s.reps| && forall k :: 0 <= k < |s.issued| ==> k in s.reps[q].applied
    ensures UpToDate(s, q)
  {}
}
