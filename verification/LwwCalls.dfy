module LwwCalls {
  // The register and the store take the steps of the runs: asked for a write at the
  // source, or handed one, an object that stands where a replica of a run stands goes on
  // to stand where the run's next step puts that replica.

  import opened Lww
  import opened LwwRuns

  predicate RegisterAt(obj: Register, s: System, r: nat)
    reads obj
  {
    && Shape(s) && s.clocked && s.keys == 1 && r < |s.reps|
    && obj.state == s.reps[r].words[0] && obj.clock == s.reps[r].clocks[0] && obj.clock < CLOCK_LIMIT
  }

  predicate StoreAt(obj: KvStore, s: System, r: nat)
    reads obj, obj.entries
  {
    && Shape(s) && !s.clocked && s.keys == obj.entries.Length && r < |s.reps|
    && obj.entries[..] == s.reps[r].words
  }

  /** A write at its source: it takes the next version and is applied at once, or the
      version does not fit and only the clock has moved. */
  method RegisterRequest(obj: Register, value: int, ghost s: System, r: nat) returns (ok: bool, w: Write)
    requires RegisterAt(obj, s, r) && -0x8000_0000 <= value < 0x8000_0000
    modifies obj
    ensures ok <==> Enabled(s, Put(r, 0, value))
    ensures ok ==> RegisterAt(obj, Next(s, Put(r, 0, value)), r)
    ensures ok ==> Next(s, Put(r, 0, value)).issued == s.issued + [Issued(0, w, s.reps[r].applied)]
    ensures !ok ==> Enabled(s, Refuse(r, 0)) && RegisterAt(obj, Next(s, Refuse(r, 0)), r)
  {
    hide Merge;
    w := Write(0, 0, value);
    var version := obj.Execute(r);
    ok := version.Ok?;
    if ok {
      w := Write(version.value.0, version.value.1, value);
      ok := obj.ExecuteDownstream(w);
    }
  }

  method RegisterDeliver(obj: Register, w: Write, ghost s: System, ghost r: nat, ghost k: nat)
    requires Inv(s) && Enabled(s, Deliver(r, k)) && RegisterAt(obj, s, r) && w == s.issued[k].write
    modifies obj
    ensures RegisterAt(obj, Next(s, Deliver(r, k)), r)
  {
    hide Merge;
    assert IssuedOk(s, k);
    var ok := obj.ExecuteDownstream(w);
  }

  /** The same for the store, which keeps no clock: a refused put changes nothing. */
  method StoreRequest(obj: KvStore, key: nat, value: int, ghost s: System, r: nat) returns (ok: bool, w: Write)
    requires StoreAt(obj, s, r) && -0x8000_0000 <= value < 0x8000_0000
    modifies obj.entries
    ensures ok <==> Enabled(s, Put(r, key, value))
    ensures ok ==> StoreAt(obj, Next(s, Put(r, key, value)), r)
    ensures ok ==> Next(s, Put(r, key, value)).issued == s.issued + [Issued(key, w, s.reps[r].applied)]
    ensures !ok ==> StoreAt(obj, s, r)
  {
    hide Merge;
    w := Write(0, 0, value);
    var version := obj.Execute(key, r);
    ok := version.Ok?;
    if ok {
      w := Write(version.value.0, version.value.1, value);
      ok := obj.ExecuteDownstream(key, w);
    }
  }

  method StoreDeliver(obj: KvStore, key: nat, w: Write, ghost s: System, ghost r: nat, ghost k: nat)
    requires Inv(s) && Enabled(s, Deliver(r, k)) && StoreAt(obj, s, r)
    requires w == s.issued[k].write && key == s.issued[k].key
    modifies obj.entries
    ensures StoreAt(obj, Next(s, Deliver(r, k)), r)
  {
    hide Merge;
    assert IssuedOk(s, k);
    var ok := obj.ExecuteDownstream(key, w);
  }
}
