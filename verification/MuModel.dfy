module MuModel {
  // The Mu consensus protocol as a state machine: one event is one step of one
  // thread of one replica, or one one-sided memory access over the network.
  //
  // Values are kept per slot; the bytes of the log are the subject of LogFormat and LogBuffer.

  import opened Options
  import opened Quorums

  /** What a slot carries: what a caller proposes, or a leader's request to start
      the log over (MuRecycling). */
  datatype Value = Value(bytes: seq<nat>) | Recycle(requestor: nat, id: nat, upTo: nat)

  /** The request with which a replica asked to become leader. */
  datatype Token = Token(pid: nat, req: nat)

  /** A populated log slot: accepted proposal, payload and the embedded first
      undecided offset (in the bytes of a recycling request that is 0, and the
      offset stands in the request).  `term` is a history variable: the leadership (an index
      into State.terms) whose write created the entry; no guard reads it. */
  datatype Entry = Entry(prop: nat, val: Value, fuo: nat, term: nat)

  /** One-sided writes a leader posts, in posting order. */
  datatype Op =
    | SetProp(prop: nat)                       // minProposal in the log header
    | Copy(dst: nat, slot: nat, entry: Entry)  // catch-up write of one slot to one follower
    | Put(slot: nat, entry: Entry)             // a slot written to everybody

  /** Where the call of `propose` of a leadership stands. */
  datatype Phase =
    | Idle                                     // between two calls, slow path next
    | Fast(readers: set<nat>, base: nat)       // between two calls, fast path next
    | CatchFuo(fuos: map<nat, nat>)
    | Update(upto: map<nat, nat>)
    | CatchProp(props: map<nat, nat>)
    | UpdProp
    | ReadSlot(slots: map<nat, Option<Entry>>)
    | Write(next: Phase)
    | Dead                                     // gave up with an error
  {
    /** A call of `propose` is running and holds the log mutex. */
    predicate Busy() {
      !Idle? && !Fast? && !Dead?
    }
  }

  /** A leadership: it begins when every replica has granted the token.
      `done[r]` of the posted writes have reached replica r (in order: the
      connection is first-in first-out).  `touched` is a history variable, the
      replicas where this leadership has read or written anything. */
  datatype Term = Term(tok: Token, phase: Phase, ops: seq<Op>, done: seq<nat>, touched: set<nat>)

  datatype Replica = Replica(
    minProp: nat,
    log: map<nat, Entry>,
    fuo: nat,               // first undecided offset of the header
    seen: nat,              // next slot the blocking iterator looks at
    target: nat,            // commit up to here
    committed: seq<Value>,  // what the commit handler has been given
    holder: Option<Token>,  // who may access this log remotely (or, at the leader, locally)
    granted: seq<nat>,      // per requester, the last request number served
    reqNr: nat,             // next request number of this replica
    approvals: seq<nat>,    // the slots other replicas write their answers to
    propNr: nat             // proposal number this replica proposes with
  )

  datatype State = State(ids: seq<nat>, reps: seq<Replica>, terms: seq<Term>)

  datatype Event =
    | Request(p: nat)
    | Notify(r: nat, p: nat, k: nat)
    | Grant(r: nat, p: nat, k: nat)
    | Approve(r: nat)
    | Start(p: nat)
    | BeginSlow(a: nat)
    | ReadFuo(a: nat, r: nat)
    | EndCatchFuo(a: nat)
    | PostCopy(a: nat, r: nat)
    | EndUpdate(a: nat)
    | ReadProp(a: nat, r: nat)
    | RetryProp(a: nat)
    | PostProp(a: nat)
    | EndProp(a: nat)
    | ReadRemoteSlot(a: nat, r: nat)
    | PostAdopted(a: nat, e: Entry)
    | PostNew(a: nat, v: Value)
    | PostFast(a: nat, v: Value)
    | Decide(a: nat)
    | BackToSlow(a: nat)
    | Abort(a: nat)
    | Deliver(a: nat, r: nat)
    | Sample(r: nat)
    | CommitOne(r: nat)

  // ---------------------------------------------------------------------
  // Identifiers and quorums
  // ---------------------------------------------------------------------

  function Max(xs: seq<nat>): (m: nat)
    ensures forall i :: 0 <= i < |xs| ==> xs[i] <= m
    ensures xs != [] ==> m in xs
  {
    if xs == [] then 0
    else
      var rest := Max(xs[1..]);
      if |xs| > 1 && rest > xs[0] then rest else xs[0]
  }

  /** `modulo`: proposal and request numbers of one replica step by this. */
  function Modulo(s: State): (m: nat)
    ensures ValidConfig(s.ids) ==> m > 0
  {
    assert ValidConfig(s.ids) ==> s.ids[0] > 0;
    Max(s.ids)
  }

  /** x is 0, m, 2m, ... */
  predicate Multiple(x: nat, m: nat)
    requires m > 0
  {
    x == 0 || (x >= m && Multiple(x - m, m))
  }

  function N(s: State): nat {
    |s.reps|
  }

  /** Deployment: at least one replica; process ids are distinct and positive. */
  predicate ValidConfig(ids: seq<nat>) {
    && |ids| > 0
    && (forall i :: 0 <= i < |ids| ==> ids[i] > 0)
    && (forall i, j :: 0 <= i < j < |ids| ==> ids[i] != ids[j])
  }

  function Remotes(s: State, p: nat): set<nat> {
    Ids(N(s)) - {p}
  }

  /** The replicas that the first k+1 posted writes of term a have reached. */
  function Acks(s: State, a: nat, k: nat): (acks: set<nat>)
    requires a < |s.terms| && |s.terms[a].done| == N(s)
    ensures acks <= Ids(N(s))
  {
    set r | r in Ids(N(s)) && s.terms[a].done[r] > k
  }

  // ---------------------------------------------------------------------
  // Shape of a state
  // ---------------------------------------------------------------------

  predicate TermShape(s: State, a: nat)
    requires a < |s.terms|
  {
    var t := s.terms[a];
    && t.tok.pid < N(s)
    && |t.done| == N(s)
    && (forall r :: 0 <= r < N(s) ==> t.done[r] <= |t.ops|)
    && t.done[t.tok.pid] == |t.ops|
    && t.touched <= Ids(N(s))
  }

  predicate RepShape(s: State, r: nat)
    requires r < N(s)
  {
    |s.reps[r].granted| == N(s) && |s.reps[r].approvals| == N(s)
  }

  predicate Shape(s: State) {
    && ValidConfig(s.ids)
    && |s.reps| == |s.ids|
    && (forall r :: 0 <= r < N(s) ==> RepShape(s, r))
    && (forall a :: 0 <= a < |s.terms| ==> TermShape(s, a))
  }

  predicate IsRep(s: State, r: nat) {
    r < N(s) && RepShape(s, r)
  }

  predicate IsTerm(s: State, a: nat) {
    a < |s.terms| && TermShape(s, a)
  }

  function InitReplica(n: nat, id: nat): Replica {
    Replica(0, map[], 0, 0, 0, [], None, seq(n, _ => 0), id, seq(n, _ => 0), id)
  }

  predicate Init(s: State) {
    && ValidConfig(s.ids)
    && s.terms == []
    && |s.reps| == |s.ids|
    && forall r :: 0 <= r < |s.reps| ==> s.reps[r] == InitReplica(|s.ids|, s.ids[r])
  }

  // ---------------------------------------------------------------------
  // Reading a state
  // ---------------------------------------------------------------------

  /** Term a still holds the permission at replica r. */
  predicate Open(s: State, a: nat, r: nat)
    requires a < |s.terms| && r < N(s)
  {
    s.reps[r].holder == Some(s.terms[a].tok)
  }

  /** The leader of term a still leads: its own log is guarded like any other. */
  predicate Own(s: State, a: nat)
    requires a < |s.terms| && s.terms[a].tok.pid < N(s)
  {
    Open(s, a, s.terms[a].tok.pid)
  }

  predicate CaughtUp(rep: Replica) {
    rep.target <= |rep.committed|
  }

  predicate BusyAt(s: State, p: nat) {
    exists a | 0 <= a < |s.terms| :: s.terms[a].tok.pid == p && s.terms[a].phase.Busy()
  }

  predicate Leading(s: State, p: nat)
    requires p < N(s)
  {
    exists a | 0 <= a < |s.terms| :: s.terms[a].tok.pid == p && s.reps[p].holder == Some(s.terms[a].tok)
  }

  /** p's flags still say fast path: its last call of propose succeeded there, and
      none has been rejected or has failed since (BackToSlow). */
  predicate FastLeft(s: State, p: nat) {
    exists a | 0 <= a < |s.terms| :: s.terms[a].tok.pid == p && s.terms[a].phase.Fast?
  }

  /** k is a request number that p has already sent out. */
  predicate Issued(s: State, p: nat, k: nat)
    requires Shape(s) && p < N(s)
  {
    s.ids[p] <= k < s.reps[p].reqNr && Multiple(k - s.ids[p], 2 * Modulo(s))
  }

  function Lookup(log: map<nat, Entry>, slot: nat): Option<Entry> {
    if slot in log then Some(log[slot]) else None
  }

  /** e is an entry of greatest accepted proposal among the local slot and the
      slots read from the remotes. */
  predicate IsFreshest(e: Entry, local: Option<Entry>, slots: map<nat, Option<Entry>>) {
    && (local == Some(e) || exists r | r in slots :: slots[r] == Some(e))
    && (local.Some? ==> local.value.prop <= e.prop)
    && (forall r | r in slots :: slots[r].Some? ==> slots[r].value.prop <= e.prop)
  }

  predicate NothingRead(local: Option<Entry>, slots: map<nat, Option<Entry>>) {
    local.None? && forall r | r in slots :: slots[r].None?
  }

  /** Nothing copied to r is still under way. */
  predicate CopiesArrived(t: Term, r: nat)
    requires r < |t.done|
  {
    forall k | t.done[r] <= k < |t.ops| :: !(t.ops[k].Copy? && t.ops[k].dst == r)
  }

  // ---------------------------------------------------------------------
  // Writing a state
  // ---------------------------------------------------------------------

  function SetRep(s: State, r: nat, rep: Replica): State
    requires r < N(s)
  {
    s.(reps := s.reps[r := rep])
  }

  function SetTerm(s: State, a: nat, t: Term): State
    requires a < |s.terms|
  {
    s.(terms := s.terms[a := t])
  }

  function SetPhase(s: State, a: nat, phase: Phase): State
    requires a < |s.terms|
  {
    SetTerm(s, a, s.terms[a].(phase := phase))
  }

  /** A one-sided read of term a at replica r. */
  function AfterRead(s: State, a: nat, r: nat, phase: Phase): State
    requires a < |s.terms|
  {
    SetTerm(s, a, s.terms[a].(phase := phase, touched := s.terms[a].touched + {r}))
  }

  function Written(rep: Replica, r: nat, op: Op): Replica {
    match op
    case SetProp(q) => rep.(minProp := q)
    case Copy(dst, j, e) => if dst == r then rep.(log := rep.log[j := e]) else rep
    case Put(j, e) => rep.(log := rep.log[j := e])
  }

  /** The leader writes its own memory and posts the same write to the others. */
  function Post(s: State, a: nat, op: Op, phase: Phase): State
    requires a < |s.terms| && TermShape(s, a)
  {
    var t := s.terms[a];
    var p := t.tok.pid;
    var t' := t.(phase := phase, ops := t.ops + [op], done := t.done[p := |t.ops| + 1], touched := t.touched + {p});
    SetTerm(SetRep(s, p, Written(s.reps[p], p, op)), a, t')
  }

  // ---------------------------------------------------------------------
  // Steps
  // ---------------------------------------------------------------------

  function Pid(s: State, a: nat): nat
    requires a < |s.terms|
  {
    s.terms[a].tok.pid
  }

  /** The replica of the leader of term a. */
  function Leader(s: State, a: nat): Replica
    requires IsTerm(s, a)
  {
    s.reps[s.terms[a].tok.pid]
  }

  /** A read or write of term a at another replica r succeeds. */
  predicate Reaches(s: State, a: nat, r: nat) {
    IsTerm(s, a) && r < N(s) && r != Pid(s, a) && Open(s, a, r)
  }

  /** p holds its own permission, has everybody's approval, and may take the log over. */
  predicate MayLead(s: State, p: nat)
    requires Shape(s)
  {
    && IsRep(s, p)
    && s.reps[p].reqNr >= 2 * Modulo(s)
    && s.reps[p].holder == Some(Token(p, s.reps[p].reqNr - 2 * Modulo(s)))
    && (forall r | 0 <= r < N(s) && r != p :: s.reps[p].approvals[r] + Modulo(s) == s.reps[p].reqNr)
    && CaughtUp(s.reps[p])
    && !BusyAt(s, p)
    && !Leading(s, p)
  }

  /** A leadership begins on the slow path.  That the flags still say fast path from an
      earlier one is the subject of MuLeftover. */
  predicate StartEnabled(s: State, p: nat)
    requires Shape(s)
  {
    MayLead(s, p) && !FastLeft(s, p)
  }

  predicate PostCopyEnabled(s: State, a: nat, r: nat) {
    && IsTerm(s, a)
    && s.terms[a].phase.Update?
    && Own(s, a)
    && r in s.terms[a].phase.upto
    && s.terms[a].phase.upto[r] < Leader(s, a).fuo
    && s.terms[a].phase.upto[r] in Leader(s, a).log
  }

  predicate EndUpdateEnabled(s: State, a: nat) {
    && IsTerm(s, a)
    && s.terms[a].phase.Update?
    && (forall r | r in s.terms[a].phase.upto :: s.terms[a].phase.upto[r] >= Leader(s, a).fuo)
    && |set r | r in Remotes(s, Pid(s, a)) && CopiesArrived(s.terms[a], r)| >= RemoteStrictMajority(N(s) - 1)
  }

  /** Proposals have been read from enough remotes. */
  predicate ProposalsRead(s: State, a: nat)
    requires Shape(s)
  {
    && IsTerm(s, a)
    && s.terms[a].phase.CatchProp?
    && |s.terms[a].phase.props| >= RemoteStrictMajority(N(s) - 1)
  }

  /** The slot at the leader's first undecided offset has been read from enough remotes. */
  predicate SlotsRead(s: State, a: nat) {
    && IsTerm(s, a)
    && s.terms[a].phase.ReadSlot?
    && |s.terms[a].phase.slots| >= Majority(N(s)) - 1
    && Own(s, a)
  }

  predicate Guard(s: State, ev: Event)
    requires Shape(s)
  {
    match ev
    // leader election and permissions
    case Request(p) => IsRep(s, p)
    case Notify(r, p, k) => IsRep(s, r) && IsRep(s, p) && r != p && Issued(s, p, k)
    case Grant(r, p, k) => IsRep(s, r) && IsRep(s, p) && Issued(s, p, k) && k > s.reps[r].granted[p]
    case Approve(r) =>
      IsRep(s, r) && s.reps[r].holder.Some? && IsRep(s, s.reps[r].holder.value.pid) && s.reps[r].holder.value.pid != r
    case Start(p) => StartEnabled(s, p)
    // the leader's call of propose
    case BeginSlow(a) => IsTerm(s, a) && s.terms[a].phase.Idle? && Own(s, a) && CaughtUp(Leader(s, a))
    case ReadFuo(a, r) => Reaches(s, a, r) && s.terms[a].phase.CatchFuo?
    case EndCatchFuo(a) =>
      IsTerm(s, a) && s.terms[a].phase.CatchFuo? && s.terms[a].phase.fuos.Keys == Remotes(s, Pid(s, a))
    case PostCopy(a, r) => PostCopyEnabled(s, a, r)
    case EndUpdate(a) => EndUpdateEnabled(s, a)
    case ReadProp(a, r) => Reaches(s, a, r) && s.terms[a].phase.CatchProp?
    case RetryProp(a) => ProposalsRead(s, a) && !ProposalIsHigh(s, a)
    case PostProp(a) => ProposalsRead(s, a) && ProposalIsHigh(s, a) && Own(s, a)
    case EndProp(a) => IsTerm(s, a) && s.terms[a].phase.UpdProp? && LastAcked(s, a)
    case ReadRemoteSlot(a, r) => Reaches(s, a, r) && s.terms[a].phase.ReadSlot?
    case PostAdopted(a, e) => SlotsRead(s, a) && IsFreshest(e, LocalSlot(s, a), s.terms[a].phase.slots)
    case PostNew(a, v) => SlotsRead(s, a) && NothingRead(LocalSlot(s, a), s.terms[a].phase.slots)
    case PostFast(a, v) => IsTerm(s, a) && s.terms[a].phase.Fast? && Own(s, a) && CaughtUp(Leader(s, a))
    case Decide(a) => IsTerm(s, a) && s.terms[a].phase.Write? && LastAcked(s, a)
    case BackToSlow(a) => IsTerm(s, a) && s.terms[a].phase.Fast?
    case Abort(a) => IsTerm(s, a)
    // the network
    case Deliver(a, r) => Reaches(s, a, r) && s.terms[a].done[r] < |s.terms[a].ops|
    // followers
    case Sample(r) =>
      && IsRep(s, r)
      && !BusyAt(s, r)
      && !Leading(s, r)
      && CaughtUp(s.reps[r])
      && s.reps[r].seen in s.reps[r].log
    case CommitOne(r) =>
      IsRep(s, r) && |s.reps[r].committed| < s.reps[r].target && |s.reps[r].committed| in s.reps[r].log
  }

  /** The step can be taken.  (Comparing keeps the verifier from taking the guard apart
      wherever it is needed.) */
  predicate Enabled(s: State, ev: Event)
    requires Shape(s)
  {
    Guard(s, ev) == true
  }

  /** No proposal read, nor the leader's own header, is above the leader's number. */
  predicate ProposalIsHigh(s: State, a: nat)
    requires IsTerm(s, a) && s.terms[a].phase.CatchProp?
  {
    var rep := Leader(s, a);
    rep.minProp <= rep.propNr && forall r | r in s.terms[a].phase.props :: s.terms[a].phase.props[r] <= rep.propNr
  }

  /** The write posted last has been acknowledged by enough remotes. */
  predicate LastAcked(s: State, a: nat)
    requires Shape(s) && IsTerm(s, a)
  {
    && |s.terms[a].ops| > 0
    && |Acks(s, a, |s.terms[a].ops| - 1) - {Pid(s, a)}| >= RemoteStrictMajority(N(s) - 1)
  }

  function LocalSlot(s: State, a: nat): Option<Entry>
    requires IsTerm(s, a)
  {
    Lookup(Leader(s, a).log, Leader(s, a).fuo)
  }

  function Granted(rep: Replica, p: nat, k: nat): Replica
    requires p < |rep.granted|
  {
    rep.(holder := Some(Token(p, k)), granted := rep.granted[p := k])
  }

  function Answered(rep: Replica, r: nat, answer: nat): Replica
    requires r < |rep.approvals|
  {
    rep.(approvals := rep.approvals[r := answer])
  }

  function Started(s: State, p: nat): State
    requires Shape(s) && StartEnabled(s, p)
  {
    var tok := Token(p, s.reps[p].reqNr - 2 * Modulo(s));
    s.(terms := s.terms + [Term(tok, Idle, [], seq(N(s), _ => 0), {})])
  }

  function CopyOp(s: State, a: nat, r: nat): Op
    requires PostCopyEnabled(s, a, r)
  {
    var slot := s.terms[a].phase.upto[r];
    Copy(r, slot, Leader(s, a).log[slot])
  }

  function CopyPhase(s: State, a: nat, r: nat): Phase
    requires PostCopyEnabled(s, a, r)
  {
    var upto := s.terms[a].phase.upto;
    Update(upto[r := upto[r] + 1])
  }

  /** The write of a value to the leader's first undecided slot. */
  function PutOp(s: State, a: nat, v: Value, embedded: nat): Op
    requires IsTerm(s, a)
  {
    Put(Leader(s, a).fuo, Entry(Leader(s, a).propNr, v, embedded, a))
  }

  /** After a quorum has the leader's value: advance the header, sample one
      entry and, if there was one, commit up to the new offset. */
  function Decided(rep: Replica): Replica {
    var fuo := rep.fuo + 1;
    if rep.seen in rep.log then rep.(fuo := fuo, seen := rep.seen + 1, target := fuo) else rep.(fuo := fuo)
  }

  function Delivered(s: State, a: nat, r: nat): State
    requires Reaches(s, a, r) && s.terms[a].done[r] < |s.terms[a].ops|
  {
    var t := s.terms[a];
    var k := t.done[r];
    SetTerm(SetRep(s, r, Written(s.reps[r], r, t.ops[k])), a, t.(done := t.done[r := k + 1], touched := t.touched
        + {r}))
  }

  function Sampled(rep: Replica): Replica
    requires rep.seen in rep.log
  {
    rep.(seen := rep.seen + 1, target := rep.log[rep.seen].fuo)
  }

  function OneMoreCommitted(rep: Replica): Replica
    requires |rep.committed| in rep.log
  {
    rep.(committed := rep.committed + [rep.log[|rep.committed|].val], fuo := rep.target)
  }

  /** Steps that only move permissions and their bookkeeping. */
  predicate IsElection(ev: Event) {
    ev.Request? || ev.Notify? || ev.Grant? || ev.Approve?
  }

  function NextElection(s: State, ev: Event): State
    requires Shape(s) && IsElection(ev) && Enabled(s, ev)
  {
    match ev
    case Request(p) => SetRep(s, p, s.reps[p].(reqNr := s.reps[p].reqNr + 2 * Modulo(s)))
    case Notify(r, p, k) => SetRep(s, p, Answered(s.reps[p], r, k))
    case Grant(r, p, k) => SetRep(s, r, Granted(s.reps[r], p, k))
    case Approve(r) =>
      var tok := s.reps[r].holder.value;
      SetRep(s, tok.pid, Answered(s.reps[tok.pid], r, tok.req + Modulo(s)))
  }

  /** Steps of a leader that only read, or only move on to the next phase. */
  predicate IsQuiet(ev: Event) {
    || ev.BeginSlow? || ev.ReadFuo? || ev.EndCatchFuo? || ev.EndUpdate? || ev.ReadProp? || ev.RetryProp?
    || ev.EndProp? || ev.ReadRemoteSlot? || ev.BackToSlow? || ev.Abort?
  }

  function NextQuiet(s: State, ev: Event): State
    requires Shape(s) && IsQuiet(ev) && Enabled(s, ev)
  {
    match ev
    case BeginSlow(a) => AfterRead(s, a, Pid(s, a), CatchFuo(map[]))
    case ReadFuo(a, r) => AfterRead(s, a, r, CatchFuo(s.terms[a].phase.fuos[r := s.reps[r].fuo]))
    case EndCatchFuo(a) => SetPhase(s, a, Update(s.terms[a].phase.fuos))
    case EndUpdate(a) => SetPhase(s, a, CatchProp(map[]))
    case ReadProp(a, r) => AfterRead(s, a, r, CatchProp(s.terms[a].phase.props[r := s.reps[r].minProp]))
    case RetryProp(a) =>
      SetPhase(SetRep(s, Pid(s, a), Leader(s, a).(propNr := Leader(s, a).propNr + Modulo(s))), a, CatchProp(map[]))
    case EndProp(a) => SetPhase(s, a, ReadSlot(map[]))
    case ReadRemoteSlot(a, r) =>
      AfterRead(s, a, r, ReadSlot(s.terms[a].phase.slots[r := Lookup(s.reps[r].log, Leader(s, a).fuo)]))
    case BackToSlow(a) => SetPhase(s, a, Idle)
    case Abort(a) => SetPhase(s, a, Dead)
  }

  /** Steps of a leader that write its own memory and post the same write. */
  predicate IsPost(ev: Event) {
    ev.PostCopy? || ev.PostProp? || ev.PostAdopted? || ev.PostNew? || ev.PostFast?
  }

  function PostedBy(ev: Event): nat
    requires IsPost(ev)
  {
    ev.a
  }

  function PostedOp(s: State, ev: Event): Op
    requires Shape(s) && IsPost(ev) && Enabled(s, ev)
  {
    match ev
    case PostCopy(a, r) => CopyOp(s, a, r)
    case PostProp(a) => SetProp(Leader(s, a).propNr)
    case PostAdopted(a, e) => PutOp(s, a, e.val, e.fuo)
    case PostNew(a, v) => PutOp(s, a, v, Leader(s, a).fuo)
    case PostFast(a, v) => PutOp(s, a, v, Leader(s, a).fuo)
  }

  function PostedPhase(s: State, ev: Event): Phase
    requires Shape(s) && IsPost(ev) && Enabled(s, ev)
  {
    match ev
    case PostCopy(a, r) => CopyPhase(s, a, r)
    case PostProp(a) => UpdProp
    case PostAdopted(a, e) => Write(Idle)
    case PostNew(a, v) => Write(Fast(s.terms[a].phase.slots.Keys + {Pid(s, a)}, Leader(s, a).fuo))
    case PostFast(a, v) => Write(s.terms[a].phase)
  }

  /** Callers propose bytes. */
  predicate CallerProposes(ev: Event) {
    && (ev.PostNew? ==> ev.v.Value?)
    && (ev.PostFast? ==> ev.v.Value?)
  }

  /** What one step does. */
  function Next(s: State, ev: Event): State
    requires Shape(s) && Enabled(s, ev)
  {
    if IsElection(ev) then NextElection(s, ev)
    else if IsQuiet(ev) then NextQuiet(s, ev)
    else if IsPost(ev) then Post(s, PostedBy(ev), PostedOp(s, ev), PostedPhase(s, ev))
    else
      match ev
      case Start(p) => Started(s, p)
      case Decide(a) => SetPhase(SetRep(s, Pid(s, a), Decided(Leader(s, a))), a, s.terms[a].phase.next)
      case Deliver(a, r) => Delivered(s, a, r)
      case Sample(r) => SetRep(s, r, Sampled(s.reps[r]))
      case CommitOne(r) => SetRep(s, r, OneMoreCommitted(s.reps[r]))
  }

  // ---------------------------------------------------------------------
  // Runs
  // ---------------------------------------------------------------------

  /** A finite run of the protocol. */
  predicate IsRun(states: seq<State>, events: seq<Event>) {
    && |states| == |events| + 1
    && Init(states[0])
    && forall i :: 0 <= i < |events| ==> StepAt(states, events, i)
  }

  predicate StepAt(states: seq<State>, events: seq<Event>, i: nat)
    requires i < |events| && i + 1 < |states|
  {
    Shape(states[i]) && Enabled(states[i], events[i]) && states[i + 1] == Next(states[i], events[i])
  }

  /** The k-th write of term a put a value into a slot at a strict majority. */
  predicate ChosenBy(s: State, a: nat, k: nat)
    requires Shape(s)
  {
    && IsTerm(s, a)
    && k < |s.terms[a].ops|
    && s.terms[a].ops[k].Put?
    && |Acks(s, a, k)| >= StrictMajority(N(s))
  }

  /** v is chosen in a slot: some leader's write of it has reached a strict majority. */
  ghost predicate Chosen(s: State, slot: nat, v: Value)
    requires Shape(s)
  {
    exists a: nat, k: nat ::
      ChosenBy(s, a, k) && s.terms[a].ops[k].slot == slot && s.terms[a].ops[k].entry.val == v
  }
}
