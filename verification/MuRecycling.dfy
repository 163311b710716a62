module MuRecycling {
  // Log recycling on top of the protocol: when space runs out the leader, having
  // found its slot empty at a read quorum, puts a request there instead of a value.
  // Whoever samples the request commits up to the offset it carries, starts the log
  // over and replies; once everybody has replied the leader goes on, and a new
  // generation of the log has begun.

  import opened Options
  import opened MuModel

  datatype Ticket = Ticket(requestor: nat, id: nat)

  /** The leader of term a has posted the request `id`; `restarted`: it has started
      its own log over.  `values` is a history variable: what is decided below the
      request's offset. */
  datatype Round = Normal | Recycling(a: nat, id: nat, restarted: bool, values: seq<Value>)

  /** `mu` is the state of the protocol as it is: a replica that has started over has
      an empty log.  reqNr is each replica's next recycling request number, owes the
      reply it has yet to send, replies[p][r] the word of p's scratchpad that r
      writes.  History variables, read by no guard: `earlier`, what each replica has
      handed to commit before the log it has now; `past`, what was decided in
      earlier generations; `wiped`, what the replicas that have started over in
      this round held before. */
  datatype Group = Group(
    mu: State,
    reqNr: seq<nat>,
    owes: seq<Option<Ticket>>,
    replies: seq<seq<nat>>,
    round: Round,
    earlier: seq<seq<Value>>,
    past: seq<Value>,
    wiped: map<nat, Replica>
  )

  datatype Action =
    | Step(ev: Event)
    | PostRequest(a: nat)
    | RestartLeader
    | RestartFollower(r: nat)
    | Reply(r: nat)
    | EndWait

  predicate GroupShape(g: Group) {
    && Shape(g.mu)
    && |g.reqNr| == N(g.mu) && |g.owes| == N(g.mu) && |g.replies| == N(g.mu) && |g.earlier| == N(g.mu)
    && (forall p :: 0 <= p < N(g.mu) ==> |g.replies[p]| == N(g.mu))
    && (g.round.Recycling? ==> IsTerm(g.mu, g.round.a))
  }

  predicate GroupInit(g: Group) {
    && Init(g.mu) && GroupShape(g)
    && g.reqNr == g.mu.ids && g.round == Normal && g.past == [] && g.wiped == map[]
    && (forall r :: 0 <= r < N(g.mu) ==> g.owes[r] == None && g.earlier[r] == [])
    && (forall p, r :: 0 <= p < N(g.mu) && 0 <= r < N(g.mu) ==> g.replies[p][r] == 0)
  }

  // ---------------------------------------------------------------------
  // Steps
  // ---------------------------------------------------------------------

  /** The request goes to the first undecided slot, and asks to commit up to there. */
  function RequestOf(g: Group, a: nat): Value
    requires GroupShape(g) && IsTerm(g.mu, a)
  {
    Recycle(Pid(g.mu, a), g.reqNr[Pid(g.mu, a)], Leader(g.mu, a).fuo)
  }

  /** What the follower sampled last is a request, and it has committed up to it. */
  predicate RequestSeen(s: State, r: nat)
    requires Shape(s)
  {
    && IsRep(s, r) && !BusyAt(s, r) && !Leading(s, r) && CaughtUp(s.reps[r])
    && s.reps[r].seen > 0 && s.reps[r].seen - 1 in s.reps[r].log
    && s.reps[r].log[s.reps[r].seen - 1].val.Recycle?
    && s.reps[r].target == s.reps[r].log[s.reps[r].seen - 1].fuo
  }

  /** The leader whose request is under way. */
  function Requestor(g: Group): nat
    requires GroupShape(g) && g.round.Recycling?
  {
    Pid(g.mu, g.round.a)
  }

  predicate ActionGuard(g: Group, ac: Action)
    requires GroupShape(g)
  {
    match ac
    case Step(ev) => Enabled(g.mu, ev) && CallerProposes(ev) && !(g.round.Recycling? && ev == Decide(g.round.a))
    case PostRequest(a) => g.round.Normal? && SlotsRead(g.mu, a)
        && NothingRead(LocalSlot(g.mu, a), g.mu.terms[a].phase.slots)
    case RestartLeader => g.round.Recycling? && !g.round.restarted && LastAcked(g.mu, g.round.a)
    case RestartFollower(r) => RequestSeen(g.mu, r)
    case Reply(r) => r < N(g.mu) && g.owes[r].Some? && g.owes[r].value.requestor < N(g.mu)
    case EndWait =>
      && g.round.Recycling? && g.round.restarted
      && forall r :: 0 <= r < N(g.mu) && r != Requestor(g) ==>
           g.replies[Requestor(g)][r] + Modulo(g.mu) == g.reqNr[Requestor(g)]
  }

  predicate Ready(g: Group, ac: Action)
    requires GroupShape(g)
  {
    ActionGuard(g, ac) == true
  }

  /** First undecided offset, iterators and log start over; the rest of the header stays. */
  function Restarted(rep: Replica): Replica {
    rep.(log := map[], fuo := 0, seen := 0, target := 0, committed := [])
  }

  function Wipe(g: Group, r: nat): Group
    requires GroupShape(g) && r < N(g.mu)
  {
    g.(mu := SetRep(g.mu, r, Restarted(g.mu.reps[r])),
       earlier := g.earlier[r := g.earlier[r] + g.mu.reps[r].committed],
       wiped := g.wiped[r := g.mu.reps[r]])
  }

  /** The values in the slots below n. */
  function ValuesBelow(log: map<nat, Entry>, n: nat): (vs: seq<Value>)
    ensures |vs| == n
  {
    seq(n, i => if i in log then log[i].val else Value([]))
  }

  /** A leadership in the new generation: what it posted before has arrived, or never
      will (MuGenerations.LeftoversHaveNoAccess). */
  function Renewed(s: State, b: nat, a: nat): (t: Term)
    requires b < |s.terms|
  {
    var t := s.terms[b];
    Term(t.tok, if b == a then Idle else t.phase, [], seq(N(s), _ => 0), {})
  }

  function NewGeneration(s: State, a: nat): State {
    s.(terms := seq(|s.terms|, b requires 0 <= b < |s.terms| => Renewed(s, b, a)))
  }

  function After(g: Group, ac: Action): Group
    requires GroupShape(g) && Ready(g, ac)
  {
    match ac
    case Step(ev) => g.(mu := Next(g.mu, ev))
    case PostRequest(a) =>
      var p := Pid(g.mu, a);
      g.(mu := Next(g.mu, PostNew(a, RequestOf(g, a))),
         reqNr := g.reqNr[p := g.reqNr[p] + Modulo(g.mu)],
         round := Recycling(a, g.reqNr[p], false, ValuesBelow(Leader(g.mu, a).log, Leader(g.mu, a).fuo)))
    case RestartLeader => Wipe(g, Requestor(g)).(round := g.round.(restarted := true))
    case RestartFollower(r) =>
      var rep := g.mu.reps[r];
      var request := rep.log[rep.seen - 1].val;
      Wipe(g, r).(owes := g.owes[r := Some(Ticket(request.requestor, request.id))])
    case Reply(r) =>
      var t := g.owes[r].value;
      var words: seq<nat> := g.replies[t.requestor][r := t.id];
      g.(owes := g.owes[r := None], replies := g.replies[t.requestor := words])
    case EndWait =>
      g.(mu := NewGeneration(g.mu, g.round.a), round := Normal, past := g.past + g.round.values, wiped := map[])
  }

  /** Everything a replica has handed to the commit handler, in all generations. */
  function Handed(g: Group, r: nat): seq<Value>
    requires GroupShape(g) && r < N(g.mu)
  {
    g.earlier[r] + g.mu.reps[r].committed
  }

  // ---------------------------------------------------------------------
  // Runs
  // ---------------------------------------------------------------------

  /** While a request is under way no permission changes hands and the leader's
      write does not fail: no leadership switch falls between the request and its
      last reply. */
  predicate Undisturbed(g: Group, ac: Action) {
    g.round.Recycling? && ac.Step? ==> !ac.ev.Grant? && ac.ev != Abort(g.round.a)
  }

  predicate ActionAt(groups: seq<Group>, actions: seq<Action>, i: nat)
    requires i < |actions| && i + 1 < |groups|
  {
    && GroupShape(groups[i]) && Ready(groups[i], actions[i]) && groups[i + 1] == After(groups[i], actions[i])
    && Undisturbed(groups[i], actions[i])
  }

  predicate IsGroupRun(groups: seq<Group>, actions: seq<Action>) {
    && |groups| == |actions| + 1
    && GroupInit(groups[0])
    && forall i :: 0 <= i < |actions| ==> ActionAt(groups, actions, i)
  }
}
