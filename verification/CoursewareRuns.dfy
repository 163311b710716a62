module CoursewareRuns {
  // Courseware replicated: calls of the synchronization group go through one common
  // order, registrations travel freely, and an enrollment waits for the
  // registrations its issuer had applied.

  import opened Courseware

  /** A call in the common order, with the registrations it depends on. */
  datatype Ordered = Ordered(call: Call, deps: set<nat>)

  /** How much of the common order a replica has applied, and which registrations. */
  datatype Replica = Replica(st: Campus, pos: nat, regs: set<nat>)

  datatype System = System(reps: seq<Replica>, order: seq<Ordered>, registered: seq<string>)

  datatype Event =
    | Issue(r: nat, call: Call)       // by the leader of the group, who has applied all of the order
    | ApplyNext(r: nat)
    | Register(r: nat, student: string)
    | Deliver(r: nat, k: nat)

  /** The one synchronization group declared. */
  predicate InGroup(call: Call) {
    call.AddCourse? || call.DeleteCourse? || call.Enroll?
  }

  predicate Init(s: System) {
    s.order == [] && s.registered == [] && forall r :: 0 <= r < |s.reps| ==> s.reps[r] == Replica(EMPTY, 0, {})
  }

  predicate Enabled(s: System, ev: Event) {
    ev.r < |s.reps| &&
    var rep := s.reps[ev.r];
    match ev
    case Issue(r, call) => InGroup(call) && rep.pos == |s.order| && Permissible(rep.st, call)
    case ApplyNext(r) => rep.pos < |s.order| && s.order[rep.pos].deps <= rep.regs
    case Register(r, student) => true
    case Deliver(r, k) => k < |s.registered| && k !in rep.regs
  }

  /** An enrollment declares the registrations (and course additions, which share
      its order) its issuer had applied as dependencies. */
  function DepsOf(rep: Replica, call: Call): set<nat> {
    if call.Enroll? then rep.regs else {}
  }

  function Next(s: System, ev: Event): System
    requires Enabled(s, ev)
  {
    var rep := s.reps[ev.r];
    match ev
    case Issue(r, call) =>
      s.(order := s.order + [Ordered(call, DepsOf(rep, call))],
         reps := s.reps[r := rep.(st := Execute(rep.st, call), pos := rep.pos + 1)])
    case ApplyNext(r) =>
      s.(reps := s.reps[r := rep.(st := Execute(rep.st, s.order[rep.pos].call), pos := rep.pos + 1)])
    case Register(r, student) =>
      s.(registered := s.registered + [student],
         reps := s.reps[r := rep.(st := Execute(rep.st, AddStudent(student)), regs := rep.regs + {|s.registered|})])
    case Deliver(r, k) =>
      s.(reps := s.reps[r := rep.(st := Execute(rep.st, AddStudent(s.registered[k])), regs := rep.regs + {k})])
  }

  predicate StepAt(states: seq<System>, events: seq<Event>, i: nat)
    requires i < |events| && i + 1 < |states|
  {
    Enabled(states[i], events[i]) && states[i + 1] == Next(states[i], events[i])
  }

  predicate IsRun(states: seq<System>, events: seq<Event>) {
    && |states| == |events| + 1 && Init(states[0])
    && forall i: nat :: i < |events| ==> StepAt(states, events, i)
  }

  // ---------------------------------------------------------------------
  // Invariant
  // ---------------------------------------------------------------------

  /** What the first p ordered calls make of courses, enrollments and counts. */
  function GroupState(order: seq<Ordered>, p: nat): Campus
    requires p <= |order|
  {
    if p == 0 then EMPTY else Execute(GroupState(order, p - 1), order[p - 1].call)
  }

  function Names(registered: seq<string>, ks: set<nat>): set<string> {
    set k | k in ks && k < |registered| :: registered[k]
  }

  /** Where it was issued an ordered call was permissible: that is all the others
      have to go by. */
  predicate OrderedOk(s: System, i: nat)
    requires i < |s.order|
  {
    var o := s.order[i];
    && InGroup(o.call)
    && (forall k :: k in o.deps ==> k < |s.registered|)
    && Permissible(GroupState(s.order, i).(students := Names(s.registered, o.deps)), o.call)
  }

  ghost predicate ReplicaOk(s: System, r: nat)
    requires r < |s.reps|
  {
    var rep := s.reps[r];
    && rep.pos <= |s.order| && (forall k :: k in rep.regs ==> k < |s.registered|)
    && rep.st == GroupState(s.order, rep.pos).(students := Names(s.registered, rep.regs))
    && Integrity(rep.st) && CountsOk(rep.st)
  }

  ghost predicate Inv(s: System) {
    && (forall i: nat :: i < |s.order| ==> OrderedOk(s, i))
    && (forall r: nat :: r < |s.reps| ==> ReplicaOk(s, r))
  }

  lemma {:induction false} GroupGrows(order: seq<Ordered>, o: Ordered, p: nat)
    requires p <= |order|
    ensures GroupState(order + [o], p) == GroupState(order, p)
  {
    if p > 0 {
      GroupGrows(order, o, p - 1);
      assert (order + [o])[p - 1] == order[p - 1];
    }
  }

  /** A call of the group does the same whoever is registered. */
  lemma StudentsApart(st: Campus, names: set<string>, call: Call)
    requires InGroup(call)
    ensures Execute(st.(students := names), call) == Execute(st, call).(students := names)
  {
  }

  lemma NamesGrow(registered: seq<string>, student: string, ks: set<nat>)
    requires forall k :: k in ks ==> k < |registered|
    ensures Names(registered + [student], ks) == Names(registered, ks)
    ensures Names(registered + [student], ks + {|registered|}) == Names(registered, ks) + {student}
  {
    var more := registered + [student];
    assert forall k :: k in ks ==> more[k] == registered[k];
    assert more[|registered|] == student;
    forall x | x in Names(registered, ks) + {student}
      ensures x in Names(more, ks + {|registered|})
    {
      if x != student {
        var k :| k in ks && k < |registered| && registered[k] == x;
        assert more[k] == x;
      }
    }
    forall x | x in Names(registered, ks)
      ensures x in Names(more, ks)
    {
      var k :| k in ks && k < |registered| && registered[k] == x;
      assert more[k] == x;
    }
  }

  lemma NamesMore(registered: seq<string>, ks: set<nat>, k: nat)
    requires k < |registered|
    ensures Names(registered, ks + {k}) == Names(registered, ks) + {registered[k]}
  {
  }

  lemma NamesFewer(registered: seq<string>, ks: set<nat>, ls: set<nat>)
    requires ks <= ls
    ensures Names(registered, ks) <= Names(registered, ls)
  {
  }

  /** Fewer registrations at the issuer only make a call less permissible. */
  lemma StillPermissible(st: Campus, names: set<string>, more: set<string>, call: Call)
    requires names <= more && Permissible(st.(students := names), call)
    ensures Permissible(st.(students := more), call)
  {
  }

  lemma IssueKeepsInv(s: System, r: nat, call: Call)
    requires Inv(s) && Enabled(s, Issue(r, call))
    ensures Inv(Next(s, Issue(r, call)))
  {
    hide Execute, Integrity, CountsOk, Names;
    var rep, s' := s.reps[r], Next(s, Issue(r, call));
    var o := Ordered(call, DepsOf(rep, call));
    var n := |s.order|;
    assert ReplicaOk(s, r);
    forall i: nat | i < |s'.order|
      ensures OrderedOk(s', i)
    {
      GroupGrows(s.order, o, i);
      if i < n {
        assert OrderedOk(s, i);
      }
    }
    forall q: nat | q < |s'.reps|
      ensures ReplicaOk(s', q)
    {
      assert ReplicaOk(s, q);
      GroupGrows(s.order, o, s.reps[q].pos);
      if q == r {
        assert GroupState(s'.order, n + 1) == Execute(GroupState(s'.order, n), call);
        StudentsApart(GroupState(s.order, n), Names(s.registered, rep.regs), call);
        PermissibleKeepsIntegrity(rep.st, call);
        CountsStayOk(rep.st, call);
      }
    }
  }

  lemma ApplyKeepsInv(s: System, r: nat)
    requires Inv(s) && Enabled(s, ApplyNext(r))
    ensures Inv(Next(s, ApplyNext(r)))
  {
    hide Execute, Integrity, CountsOk, Names, Permissible;
    var rep, s' := s.reps[r], Next(s, ApplyNext(r));
    var o := s.order[rep.pos];
    assert ReplicaOk(s, r) && OrderedOk(s, rep.pos);
    forall i: nat | i < |s'.order|
      ensures OrderedOk(s', i)
    {
      assert OrderedOk(s, i);
    }
    NamesFewer(s.registered, o.deps, rep.regs);
    StillPermissible(GroupState(s.order, rep.pos), Names(s.registered, o.deps), Names(s.registered, rep.regs), o.call);
    PermissibleKeepsIntegrity(rep.st, o.call);
    CountsStayOk(rep.st, o.call);
    StudentsApart(GroupState(s.order, rep.pos), Names(s.registered, rep.regs), o.call);
    forall q: nat | q < |s'.reps|
      ensures ReplicaOk(s', q)
    {
      assert ReplicaOk(s, q);
    }
  }

  /** A replica that hears of a registration. */
  lemma RegisterKeepsReplica(s: System, r: nat, student: string, k: nat)
    requires Inv(s) && r < |s.reps| && k <= |s.registered|
    requires k < |s.registered| ==> s.registered[k] == student
    ensures var registered := if k < |s.registered| then s.registered else s.registered + [student];
            var rep := s.reps[r];
            var rep' := rep.(st := Execute(rep.st, AddStudent(student)), regs := rep.regs + {k});
            && rep.pos <= |s.order|
            && rep'.st == GroupState(s.order, rep.pos).(students := Names(registered, rep'.regs))
            && Integrity(rep'.st) && CountsOk(rep'.st)
  {
    hide Names, GroupState;
    var rep := s.reps[r];
    assert ReplicaOk(s, r);
    CountsStayOk(rep.st, AddStudent(student));
    if k < |s.registered| {
      NamesMore(s.registered, rep.regs, k);
    } else {
      NamesGrow(s.registered, student, rep.regs);
    }
  }

  lemma RegistrationKeepsInv(s: System, ev: Event)
    requires Inv(s) && Enabled(s, ev) && (ev.Register? || ev.Deliver?)
    ensures Inv(Next(s, ev))
  {
    hide Execute, Integrity, CountsOk, Names, Permissible, GroupState;
    var s', r := Next(s, ev), ev.r;
    var student := if ev.Register? then ev.student else s.registered[ev.k];
    var k := if ev.Register? then |s.registered| else ev.k;
    RegisterKeepsReplica(s, r, student, k);
    forall i: nat | i < |s'.order|
      ensures OrderedOk(s', i)
    {
      assert OrderedOk(s, i);
      NamesGrow(s.registered, student, s.order[i].deps);
    }
    forall q: nat | q < |s'.reps|
      ensures ReplicaOk(s', q)
    {
      assert ReplicaOk(s, q);
      NamesGrow(s.registered, student, s.reps[q].regs);
    }
  }

  lemma InitInv(s: System)
    requires Init(s)
    ensures Inv(s)
  {
    assert Names([], {}) == {};
    assert forall c :: EnrolledIn(EMPTY, c) == {};
  }

  lemma {:induction false} RunInv(states: seq<System>, events: seq<Event>, i: nat)
    requires IsRun(states, events) && i <= |events|
    ensures Inv(states[i])
  {
    if i == 0 {
      InitInv(states[0]);
    } else {
      RunInv(states, events, i - 1);
      assert StepAt(states, events, i - 1);
      match events[i - 1]
      case Issue(r, call) => IssueKeepsInv(states[i - 1], r, call);
      case ApplyNext(r) => ApplyKeepsInv(states[i - 1], r);
      case _ => RegistrationKeepsInv(states[i - 1], events[i - 1]);
    }
  }

  // ---------------------------------------------------------------------
  // What every run guarantees
  // ---------------------------------------------------------------------

  /** Checked only where a call is issued, integrity holds everywhere, always. */
  lemma IntegrityEverywhere(states: seq<System>, events: seq<Event>, i: nat, r: nat)
    requires IsRun(states, events) && i <= |events| && r < |states[i].reps|
    ensures Integrity(states[i].reps[r].st) && CountsOk(states[i].reps[r].st)
  {
    RunInv(states, events, i);
    assert ReplicaOk(states[i], r);
  }

  /** Replicas that have applied the same calls have equal states. */
  lemma SameCallsSameState(states: seq<System>, events: seq<Event>, i: nat, q: nat, r: nat)
    requires IsRun(states, events) && i <= |events|
    requires q < |states[i].reps| && r < |states[i].reps|
    requires states[i].reps[q].pos == states[i].reps[r].pos && states[i].reps[q].regs == states[i].reps[r].regs
    ensures states[i].reps[q].st == states[i].reps[r].st
  {
    RunInv(states, events, i);
    assert ReplicaOk(states[i], q) && ReplicaOk(states[i], r);
  }

  /** The declared dependency is needed: without waiting for the registration, an
      enrollment that was permissible where issued breaks integrity elsewhere. */
  lemma DependencyIsNeeded(student: string, course: string)
    requires '-' !in student
    ensures var call := Enroll(student + "-" + course);
            var issuer := Execute(Execute(EMPTY, AddCourse(course)), AddStudent(student));
            var other := Execute(EMPTY, AddCourse(course));
            Permissible(issuer, call) && !Integrity(Execute(other, call))
  {
    var call := Enroll(student + "-" + course);
    Courseware.Text.FindIs(call.arg, '-', |student|);
    assert call.arg[..|student|] == student && call.arg[|student| + 1..] == course;
    var other := Execute(EMPTY, AddCourse(course));
    assert (student, course) in Execute(other, call).enrollments;
  }

  // ---------------------------------------------------------------------
  // Nothing stands in the way of agreement
  // ---------------------------------------------------------------------

  /** The run goes on by what is under way alone. */
  predicate GoesOnTo(states: seq<System>, events: seq<Event>, states': seq<System>, events': seq<Event>) {
    && IsRun(states, events) && IsRun(states', events') && states <= states' && events <= events'
    && forall i :: |events| <= i < |events'| ==> events'[i].Deliver? || events'[i].ApplyNext?
  }

  lemma OneMoreStep(states: seq<System>, events: seq<Event>, ev: Event)
    requires IsRun(states, events) && Enabled(states[|events|], ev)
    ensures IsRun(states + [Next(states[|events|], ev)], events + [ev])
  {
    var states', events' := states + [Next(states[|events|], ev)], events + [ev];
    forall i: nat | i < |events'| ensures StepAt(states', events', i) {
      if i < |events| { assert StepAt(states, events, i); }
    }
  }

  lemma GoesOneOn(states: seq<System>, events: seq<Event>, states1: seq<System>, events1: seq<Event>, ev: Event)
    requires GoesOnTo(states, events, states1, events1) && Enabled(states1[|events1|], ev)
    requires ev.Deliver? || ev.ApplyNext?
    ensures GoesOnTo(states, events, states1 + [Next(states1[|events1|], ev)], events1 + [ev])
  {
    OneMoreStep(states1, events1, ev);
  }

  lemma GoesOnJoin(x: seq<System>, e: seq<Event>, x1: seq<System>, e1: seq<Event>, x2: seq<System>, e2: seq<Event>)
    requires GoesOnTo(x, e, x1, e1) && GoesOnTo(x1, e1, x2, e2)
    ensures GoesOnTo(x, e, x2, e2)
  {
    hide IsRun;
  }

  /** Nothing new is issued, and only replica r moves. */
  predicate OnlyMoves(s: System, s': System, r: nat) {
    && s'.order == s.order && s'.registered == s.registered && |s'.reps| == |s.reps|
    && forall q :: 0 <= q < |s.reps| && q != r ==> s'.reps[q] == s.reps[q]
  }

  /** Replica r receives the first n registrations. */
  lemma {:induction false} ReceivesUpTo(states: seq<System>, events: seq<Event>, r: nat, n: nat)
    returns (states': seq<System>, events': seq<Event>)
    requires IsRun(states, events) && r < |states[|events|].reps| && n <= |states[|events|].registered|
    ensures GoesOnTo(states, events, states', events') && OnlyMoves(states[|events|], states'[|events'|], r)
    ensures forall k :: 0 <= k < n ==> k in states'[|events'|].reps[r].regs
  {
    if n == 0 {
      states', events' := states, events;
    } else {
      var states1, events1 := ReceivesUpTo(states, events, r, n - 1);
      var s1 := states1[|events1|];
      RunInv(states1, events1, |events1|);
      hide Inv, Execute, Permissible;
      if n - 1 in s1.reps[r].regs {
        states', events' := states1, events1;
      } else {
        var ev := Deliver(r, n - 1);
        assert Enabled(s1, ev);
        GoesOneOn(states, events, states1, events1, ev);
        states', events' := states1 + [Next(s1, ev)], events1 + [ev];
      }
    }
  }

  /** Once it has received everything it can apply the whole common order. */
  lemma {:induction false} AppliesOrder(states: seq<System>, events: seq<Event>, r: nat)
    returns (states': seq<System>, events': seq<Event>)
    requires IsRun(states, events) && r < |states[|events|].reps|
    requires forall k :: 0 <= k < |states[|events|].registered| ==> k in states[|events|].reps[r].regs
    ensures GoesOnTo(states, events, states', events') && OnlyMoves(states[|events|], states'[|events'|], r)
    ensures states'[|events'|].reps[r].regs == states[|events|].reps[r].regs
    ensures states'[|events'|].reps[r].pos == |states[|events|].order|
    decreases |states[|events|].order| - states[|events|].reps[r].pos
  {
    var s := states[|events|];
    RunInv(states, events, |events|);
    assert ReplicaOk(s, r);
    if s.reps[r].pos == |s.order| {
      states', events' := states, events;
    } else {
      var ev := ApplyNext(r);
      assert OrderedOk(s, s.reps[r].pos);
      assert Enabled(s, ev);
      hide Inv, Execute, Permissible, ReplicaOk, OrderedOk;
      GoesOneOn(states, events, states, events, ev);
      var states1, events1 := states + [Next(s, ev)], events + [ev];
      states', events' := AppliesOrder(states1, events1, r);
      GoesOnJoin(states, events, states1, events1, states', events');
    }
  }

  /** Replica r has received and applied everything. */
  predicate UpToDate(s: System, r: nat)
    requires r < |s.reps|
  {
    s.reps[r].pos == |s.order| && forall k :: 0 <= k < |s.registered| ==> k in s.reps[r].regs
  }

  /** The first m replicas catch up. */
  lemma {:induction false} AllCatchUp(states: seq<System>, events: seq<Event>, m: nat)
    returns (states': seq<System>, events': seq<Event>)
    requires IsRun(states, events) && m <= |states[|events|].reps|
    ensures GoesOnTo(states, events, states', events')
    ensures var s, s' := states[|events|], states'[|events'|];
            && s'.order == s.order && s'.registered == s.registered && |s'.reps| == |s.reps|
            && forall r :: 0 <= r < m ==> UpToDate(s', r)
  {
    if m == 0 {
      states', events' := states, events;
    } else {
      hide IsRun;
      var states1, events1 := AllCatchUp(states, events, m - 1);
      assert IsRun(states1, events1);
      var states2, events2 := ReceivesUpTo(states1, events1, m - 1, |states[|events|].registered|);
      GoesOnJoin(states, events, states1, events1, states2, events2);
      states', events' := AppliesOrder(states2, events2, m - 1);
      GoesOnJoin(states, events, states2, events2, states', events');
      var s1, s' := states1[|events1|], states'[|events'|];
      forall r | 0 <= r < m ensures UpToDate(s', r) {
        if r < m - 1 {
          assert UpToDate(s1, r) && s'.reps[r] == s1.reps[r];
        }
      }
    }
  }

  /** AGREEMENT IS ALWAYS POSSIBLE.  Every run can go on, by what is under way alone, until
      all replicas have applied everything, and then they are in one state. */
  lemma CanAgree(states: seq<System>, events: seq<Event>) returns (states': seq<System>, events': seq<Event>)
    requires IsRun(states, events)
    ensures GoesOnTo(states, events, states', events')
    ensures var s, s' := states[|events|], states'[|events'|];
            && s'.order == s.order && s'.registered == s.registered && |s'.reps| == |s.reps|
            && (forall r :: 0 <= r < |s'.reps| ==> UpToDate(s', r))
            && (forall q, r :: 0 <= q < |s'.reps| && 0 <= r < |s'.reps| ==> s'.reps[q].st == s'.reps[r].st)
  {
    states', events' := AllCatchUp(states, events, |states[|events|].reps|);
    var s' := states'[|events'|];
    RunInv(states', events', |events'|);
    forall q, r | 0 <= q < |s'.reps| && 0 <= r < |s'.reps| ensures s'.reps[q].st == s'.reps[r].st {
      assert ReplicaOk(s', q) && ReplicaOk(s', r) && UpToDate(s', q) && UpToDate(s', r);
      assert s'.reps[q].regs == s'.reps[r].regs;
      SameCallsSameState(states', events', |events'|, q, r);
    }
  }

  // ---------------------------------------------------------------------
  // A call takes effect everywhere
  // ---------------------------------------------------------------------

  /** The run goes on by this event, and then by what is under way. */
  predicate GoesOnBy(states: seq<System>, events: seq<Event>, ev: Event, states': seq<System>, events': seq<Event>) {
    && IsRun(states, events) && Enabled(states[|events|], ev)
    && GoesOnTo(states + [Next(states[|events|], ev)], events + [ev], states', events')
  }

  /** What the replicas hold depends on nothing but what they have applied. */
  lemma SameApplied(s: System, s': System, r: nat, q: nat)
    requires Inv(s) && Inv(s') && s'.order == s.order && s'.registered == s.registered
    requires r < |s.reps| && q < |s'.reps| && UpToDate(s, r) && UpToDate(s', q)
    ensures s'.reps[q].st == s.reps[r].st
  {
    assert ReplicaOk(s, r) && ReplicaOk(s', q);
    assert s'.reps[q].regs == s.reps[r].regs;
  }

  /** A CALL TAKES EFFECT EVERYWHERE.  Where all replicas are up to date, any of them can
      take any call that keeps integrity, and then, by what is under way alone, all
      come to hold what that call makes of the state they held. */
  lemma CallTakesEffect(states: seq<System>, events: seq<Event>, r: nat, call: Call)
    returns (ev: Event, states': seq<System>, events': seq<Event>)
    requires IsRun(states, events) && r < |states[|events|].reps| && !call.Query?
    requires forall q :: 0 <= q < |states[|events|].reps| ==> UpToDate(states[|events|], q)
    requires Integrity(Execute(states[|events|].reps[r].st, call))
    ensures ev.r == r && GoesOnBy(states, events, ev, states', events')
    ensures var s, s' := states[|events|], states'[|events'|];
            |s'.reps| == |s.reps| && forall q :: 0 <= q < |s'.reps| ==> s'.reps[q].st == Execute(s.reps[r].st, call)
  {
    var s := states[|events|];
    RunInv(states, events, |events|);
    assert ReplicaOk(s, r) && UpToDate(s, r);
    PermissibleKeepsIntegrity(s.reps[r].st, call);
    ev := if call.AddStudent? then Register(r, call.arg) else Issue(r, call);
    hide Inv, Integrity, CountsOk, Permissible, Execute;
    OneMoreStep(states, events, ev);
    var s1 := Next(s, ev);
    states', events' := CanAgree(states + [s1], events + [ev]);
    var s' := states'[|events'|];
    RunInv(states + [s1], events + [ev], |events| + 1);
    RunInv(states', events', |events'|);
    assert UpToDate(s1, r);
    forall q | 0 <= q < |s'.reps| ensures s'.reps[q].st == s1.reps[r].st {
      SameApplied(s1, s', r, q);
    }
  }
}
