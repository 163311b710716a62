module Courseware {
  // The courseware object: its operations, the count it keeps beside its
  // enrollments, and which of its operations get along.

  import opened Text

  datatype Call =
    | AddCourse(arg: string)
    | DeleteCourse(arg: string)
    | Enroll(arg: string)
    | AddStudent(arg: string)
    | Query

  datatype Campus = Campus(
    students: set<string>,
    courses: set<string>,
    enrollments: set<(string, string)>,
    counts: map<string, nat>    // course_enrollments
  )

  const EMPTY: Campus := Campus({}, {}, {}, map[])

  /** The argument of an enrollment is split at its first dash; without one, the
      whole argument is both parts. */
  function StudentOf(arg: string): string {
    arg[..Find(arg, '-')]
  }

  function CourseOf(arg: string): string {
    var k := Find(arg, '-');
    if k == |arg| then arg else arg[k + 1..]
  }

  function CountedFor(counts: map<string, nat>, course: string): nat {
    if course in counts then counts[course] else 0
  }

  function Execute(st: Campus, call: Call): Campus {
    match call
    case AddCourse(arg) => st.(courses := st.courses + {arg})
    case DeleteCourse(arg) => st.(courses := st.courses - {arg})
    case AddStudent(arg) => st.(students := st.students + {arg})
    case Query => st
    case Enroll(arg) =>
      var e := (StudentOf(arg), CourseOf(arg));
      if e in st.enrollments then st
      else
        st.(enrollments := st.enrollments + {e},
            counts := st.counts[e.1 := CountedFor(st.counts, e.1) + 1])
  }

  predicate Permissible(st: Campus, call: Call) {
    match call
    case DeleteCourse(arg) => CountedFor(st.counts, arg) == 0
    case Enroll(arg) => StudentOf(arg) in st.students && CourseOf(arg) in st.courses
    case _ => true
  }

  /** Which facts a call makes and unmakes: no other. */
  lemma CallsDo(st: Campus, call: Call, x: string, e: (string, string))
    ensures var st' := Execute(st, call);
            && (x in st'.students <==> x in st.students || call == AddStudent(x))
            && (x in st'.courses <==> (x in st.courses && call != DeleteCourse(x)) || call == AddCourse(x))
            && (e in st'.enrollments <==>
                e in st.enrollments || (call.Enroll? && e == (StudentOf(call.arg), CourseOf(call.arg))))
  {
  }

  /** The argument of an enrollment falls apart at its first dash, or is both parts. */
  lemma ArgumentSplit(arg: string)
    ensures '-' in arg ==> '-' !in StudentOf(arg) && arg == StudentOf(arg) + "-" + CourseOf(arg)
    ensures '-' !in arg ==> StudentOf(arg) == CourseOf(arg) == arg
  {
    var k := Find(arg, '-');
    if k < |arg| {
      assert arg == arg[..k] + [arg[k]] + arg[k + 1..];
    } else {
      assert arg[..k] == arg;
    }
  }

  /** Every enrollment names a student and a course that exist. */
  predicate Integrity(st: Campus) {
    forall e :: e in st.enrollments ==> e.0 in st.students && e.1 in st.courses
  }

  function EnrolledIn(st: Campus, course: string): set<(string, string)> {
    set e | e in st.enrollments && e.1 == course
  }

  /** The count kept for a course is the number of enrollments naming it. */
  ghost predicate CountsOk(st: Campus) {
    forall course :: CountedFor(st.counts, course) == |EnrolledIn(st, course)|
  }

  lemma CountsStayOk(st: Campus, call: Call)
    requires CountsOk(st)
    ensures CountsOk(Execute(st, call))
  {
    hide StudentOf, CourseOf, EnrolledIn;
    var st' := Execute(st, call);
    forall course
      ensures CountedFor(st'.counts, course) == |EnrolledIn(st', course)|
    {
      if st'.enrollments != st.enrollments {
        OneEnrolledMore(st, st', (StudentOf(call.arg), CourseOf(call.arg)), course);
      }
      SameEnrolled(st, st', course);
    }
  }

  lemma OneEnrolledMore(st: Campus, st': Campus, e: (string, string), course: string)
    requires e !in st.enrollments && st'.enrollments == st.enrollments + {e}
    ensures |EnrolledIn(st', course)| == |EnrolledIn(st, course)| + if e.1 == course then 1 else 0
  {
    assert EnrolledIn(st', course) == EnrolledIn(st, course) + if e.1 == course then {e} else {};
  }

  lemma SameEnrolled(st: Campus, st': Campus, course: string)
    ensures st'.enrollments == st.enrollments ==> EnrolledIn(st', course) == EnrolledIn(st, course)
  {}

  /** So a permissible deletion is of a course nobody is enrolled in. */
  lemma DeletableIsUnused(st: Campus, course: string)
    requires CountsOk(st)
    ensures Permissible(st, DeleteCourse(course)) <==> forall e :: e in st.enrollments ==> e.1 != course
  {
    if forall e :: e in st.enrollments ==> e.1 != course {
      assert EnrolledIn(st, course) == {};
    } else {
      var e :| e in st.enrollments && e.1 == course;
      assert e in EnrolledIn(st, course);
    }
  }

  /** The check refuses no call without need, and lets none through that does harm:
      where integrity holds, permissible are just the calls that keep it. */
  lemma PermissibleKeepsIntegrity(st: Campus, call: Call)
    requires Integrity(st) && CountsOk(st)
    ensures Permissible(st, call) <==> Integrity(Execute(st, call))
  {
    match call
    case DeleteCourse(arg) => DeletableIsUnused(st, arg);
    case Enroll(arg) =>
      assert (StudentOf(arg), CourseOf(arg)) in Execute(st, call).enrollments;
    case _ =>
  }

  // ---------------------------------------------------------------------
  // Which calls need coordination
  // ---------------------------------------------------------------------

  predicate Commute(st: Campus, a: Call, b: Call) {
    Execute(Execute(st, a), b) == Execute(Execute(st, b), a)
  }

  /** Registrations are outside every synchronization group, and rightly so: they
      commute with every call and leave it permissible. */
  lemma RegistrationIsFree(st: Campus, student: string, call: Call)
    ensures Commute(st, AddStudent(student), call)
    ensures Permissible(st, call) ==> Permissible(Execute(st, AddStudent(student)), call)
  {
  }

  /** Adding and deleting get along exactly on different courses. */
  lemma AddDeleteConflict(st: Campus, a: string, b: string)
    ensures Commute(st, AddCourse(a), DeleteCourse(b)) <==> a != b
  {
    if a == b {
      assert a in Execute(Execute(st, DeleteCourse(b)), AddCourse(a)).courses;
    }
  }

  /** An enrollment and a deletion, both permissible, undo each other's permission
      exactly on the same course. */
  lemma EnrollDeleteConflict(st: Campus, arg: string, course: string)
    requires CountsOk(st) && Permissible(st, Enroll(arg)) && Permissible(st, DeleteCourse(course))
    ensures Permissible(Execute(st, DeleteCourse(course)), Enroll(arg)) <==> CourseOf(arg) != course
    ensures Permissible(Execute(st, Enroll(arg)), DeleteCourse(course)) <==> CourseOf(arg) != course
  {
    DeletableIsUnused(st, course);
    CountsStayOk(st, Enroll(arg));
    DeletableIsUnused(Execute(st, Enroll(arg)), course);
    if CourseOf(arg) == course {
      assert (StudentOf(arg), course) in Execute(st, Enroll(arg)).enrollments;
    }
  }

  // ---------------------------------------------------------------------
  // The object
  // ---------------------------------------------------------------------

  class CoursewareObject {
    var students: set<string>
    var courses: set<string>
    var enrollments: set<(string, string)>
    var courseEnrollments: map<string, nat>

    constructor ()
      ensures State() == EMPTY && Valid()
    {
      students, courses, enrollments, courseEnrollments := {}, {}, {}, map[];
      new;
      assert forall c :: EnrolledIn(EMPTY, c) == {};
    }

    function State(): Campus
      reads this
    {
      Campus(students, courses, enrollments, courseEnrollments)
    }

    ghost predicate Valid()
      reads this
    {
      CountsOk(State())
    }

    method AddCourse(arg: string)
      modifies this`courses
      ensures courses == old(courses) + {arg}
    {
      courses := courses + {arg};
    }

    method DeleteCourse(arg: string)
      modifies this`courses
      ensures courses == old(courses) - {arg}
    {
      courses := courses - {arg};
    }

    method Enroll(student: string, course: string)
      requires Valid()
      modifies this`enrollments, this`courseEnrollments
      ensures Valid() && enrollments == old(enrollments) + {(student, course)}
      ensures (student, course) in old(enrollments) ==> courseEnrollments == old(courseEnrollments)
      ensures (student, course) !in old(enrollments) ==>
                courseEnrollments == old(courseEnrollments)[course := CountedFor(old(courseEnrollments), course) + 1]
    {
      ghost var before := State();
      var inserted := (student, course) !in enrollments;
      enrollments := enrollments + {(student, course)};
      if inserted {
        if course !in courseEnrollments {
          courseEnrollments := courseEnrollments[course := 0];
        }
        courseEnrollments := courseEnrollments[course := courseEnrollments[course] + 1];
      } else {
        assert enrollments == before.enrollments;
      }
      hide EnrolledIn;
      forall c
        ensures CountedFor(courseEnrollments, c) == |EnrolledIn(State(), c)|
      {
        if inserted {
          OneEnrolledMore(before, State(), (student, course), c);
        }
        SameEnrolled(before, State(), c);
      }
    }

    method RegisterStudent(arg: string)
      modifies this`students
      ensures students == old(students) + {arg}
    {
      students := students + {arg};
    }

    method Dispatch(call: Call)
      requires Valid()
      modifies this
      ensures Valid() && State() == Execute(old(State()), call)
    {
      ghost var before := State();
      CountsStayOk(before, call);
      match call {
        case AddCourse(arg) => AddCourse(arg);
        case DeleteCourse(arg) => DeleteCourse(arg);
        case AddStudent(arg) => RegisterStudent(arg);
        case Query =>
        case Enroll(arg) =>
          var index := Find(arg, '-');
          var student := arg[..index];
          var course := if index == |arg| then arg else arg[index + 1..];
          Enroll(student, course);
          assert (student, course) in before.enrollments ==> enrollments == before.enrollments;
      }
    }

    method IsPermissible(call: Call) returns (ok: bool)
      requires Valid()
      ensures ok == Permissible(State(), call)
      ensures Integrity(State()) ==> (ok <==> Integrity(Execute(State(), call)))
    {
      if Integrity(State()) {
        PermissibleKeepsIntegrity(State(), call);
      }
      match call {
        case DeleteCourse(arg) =>
          ok := arg !in courseEnrollments || courseEnrollments[arg] == 0;
        case Enroll(arg) =>
          var index := Find(arg, '-');
          var student := arg[..index];
          var course := if index == |arg| then arg else arg[index + 1..];
          ok := student in students && course in courses;
        case _ => ok := true;
      }
    }
  }
}
