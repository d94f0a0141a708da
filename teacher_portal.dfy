/** The teacher's portal: the classes the teacher sees, the students of the
    selected class, the day's attendance toggles, and the state around a
    request to the pedagogical assistant. The assistant's reply is the
    argument of `FinishAiConsult`; the portal reads the class and student
    lists it is given and never changes them. */
module TeacherPortal {
  import opened Common
  import opened Types
  import opened MockData

  /** The one account that gets the fallback classes (compared case-sensitively). */
  const FallbackEmail := "ricardo@erasmus.com"

  function TaughtBy(teacherId: string): Class -> bool
  {
    (c: Class) => c.teacherId == teacherId
  }

  function TaughtByFallback(): Class -> bool
  {
    (c: Class) => c.teacherId == "teacher-1" || c.teacherId == "ricardo"
  }

  /** `teacherClasses`: the classes whose teacher is the user, in list order;
      when there are none and the email is the fallback one, the classes of
      `teacher-1` or `ricardo` instead. */
  function TeacherClasses(classes: seq<Class>, user: User): (r: seq<Class>)
    ensures forall c :: c in r ==> c in classes
  {
    var own := Filter(classes, TaughtBy(user.id));
    if |own| == 0 && user.email == FallbackEmail then Filter(classes, TaughtByFallback()) else own
  }

  /** What `TeacherClasses` contains, case by case. */
  lemma TeacherClassesMembership(classes: seq<Class>, user: User, c: Class)
    ensures (exists d :: d in classes && d.teacherId == user.id) ==>
              (c in TeacherClasses(classes, user) <==> c in classes && c.teacherId == user.id)
    ensures (forall d :: d in classes ==> d.teacherId != user.id) && user.email == FallbackEmail ==>
              (c in TeacherClasses(classes, user) <==>
                 c in classes && (c.teacherId == "teacher-1" || c.teacherId == "ricardo"))
    ensures (forall d :: d in classes ==> d.teacherId != user.id) && user.email != FallbackEmail ==>
              TeacherClasses(classes, user) == []
  {
    var own := Filter(classes, TaughtBy(user.id));
    if d :| d in classes && d.teacherId == user.id {
      FilterKeeps(classes, TaughtBy(user.id), d);
      if c in classes && c.teacherId == user.id {
        FilterKeeps(classes, TaughtBy(user.id), c);
      }
    } else {
      FilterNoneKept(classes, TaughtBy(user.id));
      if c in classes && (c.teacherId == "teacher-1" || c.teacherId == "ricardo") {
        FilterKeeps(classes, TaughtByFallback(), c);
      }
    }
  }

  /** The class selected when the portal opens: the first of the teacher's
      classes, or none (the empty id). */
  function InitialClassId(teacherClasses: seq<Class>): (id: string)
    ensures teacherClasses == [] ==> id == ""
    ensures teacherClasses != [] ==> id == teacherClasses[0].id
  {
    if |teacherClasses| > 0 then teacherClasses[0].id else ""
  }

  function InClass(classId: string): Student -> bool
  {
    (s: Student) => s.classId == classId
  }

  /** `currentClassStudents`: the students of the class, in list order. */
  function ClassStudents(students: seq<Student>, classId: string): (r: seq<Student>)
    ensures |r| <= |students|
    ensures forall s :: s in r ==> s in students && s.classId == classId
  {
    Filter(students, InClass(classId))
  }

  /** No student of the class is left out. */
  lemma ClassStudentsComplete(students: seq<Student>, classId: string, s: Student)
    requires s in students && s.classId == classId
    ensures s in ClassStudents(students, classId)
  {
    FilterKeeps(students, InClass(classId), s);
  }

  /** The heading of the attendance card: the selected class's name, or
      `Turma` when no class of the teacher has that id or its name is empty. */
  function ClassHeading(teacherClasses: seq<Class>, classId: string): (heading: string)
    ensures heading != ""
    ensures (forall c :: c in teacherClasses ==> c.id != classId) ==> heading == "Turma"
    ensures forall i :: 0 <= i < |teacherClasses| && teacherClasses[i].id == classId &&
                        (forall j :: 0 <= j < i ==> teacherClasses[j].id != classId) ==>
                          heading == (if teacherClasses[i].name != "" then teacherClasses[i].name else "Turma")
  {
    match Find(teacherClasses, (c: Class) => c.id == classId)
    case Some(c) => if c.name != "" then c.name else "Turma"
    case None => "Turma"
  }

  /** `{ ...prev, [id]: !prev[id] }`: the entry for `id` is negated, a missing
      entry counting as false; every other entry is unchanged. */
  function Toggle(attendance: map<string, bool>, id: string): (r: map<string, bool>)
    ensures id in r && r[id] == !(id in attendance && attendance[id])
    ensures r.Keys == attendance.Keys + {id}
    ensures forall k :: k in attendance && k != id ==> r[k] == attendance[k]
  {
    attendance[id := !(id in attendance && attendance[id])]
  }

  /** The badge rule: a student shows as present unless the entry is exactly false. */
  function IsPresent(attendance: map<string, bool>, id: string): (present: bool)
    ensures id !in attendance ==> present
    ensures id in attendance ==> (present <==> attendance[id])
  {
    !(id in attendance && !attendance[id])
  }

  /** The attendance map after `n` clicks on the same student. */
  function ToggleTimes(attendance: map<string, bool>, id: string, n: nat): map<string, bool>
  {
    if n == 0 then attendance else Toggle(ToggleTimes(attendance, id, n - 1), id)
  }

  /** A toggle changes the badge only of the student clicked. */
  lemma ToggleOthersUnchanged(attendance: map<string, bool>, id: string, other: string)
    requires other != id
    ensures IsPresent(Toggle(attendance, id), other) == IsPresent(attendance, other)
  {
  }

  /** Once a student has an entry, every click flips the badge. */
  lemma ToggleFlipsRecorded(attendance: map<string, bool>, id: string)
    requires id in attendance
    ensures IsPresent(Toggle(attendance, id), id) == !IsPresent(attendance, id)
  {
  }

  /** For a student nobody has clicked yet, the badge reads present after no
      clicks or an odd number of clicks, and absent after an even, non-zero
      number: the first click leaves the badge as it was. */
  lemma {:induction false} ToggleTimesUntouched(attendance: map<string, bool>, id: string, n: nat)
    requires id !in attendance
    ensures n > 0 ==> id in ToggleTimes(attendance, id, n) && ToggleTimes(attendance, id, n)[id] == (n % 2 == 1)
    ensures IsPresent(ToggleTimes(attendance, id, n), id) <==> n == 0 || n % 2 == 1
  {
    if n > 0 {
      ToggleTimesUntouched(attendance, id, n - 1);
    }
  }

  /** The quirk spelled out: the first click still shows `PRESENTE`, the
      second shows `AUSENTE`. */
  lemma FirstToggleStillPresent(attendance: map<string, bool>, id: string)
    requires id !in attendance
    ensures IsPresent(attendance, id)
    ensures IsPresent(Toggle(attendance, id), id)
    ensures !IsPresent(Toggle(Toggle(attendance, id), id), id)
  {
    ToggleTimesUntouched(attendance, id, 1);
    ToggleTimesUntouched(attendance, id, 2);
  }

  /** The portal's state. */
  class PortalState {
    const user: User
    const teacherClasses: seq<Class>
    const students: seq<Student>
    var selectedClassId: string
    var attendance: map<string, bool>
    var selectedStudentForAI: Option<Student>
    var aiInsight: string
    var loadingAi: bool

    /** The portal opens on the teacher's first class, with no attendance
        recorded and no consultation under way. */
    constructor(user: User, allClasses: seq<Class>, allStudents: seq<Student>)
      ensures this.user == user && teacherClasses == TeacherClasses(allClasses, user)
      ensures students == allStudents
      ensures selectedClassId == InitialClassId(teacherClasses)
      ensures attendance == map[]
      ensures selectedStudentForAI == None && aiInsight == "" && !loadingAi
    {
      this.user := user;
      var classes := TeacherClasses(allClasses, user);
      teacherClasses := classes;
      students := allStudents;
      selectedClassId := if |classes| > 0 then classes[0].id else "";
      attendance := map[];
      selectedStudentForAI := None;
      aiInsight := "";
      loadingAi := false;
    }

    /** The students listed for the selected class: exactly the students
        of that class. */
    function CurrentClassStudents(): (r: seq<Student>)
      reads this
      ensures forall s :: s in r <==> s in students && s.classId == selectedClassId
    {
      FilterMembership(students, InClass(selectedClassId));
      ClassStudents(students, selectedClassId)
    }

    /** Whether the student's badge reads `PRESENTE`: unless attendance
        records the student as exactly false. */
    function ShowsPresent(studentId: string): (present: bool)
      reads this
      ensures present <==> studentId !in attendance || attendance[studentId]
    {
      IsPresent(attendance, studentId)
    }

    /** Choosing a class in the selector or with `Gerenciar Turma`. */
    method SelectClass(classId: string)
      modifies this
      ensures selectedClassId == classId && attendance == old(attendance)
      ensures selectedStudentForAI == old(selectedStudentForAI)
      ensures aiInsight == old(aiInsight) && loadingAi == old(loadingAi)
    {
      selectedClassId := classId;
    }

    /** `handleAttendanceToggle`. */
    method ToggleAttendance(studentId: string)
      modifies this
      ensures attendance == Toggle(old(attendance), studentId)
      ensures forall k :: k != studentId ==> ShowsPresent(k) == old(ShowsPresent(k))
      ensures selectedClassId == old(selectedClassId)
      ensures selectedStudentForAI == old(selectedStudentForAI)
      ensures aiInsight == old(aiInsight) && loadingAi == old(loadingAi)
    {
      attendance := attendance[studentId := !(studentId in attendance && attendance[studentId])];
    }

    /** The first half of `handleAiConsult`, before the request is sent: the
        student is selected, the spinner shows and the old reply is cleared. */
    method BeginAiConsult(student: Student)
      modifies this
      ensures selectedStudentForAI == Some(student) && loadingAi && aiInsight == ""
      ensures selectedClassId == old(selectedClassId) && attendance == old(attendance)
    {
      selectedStudentForAI := Some(student);
      loadingAi := true;
      aiInsight := "";
    }

    /** The second half, when the reply arrives: it is shown and the spinner stops. */
    method FinishAiConsult(insight: string)
      modifies this
      ensures aiInsight == insight && !loadingAi
      ensures selectedStudentForAI == old(selectedStudentForAI)
      ensures selectedClassId == old(selectedClassId) && attendance == old(attendance)
    {
      aiInsight := insight;
      loadingAi := false;
    }

    /** `Nova Consulta`: the student and the reply are cleared. */
    method NewConsult()
      modifies this
      ensures selectedStudentForAI == None && aiInsight == ""
      ensures loadingAi == old(loadingAi)
      ensures selectedClassId == old(selectedClassId) && attendance == old(attendance)
    {
      selectedStudentForAI := None;
      aiInsight := "";
    }
  }

  /** The mock teacher teaches the mock class, whose one student is Alice. */
  lemma MockTeacherSeesAlice()
    ensures TeacherClasses(MockClasses, TeacherUser) == [PreSchoolA]
    ensures InitialClassId([PreSchoolA]) == "c1"
    ensures ClassStudents(MockStudents, "c1") == [Alice]
  {
    assert MockClasses[1..] == [];
    assert MockStudents[1..] == [];
  }

  /** An account with the fallback email but another id still gets the mock
      class; the same email in other letter case gets nothing. */
  lemma FallbackByExactEmail(id: string)
    requires id != "teacher-1"
    ensures TeacherClasses(MockClasses, User(id, "Prof. Ricardo", "ricardo@erasmus.com", Teacher, None, None))
            == [PreSchoolA]
    ensures TeacherClasses(MockClasses, User(id, "Prof. Ricardo", "Ricardo@erasmus.com", Teacher, None, None))
            == []
  {
    assert MockClasses[1..] == [];
    assert "Ricardo@erasmus.com"[0] != FallbackEmail[0];
  }
}
