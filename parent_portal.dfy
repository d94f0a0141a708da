/** The parent's portal: the report card of the student linked to the parent's
    account, and a message box whose messages stay on the page. The student
    list is an explicit argument. The id of a sent message is the time it was
    sent (`now`). */
module ParentPortal {
  import opened Common
  import opened Types
  import opened MockData

  /** `students.find(s => s.id === user.studentId)`. An account without a
      linked student matches nobody, since no id equals `undefined`. */
  function FindStudent(students: seq<Student>, studentId: Option<string>): (r: Option<Student>)
    ensures studentId.None? ==> r.None?
    ensures r.Some? ==> r.value in students && studentId == Some(r.value.id)
    ensures studentId.Some? && (exists s :: s in students && s.id == studentId.value) ==> r.Some?
    ensures r.Some? ==> exists i :: 0 <= i < |students| && students[i] == r.value &&
                                    forall j :: 0 <= j < i ==> students[j].id != r.value.id
  {
    match FindFirst(students, (s: Student) => Some(s.id) == studentId)
    case None => None
    case Some(i) => Some(students[i])
  }

  /** How a grade card shows its value. */
  datatype GradeDisplay = Dash | Value(grade: real)

  /** `q3 || '—'`: a third-quarter grade of 0 shows as a dash. */
  function Q3Display(q3: real): (d: GradeDisplay)
    ensures d == Dash <==> q3 == 0.0
    ensures d.Value? ==> d.grade == q3
  {
    if q3 == 0.0 then Dash else Value(q3)
  }

  /** The partial average: the first two quarters only, always divided by two. */
  function PartialAverage(g: GradeRecord): (avg: real)
    ensures (if g.q1 <= g.q2 then g.q1 else g.q2) <= avg <= (if g.q1 <= g.q2 then g.q2 else g.q1)
    ensures 2.0 * avg == g.q1 + g.q2
  {
    (g.q1 + g.q2) / 2.0
  }

  /** What the grades tab shows. */
  datatype ReportCard = ReportCard(
    q1: real,
    q2: real,
    q3: GradeDisplay,
    absences: int,
    average: real,
    status: string)

  const ApprovedBadge := "Aprovado"

  function Report(g: GradeRecord): (card: ReportCard)
    ensures card.q1 == g.q1 && card.q2 == g.q2 && card.absences == g.absences
    ensures card.q3 == Q3Display(g.q3) && card.average == PartialAverage(g)
    ensures card.status == ApprovedBadge
  {
    ReportCard(g.q1, g.q2, Q3Display(g.q3), g.absences, PartialAverage(g), ApprovedBadge)
  }

  /** Neither the third quarter nor the exam enters the average, and the
      badge reads `Aprovado` whatever the grades. */
  lemma AverageIgnoresQ3AndExam(g1: GradeRecord, g2: GradeRecord)
    requires g1.q1 == g2.q1 && g1.q2 == g2.q2
    ensures Report(g1).average == Report(g2).average
    ensures Report(g1).status == Report(g2).status
  {
  }

  /** The screens the portal can show. */
  datatype Screen = RestrictedAccess | Grades(student: Student, card: ReportCard)

  /** Without a linked student only the restricted-access screen shows;
      otherwise the linked student's report card. */
  function PortalScreen(students: seq<Student>, user: User): (v: Screen)
    ensures v.RestrictedAccess? <==> FindStudent(students, user.studentId).None?
    ensures v.Grades? ==> v.student in students && user.studentId == Some(v.student.id)
    ensures v.Grades? ==> FindStudent(students, user.studentId) == Some(v.student)
    ensures v.Grades? ==> v.card == Report(v.student.grades)
  {
    match FindStudent(students, user.studentId)
    case None => RestrictedAccess
    case Some(s) => Grades(s, Report(s.grades))
  }

  datatype Message = Message(id: int, sender: string, text: string, time: string)

  /** The sender name of the parent's own messages. */
  const OwnSender := "Você"

  const InitialMessages: seq<Message> :=
    [Message(1, "Prof. Ricardo", "Olá! A Alice teve um ótimo desempenho na atividade de hoje.", "09:30")]

  /** The message box's state. */
  class ChatState {
    var messages: seq<Message>
    var chatInput: string

    constructor()
      ensures messages == InitialMessages && chatInput == ""
    {
      messages := InitialMessages;
      chatInput := "";
    }

    /** Typing in the input box. */
    method SetChatInput(text: string)
      modifies this
      ensures chatInput == text && messages == old(messages)
    {
      chatInput := text;
    }

    /** `Enviar`. With an empty input nothing changes; otherwise exactly one
        message from `Você` with the input's text is appended and the input
        is cleared. */
    method Send(now: nat)
      modifies this
      ensures old(chatInput) == "" ==> messages == old(messages) && chatInput == old(chatInput)
      ensures old(chatInput) != "" ==>
                messages == old(messages) + [Message(now, OwnSender, old(chatInput), "Agora")]
      ensures chatInput == ""
      ensures |messages| <= |old(messages)| + 1 && messages[..|old(messages)|] == old(messages)
    {
      if chatInput == "" {
        return;
      }
      messages := messages + [Message(now, OwnSender, chatInput, "Agora")];
      chatInput := "";
    }
  }

  /** The mock parent sees Alice: an average of 16.5 and a dash for the third quarter. */
  lemma MockParentSeesAlice()
    ensures FindStudent(MockStudents, ParentUser.studentId) == Some(Alice)
    ensures PortalScreen(MockStudents, ParentUser) == Grades(Alice, Report(Alice.grades))
    ensures Report(Alice.grades).average == 16.5
    ensures Report(Alice.grades).q3 == Dash
  {
  }

  /** On the mock students, an account with no linked student, or a link to
      any id other than Alice's, gets the restricted-access screen. */
  lemma UnlinkedParentRestricted(user: User)
    requires user.studentId != Some("s1")
    ensures PortalScreen(MockStudents, user) == RestrictedAccess
  {
  }
}
