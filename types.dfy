/** The records the dashboards read and write: users and their roles, the
    editable public-site content with its extra pages, students with their
    grades, and classes. Numbers that the application treats as fractional
    (grades, percentages) are reals; counts are integers. */
module Types {
  import opened Common

  datatype UserRole = Admin | Director | Teacher | Staff | Parent | Public

  /** A user account. `studentId` links a parent to one student. The optional
      password, address, avatar and position fields play no part in any rule. */
  datatype User = User(
    id: string,
    name: string,
    email: string,
    role: UserRole,
    phone: Option<string>,
    studentId: Option<string>)

  datatype SitePage = SitePage(id: string, title: string, slug: string, content: string, active: bool)

  datatype SiteSlide = SiteSlide(id: string, image: string, title: string, subtitle: string)

  datatype SiteTeacher = SiteTeacher(id: string, name: string, role: string, photo: string)

  datatype Contact = Contact(address: string, phone: string, email: string, mapUrl: Option<string>)

  datatype Socials = Socials(facebook: Option<string>, instagram: Option<string>, linkedin: Option<string>)

  datatype Footer = Footer(text: string, socials: Socials)

  /** The single aggregate behind the public site, edited only by an administrator. */
  datatype SiteContent = SiteContent(
    institutionName: string,
    logo: string,
    heroTitle: string,
    heroSubtitle: string,
    aboutText: string,
    slides: seq<SiteSlide>,
    gallery: seq<string>,
    teachers: seq<SiteTeacher>,
    pages: seq<SitePage>,
    contact: Contact,
    footer: Footer)

  datatype GradeRecord = GradeRecord(q1: real, q2: real, q3: real, exam: real, absences: int)

  datatype StudentStatus = Active | Inactive

  datatype Student = Student(
    id: string,
    name: string,
    age: int,
    classId: string,
    parentName: string,
    status: StudentStatus,
    grades: GradeRecord,
    attendance: Option<real>,
    performance: Option<real>)

  datatype Class = Class(
    id: string,
    name: string,
    teacherId: string,
    room: string,
    capacity: int,
    currentStudents: int)
}
