/** The in-memory data the application starts from: the initial public-site
    content, the three mock accounts, the one mock student and the one mock
    class. */
module MockData {
  import opened Common
  import opened Types

  const InitialSlides: seq<SiteSlide> :=
    [ SiteSlide("1", "https://images.unsplash.com/photo-1503676260728-1c00da094a0b?auto=format&fit=crop&q=80&w=1200",
                "Espaço Criativo", "Ambientes desenhados para a imaginação."),
      SiteSlide("2", "https://images.unsplash.com/photo-1544367567-0f2fcb009e0b?auto=format&fit=crop&q=80&w=1200",
                "Esporte e Lazer", "Desenvolvimento físico e social integral.") ]

  const InitialGallery: seq<string> :=
    [ "https://images.unsplash.com/photo-1587654780291-39c9404d746b?auto=format&fit=crop&q=80&w=600",
      "https://images.unsplash.com/photo-1516627145497-ae6968895b74?auto=format&fit=crop&q=80&w=600",
      "https://images.unsplash.com/photo-1502086223501-7ea6ecd79368?auto=format&fit=crop&q=80&w=600" ]

  const InitialSiteTeachers: seq<SiteTeacher> :=
    [ SiteTeacher("t1", "Dra. Ana Paula", "Diretora Pedagógica", "https://i.pravatar.cc/150?u=ana"),
      SiteTeacher("t2", "Mestre Carlos", "Inovação Tech", "https://i.pravatar.cc/150?u=carlos"),
      SiteTeacher("t3", "Profª Julia", "Artes e Cultura", "https://i.pravatar.cc/150?u=julia") ]

  const EnrollmentPage: SitePage :=
    SitePage("p1", "Processo de Matrícula", "matricula",
             "O processo de matrícula para o ano letivo 2024/25 está aberto. Documentos necessários: Cópia do boletim de nascimento, 2 fotos tipo passe, e atestado de vacina atualizado.",
             true)

  const PrivacyPage: SitePage :=
    SitePage("p2", "Políticas de Privacidade", "privacidade",
             "Garantimos a segurança total dos dados dos nossos alunos e encarregados de educação.", true)

  const InitialContact: Contact :=
    Contact("Rua Comandante Gika, Luanda, Angola", "+244 923 000 000", "secretaria@erasmus.ao", None)

  const InitialFooter: Footer :=
    Footer("© 2024 Complexo Erasmus - Excelência em Educação Infantil.", Socials(Some("#"), Some("#"), Some("#")))

  const InitialSiteContent: SiteContent := SiteContent(
    "Complexo Erasmus",
    "ERASMUS",
    "Educação que Constrói o Futuro",
    "Onde cada criança descobre o seu potencial máximo através do afeto e da tecnologia.",
    "O Complexo Erasmus é referência em Luanda, oferecendo um currículo inovador focado no bilinguismo e competências do século XXI.",
    InitialSlides,
    InitialGallery,
    InitialSiteTeachers,
    [EnrollmentPage, PrivacyPage],
    InitialContact,
    InitialFooter)

  const AdminUser: User := User("admin-1", "Administrador Geral", "admin@erasmus.com", Admin, Some("923111000"), None)
  const TeacherUser: User := User("teacher-1", "Prof. Ricardo", "ricardo@erasmus.com", Teacher, Some("923222000"), None)
  const ParentUser: User := User("parent-1", "Sr. Silva", "pai@email.com", Parent, Some("923333000"), Some("s1"))

  const MockUsers: seq<User> := [AdminUser, TeacherUser, ParentUser]

  const Alice: Student := Student("s1", "Alice Santos", 6, "c1", "Sr. Silva", Active,
                                  GradeRecord(18.0, 15.0, 0.0, 0.0, 1), Some(98.0), Some(92.0))

  const MockStudents: seq<Student> := [Alice]

  const PreSchoolA: Class := Class("c1", "Pré-Escolar A", "teacher-1", "Sala 05", 20, 15)

  const MockClasses: seq<Class> := [PreSchoolA]
}
