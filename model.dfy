/**
 * The backend's persistent entities (backend/.../model): users with their roles, roles, PDIs and
 * feedbacks, and what a `Usuario` answers to Spring Security as `UserDetails`.
 *
 * Ids are the database identities (`Long`); a reference to another entity is held as that entity's
 * id. Nullable columns are `Option`s. Dates are left out of PDIs; a feedback's `dataEnvio` is an
 * `int` timestamp, larger meaning later.
 */
module Model {
  import opened Wrappers
  import Sets

  const ROLE_ADMIN := "ROLE_ADMIN"
  const ROLE_MANAGER := "ROLE_MANAGER"
  const ROLE_COLLABORATOR := "ROLE_COLLABORATOR"

  datatype Role = Role(id: int, name: string)

  /** A user; `senha` is the encoded password, `roles` the rows of the `usuario_roles` join table. */
  datatype Usuario = Usuario(
    id: int,
    nome: string,
    email: string,
    senha: string,
    cargo: Option<string>,
    area: Option<string>,
    roles: set<Role>)

  /** `PDI.StatusPDI`. */
  datatype StatusPdi = Planejado | EmAndamento | Concluido | Cancelado | Atrasado

  /** The name under which `@Enumerated(EnumType.STRING)` stores a status. */
  function StatusName(s: StatusPdi): string {
    match s
    case Planejado => "PLANEJADO"
    case EmAndamento => "EM_ANDAMENTO"
    case Concluido => "CONCLUIDO"
    case Cancelado => "CANCELADO"
    case Atrasado => "ATRASADO"
  }

  /** Different statuses are stored under different names, so the stored name identifies the status. */
  lemma StatusNamesAreDistinct(a: StatusPdi, b: StatusPdi)
    requires StatusName(a) == StatusName(b)
    ensures a == b
  {
    var x, y := StatusName(a), StatusName(b);
    assert x[0] == y[0] && x[1] == y[1];
  }

  /** A PDI; its goals and dates are not part of this model. */
  datatype Pdi = Pdi(
    id: int,
    colaboradorId: int,
    titulo: string,
    descricaoGeral: Option<string>,
    status: Option<StatusPdi>)

  /** A feedback from `autorId` to `destinatarioId`, with the fields the analysis step fills in. */
  datatype Feedback = Feedback(
    id: int,
    autorId: int,
    destinatarioId: int,
    feedbackTextual: Option<string>,
    habilidadesUtilizadas: Option<string>,
    dificuldadesEncontradas: Option<string>,
    interessesAprendizado: Option<string>,
    dataEnvio: int,
    sentimentoAnalisado: Option<string>,
    categoriaDificuldadeAnalisada: Option<string>,
    metaSugeridaIA: Option<string>,
    cursoRecomendadoIA: Option<string>,
    mentorIndicadoIA: Option<string>)

  function RoleName(r: Role): string {
    r.name
  }

  /** `getAuthorities`: one authority per role, named by the role's name. */
  function GetAuthorities(u: Usuario): (authorities: set<string>)
    ensures forall r :: r in u.roles ==> r.name in authorities
    ensures forall a :: a in authorities ==> exists r :: r in u.roles && r.name == a
    ensures |authorities| <= |u.roles|
  {
    Sets.ImageNoLarger(u.roles, RoleName);
    Sets.Image(u.roles, RoleName)
  }

  /** With role names unique (as the `roles` table demands), there are exactly as many authorities as roles. */
  lemma OneAuthorityPerRole(u: Usuario)
    requires forall r, s :: r in u.roles && s in u.roles && r.name == s.name ==> r == s
    ensures |GetAuthorities(u)| == |u.roles|
  {
    Sets.ImageOfInjectiveKeepsSize(u.roles, RoleName);
  }

  /** `getUsername`: a user signs in with their email. */
  function GetUsername(u: Usuario): (username: string)
    ensures username == u.email
  {
    u.email
  }

  /** `getPassword`: the stored (encoded) password. */
  function GetPassword(u: Usuario): (password: string)
    ensures password == u.senha
  {
    u.senha
  }

  /** The four account-status flags, which no user ever fails. */
  function IsAccountNonExpired(u: Usuario): (flag: bool)
    ensures flag
  {
    true
  }

  function IsAccountNonLocked(u: Usuario): (flag: bool)
    ensures flag
  {
    true
  }

  function IsCredentialsNonExpired(u: Usuario): (flag: bool)
    ensures flag
  {
    true
  }

  function IsEnabled(u: Usuario): (flag: bool)
    ensures flag
  {
    true
  }
}
