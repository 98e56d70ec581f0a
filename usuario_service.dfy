/**
 * The user service (backend/.../service/UsuarioService.java): creation with the unique-email check
 * and the default collaborator role, the idempotent admin seed, listing and lookups, update with
 * the keep-the-old-password rule, and deletion of an existing user.
 *
 * Each operation is specified by a function from the database before the call to the database
 * after it and what the call returned or threw; the class `Service` does the same work step by
 * step on the repositories. A call that throws leaves the database as it was (every write method
 * is `@Transactional`). `PasswordEncoder.encode` is the parameter `encode`.
 */
module UsuarioService {
  import opened Wrappers
  import Text
  import Sets
  import opened Model
  import opened Store
  import opened Dto
  import opened UsuarioRepository

  const EMAIL_IN_USE := "Erro: Email já está em uso!"
  const DEFAULT_ROLE_MISSING := "Erro: Papel padrão 'ROLE_COLLABORATOR' não encontrado."
  const ADMIN_ROLE_MISSING := "Erro: Papel 'ROLE_ADMIN' não encontrado."
  const NOT_FOUND_PREFIX := "Usuário não encontrado com ID: "

  const ADMIN_EMAIL := "admin@admin.com"
  const ADMIN_NAME := "Administrador"
  const ADMIN_PASSWORD := "admin123"
  const ADMIN_CARGO := "SysAdmin"
  const ADMIN_AREA := "TI"

  /** The exception for an unknown user id. */
  function UserNotFound(id: int): Failure {
    NotFoundError(NOT_FOUND_PREFIX, id)
  }

  /** `convertToDTO`: the user's public fields and role names; the password never leaves. */
  function ConvertToDto(u: Usuario): (dto: UsuarioDto)
    ensures dto.id == Some(u.id) && dto.senha.None?
    ensures dto.nome == u.nome && dto.email == u.email && dto.cargo == u.cargo && dto.area == u.area
    ensures dto.roles == GetAuthorities(u)
  {
    UsuarioDto(Some(u.id), u.nome, u.email, None, u.cargo, u.area, GetAuthorities(u))
  }

  /** The database with `u` saved as a new row under the next identity value. */
  function Inserted(db: Db, u: Usuario): Db {
    db.(usuarios := db.usuarios[db.nextUsuarioId := u.(id := db.nextUsuarioId)],
        nextUsuarioId := db.nextUsuarioId + 1)
  }

  /**
   * `criarUsuario`. Checked in order: the email is free, the password is not null (the encoder
   * rejects null), the collaborator role exists. On success exactly one user is added, with a fresh
   * id, the given fields, the encoded password and the collaborator role as its only role.
   */
  function AfterCriarUsuario(db: Db, dto: UsuarioDto, encode: string -> string): (r: (Db, Result<UsuarioDto, Failure>))
    requires Valid(db)
    ensures ExistsByEmail(db.usuarios, dto.email) ==> r == (db, Err(RuntimeError(EMAIL_IN_USE)))
    ensures !ExistsByEmail(db.usuarios, dto.email) && dto.senha.None? ==> r == (db, Err(NullPassword))
    ensures (!ExistsByEmail(db.usuarios, dto.email) && dto.senha.Some? &&
             FindRoleByName(db.roles, ROLE_COLLABORATOR).None?) ==> r == (db, Err(RuntimeError(DEFAULT_ROLE_MISSING)))
    ensures r.1.Ok? <==> (!ExistsByEmail(db.usuarios, dto.email) && dto.senha.Some? &&
                          FindRoleByName(db.roles, ROLE_COLLABORATOR).Some?)
    ensures r.1.Ok? ==> (db.nextUsuarioId in r.0.usuarios && dto.senha.Some? &&
      var id := db.nextUsuarioId;
       var u := r.0.usuarios[id];
       id !in db.usuarios && r.0.usuarios == db.usuarios[id := u] &&
       r.0.roles == db.roles && r.0.feedbacks == db.feedbacks && r.0.pdis == db.pdis &&
       u.id == id && u.nome == dto.nome && u.email == dto.email && u.cargo == dto.cargo && u.area == dto.area &&
       u.senha == encode(dto.senha.value) && GetAuthorities(u) == {ROLE_COLLABORATOR} && |u.roles| == 1 &&
       r.1.value == ConvertToDto(u))
  {
    if ExistsByEmail(db.usuarios, dto.email) then (db, Err(RuntimeError(EMAIL_IN_USE)))
    else if dto.senha.None? then (db, Err(NullPassword))
    else match FindRoleByName(db.roles, ROLE_COLLABORATOR)
      case None => (db, Err(RuntimeError(DEFAULT_ROLE_MISSING)))
      case Some(role) =>
        var u := Usuario(db.nextUsuarioId, dto.nome, dto.email, encode(dto.senha.value), dto.cargo, dto.area, {role});
        assert GetAuthorities(u) == {ROLE_COLLABORATOR};
        (Inserted(db, u), Ok(ConvertToDto(u)))
  }

  /** Creating a user keeps every schema constraint, and the new user signs in with the encoded password. */
  lemma CriarUsuarioKeepsValid(db: Db, dto: UsuarioDto, encode: string -> string)
    requires Valid(db)
    ensures Valid(AfterCriarUsuario(db, dto, encode).0)
    ensures var r := AfterCriarUsuario(db, dto, encode);
            r.1.Ok? ==> GetPassword(r.0.usuarios[db.nextUsuarioId]) == encode(dto.senha.value)
  {
    var r := AfterCriarUsuario(db, dto, encode);
    if r.1.Ok? {
      var role := FindRoleByName(db.roles, ROLE_COLLABORATOR).value;
      assert role.id in db.roles && db.roles[role.id] == role;
      assert ReferencesResolve(r.0);
    }
  }

  /** Creating a user whose email is taken fails and changes nothing, whatever else the request holds. */
  lemma DuplicateEmailIsRejected(db: Db, dto: UsuarioDto, encode: string -> string, id: int)
    requires Valid(db) && id in db.usuarios && db.usuarios[id].email == dto.email
    ensures AfterCriarUsuario(db, dto, encode) == (db, Err(RuntimeError(EMAIL_IN_USE)))
  {
    assert ExistsByEmail(db.usuarios, dto.email);
  }

  /**
   * `criarAdminSeNaoExistir`: nothing happens when `admin@admin.com` exists; otherwise the
   * administrator is added with the admin role, or the call throws when that role is missing.
   */
  function AfterCriarAdminSeNaoExistir(db: Db, encode: string -> string): (r: (Db, Result<(), Failure>))
    requires Valid(db)
    ensures FindByEmail(db.usuarios, ADMIN_EMAIL).Some? ==> r == (db, Ok(()))
    ensures FindByEmail(db.usuarios, ADMIN_EMAIL).None? && FindRoleByName(db.roles, ROLE_ADMIN).None? ==>
      r == (db, Err(RuntimeError(ADMIN_ROLE_MISSING)))
    ensures FindByEmail(db.usuarios, ADMIN_EMAIL).None? && FindRoleByName(db.roles, ROLE_ADMIN).Some? ==>
      r.1.Ok? && db.nextUsuarioId in r.0.usuarios &&
      (var id := db.nextUsuarioId;
       var admin := r.0.usuarios[id];
       id !in db.usuarios && r.0.usuarios == db.usuarios[id := admin] &&
       r.0.roles == db.roles && r.0.feedbacks == db.feedbacks && r.0.pdis == db.pdis &&
       admin.email == ADMIN_EMAIL && admin.nome == ADMIN_NAME && admin.senha == encode(ADMIN_PASSWORD) &&
       admin.cargo == Some(ADMIN_CARGO) && admin.area == Some(ADMIN_AREA) &&
       GetAuthorities(admin) == {ROLE_ADMIN} && |admin.roles| == 1)
  {
    if FindByEmail(db.usuarios, ADMIN_EMAIL).None? then
      match FindRoleByName(db.roles, ROLE_ADMIN)
      case None => (db, Err(RuntimeError(ADMIN_ROLE_MISSING)))
      case Some(role) =>
        var admin := Usuario(db.nextUsuarioId, ADMIN_NAME, ADMIN_EMAIL, encode(ADMIN_PASSWORD),
                             Some(ADMIN_CARGO), Some(ADMIN_AREA), {role});
        assert GetAuthorities(admin) == {ROLE_ADMIN};
        (Inserted(db, admin), Ok(()))
    else (db, Ok(()))
  }

  /** The admin seed keeps every schema constraint. */
  lemma AdminSeedKeepsValid(db: Db, encode: string -> string)
    requires Valid(db)
    ensures Valid(AfterCriarAdminSeNaoExistir(db, encode).0)
  {
    var r := AfterCriarAdminSeNaoExistir(db, encode);
    if r.0 != db {
      var role := FindRoleByName(db.roles, ROLE_ADMIN).value;
      assert role.id in db.roles && db.roles[role.id] == role;
      assert ReferencesResolve(r.0);
      assert UniqueEmails(r.0.usuarios) by {
        assert !ExistsByEmail(db.usuarios, ADMIN_EMAIL);
      }
    }
  }

  /** Seeding the administrator twice leaves the database as seeding it once. */
  lemma AdminSeedIsIdempotent(db: Db, encode: string -> string)
    requires Valid(db)
    ensures var once := AfterCriarAdminSeNaoExistir(db, encode);
            once.1.Ok? ==> AfterCriarAdminSeNaoExistir(once.0, encode) == (once.0, Ok(()))
  {
    var once := AfterCriarAdminSeNaoExistir(db, encode);
    AdminSeedKeepsValid(db, encode);
    if once.1.Ok? && once.0 != db {
      assert once.0.usuarios[db.nextUsuarioId].email == ADMIN_EMAIL;
      assert ExistsByEmail(once.0.usuarios, ADMIN_EMAIL);
    }
  }

  /** `listarTodosUsuarios`: the DTO of every stored user (`findAll` fixes no order). */
  function ListarTodosUsuarios(db: Db): (dtos: set<UsuarioDto>)
    ensures forall u :: u in db.usuarios.Values ==> ConvertToDto(u) in dtos
    ensures forall d :: d in dtos ==> d.senha.None? && exists u :: u in db.usuarios.Values && d == ConvertToDto(u)
  {
    Sets.Image(db.usuarios.Values, ConvertToDto)
  }

  /** One DTO per stored user: the listing has exactly as many entries as the table has rows. */
  lemma ListingHasOneDtoPerUser(db: Db)
    requires IdsAreKeys(db)
    ensures |ListarTodosUsuarios(db)| == |db.usuarios|
  {
    assert forall k :: k in db.usuarios ==> IdOf(db.usuarios[k]) == k;
    Sets.KeyedValuesCount(db.usuarios, IdOf);
    assert Sets.InjectiveOn(db.usuarios.Values, ConvertToDto) by {
      forall u, v | u in db.usuarios.Values && v in db.usuarios.Values && ConvertToDto(u) == ConvertToDto(v)
        ensures u == v
      {
        var ku :| ku in db.usuarios && db.usuarios[ku] == u;
        var kv :| kv in db.usuarios && db.usuarios[kv] == v;
      }
    }
    Sets.ImageOfInjectiveKeepsSize(db.usuarios.Values, ConvertToDto);
  }

  function IdOf(u: Usuario): int {
    u.id
  }

  /** `buscarUsuarioPorId`. */
  function BuscarUsuarioPorId(db: Db, id: int): (r: Option<UsuarioDto>)
    ensures r.Some? <==> id in db.usuarios
    ensures r.Some? ==> r.value == ConvertToDto(db.usuarios[id])
  {
    if id in db.usuarios then Some(ConvertToDto(db.usuarios[id])) else None
  }

  /** `buscarUsuarioPorEmail`. */
  function BuscarUsuarioPorEmail(db: Db, email: string): (r: Option<UsuarioDto>)
    requires UniqueEmails(db.usuarios)
    ensures r.Some? <==> ExistsByEmail(db.usuarios, email)
    ensures forall id :: id in db.usuarios && db.usuarios[id].email == email ==>
              r == Some(ConvertToDto(db.usuarios[id]))
    ensures r.Some? ==> r.value.email == email && r.value.senha.None?
  {
    match FindByEmail(db.usuarios, email)
    case Some(u) => Some(ConvertToDto(u))
    case None => None
  }

  /** Another stored user already has this email. */
  predicate EmailUsedByOther(usuarios: map<int, Usuario>, id: int, email: string) {
    exists other :: other in usuarios && other != id && usuarios[other].email == email
  }

  /** The password to store on update: the new one encoded when given and non-empty, else the old one. */
  function NewSenha(current: string, senha: Option<string>, encode: string -> string): (s: string)
    ensures senha.Some? && senha.value != "" ==> s == encode(senha.value)
    ensures senha.None? || senha.value == "" ==> s == current
  {
    if senha.Some? && senha.value != "" then encode(senha.value) else current
  }

  /**
   * `atualizarUsuario`: an unknown id throws; otherwise name, email, position and area are
   * replaced, the roles kept, the password replaced only by a non-empty new one. An email that
   * belongs to another user makes the commit fail and nothing changes.
   */
  function AfterAtualizarUsuario(db: Db, id: int, dto: UsuarioDto, encode: string -> string): (r: (Db, Result<UsuarioDto, Failure>))
    ensures id !in db.usuarios ==> r == (db, Err(UserNotFound(id)))
    ensures id in db.usuarios && EmailUsedByOther(db.usuarios, id, dto.email) ==> r == (db, Err(EmailTaken))
    ensures r.1.Ok? <==> id in db.usuarios && !EmailUsedByOther(db.usuarios, id, dto.email)
    ensures r.1.Ok? ==> (id in db.usuarios && id in r.0.usuarios &&
      var previous := db.usuarios[id];
       var u := r.0.usuarios[id];
       r.0 == db.(usuarios := db.usuarios[id := u]) &&
       u.id == previous.id && u.roles == previous.roles &&
       u.nome == dto.nome && u.email == dto.email && u.cargo == dto.cargo && u.area == dto.area &&
       u.senha == NewSenha(previous.senha, dto.senha, encode) &&
       r.1.value == ConvertToDto(u))
  {
    if id !in db.usuarios then (db, Err(UserNotFound(id)))
    else
      var previous := db.usuarios[id];
      var u := previous.(nome := dto.nome, email := dto.email, cargo := dto.cargo, area := dto.area,
                    senha := NewSenha(previous.senha, dto.senha, encode));
      if EmailUsedByOther(db.usuarios, id, dto.email) then (db, Err(EmailTaken))
      else (db.(usuarios := db.usuarios[id := u]), Ok(ConvertToDto(u)))
  }

  /** Updating a user keeps every schema constraint. */
  lemma AtualizarUsuarioKeepsValid(db: Db, id: int, dto: UsuarioDto, encode: string -> string)
    requires Valid(db)
    ensures Valid(AfterAtualizarUsuario(db, id, dto, encode).0)
  {
  }

  /** An update without a new password leaves the stored password as it was. */
  lemma UpdateWithoutPasswordKeepsIt(db: Db, id: int, dto: UsuarioDto, encode: string -> string)
    requires id in db.usuarios && (dto.senha.None? || dto.senha == Some(""))
    ensures var r := AfterAtualizarUsuario(db, id, dto, encode);
            r.1.Ok? ==> GetPassword(r.0.usuarios[id]) == GetPassword(db.usuarios[id])
  {
  }

  /** The database without user `id`; the feedbacks it wrote or received and its PDIs go with it (cascade). */
  function WithoutUsuario(db: Db, id: int): Db {
    db.(usuarios := db.usuarios - {id},
        feedbacks := map k | k in db.feedbacks && db.feedbacks[k].autorId != id && db.feedbacks[k].destinatarioId != id
                       :: db.feedbacks[k],
        pdis := map k | k in db.pdis && db.pdis[k].colaboradorId != id :: db.pdis[k])
  }

  /**
   * `deletarUsuario`: an unknown id throws; otherwise exactly that user is removed, no other user
   * changes, and the rows that reference it are removed with it.
   */
  function AfterDeletarUsuario(db: Db, id: int): (r: (Db, Result<(), Failure>))
    ensures id !in db.usuarios ==> r == (db, Err(UserNotFound(id)))
    ensures id in db.usuarios ==> r.1.Ok?
    ensures r.1.Ok? ==>
      r.0.usuarios == db.usuarios - {id} && r.0.roles == db.roles &&
      (forall k :: k in r.0.feedbacks <==>
         (k in db.feedbacks && db.feedbacks[k].autorId != id && db.feedbacks[k].destinatarioId != id)) &&
      (forall k :: k in r.0.pdis <==> k in db.pdis && db.pdis[k].colaboradorId != id) &&
      (forall k :: k in r.0.feedbacks ==> r.0.feedbacks[k] == db.feedbacks[k]) &&
      (forall k :: k in r.0.pdis ==> r.0.pdis[k] == db.pdis[k])
  {
    if id !in db.usuarios then (db, Err(UserNotFound(id)))
    else (WithoutUsuario(db, id), Ok(()))
  }

  /** Deleting a user keeps every schema constraint: nothing is left pointing at the removed row. */
  lemma DeletarUsuarioKeepsValid(db: Db, id: int)
    requires Valid(db)
    ensures Valid(AfterDeletarUsuario(db, id).0)
  {
  }

  /** The service as Spring wires it: the repositories it writes and the password encoder. */
  class Service {
    const repos: Repositories
    const encode: string -> string

    constructor (repos: Repositories, encode: string -> string)
      ensures this.repos == repos && this.encode == encode
    {
      this.repos := repos;
      this.encode := encode;
    }

    method CriarUsuario(dto: UsuarioDto) returns (result: Result<UsuarioDto, Failure>)
      requires Valid(repos.State())
      modifies repos
      ensures (repos.State(), result) == AfterCriarUsuario(old(repos.State()), dto, encode)
    {
      if ExistsByEmail(repos.usuarios, dto.email) {
        return Err(RuntimeError(EMAIL_IN_USE));
      }
      if dto.senha.None? {
        return Err(NullPassword);
      }
      var senha := encode(dto.senha.value);
      var defaultRole := FindRoleByName(repos.roles, ROLE_COLLABORATOR);
      if defaultRole.None? {
        return Err(RuntimeError(DEFAULT_ROLE_MISSING));
      }
      var usuario := Usuario(repos.nextUsuarioId, dto.nome, dto.email, senha, dto.cargo, dto.area, {defaultRole.value});
      repos.usuarios := repos.usuarios[usuario.id := usuario];
      repos.nextUsuarioId := repos.nextUsuarioId + 1;
      result := Ok(ConvertToDto(usuario));
    }

    method CriarAdminSeNaoExistir() returns (result: Result<(), Failure>)
      requires Valid(repos.State())
      modifies repos
      ensures (repos.State(), result) == AfterCriarAdminSeNaoExistir(old(repos.State()), encode)
    {
      result := Ok(());
      if FindByEmail(repos.usuarios, ADMIN_EMAIL).None? {
        var senha := encode(ADMIN_PASSWORD);
        var adminRole := FindRoleByName(repos.roles, ROLE_ADMIN);
        if adminRole.None? {
          return Err(RuntimeError(ADMIN_ROLE_MISSING));
        }
        var admin := Usuario(repos.nextUsuarioId, ADMIN_NAME, ADMIN_EMAIL, senha, Some(ADMIN_CARGO), Some(ADMIN_AREA), {adminRole.value});
        repos.usuarios := repos.usuarios[admin.id := admin];
        repos.nextUsuarioId := repos.nextUsuarioId + 1;
      }
    }

    method AtualizarUsuario(id: int, dto: UsuarioDto) returns (result: Result<UsuarioDto, Failure>)
      modifies repos
      ensures (repos.State(), result) == AfterAtualizarUsuario(old(repos.State()), id, dto, encode)
    {
      if id !in repos.usuarios {
        return Err(UserNotFound(id));
      }
      var existente := repos.usuarios[id];
      existente := existente.(nome := dto.nome);
      existente := existente.(email := dto.email);
      existente := existente.(cargo := dto.cargo);
      existente := existente.(area := dto.area);
      if dto.senha.Some? && dto.senha.value != "" {
        existente := existente.(senha := encode(dto.senha.value));
      }
      if EmailUsedByOther(repos.usuarios, id, dto.email) {
        return Err(EmailTaken);
      }
      repos.usuarios := repos.usuarios[id := existente];
      result := Ok(ConvertToDto(existente));
    }

    method DeletarUsuario(id: int) returns (result: Result<(), Failure>)
      modifies repos
      ensures (repos.State(), result) == AfterDeletarUsuario(old(repos.State()), id)
    {
      if id !in repos.usuarios {
        return Err(UserNotFound(id));
      }
      var feedbacks := repos.feedbacks;
      var pdis := repos.pdis;
      repos.feedbacks := map k | k in feedbacks && feedbacks[k].autorId != id && feedbacks[k].destinatarioId != id :: feedbacks[k];
      repos.pdis := map k | k in pdis && pdis[k].colaboradorId != id :: pdis[k];
      repos.usuarios := repos.usuarios - {id};
      result := Ok(());
    }
  }
}
