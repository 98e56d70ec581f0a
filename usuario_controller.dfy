/**
 * `/api/usuarios` (backend/.../controller/UsuarioController.java): each endpoint's `@PreAuthorize`
 * rule as a predicate over the caller, and the response each endpoint chooses from the user
 * service's outcome. A refused rule answers `403` and leaves the database untouched.
 *
 * The update handler treats the service's result as an `Optional` and the delete handler treats it
 * as a boolean, which the service (returning a DTO and `void`) does not provide; here a successful
 * update is `200`, a thrown update is `400` with the message, a successful delete `204` and a
 * refused one (unknown id) `404`.
 */
module UsuarioController {
  import opened Wrappers
  import opened Model
  import opened Store
  import opened Dto
  import opened Web
  import UsuarioService
  import UsuarioRepository

  const ADMIN := "ADMIN"
  const GESTOR := "GESTOR"

  /** `hasAnyRole('ADMIN', 'GESTOR')`. */
  predicate IsAdminOrGestor(c: Caller) {
    HasRole(c, ADMIN) || HasRole(c, GESTOR)
  }

  /** `POST`: `hasRole('ADMIN')`. */
  predicate MayCreate(c: Caller) {
    HasRole(c, ADMIN)
  }

  /** `GET /{id}`: admin, gestor, or the caller's own id. */
  predicate MayGetById(c: Caller, id: int) {
    IsAdminOrGestor(c) || id == c.principalId
  }

  /** `GET /email/{email}`: admin, gestor, or the caller's own username. */
  predicate MayGetByEmail(c: Caller, email: string) {
    IsAdminOrGestor(c) || email == c.username
  }

  /** `GET`: admin or gestor. */
  predicate MayList(c: Caller) {
    IsAdminOrGestor(c)
  }

  /** `PUT /{id}`: admin, or the caller's own id. */
  predicate MayUpdate(c: Caller, id: int) {
    HasRole(c, ADMIN) || id == c.principalId
  }

  /** `DELETE /{id}`: `hasRole('ADMIN')`. */
  predicate MayDelete(c: Caller) {
    HasRole(c, ADMIN)
  }

  /** `criarUsuario`: `201` with the new user, or `400` with the message of what the service threw. */
  function CriarUsuario(db: Db, c: Caller, dto: UsuarioDto, encode: string -> string): (r: (Db, Reply<UsuarioDto>))
    requires Valid(db)
    ensures !MayCreate(c) ==> r == (db, Forbidden)
    ensures MayCreate(c) ==>
      var served := UsuarioService.AfterCriarUsuario(db, dto, encode);
      r.0 == served.0 && (if served.1.Ok? then r.1 == Created(served.1.value) else r.1 == BadRequest(served.1.error))
  {
    if !MayCreate(c) then (db, Forbidden)
    else
      var (db', outcome) := UsuarioService.AfterCriarUsuario(db, dto, encode);
      match outcome
      case Ok(created) => (db', Created(created))
      case Err(e) => (db', BadRequest(e))
  }

  /** `buscarUsuarioPorId`: `200` with the user, or `404`. */
  function BuscarUsuarioPorId(db: Db, c: Caller, id: int): (r: Reply<UsuarioDto>)
    ensures !MayGetById(c, id) ==> r == Forbidden
    ensures MayGetById(c, id) && id in db.usuarios ==> r == OkReply(UsuarioService.ConvertToDto(db.usuarios[id]))
    ensures MayGetById(c, id) && id !in db.usuarios ==> r == NotFound
  {
    if !MayGetById(c, id) then Forbidden
    else match UsuarioService.BuscarUsuarioPorId(db, id)
      case Some(found) => OkReply(found)
      case None => NotFound
  }

  /** `buscarUsuarioPorEmail`: `200` with the user, or `404`. */
  function BuscarUsuarioPorEmail(db: Db, c: Caller, email: string): (r: Reply<UsuarioDto>)
    requires UniqueEmails(db.usuarios)
    ensures !MayGetByEmail(c, email) ==> r == Forbidden
    ensures MayGetByEmail(c, email) ==>
      (r.OkReply? <==> UsuarioRepository.ExistsByEmail(db.usuarios, email)) &&
      (forall id :: id in db.usuarios && db.usuarios[id].email == email ==>
         r == OkReply(UsuarioService.ConvertToDto(db.usuarios[id]))) &&
      (r.OkReply? ==> r.body.email == email && r.body.senha.None?) &&
      (!r.OkReply? ==> r == NotFound)
  {
    if !MayGetByEmail(c, email) then Forbidden
    else match UsuarioService.BuscarUsuarioPorEmail(db, email)
      case Some(found) => OkReply(found)
      case None => NotFound
  }

  /** `listarTodosUsuarios`: `200` with every user. */
  function ListarTodosUsuarios(db: Db, c: Caller): (r: Reply<set<UsuarioDto>>)
    ensures !MayList(c) ==> r == Forbidden
    ensures MayList(c) ==> r == OkReply(UsuarioService.ListarTodosUsuarios(db))
  {
    if !MayList(c) then Forbidden else OkReply(UsuarioService.ListarTodosUsuarios(db))
  }

  /** `atualizarUsuario`: `200` with the updated user, or `400` with the message of what the service threw. */
  function AtualizarUsuario(db: Db, c: Caller, id: int, dto: UsuarioDto, encode: string -> string): (r: (Db, Reply<UsuarioDto>))
    ensures !MayUpdate(c, id) ==> r == (db, Forbidden)
    ensures MayUpdate(c, id) ==>
      var served := UsuarioService.AfterAtualizarUsuario(db, id, dto, encode);
      r.0 == served.0 && (if served.1.Ok? then r.1 == OkReply(served.1.value) else r.1 == BadRequest(served.1.error))
  {
    if !MayUpdate(c, id) then (db, Forbidden)
    else
      var (db', outcome) := UsuarioService.AfterAtualizarUsuario(db, id, dto, encode);
      match outcome
      case Ok(updated) => (db', OkReply(updated))
      case Err(e) => (db', BadRequest(e))
  }

  /** `deletarUsuario`: `204` when the service deleted the user, `404` when it refused. */
  function DeletarUsuario(db: Db, c: Caller, id: int): (r: (Db, Reply<()>))
    ensures !MayDelete(c) ==> r == (db, Forbidden)
    ensures MayDelete(c) ==>
      var served := UsuarioService.AfterDeletarUsuario(db, id);
      r.0 == served.0 && (if served.1.Ok? then r.1 == NoContent else r.1 == NotFound)
  {
    if !MayDelete(c) then (db, Forbidden)
    else
      var (db', outcome) := UsuarioService.AfterDeletarUsuario(db, id);
      if outcome.Ok? then (db', NoContent) else (db', NotFound)
  }

  /**
   * Only an administrator changes the user table through create or delete: anyone else is refused
   * with `403` and the database stays as it was.
   */
  lemma OnlyAdminsCreateOrDelete(db: Db, c: Caller, dto: UsuarioDto, encode: string -> string, id: int)
    requires Valid(db) && ROLE_ADMIN !in c.authorities
    ensures CriarUsuario(db, c, dto, encode) == (db, Forbidden)
    ensures DeletarUsuario(db, c, id) == (db, Forbidden)
    ensures StatusCode(CriarUsuario(db, c, dto, encode).1) == 403
  {
    AdminRoleIsRoleAdmin(c);
  }

  /**
   * An admin's request with a free email, a password and the collaborator role seeded is answered
   * `201` with the new user, who holds only the collaborator role.
   */
  lemma AdminsValidCreateIsCreated(db: Db, c: Caller, dto: UsuarioDto, encode: string -> string)
    requires Valid(db) && ROLE_ADMIN in c.authorities
    requires !UsuarioRepository.ExistsByEmail(db.usuarios, dto.email) && dto.senha.Some?
    requires exists id :: id in db.roles && db.roles[id].name == ROLE_COLLABORATOR
    ensures var r := CriarUsuario(db, c, dto, encode);
            r.1.Created? && StatusCode(r.1) == 201 && r.1.body.roles == {ROLE_COLLABORATOR} &&
            r.1.body.email == dto.email && r.1.body.senha.None?
  {
    AdminRoleIsRoleAdmin(c);
    var served := UsuarioService.AfterCriarUsuario(db, dto, encode);
    assert served.1.Ok?;
  }

  /** `hasRole('ADMIN')` holds exactly for the callers granted `ROLE_ADMIN`. */
  lemma AdminRoleIsRoleAdmin(c: Caller)
    ensures HasRole(c, ADMIN) <==> ROLE_ADMIN in c.authorities
  {
    assert "ROLE_" + ADMIN == ROLE_ADMIN;
  }

  /** An administrator's delete answers `204` exactly when the user exists, and removes only that user. */
  lemma AdminDeleteAnswersByExistence(db: Db, c: Caller, id: int)
    requires ROLE_ADMIN in c.authorities
    ensures var r := DeletarUsuario(db, c, id);
            (r.1 == NoContent <==> id in db.usuarios) && (r.1 != NoContent ==> r == (db, NotFound)) &&
            r.0.usuarios == db.usuarios - {id}
  {
    AdminRoleIsRoleAdmin(c);
    if id !in db.usuarios {
      assert db.usuarios - {id} == db.usuarios;
    }
  }

  /**
   * Every caller may read and update its own record: the rule never refuses it, and reading an
   * existing self answers `200` with the caller's own data.
   */
  lemma CallersReachTheirOwnRecord(db: Db, c: Caller, dto: UsuarioDto, encode: string -> string)
    ensures BuscarUsuarioPorId(db, c, c.principalId) != Forbidden
    ensures c.principalId in db.usuarios ==>
      var r := BuscarUsuarioPorId(db, c, c.principalId);
      r.OkReply? && r.body.id == Some(db.usuarios[c.principalId].id) && StatusCode(r) == 200
    ensures AtualizarUsuario(db, c, c.principalId, dto, encode).1 != Forbidden
  {
  }

  /**
   * A caller holding none of the `hasAnyRole` authorities reads no record but its own: another
   * user's id answers `403` whether or not that user exists.
   */
  lemma OthersRecordsNeedAnElevatedRole(db: Db, c: Caller, id: int)
    requires ROLE_ADMIN !in c.authorities && "ROLE_GESTOR" !in c.authorities
    requires id != c.principalId
    ensures BuscarUsuarioPorId(db, c, id) == Forbidden
    ensures ListarTodosUsuarios(db, c) == Forbidden
  {
    assert !HasRole(c, ADMIN) && !HasRole(c, GESTOR) by {
      assert "ROLE_" + ADMIN == ROLE_ADMIN;
      assert "ROLE_" + GESTOR == "ROLE_GESTOR";
    }
  }

  /**
   * The roles the application seeds are `ROLE_ADMIN`, `ROLE_MANAGER` and `ROLE_COLLABORATOR`;
   * `hasAnyRole('ADMIN', 'GESTOR')` looks for `ROLE_GESTOR`, which none of them is. So a manager
   * who is not also an administrator may not list the users, nor read another user's record.
   */
  lemma SeededManagersAreNotGestores(db: Db, c: Caller, id: int)
    requires c.authorities <= {ROLE_MANAGER, ROLE_COLLABORATOR}
    requires id != c.principalId
    ensures ListarTodosUsuarios(db, c) == Forbidden
    ensures BuscarUsuarioPorId(db, c, id) == Forbidden
  {
    assert ROLE_ADMIN != ROLE_MANAGER && ROLE_ADMIN != ROLE_COLLABORATOR by {
      assert ROLE_ADMIN[5] != ROLE_MANAGER[5] && ROLE_ADMIN[5] != ROLE_COLLABORATOR[5];
    }
    assert "ROLE_GESTOR" != ROLE_MANAGER && "ROLE_GESTOR" != ROLE_COLLABORATOR by {
      assert "ROLE_GESTOR"[5] != ROLE_MANAGER[5] && "ROLE_GESTOR"[5] != ROLE_COLLABORATOR[5];
    }
    OthersRecordsNeedAnElevatedRole(db, c, id);
  }
}
