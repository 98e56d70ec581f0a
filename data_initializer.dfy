/**
 * The start-up seeding (backend/.../config/DataInitializer.java): the three roles, each saved only
 * when no role of that name exists, then the administrator through the user service.
 */
module DataInitializer {
  import opened Wrappers
  import opened Model
  import opened Store
  import UsuarioRepository
  import UsuarioService

  /** Some role in the table has this name. */
  predicate RoleNamed(roles: map<int, Role>, name: string) {
    exists id :: id in roles && roles[id].name == name
  }

  /** Exactly one role in the table has this name. */
  predicate ExactlyOneRoleNamed(roles: map<int, Role>, name: string) {
    exists id :: id in roles && roles[id].name == name && forall k :: k in roles && roles[k].name == name ==> k == id
  }

  /**
   * One check-then-save step: a role already present is not saved again; a missing one is saved
   * under the next identity value. Either way the schema still holds and the role is there.
   */
  function SeedRole(db: Db, name: string): (r: Db)
    requires Valid(db)
    ensures Valid(r) && RoleNamed(r.roles, name)
    ensures RoleNamed(db.roles, name) ==> r == db
    ensures !RoleNamed(db.roles, name) ==>
      r == db.(roles := db.roles[db.nextRoleId := Role(db.nextRoleId, name)], nextRoleId := db.nextRoleId + 1)
  {
    if FindRoleByName(db.roles, name).Some? then db
    else
      var r := db.(roles := db.roles[db.nextRoleId := Role(db.nextRoleId, name)], nextRoleId := db.nextRoleId + 1);
      assert db.nextRoleId !in db.roles;
      assert r.roles[db.nextRoleId].name == name;
      r
  }

  /** Seeding a role changes only the roles table, and keeps every role already there. */
  lemma SeedRoleKeepsTheRest(db: Db, name: string)
    requires Valid(db)
    ensures var r := SeedRole(db, name);
            r.usuarios == db.usuarios && r.feedbacks == db.feedbacks && r.pdis == db.pdis &&
            r.nextUsuarioId == db.nextUsuarioId && r.nextFeedbackId == db.nextFeedbackId &&
            (forall id :: id in db.roles ==> id in r.roles && r.roles[id] == db.roles[id]) &&
            (forall n :: RoleNamed(db.roles, n) ==> RoleNamed(r.roles, n))
  {
    if !RoleNamed(db.roles, name) {
      assert db.nextRoleId !in db.roles;
    }
  }

  /** The three role steps, in the order `run` takes them. */
  function SeededRoles(db: Db): (r: Db)
    requires Valid(db)
    ensures Valid(r)
  {
    SeedRole(SeedRole(SeedRole(db, ROLE_ADMIN), ROLE_MANAGER), ROLE_COLLABORATOR)
  }

  /** After the three steps each seeded role exists, and nothing but the roles table has changed. */
  lemma SeededRolesArePresent(db: Db)
    requires Valid(db)
    ensures var r := SeededRoles(db);
            RoleNamed(r.roles, ROLE_ADMIN) && RoleNamed(r.roles, ROLE_MANAGER) && RoleNamed(r.roles, ROLE_COLLABORATOR) &&
            r.usuarios == db.usuarios && r.feedbacks == db.feedbacks && r.pdis == db.pdis &&
            (forall id :: id in db.roles ==> id in r.roles && r.roles[id] == db.roles[id])
  {
    var a := SeedRole(db, ROLE_ADMIN);
    var m := SeedRole(a, ROLE_MANAGER);
    SeedRoleKeepsTheRest(db, ROLE_ADMIN);
    SeedRoleKeepsTheRest(a, ROLE_MANAGER);
    SeedRoleKeepsTheRest(m, ROLE_COLLABORATOR);
  }

  /** When the three roles are already there, the role steps change nothing. */
  lemma PresentRolesAreNotSavedAgain(db: Db)
    requires Valid(db)
    requires RoleNamed(db.roles, ROLE_ADMIN) && RoleNamed(db.roles, ROLE_MANAGER) && RoleNamed(db.roles, ROLE_COLLABORATOR)
    ensures SeededRoles(db) == db
  {
  }

  /** `run`: the role steps, then `criarAdminSeNaoExistir`, whose outcome is the outcome of the run. */
  function AfterRun(db: Db, encode: string -> string): (r: (Db, Result<(), Failure>))
    requires Valid(db)
  {
    UsuarioService.AfterCriarAdminSeNaoExistir(SeededRoles(db), encode)
  }

  /**
   * A run always succeeds: the admin role is saved before the administrator is seeded, so the
   * seed's missing-role error cannot happen. Afterwards the schema holds, each seeded role exists
   * exactly once and the administrator's account exists.
   */
  lemma RunSucceedsAndSeedsEverything(db: Db, encode: string -> string)
    requires Valid(db)
    ensures var r := AfterRun(db, encode);
            r.1.Ok? && Valid(r.0) &&
            ExactlyOneRoleNamed(r.0.roles, ROLE_ADMIN) && ExactlyOneRoleNamed(r.0.roles, ROLE_MANAGER) &&
            ExactlyOneRoleNamed(r.0.roles, ROLE_COLLABORATOR) &&
            UsuarioRepository.ExistsByEmail(r.0.usuarios, UsuarioService.ADMIN_EMAIL)
  {
    var seeded := SeededRoles(db);
    SeededRolesArePresent(db);
    UsuarioService.AdminSeedKeepsValid(seeded, encode);
    var r := AfterRun(db, encode);
    assert r.0.roles == seeded.roles;
    assert UsuarioRepository.ExistsByEmail(r.0.usuarios, UsuarioService.ADMIN_EMAIL) by {
      if UsuarioRepository.FindByEmail(seeded.usuarios, UsuarioService.ADMIN_EMAIL).None? {
        assert r.0.usuarios[seeded.nextUsuarioId].email == UsuarioService.ADMIN_EMAIL;
      }
    }
    forall name | name in {ROLE_ADMIN, ROLE_MANAGER, ROLE_COLLABORATOR}
      ensures ExactlyOneRoleNamed(r.0.roles, name)
    {
      var id :| id in r.0.roles && r.0.roles[id].name == name;
    }
  }

  /** Running the initializer a second time changes nothing and succeeds again. */
  lemma RunIsIdempotent(db: Db, encode: string -> string)
    requires Valid(db)
    ensures Valid(AfterRun(db, encode).0)
    ensures var once := AfterRun(db, encode).0;
            AfterRun(once, encode) == (once, Ok(()))
  {
    RunSucceedsAndSeedsEverything(db, encode);
    var once := AfterRun(db, encode).0;
    PresentRolesAreNotSavedAgain(once);
  }

  /** The initializer as Spring wires it: the role repository and the user service sharing the database. */
  class Initializer {
    const roleRepository: Repositories
    const usuarioService: UsuarioService.Service

    constructor (usuarioService: UsuarioService.Service)
      ensures this.usuarioService == usuarioService && roleRepository == usuarioService.repos
    {
      this.usuarioService := usuarioService;
      this.roleRepository := usuarioService.repos;
    }

    /** One role step: look the name up, and save a new role with it when none was found. */
    method SaveRoleIfMissing(name: string)
      requires Valid(roleRepository.State())
      modifies roleRepository
      ensures roleRepository.State() == SeedRole(old(roleRepository.State()), name)
    {
      if FindRoleByName(roleRepository.roles, name).None? {
        var role := Role(roleRepository.nextRoleId, name);
        roleRepository.roles := roleRepository.roles[role.id := role];
        roleRepository.nextRoleId := roleRepository.nextRoleId + 1;
      }
    }

    method Run() returns (result: Result<(), Failure>)
      requires roleRepository == usuarioService.repos
      requires Valid(roleRepository.State())
      modifies roleRepository
      ensures (roleRepository.State(), result) == AfterRun(old(roleRepository.State()), usuarioService.encode)
    {
      SaveRoleIfMissing(ROLE_ADMIN);
      SaveRoleIfMissing(ROLE_MANAGER);
      SaveRoleIfMissing(ROLE_COLLABORATOR);
      result := usuarioService.CriarAdminSeNaoExistir();
    }
  }
}
