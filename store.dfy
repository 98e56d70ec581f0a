/**
 * The database behind the Spring Data repositories: one table per entity, keyed by id, with the
 * identity counters that hand out fresh ids, and the constraints the schema declares (unique user
 * emails and role names, the foreign keys of feedbacks and PDIs, the `usuario_roles` join rows).
 *
 * `RoleRepository.findByName` is folded in here as `FindRoleByName`.
 */
module Store {
  import opened Wrappers
  import opened Model
  import Text

  /** The tables, and for each table whose rows the services insert, the next identity value. */
  datatype Db = Db(
    usuarios: map<int, Usuario>,
    roles: map<int, Role>,
    feedbacks: map<int, Feedback>,
    pdis: map<int, Pdi>,
    nextUsuarioId: int,
    nextRoleId: int,
    nextFeedbackId: int)

  /**
   * What a service call throws: a `RuntimeException` raised by the source with its message, the
   * password encoder rejecting a null password, a unique-email violation when the transaction
   * commits, or `findById` called with a null id.
   */
  datatype Failure = RuntimeError(message: string) | NullPassword | EmailTaken | NullId

  /**
   * The `RuntimeException` a service throws for an id that names no row: a fixed message followed by
   * the id in decimal, from which the id can be read back.
   */
  function NotFoundError(prefix: string, id: int): (f: Failure)
    ensures f.RuntimeError? && Text.StartsWith(f.message, prefix)
    ensures Text.ParseInt10(f.message[|prefix|..]) == Some(id)
  {
    var m := prefix + Text.IntToDecimal(id);
    assert m[..|prefix|] == prefix && m[|prefix|..] == Text.IntToDecimal(id);
    Text.ParseIntOfDecimal(id);
    RuntimeError(m)
  }

  predicate UniqueEmails(usuarios: map<int, Usuario>) {
    forall a, b :: a in usuarios && b in usuarios && usuarios[a].email == usuarios[b].email ==> a == b
  }

  predicate UniqueRoleNames(roles: map<int, Role>) {
    forall a, b :: a in roles && b in roles && roles[a].name == roles[b].name ==> a == b
  }

  /** Every row is stored under its own id, below the table's next identity value. */
  predicate IdsAreKeys(db: Db) {
    0 < db.nextUsuarioId && 0 < db.nextRoleId && 0 < db.nextFeedbackId &&
    (forall id :: id in db.usuarios ==> db.usuarios[id].id == id && 0 < id < db.nextUsuarioId) &&
    (forall id :: id in db.roles ==> db.roles[id].id == id && 0 < id < db.nextRoleId) &&
    (forall id :: id in db.feedbacks ==> db.feedbacks[id].id == id && 0 < id < db.nextFeedbackId) &&
    (forall id :: id in db.pdis ==> db.pdis[id].id == id)
  }

  /** Join rows and foreign keys point at stored rows. */
  predicate ReferencesResolve(db: Db) {
    (forall id, r :: id in db.usuarios && r in db.usuarios[id].roles ==> r.id in db.roles && db.roles[r.id] == r) &&
    (forall id :: id in db.feedbacks ==>
      db.feedbacks[id].autorId in db.usuarios && db.feedbacks[id].destinatarioId in db.usuarios) &&
    (forall id :: id in db.pdis ==> db.pdis[id].colaboradorId in db.usuarios)
  }

  /** The schema's constraints. */
  predicate Valid(db: Db) {
    IdsAreKeys(db) && UniqueEmails(db.usuarios) && UniqueRoleNames(db.roles) && ReferencesResolve(db)
  }

  /** `roleRepository.findByName(name)`: the role with that name, if there is one. */
  function FindRoleByName(roles: map<int, Role>, name: string): (r: Option<Role>)
    requires UniqueRoleNames(roles)
    ensures r.Some? <==> exists id :: id in roles && roles[id].name == name
    ensures r.Some? ==> r.value in roles.Values && r.value.name == name
  {
    if exists id :: id in roles && roles[id].name == name then
      var id :| id in roles && roles[id].name == name;
      Some(roles[id])
    else None
  }

  /** The repositories as the services see them: tables that `save` and `delete` change in place. */
  class Repositories {
    var usuarios: map<int, Usuario>
    var roles: map<int, Role>
    var feedbacks: map<int, Feedback>
    var pdis: map<int, Pdi>
    var nextUsuarioId: int
    var nextRoleId: int
    var nextFeedbackId: int

    function State(): Db
      reads this
    {
      Db(usuarios, roles, feedbacks, pdis, nextUsuarioId, nextRoleId, nextFeedbackId)
    }

    constructor (db: Db)
      ensures State() == db
    {
      usuarios, roles, feedbacks, pdis := db.usuarios, db.roles, db.feedbacks, db.pdis;
      nextUsuarioId, nextRoleId, nextFeedbackId := db.nextUsuarioId, db.nextRoleId, db.nextFeedbackId;
    }
  }
}
