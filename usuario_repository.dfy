/**
 * The user queries (backend/.../repository/UsuarioRepository.java) as functions of the `usuarios`
 * table: lookup and existence by email, and the two role counts, whose meaning Spring Data derives
 * from the method name and the JPQL `GROUP BY`.
 */
module UsuarioRepository {
  import opened Wrappers
  import opened Model
  import opened Store
  import Sets

  /** `existsByEmail`. */
  predicate ExistsByEmail(usuarios: map<int, Usuario>, email: string) {
    exists id :: id in usuarios && usuarios[id].email == email
  }

  /** `findByEmail`: the user with that email; the unique constraint makes it the only one. */
  function FindByEmail(usuarios: map<int, Usuario>, email: string): (r: Option<Usuario>)
    requires UniqueEmails(usuarios)
    ensures r.Some? <==> ExistsByEmail(usuarios, email)
    ensures r.Some? ==> r.value.email == email && r.value in usuarios.Values
  {
    if ExistsByEmail(usuarios, email) then
      var id :| id in usuarios && usuarios[id].email == email;
      Some(usuarios[id])
    else None
  }

  /** A stored user is found again by the name it signs in with. */
  lemma FindByUsername(usuarios: map<int, Usuario>, id: int)
    requires UniqueEmails(usuarios) && id in usuarios
    ensures FindByEmail(usuarios, GetUsername(usuarios[id])) == Some(usuarios[id])
  {
    var r := FindByEmail(usuarios, GetUsername(usuarios[id]));
    var other :| other in usuarios && usuarios[other] == r.value;
  }

  /** The user holds a role of that name. */
  predicate HoldsRole(u: Usuario, roleName: string) {
    exists r :: r in u.roles && r.name == roleName
  }

  /** The ids of the users holding a role named `roleName`. */
  function Holders(usuarios: map<int, Usuario>, roleName: string): (ids: set<int>)
    ensures ids <= usuarios.Keys
    ensures forall id :: id in ids <==> id in usuarios && HoldsRole(usuarios[id], roleName)
  {
    set id | id in usuarios && HoldsRole(usuarios[id], roleName)
  }

  /** `countByRoles_Name(roleName)`: how many users hold that role; never more than there are users. */
  function CountByRolesName(usuarios: map<int, Usuario>, roleName: string): (n: nat)
    ensures n == |Holders(usuarios, roleName)|
    ensures n <= |usuarios|
    ensures n == 0 <==> forall id :: id in usuarios ==> !HoldsRole(usuarios[id], roleName)
  {
    var ids := Holders(usuarios, roleName);
    SubsetNoLarger(ids, usuarios.Keys);
    assert ids == {} <==> forall id :: id in usuarios ==> !HoldsRole(usuarios[id], roleName) by {
      if ids != {} {
        var id := Sets.Pick(ids);
      }
    }
    |ids|
  }

  lemma {:induction false} SubsetNoLarger(a: set<int>, b: set<int>)
    requires a <= b
    ensures |a| <= |b|
    decreases |b|
  {
    if a != {} {
      var x := Sets.Pick(a);
      SubsetNoLarger(a - {x}, b - {x});
    }
  }

  /** The role names held by at least one user. */
  function HeldRoleNames(usuarios: map<int, Usuario>): (names: set<string>)
    ensures forall name :: name in names <==> exists id :: id in usuarios && HoldsRole(usuarios[id], name)
  {
    set id, r | id in usuarios && r in usuarios[id].roles :: r.name
  }

  /**
   * `countUsuariosByRole`: one row per role name held by some user, with the number of users
   * holding it; a user with several roles is counted under each of them.
   */
  function CountUsuariosByRole(usuarios: map<int, Usuario>): (rows: map<string, nat>)
    ensures forall name :: name in rows <==> exists id :: id in usuarios && HoldsRole(usuarios[id], name)
    ensures forall name :: name in rows ==> 1 <= rows[name] <= |usuarios|
    ensures forall name :: name in rows ==> rows[name] == CountByRolesName(usuarios, name)
  {
    map name | name in HeldRoleNames(usuarios) :: CountByRolesName(usuarios, name)
  }

  /** Every role of every user shows up in the grouped counts. */
  lemma EveryHeldRoleIsCounted(usuarios: map<int, Usuario>, id: int, r: Role)
    requires id in usuarios && r in usuarios[id].roles
    ensures r.name in CountUsuariosByRole(usuarios)
    ensures id in Holders(usuarios, r.name)
  {
    assert HoldsRole(usuarios[id], r.name);
  }
}
