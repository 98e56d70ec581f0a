/**
 * The navigation sidebar (frontend/src/components/layout/Sidebar.tsx): the constant menu table, the
 * items a user may see, the active-item test and the role label under the user's name.
 *
 * This file reads the signed-in user's roles as a list of role-name strings (`ROLE_ADMIN`, ...);
 * `None` stands for "no user".
 */
module Sidebar {
  import opened Wrappers
  import Seqs
  import Text

  const ROLE_ADMIN := "ROLE_ADMIN"
  const ROLE_MANAGER := "ROLE_MANAGER"
  const ROLE_COLLABORATOR := "ROLE_COLLABORATOR"
  const NO_ROLE_LABEL := "Sem papel definido"

  /** One menu entry: where it links, its caption and the roles allowed to see it (the icon is left out). */
  datatype NavItem = NavItem(href: string, caption: string, roles: seq<string>)

  const DASHBOARD_ITEM := NavItem("/dashboard", "Dashboard", [ROLE_ADMIN, ROLE_MANAGER])
  const USUARIOS_ITEM := NavItem("/usuarios", "Usuários", [ROLE_ADMIN])
  const PDIS_ITEM := NavItem("/pdis", "PDIs", [ROLE_ADMIN, ROLE_MANAGER, ROLE_COLLABORATOR])
  const FEEDBACKS_ITEM := NavItem("/feedbacks", "Feedbacks", [ROLE_ADMIN, ROLE_MANAGER, ROLE_COLLABORATOR])

  const NAV_ITEMS: seq<NavItem> := [DASHBOARD_ITEM, USUARIOS_ITEM, PDIS_ITEM, FEEDBACKS_ITEM]

  /** `userRoles.some(r => item.roles.includes(r))`. */
  predicate Grants(item: NavItem, userRoles: seq<string>) {
    exists i :: 0 <= i < |userRoles| && userRoles[i] in item.roles
  }

  /**
   * The visible menu: the entries of `NAV_ITEMS` sharing at least one role with the user, in table
   * order; nothing at all without a user.
   */
  function AccessibleNavItems(userRoles: Option<seq<string>>): (r: seq<NavItem>)
    ensures userRoles.None? ==> r == []
    ensures forall item :: item in r <==> item in NAV_ITEMS && userRoles.Some? && Grants(item, userRoles.value)
    ensures Seqs.IsSubsequence(r, NAV_ITEMS)
  {
    match userRoles
    case None => []
    case Some(roles) =>
      var p := (item: NavItem) => Grants(item, roles);
      Seqs.FilterIsSubsequence(NAV_ITEMS, p);
      Seqs.Filter(NAV_ITEMS, p)
  }

  /** An administrator sees the whole menu. */
  lemma AdminSeesEverything()
    ensures AccessibleNavItems(Some([ROLE_ADMIN])) == NAV_ITEMS
  {
    var roles := [ROLE_ADMIN];
    var p := (item: NavItem) => Grants(item, roles);
    assert forall k :: 0 <= k < |NAV_ITEMS| ==> p(NAV_ITEMS[k]) by {
      assert forall k :: 0 <= k < |NAV_ITEMS| ==> roles[0] in NAV_ITEMS[k].roles;
    }
    FilterKeepsAll(NAV_ITEMS, p);
  }

  /** A collaborator sees only PDIs and Feedbacks. */
  lemma CollaboratorSeesPdisAndFeedbacks()
    ensures AccessibleNavItems(Some([ROLE_COLLABORATOR])) == [PDIS_ITEM, FEEDBACKS_ITEM]
  {
    var roles := [ROLE_COLLABORATOR];
    var p := (item: NavItem) => Grants(item, roles);
    assert !p(DASHBOARD_ITEM) && !p(USUARIOS_ITEM);
    assert p(PDIS_ITEM) by { assert roles[0] in PDIS_ITEM.roles; }
    assert p(FEEDBACKS_ITEM) by { assert roles[0] in FEEDBACKS_ITEM.roles; }
    assert NAV_ITEMS[2..] == [PDIS_ITEM, FEEDBACKS_ITEM];
    assert Seqs.Filter(NAV_ITEMS, p) == Seqs.Filter(NAV_ITEMS[1..], p) == Seqs.Filter(NAV_ITEMS[2..], p);
    FilterKeepsAll([PDIS_ITEM, FEEDBACKS_ITEM], p);
  }

  /** The Usuários entry is visible exactly to users holding `ROLE_ADMIN`. */
  lemma UsuariosOnlyForAdmin(userRoles: seq<string>)
    ensures USUARIOS_ITEM in AccessibleNavItems(Some(userRoles)) <==> ROLE_ADMIN in userRoles
  {
    if ROLE_ADMIN in userRoles {
      var i :| 0 <= i < |userRoles| && userRoles[i] == ROLE_ADMIN;
      assert userRoles[i] in USUARIOS_ITEM.roles;
    }
    assert USUARIOS_ITEM in NAV_ITEMS;
  }

  /** A filter whose condition holds everywhere keeps the whole sequence. */
  lemma {:induction false} FilterKeepsAll<T>(s: seq<T>, p: T -> bool)
    requires forall k :: 0 <= k < |s| ==> p(s[k])
    ensures Seqs.Filter(s, p) == s
    decreases |s|
  {
    if s != [] {
      FilterKeepsAll(s[1..], p);
      assert [s[0]] + s[1..] == s;
    }
  }

  /** An entry is highlighted when the current pathname starts with its `href`. */
  predicate IsActive(pathname: string, item: NavItem) {
    Text.StartsWith(pathname, item.href)
  }

  /** Every page below an entry's `href` highlights it, and `/usuarios/...` never highlights PDIs. */
  lemma ActiveBelowHref(item: NavItem, rest: string)
    ensures IsActive(item.href + rest, item)
    ensures !IsActive(USUARIOS_ITEM.href + rest, PDIS_ITEM)
  {
    assert (item.href + rest)[..|item.href|] == item.href;
    var p := USUARIOS_ITEM.href + rest;
    assert p[1] == 'u';
  }

  /** The caption under the user's name: the first role without its first `ROLE_`, or a fixed text. */
  function RoleLabel(userRoles: Option<seq<string>>): (caption: string)
    ensures userRoles.None? || userRoles.value == [] ==> caption == NO_ROLE_LABEL
    ensures userRoles.Some? && userRoles.value != [] && !Text.Contains(userRoles.value[0], "ROLE_") ==>
      caption == userRoles.value[0]
  {
    match userRoles
    case Some(roles) =>
      if |roles| > 0 then
        var first := roles[0];
        Text.ReplaceFirst(first, "ROLE_", "")
      else NO_ROLE_LABEL
    case None => NO_ROLE_LABEL
  }

  /** A first role `ROLE_<x>` is captioned `<x>`, whatever roles follow it. */
  lemma RoleLabelStripsPrefix(x: string, more: seq<string>)
    ensures RoleLabel(Some(["ROLE_" + x] + more)) == x
  {
    assert (["ROLE_" + x] + more)[0] == "ROLE_" + x;
    Text.ReplaceLeading("ROLE_", x);
  }
}
