/** The navigation sidebar: which menu entries a user sees, which one is
    marked active, when labels show, and the office line. */
module Sidebar {
  import opened Js

  /** The signed-in user as the auth context holds it. */
  datatype SessionUser = SessionUser(role: Field, office: Field)

  datatype MenuItem = MenuItem(path: string, name: string, access: bool)

  /** `user?.role === 'admin'` */
  predicate IsAdmin(user: Option<SessionUser>) {
    user.Some? && user.value.role == Some("admin")
  }

  /** The four entries in declaration order; the last two only for admins. */
  function MenuItems(user: Option<SessionUser>): (items: seq<MenuItem>)
    ensures |items| == 4
    ensures items[0].access && items[1].access
    ensures items[2].access == IsAdmin(user) && items[3].access == IsAdmin(user)
  {
    [MenuItem("/dashboard", "Dashboard", true),
     MenuItem("/incidents", "Incidencias", true),
     MenuItem("/users", "Usuarios", IsAdmin(user)),
     MenuItem("/offices", "Oficinas", IsAdmin(user))]
  }

  /** A rendered link: its target, its label when the sidebar is open, and
      whether it is marked active. */
  datatype Link = Link(path: string, caption: Option<string>, active: bool)

  function RenderItem(item: MenuItem, pathname: string, isOpen: bool): Link {
    Link(item.path, if isOpen then Some(item.name) else None, pathname == item.path)
  }

  predicate Accessible(item: MenuItem) {
    item.access
  }

  /** One link per item, in order. */
  function RenderAll(items: seq<MenuItem>, pathname: string, isOpen: bool): (links: seq<Link>)
    ensures |links| == |items|
    ensures forall k :: 0 <= k < |items| ==> links[k] == RenderItem(items[k], pathname, isOpen)
  {
    if items == [] then [] else [RenderItem(items[0], pathname, isOpen)] + RenderAll(items[1..], pathname, isOpen)
  }

  /** `menuItems.map(renderMenuItem)`: an item without access renders as
      `false`, which leaves nothing on the page. */
  function RenderMenu(items: seq<MenuItem>, pathname: string, isOpen: bool): (links: seq<Link>)
    ensures forall k :: 0 <= k < |links| ==> (links[k].active <==> links[k].path == pathname)
    ensures forall k :: 0 <= k < |links| ==> (links[k].caption.Some? <==> isOpen)
  {
    RenderAll(Filter(items, Accessible), pathname, isOpen)
  }

  /** The office line, shown only when the sidebar is open. */
  function OfficeLine(user: Option<SessionUser>, isOpen: bool): (line: Option<string>)
    ensures line.Some? <==> isOpen
    ensures isOpen && user.Some? && Truthy(user.value.office) ==> line == user.value.office
    ensures isOpen && (user.None? || !Truthy(user.value.office)) ==> line == Some("No asignada")
  {
    if !isOpen then None
    else if user.Some? then Some(OrElse(user.value.office, "No asignada"))
    else Some("No asignada")
  }

  // ---------------------------------------------------------------------------
  // Properties

  /** Everyone sees Dashboard and Incidencias; admins also see Usuarios and
      Oficinas, in declaration order. */
  lemma VisibleEntries(user: Option<SessionUser>, pathname: string, isOpen: bool)
    ensures var links := RenderMenu(MenuItems(user), pathname, isOpen);
      && |links| == (if IsAdmin(user) then 4 else 2)
      && links[0].path == "/dashboard" && links[1].path == "/incidents"
      && (IsAdmin(user) ==> links[2].path == "/users" && links[3].path == "/offices")
  {
    var items := MenuItems(user);
    var shown := VisibleItems(items, IsAdmin(user));
    var links := RenderAll(shown, pathname, isOpen);
    assert links[0] == RenderItem(items[0], pathname, isOpen);
    assert links[1] == RenderItem(items[1], pathname, isOpen);
    if IsAdmin(user) {
      assert links[2] == RenderItem(items[2], pathname, isOpen);
      assert links[3] == RenderItem(items[3], pathname, isOpen);
    }
  }

  /** The accessible items of the four-entry menu: all four for an admin,
      the first two otherwise. */
  lemma VisibleItems(items: seq<MenuItem>, admin: bool) returns (shown: seq<MenuItem>)
    requires |items| == 4 && items[0].access && items[1].access
    requires items[2].access == admin && items[3].access == admin
    ensures shown == Filter(items, Accessible)
    ensures shown == if admin then items else items[..2]
  {
    AdminItemsShown(items[2..], admin);
    assert items == items[..2] + items[2..];
    FilterAppend(items[..2], items[2..], Accessible);
    assert Filter(items[..2], Accessible) == items[..2] by {
      assert items[..2][1..][1..] == [];
    }
    shown := Filter(items, Accessible);
  }

  /** The two admin entries are both kept or both dropped. */
  lemma AdminItemsShown(rest: seq<MenuItem>, admin: bool)
    requires |rest| == 2 && rest[0].access == admin && rest[1].access == admin
    ensures Filter(rest, Accessible) == if admin then rest else []
  {
    assert rest[1..][1..] == [];
  }

  /** The rendered entries are the accessible items, in declaration order. */
  lemma RenderedInOrder(items: seq<MenuItem>, pathname: string, isOpen: bool)
    ensures var shown := Filter(items, Accessible);
      var links := RenderMenu(items, pathname, isOpen);
      |links| == |shown| && forall k :: 0 <= k < |links| ==> links[k].path == shown[k].path
    ensures Subsequence(Filter(items, Accessible), items)
  {
    FilterIsSubsequence(items, Accessible);
  }

  /** Only the admin flag matters: a technician, a plain user and no user at
      all get the same menu. */
  lemma TechnicianSeesUserMenu(office: Field)
    ensures MenuItems(Some(SessionUser(Some("tecnico"), office))) == MenuItems(Some(SessionUser(Some("user"), office)))
    ensures MenuItems(None) == MenuItems(Some(SessionUser(Some("user"), office)))
  {
  }

  /** The entry for the current path, when visible, is the one marked active. */
  lemma ActiveEntry(user: Option<SessionUser>, isOpen: bool)
    ensures var links := RenderMenu(MenuItems(user), "/incidents", isOpen);
      |links| >= 2 && links[1].active && !links[0].active
  {
    VisibleEntries(user, "/incidents", isOpen);
  }
}
