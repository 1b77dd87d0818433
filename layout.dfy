/** The navigation bar: the table of entries with the roles each is for,
    the entries a user is shown, and the role displayed beside their name. */
module Layout {
  import opened Common
  import opened AuthContext

  /** The pages of the client, one per route. */
  datatype Page = Dashboard | Inventory | Sales | CashClose | Accounting | Reports | Settings | Users | Organizations

  function Path(p: Page): string {
    match p
    case Dashboard => "/dashboard"
    case Inventory => "/inventory"
    case Sales => "/sales"
    case CashClose => "/cash-close"
    case Accounting => "/accounting"
    case Reports => "/reports"
    case Settings => "/settings"
    case Users => "/users"
    case Organizations => "/organizations"
  }

  function Title(p: Page): string {
    match p
    case Dashboard => "Dashboard"
    case Inventory => "Inventario"
    case Sales => "Ventas"
    case CashClose => "Cierre"
    case Accounting => "Contabilidad"
    case Reports => "Reportes"
    case Settings => "Configuración"
    case Users => "Usuarios"
    case Organizations => "Organizaciones"
  }

  /** An entry of the navigation bar: its page, whose path and title it
      shows, and the roles it is for. */
  datatype NavItem = NavItem(page: Page, roles: seq<Role>)

  /** `navItems`, in declared order. */
  const NavItems: seq<NavItem> := [
    NavItem(Dashboard, [Admin, Owner, Superuser, Employee]),
    NavItem(Inventory, [Admin, Owner, Superuser]),
    NavItem(Sales, [Admin, Owner, Superuser, Employee]),
    NavItem(CashClose, [Admin, Owner, Superuser]),
    NavItem(Accounting, [Admin, Owner, Superuser]),
    NavItem(Reports, [Admin, Owner, Superuser]),
    NavItem(Settings, [Admin, Owner, Superuser]),
    NavItem(Users, [Owner, Superuser]),
    NavItem(Organizations, [Superuser])
  ]

  /** Whether an entry is shown: always to a superuser, otherwise when the
      current role is one the entry is for. */
  predicate Shown(item: NavItem, isSuperuser: bool, currentRole: Option<Role>) {
    isSuperuser || (currentRole.Some? && currentRole.value in item.roles)
  }

  /** `navItems.filter(...)`: the shown entries, in the order given. */
  function Filter(items: seq<NavItem>, isSuperuser: bool, currentRole: Option<Role>): (r: seq<NavItem>)
    ensures |r| <= |items|
  {
    if items == [] then []
    else
      var rest := Filter(items[1..], isSuperuser, currentRole);
      if Shown(items[0], isSuperuser, currentRole) then [items[0]] + rest else rest
  }

  /** The filter keeps exactly the shown entries. */
  lemma {:induction false} FilterKeepsShown(items: seq<NavItem>, isSuperuser: bool, currentRole: Option<Role>)
    ensures forall it :: it in Filter(items, isSuperuser, currentRole) <==> it in items && Shown(it, isSuperuser, currentRole)
  {
    if items != [] {
      FilterKeepsShown(items[1..], isSuperuser, currentRole);
      assert forall it :: it in items <==> it == items[0] || it in items[1..];
    }
  }

  /** `filteredNavItems`. */
  function FilteredNavItems(isSuperuser: bool, currentRole: Option<Role>): seq<NavItem> {
    Filter(NavItems, isSuperuser, currentRole)
  }

  /** What the filter keeps of entry `k`: the entry, or nothing. */
  function Part(k: nat, isSuperuser: bool, currentRole: Option<Role>): seq<NavItem>
    requires k < |NavItems|
  {
    if Shown(NavItems[k], isSuperuser, currentRole) then [NavItems[k]] else []
  }

  /** One step of the filter over the table, from entry `k` on. */
  lemma Step(k: nat, isSuperuser: bool, currentRole: Option<Role>)
    requires k < |NavItems|
    ensures Filter(NavItems[k..], isSuperuser, currentRole) ==
      Part(k, isSuperuser, currentRole) + Filter(NavItems[k + 1..], isSuperuser, currentRole)
  {
    assert NavItems[k..][1..] == NavItems[k + 1..];
  }

  /** The filter over the table, unfolded entry by entry. */
  lemma Unfold(s: bool, r: Option<Role>)
    ensures FilteredNavItems(s, r) ==
      Part(0, s, r) + (Part(1, s, r) + (Part(2, s, r) + (Part(3, s, r) + (Part(4, s, r) +
      (Part(5, s, r) + (Part(6, s, r) + (Part(7, s, r) + Part(8, s, r))))))))
  {
    assert NavItems[0..] == NavItems;
    assert NavItems[9..] == [];
    Step(8, s, r);
    assert Filter(NavItems[8..], s, r) == Part(8, s, r);
    Step(7, s, r);
    Step(6, s, r);
    Step(5, s, r);
    Step(4, s, r);
    Step(3, s, r);
    Step(2, s, r);
    Step(1, s, r);
    Step(0, s, r);
  }

  /** A superuser is shown all nine entries, whatever the current role. */
  lemma SuperuserEntries(role: Option<Role>)
    ensures FilteredNavItems(true, role) == NavItems
  {
    FilterAll(NavItems, role);
  }

  lemma {:induction false} FilterAll(items: seq<NavItem>, role: Option<Role>)
    ensures Filter(items, true, role) == items
  {
    if items != [] {
      FilterAll(items[1..], role);
    }
  }

  /** An owner is shown every entry but Organizaciones, in declared order. */
  lemma OwnerEntries()
    ensures FilteredNavItems(false, Some(Owner)) == NavItems[..8]
  {
    Unfold(false, Some(Owner));
  }

  /** An admin is shown every entry but Usuarios and Organizaciones. */
  lemma AdminEntries()
    ensures FilteredNavItems(false, Some(Admin)) == NavItems[..7]
  {
    Unfold(false, Some(Admin));
  }

  /** An employee is shown only Dashboard and Ventas. */
  lemma EmployeeEntries()
    ensures FilteredNavItems(false, Some(Employee)) == [NavItems[0], NavItems[2]]
  {
    Unfold(false, Some(Employee));
  }

  /** A user with no role in the current organization is shown nothing. */
  lemma NoRoleNoEntries()
    ensures FilteredNavItems(false, None) == []
  {
    Unfold(false, None);
  }

  /** Organizaciones is for superusers only: no membership role shows it. */
  lemma OrganizationsForSuperuserOnly(role: Option<Role>)
    ensures NavItems[8] in FilteredNavItems(false, role) <==> role == Some(Superuser)
  {
    FilterKeepsShown(NavItems, false, role);
  }

  /** `displayRole`: superuser for a superuser, otherwise the current role. */
  function DisplayRole(isSuperuser: bool, currentRole: Option<Role>): Option<Role> {
    if isSuperuser then Some(Superuser) else currentRole
  }

  /** The displayed role is always the session's current role, and the
      entries shown are those whose roles include it. */
  lemma DisplayedRoleIsCurrent(state: AuthState)
    ensures DisplayRole(state.IsSuperuser(), state.CurrentRole()) == state.CurrentRole()
    ensures forall it :: it in FilteredNavItems(state.IsSuperuser(), state.CurrentRole()) <==>
      it in NavItems && (state.IsSuperuser() || state.HasRole(it.roles))
  {
    FilterKeepsShown(NavItems, state.IsSuperuser(), state.CurrentRole());
  }
}
