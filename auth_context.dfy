/** The client's session state: the logged-in user, the organization and
    inventory being worked on, the organization's inventories, and the
    token and choices kept in local storage. Requests it makes are given as
    their answers, absent when the request failed. */
module AuthContext {
  import opened Common

  /** An organization of the user's, with their role in it. */
  datatype OrgRef = OrgRef(id: int, name: string, role: Option<Role>)

  /** An inventory as the organization's listing returns it. */
  datatype InventoryRef = InventoryRef(id: int, organizationId: int, name: string)

  /** The user the client holds: `role` is the account's global role, and
      `organizations` the list of memberships, when the server sent one. */
  datatype SessionUser = SessionUser(id: int, role: Role, isSuperuser: bool, organizations: Option<seq<OrgRef>>)

  function OrgId(o: OrgRef): int {
    o.id
  }

  function InventoryId(inv: InventoryRef): int {
    inv.id
  }

  /** `orgs.find(o => o.id === id)`. */
  function FindOrg(orgs: seq<OrgRef>, id: int): Option<OrgRef> {
    FindById(orgs, OrgId, id)
  }

  /** `list.find(i => i.id == saved)`; an absent saved id matches nothing. */
  function FindInventory(list: seq<InventoryRef>, saved: Option<int>): (r: Option<InventoryRef>)
    ensures r.None? <==> saved.None? || forall i :: 0 <= i < |list| ==> list[i].id != saved.value
    ensures r.Some? ==> r.value.id == saved.value && r.value in list
  {
    if saved.None? then None else FindById(list, InventoryId, saved.value)
  }

  /** The inventory selection: the saved one if it is listed, else the
      first, else none. */
  function ChooseInventory(list: seq<InventoryRef>, saved: Option<int>): (r: Option<InventoryRef>)
    ensures r.None? <==> list == []
    ensures r.Some? ==> r.value in list
    ensures FindInventory(list, saved).Some? ==> r == FindInventory(list, saved)
    ensures list != [] && FindInventory(list, saved).None? ==> r == Some(list[0])
  {
    if list == [] then None
    else match FindInventory(list, saved)
      case Some(inv) => Some(inv)
      case None => Some(list[0])
  }

  /** The organization selection on load: the saved one if the user belongs
      to it, else their first. */
  function ChooseOrg(orgs: seq<OrgRef>, saved: Option<int>): (r: OrgRef)
    requires orgs != []
    ensures r in orgs
    ensures saved.Some? && FindOrg(orgs, saved.value).Some? ==> r == FindOrg(orgs, saved.value).value
    ensures saved.None? || FindOrg(orgs, saved.value).None? ==> r == orgs[0]
  {
    if saved.Some? && FindOrg(orgs, saved.value).Some? then FindOrg(orgs, saved.value).value else orgs[0]
  }

  class AuthState {
    var user: Option<SessionUser>
    var loading: bool
    var currentOrganization: Option<OrgRef>
    var currentInventory: Option<InventoryRef>
    var inventories: seq<InventoryRef>
    /** Local storage: `token`, `currentOrgId` and `currentInventoryId`. */
    var token: Option<string>
    var savedOrgId: Option<int>
    var savedInventoryId: Option<int>

    /** The provider's initial state over what local storage holds. */
    constructor (storedToken: Option<string>, storedOrg: Option<int>, storedInventory: Option<int>)
      ensures user == None && loading && currentOrganization == None && currentInventory == None && inventories == []
      ensures token == storedToken && savedOrgId == storedOrg && savedInventoryId == storedInventory
    {
      user := None;
      loading := true;
      currentOrganization := None;
      currentInventory := None;
      inventories := [];
      token := storedToken;
      savedOrgId := storedOrg;
      savedInventoryId := storedInventory;
    }

    predicate IsSuperuser()
      reads this
    {
      user.Some? && user.value.isSuperuser
    }

    /** `getCurrentRole`: superuser for a superuser; otherwise the role of
      the membership matching the current organization, and none without a
      current organization, a membership list or a matching membership. */
    function CurrentRole(): (r: Option<Role>)
      reads this
      ensures IsSuperuser() ==> r == Some(Superuser)
      ensures !IsSuperuser() && (currentOrganization.None? || user.None? || user.value.organizations.None?) ==> r == None
      ensures !IsSuperuser() && r.Some? ==>
        && currentOrganization.Some? && user.Some? && user.value.organizations.Some?
        && exists o :: o in user.value.organizations.value && o.id == currentOrganization.value.id && o.role == r
    {
      if IsSuperuser() then Some(Superuser)
      else if currentOrganization.None? || user.None? || user.value.organizations.None? then None
      else match FindOrg(user.value.organizations.value, currentOrganization.value.id)
        case None => None
        case Some(o) => o.role
    }

    /** `hasRole(...roles)`: always for a superuser; otherwise exactly when
        there is a current role and it is one of `roles`. */
    predicate HasRole(roles: seq<Role>)
      reads this
    {
      IsSuperuser() || (CurrentRole().Some? && CurrentRole().value in roles)
    }

    /** `switchOrganization`: the organization changes and no inventory is
        chosen any more. */
    method SwitchOrganization(org: OrgRef)
      modifies this
      ensures currentOrganization == Some(org) && currentInventory == None
      ensures user == old(user) && loading == old(loading) && inventories == old(inventories)
      ensures token == old(token) && savedOrgId == old(savedOrgId) && savedInventoryId == old(savedInventoryId)
    {
      currentOrganization := Some(org);
      currentInventory := None;
    }

    /** `switchInventory`. */
    method SwitchInventory(inv: Option<InventoryRef>)
      modifies this
      ensures currentInventory == inv
      ensures user == old(user) && loading == old(loading) && inventories == old(inventories)
      ensures currentOrganization == old(currentOrganization)
      ensures token == old(token) && savedOrgId == old(savedOrgId) && savedInventoryId == old(savedInventoryId)
    {
      currentInventory := inv;
    }

    /** `logout`: the session and everything stored for it are forgotten. */
    method Logout()
      modifies this
      ensures user == None && currentOrganization == None && currentInventory == None && inventories == []
      ensures token == None && savedOrgId == None && savedInventoryId == None
      ensures loading == old(loading)
      ensures !IsSuperuser() && CurrentRole() == None && forall roles :: !HasRole(roles)
    {
      token := None;
      savedOrgId := None;
      savedInventoryId := None;
      user := None;
      currentOrganization := None;
      currentInventory := None;
      inventories := [];
    }

    /** `loadInventories`, given the answer of the organization's inventory
        listing: the list is kept and the saved inventory, the first or none
        is chosen; a failed request leaves no list and no inventory. */
    method LoadInventories(response: Option<seq<InventoryRef>>)
      modifies this
      ensures response.None? ==> inventories == [] && currentInventory == None
      ensures response.Some? ==>
        inventories == response.value && currentInventory == ChooseInventory(response.value, savedInventoryId)
      ensures currentInventory.Some? ==> currentInventory.value in inventories
      ensures user == old(user) && loading == old(loading) && currentOrganization == old(currentOrganization)
      ensures token == old(token) && savedOrgId == old(savedOrgId) && savedInventoryId == old(savedInventoryId)
    {
      if response.None? {
        inventories := [];
        currentInventory := None;
        return;
      }
      inventories := response.value;
      currentInventory := ChooseInventory(response.value, savedInventoryId);
    }

    /** `loadUser`, given the answer of `/auth/me` and that of the chosen
        organization's inventory listing. A failed `/auth/me` drops the
        stored token. Otherwise the user is kept and, when they have
        organizations, the saved one they belong to or their first is
        chosen and its inventories are loaded. Loading ends either way. */
    method LoadUser(me: Option<SessionUser>, invResponse: Option<seq<InventoryRef>>)
      modifies this
      ensures !loading
      ensures me.None? ==>
        && token == None && user == old(user) && currentOrganization == old(currentOrganization)
        && currentInventory == old(currentInventory) && inventories == old(inventories)
      ensures me.Some? ==> user == me && token == old(token)
      ensures me.Some? && (me.value.organizations.None? || me.value.organizations.value == []) ==>
        currentOrganization == old(currentOrganization) && currentInventory == old(currentInventory) &&
        inventories == old(inventories)
      ensures me.Some? && me.value.organizations.Some? && me.value.organizations.value != [] ==>
        && currentOrganization == Some(ChooseOrg(me.value.organizations.value, savedOrgId))
        && currentOrganization.value in me.value.organizations.value
        && (invResponse.None? ==> inventories == [] && currentInventory == None)
        && (invResponse.Some? ==>
              inventories == invResponse.value && currentInventory == ChooseInventory(invResponse.value, savedInventoryId))
      ensures savedOrgId == old(savedOrgId) && savedInventoryId == old(savedInventoryId)
    {
      if me.None? {
        token := None;
        loading := false;
        return;
      }
      user := me;
      var orgs := me.value.organizations;
      if orgs.Some? && |orgs.value| > 0 {
        currentOrganization := Some(ChooseOrg(orgs.value, savedOrgId));
        LoadInventories(invResponse);
      }
      loading := false;
    }
  }

  /** A member's role follows the organization they are in: once a
      non-superuser switches to one of their organizations, the current
      role is their role there. */
  method SwitchGivesRole(state: AuthState, org: OrgRef)
    requires state.user.Some? && !state.user.value.isSuperuser && state.user.value.organizations.Some?
    requires forall o :: o in state.user.value.organizations.value && o.id == org.id ==> o == org
    requires org in state.user.value.organizations.value
    modifies state
    ensures state.CurrentRole() == org.role
    ensures state.HasRole([Owner]) <==> org.role == Some(Owner)
  {
    state.SwitchOrganization(org);
  }
}
