/** The handlers behind `/organizations`: role-scoped listing, creation
    (whose non-superuser creator becomes owner), owner-only renaming,
    superuser-only deletion, and the membership list, addition, role change
    and removal, which check no permission at all. */
module Organizations {
  import opened Common
  import opened Directory

  /** An organization as the listing returns it: the caller's role in it
      for a non-superuser, none for a superuser, and the number of its
      inventories and of its memberships. */
  datatype OrgEntry = OrgEntry(name: string, createdBy: int, role: Option<Role>, inventoryCount: nat, userCount: nat)

  /** `(SELECT COUNT(*) FROM inventories WHERE organization_id = o.id)`. */
  function InventoryCount(inventories: map<int, Inventory>, org: int): nat {
    |set i | i in inventories && inventories[i].organizationId == org|
  }

  /** `(SELECT COUNT(*) FROM user_organizations WHERE organization_id = o.id)`. */
  function UserCount(memberships: map<(int, int), Role>, org: int): nat {
    |set k | k in memberships && k.1 == org|
  }

  function EntryOf(db: Directory, o: int, role: Option<Role>): OrgEntry
    reads db
    requires o in db.organizations
  {
    OrgEntry(db.organizations[o].name, db.organizations[o].createdBy, role,
             InventoryCount(db.inventories, o), UserCount(db.memberships, o))
  }

  /** GET /organizations. A superuser gets every organization; anybody else
      only those they hold a membership in, each with their role there. */
  method ListOrganizations(db: Directory, caller: Caller) returns (orgs: map<int, OrgEntry>)
    ensures caller.isSuperuser ==> orgs.Keys == db.organizations.Keys
    ensures !caller.isSuperuser ==>
      forall o :: o in orgs <==> o in db.organizations && (caller.id, o) in db.memberships
    ensures forall o :: o in orgs ==>
      o in db.organizations && orgs[o] == EntryOf(db, o, if caller.isSuperuser then None else Some(db.memberships[(caller.id, o)]))
  {
    if caller.isSuperuser {
      orgs := map o | o in db.organizations :: EntryOf(db, o, None);
    } else {
      orgs := map o | o in db.organizations && (caller.id, o) in db.memberships ::
        EntryOf(db, o, Some(db.memberships[(caller.id, o)]));
    }
  }

  /** POST /organizations. A missing or empty name is refused. Otherwise the
      organization is numbered and recorded with its creator; a
      non-superuser creator is then made its owner, and should that
      membership already exist the insert fails after the organization was
      written. A superuser creator gets no membership. */
  method CreateOrganization(db: Directory, caller: Caller, name: Option<string>) returns (status: Status, id: Option<int>)
    requires db.Valid()
    modifies db
    ensures db.Valid()
    ensures name.None? || name.value == "" ==> status == BadRequest && id == None && unchanged(db)
    ensures name.Some? && name.value != "" ==>
      var t := old(db.nextOrgId);
      && t !in old(db.organizations)
      && db.organizations == old(db.organizations)[t := Organization(name.value, caller.id)]
      && db.nextOrgId == t + 1
      && (caller.isSuperuser ==> status == Created && id == Some(t) && db.memberships == old(db.memberships))
      && (!caller.isSuperuser && (caller.id, t) !in old(db.memberships) ==>
            status == Created && id == Some(t) && db.memberships == old(db.memberships)[(caller.id, t) := Owner])
      && (!caller.isSuperuser && (caller.id, t) in old(db.memberships) ==>
            status == ServerError && id == None && db.memberships == old(db.memberships))
    ensures status == Created && !caller.isSuperuser ==> HasRoleIn(db.memberships, caller.id, id.value, {Owner})
    ensures db.users == old(db.users) && db.inventories == old(db.inventories)
    ensures db.nextInventoryId == old(db.nextInventoryId)
  {
    if name.None? || name.value == "" {
      return BadRequest, None;
    }
    var t := db.nextOrgId;
    db.organizations := db.organizations[t := Organization(name.value, caller.id)];
    db.nextOrgId := t + 1;
    if !caller.isSuperuser {
      if (caller.id, t) in db.memberships {
        return ServerError, None;
      }
      db.memberships := db.memberships[(caller.id, t) := Owner];
    }
    return Created, Some(t);
  }

  /** PUT /organizations/:id. Only a superuser or the organization's owner
      passes; a missing name then fails the update, and any other name,
      even an empty one, replaces the old. The answer is the organization
      as it now stands, null for an unknown id. */
  method UpdateOrganization(db: Directory, caller: Caller, orgId: int, name: Option<string>)
    returns (status: Status, org: Option<Organization>)
    requires db.Valid()
    modifies db
    ensures db.Valid()
    ensures !caller.isSuperuser && !HasRoleIn(old(db.memberships), caller.id, orgId, {Owner}) ==>
      status == Forbidden && org == None
    ensures (caller.isSuperuser || HasRoleIn(old(db.memberships), caller.id, orgId, {Owner})) && name.None? ==>
      status == ServerError && org == None
    ensures status == Ok <==> (caller.isSuperuser || HasRoleIn(old(db.memberships), caller.id, orgId, {Owner})) && name.Some?
    ensures status != Ok ==> unchanged(db)
    ensures status == Ok && orgId in old(db.organizations) ==>
      db.organizations == old(db.organizations)[orgId := old(db.organizations)[orgId].(name := name.value)] &&
      org == Some(db.organizations[orgId])
    ensures status == Ok && orgId !in old(db.organizations) ==> db.organizations == old(db.organizations) && org == None
    ensures db.users == old(db.users) && db.memberships == old(db.memberships) && db.inventories == old(db.inventories)
    ensures db.nextOrgId == old(db.nextOrgId) && db.nextInventoryId == old(db.nextInventoryId)
  {
    if !caller.isSuperuser && !HasRoleIn(db.memberships, caller.id, orgId, {Owner}) {
      return Forbidden, None;
    }
    if name.None? {
      return ServerError, None;
    }
    if orgId in db.organizations {
      db.organizations := db.organizations[orgId := db.organizations[orgId].(name := name.value)];
      return Ok, Some(db.organizations[orgId]);
    }
    return Ok, None;
  }

  /** DELETE /organizations/:id, behind `requireSuperuser`: anybody else gets
      403; a superuser removes the organization row. */
  method DeleteOrganization(db: Directory, caller: Caller, orgId: int) returns (status: Status)
    requires db.Valid()
    modifies db
    ensures db.Valid()
    ensures status == Ok <==> caller.isSuperuser
    ensures !caller.isSuperuser ==> status == Forbidden && unchanged(db)
    ensures caller.isSuperuser ==> db.organizations == old(db.organizations) - {orgId}
    ensures db.users == old(db.users) && db.memberships == old(db.memberships) && db.inventories == old(db.inventories)
    ensures db.nextOrgId == old(db.nextOrgId) && db.nextInventoryId == old(db.nextInventoryId)
  {
    if !caller.isSuperuser {
      return Forbidden;
    }
    db.organizations := db.organizations - {orgId};
    return Ok;
  }

  /** GET /organizations/:id/users: the organization's members with their
      roles, to any caller. */
  method Members(db: Directory, orgId: int) returns (members: map<int, Role>)
    ensures forall u :: u in members <==> u in db.users && (u, orgId) in db.memberships
    ensures forall u :: u in members ==> members[u] == db.memberships[(u, orgId)]
  {
    members := MembersOf(db.users, db.memberships, orgId);
  }

  /** POST /organizations/:id/users, for any caller. An absent user id or
      role fails the insert; a pair that already has a membership is
      refused; otherwise the membership is added with the given role. */
  method AddMember(db: Directory, orgId: int, userId: Option<int>, role: Option<Role>) returns (status: Status)
    requires db.Valid()
    modifies db
    ensures db.Valid()
    ensures userId.None? || role.None? ==> status == ServerError
    ensures userId.Some? && role.Some? && (userId.value, orgId) in old(db.memberships) ==> status == BadRequest
    ensures status == Created <==> userId.Some? && role.Some? && (userId.value, orgId) !in old(db.memberships)
    ensures status != Created ==> unchanged(db)
    ensures status == Created ==> db.memberships == old(db.memberships)[(userId.value, orgId) := role.value]
    ensures db.users == old(db.users) && db.organizations == old(db.organizations) && db.inventories == old(db.inventories)
    ensures db.nextOrgId == old(db.nextOrgId) && db.nextInventoryId == old(db.nextInventoryId)
  {
    if userId.None? || role.None? {
      return ServerError;
    }
    if (userId.value, orgId) in db.memberships {
      return BadRequest;
    }
    db.memberships := db.memberships[(userId.value, orgId) := role.value];
    return Created;
  }

  /** PUT /organizations/:id/users/:userId, for any caller: sets the role of
      the membership, if there is one; an absent role fails the update. */
  method UpdateMemberRole(db: Directory, orgId: int, userId: int, role: Option<Role>) returns (status: Status)
    requires db.Valid()
    modifies db
    ensures db.Valid()
    ensures status == Ok <==> role.Some?
    ensures role.None? ==> status == ServerError && unchanged(db)
    ensures role.Some? && (userId, orgId) in old(db.memberships) ==>
      db.memberships == old(db.memberships)[(userId, orgId) := role.value]
    ensures role.Some? && (userId, orgId) !in old(db.memberships) ==> db.memberships == old(db.memberships)
    ensures db.users == old(db.users) && db.organizations == old(db.organizations) && db.inventories == old(db.inventories)
    ensures db.nextOrgId == old(db.nextOrgId) && db.nextInventoryId == old(db.nextInventoryId)
  {
    if role.None? {
      return ServerError;
    }
    if (userId, orgId) in db.memberships {
      db.memberships := db.memberships[(userId, orgId) := role.value];
    }
    return Ok;
  }

  /** DELETE /organizations/:id/users/:userId, for any caller: removes the
      membership, if there is one. */
  method RemoveMember(db: Directory, orgId: int, userId: int) returns (status: Status)
    requires db.Valid()
    modifies db
    ensures db.Valid()
    ensures status == Ok
    ensures db.memberships == old(db.memberships) - {(userId, orgId)}
    ensures db.users == old(db.users) && db.organizations == old(db.organizations) && db.inventories == old(db.inventories)
    ensures db.nextOrgId == old(db.nextOrgId) && db.nextInventoryId == old(db.nextInventoryId)
  {
    db.memberships := db.memberships - {(userId, orgId)};
    return Ok;
  }
}
