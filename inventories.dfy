/** The handlers behind `/inventories`: listing an organization's
    inventories, fetching one with its organization's name, creating one in
    an organization the caller owns or administers, renaming and deleting. */
module Inventories {
  import opened Common
  import opened Directory
  import opened Organizations

  /** An inventory joined with the name of its organization. */
  datatype InventoryView = InventoryView(id: int, inventory: Inventory, organizationName: string)

  /** GET /inventories/organization/:orgId: exactly the inventories of that
      organization. */
  method ListByOrganization(db: Directory, orgId: int) returns (invs: map<int, Inventory>)
    ensures forall i :: i in invs <==> i in db.inventories && db.inventories[i].organizationId == orgId
    ensures forall i :: i in invs ==> invs[i] == db.inventories[i]
  {
    invs := map i | i in db.inventories && db.inventories[i].organizationId == orgId :: db.inventories[i];
  }

  /** GET /inventories/:id. The lookup joins the organization, so an unknown
      inventory and one whose organization is gone both give 404. */
  method GetInventory(db: Directory, id: int) returns (status: Status, view: Option<InventoryView>)
    ensures status == NotFound <==> id !in db.inventories || db.inventories[id].organizationId !in db.organizations
    ensures status == NotFound ==> view == None
    ensures status != NotFound ==>
      status == Ok &&
      view == Some(InventoryView(id, db.inventories[id], db.organizations[db.inventories[id].organizationId].name))
  {
    if id !in db.inventories || db.inventories[id].organizationId !in db.organizations {
      return NotFound, None;
    }
    var inv := db.inventories[id];
    return Ok, Some(InventoryView(id, inv, db.organizations[inv.organizationId].name));
  }

  /** POST /inventories. An absent or zero organization id, or an absent or
      empty name, is refused; a non-superuser must be owner or admin of the
      organization; the new inventory then belongs to it. */
  method CreateInventory(db: Directory, caller: Caller, orgId: Option<int>, name: Option<string>)
    returns (status: Status, id: Option<int>)
    requires db.Valid()
    modifies db
    ensures db.Valid()
    ensures orgId.None? || orgId.value == 0 || name.None? || name.value == "" ==> status == BadRequest
    ensures (orgId.Some? && orgId.value != 0 && name.Some? && name.value != "" && !caller.isSuperuser &&
             !HasRoleIn(old(db.memberships), caller.id, orgId.value, {Owner, Admin})) ==> status == Forbidden
    ensures status == Created <==>
      && orgId.Some? && orgId.value != 0 && name.Some? && name.value != ""
      && (caller.isSuperuser || HasRoleIn(old(db.memberships), caller.id, orgId.value, {Owner, Admin}))
    ensures status != Created ==> id == None && unchanged(db)
    ensures status == Created ==>
      var t := old(db.nextInventoryId);
      && id == Some(t) && t !in old(db.inventories)
      && db.inventories == old(db.inventories)[t := Inventory(orgId.value, name.value)]
      && db.nextInventoryId == t + 1
    ensures db.users == old(db.users) && db.organizations == old(db.organizations) && db.memberships == old(db.memberships)
    ensures db.nextOrgId == old(db.nextOrgId)
  {
    if orgId.None? || orgId.value == 0 || name.None? || name.value == "" {
      return BadRequest, None;
    }
    if !caller.isSuperuser && !HasRoleIn(db.memberships, caller.id, orgId.value, {Owner, Admin}) {
      return Forbidden, None;
    }
    var t := db.nextInventoryId;
    db.inventories := db.inventories[t := Inventory(orgId.value, name.value)];
    db.nextInventoryId := t + 1;
    return Created, Some(t);
  }

  /** PUT /inventories/:id, for any caller: an absent name fails the update;
      otherwise the inventory, if it exists, takes the name, and the answer
      is the inventory as it now stands. */
  method UpdateInventory(db: Directory, id: int, name: Option<string>) returns (status: Status, inv: Option<Inventory>)
    requires db.Valid()
    modifies db
    ensures db.Valid()
    ensures status == Ok <==> name.Some?
    ensures name.None? ==> status == ServerError && inv == None && unchanged(db)
    ensures name.Some? && id in old(db.inventories) ==>
      db.inventories == old(db.inventories)[id := old(db.inventories)[id].(name := name.value)] &&
      inv == Some(db.inventories[id])
    ensures name.Some? && id !in old(db.inventories) ==> db.inventories == old(db.inventories) && inv == None
    ensures db.users == old(db.users) && db.organizations == old(db.organizations) && db.memberships == old(db.memberships)
    ensures db.nextOrgId == old(db.nextOrgId) && db.nextInventoryId == old(db.nextInventoryId)
  {
    if name.None? {
      return ServerError, None;
    }
    if id in db.inventories {
      db.inventories := db.inventories[id := db.inventories[id].(name := name.value)];
      return Ok, Some(db.inventories[id]);
    }
    return Ok, None;
  }

  /** DELETE /inventories/:id, for any caller. */
  method DeleteInventory(db: Directory, id: int) returns (status: Status)
    requires db.Valid()
    modifies db
    ensures db.Valid()
    ensures status == Ok
    ensures db.inventories == old(db.inventories) - {id}
    ensures db.users == old(db.users) && db.organizations == old(db.organizations) && db.memberships == old(db.memberships)
    ensures db.nextOrgId == old(db.nextOrgId) && db.nextInventoryId == old(db.nextInventoryId)
  {
    db.inventories := db.inventories - {id};
    return Ok;
  }

  /** The creator of an organization may at once create inventories in it:
      a non-superuser's new organization makes them its owner, which the
      inventory check accepts, and the inventory is then listed under the
      organization and found with its name. */
  method CreatorAddsInventory(db: Directory, caller: Caller, orgName: string, invName: string)
    returns (orgStatus: Status, invStatus: Status, org: Option<int>, inv: Option<int>)
    requires db.Valid()
    requires !caller.isSuperuser && orgName != "" && invName != ""
    requires (caller.id, db.nextOrgId) !in db.memberships
    modifies db
    ensures db.Valid()
    ensures orgStatus == Created && invStatus == Created && org.Some? && inv.Some?
    ensures inv.value in db.inventories && db.inventories[inv.value] == Inventory(org.value, invName)
    ensures org.value in db.organizations && db.organizations[org.value] == Organization(orgName, caller.id)
  {
    orgStatus, org := CreateOrganization(db, caller, Some(orgName));
    invStatus, inv := CreateInventory(db, caller, Some(org.value), Some(invName));
    var listed := ListByOrganization(db, org.value);
    assert inv.value in listed;
    var found: Option<InventoryView>;
    var status: Status;
    status, found := GetInventory(db, inv.value);
    assert status == Ok && found.value.organizationName == orgName;
  }
}
