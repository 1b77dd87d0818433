/** The tables behind the user, organization and inventory handlers: users,
    organizations, the membership relation that gives each (user,
    organization) pair its role, and inventories, each belonging to an
    organization. */
module Directory {
  import opened Common

  /** A row of `users`; `username` and `email` are each unique. */
  datatype User = User(username: string, email: string, passwordHash: string)

  /** A row of `organizations`. */
  datatype Organization = Organization(name: string, createdBy: int)

  /** A row of `inventories`. */
  datatype Inventory = Inventory(organizationId: int, name: string)

  /** The guard every owner-only handler runs: a row of `user_organizations`
      for (`user`, `org`) whose role is one of `roles`. */
  predicate HasRoleIn(memberships: map<(int, int), Role>, user: int, org: int, roles: set<Role>) {
    (user, org) in memberships && memberships[(user, org)] in roles
  }

  /** `JOIN user_organizations uo ON u.id = uo.user_id WHERE
      uo.organization_id = ?`: the existing users with a membership in
      `org`, each with the role it gives them. */
  function MembersOf(users: map<int, User>, memberships: map<(int, int), Role>, org: int): (r: map<int, Role>)
    ensures forall u :: u in r <==> u in users && (u, org) in memberships
    ensures forall u :: u in r ==> r[u] == memberships[(u, org)]
  {
    map u | u in users && (u, org) in memberships :: memberships[(u, org)]
  }

  /** The `UNIQUE` constraints of `users.username` and `users.email`. */
  predicate UniqueAccounts(users: map<int, User>) {
    forall a, b :: a in users && b in users && a != b ==>
      users[a].username != users[b].username && users[a].email != users[b].email
  }

  class Directory {
    var users: map<int, User>
    var organizations: map<int, Organization>
    /** `user_organizations`, keyed by (user, organization). */
    var memberships: map<(int, int), Role>
    var inventories: map<int, Inventory>
    var nextOrgId: int
    var nextInventoryId: int

    /** No two users share a username or an email, and every organization
        and inventory was numbered by its counter, which starts at 1 as an
        `AUTO_INCREMENT` column does. */
    ghost predicate Valid()
      reads this
    {
      && UniqueAccounts(users)
      && 1 <= nextOrgId && 1 <= nextInventoryId
      && (forall o :: o in organizations ==> o < nextOrgId)
      && (forall i :: i in inventories ==> i < nextInventoryId)
    }

    constructor (accounts: map<int, User>)
      requires UniqueAccounts(accounts)
      ensures Valid()
      ensures users == accounts && organizations == map[] && memberships == map[] && inventories == map[]
    {
      users := accounts;
      organizations := map[];
      memberships := map[];
      inventories := map[];
      nextOrgId := 1;
      nextInventoryId := 1;
    }
  }
}
