/** The handlers behind `/users`: listing the users of an organization,
    removing a user from an organization (or entirely), changing a password,
    updating a profile, and changing a user's role in an organization. The
    caller is the user the session token names; `orgHeader` is the
    `x-organization-id` header: not sent, sent empty, or naming an id. */
module Users {
  import opened Common
  import opened Directory

  /** What GET /users answers: every user, or the members of one organization
      with their role in it. */
  datatype Listing = AllUsers(users: map<int, User>) | OrgUsers(members: map<int, Role>)

  /** The `x-organization-id` header. An empty one is falsy like a missing
      one, but it is bound into a query as `''` rather than `undefined`. */
  datatype OrgHeader = NotSent | Empty | Sent(id: int)

  /** The organization a truthy header names; none for a missing or empty one. */
  function Chosen(h: OrgHeader): (r: Option<int>)
    ensures r.None? <==> !h.Sent?
    ensures h.Sent? ==> r == Some(h.id)
  {
    match h
    case Sent(id) => Some(id)
    case _ => None
  }

  /** A present, non-empty string: JavaScript's truthiness of a text field. */
  predicate Given(s: Option<string>) {
    s.Some? && s.value != ""
  }

  /** `s.length` in JavaScript: the number of UTF-16 code units, two for a
      character beyond the Basic Multilingual Plane. */
  function Utf16Length(s: string): (n: nat)
    ensures |s| <= n <= 2 * |s|
  {
    if s == [] then 0
    else Utf16Length(s[..|s| - 1]) + (if s[|s| - 1] as int >= 0x1_0000 then 2 else 1)
  }

  /** Text made only of characters of the Basic Multilingual Plane has as
      many code units as characters. */
  lemma {:induction false} BmpLength(s: string)
    requires forall i :: 0 <= i < |s| ==> (s[i] as int) < 0x1_0000
    ensures Utf16Length(s) == |s|
  {
    if s != [] {
      BmpLength(s[..|s| - 1]);
    }
  }

  /** Five emoji are ten code units: long enough for the password check,
      although they are five characters. */
  lemma FiveEmojiLength()
    ensures |"\U{1F600}\U{1F600}\U{1F600}\U{1F600}\U{1F600}"| == 5
    ensures Utf16Length("\U{1F600}\U{1F600}\U{1F600}\U{1F600}\U{1F600}") == 10
  {
    var e := "\U{1F600}\U{1F600}\U{1F600}\U{1F600}\U{1F600}";
    assert e[..1][..0] == [];
    assert Utf16Length(e[..1]) == 2;
    assert e[..2][..1] == e[..1];
    assert Utf16Length(e[..2]) == 4;
    assert e[..3][..2] == e[..2];
    assert Utf16Length(e[..3]) == 6;
    assert e[..4][..3] == e[..3];
    assert Utf16Length(e[..4]) == 8;
    assert e[..4] == e[..|e| - 1];
  }

  /** Another user than `target` already holds `username` or `email`: the
      update would violate a `UNIQUE` constraint. */
  predicate Taken(users: map<int, User>, target: int, username: string, email: string) {
    exists u :: u in users && u != target && (users[u].username == username || users[u].email == email)
  }

  /** GET /users. Without an organization only a superuser is answered, with
      every user; with one, anybody gets that organization's members. */
  method ListUsers(db: Directory, caller: Caller, orgHeader: OrgHeader)
    returns (status: Status, listing: Option<Listing>)
    ensures status == BadRequest <==> !orgHeader.Sent? && !caller.isSuperuser
    ensures status == BadRequest ==> listing == None
    ensures !orgHeader.Sent? && caller.isSuperuser ==> status == Ok && listing == Some(AllUsers(db.users))
    ensures orgHeader.Sent? ==>
      status == Ok && listing == Some(OrgUsers(MembersOf(db.users, db.memberships, orgHeader.id)))
  {
    var org := Chosen(orgHeader);
    if org.None? && !caller.isSuperuser {
      return BadRequest, None;
    }
    if caller.isSuperuser && org.None? {
      return Ok, Some(AllUsers(db.users));
    }
    return Ok, Some(OrgUsers(MembersOf(db.users, db.memberships, org.value)));
  }

  /** DELETE /users/:id. Deleting oneself is refused before anything else. A
      non-superuser must be owner of the header's organization; without a
      header the membership lookup binds an undefined id and fails, and
      with an empty one it binds `''`, matches no membership and is
      refused. With a truthy header only the membership in that
      organization is removed; otherwise the user row itself is deleted,
      which only a superuser reaches. */
  method DeleteUser(db: Directory, caller: Caller, target: int, orgHeader: OrgHeader) returns (status: Status)
    requires db.Valid()
    modifies db
    ensures db.Valid()
    ensures caller.id == target ==> status == BadRequest
    ensures caller.id != target && !caller.isSuperuser && orgHeader.NotSent? ==> status == ServerError
    ensures caller.id != target && !caller.isSuperuser && orgHeader.Empty? ==> status == Forbidden
    ensures (caller.id != target && !caller.isSuperuser && orgHeader.Sent? &&
             !HasRoleIn(old(db.memberships), caller.id, orgHeader.id, {Owner})) ==> status == Forbidden
    ensures status == Ok <==>
      caller.id != target &&
      (caller.isSuperuser || (orgHeader.Sent? && HasRoleIn(old(db.memberships), caller.id, orgHeader.id, {Owner})))
    ensures status != Ok ==> unchanged(db)
    ensures status == Ok && orgHeader.Sent? ==>
      db.memberships == old(db.memberships) - {(target, orgHeader.id)} && db.users == old(db.users)
    ensures status == Ok && !orgHeader.Sent? ==>
      caller.isSuperuser && db.users == old(db.users) - {target} && db.memberships == old(db.memberships)
    ensures db.organizations == old(db.organizations) && db.inventories == old(db.inventories)
    ensures db.nextOrgId == old(db.nextOrgId) && db.nextInventoryId == old(db.nextInventoryId)
  {
    if caller.id == target {
      return BadRequest;
    }
    if !caller.isSuperuser {
      match orgHeader
      case NotSent =>
        return ServerError;
      case Empty =>
        // `organization_id = ''` matches no membership
        return Forbidden;
      case Sent(id) =>
        if !HasRoleIn(db.memberships, caller.id, id, {Owner}) {
          return Forbidden;
        }
    }
    var org := Chosen(orgHeader);
    if org.Some? {
      db.memberships := db.memberships - {(target, org.value)};
    } else {
      db.users := db.users - {target};
    }
    return Ok;
  }

  /** PUT /users/:id/password. The new password must be at least six
      UTF-16 code units long and the user must exist. Whoever changes their own password
      and also sends the current one must send the right one; `matches`
      stands for bcrypt's comparison and `hash` for its hashing. No other
      permission is checked. */
  method ChangePassword(db: Directory, caller: Caller, target: int, newPassword: Option<string>,
                        currentPassword: Option<string>, matches: (string, string) -> bool, hash: string -> string)
    returns (status: Status)
    requires db.Valid()
    modifies db
    ensures db.Valid()
    ensures newPassword.None? || Utf16Length(newPassword.value) < 6 ==> status == BadRequest
    ensures newPassword.Some? && Utf16Length(newPassword.value) >= 6 && target !in old(db.users) ==> status == NotFound
    ensures status == Unauthorized <==>
      && newPassword.Some? && Utf16Length(newPassword.value) >= 6 && target in old(db.users)
      && caller.id == target && Given(currentPassword)
      && !matches(currentPassword.value, old(db.users)[target].passwordHash)
    ensures status == Ok <==>
      && newPassword.Some? && Utf16Length(newPassword.value) >= 6 && target in old(db.users)
      && !(caller.id == target && Given(currentPassword) && !matches(currentPassword.value, old(db.users)[target].passwordHash))
    ensures status != Ok ==> unchanged(db)
    ensures status == Ok ==>
      db.users == old(db.users)[target := old(db.users)[target].(passwordHash := hash(newPassword.value))]
    ensures db.memberships == old(db.memberships) && db.organizations == old(db.organizations)
    ensures db.inventories == old(db.inventories)
    ensures db.nextOrgId == old(db.nextOrgId) && db.nextInventoryId == old(db.nextInventoryId)
  {
    if newPassword.None? || Utf16Length(newPassword.value) < 6 {
      return BadRequest;
    }
    if target !in db.users {
      return NotFound;
    }
    var user := db.users[target];
    if caller.id == target && Given(currentPassword) {
      if !matches(currentPassword.value, user.passwordHash) {
        return Unauthorized;
      }
    }
    db.users := db.users[target := user.(passwordHash := hash(newPassword.value))];
    return Ok;
  }

  /** PUT /users/:id. Only the user themself or a superuser may update a
      profile, and only an existing one. Absent fields fail the update, and
      a username or email another user holds is refused, so the accounts
      stay unique. */
  method UpdateProfile(db: Directory, caller: Caller, target: int, username: Option<string>, email: Option<string>)
    returns (status: Status)
    requires db.Valid()
    modifies db
    ensures db.Valid()
    ensures caller.id != target && !caller.isSuperuser ==> status == Forbidden
    ensures (caller.id == target || caller.isSuperuser) && target !in old(db.users) ==> status == NotFound
    ensures ((caller.id == target || caller.isSuperuser) && target in old(db.users) &&
             (username.None? || email.None?)) ==> status == ServerError
    ensures status == BadRequest <==>
      && (caller.id == target || caller.isSuperuser) && target in old(db.users)
      && username.Some? && email.Some? && Taken(old(db.users), target, username.value, email.value)
    ensures status == Ok <==>
      && (caller.id == target || caller.isSuperuser) && target in old(db.users)
      && username.Some? && email.Some? && !Taken(old(db.users), target, username.value, email.value)
    ensures status != Ok ==> unchanged(db)
    ensures status == Ok ==>
      db.users == old(db.users)[target := old(db.users)[target].(username := username.value, email := email.value)]
    ensures db.memberships == old(db.memberships) && db.organizations == old(db.organizations)
    ensures db.inventories == old(db.inventories)
    ensures db.nextOrgId == old(db.nextOrgId) && db.nextInventoryId == old(db.nextInventoryId)
  {
    if caller.id != target && !caller.isSuperuser {
      return Forbidden;
    }
    if target !in db.users {
      return NotFound;
    }
    if username.None? || email.None? {
      return ServerError;
    }
    if Taken(db.users, target, username.value, email.value) {
      return BadRequest;
    }
    db.users := db.users[target := db.users[target].(username := username.value, email := email.value)];
    return Ok;
  }

  /** PUT /users/:id/role. The checks run in order: an organization must be
      chosen, a non-superuser must be its owner, and the role must be owner,
      admin or employee (`role` is absent for any other text). The role is
      then set on the user's membership in that organization, if there is
      one. */
  method UpdateRole(db: Directory, caller: Caller, target: int, orgHeader: OrgHeader, role: Option<Role>)
    returns (status: Status)
    requires db.Valid()
    modifies db
    ensures db.Valid()
    ensures !orgHeader.Sent? ==> status == BadRequest
    ensures (orgHeader.Sent? && !caller.isSuperuser &&
             !HasRoleIn(old(db.memberships), caller.id, orgHeader.id, {Owner})) ==> status == Forbidden
    ensures status == Ok <==>
      && orgHeader.Sent?
      && (caller.isSuperuser || HasRoleIn(old(db.memberships), caller.id, orgHeader.id, {Owner}))
      && role.Some? && role.value in {Owner, Admin, Employee}
    ensures status != Ok ==> unchanged(db)
    ensures status == Ok && (target, orgHeader.id) in old(db.memberships) ==>
      db.memberships == old(db.memberships)[(target, orgHeader.id) := role.value]
    ensures status == Ok && (target, orgHeader.id) !in old(db.memberships) ==>
      db.memberships == old(db.memberships)
    ensures db.users == old(db.users) && db.organizations == old(db.organizations)
    ensures db.inventories == old(db.inventories)
    ensures db.nextOrgId == old(db.nextOrgId) && db.nextInventoryId == old(db.nextInventoryId)
  {
    if Chosen(orgHeader).None? {
      return BadRequest;
    }
    var org := Chosen(orgHeader).value;
    if !caller.isSuperuser && !HasRoleIn(db.memberships, caller.id, org, {Owner}) {
      return Forbidden;
    }
    if role.None? || role.value !in {Owner, Admin, Employee} {
      return BadRequest;
    }
    if (target, org) in db.memberships {
      db.memberships := db.memberships[(target, org) := role.value];
    }
    return Ok;
  }
}
