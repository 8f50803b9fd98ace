/** The PrivX API client (pkg/connector/client/privx.go): the next-token
    rule, the three paged fetch wrappers over the remote role store, and
    role grant/revoke as updates of the remote membership state. The
    remote calls themselves (SearchUsers, Roles, GetRoleMembers,
    GrantUserRole, RevokeUserRole) are abstract: the page sources are
    function-valued fields, and the outcome of a grant or revoke is a
    parameter. */
module Client {
  import opened Base
  import opened Strconv

  /** rolestore.User, reduced to the fields the connector reads. */
  datatype User = User(id: string, fullName: string, email: string)

  /** rolestore.Role, reduced to the fields the connector reads. */
  datatype Role = Role(id: string, name: string)

  /** A request that reached the remote role store. */
  datatype Call =
    | GrantUserRole(userId: string, roleId: string)
    | RevokeUserRole(userId: string, roleId: string)

  /** getNextToken: a page shorter than the requested size ends the
      listing with ""; otherwise the token is the decimal offset just past
      the page. A page exactly as long as the size is not recognised as the
      last one. */
  function GetNextToken(start: int, found: int, pageSize: int): (r: string)
    ensures r == "" <==> found < pageSize
    ensures r != "" ==> IsCanonical(r) && Atoi(r) == Ok(start + found)
  {
    if found < pageSize then
      ""
    else
      FormatRoundTrip(start + found);
      FormatInt(start + found)
  }

  /** The tail shared by GetUsers, GetRoles and GetUsersForRole: a remote
      error is returned as (nil, "", err); otherwise the items come back
      unchanged with the next token computed from their count. */
  function ToPage<T>(response: Result<seq<T>>, offset: int, limit: int): (r: Page<T>)
    ensures response.Err? ==> r == Page([], "", Some(response.error))
    ensures response.Ok? ==> r.err.None? && r.items == response.value
    ensures response.Ok? ==> r.nextToken == GetNextToken(offset, |response.value|, limit)
  {
    match response
    case Err(e) => Page([], "", Some(e))
    case Ok(items) => Page(items, GetNextToken(offset, |items|, limit), None)
  }

  class PrivXClient {
    /** RoleStore.SearchUsers(offset, limit, "", "", empty filter). */
    const searchUsers: (int, int) -> Result<seq<User>>
    /** RoleStore.Roles(offset, limit, "", ""). */
    const roles: (int, int) -> Result<seq<Role>>
    /** RoleStore.GetRoleMembers(roleId, offset, limit, "", ""). */
    const roleMembers: (string, int, int) -> Result<seq<User>>

    /** The remote role assignments: user id to the ids of its roles. */
    var memberships: map<string, set<string>>
    /** The grant and revoke requests sent to the remote, in order. */
    ghost var calls: seq<Call>

    constructor (
      searchUsers: (int, int) -> Result<seq<User>>,
      roles: (int, int) -> Result<seq<Role>>,
      roleMembers: (string, int, int) -> Result<seq<User>>,
      memberships: map<string, set<string>>)
      ensures this.searchUsers == searchUsers && this.roles == roles
      ensures this.roleMembers == roleMembers
      ensures this.memberships == memberships && calls == []
    {
      this.searchUsers := searchUsers;
      this.roles := roles;
      this.roleMembers := roleMembers;
      this.memberships := memberships;
      calls := [];
    }

    /** The roles a user holds; a user without an entry holds none. */
    function RolesOf(userId: string): (r: set<string>)
      reads this
      ensures userId !in memberships ==> r == {}
    {
      if userId in memberships then memberships[userId] else {}
    }

    /** GetUsers: a page of the global user list. */
    function GetUsers(offset: int, limit: int): (r: Page<User>)
      ensures searchUsers(offset, limit).Err? ==>
        r == Page([], "", Some(searchUsers(offset, limit).error))
      ensures searchUsers(offset, limit).Ok? ==>
        r.err.None? && r.items == searchUsers(offset, limit).value &&
        r.nextToken == GetNextToken(offset, |r.items|, limit)
    {
      ToPage(searchUsers(offset, limit), offset, limit)
    }

    /** GetRoles: a page of the role list. */
    function GetRoles(offset: int, limit: int): (r: Page<Role>)
      ensures roles(offset, limit).Err? ==>
        r == Page([], "", Some(roles(offset, limit).error))
      ensures roles(offset, limit).Ok? ==>
        r.err.None? && r.items == roles(offset, limit).value &&
        r.nextToken == GetNextToken(offset, |r.items|, limit)
    {
      ToPage(roles(offset, limit), offset, limit)
    }

    /** GetUsersForRole: a page of the members of one role. */
    function GetUsersForRole(roleId: string, offset: int, limit: int): (r: Page<User>)
      ensures roleMembers(roleId, offset, limit).Err? ==>
        r == Page([], "", Some(roleMembers(roleId, offset, limit).error))
      ensures roleMembers(roleId, offset, limit).Ok? ==>
        r.err.None? && r.items == roleMembers(roleId, offset, limit).value &&
        r.nextToken == GetNextToken(offset, |r.items|, limit)
    {
      ToPage(roleMembers(roleId, offset, limit), offset, limit)
    }

    /** GrantRole: the remote adds the role to the user's role list, unless
        it answers with the error `remote`, which is returned unchanged. */
    method GrantRole(userId: string, roleId: string, remote: Option<Error>) returns (err: Option<Error>)
      modifies this
      ensures err == remote
      ensures calls == old(calls) + [GrantUserRole(userId, roleId)]
      ensures memberships == if remote.None?
        then old(memberships)[userId := old(RolesOf(userId)) + {roleId}]
        else old(memberships)
    {
      calls := calls + [GrantUserRole(userId, roleId)];
      if remote.None? {
        memberships := memberships[userId := RolesOf(userId) + {roleId}];
      }
      err := remote;
    }

    /** RevokeRole: the remote removes the role from the user's role list,
        unless it answers with the error `remote`. */
    method RevokeRole(userId: string, roleId: string, remote: Option<Error>) returns (err: Option<Error>)
      modifies this
      ensures err == remote
      ensures calls == old(calls) + [RevokeUserRole(userId, roleId)]
      ensures memberships == if remote.None?
        then old(memberships)[userId := old(RolesOf(userId)) - {roleId}]
        else old(memberships)
    {
      calls := calls + [RevokeUserRole(userId, roleId)];
      if remote.None? {
        memberships := memberships[userId := RolesOf(userId) - {roleId}];
      }
      err := remote;
    }
  }
}
