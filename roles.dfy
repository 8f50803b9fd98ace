/** The role resource builder of pkg/connector/roles.go: role listing, the
    single "assigned" entitlement of a role, one grant per role member, and
    granting or revoking membership for user principals only. */
module Roles {
  import opened Base
  import opened Client
  import opened Resources
  import opened Pagination

  const EntitlementAssigned: string := "assigned"

  /** roleResource: a PrivX role as a role resource. */
  function RoleResource(role: Role): (r: Resource)
    ensures r.id == ResourceId(RoleResourceType, role.id)
    ensures r.displayName == role.name
    ensures r.traitData == RoleTrait(map["name" := role.name])
  {
    Resource(ResourceId(RoleResourceType, role.id), role.name, RoleTrait(map["name" := role.name]))
  }

  /** Reads the PrivX role back out of a role resource. */
  function RoleOf(r: Resource): (role: Role) {
    Role(r.id.resource, r.displayName)
  }

  /** The mapping loses nothing: distinct roles give distinct resources. */
  lemma RoleResourceLossless(role: Role)
    ensures RoleOf(RoleResource(role)) == role
  {
  }

  /** The one entitlement of a role: membership, named "assigned". As
      written, it is declared grantable to the role resource type. */
  function AssignedEntitlement(resource: Resource): (e: Entitlement)
    ensures e.resource == resource && e.slug == "assigned"
    ensures e.grantableTo == [RoleResourceType]
    ensures e.description == "Has " + resource.displayName + " role membership"
    ensures e.displayName == resource.displayName + " role assigned"
  {
    Entitlement(
      resource,
      EntitlementAssigned,
      [RoleResourceType],
      "Has " + resource.displayName + " role membership",
      resource.displayName + " role " + EntitlementAssigned)
  }

  /** The grant emitted for one member of a role. */
  function MemberGrant(resource: Resource, member: User): (g: Grant)
    ensures g.entitlementResource == resource && g.slug == AssignedEntitlement(resource).slug
    ensures g.principal == ResourceId(UserResourceType, member.id) && IsUser(g.principal)
  {
    Grant(resource, EntitlementAssigned, ResourceId(UserResourceType, member.id))
  }

  class RoleBuilder {
    const client: PrivXClient

    constructor (client: PrivXClient)
      ensures this.client == client
    {
      this.client := client;
    }

    /** List: one resource per fetched role, in the remote's order, with the
        client's next token. A malformed page token is only logged: the
        fetch goes ahead with the offset and limit parsePageToken returned
        with its error (0 and 0). A client error gives (nil, "", err). */
    method List(pToken: Option<Token>) returns (resources: seq<Resource>, nextToken: string, err: Option<Error>)
      ensures var request := ParsePageToken(pToken);
        var page := client.GetRoles(request.offset, request.limit);
        && err == page.err
        && nextToken == page.nextToken
        && |resources| == |page.items|
        && forall i | 0 <= i < |resources| :: resources[i] == RoleResource(page.items[i])
    {
      var request := ParsePageToken(pToken);
      var page := client.GetRoles(request.offset, request.limit);
      if page.err.Some? {
        return [], "", page.err;
      }
      var roles := page.items;
      resources := [];
      for i := 0 to |roles|
        invariant |resources| == i
        invariant forall k | 0 <= k < i :: resources[k] == RoleResource(roles[k])
      {
        resources := resources + [RoleResource(roles[i])];
      }
      nextToken, err := page.nextToken, None;
    }

    /** Entitlements: exactly the "assigned" entitlement, on one page. */
    function Entitlements(resource: Resource): (r: Page<Entitlement>)
      ensures r.items == [AssignedEntitlement(resource)]
      ensures r.nextToken == "" && r.err.None?
    {
      Page([AssignedEntitlement(resource)], "", None)
    }

    /** Grants: one grant per member of the role on the fetched page, in
        member order, each of the "assigned" entitlement to that user; the
        client's next token is passed through, and a client error gives
        (nil, "", err). */
    method Grants(resource: Resource, pToken: Token) returns (grants: seq<Grant>, nextToken: string, err: Option<Error>)
      ensures var request := ParsePageToken(Some(pToken));
        var page := client.GetUsersForRole(resource.id.resource, request.offset, request.limit);
        && err == page.err
        && nextToken == page.nextToken
        && |grants| == |page.items|
        && forall i | 0 <= i < |grants| :: grants[i] == MemberGrant(resource, page.items[i])
    {
      var request := ParsePageToken(Some(pToken));
      var page := client.GetUsersForRole(resource.id.resource, request.offset, request.limit);
      if page.err.Some? {
        return [], "", page.err;
      }
      var members := page.items;
      grants := [];
      for i := 0 to |members|
        invariant |grants| == i
        invariant forall k | 0 <= k < i :: grants[k] == MemberGrant(resource, members[k])
      {
        grants := grants + [MemberGrant(resource, members[i])];
      }
      nextToken, err := page.nextToken, None;
    }

    /** Grant: only a user principal may be given a role; anything else is
        refused before the client is called. For a user, the role of the
        entitlement's resource is granted and the remote's answer returned. */
    method Grant(principal: Resource, entitlement: Entitlement, remote: Option<Error>) returns (err: Option<Error>)
      modifies client
      ensures !IsUser(principal.id) ==>
        err == Some(Errorf("baton-privx: only users can be assigned roles")) && unchanged(client)
      ensures IsUser(principal.id) ==>
        var userId, roleId := principal.id.resource, entitlement.resource.id.resource;
        && err == remote
        && client.calls == old(client.calls) + [GrantUserRole(userId, roleId)]
        && client.memberships == if remote.None?
             then old(client.memberships)[userId := old(client.RolesOf(userId)) + {roleId}]
             else old(client.memberships)
    {
      if !IsUser(principal.id) {
        return Some(Errorf("baton-privx: only users can be assigned roles"));
      }
      err := client.GrantRole(principal.id.resource, entitlement.resource.id.resource, remote);
    }

    /** Revoke: the same guard on the grant's principal; for a user, the role
        of the grant's entitlement resource is revoked. */
    method Revoke(grant: Grant, remote: Option<Error>) returns (err: Option<Error>)
      modifies client
      ensures !IsUser(grant.principal) ==>
        err == Some(Errorf("baton-privx: only users can have role assignment revoked")) && unchanged(client)
      ensures IsUser(grant.principal) ==>
        var userId, roleId := grant.principal.resource, grant.entitlementResource.id.resource;
        && err == remote
        && client.calls == old(client.calls) + [RevokeUserRole(userId, roleId)]
        && client.memberships == if remote.None?
             then old(client.memberships)[userId := old(client.RolesOf(userId)) - {roleId}]
             else old(client.memberships)
    {
      if !IsUser(grant.principal) {
        return Some(Errorf("baton-privx: only users can have role assignment revoked"));
      }
      err := client.RevokeRole(grant.principal.resource, grant.entitlementResource.id.resource, remote);
    }
  }

  /** Every grant Grants emits refers to the entitlement Entitlements
      declares on the same role, and names a user principal, so Revoke
      accepts it and revokes exactly that member from that role. */
  lemma ListedGrantsAreRevocable(resource: Resource, member: User)
    ensures var g := MemberGrant(resource, member);
      var e := AssignedEntitlement(resource);
      && g.entitlementResource == e.resource && g.slug == e.slug
      && IsUser(g.principal)
      && g.principal.resource == member.id
      && g.entitlementResource.id.resource == resource.id.resource
  {
  }
}
