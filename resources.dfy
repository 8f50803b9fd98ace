/** The connector framework's resource, entitlement and grant shapes, as
    plain values. Only the fields the connector sets or reads are kept. */
module Resources {

  /** The ids of the two resource types (userResourceType.Id and
      roleResourceType.Id). */
  const UserResourceType: string := "user"
  const RoleResourceType: string := "role"

  datatype ResourceId = ResourceId(resourceType: string, resource: string)

  /** v2.UserTrait_Status. */
  datatype UserStatus = StatusUnspecified | StatusEnabled | StatusDisabled | StatusDeleted

  /** A user trait email; the flag is the second argument of WithEmail. */
  datatype Email = Email(address: string, isPrimary: bool)

  datatype Trait =
    | UserTrait(userProfile: map<string, string>, emails: seq<Email>, status: UserStatus)
    | RoleTrait(roleProfile: map<string, string>)

  datatype Resource = Resource(id: ResourceId, displayName: string, traitData: Trait)

  /** An entitlement on a resource, named by its slug. */
  datatype Entitlement = Entitlement(
    resource: Resource,
    slug: string,
    grantableTo: seq<string>,
    description: string,
    displayName: string)

  /** A grant of the entitlement `slug` on `entitlementResource` to `principal`. */
  datatype Grant = Grant(entitlementResource: Resource, slug: string, principal: ResourceId)

  /** The principal-type test of Grant and Revoke. */
  predicate IsUser(id: ResourceId) {
    id.resourceType == UserResourceType
  }
}
