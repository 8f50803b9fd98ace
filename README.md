# baton-privx connector core in Dafny

This project models the translation layer of the baton-privx connector, which exposes the
users and roles of a PrivX privileged-access-management system as resources, entitlements
and grants of a connector framework. The model covers five pieces:

- the page-token codec (`parsePageToken`), which turns an opaque cursor and a requested page
  size into an offset and a limit;
- the client's next-token rule (`getNextToken`) and the three paged fetch wrappers over the
  remote role store;
- the user and role resource builders: listing, the single "assigned" entitlement of a role,
  one grant per role member, and the principal-type guard on Grant and Revoke;
- the configuration schema and its validator.

Modules, one per source file or component:

- `Base` (base.dfy): `Option`, `Result`, the error values and the `(items, next token, error)`
  page triple.
- `Strconv` (strconv.dfy): Go's `strconv.Atoi` and `strconv.FormatInt(n, 10)`. These are
  written out because the codec's round trip depends on them.
- `Pagination` (pagination.dfy): pkg/connector/pagination.go.
- `Client` (client.dfy): pkg/connector/client/privx.go. `PrivXClient` is a class. Its three
  remote page sources are function-valued `const` fields. Role memberships are a mutable map,
  and the grant and revoke requests sent so far are a ghost log.
- `Resources` (resources.dfy): the framework's resource, entitlement and grant shapes as plain
  datatypes.
- `Users` (users.dfy) and `Roles` (roles.dfy): pkg/connector/users.go and
  pkg/connector/roles.go. Each builder is a class holding its client. `List` and `Grants` are
  methods with the source's append loops.
- `Config` (config.dfy): cmd/baton-privx/config.go. A loaded configuration is a map from
  field name to string, and an absent field reads as "".

The remote API is an input, not something the model executes. Each page source is a
function of the request. The remote's answer to a grant or revoke is a parameter `remote`:
either no error, which means the update is applied, or the error it returned.

Points where the code behaves in a way worth stating outright:

- A page token may carry a sign. `Atoi` accepts "-5", "+5" and "007", so negative offsets
  parse and nothing rejects them (pkg/connector/pagination.go:24-28).
- In the role builder's `List` and `Grants`, a malformed page token is only logged
  (pkg/connector/roles.go:49-52, 103-106). The fetch then goes ahead with the offset *and
  limit* that `parsePageToken` returned together with its error, and both are 0. So the
  next token after such a fetch is never "" (`MalformedTokenRestarts`). The user builder's
  `List` does not use that limit; see below.
- The role entitlement is declared grantable to the role resource type, not to users
  (pkg/connector/roles.go:84).
- The user trait email is built by `WithEmail(user.Email, true)`
  (pkg/connector/users.go:105). The model keeps that flag as `Email.isPrimary`, the meaning
  of that argument in the framework.
- pkg/connector/users.go:42 calls `parsePageToken` with the bare cursor string and two
  results. That call does not match the three-result function in pagination.go. The user
  `List` is therefore modelled as follows:
  - the offset is the one `parsePageToken` gives for the same token (empty means 0, and a
    malformed cursor is logged and means 0);
  - the limit is the requested size exactly as given (pkg/connector/users.go:47), with no
    default of 100.

  Under that reading, a size of 0 or less never ends a user listing (see "## Findings").
  The user tests (pkg/connector/users_test.go:44-55) expect the default limit of 100.
  `UserBuilder.ListWithDefaultLimit` models that intended behaviour.

## Model

| member | source | states |
|---|---|---|
| `Strconv.Atoi` | pkg/connector/pagination.go:24 | succeeds exactly on an optional sign followed by one or more ASCII digits; every other string is a syntax error naming that string |
| `Strconv.FormatInt` | pkg/connector/client/privx.go:57 | the rendering is canonical: optional '-', no '+', no leading zero, never "-0" |
| `Strconv.FormatRoundTrip` | pkg/connector/client/privx.go:57 | decoding a rendered integer gives it back: Atoi(FormatInt(n)) == Ok(n) for every integer |
| `Strconv.CanonicalRoundTrip` | pkg/connector/pagination.go:24-28 | every canonical string decodes and renders back to itself, so rendering is a bijection onto canonical strings |
| `Strconv.AtoiPlusSign` | pkg/connector/pagination.go:24 | a '+' before a digit string leaves the decoded value unchanged |
| `Strconv.AtoiMinusSign` | pkg/connector/pagination.go:24 | a '-' before a digit string negates the decoded value, so "-0" decodes to 0 |
| `Strconv.AtoiLeadingZero` | pkg/connector/pagination.go:24 | a leading zero leaves the decoded value unchanged; with the sign lemmas and CanonicalRoundTrip this fixes the value of every accepted string |
| `Pagination.ParsePageToken` | pkg/connector/pagination.go:15-36 | no token gives (0, 100, no error); an empty cursor gives offset 0 and no error; a cursor that is not a signed decimal gives an error with offset 0 and limit 0 (size ignored); otherwise the offset is the decoded cursor, sign allowed, and the limit is the size when positive, else 100, so always positive |
| `Pagination.TokenRoundTrip` | pkg/connector/client/privx.go:57 | a non-empty next token parses, for any requested size, to offset start+found with no error |
| `Pagination.CursorAdvances` | pkg/connector/client/privx.go:53-57 | with a positive page size, the offset a non-empty next token parses to is at least start+pageSize, so the cursor strictly advances |
| `Pagination.FullPageThenEmptyPage` | pkg/connector/client/privx.go:53-57 | a page exactly pageSize long yields a non-empty token resuming at start+pageSize, and an empty page there yields "" |
| `Pagination.MalformedTokenRestarts` | pkg/connector/pagination.go:24-27 | a malformed cursor yields offset 0 and limit 0, after which any fetched page gets the non-empty token FormatInt(found) |
| `Client.GetNextToken` | pkg/connector/client/privx.go:52-58 | the token is "" exactly when found < pageSize; otherwise it is canonical and decodes to start+found |
| `Client.ToPage` | pkg/connector/client/privx.go:96-102 | a remote error becomes (nil, "", err) unchanged; otherwise the items are returned unchanged with token GetNextToken(offset, count, limit) |
| `Client.PrivXClient.GetUsers` | pkg/connector/client/privx.go:80-103 | the search-users source's error is returned as (nil, "", err); its items come back unchanged with GetNextToken(offset, count, limit) |
| `Client.PrivXClient.GetRoles` | pkg/connector/client/privx.go:105-127 | the same contract over the roles source |
| `Client.PrivXClient.GetUsersForRole` | pkg/connector/client/privx.go:129-153 | the same contract over the role-members source for the given role id |
| `Client.PrivXClient.GrantRole` | pkg/connector/client/privx.go:155-160 | one grant request is sent; the remote's answer is returned; on success the role is added to the user's roles and no other user's entry changes; on error nothing changes |
| `Client.PrivXClient.RevokeRole` | pkg/connector/client/privx.go:162-167 | one revoke request is sent; on success the role is removed from the user's roles and nothing else changes; on error nothing changes |
| `Users.UserResource` | pkg/connector/users.go:93-114 | id (user, ID), display name FullName, profile {full_name, id}, one email flagged true, status always enabled |
| `Users.UserResourceLossless` | pkg/connector/users.go:93-107 | the user id, full name and email can be read back from the resource, so the mapping is injective |
| `Users.UserBuilder.ListPage` | pkg/connector/users.go:47-67 | a client error gives (nil, "", err); otherwise one resource per fetched user, in order, and the client's next token |
| `Users.UserBuilder.List` | pkg/connector/users.go:26-68 | as written: offset from the parsed cursor and limit = requested size; a client error gives (nil, "", err); otherwise one resource per fetched user, in order, and the client's next token |
| `Users.UserBuilder.ListWithDefaultLimit` | pkg/connector/users_test.go:44-55 | as the tests expect: offset and limit both from parsePageToken, same mapping; after a well-formed cursor a non-empty next token parses to an offset at least one whole page further |
| `Users.UserBuilder.Entitlements` | pkg/connector/users.go:71-77 | always (empty, "", no error) |
| `Users.UserBuilder.Grants` | pkg/connector/users.go:80-86 | always (empty, "", no error) |
| `Users.ListResumesAfterFullPage` | pkg/connector/users_test.go:86-107 | resuming at "100" with size 3 against three users gives three resources, no error and next token "103" |
| `Users.ListFirstPageAsWritten` | pkg/connector/users_test.go:44-57 | as written, no cursor and size 0 against three users gives three resources and next token "3", not the "" the test expects |
| `Users.ListEmptyPageRepeats` | pkg/connector/users.go:47 | as written, resuming at "7" with size 0 against an empty page gives next token "7" again |
| `Users.UserListStalls` | pkg/connector/users.go:47 | with size 0 or less, an empty page yields a token that parses back, without error, to the same offset |
| `Users.ListFirstPageEnds` | pkg/connector/users_test.go:44-57 | with the default limit, no cursor and size 0 against three users gives three resources, no error and next token "" |
| `Roles.RoleResource` | pkg/connector/roles.go:190-206 | id (role, ID), display name Name, profile {name: Name} |
| `Roles.RoleResourceLossless` | pkg/connector/roles.go:190-200 | the role id and name can be read back from the resource |
| `Roles.AssignedEntitlement` | pkg/connector/roles.go:80-88 | slug "assigned" on the role resource, grantable to the role type, description "Has <name> role membership", display name "<name> role assigned" |
| `Roles.MemberGrant` | pkg/connector/roles.go:120-130 | the grant is of the role's "assigned" entitlement to the user principal (user, member ID) |
| `Roles.RoleBuilder.List` | pkg/connector/roles.go:37-72 | fetches with the parsed (offset, limit), which are (0, 0) after a logged parse error; a client error gives (nil, "", err); otherwise one resource per role in order and the client's next token |
| `Roles.RoleBuilder.Entitlements` | pkg/connector/roles.go:75-90 | exactly one entitlement, the assigned one, and next token "" |
| `Roles.RoleBuilder.Grants` | pkg/connector/roles.go:92-134 | fetches the members of this role; a client error gives (nil, "", err); otherwise exactly one grant per member, in member order, and the client's next token |
| `Roles.RoleBuilder.Grant` | pkg/connector/roles.go:136-158 | a non-user principal gets the error "only users can be assigned roles" and the client is untouched (no request, no change); a user principal causes GrantRole(principal id, entitlement resource id) and its answer is returned |
| `Roles.RoleBuilder.Revoke` | pkg/connector/roles.go:160-184 | the same guard on the grant's principal with the "revoked" message and no client call; a user principal causes RevokeRole(principal id, entitlement resource id) |
| `Roles.ListedGrantsAreRevocable` | pkg/connector/roles.go:118-131 | every emitted grant names the entitlement Entitlements declares and a user principal, so Revoke accepts it and targets that member and role |
| `Config.ValidateConfig` | cmd/baton-privx/config.go:44-61 | no error exactly when all five fields are non-empty; otherwise the error names the first empty field in the order base-url, api-client-id, api-client-secret, oauth-client-id, oauth-client-secret |
| `Config.SchemaMatchesValidation` | cmd/baton-privx/config.go:35-41 | five schema fields with distinct names, the same fields the validator checks |
| `Config.OnlyEmptinessMatters` | cmd/baton-privx/config.go:45-58 | configurations that are empty in the same fields validate alike, so any non-empty value passes |

## Findings

| source | as written | input that shows it | evidently intended | confidence | as-written member | corrected member |
|---|---|---|---|---|---|---|
| pkg/connector/users.go:47 | the user `List` passes the requested size as the limit, so a size of 0 or less makes every next token non-empty | size 0 and cursor "7" against an empty page: the next token is "7" again, and the listing never ends; size 0 and no cursor against three users: the token is "3", while users_test.go:44-55 expects "" | offset and limit from `parsePageToken`, as the role builder does, so a size of 0 means 100 | not executed | `Users.ListEmptyPageRepeats` | `Users.UserBuilder.ListWithDefaultLimit` |

## Left out

- OAuth and REST client construction (`NewPrivXClient`, including the trimming of '/' from the base URL) and `Verify` (pkg/connector/client/privx.go:20-50, 61-74): these are calls into the PrivX SDK and a token exchange.
- The remote calls behind the page sources and behind grant and revoke are abstract. The page sources are fixed functions, so they do not observe membership changes made by Grant or Revoke. The read-modify-write race of the remote grant and revoke is a cross-process concern and is not modelled.
- Strconv.Atoi: does not model the 64-bit range error, because integers are mathematical.
- Strconv.FormatInt: does not model the int64 conversion of start+found.
- Logging, `context.Context`, annotations, `ResourceType` and the `newUserBuilder`/`newRoleBuilder` factories: they carry no logic. The builders' constructors stand in for the factories.
- Resource construction errors from the framework's resource constructors (pkg/connector/users.go:59-62, pkg/connector/roles.go:63-66): the constructors are not part of this model. The mappers are total, so the abort branch of `List` cannot arise in the model.
- The resource type descriptors and their ids "user" and "role": resource_types.go is not part of this model. The ids are constants in `Resources`.
- The unused role-membership constants (permanent, restricted, floating) in pkg/connector/roles.go:21-23.
- A nil page token passed to the user `List` or the role `Grants`: the source dereferences it before any check, so it would panic there. These methods take a token value.
- The distinction between a nil slice and an empty one: both are the empty sequence.
- The viper and field-schema machinery (cmd/baton-privx/config.go:11-32) beyond field names and descriptions.
