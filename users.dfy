/** The user resource builder of pkg/connector/users.go. */
module Users {
  import opened Base
  import opened Client
  import opened Resources
  import opened Pagination

  /** userResource: a PrivX user as a user resource. */
  function UserResource(user: User): (r: Resource)
    ensures r.id == ResourceId(UserResourceType, user.id)
    ensures r.displayName == user.fullName
    ensures r.traitData.UserTrait?
    ensures r.traitData.userProfile == map["full_name" := user.fullName, "id" := user.id]
    ensures r.traitData.emails == [Email(user.email, true)]
    ensures r.traitData.status == StatusEnabled
  {
    Resource(
      ResourceId(UserResourceType, user.id),
      user.fullName,
      UserTrait(map["full_name" := user.fullName, "id" := user.id], [Email(user.email, true)], StatusEnabled))
  }

  /** Reads the PrivX user back out of a user resource. */
  function UserOf(r: Resource): (user: User)
    requires r.traitData.UserTrait? && |r.traitData.emails| > 0
  {
    User(r.id.resource, r.displayName, r.traitData.emails[0].address)
  }

  /** The mapping loses nothing: distinct users give distinct resources. */
  lemma UserResourceLossless(user: User)
    ensures UserOf(UserResource(user)) == user
  {
  }

  class UserBuilder {
    const client: PrivXClient

    constructor (client: PrivXClient)
      ensures this.client == client
    {
      this.client := client;
    }

    /** The body of List after the cursor is parsed: one fetch at (offset,
        limit); a client error gives (nil, "", err); otherwise one resource
        per fetched user, in the remote's order, and the client's next token. */
    method ListPage(offset: int, limit: int) returns (resources: seq<Resource>, nextToken: string, err: Option<Error>)
      ensures var page := client.GetUsers(offset, limit);
        && err == page.err
        && nextToken == page.nextToken
        && |resources| == |page.items|
        && forall i | 0 <= i < |resources| :: resources[i] == UserResource(page.items[i])
    {
      var page := client.GetUsers(offset, limit);
      if page.err.Some? {
        return [], "", page.err;
      }
      var users := page.items;
      resources := [];
      for i := 0 to |users|
        invariant |resources| == i
        invariant forall k | 0 <= k < i :: resources[k] == UserResource(users[k])
      {
        resources := resources + [UserResource(users[i])];
      }
      nextToken, err := page.nextToken, None;
    }

    /** List as written: the cursor is parsed as in parsePageToken (a
        malformed one is only logged and means offset 0), and the requested
        size is passed as the limit as is, so a size of 0 or less never
        yields "" (see ListEmptyPageRepeats). */
    method List(pToken: Token) returns (resources: seq<Resource>, nextToken: string, err: Option<Error>)
      ensures var page := client.GetUsers(ParsePageToken(Some(pToken)).offset, pToken.size);
        && err == page.err
        && nextToken == page.nextToken
        && |resources| == |page.items|
        && forall i | 0 <= i < |resources| :: resources[i] == UserResource(page.items[i])
    {
      resources, nextToken, err := ListPage(ParsePageToken(Some(pToken)).offset, pToken.size);
    }

    /** List as the role builder does it and the user tests expect: offset
        and limit both from parsePageToken, so a size of 0 means 100. After
        a well-formed cursor every next token moves the cursor forward by at
        least a whole page. */
    method ListWithDefaultLimit(pToken: Token) returns (resources: seq<Resource>, nextToken: string, err: Option<Error>)
      ensures var request := ParsePageToken(Some(pToken));
        var page := client.GetUsers(request.offset, request.limit);
        && err == page.err
        && nextToken == page.nextToken
        && |resources| == |page.items|
        && forall i | 0 <= i < |resources| :: resources[i] == UserResource(page.items[i])
      ensures var request := ParsePageToken(Some(pToken));
        request.err.None? && err.None? && nextToken != "" ==>
          ParsePageToken(Some(Token(nextToken, pToken.size))).offset >= request.offset + request.limit > request.offset
    {
      var request := ParsePageToken(Some(pToken));
      resources, nextToken, err := ListPage(request.offset, request.limit);
      if request.err.None? && err.None? && nextToken != "" {
        CursorAdvances(request.offset, |resources|, request.limit, pToken.size);
      }
    }

    /** Entitlements: users offer no entitlements. */
    function Entitlements(resource: Resource): (r: Page<Entitlement>)
      ensures r.items == [] && r.nextToken == "" && r.err.None?
    {
      Page([], "", None)
    }

    /** Grants: users are never the resource of a grant. */
    function Grants(resource: Resource, pToken: Token): (r: Page<Grant>)
      ensures r.items == [] && r.nextToken == "" && r.err.None?
    {
      Page([], "", None)
    }
  }

  /** A client whose user search always answers with `users`. */
  method ClientReturning(users: seq<User>) returns (client: PrivXClient)
    ensures fresh(client)
    ensures forall offset: int, limit: int :: client.searchUsers(offset, limit) == Ok(users)
  {
    client := new PrivXClient(
      (offset: int, limit: int) => Ok(users),
      (offset: int, limit: int) => Ok([]),
      (roleId: string, offset: int, limit: int) => Ok([]),
      map[]);
  }

  /** The second listing of the user tests: resuming at "100" with size 3
      against a remote that returns three users gives three resources, no
      error and the token "103", so one more page is requested. */
  method ListResumesAfterFullPage(users: seq<User>) returns (resources: seq<Resource>, nextToken: string, err: Option<Error>)
    requires |users| == 3
    ensures |resources| == 3 && resources[0].id == ResourceId(UserResourceType, users[0].id)
    ensures nextToken == "103" && err.None?
  {
    var client := ClientReturning(users);
    var builder := new UserBuilder(client);
    assert Strconv.FormatInt(100) == "100";
    Strconv.FormatRoundTrip(100);
    assert Strconv.FormatInt(103) == "103";
    resources, nextToken, err := builder.List(Token("100", 3));
  }

  /** The first listing of the user tests, as written: no cursor and size 0
      against three users gives the token "3", where the test expects "". */
  method ListFirstPageAsWritten(users: seq<User>) returns (resources: seq<Resource>, nextToken: string, err: Option<Error>)
    requires |users| == 3
    ensures |resources| == 3 && err.None?
    ensures nextToken == "3"
  {
    var client := ClientReturning(users);
    var builder := new UserBuilder(client);
    assert Strconv.FormatInt(3) == "3";
    resources, nextToken, err := builder.List(Token("", 0));
  }

  /** As written, size 0 never ends the listing: resuming at "7" against an
      empty page hands back "7" again, so the caller asks for the same page
      forever. */
  method ListEmptyPageRepeats() returns (resources: seq<Resource>, nextToken: string, err: Option<Error>)
    ensures resources == [] && err.None?
    ensures nextToken == "7"
  {
    var client := ClientReturning([]);
    var builder := new UserBuilder(client);
    assert Strconv.FormatInt(7) == "7";
    Strconv.FormatRoundTrip(7);
    resources, nextToken, err := builder.List(Token("7", 0));
  }

  /** The general form of the stall: with a size of 0 or less, an empty
      page yields a token that parses back to the very same offset. */
  lemma UserListStalls(offset: int, size: int)
    requires size <= 0
    ensures var next := GetNextToken(offset, 0, size);
      next == Strconv.FormatInt(offset) &&
      ParsePageToken(Some(Token(next, size))).err.None? &&
      ParsePageToken(Some(Token(next, size))).offset == offset
  {
    Strconv.FormatRoundTrip(offset);
  }

  /** The first listing of the user tests, with the default limit: three
      users on a page of 100 end the listing. */
  method ListFirstPageEnds(users: seq<User>) returns (resources: seq<Resource>, nextToken: string, err: Option<Error>)
    requires |users| == 3
    ensures |resources| == 3 && err.None?
    ensures nextToken == ""
  {
    var client := ClientReturning(users);
    var builder := new UserBuilder(client);
    resources, nextToken, err := builder.ListWithDefaultLimit(Token("", 0));
  }
}
