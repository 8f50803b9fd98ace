/** The page-token codec of pkg/connector/pagination.go and its round trip
    with the client's next-token rule. */
module Pagination {
  import opened Base
  import opened Strconv
  import Client

  const ResourcePageSizeDefault: int := 100

  /** The framework's pagination.Token: an opaque cursor and a requested
      page size. */
  datatype Token = Token(token: string, size: int)

  /** What parsePageToken returns: Go's (offset, limit, error) triple.
      Callers read offset and limit even when err is set. */
  datatype PageRequest = PageRequest(offset: int, limit: int, err: Option<Error>)

  /** parsePageToken: no token means (0, 100); an empty cursor means
      offset 0; a cursor that is not a signed decimal is an error with
      offset 0 and limit 0; a positive size overrides the default limit. */
  function ParsePageToken(pageToken: Option<Token>): (r: PageRequest)
    ensures pageToken.None? ==> r == PageRequest(0, ResourcePageSizeDefault, None)
    ensures pageToken.Some? && pageToken.value.token == "" ==> r.offset == 0 && r.err.None?
    ensures r.err.Some? <==>
      pageToken.Some? && pageToken.value.token != "" && !IsDecimal(pageToken.value.token)
    ensures r.err.Some? ==>
      r.offset == 0 && r.limit == 0 && r.err.value == SyntaxError(pageToken.value.token)
    ensures r.err.None? && pageToken.Some? && pageToken.value.token != "" ==>
      Atoi(pageToken.value.token) == Ok(r.offset)
    ensures r.err.None? ==> r.limit > 0
    ensures r.err.None? && pageToken.Some? ==>
      r.limit == if pageToken.value.size > 0 then pageToken.value.size else ResourcePageSizeDefault
  {
    match pageToken
    case None => PageRequest(0, ResourcePageSizeDefault, None)
    case Some(t) =>
      var parsed := if t.token != "" then Atoi(t.token) else Ok(0);
      if parsed.Err? then
        PageRequest(0, 0, Some(parsed.error))
      else
        PageRequest(parsed.value, if t.size > 0 then t.size else ResourcePageSizeDefault, None)
  }

  /** A token produced by the client parses back to the offset just past
      the page it ended, whatever size the next request asks for. */
  lemma TokenRoundTrip(start: int, found: int, pageSize: int, size: int)
    requires Client.GetNextToken(start, found, pageSize) != ""
    ensures ParsePageToken(Some(Token(Client.GetNextToken(start, found, pageSize), size))) ==
      PageRequest(start + found, if size > 0 then size else ResourcePageSizeDefault, None)
  {
  }

  /** With a positive page size the cursor moves forward by at least a
      whole page every time a next token is issued. */
  lemma CursorAdvances(start: int, found: int, pageSize: int, size: int)
    requires pageSize > 0 && Client.GetNextToken(start, found, pageSize) != ""
    ensures ParsePageToken(Some(Token(Client.GetNextToken(start, found, pageSize), size))).offset
      >= start + pageSize > start
  {
    TokenRoundTrip(start, found, pageSize, size);
  }

  /** A page exactly as long as the requested size asks for one more page;
      when that page comes back empty, the listing ends. */
  lemma FullPageThenEmptyPage(start: int, pageSize: int)
    requires pageSize > 0
    ensures var next := Client.GetNextToken(start, pageSize, pageSize);
      next != "" &&
      ParsePageToken(Some(Token(next, pageSize))) == PageRequest(start + pageSize, pageSize, None) &&
      Client.GetNextToken(start + pageSize, 0, pageSize) == ""
  {
    TokenRoundTrip(start, pageSize, pageSize, pageSize);
  }

  /** A malformed cursor restarts the listing at offset 0 with limit 0, so
      the next token after a successful fetch is never "". */
  lemma MalformedTokenRestarts(t: Token, found: nat)
    requires t.token != "" && !IsDecimal(t.token)
    ensures var p := ParsePageToken(Some(t));
      p.offset == 0 && p.limit == 0 && Client.GetNextToken(p.offset, found, p.limit) == FormatInt(found)
  {
  }
}
