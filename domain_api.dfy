/** The data-access layer of src/store/domainApi.ts: the `Domain` record and,
    for each of the five endpoints, the request it builds from its argument,
    how its response is decoded, and the cache tags it provides or
    invalidates. The transport and the cache itself are not modelled: an
    endpoint is a value describing what would be sent. */
module DomainApi {
  import opened Wrappers

  // ---------------------------------------------------------------------
  // The record

  /** The three values of the `status` string union. */
  datatype Status = Pending | Verified | Rejected

  function StatusName(s: Status): string {
    match s
    case Pending => "pending"
    case Verified => "verified"
    case Rejected => "rejected"
  }

  /** Which strings belong to the `status` union, and which member each is. */
  function ParseStatus(text: string): (r: Option<Status>)
    ensures r.Some? ==> StatusName(r.value) == text
    ensures r.None? <==> text != "pending" && text != "verified" && text != "rejected"
  {
    if text == "pending" then Some(Pending)
    else if text == "verified" then Some(Verified)
    else if text == "rejected" then Some(Rejected)
    else None
  }

  lemma StatusNameRoundTrip(s: Status)
    ensures ParseStatus(StatusName(s)) == Some(s)
  {
  }

  /** `createdDate` is in epoch seconds. */
  datatype Domain = Domain(id: string, domain: string, isActive: bool, status: Status, createdDate: int)

  /** `Partial<Domain>`: every field may be absent. */
  datatype PartialDomain = PartialDomain(
    id: Option<string>,
    domain: Option<string>,
    isActive: Option<bool>,
    status: Option<Status>,
    createdDate: Option<int>)

  const NoFields := PartialDomain(None, None, None, None, None)

  /** The keys of the JSON object a partial body serialises to. */
  function FieldNames(p: PartialDomain): set<string> {
    (if p.id.Some? then {"id"} else {})
    + (if p.domain.Some? then {"domain"} else {})
    + (if p.isActive.Some? then {"isActive"} else {})
    + (if p.status.Some? then {"status"} else {})
    + (if p.createdDate.Some? then {"createdDate"} else {})
  }

  // ---------------------------------------------------------------------
  // Requests and tags

  datatype HttpMethod = GET | POST | PUT | DELETE

  /** How the response body is read: parsed as JSON, or kept as plain text. */
  datatype ResponseHandling = Json | Text

  /** `url` is the suffix appended to the fixed base URL. */
  datatype Request = Request(verb: HttpMethod, url: string, body: Option<PartialDomain>, response: ResponseHandling)

  /** A tag of the single tag type `Domain`: bare, or carrying a record id. */
  datatype Tag = Bare | WithId(id: string)

  datatype TagDecl = Provides(tags: seq<Tag>) | Invalidates(tags: seq<Tag>)

  datatype Endpoint = Endpoint(request: Request, tags: TagDecl)

  /** The argument of the update mutation. */
  datatype UpdateArg = UpdateArg(id: string, body: PartialDomain)

  /** The `/${id}` suffix that addresses one record. */
  function ItemUrl(id: string): string {
    "/" + id
  }

  /** The record id a url suffix addresses, if it addresses one. */
  function IdOfUrl(url: string): Option<string> {
    if |url| > 0 && url[0] == '/' then Some(url[1..]) else None
  }

  /** An item url names its id, and is never the collection url `""`. */
  lemma ItemUrlRoundTrip(id: string)
    ensures IdOfUrl(ItemUrl(id)) == Some(id)
    ensures ItemUrl(id) != ""
  {
  }

  /** `Math.floor(nowMs / 1000)`: the current time in whole seconds. */
  function CreatedSeconds(nowMs: int): (secs: int)
    ensures secs * 1000 <= nowMs < secs * 1000 + 1000
  {
    nowMs / 1000
  }

  /** `getDomains`: the whole collection at the base url. */
  function GetDomains(): (e: Endpoint)
    ensures e.request.verb == GET && e.request.url == "" && e.request.body == None
    ensures e.request.response == Json
    ensures e.tags == Provides([Bare])
  {
    Endpoint(Request(GET, "", None, Json), Provides([Bare]))
  }

  /** `getDomain`: one record, tagged with its id. */
  function GetDomain(id: string): (e: Endpoint)
    ensures e.request.verb == GET && IdOfUrl(e.request.url) == Some(id) && e.request.body == None
    ensures e.request.response == Json
    ensures e.tags == Provides([WithId(id)])
  {
    ItemUrlRoundTrip(id);
    Endpoint(Request(GET, ItemUrl(id), None, Json), Provides([WithId(id)]))
  }

  /** `addDomain`: the caller's fields are spread into the body and then
      `createdDate` is overwritten with the current time in seconds. */
  function AddDomain(body: PartialDomain, nowMs: int): (e: Endpoint)
    ensures e.request.verb == POST && e.request.url == "" && e.request.response == Json
    ensures e.request.body.Some?
    ensures e.request.body.value.createdDate == Some(CreatedSeconds(nowMs))
    ensures e.request.body.value.(createdDate := body.createdDate) == body
    ensures FieldNames(e.request.body.value) == FieldNames(body) + {"createdDate"}
    ensures e.tags == Invalidates([Bare])
  {
    Endpoint(Request(POST, "", Some(body.(createdDate := Some(CreatedSeconds(nowMs)))), Json), Invalidates([Bare]))
  }

  /** `updateDomain`: a PUT of the caller's partial body, unchanged, to the
      record's url; invalidates only that record's tag. */
  function UpdateDomain(arg: UpdateArg): (e: Endpoint)
    ensures e.request.verb == PUT && IdOfUrl(e.request.url) == Some(arg.id)
    ensures e.request.body == Some(arg.body) && e.request.response == Json
    ensures e.tags == Invalidates([WithId(arg.id)])
  {
    ItemUrlRoundTrip(arg.id);
    Endpoint(Request(PUT, ItemUrl(arg.id), Some(arg.body), Json), Invalidates([WithId(arg.id)]))
  }

  /** `deleteDomain`: a DELETE to the record's url whose response is read as
      text, never parsed as JSON. */
  function DeleteDomain(id: string): (e: Endpoint)
    ensures e.request.verb == DELETE && IdOfUrl(e.request.url) == Some(id) && e.request.body == None
    ensures e.request.response == Text
    ensures e.tags == Invalidates([Bare])
  {
    ItemUrlRoundTrip(id);
    Endpoint(Request(DELETE, ItemUrl(id), None, Text), Invalidates([Bare]))
  }

  // ---------------------------------------------------------------------
  // Which cached queries a mutation's tags reach

  /** The tag-matching rule of RTK Query: invalidating the bare `Domain` tag
      reaches every entry tagged `Domain`; invalidating `Domain` with an id
      reaches only the entries provided under that same id. */
  predicate Hits(invalidated: Tag, provided: Tag) {
    invalidated.Bare? || invalidated == provided
  }

  /** The mutation's invalidated tags reach one of the query's provided tags. */
  predicate Refreshes(mutation: Endpoint, query: Endpoint) {
    && mutation.tags.Invalidates?
    && query.tags.Provides?
    && exists i, j :: 0 <= i < |mutation.tags.tags| && 0 <= j < |query.tags.tags|
                      && Hits(mutation.tags.tags[i], query.tags.tags[j])
  }

  /** Creating or deleting a record reaches the list and every single-record
      query. */
  lemma CreateAndDeleteRefreshEverything(body: PartialDomain, nowMs: int, id: string, other: string)
    ensures Refreshes(AddDomain(body, nowMs), GetDomains())
    ensures Refreshes(AddDomain(body, nowMs), GetDomain(other))
    ensures Refreshes(DeleteDomain(id), GetDomains())
    ensures Refreshes(DeleteDomain(id), GetDomain(other))
  {
    assert Hits(AddDomain(body, nowMs).tags.tags[0], GetDomains().tags.tags[0]);
    assert Hits(AddDomain(body, nowMs).tags.tags[0], GetDomain(other).tags.tags[0]);
    assert Hits(DeleteDomain(id).tags.tags[0], GetDomains().tags.tags[0]);
    assert Hits(DeleteDomain(id).tags.tags[0], GetDomain(other).tags.tags[0]);
  }

  /** Updating a record reaches that record's query only: neither the list
      nor another record's query is refreshed by the tags. */
  lemma UpdateRefreshesOnlyItsRecord(arg: UpdateArg, other: string)
    ensures Refreshes(UpdateDomain(arg), GetDomain(arg.id))
    ensures !Refreshes(UpdateDomain(arg), GetDomains())
    ensures other != arg.id ==> !Refreshes(UpdateDomain(arg), GetDomain(other))
  {
    assert Hits(UpdateDomain(arg).tags.tags[0], GetDomain(arg.id).tags.tags[0]);
  }
}
