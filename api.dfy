/**
 * The REST configuration: the base address, the endpoint paths of the acts,
 * versions, explanations, reading votes, stages and tags resources, and the
 * request each fetch helper would hand to `fetch` (the address, the method,
 * the body and the merged headers). The environment variable and the stored
 * token are inputs; the network call itself is not part of this model.
 */
module Api {
  import opened Options
  import opened Text

  /** The base address when the build sets no `VITE_API_URL`. */
  const DefaultApiUrl: string := "http://localhost:7126/api"

  /** `API_URL`: the configured address, unless it is missing or empty (both
      falsy for `||`). */
  function ApiUrl(configured: Option<string>): (url: string)
    ensures configured.Some? && configured.value != "" ==> url == configured.value
    ensures configured.None? || configured.value == "" ==> url == DefaultApiUrl
  {
    if configured.Some? && configured.value != "" then configured.value else DefaultApiUrl
  }

  /** The members of `API_ENDPOINTS`; numeric tag ids are integers. */
  datatype Endpoint =
    | ActsList
    | ActsDetail(id: string)
    | ActsDetailWithDetails(id: string)
    | ActsCreate
    | ActsUpdate(id: string)
    | ActsDelete(id: string)
    | VersionsCreate(actId: string)
    | VersionsDetail(actId: string, versionId: string)
    | VersionsUpdate(actId: string, versionId: string)
    | VersionsDelete(actId: string, versionId: string)
    | VersionsUploadPdf(actId: string, versionId: string)
    | ExplanationsGenerate(actId: string)
    | ReadingVotesCreate(actId: string)
    | ReadingVotesDetail(actId: string, voteId: string)
    | ReadingVotesUpdate(actId: string, voteId: string)
    | ReadingVotesDelete(actId: string, voteId: string)
    | StagesCreate(actId: string)
    | StagesUpdate(actId: string, stageId: string)
    | StagesDelete(actId: string, stageId: string)
    | TagsList
    | TagsDetail(tagId: int)
    | TagsCreate
    | TagsUpdate(tagId: int)
    | TagsDelete(tagId: int)

  /** A number in a template literal, for integers: an optional minus sign,
      then the decimal digits. */
  function IntToString(n: int): (s: string)
    ensures |s| >= 1
    ensures s[0] == '-' <==> n < 0
  {
    NatFirstIsDigit(if n < 0 then -n else n);
    if n < 0 then "-" + NatToString(-n) else NatToString(n)
  }

  /** A decimal numeral starts with a digit. */
  lemma {:induction false} NatFirstIsDigit(n: nat)
    ensures '0' <= NatToString(n)[0] <= '9'
    decreases n
  {
    if n >= 10 {
      NatFirstIsDigit(n / 10);
    }
  }

  const Acts: string := "/acts/"

  /** The path each endpoint names. */
  function Path(e: Endpoint): (p: string)
    ensures |p| > 0 && p[0] == '/'
  {
    match e
    case ActsList => "/acts"
    case ActsDetail(id) => Acts + id
    case ActsDetailWithDetails(id) => Acts + id + "/with-details"
    case ActsCreate => "/acts"
    case ActsUpdate(id) => Acts + id
    case ActsDelete(id) => Acts + id
    case VersionsCreate(a) => Acts + a + "/versions"
    case VersionsDetail(a, v) => Acts + a + "/versions/" + v
    case VersionsUpdate(a, v) => Acts + a + "/versions/" + v
    case VersionsDelete(a, v) => Acts + a + "/versions/" + v
    case VersionsUploadPdf(a, v) => Acts + a + "/versions/" + v + "/file"
    case ExplanationsGenerate(a) => Acts + a + "/explanation"
    case ReadingVotesCreate(a) => Acts + a + "/reading-votes"
    case ReadingVotesDetail(a, v) => Acts + a + "/reading-votes/" + v
    case ReadingVotesUpdate(a, v) => Acts + a + "/reading-votes/" + v
    case ReadingVotesDelete(a, v) => Acts + a + "/reading-votes/" + v
    case StagesCreate(a) => Acts + a + "/stages"
    case StagesUpdate(a, s) => Acts + a + "/stages/" + s
    case StagesDelete(a, s) => Acts + a + "/stages/" + s
    case TagsList => "/tags"
    case TagsDetail(id) => "/tags/id?id=" + IntToString(id)
    case TagsCreate => "/tags"
    case TagsUpdate(id) => "/tags/" + IntToString(id)
    case TagsDelete(id) => "/tags/" + IntToString(id)
  }

  /** The id of an act is what follows `/acts/` in its detail path. */
  lemma ActIdReadBack(id: string)
    ensures |Path(ActsDetail(id))| == |Acts| + |id|
    ensures Path(ActsDetail(id))[|Acts|..] == id
  {
    assert Path(ActsDetail(id)) == Acts + id;
  }

  /** Detail, update and delete of one act share one path; the detail with
      details extends it. */
  lemma ActItemPaths(a: string)
    ensures Path(ActsUpdate(a)) == Path(ActsDetail(a)) == Path(ActsDelete(a))
    ensures Path(ActsDetailWithDetails(a)) == Path(ActsDetail(a)) + "/with-details"
  {
  }

  /** A version of an act has one path for detail, update and delete, below
      the act's versions; its PDF upload extends it. */
  lemma VersionItemPaths(a: string, v: string)
    ensures Path(VersionsUpdate(a, v)) == Path(VersionsDetail(a, v)) == Path(VersionsDelete(a, v))
    ensures Path(VersionsDetail(a, v)) == Path(VersionsCreate(a)) + "/" + v
    ensures Path(VersionsUploadPdf(a, v)) == Path(VersionsDetail(a, v)) + "/file"
  {
  }

  /** The same for the votes of one reading. */
  lemma ReadingVoteItemPaths(a: string, v: string)
    ensures Path(ReadingVotesUpdate(a, v)) == Path(ReadingVotesDetail(a, v)) == Path(ReadingVotesDelete(a, v))
    ensures Path(ReadingVotesDetail(a, v)) == Path(ReadingVotesCreate(a)) + "/" + v
  {
  }

  /** A stage's update and delete share the path below the act's stages. */
  lemma StageItemPaths(a: string, s: string)
    ensures Path(StagesUpdate(a, s)) == Path(StagesDelete(a, s)) == Path(StagesCreate(a)) + "/" + s
  {
  }

  /** A tag's update and delete share the path below the tag list. */
  lemma TagItemPaths(t: int)
    ensures Path(TagsUpdate(t)) == Path(TagsDelete(t)) == Path(TagsList) + "/" + IntToString(t)
  {
  }

  /** The segments of a version path, `/`-joined. */
  function VersionSegments(actId: string, versionId: string): seq<string> {
    ["", "acts", actId, "versions", versionId]
  }

  /** Joining those segments spells the version path. */
  lemma VersionPathIsJoin(actId: string, versionId: string)
    ensures Join(VersionSegments(actId, versionId), '/') == Path(VersionsDetail(actId, versionId))
  {
    var j4 := Join([versionId], '/');
    var j3 := Join(["versions", versionId], '/');
    var j2 := Join([actId, "versions", versionId], '/');
    var j1 := Join(["acts", actId, "versions", versionId], '/');
    assert j4 == versionId;
    assert j3 == "versions" + ['/'] + j4;
    assert j2 == actId + ['/'] + j3;
    assert j1 == "acts" + ['/'] + j2;
    assert Join(VersionSegments(actId, versionId), '/') == "" + ['/'] + j1;
    assert "/acts/" + actId + "/versions/" + versionId == "" + ['/'] + ("acts" + ['/'] + (actId + ['/'] + ("versions" + ['/'] + versionId)));
  }

  /** With ids free of `/`, the segments of a version path are the resource
      names and the two ids, in order. */
  lemma VersionPathSegments(actId: string, versionId: string)
    requires '/' !in actId && '/' !in versionId
    ensures Split(Path(VersionsDetail(actId, versionId)), '/') == ["", "acts", actId, "versions", versionId]
  {
    VersionPathIsJoin(actId, versionId);
    JoinSplit(VersionSegments(actId, versionId), '/');
  }

  /** A tag's detail path is a query on `/tags/id`, never the path its update
      and delete use. */
  lemma TagDetailIsNotItemPath(detailId: int, itemId: int)
    ensures Path(TagsDetail(detailId)) != Path(TagsUpdate(itemId))
  {
    var s := IntToString(itemId);
    NatFirstIsDigit(if itemId < 0 then -itemId else itemId);
    assert itemId >= 0 ==> s == NatToString(itemId);
    assert Path(TagsDetail(detailId))[6] == 'i';
    assert Path(TagsUpdate(itemId))[6] == s[0];
  }

  /** `getApiUrl`: the base address followed by the endpoint. */
  function GetApiUrl(apiUrl: string, endpoint: string): (url: string)
    ensures StartsWith(url, apiUrl) && url[|apiUrl|..] == endpoint
  {
    apiUrl + endpoint
  }

  /** Without configuration, the acts list lives at the local development server. */
  lemma DefaultActsListUrl()
    ensures GetApiUrl(ApiUrl(None), Path(ActsList)) == "http://localhost:7126/api/acts"
  {
  }

  /** The `RequestInit` fields the helpers read or set (`verb` is `method`);
      absent headers are the empty map, which spreads to nothing. */
  datatype RequestInit = RequestInit(verb: Option<string>, body: Option<string>, headers: map<string, string>)

  /** What would be handed to `fetch`. */
  datatype Request = Request(url: string, init: RequestInit)

  const ContentType: string := "Content-Type"
  const Authorization: string := "Authorization"

  /** `if (token)`: a stored, non-empty token. */
  predicate HasToken(token: Option<string>) {
    token.Some? && token.value != ""
  }

  /** The headers `apiFetch` sends: the caller's headers win; otherwise JSON
      content and, with a stored token, its bearer authorization; nothing
      else. */
  function MergedHeaders(h: map<string, string>, token: Option<string>, caller: map<string, string>): (merged: bool)
    ensures merged ==> caller.Keys <= h.Keys && ContentType in h && (HasToken(token) ==> Authorization in h)
    ensures merged ==> forall k :: k in h && k !in caller ==> k == ContentType || k == Authorization
    ensures merged && !HasToken(token) && Authorization !in caller ==> Authorization !in h
  {
    && h.Keys == caller.Keys + {ContentType} + (if HasToken(token) then {Authorization} else {})
    && (forall k :: k in caller ==> h[k] == caller[k])
    && (ContentType !in caller ==> h[ContentType] == "application/json")
    && (Authorization !in caller && HasToken(token) ==> h[Authorization] == "Bearer " + token.value)
  }

  /** The merge rule leaves no choice: it fixes every header. */
  lemma MergedHeadersUnique(h1: map<string, string>, h2: map<string, string>, token: Option<string>, caller: map<string, string>)
    requires MergedHeaders(h1, token, caller) && MergedHeaders(h2, token, caller)
    ensures h1 == h2
  {
    assert h1.Keys == h2.Keys;
    forall k | k in h1 ensures h1[k] == h2[k] {
      if k !in caller {
        assert k == ContentType || k == Authorization;
      }
    }
  }

  /** `apiFetch`: the headers are built in place, then the caller's options
      are passed through with the merged headers. */
  method ApiFetch(apiUrl: string, token: Option<string>, endpoint: string, options: RequestInit) returns (r: Request)
    ensures r.url == GetApiUrl(apiUrl, endpoint)
    ensures r.init.verb == options.verb && r.init.body == options.body
    ensures MergedHeaders(r.init.headers, token, options.headers)
  {
    var headers := map[ContentType := "application/json"];
    if token.Some? && token.value != "" {
      headers := headers[Authorization := "Bearer " + token.value];
    }
    r := Request(apiUrl + endpoint, options.(headers := headers + options.headers));
  }

  /** `apiPost`: the method and the JSON body are forced over the options. */
  method ApiPost(apiUrl: string, token: Option<string>, endpoint: string, json: string, options: RequestInit)
    returns (r: Request)
    ensures r.url == GetApiUrl(apiUrl, endpoint)
    ensures r.init.verb == Some("POST") && r.init.body == Some(json)
    ensures MergedHeaders(r.init.headers, token, options.headers)
  {
    r := ApiFetch(apiUrl, token, endpoint, options.(verb := Some("POST"), body := Some(json)));
  }

  /** `apiPut`: the method and the JSON body are forced over the options. */
  method ApiPut(apiUrl: string, token: Option<string>, endpoint: string, json: string, options: RequestInit)
    returns (r: Request)
    ensures r.url == GetApiUrl(apiUrl, endpoint)
    ensures r.init.verb == Some("PUT") && r.init.body == Some(json)
    ensures MergedHeaders(r.init.headers, token, options.headers)
  {
    r := ApiFetch(apiUrl, token, endpoint, options.(verb := Some("PUT"), body := Some(json)));
  }

  /** `apiDelete`: only the method is forced; a body in the options stays. */
  method ApiDelete(apiUrl: string, token: Option<string>, endpoint: string, options: RequestInit)
    returns (r: Request)
    ensures r.url == GetApiUrl(apiUrl, endpoint)
    ensures r.init.verb == Some("DELETE") && r.init.body == options.body
    ensures MergedHeaders(r.init.headers, token, options.headers)
  {
    r := ApiFetch(apiUrl, token, endpoint, options.(verb := Some("DELETE")));
  }

  /** `apiGet`: only the method is forced; a body in the options stays. */
  method ApiGet(apiUrl: string, token: Option<string>, endpoint: string, options: RequestInit)
    returns (r: Request)
    ensures r.url == GetApiUrl(apiUrl, endpoint)
    ensures r.init.verb == Some("GET") && r.init.body == options.body
    ensures MergedHeaders(r.init.headers, token, options.headers)
  {
    r := ApiFetch(apiUrl, token, endpoint, options.(verb := Some("GET")));
  }
}
