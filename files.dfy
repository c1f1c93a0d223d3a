/**
 * The file operations of `u2s_sdk/file.py`: the parameter checks of `list`,
 * the endpoints, and what `delete`, `get_raw` and `create_download_token` make
 * of the client's answer.
 */
module Files {
  import opened Wrappers
  import opened Text
  import opened Client

  // ---------------------------------------------------------------------------
  // Listing parameters

  /** The values `list` falls back on, held by every file handler. */
  const DefaultLimit := 100
  const DefaultRelation := "owner"
  const DefaultSearchJoin := "and"

  /** The relations `include` may name, and the ways search terms may be joined. */
  const Relations: seq<string> := ["owner", "uploadKey", "shares", "activity"]
  const SearchJoins: seq<string> := ["or", "and"]

  /** The largest page `limit` may ask for. */
  const MaxLimit := 100

  /** The exception `list` raises for a rejected parameter. */
  datatype ListError = InvalidRelation | InvalidSearchJoin | InvalidLimit

  /** The query parameters `list` would send. */
  datatype ListQuery = ListQuery(relation: string, search: Option<string>, limit: int, searchJoin: string)

  predicate RelationAccepted(relation: Option<string>)
  {
    relation.None? || relation.value in Relations
  }

  predicate SearchJoinAccepted(searchJoin: Option<string>)
  {
    searchJoin.None? || searchJoin.value in SearchJoins
  }

  predicate LimitAccepted(limit: Option<int>)
  {
    limit.None? || 1 <= limit.value <= MaxLimit
  }

  /** A query every check of `list` lets through. */
  predicate ValidQuery(q: ListQuery)
  {
    q.relation in Relations && q.searchJoin in SearchJoins && 1 <= q.limit <= MaxLimit
  }

  /**
   * `list`'s checks: `include`, then `search_join`, then `limit`, each either
   * missing and defaulted or checked against its allowed values; the first
   * failing check decides the error. `search` is passed through unchecked.
   */
  function ListParams(relation: Option<string>, search: Option<string>, limit: Option<int>,
                      searchJoin: Option<string>): (r: Result<ListQuery, ListError>)
    ensures r == Err(InvalidRelation) <==> !RelationAccepted(relation)
    ensures r == Err(InvalidSearchJoin) <==> RelationAccepted(relation) && !SearchJoinAccepted(searchJoin)
    ensures r == Err(InvalidLimit)
        <==> RelationAccepted(relation) && SearchJoinAccepted(searchJoin) && !LimitAccepted(limit)
    ensures r.Ok? <==> RelationAccepted(relation) && SearchJoinAccepted(searchJoin) && LimitAccepted(limit)
    ensures r.Ok? ==> ValidQuery(r.value) && r.value.search == search
    ensures r.Ok? ==> r.value.relation == (if relation.Some? then relation.value else DefaultRelation)
    ensures r.Ok? ==> r.value.searchJoin == (if searchJoin.Some? then searchJoin.value else DefaultSearchJoin)
    ensures r.Ok? ==> r.value.limit == (if limit.Some? then limit.value else DefaultLimit)
  {
    if relation.Some? && relation.value !in Relations then Err(InvalidRelation)
    else if searchJoin.Some? && searchJoin.value !in SearchJoins then Err(InvalidSearchJoin)
    else if limit.Some? && (limit.value < 1 || limit.value > MaxLimit) then Err(InvalidLimit)
    else
      Ok(ListQuery(if relation.Some? then relation.value else DefaultRelation,
                   search,
                   if limit.Some? then limit.value else DefaultLimit,
                   if searchJoin.Some? then searchJoin.value else DefaultSearchJoin))
  }

  /** With nothing given, `list` asks for 100 files with their owner, search terms joined by `and`. */
  lemma ListDefaults(search: Option<string>)
    ensures ListParams(None, search, None, None) == Ok(ListQuery("owner", search, 100, "and"))
  {
  }

  /** Giving back the values `list` settled on reproduces the same query. */
  lemma ListParamsRoundTrip(relation: Option<string>, search: Option<string>, limit: Option<int>,
                            searchJoin: Option<string>)
    requires ListParams(relation, search, limit, searchJoin).Ok?
    ensures var q := ListParams(relation, search, limit, searchJoin).value;
      ListParams(Some(q.relation), q.search, Some(q.limit), Some(q.searchJoin)) == Ok(q)
  {
  }

  // ---------------------------------------------------------------------------
  // Endpoints

  const FilesPrefix := "/files/"
  const DownloadTokenSuffix := "/downloadtoken"

  /** `/files/<id><suffix>`, the id written as `str` writes an integer. */
  function FileEndpoint(fileId: int, suffix: string): (endpoint: string)
  {
    FilesPrefix + IntToDecimal(fileId) + suffix
  }

  lemma ThreeParts<T>(a: seq<T>, b: seq<T>, c: seq<T>)
    ensures (a + b + c)[..|a|] == a
    ensures (a + b + c)[|a|..|a| + |b|] == b
    ensures (a + b + c)[|a| + |b|..] == c
  {
  }

  /** An endpoint reads back to the prefix, the id and the suffix it was built from. */
  lemma FileEndpointRead(fileId: int, suffix: string)
    ensures var e := FileEndpoint(fileId, suffix);
      var n := |IntToDecimal(fileId)|;
      && |e| == |FilesPrefix| + n + |suffix|
      && e[..|FilesPrefix|] == FilesPrefix
      && ParseInt(e[|FilesPrefix|..|FilesPrefix| + n]) == Some(fileId)
      && e[|FilesPrefix| + n..] == suffix
  {
    ThreeParts(FilesPrefix, IntToDecimal(fileId), suffix);
    IntDecimalRoundTrip(fileId);
  }

  /** Different files have different endpoints for the same operation. */
  lemma FileEndpointInjective(a: int, b: int, suffix: string)
    requires FileEndpoint(a, suffix) == FileEndpoint(b, suffix)
    ensures a == b
  {
    var e := FileEndpoint(a, suffix);
    FileEndpointRead(a, suffix);
    FileEndpointRead(b, suffix);
    assert |IntToDecimal(a)| == |IntToDecimal(b)|;
    var n := |IntToDecimal(a)|;
    assert ParseInt(e[|FilesPrefix|..|FilesPrefix| + n]) == Some(a);
    assert ParseInt(e[|FilesPrefix|..|FilesPrefix| + n]) == Some(b);
  }

  // ---------------------------------------------------------------------------
  // Answers

  /**
   * Why a file operation fails: the client handed back `None`, whose
   * `status_code` cannot be read; a rejected listing parameter; or a keyword
   * argument the client's methods do not accept.
   */
  datatype FileError = NoResponse | Invalid(reason: ListError) | UnexpectedKeyword(name: string)

  /** `delete`: `True` for a 204, `False` for any other status. */
  function DeleteResult(response: Option<Response>): (r: Result<bool, FileError>)
    ensures r.Err? <==> response.None?
    ensures r == Ok(true) <==> response.Some? && response.value.status == 204
    ensures r == Ok(false) <==> response.Some? && response.value.status != 204
  {
    match response
    case None => Err(NoResponse)
    case Some(resp) => Ok(resp.status == 204)
  }

  /**
   * `create_download_token`: the body of a 200 (the JSON document, undecoded),
   * nothing for any other status.
   */
  function DownloadTokenResult(response: Option<Response>): (r: Result<Option<seq<bv8>>, FileError>)
    ensures r.Err? <==> response.None?
    ensures r.Ok? && r.value.Some? <==> response.Some? && response.value.status == 200
    ensures r.Ok? && r.value.Some? ==> r.value.value == response.value.content
  {
    match response
    case None => Err(NoResponse)
    case Some(resp) => if resp.status == 200 then Ok(Some(resp.content)) else Ok(None)
  }

  /** `get_raw`: the content of a 200 or of a 206 (a partial range), nothing otherwise. */
  function RawResult(response: Option<Response>): (r: Result<Option<seq<bv8>>, FileError>)
    ensures r.Err? <==> response.None?
    ensures r.Ok? && r.value.Some? <==> response.Some? && response.value.status in {200, 206}
    ensures r.Ok? && r.value.Some? ==> r.value.value == response.value.content
  {
    match response
    case None => Err(NoResponse)
    case Some(resp) =>
      if resp.status == 200 then Ok(Some(resp.content))
      else if resp.status == 206 then Ok(Some(resp.content))
      else Ok(None)
  }

  /**
   * `delete` behind the client: a 204 gives `True` and a status the client
   * lets through gives `False`, but an error status, turned into `None` by the
   * client, fails instead of giving `False`.
   */
  lemma DeleteThroughClient(raw: Option<Response>)
    ensures DeleteResult(Delivered(raw)) == Ok(true) <==> raw.Some? && raw.value.status == 204
    ensures DeleteResult(Delivered(raw)) == Ok(false)
        <==> raw.Some? && raw.value.status != 204 && !RaisesForStatus(raw.value.status)
    ensures DeleteResult(Delivered(raw)).Err? <==> raw.None? || RaisesForStatus(raw.value.status)
  {
  }

  /** Deleting a file the server does not know fails rather than answering `False`. */
  lemma MissingFileRaises(headers: Headers, content: seq<bv8>)
    ensures DeleteResult(Delivered(Some(Response(404, headers, content)))) == Err(NoResponse)
  {
  }

  /** The documented `delete`: `True` if the deletion succeeded, `False` in every other case. */
  function IntendedDeleteResult(response: Option<Response>): (deleted: bool)
  {
    response.Some? && response.value.status == 204
  }

  /** Behind the client, the documented `delete` answers for every outcome, and is `True` exactly for a 204. */
  lemma IntendedDeleteTotal(raw: Option<Response>)
    ensures IntendedDeleteResult(Delivered(raw)) <==> raw.Some? && raw.value.status == 204
    ensures DeleteResult(Delivered(raw)).Ok? ==> DeleteResult(Delivered(raw)) == Ok(IntendedDeleteResult(Delivered(raw)))
  {
  }

  // ---------------------------------------------------------------------------
  // The handler

  /** `FileHandler`: the file operations over one API client. */
  class FileHandler {
    const apiClient: ApiClient
    const limit: int
    const relation: string
    const searchJoin: string

    /** The defaults are fixed when the handler is made and never change. */
    ghost predicate Valid()
    {
      limit == DefaultLimit && relation == DefaultRelation && searchJoin == DefaultSearchJoin
    }

    constructor(apiClient: ApiClient)
      ensures this.apiClient == apiClient && Valid()
    {
      this.apiClient := apiClient;
      limit := 100;
      relation := "owner";
      searchJoin := "and";
    }

    /** `create_download_token`: a GET of the file's download-token endpoint. */
    method CreateDownloadToken(fileId: int) returns (r: Result<Option<seq<bv8>>, FileError>)
      modifies apiClient.transport
      ensures r == DownloadTokenResult(Delivered(Next(old(apiClient.transport.pending))))
      ensures apiClient.transport.sent
           == old(apiClient.transport.sent)
              + [apiClient.RequestFor("GET", FileEndpoint(fileId, DownloadTokenSuffix), NoBody, None)]
      ensures apiClient.transport.pending == Rest(old(apiClient.transport.pending))
    {
      var endpoint := FilesPrefix + IntToDecimal(fileId) + DownloadTokenSuffix;
      var response := apiClient.Get(endpoint, None);
      if response.None? {
        return Err(NoResponse);
      }
      if response.value.status == 200 {
        r := Ok(Some(response.value.content));
      } else {
        r := Ok(None);
      }
    }

    /** `delete`: a DELETE of the file's endpoint. */
    method Delete(fileId: int) returns (r: Result<bool, FileError>)
      modifies apiClient.transport
      ensures r == DeleteResult(Delivered(Next(old(apiClient.transport.pending))))
      ensures apiClient.transport.sent
           == old(apiClient.transport.sent) + [apiClient.RequestFor("DELETE", FileEndpoint(fileId, ""), NoBody, None)]
      ensures apiClient.transport.pending == Rest(old(apiClient.transport.pending))
    {
      var endpoint := FilesPrefix + IntToDecimal(fileId);
      assert endpoint == FileEndpoint(fileId, "");
      var response := apiClient.Delete(endpoint, None);
      if response.None? {
        return Err(NoResponse);
      }
      r := Ok(response.value.status == 204);
    }

    /**
     * `get_raw`: the call hands the client's `get` a `params` argument it does
     * not take, so it fails before any request is made.
     */
    method GetRaw(fileId: int, rangeHeader: string, token: string, dlToken: string, dlExpiry: string)
      returns (r: Result<Option<seq<bv8>>, FileError>)
      ensures r == Err(UnexpectedKeyword("params"))
    {
      r := Err(UnexpectedKeyword("params"));
    }

    /**
     * `list`: the checks run first and a rejected parameter is reported; a
     * query that passes them is handed to the client's `get` with a `params`
     * argument it does not take, so no request is made.
     */
    method List(relation: Option<string>, search: Option<string>, limit: Option<int>, searchJoin: Option<string>)
      returns (r: Result<seq<bv8>, FileError>)
      requires Valid()
      ensures ListParams(relation, search, limit, searchJoin).Err? ==>
        r == Err(Invalid(ListParams(relation, search, limit, searchJoin).error))
      ensures ListParams(relation, search, limit, searchJoin).Ok? ==> r == Err(UnexpectedKeyword("params"))
    {
      if relation.Some? {
        if relation.value !in Relations {
          return Err(Invalid(InvalidRelation));
        }
      }
      if searchJoin.Some? {
        if searchJoin.value !in SearchJoins {
          return Err(Invalid(InvalidSearchJoin));
        }
      }
      if limit.Some? {
        if limit.value < 1 || limit.value > MaxLimit {
          return Err(Invalid(InvalidLimit));
        }
      }
      var query := ListQuery(if relation.Some? then relation.value else this.relation,
                             search,
                             if limit.Some? then limit.value else this.limit,
                             if searchJoin.Some? then searchJoin.value else this.searchJoin);
      assert Ok(query) == ListParams(relation, search, limit, searchJoin);
      r := Err(UnexpectedKeyword("params"));
    }

    /** `update`: the call hands the client's `put` a `json` argument it does not take. */
    method Update(fileId: int, filename: Option<string>, description: Option<string>, visibility: Option<string>)
      returns (r: Result<seq<bv8>, FileError>)
      ensures r == Err(UnexpectedKeyword("json"))
    {
      r := Err(UnexpectedKeyword("json"));
    }
  }
}
