/**
 * The request layer of `u2s_sdk/client.py`. The HTTP library is replaced by a
 * scripted transport: each request it is handed is logged and answered by the
 * next scripted outcome, `None` standing for a raised `RequestException`.
 */
module Client {
  import opened Wrappers

  type Headers = map<string, string>

  /** What a request carries: nothing, the JSON object `{"filename": ...}`, or raw bytes. */
  datatype Body = NoBody | JsonFilename(filename: string) | Bytes(data: seq<bv8>)

  /** A request as the HTTP library receives it. */
  datatype Request = Request(verb: string, url: string, headers: Headers, body: Body, timeout: int)

  datatype Response = Response(status: int, headers: Headers, content: seq<bv8>)

  /** The outcome the transport gives next: an exhausted script answers like a failed request. */
  function Next(script: seq<Option<Response>>): (answer: Option<Response>)
  {
    if script == [] then None else script[0]
  }

  function Rest(script: seq<Option<Response>>): (rest: seq<Option<Response>>)
  {
    if script == [] then [] else script[1..]
  }

  /** The outcome of the `i`-th request made against `script`. */
  function At(script: seq<Option<Response>>, i: nat): (answer: Option<Response>)
  {
    if i < |script| then script[i] else None
  }

  /** The script left after `n` requests. */
  function Drop(script: seq<Option<Response>>, n: nat): (rest: seq<Option<Response>>)
  {
    if n < |script| then script[n..] else []
  }

  /** After `n` requests the transport answers with the `n`-th outcome and moves past it. */
  lemma DropStep(script: seq<Option<Response>>, n: nat)
    ensures Next(Drop(script, n)) == At(script, n)
    ensures Rest(Drop(script, n)) == Drop(script, n + 1)
  {
  }

  /** The first request is answered with the first outcome and leaves the script after one request. */
  lemma DropFirst(script: seq<Option<Response>>)
    ensures Drop(script, 0) == script
    ensures Next(script) == At(script, 0)
    ensures Rest(script) == Drop(script, 1)
  {
  }

  /** The HTTP library, as an oracle answering from a script and logging what it was sent. */
  class Transport {
    var pending: seq<Option<Response>>
    var sent: seq<Request>

    constructor(script: seq<Option<Response>>)
      ensures pending == script && sent == []
    {
      pending := script;
      sent := [];
    }

    method Send(request: Request) returns (raw: Option<Response>)
      modifies this
      ensures sent == old(sent) + [request]
      ensures raw == Next(old(pending)) && pending == Rest(old(pending))
    {
      sent := sent + [request];
      if pending == [] {
        raw := None;
      } else {
        raw := pending[0];
        pending := pending[1..];
      }
    }
  }

  /** `raise_for_status` raises for a client error (4xx) or a server error (5xx). */
  predicate RaisesForStatus(status: int)
  {
    400 <= status < 600
  }

  /**
   * What `_make_request` hands back for one library outcome: a raised
   * `RequestException`, including the `HTTPError` of `raise_for_status`, is
   * logged and turned into `None`.
   */
  function Delivered(raw: Option<Response>): (r: Option<Response>)
    ensures r.Some? <==> raw.Some? && !RaisesForStatus(raw.value.status)
    ensures r.Some? ==> r == raw
  {
    match raw
    case Some(response) => if RaisesForStatus(response.status) then None else raw
    case None => None
  }

  /** Python truthiness of an optional string: present and non-empty. */
  predicate Truthy(s: Option<string>)
  {
    s.Some? && s.value != ""
  }

  /** The headers every request starts from, built from the configured credentials. */
  function BaseHeaders(apiKey: Option<string>, oauthToken: Option<string>): (h: Headers)
    ensures "Accept" in h && h["Accept"] == "application/json"
    ensures "X-Api-Key" in h <==> Truthy(apiKey)
    ensures "X-Api-Key" in h ==> h["X-Api-Key"] == apiKey.value
    ensures "Authorization" in h <==> Truthy(oauthToken)
    ensures "Authorization" in h ==> h["Authorization"] == "Bearer " + oauthToken.value
    ensures h.Keys <= {"Accept", "X-Api-Key", "Authorization"}
  {
    var accept := map["Accept" := "application/json"];
    var withKey := if Truthy(apiKey) then accept["X-Api-Key" := apiKey.value] else accept;
    if Truthy(oauthToken) then withKey["Authorization" := "Bearer " + oauthToken.value] else withKey
  }

  /** The base headers overlaid with the caller's (`dict.update`). */
  function Merged(base: Headers, extra: Option<Headers>): (h: Headers)
    ensures extra.None? || extra.value == map[] ==> h == base
    ensures extra.Some? ==> h.Keys == base.Keys + extra.value.Keys
    ensures extra.None? ==> h.Keys == base.Keys
    ensures extra.Some? ==> forall k :: k in extra.value ==> h[k] == extra.value[k]
    ensures forall k :: k in base && (extra.None? || k !in extra.value) ==> h[k] == base[k]
  {
    match extra
    case Some(e) => if e == map[] then base else base + e
    case None => base
  }

  /** The URL of a request: the endpoint appended verbatim after a `/`. */
  function RequestUrl(baseUrl: string, endpoint: string): (url: string)
    ensures |url| == |baseUrl| + 1 + |endpoint|
    ensures url[..|baseUrl|] == baseUrl && url[|baseUrl|] == '/' && url[|baseUrl| + 1..] == endpoint
  {
    baseUrl + "/" + endpoint
  }

  predicate Supported(verb: string)
  {
    verb == "GET" || verb == "POST" || verb == "PUT" || verb == "DELETE"
  }

  /** `raise_for_status` called on `None` after a verb the client does not know: not caught. */
  datatype RequestError = NoneHasNoStatus(verb: string)

  class ApiClient {
    const baseUrl: string
    const timeout: int
    const apiKey: Option<string>
    const oauthToken: Option<string>
    const transport: Transport

    constructor(baseUrl: string, timeout: int, apiKey: Option<string>, oauthToken: Option<string>,
                transport: Transport)
      ensures this.baseUrl == baseUrl && this.timeout == timeout
      ensures this.apiKey == apiKey && this.oauthToken == oauthToken && this.transport == transport
    {
      this.baseUrl := baseUrl;
      this.timeout := timeout;
      this.apiKey := apiKey;
      this.oauthToken := oauthToken;
      this.transport := transport;
    }

    /** `get_headers`: fills the header map key by key. */
    method GetHeaders() returns (headers: Headers)
      ensures headers == BaseHeaders(apiKey, oauthToken)
    {
      headers := map["Accept" := "application/json"];
      if Truthy(apiKey) {
        headers := headers["X-Api-Key" := apiKey.value];
      }
      if Truthy(oauthToken) {
        headers := headers["Authorization" := "Bearer " + oauthToken.value];
      }
    }

    /** The request the library receives for one call of `_make_request`. */
    function RequestFor(verb: string, endpoint: string, data: Body, headers: Option<Headers>): (request: Request)
    {
      Request(verb, RequestUrl(baseUrl, endpoint), Merged(BaseHeaders(apiKey, oauthToken), headers),
              if verb == "POST" || verb == "PUT" then data else NoBody, timeout)
    }

    /**
     * `_make_request`: one request for a known verb, whose library outcome is
     * delivered with failures turned into `None`; for any other verb nothing is
     * sent and the call fails.
     */
    method MakeRequest(verb: string, endpoint: string, data: Body, headers: Option<Headers>)
      returns (r: Result<Option<Response>, RequestError>)
      modifies transport
      ensures Supported(verb) ==>
        && r == Ok(Delivered(Next(old(transport.pending))))
        && transport.sent == old(transport.sent) + [RequestFor(verb, endpoint, data, headers)]
        && transport.pending == Rest(old(transport.pending))
      ensures !Supported(verb) ==>
        && r == Err(NoneHasNoStatus(verb))
        && transport.sent == old(transport.sent) && transport.pending == old(transport.pending)
    {
      var url := baseUrl + "/" + endpoint;
      var merged := GetHeaders();
      if headers.Some? && headers.value != map[] {
        merged := merged + headers.value;
      }
      var response: Option<Response> := None;
      if verb == "GET" {
        response := transport.Send(Request("GET", url, merged, NoBody, timeout));
      } else if verb == "POST" {
        response := transport.Send(Request("POST", url, merged, data, timeout));
      } else if verb == "PUT" {
        response := transport.Send(Request("PUT", url, merged, data, timeout));
      } else if verb == "DELETE" {
        response := transport.Send(Request("DELETE", url, merged, NoBody, timeout));
      } else {
        return Err(NoneHasNoStatus(verb));
      }
      if response.Some? && RaisesForStatus(response.value.status) {
        response := None;
      }
      r := Ok(response);
    }

    method Get(endpoint: string, headers: Option<Headers>) returns (response: Option<Response>)
      modifies transport
      ensures response == Delivered(Next(old(transport.pending)))
      ensures transport.sent == old(transport.sent) + [RequestFor("GET", endpoint, NoBody, headers)]
      ensures transport.pending == Rest(old(transport.pending))
    {
      var r := MakeRequest("GET", endpoint, NoBody, headers);
      response := r.value;
    }

    method Post(endpoint: string, data: Body, headers: Option<Headers>) returns (response: Option<Response>)
      modifies transport
      ensures response == Delivered(Next(old(transport.pending)))
      ensures transport.sent == old(transport.sent) + [RequestFor("POST", endpoint, data, headers)]
      ensures transport.pending == Rest(old(transport.pending))
    {
      var r := MakeRequest("POST", endpoint, data, headers);
      response := r.value;
    }

    method Put(endpoint: string, data: Body, headers: Option<Headers>) returns (response: Option<Response>)
      modifies transport
      ensures response == Delivered(Next(old(transport.pending)))
      ensures transport.sent == old(transport.sent) + [RequestFor("PUT", endpoint, data, headers)]
      ensures transport.pending == Rest(old(transport.pending))
    {
      var r := MakeRequest("PUT", endpoint, data, headers);
      response := r.value;
    }

    method Delete(endpoint: string, headers: Option<Headers>) returns (response: Option<Response>)
      modifies transport
      ensures response == Delivered(Next(old(transport.pending)))
      ensures transport.sent == old(transport.sent) + [RequestFor("DELETE", endpoint, NoBody, headers)]
      ensures transport.pending == Rest(old(transport.pending))
    {
      var r := MakeRequest("DELETE", endpoint, NoBody, headers);
      response := r.value;
    }
  }
}
