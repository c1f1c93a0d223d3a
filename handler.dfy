/**
 * The resumable-upload protocol of `u2s_sdk/handler.py`: starting a session,
 * sending one chunk, and the loop that feeds a whole buffer through them.
 */
module Handler {
  import opened Wrappers
  import opened Text
  import opened Utils
  import opened Client
  import opened Chunking

  /** Where an upload session is requested; the client appends it to its base URL. */
  const InitiationEndpoint := "/files#resumable"

  const OctetStream := "application/octet-stream"

  // ---------------------------------------------------------------------------
  // Header values

  /** The headers of the initiation request. */
  function InitiationHeaders(totalSize: int, contentType: string): (headers: Headers)
  {
    map["Content-Type" := contentType,
        "X-Upload-Content-Length" := IntToDecimal(totalSize),
        "X-Upload-Content-Type" := OctetStream]
  }

  /** The unit every `Content-Range` value starts with. */
  const RangeUnit := "bytes "

  /** `bytes first-last/total`, the byte-range form of section 14.4 of RFC 9110. */
  function ContentRange(first: int, last: int, total: int): (value: string)
  {
    RangeUnit + (IntToDecimal(first) + "-" + (IntToDecimal(last) + "/" + IntToDecimal(total)))
  }

  /** Reads a `bytes first-last/total` value back into its three offsets. */
  function ParseContentRange(s: string): (r: Option<(nat, nat, nat)>)
  {
    if |s| < |RangeUnit| || s[..|RangeUnit|] != RangeUnit then None
    else ParseRangeSpec(s[|RangeUnit|..])
  }

  function ParseRangeSpec(spec: string): (r: Option<(nat, nat, nat)>)
  {
    match Find(spec, '-')
    case None => None
    case Some(i) => ParseRangeEnd(ParseNat(spec[..i]), spec[i + 1..])
  }

  function ParseRangeEnd(first: Option<nat>, tail: string): (r: Option<(nat, nat, nat)>)
  {
    match Find(tail, '/')
    case None => None
    case Some(j) =>
      match (first, ParseNat(tail[..j]), ParseNat(tail[j + 1..]))
      case (Some(f), Some(l), Some(t)) => Some((f, l, t))
      case _ => None
  }

  lemma DigitsLackChar(s: string, c: char)
    requires AllDigits(s) && !IsDigit(c)
    ensures c !in s
  {
  }

  lemma AppendParts<T>(p: seq<T>, q: seq<T>)
    ensures (p + q)[..|p|] == p && (p + q)[|p|..] == q
  {
  }

  lemma AroundSeparator<T>(x: seq<T>, sep: T, y: seq<T>)
    ensures (x + [sep] + y)[..|x|] == x && (x + [sep] + y)[|x| + 1..] == y
  {
  }

  lemma RangeUnitRead(spec: string)
    ensures ParseContentRange(RangeUnit + spec) == ParseRangeSpec(spec)
  {
    AppendParts(RangeUnit, spec);
  }

  lemma RangeSpecRead(a: string, tail: string)
    requires '-' !in a
    ensures ParseRangeSpec(a + "-" + tail) == ParseRangeEnd(ParseNat(a), tail)
  {
    FindAfterFreePrefix(a, '-', tail);
    AroundSeparator(a, '-', tail);
  }

  lemma RangeEndRead(first: Option<nat>, b: string, c: string)
    requires '/' !in b
    ensures ParseRangeEnd(first, b + "/" + c)
         == match (first, ParseNat(b), ParseNat(c))
            case (Some(f), Some(l), Some(t)) => Some((f, l, t))
            case _ => None
  {
    FindAfterFreePrefix(b, '/', c);
    AroundSeparator(b, '/', c);
  }

  /**
   * The initiation headers: the caller's content type, the declared length,
   * which reads back to the size it was built from, and `application/octet-stream`
   * as the type of the upload.
   */
  lemma InitiationLengthRead(totalSize: int, contentType: string)
    ensures InitiationHeaders(totalSize, contentType).Keys
         == {"Content-Type", "X-Upload-Content-Length", "X-Upload-Content-Type"}
    ensures InitiationHeaders(totalSize, contentType)["Content-Type"] == contentType
    ensures InitiationHeaders(totalSize, contentType)["X-Upload-Content-Type"] == OctetStream
    ensures ParseInt(InitiationHeaders(totalSize, contentType)["X-Upload-Content-Length"]) == Some(totalSize)
  {
    IntDecimalRoundTrip(totalSize);
  }

  /** A `Content-Range` value of non-negative offsets reads back to those offsets. */
  lemma ContentRangeRoundTrip(first: nat, last: nat, total: nat)
    ensures ParseContentRange(ContentRange(first, last, total)) == Some((first, last, total))
  {
    var a, b, c := NatToDecimal(first), NatToDecimal(last), NatToDecimal(total);
    RangeUnitRead(a + "-" + (b + "/" + c));
    DigitsLackChar(a, '-');
    RangeSpecRead(a, b + "/" + c);
    DigitsLackChar(b, '/');
    RangeEndRead(Some(first), b, c);
    NatDecimalRoundTrip(first);
    NatDecimalRoundTrip(last);
    NatDecimalRoundTrip(total);
  }

  /** The headers of one chunk request. */
  function ChunkHeaders(first: int, last: int, total: int): (headers: Headers)
  {
    map["Content-Range" := ContentRange(first, last, total),
        "Content-Type" := OctetStream,
        "Content-Length" := IntToDecimal(last - first + 1)]
  }

  /**
   * The three headers of a chunk, read back: `Content-Type` is
   * `application/octet-stream`, `Content-Length` the number of bytes from
   * `first` to `last` inclusive, and `Content-Range`, for non-negative offsets,
   * the three offsets.
   */
  lemma ChunkHeadersRead(first: int, last: int, total: int)
    ensures ChunkHeaders(first, last, total).Keys == {"Content-Range", "Content-Type", "Content-Length"}
    ensures ChunkHeaders(first, last, total)["Content-Type"] == OctetStream
    ensures ParseInt(ChunkHeaders(first, last, total)["Content-Length"]) == Some(last - first + 1)
    ensures first >= 0 && last >= 0 && total >= 0 ==>
      ParseContentRange(ChunkHeaders(first, last, total)["Content-Range"]) == Some((first, last, total))
  {
    IntDecimalRoundTrip(last - first + 1);
    if first >= 0 && last >= 0 && total >= 0 {
      ContentRangeRoundTrip(first, last, total);
    }
  }

  // ---------------------------------------------------------------------------
  // Status interpretation

  /** A started session: the `Location` header and the key found in its query. */
  datatype Started = Started(location: string, key: Option<string>)

  /** What the server said about a chunk: the upload is complete, or it expects more. */
  datatype ChunkOutcome = Completed(headers: Headers) | InProgress

  /**
   * Why a protocol step failed: no response (the client handed back `None`,
   * whose `status_code` cannot be read), a 201 without `Location`, or an
   * unexpected status.
   */
  datatype UploadError =
    | NoResponse
    | MissingLocation
    | InitiationFailed(status: int)
    | ChunkFailed(status: int)

  /** `start_upload`'s reading of the initiation response. */
  function InterpretStart(response: Option<Response>): (r: Result<Started, UploadError>)
    ensures r.Ok? <==> response.Some? && response.value.status == 201 && "Location" in response.value.headers
    ensures r.Ok? ==>
      r.value.location == response.value.headers["Location"] && r.value.key == GetKeyValueFromUri(r.value.location)
    ensures response.Some? && response.value.status != 201 ==> r == Err(InitiationFailed(response.value.status))
    ensures response.None? ==> r == Err(NoResponse)
  {
    match response
    case None => Err(NoResponse)
    case Some(resp) =>
      if resp.status != 201 then Err(InitiationFailed(resp.status))
      else if "Location" !in resp.headers then Err(MissingLocation)
      else
        var location := resp.headers["Location"];
        Ok(Started(location, GetKeyValueFromUri(location)))
  }

  /**
   * `upload_chunk`'s reading of a chunk response: 201 completes with the
   * response headers, 308 asks for more, every other status fails.
   */
  function InterpretChunk(response: Option<Response>): (r: Result<ChunkOutcome, UploadError>)
    ensures response.Some? && response.value.status == 201 ==> r == Ok(Completed(response.value.headers))
    ensures response.Some? && response.value.status == 308 ==> r == Ok(InProgress)
    ensures response.Some? && response.value.status != 201 && response.value.status != 308 ==>
      r == Err(ChunkFailed(response.value.status))
    ensures response.None? ==> r == Err(NoResponse)
  {
    match response
    case None => Err(NoResponse)
    case Some(resp) =>
      if resp.status == 201 then Ok(Completed(resp.headers))
      else if resp.status == 308 then Ok(InProgress)
      else Err(ChunkFailed(resp.status))
  }

  /**
   * Behind the client, a 4xx or 5xx answer never reaches the status checks:
   * the client hands back `None`, so both steps fail for want of a response.
   */
  lemma ClientHidesErrorStatus(raw: Option<Response>)
    requires raw.Some? && RaisesForStatus(raw.value.status)
    ensures InterpretStart(Delivered(raw)) == Err(NoResponse)
    ensures InterpretChunk(Delivered(raw)) == Err(NoResponse)
  {
  }

  /** A 201 whose `Location` is `<host>?key=<key>` starts a session with that key. */
  lemma StartWithKey(host: string, key: string, headers: Headers, content: seq<bv8>)
    requires PlainPrefix(host) && |key| > 0 && PlainText(key)
    requires headers == map["Location" := host + "?" + ("key=" + key)]
    ensures InterpretStart(Some(Response(201, headers, content)))
         == Ok(Started(host + "?" + ("key=" + key), Some(key)))
  {
    KeyPresent(host, key);
  }

  /** The answer the handler reads for the `i`-th request of an upload. */
  function Answer(script: seq<Option<Response>>, i: nat): (answer: Option<Response>)
  {
    Delivered(At(script, i))
  }

  /** Every chunk answer before the `n`-th (the answers 1 to `n - 1`) was a 201 or a 308. */
  ghost predicate AcceptedBelow(script: seq<Option<Response>>, n: nat)
  {
    forall i :: 1 <= i < n ==> InterpretChunk(Answer(script, i)).Ok?
  }

  lemma RejectedStops(script: seq<Option<Response>>, n: nat)
    requires n >= 1 && InterpretChunk(Answer(script, n)).Err?
    ensures !AcceptedBelow(script, n + 1)
  {
  }

  lemma AcceptedPrefix(script: seq<Option<Response>>, n: nat)
    requires AcceptedBelow(script, n + 1)
    ensures AcceptedBelow(script, n)
  {
  }

  lemma AcceptedStep(script: seq<Option<Response>>, n: nat)
    requires AcceptedBelow(script, n) && InterpretChunk(Answer(script, n)).Ok?
    ensures AcceptedBelow(script, n + 1)
  {
  }

  // ---------------------------------------------------------------------------
  // The requests an upload sends

  function InitiationRequest(client: ApiClient, filename: string, totalSize: int, contentType: string): (request: Request)
  {
    client.RequestFor("POST", InitiationEndpoint, JsonFilename(filename),
                      Some(InitiationHeaders(totalSize, contentType)))
  }

  function ChunkRequest(client: ApiClient, uploadUri: string, totalSize: int, chunkData: seq<bv8>,
                        chunkStart: int, chunkEnd: int): (request: Request)
  {
    client.RequestFor("PUT", uploadUri, Bytes(chunkData), Some(ChunkHeaders(chunkStart, chunkEnd, totalSize)))
  }

  /**
   * The bytes of `data` from `c.first` to `c.last` inclusive. The empty result
   * for a chunk outside `data` only makes the function total: every chunk of a
   * plan lies inside the buffer (`ChunksFrom`), so that branch is never taken
   * and stands for nothing the upload does.
   */
  function ChunkBytes(data: seq<bv8>, c: Chunk): (bytes: seq<bv8>)
  {
    if c.first <= c.last < |data| then data[c.first..c.last + 1] else []
  }

  /** The chunk requests for the chunks `cs` of `data`, in order. */
  function ChunkRequests(client: ApiClient, uploadUri: string, data: seq<bv8>, cs: seq<Chunk>): (requests: seq<Request>)
    ensures |requests| == |cs|
  {
    if cs == [] then []
    else
      var c := cs[|cs| - 1];
      ChunkRequests(client, uploadUri, data, cs[..|cs| - 1])
        + [ChunkRequest(client, uploadUri, |data|, ChunkBytes(data, c), c.first, c.last)]
  }

  /** One more chunk adds its request at the end of the log. */
  lemma ChunkRequestsSnoc(client: ApiClient, uploadUri: string, data: seq<bv8>, cs: seq<Chunk>, c: Chunk)
    ensures ChunkRequests(client, uploadUri, data, cs + [c])
         == ChunkRequests(client, uploadUri, data, cs)
            + [ChunkRequest(client, uploadUri, |data|, ChunkBytes(data, c), c.first, c.last)]
  {
    var all := cs + [c];
    assert all[|all| - 1] == c;
    assert all[..|all| - 1] == cs;
  }

  lemma ChunkRequestsExtend(client: ApiClient, uploadUri: string, data: seq<bv8>, plan: seq<Chunk>, k: nat,
                             first: nat, last: nat)
    requires k < |plan| && Within(plan, 0, |data|) && plan[k] == Chunk(first, last)
    ensures first <= last < |data|
    ensures ChunkRequests(client, uploadUri, data, plan[..k + 1])
         == ChunkRequests(client, uploadUri, data, plan[..k])
            + [ChunkRequest(client, uploadUri, |data|, data[first..last + 1], first, last)]
  {
    var c := Chunk(first, last);
    assert 0 <= plan[k].first <= plan[k].last < |data|;
    assert ChunkBytes(data, c) == data[first..last + 1];
    assert plan[..k + 1] == plan[..k] + [c];
    ChunkRequestsSnoc(client, uploadUri, data, plan[..k], c);
  }

  /**
   * The state of the chunk loop after `k` chunks of `plan`, with the cursor at
   * `cursor`: the rest of the plan is what the loop still sends from there,
   * the buffer stands at the cursor, the log holds the initial entries and one
   * request per chunk sent, and the script has moved past the start and those
   * chunks.
   */
  ghost predicate Progress(client: ApiClient, uploadUri: string, data: seq<bv8>, size: nat,
                           script: seq<Option<Response>>, sent0: seq<Request>, plan: seq<Chunk>,
                           position: nat, sent: seq<Request>, pending: seq<Option<Response>>, k: nat, cursor: nat)
    requires size >= 1
  {
    && k <= |plan| && plan[k..] == ChunksFrom(|data|, size, cursor)
    && Within(plan, 0, |data|)
    && cursor == Cursor(plan, k)
    && position == cursor
    && sent == sent0 + ChunkRequests(client, uploadUri, data, plan[..k])
    && pending == Drop(script, k + 1)
  }

  /** One turn of the loop takes the loop state after `k` chunks to the state after `k + 1`. */
  lemma ProgressStep(client: ApiClient, uploadUri: string, data: seq<bv8>, size: nat,
                     script: seq<Option<Response>>, sent0: seq<Request>, plan: seq<Chunk>,
                     position: nat, sent: seq<Request>, pending: seq<Option<Response>>, k: nat, cursor: nat,
                     last: nat, position': nat, sent': seq<Request>, pending': seq<Option<Response>>)
    requires size >= 1
    requires Progress(client, uploadUri, data, size, script, sent0, plan, position, sent, pending, k, cursor)
    requires cursor + 1 < |data| && last == Min(cursor + size - 1, |data| - 1)
    requires position' == last + 1 && pending' == Rest(pending)
    requires sent' == sent + [ChunkRequest(client, uploadUri, |data|, data[cursor..last + 1], cursor, last)]
    ensures Progress(client, uploadUri, data, size, script, sent0, plan, position', sent', pending', k + 1, last + 1)
    ensures Answer(script, k + 1) == Delivered(Next(pending))
  {
    PlanStep(plan, k, |data|, size, cursor, last);
    ChunkRequestsExtend(client, uploadUri, data, plan, k, cursor, last);
    AppendSnoc(sent0, ChunkRequests(client, uploadUri, data, plan[..k]),
               ChunkRequest(client, uploadUri, |data|, data[cursor..last + 1], cursor, last));
    DropStep(script, k + 1);
  }

  /** Once the cursor reaches `total - 1` the whole plan has been sent. */
  lemma ProgressDone(client: ApiClient, uploadUri: string, data: seq<bv8>, size: nat,
                     script: seq<Option<Response>>, sent0: seq<Request>, plan: seq<Chunk>,
                     position: nat, sent: seq<Request>, pending: seq<Option<Response>>, k: nat, cursor: nat)
    requires size >= 1
    requires Progress(client, uploadUri, data, size, script, sent0, plan, position, sent, pending, k, cursor)
    requires cursor + 1 >= |data|
    ensures k == |plan|
  {
  }

  /** What the loop state says about the log, the script and the buffer. */
  lemma ProgressFacts(client: ApiClient, uploadUri: string, data: seq<bv8>, size: nat,
                      script: seq<Option<Response>>, sent0: seq<Request>, plan: seq<Chunk>,
                      position: nat, sent: seq<Request>, pending: seq<Option<Response>>, k: nat, cursor: nat)
    requires size >= 1
    requires Progress(client, uploadUri, data, size, script, sent0, plan, position, sent, pending, k, cursor)
    ensures k <= |plan|
    ensures sent == sent0 + ChunkRequests(client, uploadUri, data, plan[..k])
    ensures pending == Drop(script, k + 1) && position == Cursor(plan, k)
  {
  }

  lemma AppendSnoc<T>(a: seq<T>, b: seq<T>, x: T)
    ensures (a + b) + [x] == a + (b + [x])
  {
  }

  /**
   * A chunk request is a PUT of the chunk's bytes to the session URI. Its
   * headers are the client's base headers with the chunk's three headers laid
   * over them: `Accept` and the credentials stay, `Content-Type` is
   * `application/octet-stream`, and `Content-Length` and `Content-Range` are
   * the chunk's.
   */
  lemma ChunkRequestCarries(client: ApiClient, uploadUri: string, totalSize: int, chunkData: seq<bv8>,
                            first: int, last: int)
    ensures var request := ChunkRequest(client, uploadUri, totalSize, chunkData, first, last);
      var extra := ChunkHeaders(first, last, totalSize);
      && request.verb == "PUT"
      && request.url == client.baseUrl + "/" + uploadUri
      && request.body == Bytes(chunkData)
      && "Content-Length" in request.headers && request.headers["Content-Length"] == extra["Content-Length"]
      && "Content-Range" in request.headers && request.headers["Content-Range"] == extra["Content-Range"]
      && "Content-Type" in request.headers && request.headers["Content-Type"] == OctetStream
      && "Accept" in request.headers && request.headers["Accept"] == "application/json"
      && ("X-Api-Key" in request.headers <==> Truthy(client.apiKey))
      && ("Authorization" in request.headers <==> Truthy(client.oauthToken))
  {
    var extra := ChunkHeaders(first, last, totalSize);
    var request := ChunkRequest(client, uploadUri, totalSize, chunkData, first, last);
    var base := BaseHeaders(client.apiKey, client.oauthToken);
    assert request.headers == Merged(base, Some(extra));
    ChunkHeadersRead(first, last, totalSize);
    assert "Accept" !in extra && "X-Api-Key" !in extra && "Authorization" !in extra;
  }

  /**
   * A chunk request says what it carries: it is a PUT to the session URI
   * appended to the base URL, its `Content-Range` reads back to the chunk's
   * offsets and the total, and its `Content-Length` is the length of its body,
   * which is the chunk's slice of the buffer.
   */
  lemma ChunkRequestConsistent(client: ApiClient, uploadUri: string, data: seq<bv8>, c: Chunk)
    requires c.first <= c.last < |data|
    ensures var request := ChunkRequest(client, uploadUri, |data|, data[c.first..c.last + 1], c.first, c.last);
      && request.verb == "PUT"
      && request.url == client.baseUrl + "/" + uploadUri
      && request.body == Bytes(data[c.first..c.last + 1])
      && |request.body.data| == c.last - c.first + 1
      && ParseInt(request.headers["Content-Length"]) == Some(c.last - c.first + 1)
      && ParseContentRange(request.headers["Content-Range"]) == Some((c.first, c.last, |data|))
  {
    var body := data[c.first..c.last + 1];
    var request := ChunkRequest(client, uploadUri, |data|, body, c.first, c.last);
    var extra := ChunkHeaders(c.first, c.last, |data|);
    ChunkRequestCarries(client, uploadUri, |data|, body, c.first, c.last);
    ChunkHeadersRead(c.first, c.last, |data|);
    assert |request.body.data| == c.last - c.first + 1;
    assert ParseInt(extra["Content-Length"]) == Some(c.last - c.first + 1);
    assert request.headers["Content-Length"] == extra["Content-Length"];
  }

  /** The name an upload is started under: the one given, or the random one when it is missing or empty. */
  function UploadName(filename: Option<string>, randomName: string): (name: string)
    ensures filename.Some? && filename.value != "" ==> name == filename.value
    ensures filename.None? || filename.value == "" ==> name == randomName
  {
    if filename.Some? && filename.value != "" then filename.value else randomName
  }

  // ---------------------------------------------------------------------------
  // The byte source

  /** A seekable in-memory byte stream, as the loop uses it. */
  class ByteBuffer {
    const data: seq<bv8>
    var position: nat

    ghost predicate Valid()
      reads this
    {
      position <= |data|
    }

    constructor(data: seq<bv8>)
      ensures this.data == data && position == 0 && Valid()
    {
      this.data := data;
      position := 0;
    }

    /** `seek(0, 2)`. */
    method SeekEnd()
      modifies this
      ensures position == |data| && Valid()
    {
      position := |data|;
    }

    /** `seek(0)`. */
    method Rewind()
      modifies this
      ensures position == 0 && Valid()
    {
      position := 0;
    }

    /** `tell()`. */
    method Tell() returns (offset: nat)
      ensures offset == position
    {
      offset := position;
    }

    /** `read(n)`: at most `n` bytes from the current position on, which moves past them. */
    method Read(n: nat) returns (bytes: seq<bv8>)
      requires Valid()
      modifies this
      ensures Valid()
      ensures bytes == data[old(position)..Min(old(position) + n, |data|)]
      ensures position == old(position) + |bytes|
    {
      var stop := Min(position + n, |data|);
      bytes := data[position..stop];
      position := stop;
    }
  }

  // ---------------------------------------------------------------------------
  // The handler

  class ResumableUploadHandler {
    const client: ApiClient

    constructor(client: ApiClient)
      ensures this.client == client
    {
      this.client := client;
    }

    /** `start_upload`: one POST, whose answer decides the session or the error. */
    method StartUpload(filename: string, totalSize: int, contentType: string)
      returns (r: Result<Started, UploadError>)
      modifies client.transport
      ensures client.transport.sent
           == old(client.transport.sent) + [InitiationRequest(client, filename, totalSize, contentType)]
      ensures client.transport.pending == Rest(old(client.transport.pending))
      ensures r == InterpretStart(Delivered(Next(old(client.transport.pending))))
    {
      var headers := InitiationHeaders(totalSize, contentType);
      var response := client.Post(InitiationEndpoint, JsonFilename(filename), Some(headers));
      if response.None? {
        return Err(NoResponse);
      }
      var resp := response.value;
      if resp.status == 201 {
        if "Location" !in resp.headers {
          return Err(MissingLocation);
        }
        var location := resp.headers["Location"];
        var key := GetKeyValueFromUri(location);
        r := Ok(Started(location, key));
      } else {
        r := Err(InitiationFailed(resp.status));
      }
    }

    /** `upload_chunk`: one PUT of a chunk, whose answer is interpreted. */
    method UploadChunk(uploadUri: string, totalSize: int, chunkData: seq<bv8>, chunkStart: int, chunkEnd: int)
      returns (r: Result<ChunkOutcome, UploadError>)
      modifies client.transport
      ensures client.transport.sent
           == old(client.transport.sent) + [ChunkRequest(client, uploadUri, totalSize, chunkData, chunkStart, chunkEnd)]
      ensures client.transport.pending == Rest(old(client.transport.pending))
      ensures r == InterpretChunk(Delivered(Next(old(client.transport.pending))))
    {
      var headers := ChunkHeaders(chunkStart, chunkEnd, totalSize);
      var response := client.Put(uploadUri, Bytes(chunkData), Some(headers));
      if response.None? {
        return Err(NoResponse);
      }
      var resp := response.value;
      if resp.status == 201 {
        r := Ok(Completed(resp.headers));
      } else if resp.status == 308 {
        r := Ok(InProgress);
      } else {
        r := Err(ChunkFailed(resp.status));
      }
    }

    /**
     * One turn of the chunk loop of `simulate_chunk_upload`: the chunk from the
     * cursor up to `min(cursor + size - 1, total - 1)` is read from the buffer
     * and sent.
     */
    method UploadNext(uploadUri: string, buffer: ByteBuffer, chunkSize: int, chunkStart: nat)
      returns (chunkEnd: nat, outcome: Result<ChunkOutcome, UploadError>)
      requires chunkSize >= 1 && buffer.Valid() && buffer.position == chunkStart && chunkStart + 1 < |buffer.data|
      modifies buffer, client.transport
      ensures chunkEnd == Min(chunkStart + chunkSize - 1, |buffer.data| - 1)
      ensures buffer.Valid() && buffer.position == chunkEnd + 1
      ensures client.transport.sent
           == old(client.transport.sent)
              + [ChunkRequest(client, uploadUri, |buffer.data|, buffer.data[chunkStart..chunkEnd + 1], chunkStart, chunkEnd)]
      ensures client.transport.pending == Rest(old(client.transport.pending))
      ensures outcome == InterpretChunk(Delivered(Next(old(client.transport.pending))))
    {
      var totalSize := |buffer.data|;
      chunkEnd := Min(chunkStart + chunkSize - 1, totalSize - 1);
      var chunkData := buffer.Read(chunkEnd - chunkStart + 1);
      outcome := UploadChunk(uploadUri, totalSize, chunkData, chunkStart, chunkEnd);
    }

    /**
     * The chunk loop of `simulate_chunk_upload`: with the cursor at 0, send the
     * buffer chunk by chunk while the cursor is below `total - 1`, stopping at
     * the first error. `success` is the last answer, and is missing when no
     * chunk was sent or an error ended the loop; `issued` counts the chunk
     * requests, and the answers are read from `script` after its first entry.
     */
    method SendChunks(uploadUri: string, buffer: ByteBuffer, chunkSize: int, ghost script: seq<Option<Response>>)
      returns (success: Option<ChunkOutcome>, ghost issued: nat)
      requires chunkSize >= 1 && buffer.Valid() && buffer.position == 0
      requires client.transport.pending == Drop(script, 1)
      modifies buffer, client.transport
      ensures buffer.Valid()
      ensures Progress(client, uploadUri, buffer.data, chunkSize, script, old(client.transport.sent),
                       ChunkPlan(|buffer.data|, chunkSize), buffer.position, client.transport.sent,
                       client.transport.pending, issued, buffer.position)
      ensures AcceptedBelow(script, issued)
      ensures issued == |ChunkPlan(|buffer.data|, chunkSize)| || InterpretChunk(Answer(script, issued)).Err?
      ensures success.Some? <==> issued > 0 && AcceptedBelow(script, issued + 1)
      ensures success.Some? ==> success.value == InterpretChunk(Answer(script, issued)).value
    {
      var totalSize: nat := |buffer.data|;
      ghost var plan := ChunkPlan(totalSize, chunkSize);
      ghost var sent0 := client.transport.sent;
      issued := 0;
      var chunkStart: nat := 0;
      success := None;
      while chunkStart < totalSize - 1
        invariant buffer.Valid() && buffer.position == chunkStart
        invariant Progress(client, uploadUri, buffer.data, chunkSize, script, sent0, plan, buffer.position,
                           client.transport.sent, client.transport.pending, issued, chunkStart)
        invariant AcceptedBelow(script, issued + 1)
        invariant success.Some? <==> issued > 0
        invariant issued > 0 ==> success.value == InterpretChunk(Answer(script, issued)).value
        decreases totalSize - chunkStart
      {
        ghost var position, sent, pending := buffer.position, client.transport.sent, client.transport.pending;
        var chunkEnd, outcome := UploadNext(uploadUri, buffer, chunkSize, chunkStart);
        ProgressStep(client, uploadUri, buffer.data, chunkSize, script, sent0, plan, position, sent, pending,
                     issued, chunkStart, chunkEnd, buffer.position, client.transport.sent, client.transport.pending);
        issued := issued + 1;
        chunkStart := chunkEnd + 1;
        if outcome.Err? {
          RejectedStops(script, issued);
          return None, issued;
        }
        AcceptedStep(script, issued);
        success := Some(outcome.value);
      }
      ProgressDone(client, uploadUri, buffer.data, chunkSize, script, sent0, plan, buffer.position,
                   client.transport.sent, client.transport.pending, issued, chunkStart);
      AcceptedPrefix(script, issued);
    }

    /**
     * `simulate_chunk_upload`: measure the buffer, start a session under the
     * given name (a random one when it is missing or empty), and send the
     * chunks. An error ends the upload with `None` (the source's `False`);
     * otherwise the result is what the last chunk answered: its headers for a
     * 201, `None` for a 308. `issued` counts the chunk requests sent.
     */
    method SimulateChunkUpload(buffer: ByteBuffer, chunkSize: int, filename: Option<string>, randomName: string)
      returns (result: Option<Headers>, ghost issued: nat)
      requires buffer.Valid() && chunkSize >= 1
      modifies buffer, client.transport
      ensures buffer.Valid()
      ensures issued <= |ChunkPlan(|buffer.data|, chunkSize)|
      ensures client.transport.sent
           == old(client.transport.sent)
              + [InitiationRequest(client, UploadName(filename, randomName), |buffer.data|, OctetStream)]
              + ChunkRequests(client, LocationOf(InterpretStart(Answer(old(client.transport.pending), 0))),
                              buffer.data, ChunkPlan(|buffer.data|, chunkSize)[..issued])
      ensures client.transport.pending == Drop(old(client.transport.pending), issued + 1)
      ensures buffer.position == Cursor(ChunkPlan(|buffer.data|, chunkSize), issued)
      ensures InterpretStart(Answer(old(client.transport.pending), 0)).Err? ==> issued == 0 && result.None?
      ensures InterpretStart(Answer(old(client.transport.pending), 0)).Ok? ==>
        && AcceptedBelow(old(client.transport.pending), issued)
        && (issued == |ChunkPlan(|buffer.data|, chunkSize)|
            || InterpretChunk(Answer(old(client.transport.pending), issued)).Err?)
      ensures result.Some? <==>
        && InterpretStart(Answer(old(client.transport.pending), 0)).Ok?
        && issued > 0
        && AcceptedBelow(old(client.transport.pending), issued + 1)
        && InterpretChunk(Answer(old(client.transport.pending), issued)).value.Completed?
      ensures result.Some? ==>
        result.value == InterpretChunk(Answer(old(client.transport.pending), issued)).value.headers
    {
      ghost var script := client.transport.pending;
      buffer.SeekEnd();
      var totalSize := buffer.Tell();
      buffer.Rewind();

      var name := UploadName(filename, randomName);
      DropFirst(script);
      ghost var plan := ChunkPlan(totalSize, chunkSize);
      var started := StartUpload(name, totalSize, OctetStream);
      assert started == InterpretStart(Answer(script, 0));
      assert client.transport.pending == Drop(script, 1);
      if started.Err? {
        assert plan[..0] == [];
        assert client.transport.pending == Drop(old(client.transport.pending), 1);
        return None, 0;
      }
      var uploadUri := started.value.location;
      assert uploadUri == LocationOf(InterpretStart(Answer(script, 0)));

      ghost var sent1 := client.transport.sent;
      var success;
      success, issued := SendChunks(uploadUri, buffer, chunkSize, script);
      ProgressFacts(client, uploadUri, buffer.data, chunkSize, script, sent1, plan, buffer.position,
                    client.transport.sent, client.transport.pending, issued, buffer.position);
      // A missing `success` is either a caught error or a name never bound, whose
      // reading raises; a 308 answer is `False`. Both end as `None`.
      result := if success.Some? && success.value.Completed? then Some(success.value.headers) else None;
      assert client.transport.pending == Drop(script, issued + 1);
      assert script == old(client.transport.pending);
    }
  }

  /** The session URI of a started upload (empty when the start failed). */
  function LocationOf(started: Result<Started, UploadError>): (location: string)
  {
    if started.Ok? then started.value.location else ""
  }
}
