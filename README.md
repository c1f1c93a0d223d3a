# up2share Python SDK: a verified model

This project models the core of the up2share Python SDK in Dafny: the
request layer of `ApiClient`, the resumable upload of
`ResumableUploadHandler`, the session-key lookup `get_key_value_from_uri`,
and the file operations of `FileHandler`. Dafny checks the model and its
properties. The modules follow the package:

- `Client` (`client.dfy`) covers `u2s_sdk/client.py`. `ApiClient` is a class
  with its settings as fields. It builds the base headers (`get_headers`),
  merges the caller's headers over them, builds the URL and sends one request.
  The `requests` library becomes a scripted `Transport` object. The transport
  logs every request it is handed and answers with the next outcome of its
  script. `None` stands for a raised `RequestException`. `raise_for_status`
  is the rule that statuses 400 to 599 raise, and the client turns that into
  `None` like any other library failure.
- `Utils` (`utils.dfy`) and `Text` (`text.dfy`) cover `u2s_sdk/utils.py`.
  `urlsplit` deletes tabs, carriage returns and line feeds, cuts the fragment
  at the first `#` and takes the query after the first `?`. `parse_qs` splits
  the query at `&`, splits each field at its first `=`, drops blank values and
  reads `+` as a space. The result is the first value bound to `key`.
- `Chunking` (`chunking.dfy`) gives the byte ranges the chunk loop of
  `simulate_chunk_upload` sends, as a function of the buffer size and the chunk
  size. It gives them both as written and with the loop bound the protocol
  needs, and states what each covers.
- `Handler` (`handler.dfy`) covers `u2s_sdk/handler.py`:
  - the initiation and chunk headers, and reading them back;
  - how the answers to the start and chunk requests are read;
  - a seekable `ByteBuffer`;
  - `ResumableUploadHandler`, whose methods send through the client.

  The chunk loop is a `while` loop. It is proved against the plan from
  `Chunking`: after the loop, the transport's log is exactly the initiation
  request followed by one request per planned chunk, up to the first error.
  Each chunk request is a PUT of that chunk's bytes whose `Content-Range` and
  `Content-Length` read back to the chunk.
- `Files` (`files.dfy`) covers `u2s_sdk/file.py`:
  - `list`'s checks and defaults;
  - the `/files/<id>` endpoints;
  - how `delete`, `get_raw` and `create_download_token` read a status;
  - a `FileHandler` class.

  `get_raw`, `list` and `update` pass `params=` or `json=` to client methods
  that accept neither, so each call fails before any request is made. The
  model says so.

Two consequences of the code as written are stated in the model:

- Every literal endpoint (`/files#resumable`, `/files/<id>`, ...) starts
  with `/`, and the client inserts another `/` between the base URL and the
  endpoint. These requests therefore go to `<base>//files...`
  (`Client.RequestUrl`). A chunk is sent to the session URI the server gave
  in `Location`, appended after that same `/`.
- The client turns a 4xx or 5xx answer into `None` before the handler and
  the file operations read a status. Their branches for unexpected statuses
  therefore never see an error status (`Handler.ClientHidesErrorStatus`,
  `Files.DeleteThroughClient`).

## Model

| member | source | states |
|---|---|---|
| Client.Delivered | u2s_sdk/client.py:179-184 | A response reaches the caller exactly when the library answered and its status is not 4xx or 5xx, and then unchanged. Otherwise the caller gets `None`. |
| Client.BaseHeaders | u2s_sdk/client.py:94-105 | `Accept` is always `application/json`. `X-Api-Key` is present exactly when the API key is truthy, and holds it. `Authorization` is present exactly when the OAuth token is truthy, and holds `Bearer <token>`. There are no other keys. |
| Client.ApiClient.constructor | u2s_sdk/client.py:14-26 | The client keeps its base URL, timeout, API key and OAuth token as given. The library it sends through is its transport. |
| Client.ApiClient.GetHeaders | u2s_sdk/client.py:88-105 | The map filled key by key equals the base headers above. |
| Client.Merged | u2s_sdk/client.py:162-165 | The caller's headers override the base ones. The keys are the union. Base headers the caller does not set are kept. Missing or empty caller headers leave the base unchanged. |
| Client.RequestUrl | u2s_sdk/client.py:159 | The URL is the base URL, one `/`, and the endpoint verbatim. |
| Client.Transport.Send | u2s_sdk/client.py:170-177 | The library call logs the request and answers with the next scripted outcome. An exhausted script answers like a failed request. |
| Client.ApiClient.MakeRequest | u2s_sdk/client.py:149-187 | For GET, POST, PUT and DELETE, exactly one request is sent. It carries the merged headers, and a body only for POST and PUT. The result is the delivered answer. For any other verb nothing is sent and the call fails. |
| Client.ApiClient.Get | u2s_sdk/client.py:107-115 | One GET without a body, answered as delivered. |
| Client.ApiClient.Post | u2s_sdk/client.py:117-126 | One POST with the given body, answered as delivered. |
| Client.ApiClient.Put | u2s_sdk/client.py:128-137 | One PUT with the given body, answered as delivered. |
| Client.ApiClient.Delete | u2s_sdk/client.py:139-147 | One DELETE without a body, answered as delivered. |
| Text.Find | u2s_sdk/utils.py:14 | The index found holds the character and none comes before it. No index means the character is absent. |
| Text.Split | u2s_sdk/utils.py:17 | Splitting gives at least one piece, and no piece holds the separator. |
| Text.JoinSplit | u2s_sdk/utils.py:17 | Joining the pieces of a split with the separator gives the string back. |
| Text.SplitJoin | u2s_sdk/utils.py:17 | Splitting a join of separator-free pieces gives the pieces back. |
| Text.SplitCons | u2s_sdk/utils.py:17 | A separator-free first field is the first piece, and the rest splits on its own. |
| Text.RemoveUnsafe | u2s_sdk/utils.py:14 | The result holds exactly the characters of the URI that are not tab, carriage return or line feed. |
| Text.RemoveUnsafeAppend | u2s_sdk/utils.py:14 | Deleting those characters works piece by piece. |
| Text.NatToDecimal | u2s_sdk/handler.py:38 | `str` of a natural number is a non-empty run of digits with no leading zero. |
| Text.NatDecimalRoundTrip | u2s_sdk/handler.py:74 | Reading back `str(n)` gives `n` for natural numbers. |
| Text.IntDecimalRoundTrip | u2s_sdk/handler.py:38 | Reading back `str(n)` gives `n` for every integer, negative ones included. |
| Text.IntToDecimalInjective | u2s_sdk/file.py:32 | Distinct integers have distinct decimal text. |
| Utils.QueryOfClean | u2s_sdk/utils.py:14 | A URI without `?` has an empty query. |
| Utils.QueryOfCleanParts | u2s_sdk/utils.py:14 | Take a prefix free of `?` and `#` and a query free of `#`. The query component is exactly that query, whether a fragment follows or not. |
| Utils.RemoveUnsafeParts | u2s_sdk/utils.py:14 | Deleting unsafe characters commutes with joining prefix, query and fragment. |
| Utils.FragmentFirst | u2s_sdk/utils.py:14 | When a `#` comes before any `?`, the query is empty. |
| Utils.FragmentBeforeQuery | u2s_sdk/utils.py:7-22 | When a `#` comes before any `?`, no key is found, whatever follows the `#`. |
| Utils.FieldValue | u2s_sdk/utils.py:17 | A field yields a value only if it holds `=`, and the value is never empty. |
| Utils.LookupFields | u2s_sdk/utils.py:17-20 | A value found among the fields is never empty. |
| Utils.GetKeyValueFromUri | u2s_sdk/utils.py:7-22 | A key returned is never empty: blank values count as absent. |
| Utils.NoQueryNoKey | u2s_sdk/utils.py:7-22 | A URI without `?`, the empty string among them, has no key. |
| Utils.OnlyQueryMatters | u2s_sdk/utils.py:14-20 | What precedes the first `?` and what follows the `#` do not change the result, for any ASCII prefix without brackets. |
| Utils.FirstKeyWins | u2s_sdk/utils.py:20 | The first binding of `key` is returned, whatever follows it. |
| Utils.SoleKey | u2s_sdk/utils.py:17-20 | A query that is the single field `key=v` yields `v`. |
| Utils.UnboundFieldSkipped | u2s_sdk/utils.py:17-20 | A field that binds nothing to the name is skipped, and the lookup goes on with the rest. |
| Utils.BareKeyIsAbsent | u2s_sdk/utils.py:17-20 | A bare `key` without `=` binds nothing. |
| Utils.BlankKeyIsAbsent | u2s_sdk/utils.py:17-20 | A blank `key=` binds nothing. |
| Utils.OtherNameOnly | u2s_sdk/utils.py:20 | A query whose only field binds another name has no key. |
| Utils.KeyPresent | u2s_sdk/utils.py:7-22 | For an ASCII host without `?`, `#` or brackets, `<host>?key=<value>` yields `value`, as in the URI `https://example.com/path?key=value`. |
| Utils.KeyMissing | u2s_sdk/utils.py:7-22 | For such a host, `<host>?other=<value>` yields no key. |
| Utils.KeyRepeated | u2s_sdk/utils.py:20 | For such a host, with `key` given twice, the first value is returned. |
| Chunking.ChunksFrom | u2s_sdk/handler.py:118-124 | From cursor `c`, the loop sends nothing exactly when `c + 1 >= total`. Otherwise the first chunk starts at `c`. Every chunk is a non-empty range inside `[c, total)`. |
| Chunking.ChunksShape | u2s_sdk/handler.py:119-124 | The chunks are contiguous. None is longer than the chunk size, and all but the last are exactly that long. |
| Chunking.PlanStep | u2s_sdk/handler.py:120-124 | In one loop turn, the chunk sent is the next planned one, from the cursor to `min(cursor + size - 1, total - 1)`. The rest of the plan starts after it. |
| Chunking.GatherFrom | u2s_sdk/handler.py:118-124 | As written, the loop sends the buffer's bytes in order, without gap or overlap, from the cursor up to `SentUpTo`. |
| Chunking.PlanCoverage | u2s_sdk/handler.py:118-124 | A whole upload sends exactly the first `SentUpTo(total, size, 0)` bytes of the buffer. |
| Chunking.LastByteCoverage | u2s_sdk/handler.py:119 | The last byte is left unsent exactly when `(total - 1) % size == 0`. Otherwise the whole buffer is sent and the last chunk ends at `total - 1`. |
| Chunking.LastChunkEnd | u2s_sdk/handler.py:120 | When the whole buffer is sent, the last chunk ends at the last byte. |
| Chunking.GatherLength | u2s_sdk/handler.py:121 | Contiguous chunks carry as many bytes as their ranges span. |
| Chunking.FullChunksFrom | u2s_sdk/handler.py:119 | With the bound `cursor < total`, nothing is sent exactly when the cursor is at the end. Otherwise the first chunk starts at the cursor and all lie inside the rest of the buffer. |
| Chunking.FullChunksShape | u2s_sdk/handler.py:119-124 | The corrected chunks are contiguous and sized like the loop's, and the last one ends at `total - 1`. |
| Chunking.FullCoverage | u2s_sdk/handler.py:119-124 | The corrected bound sends every byte of the buffer, in order, exactly once. |
| Chunking.AsWrittenDropsTail | u2s_sdk/handler.py:119 | The loop as written sends the corrected chunks, except that it drops the last one exactly when that chunk is the single byte at `total - 1`. |
| Chunking.TenBytesByFour | u2s_sdk/handler.py:118-124 | 10 bytes in chunks of 4 go as `(0,3)`, `(4,7)`, `(8,9)`. |
| Chunking.FiveBytesByFour | u2s_sdk/handler.py:119 | 5 bytes in chunks of 4 send only `(0,3)`, although `(0,3)`, `(4,4)` is intended. |
| Chunking.TinyBufferSendsNothing | u2s_sdk/handler.py:119 | A buffer of at most one byte sends no chunk, although one byte should go as `(0,0)`. |
| Handler.InitiationLengthRead | u2s_sdk/handler.py:36-40 | The initiation headers are exactly `Content-Type` (the caller's), `X-Upload-Content-Length` and `X-Upload-Content-Type` (`application/octet-stream`). The declared length reads back to the total size. |
| Handler.ContentRangeRoundTrip | u2s_sdk/handler.py:72 | `bytes first-last/total` parses back to the three offsets. |
| Handler.ChunkHeadersRead | u2s_sdk/handler.py:71-75 | A chunk's headers are exactly `Content-Range`, `Content-Type` (`application/octet-stream`) and `Content-Length`. The length reads back to `last - first + 1`, and the range to its offsets. |
| Handler.InterpretStart | u2s_sdk/handler.py:49-56 | A session starts exactly when the answer is a 201 with `Location`. Its URI is that header and its key is the lookup on it. Another status fails with that status, and a missing answer fails. |
| Handler.InterpretChunk | u2s_sdk/handler.py:85-92 | 201 completes with the response headers. 308 asks for more. Any other status fails with that status, and a missing answer fails. |
| Handler.ClientHidesErrorStatus | u2s_sdk/handler.py:49-56 | Behind the client, a 4xx or 5xx answer to either step fails as a missing answer, never as an unexpected status. |
| Handler.StartWithKey | u2s_sdk/handler.py:49-54 | For an ASCII host without `?`, `#` or brackets, a 201 with `Location: <host>?key=<k>` starts a session with that location and key `k`. |
| Handler.ChunkRequests | u2s_sdk/handler.py:118-124 | There is one chunk request per chunk. |
| Handler.ChunkRequestsExtend | u2s_sdk/handler.py:122 | Sending the next planned chunk appends its request to the log of those before it. |
| Handler.ProgressStep | u2s_sdk/handler.py:119-124 | One loop turn keeps the loop state: the rest of the plan, the buffer position, the log and the remaining script all advance by exactly one chunk. |
| Handler.ProgressDone | u2s_sdk/handler.py:119 | When the loop test fails, the whole plan has been sent. |
| Handler.ChunkRequestCarries | u2s_sdk/handler.py:71-78 | A chunk request is a PUT of the chunk's bytes to `<base>/<session URI>`. Its `Content-Type` is `application/octet-stream`, and its `Content-Length` and `Content-Range` are the chunk's. The base headers stay: `Accept`, `X-Api-Key` exactly when the API key is truthy, and `Authorization` exactly when the token is. |
| Handler.ChunkRequestConsistent | u2s_sdk/handler.py:71-78 | Each chunk request has these properties. It is a PUT of the chunk's slice of the buffer. Its `Content-Length` reads back to the number of bytes in that slice. Its `Content-Range` reads back to the chunk's offsets and the total size. |
| Handler.UploadName | u2s_sdk/handler.py:112-114 | The upload takes the given filename when it is present and non-empty, and the random name otherwise. |
| Handler.ByteBuffer.SeekEnd | u2s_sdk/handler.py:105 | `seek(0, 2)` moves to the end. |
| Handler.ByteBuffer.Tell | u2s_sdk/handler.py:107 | `tell()` gives the current position. |
| Handler.ByteBuffer.Rewind | u2s_sdk/handler.py:108 | `seek(0)` moves to the start. |
| Handler.ByteBuffer.Read | u2s_sdk/handler.py:121 | `read(n)` returns the next at most `n` bytes and moves past them. |
| Handler.ResumableUploadHandler.constructor | u2s_sdk/handler.py:18-25 | The handler keeps the client it sends through. |
| Handler.ResumableUploadHandler.StartUpload | u2s_sdk/handler.py:27-56 | One POST to `/files#resumable` is logged, with the JSON filename and the initiation headers. The result is the reading of its answer. |
| Handler.ResumableUploadHandler.UploadChunk | u2s_sdk/handler.py:58-92 | One PUT of the chunk is logged, with the chunk headers. The result is the reading of its answer. |
| Handler.ResumableUploadHandler.UploadNext | u2s_sdk/handler.py:120-122 | One loop turn reads the chunk from the cursor to `min(cursor + size - 1, total - 1)` and sends exactly those bytes. |
| Handler.ResumableUploadHandler.SendChunks | u2s_sdk/handler.py:118-131 | The loop sends the planned chunks in order and stops at the first rejected one, or at the end of the plan. Every earlier answer was a 201 or a 308. The result is present exactly when at least one chunk went and none was rejected. It is then the reading of the last answer, a 201 with its headers or a 308. |
| Handler.ResumableUploadHandler.SimulateChunkUpload | u2s_sdk/handler.py:94-137 | The upload is measured, then started under the given name or, when missing or empty, the random one. The log is the start request followed by one request per planned chunk, up to the first error. A failed start sends no chunk. The result is the headers of a final 201. It is `None` after an error, after a final 308, or when no chunk was sent. |
| Files.ListParams | u2s_sdk/file.py:81-108 | The checks run in the order include, search_join, limit, and the first failure names the error. A missing value takes its default. An accepted query is always valid, keeps the given values, and passes `search` through. |
| Files.ListDefaults | u2s_sdk/file.py:21-23 | With nothing given, the query is `owner`, 100 and `and`. |
| Files.ListParamsRoundTrip | u2s_sdk/file.py:82-100 | Giving back the settled values reproduces the same query. |
| Files.FileEndpointRead | u2s_sdk/file.py:32 | `/files/<id><suffix>` reads back to the prefix, the id and the suffix. |
| Files.FileEndpointInjective | u2s_sdk/file.py:123 | Different files have different endpoints for the same operation. |
| Files.DeleteResult | u2s_sdk/file.py:124-130 | `True` exactly for a 204 and `False` for any other status. Reading the status of a missing answer fails. |
| Files.DownloadTokenResult | u2s_sdk/file.py:33-38 | The body is returned exactly for a 200, nothing for any other status, and a missing answer fails. |
| Files.RawResult | u2s_sdk/file.py:61-68 | The content is returned exactly for a 200 or a 206, nothing otherwise, and a missing answer fails. |
| Files.DeleteThroughClient | u2s_sdk/file.py:123-130 | Behind the client, `delete` gives `True` exactly for a 204. It gives `False` for any other status the client lets through, and fails for no answer or a 4xx/5xx answer. |
| Files.MissingFileRaises | u2s_sdk/file.py:124-130 | Deleting a file the server answers 404 for fails instead of giving `False`. |
| Files.IntendedDeleteTotal | u2s_sdk/file.py:120-130 | The documented `delete` answers for every outcome, `True` exactly for a 204. Where the code answers, the two agree. |
| Files.FileHandler.constructor | u2s_sdk/file.py:13-23 | The handler keeps its client and the defaults 100, `owner` and `and`. |
| Files.FileHandler.CreateDownloadToken | u2s_sdk/file.py:25-38 | One GET of `/files/<id>/downloadtoken` is logged, and its answer is read as above. |
| Files.FileHandler.Delete | u2s_sdk/file.py:116-130 | One DELETE of `/files/<id>` is logged, and its answer is read as above. |
| Files.FileHandler.GetRaw | u2s_sdk/file.py:51-60 | The call fails on the `params` argument before any request is made. |
| Files.FileHandler.List | u2s_sdk/file.py:70-114 | A rejected parameter is reported as such. A valid query fails on the `params` argument, and no request is made. |
| Files.FileHandler.Update | u2s_sdk/file.py:142-148 | The call fails on the `json` argument before any request is made. |

## Left out

- Logging is not modelled: `set_logging`, `get_logger` and every `logger` call. It only writes output.
- JSON is not modelled. The initiation body is kept as the filename it encodes. `response.json()` is represented by the undecoded body.
- Exception messages are not modelled. The error values carry the status or the reason instead.
- `parse_qs`'s percent-decoding of names and values is left out: `%xx` escapes are kept as written.
- Utils.GetKeyValueFromUri: never fails, but `urlsplit` raises `ValueError` for some network locations: a host with an unmatched or invalid bracket (`http://[x?key=1`), and a non-ASCII network location whose NFKC form holds one of `/?#@:`. For such a URI the model still returns the key. In the source, `start_upload` then raises at `u2s_sdk/handler.py:52` and `simulate_chunk_upload` returns `False` after the POST, while the model goes on to send the chunks. The lemmas about whole URIs (`Utils.OnlyQueryMatters`, `Utils.KeyPresent`, `Utils.KeyMissing`, `Utils.KeyRepeated`, `Handler.StartWithKey`) are stated only for an ASCII part before the query without brackets, where `urlsplit` cannot raise.
- `requests` looks up response headers case-insensitively. The model looks up `Location` by its exact spelling.
- The random filename (`os.urandom(16).hex()`) is a parameter of `SimulateChunkUpload`, because randomness is outside the model.
- Handler.ResumableUploadHandler.SimulateChunkUpload: requires a chunk size of at least 1 and says nothing about smaller sizes, which the source accepts. With a size of 0 or less and a buffer of two or more bytes, the cursor never moves forward. Each turn sends again from the same or an earlier offset: `read` gives no bytes for a size of 0 and the rest of the buffer for a negative size. The loop ends only at the first missing or rejected answer. The chunk plan (`Chunking.ChunksFrom`) that the contracts are stated against is defined only for positive sizes.
- Handler.ResumableUploadHandler.SendChunks: requires a chunk size of at least 1, for the same reason.
- Handler.ResumableUploadHandler.UploadNext: requires a chunk size of at least 1, for the same reason.
- Arguments of the wrong Python type, and the `TypeError`s they raise, are left out. An example is a string `limit`.
- The library's own behaviour is not modelled: timeouts, redirects and connection handling. It is the scripted transport. The timeout is carried in each request and never acted on.
- `ApiClient`'s default base URL and timeout are not modelled; the constructor takes both as arguments.
- The status mapping of `list` and `update` (200 gives the JSON, anything else `None`) is not modelled separately. It is the mapping of `Files.DownloadTokenResult`, and these calls never reach it.
- `get_raw`'s `Range` header and query parameters are not modelled, because the call fails before they are used.

## Findings

| source | as written | input that shows it | evidently intended | confidence | as-written member | corrected member |
|---|---|---|---|---|---|---|
| u2s_sdk/handler.py:119 | The loop runs while `chunk_start < total_size - 1`. | A 5-byte buffer in chunks of 4 sends `(0,3)` only, and the fifth byte never goes. A 1-byte buffer sends nothing. | Loop while `chunk_start < total_size`, so that every byte is sent exactly once. | high, not executed | Chunking.FiveBytesByFour | Chunking.FullCoverage |
| u2s_sdk/file.py:124-130 | `delete` reads `status_code` of whatever the client returns. The client returns `None` for a 4xx/5xx answer. | A 404 answer: the client returns `None`, and `delete` fails reading its status instead of returning `False`. | `False` for every deletion that did not succeed, as documented. | high, not executed | Files.MissingFileRaises | Files.IntendedDeleteTotal |
