# Diffbot REST client — a verified model of request construction and response classification

The repository is a Rust client for the Diffbot content-extraction service.
Two generations of the client are modelled:

- the **current client** (`src/lib.rs`): a `Diffbot` value holding a token and
  an API version (`u8`), the endpoint catalogue (`analyze`, `article`,
  `product`, `discussion`, `image`, `video`, or a custom name), the endpoint
  URL strings `https://api.diffbot.com/v<version>/<api>`, the query of every
  GET/POST call (token, target URL or collection and query, then the caller's
  options verbatim and in order), the form bodies of crawl and bulk jobs
  (fixed fields serialized, `&`, options serialized), and the classification
  of the decoded JSON response (`process_request`): not an object is a JSON
  error, an object with an `error` key is an API error with a defaulted code
  and message, anything else is the success payload, unchanged;
- the **earlier client** (`src/diffbot/lib.rs`): `prepare_request` (query
  `token`, `url`, and `fields` joined with `,` only when fields were asked
  for; path `/v<version>/<api>` on `http://api.diffbot.com`; method GET), the
  `Request` object whose methods change it in place (forwarded User-Agent,
  Referer and Cookie headers, the `timeout` query parameter, `post_body`
  turning it into a text/html POST), the classification keyed on `errorCode`
  (with the `fail!` panics the source raises on malformed error objects),
  the error codes 401/404/429/500 and the error texts.

Files: `wrappers.dfy` (Option, Result), `text.dfy` (decimal rendering and
parsing, first-occurrence search, join/split), `json.dfy` (decoded JSON
values), `form.dfy` (parameter lists and the shape of the form serializer),
`client.dfy` (current client), `legacy.dfy` (earlier client and its
`Diffbot` value), `agreement.dfy` (how the two classifiers relate).

A call is modelled as the request it hands to the transport together with the
classification of the decoded response; the decoded response is a parameter.
The form serializer (section 5.2 of the WHATWG URL Standard) is a
function-typed parameter of the crawl/bulk operations; `FormEncoding.Serialize`
gives its shape (`name=value` segments joined by `&`, encoding as a parameter)
only to state what the two-part body amounts to.

The model follows the code where it is looser than the service's error format
suggests: the current client treats an object as an error whenever it has an `error`
key, whatever that key's value (a non-string message becomes ""); the code
defaults to 0 not only when `errorCode` is absent or not numeric but also when
it is fractional or wider than 64 bits, and otherwise keeps only its low 32
bits; the version is any `u8`, not only 1 to 3. The model also gives 0 for a
negative integer code; that case depends on the JSON library's `as_u64` and is
an assumption of the model (see `DiffbotClient.AsU64` below).

## Model

| member | source | states |
|---|---|---|
| `DiffbotClient.ApiFromApiName` | src/lib.rs:67-77 | `ApiName` (`get_str`): each built-in API maps to its own fixed name and is recovered from it; a custom API's name is passed through verbatim, so a custom API named like a built-in one is indistinguishable from it |
| `DiffbotClient.ApiNameOfApiFromName` | src/lib.rs:67-77 | every path segment is the name of the API read from it (built-in when the name is built-in, else custom) |
| `DiffbotClient.ApiFromName` | src/lib.rs:49-64 | the inverse of the catalogue: a custom API exactly when the name is not one of the six built-in names |
| `DiffbotClient.ApiUrlStringParses` | src/lib.rs:88-90 | the endpoint URL `ApiUrlString` is `https://api.diffbot.com/v` + decimal version + `/` + API name: the version and the name are read back from it exactly |
| `DiffbotClient.ApiUrlStringInjective` | src/lib.rs:88-90 | distinct (API name, version) pairs give distinct endpoint URLs |
| `DiffbotClient.DescriptionOfFailure` | src/lib.rs:129-136 | `Description` of every failed classification: the server's `error` string (the code is not part of the text), "" when `error` is not a string, "invalid JSON" for an undecodable or non-object body |
| `DiffbotClient.ErrorCode` | src/lib.rs:367-371 | a present non-negative integer `errorCode` below 2^64 gives its low 32 bits; every other shape (absent, string, float, negative, wider) gives 0 |
| `DiffbotClient.ProcessResponse` | src/lib.rs:358-375 | JSON error exactly when the body did not decode or is not an object; success exactly for an object without `error`, and then the object unchanged |
| `DiffbotClient.ErrorObjectClassified` | src/lib.rs:366-372 | an object with `error` = msg and integer `errorCode` = code < 2^32 gives `Api(code, msg)` whatever other keys it has, and its description is msg |
| `DiffbotClient.ErrorCodeTruncated` | src/lib.rs:367-371 | a 64-bit code is truncated to its low 32 bits |
| `DiffbotClient.ErrorKeyGivesApiError` | src/lib.rs:366-372 | any object with `error` is an API error (no partial data), whatever its other keys: code = low 32 bits of a non-negative 64-bit integer `errorCode`, else 0; message "" when `error` is not a string, else the string |
| `DiffbotClient.UrlParamsValues` | src/lib.rs:400-405 | the query `UrlParams` lists token then target URL, then exactly the options in caller order; for every key its values are the fixed one(s) followed by all the options' values, duplicates kept |
| `DiffbotClient.SearchParamsValues` | src/lib.rs:380-386 | the same law for `SearchParams`: token, col, query and the search options |
| `DiffbotClient.JobListsRecoverable` | src/lib.rs:446-453 | the `urls` field of `BulkFields` and the `seeds` field of `CrawlFields` is the list joined with spaces, from which the list is recovered when the list is non-empty and no element holds a space |
| `DiffbotClient.EmptyJobListCollides` | src/lib.rs:446 | an empty list and a list of one empty URL send the same `urls=` / `seeds=` value, which splits back to the one-element list |
| `DiffbotClient.JobListEncodedJoined` | src/lib.rs:498-505 | the seeds (crawl) or urls (bulk) are space-joined first and then encoded as one value: the last fixed segment is `seeds=`/`urls=` + encode(joined list) |
| `DiffbotClient.CrawlBulkBodyIsOneForm` | src/lib.rs:254-256 | with the standard serializer the body `CrawlBulkBody` is the serialization of fixed fields followed by the options (duplicate keys both kept); with no options it ends in a trailing `&` |
| `DiffbotClient.Diffbot.PrepareUrl` | src/lib.rs:396-412 | the loop builds `[token, url] ++ options` on the API's endpoint URL for the stored version |
| `DiffbotClient.Diffbot.PrepareSearchUrl` | src/lib.rs:377-393 | the loop builds `[token, col, query] ++ options` on the `search` endpoint URL |
| `DiffbotClient.Diffbot.CallWithOptions` | src/lib.rs:232-239 | sends a GET with the prepared URL and no body; the result is the classification of the response |
| `DiffbotClient.Diffbot.Call` | src/lib.rs:207-209 | the same with no options: the query is exactly token and url |
| `DiffbotClient.Diffbot.PostBodyWithOptions` | src/lib.rs:304-319 | sends a POST with the prepared URL, content type text/html and the given bytes unchanged as body |
| `DiffbotClient.Diffbot.PostBody` | src/lib.rs:293-296 | the same with no options |
| `DiffbotClient.Diffbot.SearchWithOptions` | src/lib.rs:344-351 | sends a GET to the search endpoint with the search query |
| `DiffbotClient.Diffbot.Search` | src/lib.rs:337-339 | the same with no options: token, col, query only |
| `DiffbotClient.Diffbot.ListCrawls` | src/lib.rs:242-247 | sends a GET to the crawl endpoint whose only parameter is the token |
| `DiffbotClient.Diffbot.DoCrawlBulk` | src/lib.rs:250-269 | sends a form-encoded POST to the crawl or bulk endpoint, no query, body = serialize(fixed) + `&` + serialize(options) |
| `DiffbotClient.Diffbot.BulkWithOptions` | src/lib.rs:443-455 | bulk body from `name, token, apiUrl, urls` (apiUrl the API's endpoint URL, urls space-joined) and the options |
| `DiffbotClient.Diffbot.Bulk` | src/lib.rs:417-421 | the same with no options |
| `DiffbotClient.Diffbot.GetBulk` | src/lib.rs:458-464 | bulk retrieval body from `RetrievalFields` (`token, name, format=json`) and no options |
| `DiffbotClient.Diffbot.CrawlWithOptions` | src/lib.rs:494-507 | crawl body from `name, token, apiUrl, seeds` (seeds space-joined) and the options |
| `DiffbotClient.Diffbot.Crawl` | src/lib.rs:467-472 | the same with no options |
| `DiffbotClient.Diffbot.GetCrawl` | src/lib.rs:510-517 | crawl retrieval body from `token, name, format=json` and no options |
| `Text.NatToDecimal` | src/lib.rs:89 | decimal rendering of integers: digits only, no leading zero |
| `Text.DecimalRoundTrip` | src/diffbot/lib.rs:163 | the decimal rendering of a number reads back as that number |
| `Text.SplitJoin` | src/lib.rs:446 | joining a non-empty list with a separator none of its elements holds is undone by splitting |
| `LegacyClient.ErrorTextRoundTrip` | src/diffbot/lib.rs:261-269 | `ErrorText` (`to_str`): "API error {code}: {msg}", "JSON error: {e}" and the I/O text lose nothing: the error is read back from its text |
| `LegacyClient.CastToUint` | src/diffbot/lib.rs:182 | the error code is the float truncated toward zero, 0 below zero, the largest `uint` above range |
| `LegacyClient.Classify` | src/diffbot/lib.rs:178-197 | success (object unchanged) exactly without `errorCode`; task failure exactly for a non-object, a non-number `errorCode`, or a missing or non-string `error` beside it; otherwise `ApiError(error, code)` |
| `LegacyClient.ReadOutcome` | src/diffbot/lib.rs:167-175 | `IoError` exactly when nothing was read; `JsonError` exactly for an undecodable body, carrying the decoder's text; a decoded value exactly when the outcome is a success, an `ApiError` or a task failure |
| `LegacyClient.ErrorObjectClassified` | src/diffbot/lib.rs:177-189 | an object `{"error": msg, "errorCode": code}` plus any other keys gives `ApiError(msg, code)` |
| `LegacyClient.RequestPathParses` | src/diffbot/lib.rs:312-318 | the path `RequestPath` is `/v` + decimal version + `/` + API name; both are read back exactly |
| `LegacyClient.PrepareQueryFields` | src/diffbot/lib.rs:305-309 | in the query `PrepareQuery`, token and url come first; a `fields` parameter exists exactly when fields are given, holding them comma-joined |
| `LegacyClient.FieldsRecoverable` | src/diffbot/lib.rs:307-308 | the third parameter is `fields`, from which the field list is read back when no field holds a comma |
| `LegacyClient.Request.constructor` | src/diffbot/lib.rs:321-323 | a new request has the given method and URL, no extension headers, no content type or length, nothing written |
| `LegacyClient.Request.UserAgent` | src/diffbot/lib.rs:142-145 | sets X-Forwarded-User-Agent to the value; nothing else changes |
| `LegacyClient.Request.Referer` | src/diffbot/lib.rs:149-152 | sets X-Forwarded-Referer to the value; nothing else changes |
| `LegacyClient.Request.Cookie` | src/diffbot/lib.rs:156-159 | sets X-Forwarded-Cookie to the value; nothing else changes |
| `LegacyClient.Request.Timeout` | src/diffbot/lib.rs:162-164 | appends `("timeout", decimal(ms))` after the existing query entries; nothing else changes |
| `LegacyClient.Request.Call` | src/diffbot/lib.rs:167-198 | the outcome is the classification of what was read; only an unread response gives IoError |
| `LegacyClient.Request.PostBody` | src/diffbot/lib.rs:206-216 | on a request whose headers are not written yet (no content length, hence nothing written): method POST, content type text/html, content length = body length, the body appended to the empty entity unchanged, then the call's outcome; the URL and extension headers are kept |
| `LegacyClient.PrepareRequest` | src/diffbot/lib.rs:301-324 | a fresh GET request on `http://api.diffbot.com/v<version>/<api>` with the prepared query and no headers |
| `LegacyClient.Call` | src/diffbot/lib.rs:291-294 | prepares the request and returns its call's outcome |
| `LegacyDiffbot.Diffbot.PrepareRequest` | src/diffbot/lib.rs:128-131 | delegates with the stored token and version unchanged |
| `LegacyDiffbot.Diffbot.Call` | src/diffbot/lib.rs:120-123 | delegates with the stored token and version unchanged |
| `ClientAgreement.AgreeOnSuccess` | src/lib.rs:366-374 | an object with neither `error` nor `errorCode` is returned unchanged by both clients |
| `ClientAgreement.AgreeOnApiError` | src/diffbot/lib.rs:180-188 | a string `error` with a 32-bit integer `errorCode` gives the same code and message in both clients |
| `ClientAgreement.DivergeOnMissingKey` | src/diffbot/lib.rs:180-191 | `error` alone: API error with code 0 now, success before; numeric `errorCode` alone: success now, task failure before |
| `ClientAgreement.DivergeOnNonObject` | src/diffbot/lib.rs:194-196 | a non-object is a JSON error now and a task failure before |

## Left out

- HTTP transport (`hyper::Client`, `RequestBuilder::send`, `RequestWriter` I/O, `read_response`, `write_headers`, `write`): the model records the request handed over and takes the decoded response as a parameter; transport failures of the current client (`try!(builder.send())`) are not modelled.
- JSON parsing (`Json::from_reader`, `json::from_reader`): the response is an already-decoded value or a syntax error with its text; floating-point rounding of numbers by the earlier client's decoder is not modelled.
- URL parsing and query encoding (`hyper::Url::parse`, `set_query_from_pairs`, `Url::new`, `url.to_str()`): URLs are an endpoint string (or scheme, host, path) with the list of query pairs; the target URL is taken as its string.
- `url::form_urlencoded::serialize`: a function-typed parameter; its byte-level percent-encoding is a parameter of the reference shape `FormEncoding.Serialize`.
- The `Io` and `Http` error variants of the current client, the `From` conversions, `cause` and `Display` (which writes `description`): pass-through wrappers of foreign errors.
- The constant `User-Agent: diffbot/rust` header and the content-type header of crawl/bulk requests beyond its kind (form-encoded).
- `Diffbot::new`, `v1`, `v2`, `v3`: the `Diffbot` datatype's constructor stores the token and version; the version is a `u8`.
- `DiffbotClient.AsU64`: `as_u64` is library code; the model accepts non-negative integer literals below 2^64 only (a negative integer gives code 0), while the library may instead reinterpret a negative 64-bit integer's bits.
- `LegacyClient.CastToUint`: the float-to-`uint` cast is undefined outside the range in the Rust version the earlier client targets; the model saturates (negative to 0, too large to the largest 64-bit value).
- `LegacyClient.Classify`: the text of a task failure (which embeds the offending JSON value) is replaced by a reason tag.
- `LegacyClient.Request.PostBody`: the `write_headers` guard, which fails the task when the request has already started to be sent, is a precondition (no content length declared yet) rather than a failure outcome; every request the client builds meets it, since `post_body` and `call` consume the request.
- The tests in `src/lib.rs` and `src/diffbot/test.rs`: they call the live service.
