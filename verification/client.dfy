/**
  The current Diffbot client (`src/lib.rs`): the endpoint catalogue, the
  endpoint URL strings, the query and form parameters each call sends, and
  the classification of the decoded JSON response into a result or an error.

  A call is modelled as the request it hands to the transport together with
  the classification of the response the transport brings back; the
  response is a parameter because the transport is not part of the model.
 */
module DiffbotClient {
  import opened Wrappers
  import opened Text
  import opened JsonValues
  import opened FormEncoding

  type U8 = v: nat | v < 0x100
  type U32 = v: nat | v < 0x1_0000_0000

  const U64Limit: nat := 0x1_0000_0000_0000_0000

  // ---------------------------------------------------------------------
  // Endpoint catalogue

  /** One of the Diffbot extraction APIs. */
  datatype Api = Analyze | Article | Product | Discussion | Image | Video | Custom(name: string)

  /** The path segment of an API (`API::get_str`). */
  function ApiName(api: Api): string {
    match api
    case Analyze => "analyze"
    case Article => "article"
    case Product => "product"
    case Discussion => "discussion"
    case Image => "image"
    case Video => "video"
    case Custom(name) => name
  }

  /** The path segments of the built-in APIs. */
  const BuiltinNames: set<string> := {"analyze", "article", "product", "discussion", "image", "video"}

  /** The API a path segment names: a built-in one when it is a built-in name, else a custom one. */
  function ApiFromName(name: string): (api: Api)
    ensures api.Custom? <==> name !in BuiltinNames
  {
    if name == "analyze" then Analyze
    else if name == "article" then Article
    else if name == "product" then Product
    else if name == "discussion" then Discussion
    else if name == "image" then Image
    else if name == "video" then Video
    else Custom(name)
  }

  /** Every path segment is produced by exactly the API that `ApiFromName` reads from it. */
  lemma ApiNameOfApiFromName(name: string)
    ensures ApiName(ApiFromName(name)) == name
  {
  }

  /**
    A built-in API is identified by its name, and so is a custom one whose
    name is not a built-in one; a custom API reusing a built-in name is
    indistinguishable on the wire from that built-in API.
   */
  lemma ApiFromApiName(api: Api)
    ensures ApiName(api) in BuiltinNames <==> !api.Custom? || api.name in BuiltinNames
    ensures !api.Custom? || api.name !in BuiltinNames ==> ApiFromName(ApiName(api)) == api
    ensures api.Custom? && api.name in BuiltinNames ==> ApiName(ApiFromName(api.name)) == api.name && !ApiFromName(api.name).Custom?
  {
  }

  // ---------------------------------------------------------------------
  // Endpoint URL strings

  const ApiUrlBase := "https://api.diffbot.com/v"

  /** `https://api.diffbot.com/v<version>/<api>` (`get_api_url_string`). */
  function ApiUrlString(api: string, version: U8): string {
    ApiUrlBase + NatToDecimal(version) + "/" + api
  }

  /** The version and the API name can be read back from an endpoint URL string. */
  lemma ApiUrlStringParses(api: string, version: U8)
    ensures ParseTagged(ApiUrlBase, "/", ApiUrlString(api, version)) == Some((version as nat, api))
  {
    ParseTaggedRoundTrip(ApiUrlBase, "/", version, api);
  }

  /** Distinct (API, version) pairs have distinct endpoint URL strings. */
  lemma ApiUrlStringInjective(a: string, v: U8, b: string, w: U8)
    requires ApiUrlString(a, v) == ApiUrlString(b, w)
    ensures a == b && v == w
  {
    ApiUrlStringParses(a, v);
    ApiUrlStringParses(b, w);
  }

  // ---------------------------------------------------------------------
  // Errors and response classification

  /** Error of a call; the transport's I/O and HTTP errors are not part of the model. */
  datatype Error = Api(code: U32, msg: string) | Json

  /** The text of an error (`Error::description`). */
  function Description(e: Error): string {
    match e
    case Api(_, msg) => msg
    case Json => "invalid JSON"
  }

  /** `Json::as_u64`: the value of a non-negative integer that fits in 64 bits. */
  function AsU64(j: Json): (r: Option<nat>)
    ensures r.Some? ==> r.value < U64Limit
  {
    if j.Number? && j.n.Int? && 0 <= j.n.i < U64Limit then Some(j.n.i) else None
  }

  /** `Json::as_string`. */
  function AsString(j: Json): Option<string> {
    if j.String? then Some(j.s) else None
  }

  /** Whether `errorCode` is present and is a non-negative integer that fits in 64 bits. */
  predicate HasU64Code(obj: JsonObject) {
    "errorCode" in obj && obj["errorCode"].Number? && obj["errorCode"].n.Int? && 0 <= obj["errorCode"].n.i < U64Limit
  }

  /** The `errorCode` of an error object, 0 when absent or not such an integer, truncated to 32 bits. */
  function ErrorCode(obj: JsonObject): (code: U32)
    ensures HasU64Code(obj) ==> code == obj["errorCode"].n.i % 0x1_0000_0000
    ensures !HasU64Code(obj) ==> code == 0
  {
    var code64 := if "errorCode" in obj && AsU64(obj["errorCode"]).Some? then AsU64(obj["errorCode"]).value else 0;
    code64 % 0x1_0000_0000
  }

  /** The `error` string of an error object, "" when it is not a string. */
  function ErrorMessage(obj: JsonObject): string
    requires "error" in obj
  {
    match AsString(obj["error"])
    case Some(s) => s
    case None => ""
  }

  /** The classification of a decoded response (`Diffbot::process_request`). */
  function ProcessResponse(response: Decoded): (r: Result<JsonObject, Error>)
    ensures r == Err(Json) <==> !(response.Parsed? && response.value.Object?)
    ensures r.Ok? <==> response.Parsed? && response.value.Object? && "error" !in response.value.fields
    ensures r.Ok? ==> r.value == response.value.fields
  {
    match response
    case SyntaxError(_) => Err(Json)
    case Parsed(value) =>
      match value
      case Object(obj) =>
        if "error" in obj then Err(Api(ErrorCode(obj), ErrorMessage(obj))) else Ok(obj)
      case _ => Err(Json)
  }

  /**
    An error object with a 32-bit code is classified as exactly that API
    error, whatever other keys it carries, and its description is the message.
   */
  lemma ErrorObjectClassified(code: U32, msg: string, extra: JsonObject)
    ensures ProcessResponse(Parsed(Object(extra + ErrorObject(code, msg)))) == Err(Api(code, msg))
    ensures Description(ProcessResponse(Parsed(Object(extra + ErrorObject(code, msg)))).error) == msg
  {
  }

  /** A code wider than 32 bits keeps only its low 32 bits. */
  lemma ErrorCodeTruncated(code: nat, msg: string)
    requires code < U64Limit
    ensures ProcessResponse(Parsed(Object(ErrorObject(code, msg)))) == Err(Api(code % 0x1_0000_0000, msg))
  {
  }

  /**
    An object with an `error` key is always an API error, never partial data:
    the code defaults to 0 without a usable `errorCode`, the message to ""
    when `error` is not a string.
   */
  lemma ErrorKeyGivesApiError(obj: JsonObject)
    requires "error" in obj
    ensures ProcessResponse(Parsed(Object(obj))).Err?
    ensures ProcessResponse(Parsed(Object(obj))).error.Api?
    ensures HasU64Code(obj) ==> ProcessResponse(Parsed(Object(obj))).error.code == obj["errorCode"].n.i % 0x1_0000_0000
    ensures !HasU64Code(obj) ==> ProcessResponse(Parsed(Object(obj))).error.code == 0
    ensures !obj["error"].String? ==> ProcessResponse(Parsed(Object(obj))).error.msg == ""
    ensures obj["error"].String? ==> ProcessResponse(Parsed(Object(obj))).error.msg == obj["error"].s
  {
  }

  /**
    The text of every failed call: the server's `error` string ("" when it
    is not a string) for an object with an `error` key, and "invalid JSON"
    for an undecodable body or one that is not an object.
   */
  lemma DescriptionOfFailure(response: Decoded)
    requires ProcessResponse(response).Err?
    ensures response.Parsed? && response.value.Object? ==> "error" in response.value.fields
    ensures response.Parsed? && response.value.Object? && response.value.fields["error"].String? ==>
      Description(ProcessResponse(response).error) == response.value.fields["error"].s
    ensures response.Parsed? && response.value.Object? && !response.value.fields["error"].String? ==>
      Description(ProcessResponse(response).error) == ""
    ensures !(response.Parsed? && response.value.Object?) ==>
      Description(ProcessResponse(response).error) == "invalid JSON"
  {
    if response.Parsed? && response.value.Object? {
      ErrorKeyGivesApiError(response.value.fields);
    }
  }

  // ---------------------------------------------------------------------
  // Requests

  datatype Method = Get | Post

  datatype ContentType = NoContentType | FormUrlEncoded | TextHtml

  datatype Body = NoBody | Form(text: string) | Html(bytes: seq<Byte>)

  /** An endpoint URL string with its query parameters. */
  datatype Url = Url(endpoint: string, query: seq<Pair>)

  /** What a call hands to the transport. */
  datatype Request = Request(httpMethod: Method, url: Url, contentType: ContentType, body: Body)

  /** Query of an extraction call: token, target URL, then the caller's options in order. */
  function UrlParams(token: string, targetUrl: string, options: seq<Pair>): seq<Pair> {
    [("token", token), ("url", targetUrl)] + options
  }

  /** Query of a search: token, collection, query, then the caller's options in order. */
  function SearchParams(token: string, col: string, query: string, options: seq<Pair>): seq<Pair> {
    [("token", token), ("col", col), ("query", query)] + options
  }

  /**
    The token and the target URL are sent once each ahead of the options;
    an option repeating a key is sent as well, after them, not instead.
   */
  lemma UrlParamsValues(token: string, targetUrl: string, options: seq<Pair>, key: string)
    ensures UrlParams(token, targetUrl, options)[2..] == options
    ensures ValuesOf(UrlParams(token, targetUrl, options), key) ==
            (if key == "token" then [token] else []) + (if key == "url" then [targetUrl] else []) + ValuesOf(options, key)
  {
    var t, u := ("token", token), ("url", targetUrl);
    var vt, vu, vo := (if key == "token" then [token] else []), (if key == "url" then [targetUrl] else []), ValuesOf(options, key);
    assert UrlParams(token, targetUrl, options) == [t] + ([u] + options);
    ValuesOfCons(t, [u] + options, key);
    ValuesOfCons(u, options, key);
    assert vt + (vu + vo) == vt + vu + vo;
  }

  /** The same law for searches, with the collection and the query. */
  lemma SearchParamsValues(token: string, col: string, query: string, options: seq<Pair>, key: string)
    ensures SearchParams(token, col, query, options)[3..] == options
    ensures ValuesOf(SearchParams(token, col, query, options), key) ==
            (if key == "token" then [token] else []) + (if key == "col" then [col] else [])
            + (if key == "query" then [query] else []) + ValuesOf(options, key)
  {
    var t, c, q := ("token", token), ("col", col), ("query", query);
    var vt, vc, vq, vo := (if key == "token" then [token] else []), (if key == "col" then [col] else []),
                          (if key == "query" then [query] else []), ValuesOf(options, key);
    assert SearchParams(token, col, query, options) == [t] + ([c] + ([q] + options));
    ValuesOfCons(t, [c] + ([q] + options), key);
    ValuesOfCons(c, [q] + options, key);
    ValuesOfCons(q, options, key);
    assert vt + (vc + (vq + vo)) == vt + vc + vq + vo;
  }

  /** Form fields that start a bulk job; the URLs travel as one space-joined value. */
  function BulkFields(name: string, token: string, apiUrl: string, urls: seq<string>): seq<Pair> {
    [("name", name), ("token", token), ("apiUrl", apiUrl), ("urls", Join(' ', urls))]
  }

  /** Form fields that start a crawl job; the seeds travel as one space-joined value. */
  function CrawlFields(name: string, token: string, apiUrl: string, seeds: seq<string>): seq<Pair> {
    [("name", name), ("token", token), ("apiUrl", apiUrl), ("seeds", Join(' ', seeds))]
  }

  /** Form fields that fetch the data of a crawl or bulk job. */
  function RetrievalFields(token: string, name: string): seq<Pair> {
    [("token", token), ("name", name), ("format", "json")]
  }

  /**
    The URLs of a bulk job and the seeds of a crawl can be recovered when the
    list is non-empty and none contains a space (see `EmptyJobListCollides`
    for the empty list).
   */
  lemma JobListsRecoverable(name: string, token: string, apiUrl: string, urls: seq<string>)
    requires |urls| >= 1
    requires forall i :: 0 <= i < |urls| ==> ' ' !in urls[i]
    ensures Split(' ', BulkFields(name, token, apiUrl, urls)[3].1) == urls
    ensures Split(' ', CrawlFields(name, token, apiUrl, urls)[3].1) == urls
  {
    SplitJoin(' ', urls);
  }

  /** An empty job list and a list of one empty URL send the same `urls` and `seeds` value. */
  lemma EmptyJobListCollides(name: string, token: string, apiUrl: string)
    ensures BulkFields(name, token, apiUrl, []) == BulkFields(name, token, apiUrl, [""])
    ensures CrawlFields(name, token, apiUrl, []) == CrawlFields(name, token, apiUrl, [""])
    ensures Split(' ', Join(' ', [])) == [""]
  {
  }

  /**
    The job list is joined first and then encoded as one value: with the
    standard serializer the last segment of the fixed fields is
    `seeds=<encoded joined seeds>` (`urls=` for a bulk job).
   */
  lemma JobListEncodedJoined(encode: string -> string, name: string, token: string, apiUrl: string, urls: seq<string>)
    ensures Segments(encode, CrawlFields(name, token, apiUrl, urls))[3] == encode("seeds") + "=" + encode(Join(' ', urls))
    ensures Segments(encode, BulkFields(name, token, apiUrl, urls))[3] == encode("urls") + "=" + encode(Join(' ', urls))
  {
    var crawl := CrawlFields(name, token, apiUrl, urls);
    var bulk := BulkFields(name, token, apiUrl, urls);
    assert crawl == crawl[..3] + [crawl[3]];
    assert bulk == bulk[..3] + [bulk[3]];
    SegmentsAppend(encode, crawl[..3], [crawl[3]]);
    SegmentsAppend(encode, bulk[..3], [bulk[3]]);
    assert [crawl[3]][1..] == [] && [bulk[3]][1..] == [];
  }

  /** A crawl or bulk form body: the fixed fields and the caller's options, serialized apart and joined by `&`. */
  function CrawlBulkBody(serialize: seq<Pair> -> string, main: seq<Pair>, extra: seq<Pair>): string {
    serialize(main) + "&" + serialize(extra)
  }

  /**
    With the standard serializer the two-part body is the serialization of
    the fields followed by the options (duplicate keys included), except
    that no options leave a trailing `&`.
   */
  lemma CrawlBulkBodyIsOneForm(encode: string -> string, main: seq<Pair>, extra: seq<Pair>)
    requires main != []
    ensures extra != [] ==>
      CrawlBulkBody(ps => Serialize(encode, ps), main, extra) == Serialize(encode, main + extra)
    ensures extra == [] ==>
      CrawlBulkBody(ps => Serialize(encode, ps), main, extra) == Serialize(encode, main) + "&"
  {
    if extra != [] {
      SerializeAppend(encode, main, extra);
    } else {
      assert Segments(encode, extra) == [];
    }
  }

  /** A client holding a token and an API version (`Diffbot`). */
  datatype Diffbot = Diffbot(token: string, version: U8) {

    /** The endpoint URL and query of an extraction call (`prepare_url`). */
    method PrepareUrl(api: Api, targetUrl: string, options: seq<Pair>) returns (url: Url)
      ensures url.endpoint == ApiUrlString(ApiName(api), version)
      ensures url.query == UrlParams(token, targetUrl, options)
    {
      var params: seq<Pair> := [];
      params := params + [("token", token)];
      params := params + [("url", targetUrl)];
      for i := 0 to |options|
        invariant params == [("token", token), ("url", targetUrl)] + options[..i]
      {
        params := params + [options[i]];
      }
      assert options[..|options|] == options;
      url := Url(ApiUrlString(ApiName(api), version), params);
    }

    /** The endpoint URL and query of a search (`prepare_search_url`). */
    method PrepareSearchUrl(col: string, query: string, options: seq<Pair>) returns (url: Url)
      ensures url.endpoint == ApiUrlString("search", version)
      ensures url.query == SearchParams(token, col, query, options)
    {
      var params: seq<Pair> := [];
      params := params + [("token", token)];
      params := params + [("col", col)];
      params := params + [("query", query)];
      for i := 0 to |options|
        invariant params == [("token", token), ("col", col), ("query", query)] + options[..i]
      {
        params := params + [options[i]];
      }
      assert options[..|options|] == options;
      url := Url(ApiUrlString("search", version), params);
    }

    /** A GET extraction call with options (`call_with_options`). */
    method CallWithOptions(api: Api, targetUrl: string, options: seq<Pair>, response: Decoded)
      returns (sent: Request, r: Result<JsonObject, Error>)
      ensures sent.httpMethod == Get && sent.contentType == NoContentType && sent.body == NoBody
      ensures sent.url == Url(ApiUrlString(ApiName(api), version), UrlParams(token, targetUrl, options))
      ensures r == ProcessResponse(response)
    {
      var url := PrepareUrl(api, targetUrl, options);
      sent := Request(Get, url, NoContentType, NoBody);
      r := ProcessResponse(response);
    }

    /** A GET extraction call without options (`call`). */
    method Call(api: Api, targetUrl: string, response: Decoded)
      returns (sent: Request, r: Result<JsonObject, Error>)
      ensures sent.httpMethod == Get && sent.contentType == NoContentType && sent.body == NoBody
      ensures sent.url == Url(ApiUrlString(ApiName(api), version), [("token", token), ("url", targetUrl)])
      ensures r == ProcessResponse(response)
    {
      sent, r := CallWithOptions(api, targetUrl, [], response);
    }

    /** A POST of a whole HTML page, sent as it is, with options (`post_body_with_options`). */
    method PostBodyWithOptions(api: Api, targetUrl: string, body: seq<Byte>, options: seq<Pair>, response: Decoded)
      returns (sent: Request, r: Result<JsonObject, Error>)
      ensures sent.httpMethod == Post && sent.contentType == TextHtml && sent.body == Html(body)
      ensures sent.url == Url(ApiUrlString(ApiName(api), version), UrlParams(token, targetUrl, options))
      ensures r == ProcessResponse(response)
    {
      var url := PrepareUrl(api, targetUrl, options);
      sent := Request(Post, url, TextHtml, Html(body));
      r := ProcessResponse(response);
    }

    /** A POST of a whole HTML page without options (`post_body`). */
    method PostBody(api: Api, targetUrl: string, body: seq<Byte>, response: Decoded)
      returns (sent: Request, r: Result<JsonObject, Error>)
      ensures sent.httpMethod == Post && sent.contentType == TextHtml && sent.body == Html(body)
      ensures sent.url == Url(ApiUrlString(ApiName(api), version), [("token", token), ("url", targetUrl)])
      ensures r == ProcessResponse(response)
    {
      sent, r := PostBodyWithOptions(api, targetUrl, body, [], response);
    }

    /** A search in a collection with options (`search_with_options`). */
    method SearchWithOptions(col: string, query: string, options: seq<Pair>, response: Decoded)
      returns (sent: Request, r: Result<JsonObject, Error>)
      ensures sent.httpMethod == Get && sent.contentType == NoContentType && sent.body == NoBody
      ensures sent.url == Url(ApiUrlString("search", version), SearchParams(token, col, query, options))
      ensures r == ProcessResponse(response)
    {
      var url := PrepareSearchUrl(col, query, options);
      sent := Request(Get, url, NoContentType, NoBody);
      r := ProcessResponse(response);
    }

    /** A search in a collection without options (`search`). */
    method Search(col: string, query: string, response: Decoded)
      returns (sent: Request, r: Result<JsonObject, Error>)
      ensures sent.httpMethod == Get && sent.contentType == NoContentType && sent.body == NoBody
      ensures sent.url == Url(ApiUrlString("search", version), [("token", token), ("col", col), ("query", query)])
      ensures r == ProcessResponse(response)
    {
      sent, r := SearchWithOptions(col, query, [], response);
    }

    /** The list of existing crawls (`list_crawls`). */
    method ListCrawls(response: Decoded) returns (sent: Request, r: Result<JsonObject, Error>)
      ensures sent == Request(Get, Url(ApiUrlString("crawl", version), [("token", token)]), NoContentType, NoBody)
      ensures r == ProcessResponse(response)
    {
      var url := Url(ApiUrlString("crawl", version), [("token", token)]);
      sent := Request(Get, url, NoContentType, NoBody);
      r := ProcessResponse(response);
    }

    /** A form POST to the crawl or bulk endpoint (`do_crawl_bulk`). */
    method DoCrawlBulk(api: string, main: seq<Pair>, extra: seq<Pair>,
                       serialize: seq<Pair> -> string, response: Decoded)
      returns (sent: Request, r: Result<JsonObject, Error>)
      ensures sent.httpMethod == Post && sent.contentType == FormUrlEncoded
      ensures sent.url == Url(ApiUrlString(api, version), [])
      ensures sent.body == Form(CrawlBulkBody(serialize, main, extra))
      ensures r == ProcessResponse(response)
    {
      var body := serialize(main);
      body := body + "&";
      body := body + serialize(extra);
      sent := Request(Post, Url(ApiUrlString(api, version), []), FormUrlEncoded, Form(body));
      r := ProcessResponse(response);
    }

    /** Starts a bulk job with options (`bulk_with_options`). */
    method BulkWithOptions(name: string, api: Api, urls: seq<string>, options: seq<Pair>,
                           serialize: seq<Pair> -> string, response: Decoded)
      returns (sent: Request, r: Result<JsonObject, Error>)
      ensures sent.httpMethod == Post && sent.contentType == FormUrlEncoded
      ensures sent.url == Url(ApiUrlString("bulk", version), [])
      ensures sent.body == Form(CrawlBulkBody(serialize,
                                BulkFields(name, token, ApiUrlString(ApiName(api), version), urls), options))
      ensures r == ProcessResponse(response)
    {
      var joined := Join(' ', urls);
      var apiUrl := ApiUrlString(ApiName(api), version);
      sent, r := DoCrawlBulk("bulk", [("name", name), ("token", token), ("apiUrl", apiUrl), ("urls", joined)],
                             options, serialize, response);
    }

    /** Starts a bulk job without options (`bulk`). */
    method Bulk(name: string, api: Api, urls: seq<string>, serialize: seq<Pair> -> string, response: Decoded)
      returns (sent: Request, r: Result<JsonObject, Error>)
      ensures sent.httpMethod == Post && sent.contentType == FormUrlEncoded
      ensures sent.url == Url(ApiUrlString("bulk", version), [])
      ensures sent.body == Form(CrawlBulkBody(serialize,
                                BulkFields(name, token, ApiUrlString(ApiName(api), version), urls), []))
      ensures r == ProcessResponse(response)
    {
      sent, r := BulkWithOptions(name, api, urls, [], serialize, response);
    }

    /** Fetches the data of a bulk job (`get_bulk`). */
    method GetBulk(name: string, serialize: seq<Pair> -> string, response: Decoded)
      returns (sent: Request, r: Result<JsonObject, Error>)
      ensures sent.httpMethod == Post && sent.contentType == FormUrlEncoded
      ensures sent.url == Url(ApiUrlString("bulk", version), [])
      ensures sent.body == Form(CrawlBulkBody(serialize, RetrievalFields(token, name), []))
      ensures r == ProcessResponse(response)
    {
      sent, r := DoCrawlBulk("bulk", [("token", token), ("name", name), ("format", "json")], [], serialize, response);
    }

    /** Starts a crawl job with options (`crawl_with_options`). */
    method CrawlWithOptions(name: string, api: Api, seeds: seq<string>, options: seq<Pair>,
                            serialize: seq<Pair> -> string, response: Decoded)
      returns (sent: Request, r: Result<JsonObject, Error>)
      ensures sent.httpMethod == Post && sent.contentType == FormUrlEncoded
      ensures sent.url == Url(ApiUrlString("crawl", version), [])
      ensures sent.body == Form(CrawlBulkBody(serialize,
                                CrawlFields(name, token, ApiUrlString(ApiName(api), version), seeds), options))
      ensures r == ProcessResponse(response)
    {
      var apiUrl := ApiUrlString(ApiName(api), version);
      var joined := Join(' ', seeds);
      sent, r := DoCrawlBulk("crawl", [("name", name), ("token", token), ("apiUrl", apiUrl), ("seeds", joined)],
                             options, serialize, response);
    }

    /** Starts a crawl job without options (`crawl`). */
    method Crawl(name: string, api: Api, seeds: seq<string>, serialize: seq<Pair> -> string, response: Decoded)
      returns (sent: Request, r: Result<JsonObject, Error>)
      ensures sent.httpMethod == Post && sent.contentType == FormUrlEncoded
      ensures sent.url == Url(ApiUrlString("crawl", version), [])
      ensures sent.body == Form(CrawlBulkBody(serialize,
                                CrawlFields(name, token, ApiUrlString(ApiName(api), version), seeds), []))
      ensures r == ProcessResponse(response)
    {
      sent, r := CrawlWithOptions(name, api, seeds, [], serialize, response);
    }

    /** Fetches the data of a crawl job (`get_crawl`). */
    method GetCrawl(name: string, serialize: seq<Pair> -> string, response: Decoded)
      returns (sent: Request, r: Result<JsonObject, Error>)
      ensures sent.httpMethod == Post && sent.contentType == FormUrlEncoded
      ensures sent.url == Url(ApiUrlString("crawl", version), [])
      ensures sent.body == Form(CrawlBulkBody(serialize, RetrievalFields(token, name), []))
      ensures r == ProcessResponse(response)
    {
      sent, r := DoCrawlBulk("crawl", [("token", token), ("name", name), ("format", "json")], [], serialize, response);
    }
  }
}
