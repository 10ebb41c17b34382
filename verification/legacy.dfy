/**
  The earlier Diffbot client (`src/diffbot/lib.rs`): `prepare_request` builds
  a GET request for `http://api.diffbot.com/v<version>/<api>` whose query
  holds the token, the target URL and, when asked for, the field list; a
  `Request` can then be adjusted in place (forwarded headers, timeout, an
  HTML body to POST) before it is sent, and the decoded response is
  classified on its `errorCode` key. Malformed error responses make the
  source fail its task (`fail!`, `expect`); the model returns that as a
  distinct `TaskFailure` outcome.
 */
module LegacyClient {
  import opened Wrappers
  import opened Text
  import opened JsonValues
  import opened FormEncoding

  /** `uint` on a 64-bit target. */
  type Uint = v: nat | v < 0x1_0000_0000_0000_0000

  const UintMax: Uint := 0xFFFF_FFFF_FFFF_FFFF

  /** Error code: unauthorized token. */
  const UnauthorizedToken: Uint := 401
  /** Error code: requested page not found. */
  const RequestedPageNotFound: Uint := 404
  /** Error code: the token exceeded its allowance or was throttled. */
  const TokenExceededOrThrottled: Uint := 429
  /** Error code: error processing the page. */
  const ErrorProcessing: Uint := 500

  const Scheme := "http"
  const Host := "api.diffbot.com"

  const ForwardedUserAgent := "X-Forwarded-User-Agent"
  const ForwardedReferer := "X-Forwarded-Referer"
  const ForwardedCookie := "X-Forwarded-Cookie"

  datatype Method = Get | Post

  datatype MediaType = MediaType(kind: string, subtype: string, params: seq<Pair>)

  const TextHtml := MediaType("text", "html", [])

  datatype Url = Url(scheme: string, host: string, path: string, query: seq<Pair>)

  // ---------------------------------------------------------------------
  // Errors

  /** Something went wrong with a call; the JSON error is carried as its text. */
  datatype Error = ApiError(msg: string, code: Uint) | JsonError(description: string) | IoError

  const ApiErrorPrefix := "API error "
  const JsonErrorPrefix := "JSON error: "
  const IoErrorText := "I/O error (already handled)"

  /** The text of an error (`Error::to_str`). */
  function ErrorText(e: Error): string {
    match e
    case ApiError(msg, code) => ApiErrorPrefix + NatToDecimal(code) + ": " + msg
    case JsonError(description) => JsonErrorPrefix + description
    case IoError => IoErrorText
  }

  /** Reads an error back from its text. */
  function ParseErrorText(s: string): Option<Error> {
    match ParseTagged(ApiErrorPrefix, ": ", s)
    case Some((code, msg)) => if code <= UintMax then Some(ApiError(msg, code)) else None
    case None =>
      if |JsonErrorPrefix| <= |s| && s[..|JsonErrorPrefix|] == JsonErrorPrefix then
        Some(JsonError(s[|JsonErrorPrefix|..]))
      else if s == IoErrorText then Some(IoError)
      else None
  }

  /** No information is lost in an error's text: the error can be read back from it. */
  lemma ErrorTextRoundTrip(e: Error)
    ensures ParseErrorText(ErrorText(e)) == Some(e)
  {
    match e
    case ApiError(msg, code) =>
      ParseTaggedRoundTrip(ApiErrorPrefix, ": ", code, msg);
    case JsonError(description) =>
      var s := JsonErrorPrefix + description;
      assert s[..|ApiErrorPrefix|][0] == 'J' != ApiErrorPrefix[0];
      assert ParseTagged(ApiErrorPrefix, ": ", s) == None;
      assert s[..|JsonErrorPrefix|] == JsonErrorPrefix;
      assert s[|JsonErrorPrefix|..] == description;
    case IoError =>
      var s := IoErrorText;
      assert s[..|ApiErrorPrefix|][0] == 'I' != ApiErrorPrefix[0];
      assert ParseTagged(ApiErrorPrefix, ": ", s) == None;
      assert s[..|JsonErrorPrefix|][0] == 'I' != JsonErrorPrefix[0];
  }

  // ---------------------------------------------------------------------
  // Response classification

  /** Why the source fails its task on a response. */
  datatype FailReason = NotAnObject | ErrorCodeNotNumber | ErrorMissing | ErrorNotString

  /** What a call ends with: a returned result, or a failed task. */
  datatype Outcome = Returned(result: Result<JsonObject, Error>) | TaskFailure(reason: FailReason)

  /** `num as uint` on a 64-bit float: truncation toward zero, saturating at both ends. */
  function CastToUint(v: real): (r: Uint)
    ensures 0.0 <= v < 0x1_0000_0000_0000_0000 as real ==> r as real <= v < r as real + 1.0
    ensures v < 0.0 ==> r == 0
    ensures v >= 0x1_0000_0000_0000_0000 as real ==> r == UintMax
  {
    if v < 0.0 then 0 else if v >= 0x1_0000_0000_0000_0000 as real then UintMax else v.Floor
  }

  /** The classification of a decoded response on its `errorCode` key (`Request::call`). */
  function Classify(json: Json): (r: Outcome)
    ensures r.Returned? && r.result.Ok? <==> json.Object? && "errorCode" !in json.fields
    ensures r.Returned? && r.result.Ok? ==> r.result.value == json.fields
    ensures r.TaskFailure? <==>
      || !json.Object?
      || ("errorCode" in json.fields &&
          (!json.fields["errorCode"].Number? || "error" !in json.fields || !json.fields["error"].String?))
    ensures r.Returned? && r.result.Err? ==>
      && r.result.error.ApiError?
      && r.result.error.msg == json.fields["error"].s
      && r.result.error.code == CastToUint(NumValue(json.fields["errorCode"].n))
  {
    match json
    case Object(o) =>
      if "errorCode" !in o then Returned(Ok(o))
      else
        (match o["errorCode"]
         case Number(num) =>
           var code := CastToUint(NumValue(num));
           if "error" !in o then TaskFailure(ErrorMissing)
           else
             (match o["error"]
              case String(msg) => Returned(Err(ApiError(msg, code)))
              case _ => TaskFailure(ErrorNotString))
         case _ => TaskFailure(ErrorCodeNotNumber))
    case _ => TaskFailure(NotAnObject)
  }

  /** The outcome of a call given what was read: nothing, undecodable text, or a JSON value. */
  function ReadOutcome(response: Option<Decoded>): (r: Outcome)
    ensures r == Returned(Err(IoError)) <==> response.None?
    ensures (r.Returned? && r.result.Err? && r.result.error.JsonError?) <==> response.Some? && response.value.SyntaxError?
    ensures r.Returned? && r.result.Err? && r.result.error.JsonError? ==> r.result.error.description == response.value.description
    ensures (r.TaskFailure? || r.result.Ok? || r.result.error.ApiError?) <==> response.Some? && response.value.Parsed?
  {
    match response
    case None => Returned(Err(IoError))
    case Some(SyntaxError(description)) => Returned(Err(JsonError(description)))
    case Some(Parsed(json)) => Classify(json)
  }

  /** An error object is classified as exactly the API error it reports, whatever else it carries. */
  lemma ErrorObjectClassified(code: Uint, msg: string, extra: JsonObject)
    ensures Classify(Object(extra + ErrorObject(code, msg))) == Returned(Err(ApiError(msg, code)))
  {
    var o := extra + ErrorObject(code, msg);
    assert o["errorCode"] == Number(Int(code));
    assert o["error"] == String(msg);
    assert NumValue(Int(code)) == code as real;
    assert (code as real).Floor == code;
  }

  // ---------------------------------------------------------------------
  // Request construction

  /** `/v<version>/<api>`. */
  function RequestPath(version: nat, api: string): string {
    "/v" + NatToDecimal(version) + "/" + api
  }

  /** The version and the API name can be read back from a request path. */
  lemma RequestPathParses(version: nat, api: string)
    ensures ParseTagged("/v", "/", RequestPath(version, api)) == Some((version, api))
  {
    ParseTaggedRoundTrip("/v", "/", version, api);
  }

  /** The query of a prepared request: token, target URL, then the comma-joined fields if any. */
  function PrepareQuery(token: string, url: string, fields: seq<string>): seq<Pair> {
    [("token", token), ("url", url)] + (if |fields| > 0 then [("fields", Join(',', fields))] else [])
  }

  /**
    The token and the URL are always the first two parameters, and a
    `fields` parameter is present exactly when fields were asked for,
    holding them joined with commas.
   */
  lemma PrepareQueryFields(token: string, url: string, fields: seq<string>)
    ensures PrepareQuery(token, url, fields)[..2] == [("token", token), ("url", url)]
    ensures ValuesOf(PrepareQuery(token, url, fields), "fields") == if |fields| > 0 then [Join(',', fields)] else []
  {
    var t, u := ("token", token), ("url", url);
    var tail: seq<Pair> := if |fields| > 0 then [("fields", Join(',', fields))] else [];
    assert PrepareQuery(token, url, fields) == [t] + ([u] + tail);
    ValuesOfCons(t, [u] + tail, "fields");
    ValuesOfCons(u, tail, "fields");
    if |fields| > 0 {
      ValuesOfCons(("fields", Join(',', fields)), [], "fields");
      assert [("fields", Join(',', fields))] + [] == tail;
    }
  }

  /** The requested fields can be read back from the `fields` parameter when none contains a comma. */
  lemma FieldsRecoverable(token: string, url: string, fields: seq<string>)
    requires |fields| > 0
    requires forall i :: 0 <= i < |fields| ==> ',' !in fields[i]
    ensures PrepareQuery(token, url, fields)[2] == ("fields", Join(',', fields))
    ensures Split(',', PrepareQuery(token, url, fields)[2].1) == fields
  {
    SplitJoin(',', fields);
  }

  /** An in-progress call (`Request`, over the HTTP library's request writer). */
  class Request {
    var httpMethod: Method
    var url: Url
    /** The extension headers, by name. */
    var extensions: map<string, string>
    var contentType: Option<MediaType>
    var contentLength: Option<nat>
    /** The entity bytes written after the headers. */
    var entity: seq<Byte>

    /** A declared content length is the length of the entity; without one nothing is written. */
    ghost predicate Valid()
      reads this
    {
      match contentLength
      case Some(n) => n == |entity|
      case None => entity == []
    }

    /** A fresh request writer for method `m` and `url`, with no headers set. */
    constructor (m: Method, url: Url)
      ensures Valid()
      ensures this.httpMethod == m && this.url == url
      ensures extensions == map[] && contentType == None && contentLength == None && entity == []
    {
      this.httpMethod := m;
      this.url := url;
      extensions := map[];
      contentType := None;
      contentLength := None;
      entity := [];
    }

    /** Sets the User-Agent header Diffbot forwards (`user_agent`). */
    method UserAgent(userAgent: string)
      requires Valid()
      modifies this`extensions
      ensures Valid()
      ensures extensions == old(extensions)[ForwardedUserAgent := userAgent]
    {
      extensions := extensions[ForwardedUserAgent := userAgent];
    }

    /** Sets the Referer header Diffbot forwards (`referer`). */
    method Referer(referer: string)
      requires Valid()
      modifies this`extensions
      ensures Valid()
      ensures extensions == old(extensions)[ForwardedReferer := referer]
    {
      extensions := extensions[ForwardedReferer := referer];
    }

    /** Sets the Cookie header Diffbot forwards (`cookie`). */
    method Cookie(cookie: string)
      requires Valid()
      modifies this`extensions
      ensures Valid()
      ensures extensions == old(extensions)[ForwardedCookie := cookie]
    {
      extensions := extensions[ForwardedCookie := cookie];
    }

    /** Sets Diffbot's timeout in milliseconds by appending it to the query (`timeout`). */
    method Timeout(milliseconds: Uint)
      requires Valid()
      modifies this`url
      ensures Valid()
      ensures url == old(url).(query := old(url).query + [("timeout", NatToDecimal(milliseconds))])
    {
      url := url.(query := url.query + [("timeout", NatToDecimal(milliseconds))]);
    }

    /** Classifies what the transport read back for this request (`Request::call`). */
    method Call(response: Option<Decoded>) returns (r: Outcome)
      ensures r == ReadOutcome(response)
      ensures r.Returned? ==> response.None? || r.result.Ok? || !r.result.error.IoError?
    {
      r := ReadOutcome(response);
    }

    /**
      Turns the request into a POST carrying `body` as text/html, then calls
      it (`post_body`). The headers must not have been written yet, so no
      content length is declared and, by `Valid`, nothing has been written.
     */
    method PostBody(body: seq<Byte>, response: Option<Decoded>) returns (r: Outcome)
      requires Valid() && contentLength.None?
      modifies this`httpMethod, this`contentType, this`contentLength, this`entity
      ensures Valid()
      ensures httpMethod == Post && contentType == Some(TextHtml)
      ensures contentLength == Some(|body|) && entity == old(entity) + body
      ensures entity == body
      ensures r == ReadOutcome(response)
    {
      httpMethod := Post;
      contentType := Some(TextHtml);
      contentLength := Some(|body|);
      entity := entity + body;
      r := Call(response);
    }
  }

  /** Prepares, but does not send, a GET request (`prepare_request`). */
  method PrepareRequest(url: string, token: string, api: string, fields: seq<string>, version: nat)
    returns (r: Request)
    ensures fresh(r) && r.Valid()
    ensures r.httpMethod == Get
    ensures r.url == Url(Scheme, Host, RequestPath(version, api), PrepareQuery(token, url, fields))
    ensures r.extensions == map[] && r.contentType == None && r.contentLength == None
  {
    var query := [("token", token), ("url", url)];
    if |fields| > 0 {
      query := query + [("fields", Join(',', fields))];
    }
    var u := Url(Scheme, Host, "/v" + NatToDecimal(version) + "/" + api, query);
    r := new Request(Get, u);
  }

  /** Prepares a request and calls it (`call`). */
  method Call(url: string, token: string, api: string, fields: seq<string>, version: nat, response: Option<Decoded>)
    returns (sent: Request, r: Outcome)
    ensures fresh(sent) && sent.Valid()
    ensures sent.httpMethod == Get
    ensures sent.url == Url(Scheme, Host, RequestPath(version, api), PrepareQuery(token, url, fields))
    ensures sent.extensions == map[] && sent.contentType == None && sent.contentLength == None
    ensures r == ReadOutcome(response)
  {
    sent := PrepareRequest(url, token, api, fields, version);
    r := sent.Call(response);
  }
}

/** The `Diffbot` convenience value of the earlier client: a token and a version to reuse. */
module LegacyDiffbot {
  import opened Wrappers
  import opened JsonValues
  import LegacyClient

  datatype Diffbot = Diffbot(token: string, version: nat) {

    /** `prepare_request` with the stored token and version. */
    method PrepareRequest(url: string, api: string, fields: seq<string>) returns (r: LegacyClient.Request)
      ensures fresh(r) && r.Valid()
      ensures r.httpMethod == LegacyClient.Get
      ensures r.url == LegacyClient.Url(LegacyClient.Scheme, LegacyClient.Host, LegacyClient.RequestPath(version, api),
                                        LegacyClient.PrepareQuery(token, url, fields))
      ensures r.extensions == map[] && r.contentType == None && r.contentLength == None
    {
      r := LegacyClient.PrepareRequest(url, token, api, fields, version);
    }

    /** `call` with the stored token and version. */
    method Call(url: string, api: string, fields: seq<string>, response: Option<Decoded>)
      returns (sent: LegacyClient.Request, r: LegacyClient.Outcome)
      ensures fresh(sent) && sent.Valid()
      ensures sent.httpMethod == LegacyClient.Get
      ensures sent.url == LegacyClient.Url(LegacyClient.Scheme, LegacyClient.Host, LegacyClient.RequestPath(version, api),
                                           LegacyClient.PrepareQuery(token, url, fields))
      ensures r == LegacyClient.ReadOutcome(response)
    {
      sent, r := LegacyClient.Call(url, token, api, fields, version, response);
    }
  }
}
