/**
 `handleRequest` (index.js:38-127) as a decision: given the request and the
 outcome of reading its body, either a final response or one upstream call.
 The upstream call's result is a parameter (`Upstream`), since the HTTPS
 exchange itself is outside the model.
 */
module Router {
  import opened Wrappers
  import opened Strings
  import opened Config
  import opened BodyParser
  import opened Headers
  import opened ModelList
  import opened Outbound

  newtype byte = x: int | 0 <= x < 256

  /** The parts of the inbound request the handler reads. `authorization` is `request.headers.authorization`. */
  datatype Request = Request(httpMethod: string, url: string, authorization: Option<string>)

  /** Exceptions that can reach the `catch` at index.js:124. */
  datatype JsError =
    | ConstantReassigned   // TypeError from `url = ...` on the `const url` (index.js:47)
    | JsonSyntax           // SyntaxError from `JSON.parse("")` (index.js:30)
    | Transport            // `error` event of the upstream request (index.js:111)

  /** The `body` field of a result object; `NoBody` is an absent or undefined body. */
  datatype Body =
    | NoBody
    | Text(text: string)
    | ErrorObject(error: JsError)
    | ModelsJson(listing: Listing)
    | Raw(bytes: seq<byte>)

  /** A result object `{status, headers, body}`; `None` is an absent field. */
  datatype Response = Response(status: Option<int>, headers: Option<seq<Header>>, body: Body)

  /** What the handler does: answer directly, or call upstream and relay what comes back. */
  datatype Outcome =
    | Respond(response: Response)
    | Forward(url: string, headers: seq<Header>, httpMethod: string)

  /** How the upstream call ended: all of the response, or a transport error. */
  datatype Upstream =
    | Completed(status: int, headers: seq<Header>, body: seq<byte>)
    | TransportFailed

  const ChatUrl: string := "/v1/chat/completions"
  const CompletionsUrl: string := "/v1/completions"
  const ModelsUrl: string := "/v1/models"
  const RootUrl: string := "/"
  const CorsOrigin: string := "access-control-allow-origin"

  /** `handleOPTIONS`: three permissive CORS headers, no status, no body. */
  function OptionsResponse(): (r: Response)
    ensures r.status.None? && r.body == NoBody && r.headers.Some?
    ensures Names(r.headers.value) ==
            ["Access-Control-Allow-Origin", "Access-Control-Allow-Methods", "Access-Control-Allow-Headers"]
    ensures forall i :: 0 <= i < |r.headers.value| ==> r.headers.value[i].1 == "*"
  {
    Response(None, Some([("Access-Control-Allow-Origin", "*"),
                         ("Access-Control-Allow-Methods", "*"),
                         ("Access-Control-Allow-Headers", "*")]), NoBody)
  }

  /** The result of `handleModels`: the listing of `mapper` as JSON, no status. */
  function ModelsResponse(): (r: Response)
    ensures r.status.None? && r.headers == Some([("Content-Type", "application/json")])
    ensures r.body.ModelsJson? && |r.body.listing.data| == |Mapper|
  {
    Response(None, Some([("Content-Type", "application/json")]),
             ModelsJson(Listing("list", Entries(Mapper))))
  }

  /** `catch (err) { return {body: err, status: 400} }`; `None` is a thrown `undefined`. */
  function Caught(thrown: Option<JsError>): (r: Response)
    ensures r.status == Some(400) && r.headers.None?
    ensures r.body == NoBody <==> thrown.None?
  {
    Response(Some(400), None, match thrown case None => NoBody case Some(e) => ErrorObject(e))
  }

  function TextResponse(status: int, text: string): Response {
    Response(Some(status), None, Text(text))
  }

  /**
   The step after the body has been awaited (index.js:72-93): the model check,
   then the authorization check, then the outbound call. `model` is `body?.model`.
   */
  function AfterBody(req: Request, path: string, model: Option<string>): (r: Outcome)
    ensures r.Respond? ==>
              r.response.status == Some(403) && r.response.headers.None? &&
              (r.response.body == Text("Missing model mapper") || r.response.body == Text("Not allowed"))
    ensures r.Forward? ==>
              r.httpMethod == req.httpMethod && DeployName(model) != "" && req.authorization.Some? &&
              Get(r.headers, "api-key") == Some(ApiKey(req.authorization.value))
  {
    var deployName := DeployName(model);
    if deployName == "" then Respond(TextResponse(403, "Missing model mapper"))
    else if req.authorization.None? || req.authorization.value == "" then
      Respond(TextResponse(403, "Not allowed"))   // `!authKey`: absent or empty
    else Forward(UpstreamUrl(deployName, path), ForwardHeaders(ApiKey(req.authorization.value)), req.httpMethod)
  }

  /** The request decision of `handleRequest`, in the order the code tests things (index.js:40-93). */
  function Decide(req: Request, read: BodyOutcome): (r: Outcome)
    ensures r.Forward? ==>
              req.httpMethod == "POST" && (req.url == ChatUrl || req.url == CompletionsUrl) && read.Parsed?
    ensures r.Respond? ==> r.response.status in {None, Some(200), Some(400), Some(403), Some(404)}
    ensures r.Respond? && r.response.status.None? ==> req.httpMethod == "OPTIONS" || req.url == ModelsUrl
  {
    if req.httpMethod == "OPTIONS" then Respond(OptionsResponse())
    else if StartsWith(req.url, "//") then Respond(Caught(Some(ConstantReassigned)))
    else if req.url == ChatUrl || req.url == CompletionsUrl then
      var path := if req.url == ChatUrl then "chat/completions" else "completions";
      if req.httpMethod == "POST" then
        match read
        case Rejected(NoReason) => Respond(Caught(None))
        case Rejected(JsonSyntaxError) => Respond(Caught(Some(JsonSyntax)))
        case Parsed(model) => AfterBody(req, path, model)
      else AfterBody(req, path, None)
    else if req.url == ModelsUrl then Respond(ModelsResponse())
    else if req.url == RootUrl then Respond(TextResponse(200, "Proxy Azure OpenAi Successful "))
    else Respond(TextResponse(404, "404 Not Found"))
  }

  /** The relayed response (index.js:99-123): upstream status, headers and body, with the CORS origin forced to "*". */
  function RelayOf(res: Upstream): (r: Response)
    ensures res.Completed? ==> r.status == Some(res.status) && r.body == Raw(res.body) && r.headers.Some?
    ensures res.Completed? ==> Get(r.headers.value, CorsOrigin) == Some("*")
    ensures res.TransportFailed? ==> r.status == Some(400)
  {
    match res
    case TransportFailed => Caught(Some(Transport))
    case Completed(status, headers, body) =>
      GetAfterSet(headers, CorsOrigin, "*");
      Response(Some(status), Some(SetHeader(headers, CorsOrigin, "*")), Raw(body))
  }

  /** The whole of `handleRequest`, with `upstream` the result of the one outbound call when there is one. */
  function Handle(req: Request, read: BodyOutcome, upstream: Upstream): (r: Response)
    ensures Decide(req, read).Forward? && upstream.Completed? ==>
              r.status == Some(upstream.status) && r.headers.Some? && Get(r.headers.value, CorsOrigin) == Some("*")
    ensures r.status.None? ==> req.httpMethod == "OPTIONS" || req.url == ModelsUrl
  {
    match Decide(req, read)
    case Respond(r) => r
    case Forward(_, _, _) => RelayOf(upstream)
  }

  /** Lines 99-123: build the relayed result and overwrite its CORS origin header in place. */
  method Relay(res: Upstream) returns (r: Response)
    ensures r == RelayOf(res)
    ensures res.Completed? ==> r.status == Some(res.status) && r.body == Raw(res.body)
    ensures res.Completed? ==> r.headers.Some? && Get(r.headers.value, CorsOrigin) == Some("*")
    ensures res.TransportFailed? ==> r == Response(Some(400), None, ErrorObject(Transport))
  {
    if res.TransportFailed? {
      r := Caught(Some(Transport));
    } else {
      var headers := new HeaderSet(res.headers);
      headers.Set(CorsOrigin, "*");
      r := Response(Some(res.status), Some(headers.entries), Raw(res.body));
    }
  }

  /** `handleModels`: the `for...in` loop over `mapper` and the result object. */
  method HandleModels() returns (r: Response)
    ensures r == ModelsResponse()
    ensures r.status.None? && r.headers == Some([("Content-Type", "application/json")])
  {
    var data := BuildEntries(Mapper);
    r := Response(None, Some([("Content-Type", "application/json")]), ModelsJson(Listing("list", data)));
  }

  /**
   `handleRequest` end to end: the body is read only for a POST to a proxy path,
   from the chunks the request stream delivers; `parse` is what `JSON.parse`
   makes of their concatenation.
   */
  method HandleRequest(req: Request, chunks: seq<string>, parse: Option<Option<string>>, upstream: Upstream)
    returns (r: Response)
    requires Concat(chunks) == "" ==> parse.None?
    ensures r == Handle(req, EndHandler(Concat(chunks), parse).outcome, upstream)
  {
    if req.httpMethod == "OPTIONS" {
      return OptionsResponse();
    }
    if StartsWith(req.url, "//") {
      return Caught(Some(ConstantReassigned));
    }
    var path: string;
    if req.url == ChatUrl {
      path := "chat/completions";
    } else if req.url == CompletionsUrl {
      path := "completions";
    } else if req.url == ModelsUrl {
      r := HandleModels();
      return;
    } else {
      if req.url == RootUrl {
        return TextResponse(200, "Proxy Azure OpenAi Successful ");
      }
      return TextResponse(404, "404 Not Found");
    }
    var model: Option<string> := None;
    if req.httpMethod == "POST" {
      var read := ReadBody(chunks, parse);
      match read
      case Rejected(NoReason) => return Caught(None);
      case Rejected(JsonSyntaxError) => return Caught(Some(JsonSyntax));
      case Parsed(m) => model := m;
    }
    match AfterBody(req, path, model)
    case Respond(answer) => r := answer;
    case Forward(_, _, _) => r := Relay(upstream);
  }
}
