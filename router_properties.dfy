/**
 What the request decision of `handleRequest` guarantees, stated over every
 request, and in particular over the outcome the real body reader produces.
 */
module RouterProperties {
  import opened Wrappers
  import opened Strings
  import opened Config
  import opened BodyParser
  import opened Headers
  import opened ModelList
  import opened Outbound
  import opened Router

  predicate IsProxyUrl(url: string) {
    url == ChatUrl || url == CompletionsUrl
  }

  /** An OPTIONS request is answered before its URL is looked at, even one starting with "//". */
  lemma OptionsIgnoresUrl(req: Request, read: BodyOutcome)
    requires req.httpMethod == "OPTIONS"
    ensures Decide(req, read) == Respond(OptionsResponse())
    ensures OptionsResponse().status.None? && OptionsResponse().body == NoBody
    ensures OptionsResponse().headers.Some? && |OptionsResponse().headers.value| == 3
    ensures Names(OptionsResponse().headers.value) ==
            ["Access-Control-Allow-Origin", "Access-Control-Allow-Methods", "Access-Control-Allow-Headers"]
    ensures forall i :: 0 <= i < 3 ==> OptionsResponse().headers.value[i].1 == "*"
  {
  }

  /** Any other request whose URL starts with "//" throws on the `const` reassignment and gets 400. */
  lemma DoubleSlashIs400(req: Request, read: BodyOutcome)
    requires req.httpMethod != "OPTIONS" && StartsWith(req.url, "//")
    ensures Decide(req, read) == Respond(Response(Some(400), None, ErrorObject(ConstantReassigned)))
  {
  }

  /** "/" answers 200 with the greeting, whose trailing space is part of the body. */
  lemma RootIs200(req: Request, read: BodyOutcome)
    requires req.httpMethod != "OPTIONS" && req.url == "/"
    ensures Decide(req, read) == Respond(Response(Some(200), None, Text("Proxy Azure OpenAi Successful ")))
  {
  }

  /** "/v1/models" lists the models for every method except OPTIONS. */
  lemma ModelsRoute(req: Request, read: BodyOutcome)
    requires req.httpMethod != "OPTIONS" && req.url == "/v1/models"
    ensures Decide(req, read) == Respond(ModelsResponse())
  {
    assert !StartsWith(req.url, "//") by { assert req.url[1] == 'v'; }
  }

  /** 404 exactly for a non-OPTIONS request whose URL is none of the four routes and does not start with "//". */
  lemma NotFoundIff(req: Request, read: BodyOutcome)
    ensures Decide(req, read) == Respond(Response(Some(404), None, Text("404 Not Found"))) <==>
            req.httpMethod != "OPTIONS" && !StartsWith(req.url, "//") &&
            req.url != ChatUrl && req.url != CompletionsUrl && req.url != ModelsUrl && req.url != RootUrl
  {
  }

  /**
   Matching is exact: a proxy path followed by anything more, such as a query
   string, is not found, whatever the method (other than OPTIONS).
   */
  lemma ProxyPathWithSuffixIs404(m: string, base: string, suffix: string, auth: Option<string>, read: BodyOutcome)
    requires m != "OPTIONS" && IsProxyUrl(base) && |suffix| > 0
    ensures Decide(Request(m, base + suffix, auth), read)
            == Respond(Response(Some(404), None, Text("404 Not Found")))
  {
    var u := base + suffix;
    assert u[1] == 'v';
    assert u[..|base|] == base;
    if base == CompletionsUrl {
      assert u[5] == 'o';
    }
    NotFoundIff(Request(m, u, auth), read);
  }

  /**
   Every POST to a proxy path ends in 400, whatever the body and whatever
   `JSON.parse` makes of it: the reader always rejects.
   */
  lemma {:induction false} PostProxyIs400(req: Request, chunks: seq<string>, parse: Option<Option<string>>)
    requires req.httpMethod == "POST" && IsProxyUrl(req.url)
    requires Concat(chunks) == "" ==> parse.None?
    ensures Decide(req, EndHandler(Concat(chunks), parse).outcome).Respond?
    ensures Decide(req, EndHandler(Concat(chunks), parse).outcome).response.status == Some(400)
    ensures Decide(req, EndHandler(Concat(chunks), parse).outcome).response.body ==
            if exists i :: 0 <= i < |chunks| && chunks[i] != "" then NoBody else ErrorObject(JsonSyntax)
  {
    assert !StartsWith(req.url, "//") by { assert req.url[1] == 'v'; }
    NeverParsed(chunks, parse);
  }

  /** A proxy request that is not a POST has no body, hence no model, and is refused with 403. */
  lemma NonPostProxyMissingMapper(req: Request, read: BodyOutcome)
    requires req.httpMethod != "POST" && req.httpMethod != "OPTIONS" && IsProxyUrl(req.url)
    ensures Decide(req, read) == Respond(Response(Some(403), None, Text("Missing model mapper")))
  {
    assert !StartsWith(req.url, "//") by { assert req.url[1] == 'v'; }
  }

  /** An unconfigured model is refused before the authorization header is looked at. */
  lemma ModelCheckedFirst(req: Request, path: string, model: Option<string>)
    requires model != Some("gpt-3.5-turbo")
    ensures AfterBody(req, path, model) == Respond(Response(Some(403), None, Text("Missing model mapper")))
  {
  }

  /**
   The step after the body forwards exactly for the one configured model with a
   non-empty authorization header; a configured model without one gets "Not allowed".
   */
  lemma AfterBodyForwardsIff(req: Request, path: string, model: Option<string>)
    ensures AfterBody(req, path, model).Forward? <==>
            model == Some("gpt-3.5-turbo") && req.authorization.Some? && req.authorization.value != ""
    ensures model == Some("gpt-3.5-turbo") && (req.authorization.None? || req.authorization == Some("")) ==>
            AfterBody(req, path, model) == Respond(Response(Some(403), None, Text("Not allowed")))
    ensures AfterBody(req, path, model).Forward? ==>
            AfterBody(req, path, model) ==
              Forward(UpstreamUrl("jet-001", path), ForwardHeaders(ApiKey(req.authorization.value)), req.httpMethod)
  {
  }

  /**
   When a request is forwarded it was a POST to a proxy path whose body parsed,
   and it goes to the deployment of its model, on the path its URL names, with
   its own method and the rewritten key.
   */
  lemma ForwardShape(req: Request, read: BodyOutcome)
    requires Decide(req, read).Forward?
    ensures req.httpMethod == "POST" && IsProxyUrl(req.url) && read == Parsed(Some("gpt-3.5-turbo"))
    ensures req.authorization.Some? && req.authorization.value != ""
    ensures Decide(req, read) ==
            Forward(UpstreamUrl("jet-001", if req.url == ChatUrl then "chat/completions" else "completions"),
                    [("Content-Type", "application/json"), ("api-key", ApiKey(req.authorization.value))],
                    req.httpMethod)
  {
  }

  /** With the body reader the code actually has, no request is ever forwarded upstream. */
  lemma NeverForwards(req: Request, chunks: seq<string>, parse: Option<Option<string>>, u1: Upstream, u2: Upstream)
    requires Concat(chunks) == "" ==> parse.None?
    ensures Decide(req, EndHandler(Concat(chunks), parse).outcome).Respond?
    ensures Handle(req, EndHandler(Concat(chunks), parse).outcome, u1)
         == Handle(req, EndHandler(Concat(chunks), parse).outcome, u2)
  {
    NeverParsed(chunks, parse);
  }

  /**
   `POST /v1/chat/completions` with `authorization: Bearer sk-test` and no body
   gets 400 with the error `JSON.parse("")` throws.
   */
  lemma NoBodyPostExample(upstream: Upstream)
    ensures Handle(Request("POST", "/v1/chat/completions", Some("Bearer sk-test")), EndHandler(Concat([]), None).outcome, upstream)
            == Response(Some(400), None, ErrorObject(JsonSyntax))
  {
    PostProxyIs400(Request("POST", "/v1/chat/completions", Some("Bearer sk-test")), [], None);
  }

  /**
   A relayed response keeps the upstream status, body and every other header, and
   carries `access-control-allow-origin: *` whatever the upstream sent.
   */
  lemma RelayKeepsUpstream(status: int, headers: seq<Header>, body: seq<byte>, other: string)
    ensures RelayOf(Completed(status, headers, body)).status == Some(status)
    ensures RelayOf(Completed(status, headers, body)).body == Raw(body)
    ensures Get(RelayOf(Completed(status, headers, body)).headers.value, CorsOrigin) == Some("*")
    ensures other != CorsOrigin ==>
            Get(RelayOf(Completed(status, headers, body)).headers.value, other) == Get(headers, other)
    ensures DistinctNames(headers) ==> DistinctNames(RelayOf(Completed(status, headers, body)).headers.value)
    ensures RelayOf(TransportFailed) == Response(Some(400), None, ErrorObject(Transport))
  {
    GetAfterSet(headers, CorsOrigin, "*");
    if other != CorsOrigin {
      GetOtherAfterSet(headers, CorsOrigin, "*", other);
    }
    if DistinctNames(headers) {
      SetKeepsDistinct(headers, CorsOrigin, "*");
    }
  }

  /**
   The model list has one entry per key of `mapper`, in order, with `id` and
   `root` the key; "gpt-4" is listed although its deployment is "".
   */
  lemma ModelsListing()
    ensures ModelsResponse().status.None?
    ensures ModelsResponse().headers == Some([("Content-Type", "application/json")])
    ensures ModelsResponse().body.ModelsJson? && ModelsResponse().body.listing.objectType == "list"
    ensures |ModelsResponse().body.listing.data| == |Mapper| == 2
    ensures forall i :: 0 <= i < |Mapper| ==>
              ModelsResponse().body.listing.data[i].id == Mapper[i].0 &&
              ModelsResponse().body.listing.data[i].root == Mapper[i].0
    ensures ModelsResponse().body.listing.data[1].id == "gpt-4" && DeployName(Some("gpt-4")) == ""
  {
    EntriesShape(Mapper);
    ConfiguredModels(Some("gpt-4"));
  }
}
