# cf-openai-azure-proxy, modelled in Dafny

The proxy answers OpenAI-style HTTP requests by calling an Azure OpenAI
resource. One handler, `handleRequest` in `index.js`, looks at the method and
the URL. It answers CORS preflights, the health check, the model list and
unknown paths itself. For `/v1/chat/completions` and `/v1/completions` it reads
the JSON body, maps the public model name to a private deployment name via the
`mapper` table, turns the `authorization` header into an `api-key`, calls
upstream once, and relays the upstream response with
`access-control-allow-origin: *`.

This project models that decision logic and proves what it does, including
three consequences of the code as written:

- The body reader never yields a parsed body. A non-empty buffer is rejected
  with no reason at line 27. `JSON.parse` still runs afterwards, but the
  promise has already settled, so its result or its error is ignored. An empty
  buffer makes `JSON.parse("")` throw. So every POST to a proxy path ends in
  status 400.
- A proxy request that is not a POST has no body, so it has no model, and it
  gets 403 `Missing model mapper`.
- A URL starting with `//` makes the code assign to the `const url`. That
  throws a `TypeError`, which the `catch` turns into status 400.

Together these mean no request is ever forwarded upstream
(`RouterProperties.NeverForwards`). The forwarding path is modelled and
specified anyway, for any body-reader outcome (`Router.Decide` takes that
outcome as a parameter).

Modules, one per part of `index.js`:

- `Config` (`config.dfy`): the constants and the `mapper` lookup
  (`mapper[modelName] || ""`).
- `BodyParser` (`body_parser.dfy`): `bindBodyParser`. `ReadBody` is its
  chunk-appending loop. `EndHandler` is the `end` handler's three settling
  steps, where only the first one counts; `JSON.parse`'s result is a
  parameter. `Settle` is what the handler settles on, whatever that result is.
- `Headers` (`headers.dfy`): the relayed response's headers object. Its class
  `HeaderSet` is updated in place by the assignment at line 119.
- `ModelList` (`model_list.dfy`): the `handleModels` loop, its entries and the
  function that specifies them.
- `Outbound` (`outbound.dfy`): the upstream URL template, the `api-key`
  rewrite and the outbound headers.
- `Router` (`router.dfy`): the result objects and `Decide`, which gives either
  `Respond(response)` or `Forward(url, headers, method)`. `AfterBody` is the step
  after the body, parameterised over an optional model name. `Handle` and the
  method `HandleRequest` are the whole handler, with the upstream result passed
  in as a value.
- `RouterProperties` (`router_properties.dfy`): the properties of the handler.
- `Strings` (`strings.dfy`): JavaScript `startsWith`, `indexOf`, and `replace`
  with a string pattern. The replacement is inserted literally. That is exact
  only when the replacement has no `$` (JavaScript expands `$&`, `$$`, ...),
  so only such replacements are admitted. Line 91 replaces with `""`.

Consequences of the code as written that a reader may not expect:

- The root greeting is `"Proxy Azure OpenAi Successful "`, with a trailing
  space.
- The model check runs before the authorization check. An unmapped model with
  no header gets `Missing model mapper`.
- A POST to `/v1/chat/completions` with no body gets 400 from
  `JSON.parse("")` (`RouterProperties.NoBodyPostExample`).
- `/v1/models` gives the model list for every method except OPTIONS, because
  the OPTIONS test comes first.

## Model

| member | source | states |
|---|---|---|
| `Strings.StartsWith` | index.js:46 | `s` starts with `prefix` exactly when it is `prefix` followed by the rest of `s` |
| `Strings.IndexOf` | index.js:91 | the first position where the pattern occurs; `None` only when it occurs nowhere |
| `Strings.IndexFrom` | index.js:91 | the result is the first position at or after `from` where the pattern occurs; `None` only when it occurs nowhere from there |
| `Strings.ReplaceFirst` | index.js:91 | for a replacement without `$`, a string with no occurrence of the pattern is returned unchanged |
| `Strings.ReplaceFirstAt` | index.js:91 | when the first occurrence is at `i`, only that copy is replaced: `s[..i] + rep + s[i+|pat|..]` |
| `Strings.ReplaceFirstOfPrefixed` | index.js:91 | a string that starts with the pattern loses exactly that leading copy |
| `Config.Find` | index.js:73 | the property lookup gives `None` exactly when the name is not a key, and otherwise a value stored under that name |
| `Config.FindEntry` | index.js:11-14 | with distinct keys, every entry of the table is found under its own key |
| `Config.DeployName` | index.js:73 | a non-empty deployment name comes from a key of `mapper` |
| `Config.ConfiguredModels` | index.js:11-14 | only `"gpt-3.5-turbo"` has a deployment (`"jet-001"`); `"gpt-4"` maps to `""`; an undefined or unknown model gets `""` |
| `BodyParser.SettleOnce` | index.js:27-32 | a call of `resolve` or `reject` settles a pending promise with its outcome and leaves a settled one as it was |
| `BodyParser.Concat` | index.js:20-23 | every chunk fits in the accumulated buffer |
| `BodyParser.EndHandler` | index.js:24-34 | the `end` handler's steps in order (reject when the buffer is non-empty, resolve with the parse result, reject in the `catch`) always leave the promise settled |
| `BodyParser.Settle` | index.js:24-33 | the net outcome is always a rejection: with no reason exactly when the buffer is non-empty, otherwise with the `JSON.parse("")` error |
| `BodyParser.EndHandlerSettles` | index.js:24-34 | whatever `JSON.parse` gives for a non-empty buffer, the handler's steps settle on `Settle` of the buffer |
| `BodyParser.ReadBody` | index.js:18-36 | appending every chunk and running the `end` handler gives the handler's outcome on the concatenation, equal to `Settle`; it is a rejection, and it is the parse error exactly when every chunk is empty |
| `BodyParser.ConcatEmpty` | index.js:20-23 | the buffer is empty exactly when every chunk is empty |
| `BodyParser.NeverParsed` | index.js:24-34 | whatever chunks arrive and whatever `JSON.parse` gives, the `end` handler never yields a parsed value; it rejects without a reason exactly when some chunk is non-empty |
| `Headers.Names` | index.js:119 | the names of a header list, position by position |
| `Headers.Get` | index.js:119 | reading a header gives `None` exactly when its name is absent |
| `Headers.SetHeader` | index.js:119 | the assignment keeps the length when the name is present and adds one entry otherwise |
| `Headers.GetAfterSet` | index.js:119 | after `headers[name] = value` the name reads back `value` |
| `Headers.GetOtherAfterSet` | index.js:119 | after `headers[name] = value` every other name reads as before |
| `Headers.SetKeepsOrder` | index.js:119 | an existing name keeps its position; a new name is appended at the end |
| `Headers.SetKeepsDistinct` | index.js:119 | the assignment never creates a duplicate name |
| `Headers.HeaderSet.constructor` | index.js:105 | the header set starts as the upstream response's headers |
| `Headers.HeaderSet.Set` | index.js:119 | the in-place assignment: the entries become `SetHeader` of the old ones, the name reads back the value, other names are unchanged, distinct names stay distinct |
| `ModelList.EntryFor` | index.js:140-163 | each pushed entry has `id` and `root` equal to the key and a null `parent` |
| `ModelList.Entries` | index.js:139-164 | the list has one entry per table entry |
| `ModelList.EntriesShape` | index.js:139-164 | one entry per table entry, in table order, each the entry for its key |
| `ModelList.EntriesIgnoreDeployments` | index.js:139-164 | the list depends only on the keys: a key mapped to `""` is listed like any other |
| `ModelList.BuildEntries` | index.js:139-164 | the `for...in` loop with `push` builds exactly the specified list: same length as the table, the i-th entry's `id` and `root` are the i-th key |
| `Outbound.UpstreamUrl` | index.js:78 | the URL starts with the deployments base of the resource and is exactly as long as base, deployment, `/`, path token and version query together |
| `Outbound.DeploymentsBaseLiteral` | index.js:78 | the base is `https://japan-east-01.openai.azure.com/openai/deployments/` |
| `Outbound.ChatUpstreamUrl` | index.js:78 | the chat URL of `jet-001` is `https://japan-east-01.openai.azure.com/openai/deployments/jet-001/chat/completions?api-version=2023-05-15` |
| `Outbound.CompletionsUpstreamUrl` | index.js:78 | the completions URL of `jet-001` is `https://japan-east-01.openai.azure.com/openai/deployments/jet-001/completions?api-version=2023-05-15` |
| `Outbound.UpstreamUrlParts` | index.js:78 | an upstream URL splits back into the fixed base, the deployment name, `/`, the path token and the version query |
| `Outbound.UpstreamUrlInjective` | index.js:78 | two equal upstream URLs have the same deployment and path (given equal deployment lengths or equal paths) |
| `Outbound.ApiKey` | index.js:91 | the key is 7 characters shorter than the header when `"Bearer "` occurs in it, and is the header itself when it does not |
| `Outbound.ForwardHeaders` | index.js:87-93 | the outbound headers are `Content-Type: application/json` and `api-key` with the given key, in that order |
| `Outbound.ApiKeyOfBearer` | index.js:91 | `"Bearer " + key` becomes `key` |
| `Outbound.ApiKeyWithoutBearer` | index.js:91 | a header that does not contain `"Bearer "` is passed on unchanged |
| `Outbound.ApiKeyRepeatedBearer` | index.js:91 | only the first `"Bearer "` is removed: `"Bearer Bearer x"` becomes `"Bearer x"` |
| `Outbound.ApiKeyInnerBearer` | index.js:91 | the occurrence need not be at the front: `"sk-Bearer x"` becomes `"sk-x"` |
| `Router.OptionsResponse` | index.js:170-178 | no status, no body, and exactly the headers `Access-Control-Allow-Origin`, `-Methods`, `-Headers`, each `*` |
| `Router.ModelsResponse` | index.js:133-167 | no status, `Content-Type: application/json`, and a listing with one entry per `mapper` key |
| `Router.Caught` | index.js:124-126 | a caught exception gives status 400 and no headers; the body is undefined exactly when the thrown value is |
| `Router.AfterBody` | index.js:72-93 | after the body, a direct answer is always 403 `"Missing model mapper"` or `"Not allowed"`; a forward keeps the inbound method, needs a configured deployment and an `authorization` header, and sends its rewritten value as `api-key` |
| `Router.Decide` | index.js:40-93 | a forward happens only for a POST to a proxy path whose body parsed; a direct answer has status 200, 400, 403, 404 or none, and none only for OPTIONS and `/v1/models` |
| `Router.RelayOf` | index.js:99-123 | a completed upstream response keeps its status and body and reads `access-control-allow-origin: *`; a transport error gives 400 |
| `Router.Handle` | index.js:38-127 | a forwarded request with a completed upstream call returns the upstream status with `access-control-allow-origin: *`; a result without a status comes only from OPTIONS or `/v1/models` |
| `Router.Relay` | index.js:99-123 | the relayed result has the upstream status and body and `access-control-allow-origin: *`; a transport error gives 400 with the error |
| `Router.HandleModels` | index.js:133-167 | the model-list result: no status, `Content-Type: application/json`, the listing built by the loop |
| `Router.HandleRequest` | index.js:38-127 | the whole handler, reading the body only for a POST to a proxy path, gives `Handle` of the request, the `end` handler's outcome and the upstream result |
| `RouterProperties.OptionsIgnoresUrl` | index.js:40-42 | OPTIONS on any URL (even one starting with `//`) gives exactly the three `Access-Control-Allow-*: *` headers, no status, no body |
| `RouterProperties.DoubleSlashIs400` | index.js:44-48 | any non-OPTIONS request whose URL starts with `//` gets 400 with the `TypeError` of the constant reassignment |
| `RouterProperties.RootIs200` | index.js:56-57 | `/` gets 200 with body `"Proxy Azure OpenAi Successful "` |
| `RouterProperties.ModelsRoute` | index.js:53-54 | `/v1/models` gets the model list for every non-OPTIONS method |
| `RouterProperties.NotFoundIff` | index.js:49-60 | the answer is 404 `"404 Not Found"` exactly when the method is not OPTIONS, the URL does not start with `//` and it is none of the four routes |
| `RouterProperties.ProxyPathWithSuffixIs404` | index.js:49-59 | matching is exact: for every method but OPTIONS, a proxy path followed by any non-empty suffix, such as a query string, gets 404 |
| `RouterProperties.PostProxyIs400` | index.js:65-68 | with the `end` handler's outcome, whatever `JSON.parse` gives, every POST to a proxy path gets 400; the body is undefined when some chunk is non-empty, the `SyntaxError` otherwise |
| `RouterProperties.NonPostProxyMissingMapper` | index.js:64-77 | a non-POST, non-OPTIONS proxy request gets 403 `"Missing model mapper"` |
| `RouterProperties.ModelCheckedFirst` | index.js:72-77 | any model other than `"gpt-3.5-turbo"` gets 403 `"Missing model mapper"` whatever the authorization header |
| `RouterProperties.AfterBodyForwardsIff` | index.js:72-93 | after the body, the request is forwarded exactly for the configured model with a non-empty `authorization`; a configured model without one gets 403 `"Not allowed"`; a forward goes to the deployment's URL with the rewritten `api-key` and the inbound method |
| `RouterProperties.ForwardShape` | index.js:49-93 | a forwarded request was a POST to a proxy path whose parsed body named `"gpt-3.5-turbo"`; it goes to `jet-001` on the path token its URL selects, with `Content-Type: application/json`, the rewritten `api-key` and its own method |
| `RouterProperties.NeverForwards` | index.js:64-77 | with the `end` handler's outcome, whatever `JSON.parse` gives, no request is forwarded, so the handler's answer never depends on the upstream |
| `RouterProperties.NoBodyPostExample` | index.js:65-68 | `POST /v1/chat/completions` with `authorization: Bearer sk-test` and no body gets 400 with the `JSON.parse` error |
| `RouterProperties.RelayKeepsUpstream` | index.js:99-123 | the relayed response keeps the upstream status, body and every other header, reads `access-control-allow-origin: *`, keeps header names distinct; a transport error gives 400 |
| `RouterProperties.ModelsListing` | index.js:133-167 | the model list has no status, `Content-Type: application/json`, `object: "list"`, and one entry per `mapper` key in table order with `id` and `root` the key, `"gpt-4"` included although its deployment is `""` |

## Left out

- The HTTP server, `server.listen` on port 8888, `https.request`, the stream `data`/`end` events and `Buffer.concat` (index.js:99-116, 180-201). These are network and stream I/O. The upstream call is the value `Router.Upstream`: either a completed response (status, headers, bytes) or a transport error.
- How the server writes a result (index.js:189-195), including how Node picks a status code when the result has none. That is runtime behaviour, not this code's.
- The outbound payload (`options.body = JSON.stringify(body)`, index.js:95-97, 112-114). No body is ever parsed, so no payload is ever sent. `Forward` carries the URL, headers and method only.
- JSON parsing itself. What `JSON.parse(buffer)` returns is a parameter (`parse`): `None` when it throws, otherwise the parsed value's `model`, turned into a property key. The only fact assumed about it is that parsing the empty string throws. For a non-empty buffer, whatever it returns or throws is ignored, because line 27 has already settled the promise.
- The pretty-printed text of `JSON.stringify(data, null, 2)` (index.js:166). The list is modelled as a value (`ModelList.Listing`).
- Error objects are modelled by their kind (`Router.JsError`), not by their messages.
- Promise timing and callbacks. Only "the first settlement wins" is kept (`BodyParser.SettleOnce`): the `reject()` at line 27 makes the later `resolve` or `reject(error)` irrelevant.
- Strings.ReplaceFirst: does not model JavaScript's `$` patterns in the replacement string (`$&`, `$$`, ...); it requires a replacement without `$`, which the one call at line 91 (replacement `""`) meets.
- `chunk.toString()` decoding. Chunks are modelled as already-decoded strings.
- `console.log`, the unused `TransformStream` and `sleep` (index.js:5, 129-131).
- Prototype-chain lookups on `mapper` (such as the key `"constructor"`). The table is exactly its two literal entries.
- Header values are single strings. Node can give arrays (for example for `set-cookie`). JavaScript's ordering of integer-like property names is ignored.
- The `authorization` header is taken as the single `request.headers.authorization` value, however Node combined any duplicates.
