# Tooth image analyzer server, modelled in Dafny

`server.js` is a small Node.js HTTP server. It serves one HTML page and a
health check. On `POST /api/analyze` it takes a base64 `data:image/` URL from
the request body and sends it, with a fixed prompt, to an upstream multimodal
AI service. It then pulls the readable answer out of the upstream's JSON reply
and returns it as `{ result }`, or maps each kind of failure to an HTTP status.

This project models the decision logic of that server:

- `Extraction` models `extractTextFromResponse` (server.js:8-30). The
  function `Extraction.Extract` is its specification. The methods
  `ExtractTextFromResponse` and `CollectTextBlocks` are the imperative
  extractor with its nested loops (server.js:17-27), proved equal to
  `Extract`. Lemmas state the two tiers, the order of the collected texts,
  and that the result is trimmed.
- `Text` models `String.prototype.trim` as `Text.Trim` (used at server.js:13,
  14 and 29), with ECMAScript's whitespace set. It also models `join`
  (`Text.Join`, server.js:29), `startsWith` (server.js:80) and ASCII
  `toLowerCase` (server.js:49). Its lemmas say what `trim` cuts off, that
  `trim` is idempotent, and when its result is empty.
- `JsonModel` holds parsed JSON values and the JavaScript operations applied
  to them: property access (`undefined` on non-objects), truthiness and
  `typeof`.
- `Http` models responses: `Http.SendJson` is `sendJson` (server.js:32-39),
  and `Http.NotFound` is the plain-text 404. `Http.ServeFile` is `serveFile`
  (server.js:41-58). `Http.MimeFor` is its content-type table
  (server.js:49-54).
- `Analyze` models `handleAnalyze` (server.js:61-131) as the pure function
  `Analyze.HandleAnalyze`. Its inputs are the configuration, the request
  body, `JSON.parse` (passed in as a function) and the outcome of the
  upstream call. Its output is the response and the upstream request made
  along the way, if any. `Analyze.UpstreamReply` is the part after the call
  (server.js:114-126). `Analyze.UpstreamErrorMessage` is the forwarded
  message (server.js:116).
- `Router` models the `createServer` dispatch (server.js:133-148).
  `Router.RouteOf` picks the route and `Router.HandleRequest` answers the
  request.
- `Scenarios` checks the extractor and the handler on concrete reply shapes.

A non-empty body that is not valid JSON does not get 400. `JSON.parse`
throws inside the `try` at server.js:77, and the `catch` at
server.js:127-128 answers the generic 500 (`Analyze.AnalyzeMalformedBody`).
An empty body is read as `{}` and gets 400 (`Analyze.AnalyzeEmptyBody`).

## Model

| member | source | states |
|---|---|---|
| Text.TrimStartShape | server.js:14 | the leading part `trim` removes is all whitespace, and what remains does not start with whitespace |
| Text.TrimEndShape | server.js:14 | the trailing part `trim` removes is all whitespace, and what remains does not end with whitespace |
| Text.TrimStartAt | server.js:14 | the start cut falls exactly at the first non-whitespace character |
| Text.TrimEndAt | server.js:14 | the end cut falls exactly after the last non-whitespace character |
| Text.TrimIsMiddle | server.js:14 | whenever a string splits as whitespace, a part with no whitespace at either end, and whitespace, `trim` returns that part |
| Text.TrimShape | server.js:29 | the trimmed string has no whitespace at either end and is a slice of the input with only whitespace outside it |
| Text.TrimIdempotent | server.js:29 | trimming a trimmed string changes nothing |
| Text.TrimEmptyIff | server.js:13 | `s.trim()` is empty (falsy) exactly when `s` is all whitespace |
| Text.JoinSnoc | server.js:29 | `join` adds the separator and then the next part, left to right, as ECMAScript specifies |
| Extraction.ExtractTextFromResponse | server.js:8-30 | the imperative extractor returns exactly `Extract(payload)` |
| Extraction.CollectTextBlocks | server.js:17-27 | the nested loops push exactly the texts `ItemTexts(output)`, in item order and then block order |
| Extraction.ItemTextsAppend | server.js:20-27 | later items add their texts after those of earlier items |
| Extraction.BlockTextsAppend | server.js:22-26 | within an item, later blocks add their texts after those of earlier blocks |
| Extraction.ItemTextsMember | server.js:20-27 | a text is collected exactly when some block of some item is an object with `type` "output_text" and that string `text`; no other block or item contributes |
| Extraction.ExtractWithoutFields | server.js:9-17 | `null`, non-objects, arrays and objects with neither `output_text` nor `output` yield "" |
| Extraction.ExtractFlatWins | server.js:13-15 | a string `output_text` that is not all whitespace yields its trim, whatever `output` holds |
| Extraction.ExtractFallsThrough | server.js:13-29 | an object whose `output_text` is missing, not a string, or all whitespace yields the trimmed, line-feed-joined block texts |
| Extraction.ExtractTrimmed | server.js:13-29 | the extractor's result has no whitespace at either end, and trimming it again changes nothing |
| Extraction.ExtractEmptyIff | server.js:8-30 | the result is empty exactly when the payload is not an object or neither tier offers anything but whitespace |
| Http.ToLowerMatches | server.js:49 | lowering a string yields a lower-case key exactly when the string equals the key up to ASCII case |
| Http.MimeForCases | server.js:49-54 | `.html`, `.js` and `.css` in any case get their text types, and every other extension gets `application/octet-stream` |
| Http.MimeForIgnoresCase | server.js:49 | extensions that differ only in case get the same content type |
| Analyze.Utf16LengthBounds | server.js:70 | a body's JavaScript length is between its number of characters and twice that number |
| Analyze.AnalyzeWithoutKey | server.js:62-65 | without an API key the reply is the fixed 500 whatever the body and upstream would be, and nothing is sent upstream |
| Analyze.AnalyzeOversized | server.js:67-73 | with a key, the connection is torn down without a reply exactly when the body is longer than 10 Mi UTF-16 code units (`raw.length`) |
| Analyze.AnalyzeOversizedByCharacters | server.js:70 | bodies of more than 10 Mi characters are always cut off; bodies of at most 5 Mi characters never are |
| Analyze.AnalyzeEmptyBody | server.js:77-83 | an empty body is read as `{}` and gets 400, with no upstream call |
| Analyze.AnalyzeMalformedBody | server.js:76-128 | a non-empty body that `JSON.parse` rejects gets the generic 500, not 400 |
| Analyze.AnalyzeCallIsValidated | server.js:78-112 | upstream is called exactly when there is a key, the body fits and parses, and its `imageDataUrl` is a `data:image/` string; the call carries that key, the model and that URL |
| Analyze.AnalyzeInvalidImage | server.js:80-83 | a missing, non-string or non-`data:image/` `imageDataUrl` gets 400, with no upstream call |
| Analyze.AnalyzeStatuses | server.js:61-131 | every reply is 200, 400, 500 or 502, except a forwarded upstream failure, which carries the upstream's own non-2xx status |
| Analyze.AnalyzeSuccess | server.js:120-126 | 200 exactly when upstream answered 2xx with extractable text; the reply then carries that text, trimmed |
| Analyze.AnalyzeAfterCallServerError | server.js:114-129 | after the call, the reply is the generic 500 exactly when the call threw or the upstream body is not JSON |
| Analyze.AnalyzeForwardsFailure | server.js:115-118 | a parsed non-2xx upstream reply is forwarded with its status, its body as `details`, and as `error` its `error.message` whenever that is truthy, of any type, or "AI request failed." when it is missing or falsy; any status other than 200, 500 and 502 after a call is such a forward |
| Analyze.AnalyzeNoText | server.js:120-124 | after a parsed 2xx upstream reply, the reply is the 502 no-text error with the body as `details` exactly when the body offers nothing but whitespace; every 502 after a call is that or a forwarded upstream 502 |
| Analyze.UpstreamErrorMessageCases | server.js:116 | a truthy `error.message` of any type is forwarded unchanged (a non-empty string in particular); a missing or falsy one, or a missing `error` object, becomes "AI request failed."; the forwarded message is always that fallback or a truthy value |
| Router.RouteOfCases | server.js:133-148 | each route is chosen by exactly its own method and URLs; all other pairs go to 404 |
| Router.HealthIgnoresConfig | server.js:134-136 | `GET /health` is `200 {ok: true}` under every configuration and calls nothing upstream |
| Router.IndexPageServed | server.js:142-144 | `GET /` and `GET /index.html` serve the page as `text/html`, or a plain 404 when it cannot be read |
| Router.OnlyAnalyzeCallsUpstream | server.js:133-148 | only `POST /api/analyze` reaches upstream; unknown requests get the plain-text 404 |
| Scenarios.FlatTextIsTrimmed | server.js:13-15 | `{output_text: "  hello  "}` yields "hello" |
| Scenarios.EmptyFlatTextFallsThrough | server.js:13-29 | an empty `output_text` falls through to the one `output_text` block, giving "x" |
| Scenarios.OtherBlockSkipped | server.js:23-24 | a block of another kind contributes nothing; the text block after it still does |
| Scenarios.TwoItemsInOrder | server.js:20-27 | the texts of two items come out in item order |
| Scenarios.JoinedAB | server.js:29 | joining "a" and "b" gives "a\nb", which trimming keeps |
| Scenarios.BlocksJoinedInOrder | server.js:17-29 | a two-item `output` with a skipped block yields "a\nb" |
| Scenarios.NothingToExtract | server.js:9-17 | `null`, `{}` and a non-array `output` yield "" |
| Scenarios.RateLimitedIsForwarded | server.js:115-118 | an upstream 429 with `error.message` "rate limited" is forwarded as 429 with that message and the body |
| Scenarios.NumberMessageIsForwarded | server.js:115-118 | an upstream 503 whose `error.message` is the number 5 is forwarded with 5 as `error` and the body as `details` |
| Scenarios.ForwardedNoTextLookalike | server.js:115-124 | an upstream 502 carrying the message "AI returned no readable text." is forwarded as a reply identical to the server's own no-text 502 |
| Scenarios.EmptyOutputIs502 | server.js:120-124 | an upstream 200 with an empty `output` gets 502 with the body as details |
| Scenarios.NotADataUrlIs400 | server.js:80-83 | `imageDataUrl: "not-a-data-url"` gets 400, with no upstream call |

## Left out

- Socket and stream plumbing is not modelled: `req.on('data'/'end')`, `req.destroy()`, `res.writeHead`/`res.end`, and the `Content-Length` header. The handler receives the whole body as one string. A destroyed request is modelled as `ConnectionReset`.
- The body is decoded from UTF-8 one chunk at a time in the code. A multi-byte character split across chunks decodes differently; the model does not capture this.
- `JSON.parse`, `JSON.stringify` and `arkResp.json()` are library calls. Parsing is a function parameter, and a failed upstream body parse is an input. Response bodies are JSON values, so key order and serialization are not modelled.
- The outbound `fetch` is a network call. Its URL, headers, JSON body and fixed Chinese prompt are not modelled. Only its outcome is an input (threw, or status and body), and only the key, model and image it carries are an output.
- No timeout is modelled, because the code has none. A hanging upstream call never produces an outcome.
- `fs.readFile`, `path.join` and `path.extname` are filesystem and library calls. A file read is an input (bytes, or failure), and the bundled page's extension is the constant ".html".
- Environment loading (`PORT`, `ARK_MODEL`, `ARK_API_KEY`), `server.listen` and logging are process startup. The key and model are a `Config` value.
- Http.MimeFor: lower-cases ASCII letters only. No non-ASCII upper-case letter lowers into a letter of `.html`, `.js` or `.css`, so the content type chosen is the same as with full `toLowerCase`.
- JSON numbers are modelled as reals. `JSON.parse` turns an out-of-range literal such as `1e400` into ±Infinity. The model stands for it with a non-zero real, which has the same truthiness. Only its serialization differs (`JSON.stringify` writes `null`), and serialization is not modelled.
- Strings are sequences of Unicode scalar values. A JSON string with an unpaired surrogate escape such as `"\ud800"`, which `JSON.parse` accepts, has no counterpart in the model. This does not affect `trim`, `join` or `startsWith`, which never split or inspect surrogates.
- `writeHead` throwing on an invalid status code is not modelled. `fetch` only produces statuses 200–599.
