/**
 * The request dispatcher of `http.createServer`: method and URL pick the
 * health check, the analyze handler, the static page, or a plain 404.
 */
module Router {
  import opened Wrappers
  import opened JsonModel
  import opened Http
  import opened Analyze

  /** Where a request is dispatched. */
  datatype Route = Health | AnalyzeImage | StaticPage | Unknown

  /** The dispatch decision, tried in the order the server tries it. */
  function RouteOf(verb: string, url: string): Route
  {
    if verb == "GET" && url == "/health" then Health
    else if verb == "POST" && url == "/api/analyze" then AnalyzeImage
    else if verb == "GET" && (url == "/" || url == "/index.html") then StaticPage
    else Unknown
  }

  /**
   * Each route is chosen by exactly its own method and URLs: the guards are
   * disjoint, so the order in which the server tries them does not matter,
   * and every other pair falls to the 404.
   */
  lemma RouteOfCases(verb: string, url: string)
    ensures RouteOf(verb, url) == Health <==> verb == "GET" && url == "/health"
    ensures RouteOf(verb, url) == AnalyzeImage <==> verb == "POST" && url == "/api/analyze"
    ensures RouteOf(verb, url) == StaticPage <==> verb == "GET" && (url == "/" || url == "/index.html")
    ensures RouteOf(verb, url) == Unknown <==>
      && !(verb == "GET" && url in {"/health", "/", "/index.html"})
      && !(verb == "POST" && url == "/api/analyze")
  {
  }

  /** The extension of the bundled page `public/index.html`. */
  const IndexExtension := ".html"

  /** An incoming request: method, URL and the body as received. */
  datatype Request = Request(verb: string, url: string, body: string)

  /**
   * The server's answer to `req`. `parse` stands for `JSON.parse`,
   * `upstream` for the outcome of the upstream call, `indexFile` for the
   * outcome of reading the bundled page.
   */
  function HandleRequest(cfg: Config, req: Request, parse: string -> Option<Json>, upstream: Upstream,
                         indexFile: Option<seq<bv8>>): Outcome
    requires parse("{}") == Some(JObj(map[]))
  {
    match RouteOf(req.verb, req.url)
    case Health => Outcome(SendJson(200, JObj(map["ok" := JBool(true)])), None)
    case AnalyzeImage => HandleAnalyze(cfg, req.body, parse, upstream)
    case StaticPage => Outcome(ServeFile(indexFile, IndexExtension), None)
    case Unknown => Outcome(NotFound, None)
  }

  /** `GET /health` is always `200 {ok: true}`, whatever the configuration, and calls nothing upstream. */
  lemma HealthIgnoresConfig(cfg: Config, cfg': Config, body: string, parse: string -> Option<Json>,
                            upstream: Upstream, indexFile: Option<seq<bv8>>)
    requires parse("{}") == Some(JObj(map[]))
    ensures var o := HandleRequest(cfg, Request("GET", "/health", body), parse, upstream, indexFile);
      && o == HandleRequest(cfg', Request("GET", "/health", body), parse, upstream, indexFile)
      && o.response == Reply(200, JsonContentType, JsonBody(JObj(map["ok" := JBool(true)])))
      && o.call == None
  {
  }

  /** `GET /` and `GET /index.html` serve the bundled page as HTML, or a plain 404 when it cannot be read. */
  lemma IndexPageServed(cfg: Config, req: Request, parse: string -> Option<Json>, upstream: Upstream,
                        indexFile: Option<seq<bv8>>)
    requires parse("{}") == Some(JObj(map[]))
    requires req.verb == "GET" && (req.url == "/" || req.url == "/index.html")
    ensures var o := HandleRequest(cfg, req, parse, upstream, indexFile);
      && o.call == None
      && (indexFile.None? ==> o.response == NotFound)
      && (indexFile.Some? ==> o.response == Reply(200, HtmlContentType, FileBody(indexFile.value)))
  {
    MimeForCases(IndexExtension);
  }

  /**
   * Only `POST /api/analyze` can reach the upstream service; every request
   * outside the four known ones is a plain-text 404.
   */
  lemma OnlyAnalyzeCallsUpstream(cfg: Config, req: Request, parse: string -> Option<Json>, upstream: Upstream,
                                 indexFile: Option<seq<bv8>>)
    requires parse("{}") == Some(JObj(map[]))
    ensures var o := HandleRequest(cfg, req, parse, upstream, indexFile);
      o.call.Some? ==> req.verb == "POST" && req.url == "/api/analyze"
    ensures var o := HandleRequest(cfg, req, parse, upstream, indexFile);
      RouteOf(req.verb, req.url) == Unknown ==> o.response == NotFound && o.call == None
  {
  }
}
