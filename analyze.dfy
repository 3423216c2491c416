/**
 * `handleAnalyze`: the status and body of the reply to `POST /api/analyze`,
 * as a function of what the handler observes — the configured API key, the
 * request body, what `JSON.parse` makes of it, and how the one upstream call
 * turned out.
 */
module Analyze {
  import opened Wrappers
  import opened JsonModel
  import opened Text
  import opened Http
  import opened Extraction

  /** The request body is abandoned once it grows past 10 MiB (counted in UTF-16 code units). */
  const MaxBodyLength := 10 * 1024 * 1024

  /** What a valid `imageDataUrl` must start with. */
  const DataImagePrefix := "data:image/"

  const MissingKeyMessage := "Server API key is not configured."
  const InvalidPayloadMessage := "Invalid image payload."
  const UpstreamFallbackMessage := "AI request failed."
  const NoTextMessage := "AI returned no readable text."
  const ServerErrorMessage := "Server error while analyzing image."

  /** The process configuration: the upstream API key (when set) and the model name. */
  datatype Config = Config(apiKey: Option<string>, model: string)

  /**
   * How the upstream call ended: it threw (network failure), or it answered
   * with a status and a body that `arkResp.json()` either parsed (`Some`) or
   * failed to parse (`None`).
   */
  datatype Upstream = Threw | Replied(status: int, data: Option<Json>)

  /** The one upstream request the handler issues: bearer key, model and the image. */
  datatype UpstreamCall = UpstreamCall(apiKey: string, model: string, imageDataUrl: string)

  /** The reply, and the upstream request made on the way (if any). */
  datatype Outcome = Outcome(response: Response, call: Option<UpstreamCall>)

  /** `!process.env.ARK_API_KEY` is false: a key is set and not empty. */
  predicate HasApiKey(cfg: Config)
  {
    cfg.apiKey.Some? && cfg.apiKey.value != ""
  }

  /** `s.length` in JavaScript: characters outside the Basic Multilingual Plane count twice. */
  function Utf16Length(s: string): nat
  {
    if s == [] then 0 else Utf16Length(s[..|s| - 1]) + (if s[|s| - 1] as int > 0xFFFF then 2 else 1)
  }

  /** A JavaScript string is never shorter than its number of characters, nor more than twice as long. */
  lemma {:induction false} Utf16LengthBounds(s: string)
    ensures |s| <= Utf16Length(s) <= 2 * |s|
  {
    if s != [] {
      Utf16LengthBounds(s[..|s| - 1]);
    }
  }

  /** The request body as `JSON.parse(raw || '{}')` sees it: an empty body is read as `{}`. */
  function BodyText(raw: string): string
  {
    if raw == "" then "{}" else raw
  }

  /** `typeof imageDataUrl === 'string' && imageDataUrl.startsWith('data:image/')`. */
  predicate IsImageDataUrl(v: Option<Json>)
  {
    v.Some? && v.value.JStr? && StartsWith(v.value.s, DataImagePrefix)
  }

  /** `2xx`: `arkResp.ok`. */
  predicate IsOk(status: int)
  {
    200 <= status <= 299
  }

  /** `{ error: message }`. */
  function ErrorDoc(message: Json): Json
  {
    JObj(map["error" := message])
  }

  /** `{ error: message, details: data }`. */
  function ErrorWithDetails(message: Json, details: Json): Json
  {
    JObj(map["error" := message, "details" := details])
  }

  /** `data?.error?.message`: the upstream's own error message, when it has one. */
  function UpstreamMessageField(data: Json): Option<Json>
  {
    match Field(data, "error")
    case Some(e) => Field(e, "message")
    case None => None
  }

  /** `data?.error?.message || 'AI request failed.'`: any truthy message is kept as it is. */
  function UpstreamErrorMessage(data: Json): Json
  {
    match UpstreamMessageField(data)
    case Some(m) => if Truthy(m) then m else JStr(UpstreamFallbackMessage)
    case None => JStr(UpstreamFallbackMessage)
  }

  /**
   * The handler. `raw` is the whole request body as received and `parse`
   * stands for `JSON.parse` (`None` when it throws); `JSON.parse('{}')` is
   * the empty object.
   */
  function HandleAnalyze(cfg: Config, raw: string, parse: string -> Option<Json>, upstream: Upstream): Outcome
    requires parse("{}") == Some(JObj(map[]))
  {
    if !HasApiKey(cfg) then
      Outcome(SendJson(500, ErrorDoc(JStr(MissingKeyMessage))), None)
    else if Utf16Length(raw) > MaxBodyLength then
      Outcome(ConnectionReset, None)
    else
      match parse(BodyText(raw))
      case None => Outcome(SendJson(500, ErrorDoc(JStr(ServerErrorMessage))), None)
      case Some(body) =>
        var imageDataUrl := Field(body, "imageDataUrl");
        if !IsImageDataUrl(imageDataUrl) then
          Outcome(SendJson(400, ErrorDoc(JStr(InvalidPayloadMessage))), None)
        else
          var call := Some(UpstreamCall(cfg.apiKey.value, cfg.model, imageDataUrl.value.s));
          Outcome(UpstreamReply(upstream), call)
  }

  /** The reply once the upstream call has been made. */
  function UpstreamReply(upstream: Upstream): Response
  {
    match upstream
    case Threw => SendJson(500, ErrorDoc(JStr(ServerErrorMessage)))
    case Replied(_, None) => SendJson(500, ErrorDoc(JStr(ServerErrorMessage)))
    case Replied(status, Some(data)) =>
      if !IsOk(status) then
        SendJson(status, ErrorWithDetails(UpstreamErrorMessage(data), data))
      else
        var result := Extract(data);
        if result == "" then SendJson(502, ErrorWithDetails(JStr(NoTextMessage), data))
        else SendJson(200, JObj(map["result" := JStr(result)]))
  }

  // ---------------------------------------------------------------------------
  // What the handler guarantees.
  // ---------------------------------------------------------------------------

  /**
   * Without an API key the reply is the fixed 500 configuration error and no
   * upstream request is made, whatever the body and the upstream would have
   * been: the key is checked before the body is read.
   */
  lemma AnalyzeWithoutKey(cfg: Config, raw: string, parse: string -> Option<Json>, upstream: Upstream,
                          raw': string, parse': string -> Option<Json>, upstream': Upstream)
    requires parse("{}") == Some(JObj(map[])) && parse'("{}") == Some(JObj(map[]))
    requires !HasApiKey(cfg)
    ensures HandleAnalyze(cfg, raw, parse, upstream) == HandleAnalyze(cfg, raw', parse', upstream')
    ensures HandleAnalyze(cfg, raw, parse, upstream).response == SendJson(500, ErrorDoc(JStr(MissingKeyMessage)))
    ensures HandleAnalyze(cfg, raw, parse, upstream).call == None
  {
  }

  /** A body longer than 10 MiB gets no reply at all, and only such a body is cut off. */
  lemma AnalyzeOversized(cfg: Config, raw: string, parse: string -> Option<Json>, upstream: Upstream)
    requires parse("{}") == Some(JObj(map[]))
    requires HasApiKey(cfg)
    ensures HandleAnalyze(cfg, raw, parse, upstream).response == ConnectionReset <==> Utf16Length(raw) > MaxBodyLength
  {
    if Utf16Length(raw) <= MaxBodyLength {
      match parse(BodyText(raw))
      case None =>
      case Some(body) =>
        if IsImageDataUrl(Field(body, "imageDataUrl")) {
          assert HandleAnalyze(cfg, raw, parse, upstream).response == UpstreamReply(upstream);
        }
    }
  }

  /**
   * Measured in characters: every body of more than 10 Mi characters is cut
   * off, and no body of at most 5 Mi characters is.
   */
  lemma AnalyzeOversizedByCharacters(cfg: Config, raw: string, parse: string -> Option<Json>, upstream: Upstream)
    requires parse("{}") == Some(JObj(map[]))
    requires HasApiKey(cfg)
    ensures |raw| > MaxBodyLength ==> HandleAnalyze(cfg, raw, parse, upstream).response == ConnectionReset
    ensures 2 * |raw| <= MaxBodyLength ==> HandleAnalyze(cfg, raw, parse, upstream).response != ConnectionReset
  {
    AnalyzeOversized(cfg, raw, parse, upstream);
    Utf16LengthBounds(raw);
  }

  /** An empty body is read as `{}`, which has no `imageDataUrl`: 400, and nothing is sent upstream. */
  lemma AnalyzeEmptyBody(cfg: Config, parse: string -> Option<Json>, upstream: Upstream)
    requires parse("{}") == Some(JObj(map[]))
    requires HasApiKey(cfg)
    ensures HandleAnalyze(cfg, "", parse, upstream) == Outcome(SendJson(400, ErrorDoc(JStr(InvalidPayloadMessage))), None)
  {
  }

  /**
   * A body that is not JSON makes `JSON.parse` throw inside the `try`, so the
   * reply is the generic 500, not a 400.
   */
  lemma AnalyzeMalformedBody(cfg: Config, raw: string, parse: string -> Option<Json>, upstream: Upstream)
    requires parse("{}") == Some(JObj(map[]))
    requires HasApiKey(cfg) && Utf16Length(raw) <= MaxBodyLength
    requires raw != "" && parse(raw) == None
    ensures HandleAnalyze(cfg, raw, parse, upstream) == Outcome(SendJson(500, ErrorDoc(JStr(ServerErrorMessage))), None)
  {
  }

  /**
   * Upstream is contacted only for a configured key and a `data:image/` URL
   * taken from the body, and the request carries exactly that key, the
   * configured model and that URL.
   */
  lemma AnalyzeCallIsValidated(cfg: Config, raw: string, parse: string -> Option<Json>, upstream: Upstream)
    requires parse("{}") == Some(JObj(map[]))
    ensures var o := HandleAnalyze(cfg, raw, parse, upstream);
      o.call.Some? <==>
        && HasApiKey(cfg) && Utf16Length(raw) <= MaxBodyLength
        && parse(BodyText(raw)).Some?
        && StringField(parse(BodyText(raw)).value, "imageDataUrl").Some?
        && StartsWith(StringField(parse(BodyText(raw)).value, "imageDataUrl").value, DataImagePrefix)
    ensures var o := HandleAnalyze(cfg, raw, parse, upstream);
      o.call.Some? ==>
        && o.call.value == UpstreamCall(cfg.apiKey.value, cfg.model, o.call.value.imageDataUrl)
        && StartsWith(o.call.value.imageDataUrl, DataImagePrefix)
        && Field(parse(BodyText(raw)).value, "imageDataUrl") == Some(JStr(o.call.value.imageDataUrl))
  {
  }

  /**
   * A rejected image payload (missing, not a string, or not a `data:image/`
   * URL) gets 400 and nothing is sent upstream.
   */
  lemma AnalyzeInvalidImage(cfg: Config, raw: string, parse: string -> Option<Json>, upstream: Upstream, body: Json)
    requires parse("{}") == Some(JObj(map[]))
    requires HasApiKey(cfg) && Utf16Length(raw) <= MaxBodyLength
    requires parse(BodyText(raw)) == Some(body)
    requires StringField(body, "imageDataUrl").None? || !StartsWith(StringField(body, "imageDataUrl").value, DataImagePrefix)
    ensures HandleAnalyze(cfg, raw, parse, upstream) == Outcome(SendJson(400, ErrorDoc(JStr(InvalidPayloadMessage))), None)
  {
  }

  /**
   * Every reply has status 200, 400, 500 or 502, except a forwarded upstream
   * failure, which carries the upstream's own non-2xx status.
   */
  lemma AnalyzeStatuses(cfg: Config, raw: string, parse: string -> Option<Json>, upstream: Upstream)
    requires parse("{}") == Some(JObj(map[]))
    ensures var r := HandleAnalyze(cfg, raw, parse, upstream).response;
      r.Reply? ==>
        || r.status in {200, 400, 500, 502}
        || (upstream.Replied? && upstream.data.Some? && !IsOk(upstream.status) && r.status == upstream.status)
  {
  }

  /**
   * 200 is returned exactly when upstream was called and answered 2xx with
   * a body from which text could be extracted; the reply then carries that
   * text, trimmed.
   */
  lemma AnalyzeSuccess(cfg: Config, raw: string, parse: string -> Option<Json>, upstream: Upstream)
    requires parse("{}") == Some(JObj(map[]))
    ensures var o := HandleAnalyze(cfg, raw, parse, upstream);
      o.response.Reply? && o.response.status == 200 <==>
        o.call.Some? && upstream.Replied? && IsOk(upstream.status) && upstream.data.Some? && Extract(upstream.data.value) != ""
    ensures var o := HandleAnalyze(cfg, raw, parse, upstream);
      o.response.Reply? && o.response.status == 200 ==>
        && o.response.body == JsonBody(JObj(map["result" := JStr(Extract(upstream.data.value))]))
        && NoEdgeWs(Extract(upstream.data.value))
  {
    var o := HandleAnalyze(cfg, raw, parse, upstream);
    if upstream.Replied? && upstream.data.Some? {
      ExtractTrimmed(upstream.data.value);
    }
  }

  /**
   * After a call, the reply is the generic 500 exactly when the call threw or
   * the upstream body was not JSON; a parsed upstream body never yields it.
   */
  lemma AnalyzeAfterCallServerError(cfg: Config, raw: string, parse: string -> Option<Json>, upstream: Upstream)
    requires parse("{}") == Some(JObj(map[]))
    requires HandleAnalyze(cfg, raw, parse, upstream).call.Some?
    ensures HandleAnalyze(cfg, raw, parse, upstream).response == SendJson(500, ErrorDoc(JStr(ServerErrorMessage)))
            <==> upstream.Threw? || upstream.data.None?
  {
    var r := HandleAnalyze(cfg, raw, parse, upstream).response;
    if upstream.Replied? && upstream.data.Some? && !IsOk(upstream.status) {
      var d := ErrorWithDetails(UpstreamErrorMessage(upstream.data.value), upstream.data.value);
      assert "details" in d.fields;
      assert "details" !in ErrorDoc(JStr(ServerErrorMessage)).fields by {
        assert "details"[0] != "error"[0];
      }
    }
  }

  /**
   * After a call, a parsed non-2xx upstream reply is forwarded with the
   * upstream's status, its whole body as `details`, and as `error` its own
   * message whenever that is truthy, whatever its type, and "AI request
   * failed." when the message is missing or falsy. Conversely,
   * any status other than 200, 500 and 502 after a call is such a forward.
   */
  lemma AnalyzeForwardsFailure(cfg: Config, raw: string, parse: string -> Option<Json>, upstream: Upstream)
    requires parse("{}") == Some(JObj(map[]))
    requires HandleAnalyze(cfg, raw, parse, upstream).call.Some?
    ensures var r := HandleAnalyze(cfg, raw, parse, upstream).response;
      upstream.Replied? && upstream.data.Some? && !IsOk(upstream.status) ==>
        var data := upstream.data.value;
        var msg := UpstreamMessageField(data);
        && r.Reply? && r.status == upstream.status && r.contentType == JsonContentType && r.body.JsonBody?
        && Field(r.body.value, "details") == Some(data)
        && (msg.Some? && Truthy(msg.value) ==> Field(r.body.value, "error") == msg)
        && (msg.None? || !Truthy(msg.value) ==> Field(r.body.value, "error") == Some(JStr(UpstreamFallbackMessage)))
    ensures var r := HandleAnalyze(cfg, raw, parse, upstream).response;
      r.Reply? && r.status !in {200, 500, 502} ==>
        upstream.Replied? && upstream.data.Some? && !IsOk(upstream.status) && r.status == upstream.status
  {
    if upstream.Replied? && upstream.data.Some? {
      UpstreamErrorMessageCases(upstream.data.value);
      assert "details" != "error" by { assert "details"[0] != "error"[0]; }
    }
  }

  /**
   * After a call that got a parsed 2xx reply, the reply is the 502 "no
   * readable text" error with the upstream body as `details` exactly when
   * the body offers no text: it is not an object, or neither its
   * `output_text` nor its joined `output` blocks hold anything but
   * whitespace. Any 502 after a call is either that or a forwarded upstream
   * 502.
   */
  lemma AnalyzeNoText(cfg: Config, raw: string, parse: string -> Option<Json>, upstream: Upstream)
    requires parse("{}") == Some(JObj(map[]))
    requires HandleAnalyze(cfg, raw, parse, upstream).call.Some?
    ensures var r := HandleAnalyze(cfg, raw, parse, upstream).response;
      upstream.Replied? && upstream.data.Some? && IsOk(upstream.status) ==>
        var data := upstream.data.value;
        (r == SendJson(502, ErrorWithDetails(JStr(NoTextMessage), data)) <==>
          || !data.JObj?
          || ((StringField(data, OutputTextKind).None? || AllWs(StringField(data, OutputTextKind).value))
              && AllWs(Join(ItemTexts(Output(data)), Newline))))
    ensures var r := HandleAnalyze(cfg, raw, parse, upstream).response;
      r.Reply? && r.status == 502 ==>
        && upstream.Replied? && upstream.data.Some?
        && (IsOk(upstream.status) ==> Extract(upstream.data.value) == "")
        && (!IsOk(upstream.status) ==> upstream.status == 502)
  {
    if upstream.Replied? && upstream.data.Some? {
      ExtractEmptyIff(upstream.data.value);
    }
  }

  /**
   * The forwarded error message is `error.message` itself whenever that is
   * truthy, whatever its type (a non-empty string, a non-zero number, an
   * object, an array, `true`), and the fallback when the body is not an
   * object, has no `error` object, or its `message` is missing, empty,
   * `null`, `false` or zero.
   */
  lemma UpstreamErrorMessageCases(data: Json)
    ensures UpstreamMessageField(data).Some? <==>
      Field(data, "error").Some? && Field(Field(data, "error").value, "message").Some?
    ensures UpstreamMessageField(data).Some? && Truthy(UpstreamMessageField(data).value)
            ==> UpstreamErrorMessage(data) == UpstreamMessageField(data).value
    ensures forall m :: m != "" && UpstreamMessageField(data) == Some(JStr(m)) ==> UpstreamErrorMessage(data) == JStr(m)
    ensures UpstreamMessageField(data).None? || !Truthy(UpstreamMessageField(data).value)
            ==> UpstreamErrorMessage(data) == JStr(UpstreamFallbackMessage)
    ensures UpstreamErrorMessage(data) == JStr(UpstreamFallbackMessage) || Truthy(UpstreamErrorMessage(data))
  {
  }
}
