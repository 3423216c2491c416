/**
 * Responses as the server writes them (`sendJson`, the plain-text 404) and
 * the static file server with its content-type table (`serveFile`).
 */
module Http {
  import opened Wrappers
  import opened JsonModel
  import opened Text

  const JsonContentType := "application/json; charset=utf-8"
  const PlainTextContentType := "text/plain; charset=utf-8"
  const HtmlContentType := "text/html; charset=utf-8"
  const JavaScriptContentType := "application/javascript; charset=utf-8"
  const CssContentType := "text/css; charset=utf-8"
  const OctetStreamContentType := "application/octet-stream"

  /** What a response carries: a JSON document, plain text, or the bytes of a file. */
  datatype Body = JsonBody(value: Json) | TextBody(text: string) | FileBody(content: seq<bv8>)

  /**
   * The fate of a request: a complete reply, or a connection torn down
   * without any reply (the request stream was destroyed).
   */
  datatype Response =
    | Reply(status: int, contentType: string, body: Body)
    | ConnectionReset

  /** `sendJson(res, status, data)`: a JSON reply with the given status. */
  function SendJson(status: int, data: Json): Response
  {
    Reply(status, JsonContentType, JsonBody(data))
  }

  /** The plain-text "Not Found" reply shared by the router and the file server. */
  const NotFound := Reply(404, PlainTextContentType, TextBody("Not Found"))

  /** The content type `serveFile` sends for a file extension, looked up after lowering it. */
  function MimeFor(ext: string): string
  {
    var e := ToLower(ext);
    if e == ".html" then HtmlContentType
    else if e == ".js" then JavaScriptContentType
    else if e == ".css" then CssContentType
    else OctetStreamContentType
  }

  /** Lowering `s` gives the lower-case `key` exactly when `s` equals `key` up to ASCII case. */
  lemma ToLowerMatches(s: string, key: string)
    requires ToLower(key) == key
    ensures ToLower(s) == key <==> EqualsIgnoringCase(s, key)
  {
    if EqualsIgnoringCase(s, key) {
      assert forall i :: 0 <= i < |key| ==> LowerChar(key[i]) == ToLower(key)[i];
      assert ToLower(s) == key;
    }
  }

  /**
   * The content type is chosen by the extension regardless of case: `.html`,
   * `.js` and `.css` in any mix of upper and lower case get their text types,
   * and every other extension gets `application/octet-stream`.
   */
  lemma MimeForCases(ext: string)
    ensures MimeFor(ext) == HtmlContentType <==> EqualsIgnoringCase(ext, ".html")
    ensures MimeFor(ext) == JavaScriptContentType <==> EqualsIgnoringCase(ext, ".js")
    ensures MimeFor(ext) == CssContentType <==> EqualsIgnoringCase(ext, ".css")
    ensures MimeFor(ext) == OctetStreamContentType <==>
      !EqualsIgnoringCase(ext, ".html") && !EqualsIgnoringCase(ext, ".js") && !EqualsIgnoringCase(ext, ".css")
  {
    ToLowerMatches(ext, ".html");
    ToLowerMatches(ext, ".js");
    ToLowerMatches(ext, ".css");
  }

  /** Two extensions that differ only in ASCII case get the same content type. */
  lemma MimeForIgnoresCase(a: string, b: string)
    requires EqualsIgnoringCase(a, b)
    ensures MimeFor(a) == MimeFor(b)
  {
    assert ToLower(a) == ToLower(b);
  }

  /**
   * `serveFile`: a failed read is a plain-text 404, whatever the reason; a
   * successful one is a 200 carrying the file's bytes under the content type
   * of its extension. `read` is the outcome of reading the file and `ext` its
   * extension.
   */
  function ServeFile(read: Option<seq<bv8>>, ext: string): Response
  {
    match read
    case None => NotFound
    case Some(content) => Reply(200, MimeFor(ext), FileBody(content))
  }
}
