/**
 * Concrete scenarios: the extractor and the analyze handler on the reply
 * shapes the server is written for.
 */
module Scenarios {
  import opened Wrappers
  import opened JsonModel
  import opened Text
  import opened Http
  import opened Extraction
  import opened Analyze

  /** `{type: "output_text", text: t}`. */
  function TextBlock(t: string): Json
  {
    JObj(map["type" := JStr("output_text"), "text" := JStr(t)])
  }

  /** `{content: blocks}`. */
  function Item(blocks: seq<Json>): Json
  {
    JObj(map["content" := JArr(blocks)])
  }

  /** A single text block contributes its text; an item contributes the texts of its blocks. */
  lemma ShapesContribute(t: string, blocks: seq<Json>)
    ensures BlockTexts([TextBlock(t)]) == [t]
    ensures ContentTexts(Item(blocks)) == BlockTexts(blocks)
  {
    var b := TextBlock(t);
    assert "type" != "text" by { assert "type"[1] != "text"[1]; }
    assert b.fields["type"] == JStr(OutputTextKind) && b.fields["text"] == JStr(t);
    assert BlockTextSeq(b) == [t];
    GatherSingle(b, BlockTextSeq);
  }

  /** A flat `output_text` is returned trimmed. */
  lemma FlatTextIsTrimmed()
    ensures Extract(JObj(map["output_text" := JStr("  hello  ")])) == "hello"
  {
    var s := "  hello  ";
    assert s[..2] == "  " && s[2..7] == "hello" && s[7..] == "  ";
    TrimIsMiddle(s, 2, 7);
    ExtractFlatWins(JObj(map["output_text" := JStr(s)]), s);
  }

  /** An empty `output_text` falls through to the blocks under `output`. */
  lemma EmptyFlatTextFallsThrough()
    ensures Extract(JObj(map["output_text" := JStr(""), "output" := JArr([Item([TextBlock("x")])])])) == "x"
  {
    var item := Item([TextBlock("x")]);
    var payload := JObj(map["output_text" := JStr(""), "output" := JArr([item])]);
    ExtractFallsThrough(payload);
    ShapesContribute("x", [TextBlock("x")]);
    GatherSingle(item, ContentTexts);
    TrimIsMiddle("x", 0, 1);
  }

  /** `{type: "other", text: "ignored"}`: a block of another kind. */
  const OtherBlock := JObj(map["type" := JStr("other"), "text" := JStr("ignored")])

  /** A block of another kind contributes nothing, and the text block after it still does. */
  lemma OtherBlockSkipped()
    ensures BlockTexts([OtherBlock, TextBlock("a")]) == ["a"]
  {
    assert BlockTexts([OtherBlock]) == [] by {
      assert "other" != OutputTextKind by { assert |"other"| != |OutputTextKind|; }
      GatherSingle(OtherBlock, BlockTextSeq);
    }
    ShapesContribute("a", []);
    BlockTextsAppend([OtherBlock], [TextBlock("a")]);
    assert [OtherBlock] + [TextBlock("a")] == [OtherBlock, TextBlock("a")];
  }

  /** The texts of two items come out in item order. */
  lemma TwoItemsInOrder()
    ensures ItemTexts([Item([OtherBlock, TextBlock("a")]), Item([TextBlock("b")])]) == ["a", "b"]
  {
    var first := Item([OtherBlock, TextBlock("a")]);
    var second := Item([TextBlock("b")]);
    OtherBlockSkipped();
    ShapesContribute("b", [OtherBlock, TextBlock("a")]);
    ShapesContribute("b", [TextBlock("b")]);
    GatherSingle(first, ContentTexts);
    GatherSingle(second, ContentTexts);
    ItemTextsAppend([first], [second]);
    assert [first] + [second] == [first, second];
  }

  /** A payload holding only `output` goes straight to the second tier. */
  lemma OutputOnly(items: seq<Json>)
    ensures Extract(JObj(map["output" := JArr(items)])) == Trim(Join(ItemTexts(items), Newline))
  {
    ExtractFallsThrough(JObj(map["output" := JArr(items)]));
  }

  /** Joining "a" and "b" puts one line feed between them, which trimming keeps. */
  lemma JoinedAB()
    ensures Trim(Join(["a", "b"], Newline)) == "a\nb"
  {
    assert ["a", "b"][1..] == ["b"];
    var s := "a\nb";
    assert s[..0] == [] && s[3..] == [] && s[0..3] == s;
    TrimIsMiddle(s, 0, 3);
  }

  /** Blocks are collected in order and blocks of another kind are skipped. */
  lemma BlocksJoinedInOrder()
    ensures Extract(JObj(map["output" := JArr([Item([OtherBlock, TextBlock("a")]), Item([TextBlock("b")])])])) == "a\nb"
  {
    OutputOnly([Item([OtherBlock, TextBlock("a")]), Item([TextBlock("b")])]);
    TwoItemsInOrder();
    JoinedAB();
  }

  /** `null`, `{}` and a non-array `output` all yield nothing. */
  lemma NothingToExtract()
    ensures Extract(JNull) == ""
    ensures Extract(JObj(map[])) == ""
    ensures Extract(JObj(map["output" := JStr("not-an-array")])) == ""
  {
  }

  /** A configuration with a key, for the handler scenarios. */
  const Configured := Config(Some("key"), "model")

  /** An upstream 429 with an error message is forwarded with that message and the body. */
  lemma RateLimitedIsForwarded(raw: string, parse: string -> Option<Json>)
    requires parse("{}") == Some(JObj(map[]))
    requires HandleAnalyze(Configured, raw, parse, Threw).call.Some?
    ensures var data := JObj(map["error" := JObj(map["message" := JStr("rate limited")])]);
      HandleAnalyze(Configured, raw, parse, Replied(429, Some(data))).response
        == Reply(429, JsonContentType, JsonBody(JObj(map["error" := JStr("rate limited"), "details" := data])))
  {
  }

  /** An upstream 200 whose `output` is empty is a 502. */
  lemma EmptyOutputIs502(raw: string, parse: string -> Option<Json>)
    requires parse("{}") == Some(JObj(map[]))
    requires HandleAnalyze(Configured, raw, parse, Threw).call.Some?
    ensures var data := JObj(map["output" := JArr([])]);
      HandleAnalyze(Configured, raw, parse, Replied(200, Some(data))).response
        == SendJson(502, ErrorWithDetails(JStr(NoTextMessage), data))
  {
    var data := JObj(map["output" := JArr([])]);
    assert Extract(data) == "";
  }

  /** A truthy message that is not a string, such as the number 5, is forwarded unchanged. */
  lemma NumberMessageIsForwarded(raw: string, parse: string -> Option<Json>)
    requires parse("{}") == Some(JObj(map[]))
    requires HandleAnalyze(Configured, raw, parse, Threw).call.Some?
    ensures var data := JObj(map["error" := JObj(map["message" := JNum(5.0)])]);
      HandleAnalyze(Configured, raw, parse, Replied(503, Some(data))).response
        == SendJson(503, ErrorWithDetails(JNum(5.0), data))
  {
  }

  /**
   * An upstream 502 whose own message is "AI returned no readable text." is
   * forwarded as a reply identical to the server's own no-text 502, so a
   * 502 with that message does not by itself say that upstream answered 2xx.
   */
  lemma ForwardedNoTextLookalike(raw: string, parse: string -> Option<Json>)
    requires parse("{}") == Some(JObj(map[]))
    requires HandleAnalyze(Configured, raw, parse, Threw).call.Some?
    ensures var data := JObj(map["error" := JObj(map["message" := JStr(NoTextMessage)])]);
      HandleAnalyze(Configured, raw, parse, Replied(502, Some(data))).response
        == SendJson(502, ErrorWithDetails(JStr(NoTextMessage), data))
  {
  }

  /** A body whose `imageDataUrl` is not a data URL is rejected with 400. */
  lemma NotADataUrlIs400(raw: string, parse: string -> Option<Json>, upstream: Upstream)
    requires parse("{}") == Some(JObj(map[]))
    requires raw != "" && Utf16Length(raw) <= MaxBodyLength
    requires parse(raw) == Some(JObj(map["imageDataUrl" := JStr("not-a-data-url")]))
    ensures HandleAnalyze(Configured, raw, parse, upstream).response.status == 400
    ensures HandleAnalyze(Configured, raw, parse, upstream).call == None
  {
    assert "not-a-data-url"[..|DataImagePrefix|] != DataImagePrefix by {
      assert "not-a-data-url"[0] != DataImagePrefix[0];
    }
  }
}
