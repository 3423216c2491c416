/**
 * `extractTextFromResponse`: the readable answer in an upstream reply. A flat
 * `output_text` string wins when it has non-whitespace content; otherwise the
 * `text` of every `output_text` block under `output[i].content[j]` is
 * collected in order, joined with line feeds and trimmed.
 */
module Extraction {
  import opened Wrappers
  import opened JsonModel
  import opened Text

  /** The kind tag of a text block, which is also the name of the flat field. */
  const OutputTextKind := "output_text"

  /** The separator the collected block texts are joined with. */
  const Newline := "\n"

  // ---------------------------------------------------------------------------
  // Gathering: the texts produced by each element of a sequence, in order.
  // ---------------------------------------------------------------------------

  /** The texts `f` produces for each element of `xs`, concatenated in element order. */
  function Gather<T>(xs: seq<T>, f: T -> seq<string>): seq<string>
  {
    if xs == [] then [] else Gather(xs[..|xs| - 1], f) + f(xs[|xs| - 1])
  }

  /** Gathering over a concatenation puts the texts of the later elements after those of the earlier ones. */
  lemma {:induction false} GatherAppend<T>(a: seq<T>, b: seq<T>, f: T -> seq<string>)
    ensures Gather(a + b, f) == Gather(a, f) + Gather(b, f)
    decreases |b|
  {
    if b != [] {
      var b' := b[..|b| - 1];
      GatherAppend(a, b', f);
      assert (a + b)[..|a + b| - 1] == a + b';
    } else {
      assert a + b == a;
    }
  }

  /** Gathering over one element gives what that element produces. */
  lemma GatherSingle<T>(x: T, f: T -> seq<string>)
    ensures Gather([x], f) == f(x)
  {
    assert [x][..0] == [];
  }

  /** Element `i` of `xs` produces the text `t`. */
  ghost predicate Yields<T>(xs: seq<T>, f: T -> seq<string>, i: int, t: string)
  {
    0 <= i < |xs| && t in f(xs[i])
  }

  /** A text is gathered exactly when some element produces it. */
  lemma {:induction false} GatherMember<T>(xs: seq<T>, f: T -> seq<string>, t: string)
    ensures t in Gather(xs, f) <==> exists i :: Yields(xs, f, i, t)
    decreases |xs|
  {
    if xs != [] {
      var n := |xs| - 1;
      var init := xs[..n];
      GatherMember(init, f, t);
      if t in Gather(xs, f) {
        if t in Gather(init, f) {
          var i :| Yields(init, f, i, t);
          assert Yields(xs, f, i, t);
        } else {
          assert Yields(xs, f, n, t);
        }
      }
      if exists i :: Yields(xs, f, i, t) {
        var i :| Yields(xs, f, i, t);
        if i < n {
          assert Yields(init, f, i, t);
        }
      }
    }
  }

  // ---------------------------------------------------------------------------
  // The specification of the extractor.
  // ---------------------------------------------------------------------------

  /** The text a block contributes: its string `text` when it is an object whose `type` is "output_text". */
  function BlockText(block: Json): Option<string>
  {
    match block
    case JObj(f) =>
      if "type" in f && f["type"] == JStr(OutputTextKind) && "text" in f && f["text"].JStr?
      then Some(f["text"].s) else None
    case _ => None
  }

  /** The blocks of an item: its `content` when the item is an object whose `content` is an array. */
  function Content(item: Json): seq<Json>
  {
    match item
    case JObj(f) => if "content" in f && f["content"].JArr? then f["content"].elems else []
    case _ => []
  }

  /** The zero or one texts a block contributes. */
  function BlockTextSeq(block: Json): seq<string>
  {
    ToSeq(BlockText(block))
  }

  /** The texts contributed by a run of blocks, in block order. */
  function BlockTexts(blocks: seq<Json>): seq<string>
  {
    Gather(blocks, BlockTextSeq)
  }

  /** The texts contributed by one item's blocks. */
  function ContentTexts(item: Json): seq<string>
  {
    BlockTexts(Content(item))
  }

  /** The texts contributed by a run of items, in item order and then block order. */
  function ItemTexts(items: seq<Json>): seq<string>
  {
    Gather(items, ContentTexts)
  }

  /** `payload.output` when it is an array, and no items otherwise. */
  function Output(payload: Json): seq<Json>
  {
    if ArrayField(payload, "output").Some? then ArrayField(payload, "output").value else []
  }

  /** The first tier: the trimmed flat `output_text`, when it is a string whose trim is non-empty. */
  function FlatText(payload: Json): Option<string>
  {
    match StringField(payload, OutputTextKind)
    case Some(t) => if Trim(t) != "" then Some(Trim(t)) else None
    case None => None
  }

  /** Whether the payload passes the `!payload || typeof payload !== 'object'` guard. */
  predicate IsObjectLike(payload: Json)
  {
    Truthy(payload) && TypeOf(payload) == "object"
  }

  /** The specification of the extractor: the text it returns for `payload`. */
  function Extract(payload: Json): string
  {
    if !IsObjectLike(payload) then ""
    else if FlatText(payload).Some? then FlatText(payload).value
    else Trim(Join(ItemTexts(Output(payload)), Newline))
  }

  // ---------------------------------------------------------------------------
  // The extractor as the server runs it.
  // ---------------------------------------------------------------------------

  /**
   * The extractor's two tiers; the collecting loops of the second tier are
   * in `CollectTextBlocks`.
   */
  method ExtractTextFromResponse(payload: Json) returns (r: string)
    ensures r == Extract(payload)
  {
    if !Truthy(payload) || TypeOf(payload) != "object" {
      return "";
    }
    var flat := Field(payload, OutputTextKind);
    if flat.Some? && flat.value.JStr? && Trim(flat.value.s) != "" {
      return Trim(flat.value.s);
    }
    var outputField := Field(payload, "output");
    var output := if outputField.Some? && outputField.value.JArr? then outputField.value.elems else [];
    var textBlocks := CollectTextBlocks(output);
    r := Trim(Join(textBlocks, Newline));
  }

  /**
   * The second tier's nested loops: every item that is truthy and has an
   * array `content` is walked block by block, and the text of each
   * "output_text" block is pushed onto `textBlocks`.
   */
  method CollectTextBlocks(output: seq<Json>) returns (textBlocks: seq<string>)
    ensures textBlocks == ItemTexts(output)
  {
    textBlocks := [];
    for i := 0 to |output|
      invariant textBlocks == ItemTexts(output[..i])
    {
      var item := output[i];
      assert output[..i + 1][..i] == output[..i];
      var content := Field(item, "content");
      if !Truthy(item) || !(content.Some? && content.value.JArr?) {
        continue;
      }
      var blocks := content.value.elems;
      for j := 0 to |blocks|
        invariant textBlocks == ItemTexts(output[..i]) + BlockTexts(blocks[..j])
      {
        var block := blocks[j];
        assert blocks[..j + 1][..j] == blocks[..j];
        var text := Field(block, "text");
        if Field(block, "type") == Some(JStr(OutputTextKind)) && text.Some? && text.value.JStr? {
          textBlocks := textBlocks + [text.value.s];
        }
      }
      assert blocks[..|blocks|] == blocks;
    }
    assert output[..|output|] == output;
  }

  // ---------------------------------------------------------------------------
  // What the collected texts are.
  // ---------------------------------------------------------------------------

  /** Later items add their texts after those of earlier items. */
  lemma ItemTextsAppend(a: seq<Json>, b: seq<Json>)
    ensures ItemTexts(a + b) == ItemTexts(a) + ItemTexts(b)
  {
    GatherAppend(a, b, ContentTexts);
  }

  /** Within an item, later blocks add their texts after those of earlier blocks. */
  lemma BlockTextsAppend(a: seq<Json>, b: seq<Json>)
    ensures BlockTexts(a + b) == BlockTexts(a) + BlockTexts(b)
  {
    GatherAppend(a, b, BlockTextSeq);
  }

  /** Block `j` of item `i` is an "output_text" block whose text is `t`. */
  ghost predicate Contributes(items: seq<Json>, i: int, j: int, t: string)
  {
    0 <= i < |items| && 0 <= j < |Content(items[i])| && BlockText(Content(items[i])[j]) == Some(t)
  }

  /**
   * A text is collected from the items exactly when some block of some item
   * contributes it; every other block and every item without an array
   * `content` contributes nothing.
   */
  lemma ItemTextsMember(items: seq<Json>, t: string)
    ensures t in ItemTexts(items) <==> exists i, j :: Contributes(items, i, j, t)
  {
    GatherMember(items, ContentTexts, t);
    if t in ItemTexts(items) {
      var i :| Yields(items, ContentTexts, i, t);
      GatherMember(Content(items[i]), BlockTextSeq, t);
      var j :| Yields(Content(items[i]), BlockTextSeq, j, t);
      assert Contributes(items, i, j, t);
    }
    if exists i, j :: Contributes(items, i, j, t) {
      var i, j :| Contributes(items, i, j, t);
      GatherMember(Content(items[i]), BlockTextSeq, t);
      assert Yields(Content(items[i]), BlockTextSeq, j, t);
      assert Yields(items, ContentTexts, i, t);
    }
  }

  // ---------------------------------------------------------------------------
  // The two tiers.
  // ---------------------------------------------------------------------------

  /**
   * `null`, a non-object, an array, and an object that has neither
   * `output_text` nor `output` all yield the empty string.
   */
  lemma ExtractWithoutFields(payload: Json)
    requires payload.JObj? ==> OutputTextKind !in payload.fields && "output" !in payload.fields
    ensures Extract(payload) == ""
  {
  }

  /**
   * When `output_text` is a string that is not all whitespace, the result is
   * its trim, whatever `output` holds.
   */
  lemma ExtractFlatWins(payload: Json, t: string)
    requires Field(payload, OutputTextKind) == Some(JStr(t))
    requires !AllWs(t)
    ensures Extract(payload) == Trim(t)
  {
    TrimEmptyIff(t);
  }

  /**
   * When `output_text` is absent, not a string, or whitespace only, an object
   * payload falls through to the second tier: the trimmed, line-feed-joined
   * texts of the `output` blocks.
   */
  lemma ExtractFallsThrough(payload: Json)
    requires payload.JObj?
    requires StringField(payload, OutputTextKind).None? || AllWs(StringField(payload, OutputTextKind).value)
    ensures Extract(payload) == Trim(Join(ItemTexts(Output(payload)), Newline))
  {
    if StringField(payload, OutputTextKind).Some? {
      TrimEmptyIff(StringField(payload, OutputTextKind).value);
    }
  }

  /** The result never starts or ends with whitespace, and trimming it again changes nothing. */
  lemma ExtractTrimmed(payload: Json)
    ensures NoEdgeWs(Extract(payload))
    ensures Trim(Extract(payload)) == Extract(payload)
  {
    var r := Extract(payload);
    if !IsObjectLike(payload) {
      assert r == "";
    } else if FlatText(payload).Some? {
      var t := StringField(payload, OutputTextKind).value;
      TrimShape(t);
      TrimIdempotent(t);
    } else {
      var joined := Join(ItemTexts(Output(payload)), Newline);
      TrimShape(joined);
      TrimIdempotent(joined);
    }
  }

  /**
   * The result is empty exactly when the payload is not an object, or when
   * neither tier has anything but whitespace to offer.
   */
  lemma ExtractEmptyIff(payload: Json)
    ensures Extract(payload) == "" <==>
      || !payload.JObj?
      || ((StringField(payload, OutputTextKind).None? || AllWs(StringField(payload, OutputTextKind).value))
          && AllWs(Join(ItemTexts(Output(payload)), Newline)))
  {
    if StringField(payload, OutputTextKind).Some? {
      TrimEmptyIff(StringField(payload, OutputTextKind).value);
    }
    TrimEmptyIff(Join(ItemTexts(Output(payload)), Newline));
  }
}
