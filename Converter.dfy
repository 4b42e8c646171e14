/** src/converter.rs: turning a GlitchTip Slack-format alert into one of three Feishu
    messages. Each conversion is a method that builds its result step by step, as the
    source does, and is proved equal to a specification function; the shape of each
    message is stated about those functions. */
module Converter {
  import opened Wrappers
  import opened Json
  import opened Types
  import opened Text

  // ---- the pieces of text the three formats share ----

  function TextHeader(alias: string): string {
    "🚨 **" + alias + "**\n\n"
  }

  function ErrorLine(title: string): string {
    "**错误**: " + title + "\n\n"
  }

  function FieldLine(f: AttachmentField): string {
    "**" + f.title + "**: " + f.value + "\n"
  }

  function LinkSuffix(link: string): string {
    "\n🔗 [查看详情](" + link + ")"
  }

  function NotifyTitle(alias: string): string {
    alias + " - 错误通知"
  }

  const DetailsLabel: string := "查看详情"

  // ---- plain text ----

  /** Every field of every attachment, attachment by attachment, fields in order. */
  function AllFields(atts: seq<SlackAttachment>): seq<AttachmentField> {
    if atts == [] then [] else AllFields(atts[..|atts| - 1]) + atts[|atts| - 1].fields
  }

  /** How many fields the attachments hold together. */
  function TotalFields(atts: seq<SlackAttachment>): nat {
    if atts == [] then 0 else TotalFields(atts[..|atts| - 1]) + |atts[|atts| - 1].fields|
  }

  function FieldLines(fs: seq<AttachmentField>): (r: seq<string>)
    ensures |r| == |fs|
    ensures forall k :: 0 <= k < |fs| ==> r[k] == FieldLine(fs[k])
  {
    seq(|fs|, k requires 0 <= k < |fs| => FieldLine(fs[k]))
  }

  function HasLink(atts: seq<SlackAttachment>): bool {
    |atts| > 0 && atts[0].titleLink != ""
  }

  /** The text: the alias header, the first attachment's title line when there is an
      attachment, one line per field of every attachment, and the details link of the
      first attachment when it has one. */
  function TextBody(g: GlitchTipSlackWebhook): string {
    var atts := g.attachments;
    TextHeader(g.alias)
    + (if |atts| > 0 then ErrorLine(atts[0].title) else "")
    + Join(FieldLines(AllFields(atts)))
    + (if HasLink(atts) then LinkSuffix(atts[0].titleLink) else "")
  }

  function TextMessage(g: GlitchTipSlackWebhook): (w: FeishuWebhook)
    ensures w.msgType == "text" && w.card == None
    ensures w.content == Some(FeishuContent(Some(TextBody(g)), None))
  {
    FeishuWebhook("text", Some(FeishuContent(Some(TextBody(g)), None)), None)
  }

  lemma FieldLinesAppend(a: seq<AttachmentField>, b: seq<AttachmentField>)
    ensures FieldLines(a + b) == FieldLines(a) + FieldLines(b)
  {
  }

  lemma AllFieldsStep(atts: seq<SlackAttachment>, i: nat)
    requires i < |atts|
    ensures AllFields(atts[..i + 1]) == AllFields(atts[..i]) + atts[i].fields
  {
    assert atts[..i + 1][..i] == atts[..i];
  }

  /** Appends the lines of the fields of one attachment to `text`. */
  lemma FieldLinesStep(prefix: string, done: seq<AttachmentField>, f: AttachmentField)
    ensures prefix + Join(FieldLines(done)) + FieldLine(f) == prefix + Join(FieldLines(done + [f]))
  {
    FieldLinesAppend(done, [f]);
    JoinAppend(FieldLines(done), FieldLines([f]));
    JoinSingle(FieldLine(f));
  }

  /** `Converter::glitchtip_to_feishu_text`. */
  method GlitchtipToFeishuText(g: GlitchTipSlackWebhook) returns (w: FeishuWebhook)
    ensures w == TextMessage(g)
  {
    var atts := g.attachments;
    var text := TextHeader(g.alias);
    if |atts| > 0 {
      text := text + ErrorLine(atts[0].title);
    }
    ghost var start := text;
    assert atts[..0] == [];
    for i := 0 to |atts|
      invariant text == start + Join(FieldLines(AllFields(atts[..i])))
    {
      ghost var before := AllFields(atts[..i]);
      var fields := atts[i].fields;
      assert before + fields[..0] == before;
      for j := 0 to |fields|
        invariant text == start + Join(FieldLines(before + fields[..j]))
      {
        FieldLinesStep(start, before + fields[..j], fields[j]);
        assert before + fields[..j] + [fields[j]] == before + fields[..j + 1];
        text := text + FieldLine(fields[j]);
      }
      assert fields[..|fields|] == fields;
      AllFieldsStep(atts, i);
    }
    assert atts[..|atts|] == atts;
    if |atts| > 0 && atts[0].titleLink != "" {
      text := text + LinkSuffix(atts[0].titleLink);
    }
    assert text == TextBody(g);
    w := FeishuWebhook("text", Some(FeishuContent(Some(text), None)), None);
  }

  /** Fields are listed attachment by attachment: field `j` of attachment `i` is at
      position (fields of the attachments before `i`) + `j`. */
  lemma {:induction false} AllFieldsOrder(atts: seq<SlackAttachment>, i: nat, j: nat)
    requires i < |atts| && j < |atts[i].fields|
    ensures |AllFields(atts)| == TotalFields(atts)
    ensures TotalFields(atts[..i]) + j < TotalFields(atts)
    ensures AllFields(atts)[TotalFields(atts[..i]) + j] == atts[i].fields[j]
    decreases |atts|
  {
    var n := |atts| - 1;
    var init := atts[..n];
    AllFieldsLength(init);
    if i == n {
      assert atts[..i] == init;
    } else {
      AllFieldsOrder(init, i, j);
      assert init[..i] == atts[..i];
    }
  }

  lemma {:induction false} AllFieldsLength(atts: seq<SlackAttachment>)
    ensures |AllFields(atts)| == TotalFields(atts)
    decreases |atts|
  {
    if atts != [] {
      AllFieldsLength(atts[..|atts| - 1]);
    }
  }

  /** The text holds exactly one field line per field, over all attachments, in order. */
  lemma TextFieldLines(g: GlitchTipSlackWebhook, i: nat, j: nat)
    requires i < |g.attachments| && j < |g.attachments[i].fields|
    ensures |FieldLines(AllFields(g.attachments))| == TotalFields(g.attachments)
    ensures TotalFields(g.attachments[..i]) + j < TotalFields(g.attachments)
    ensures FieldLines(AllFields(g.attachments))[TotalFields(g.attachments[..i]) + j]
            == FieldLine(g.attachments[i].fields[j])
  {
    AllFieldsOrder(g.attachments, i, j);
  }

  /** The text opens with the alias header, then the first attachment's title when
      there is one; it ends with the details link exactly when the first attachment
      has a non-empty link. */
  lemma TextLayout(g: GlitchTipSlackWebhook)
    ensures g.attachments == [] ==> TextBody(g) == TextHeader(g.alias)
    ensures g.attachments != [] ==>
      TextHeader(g.alias) + ErrorLine(g.attachments[0].title) <= TextBody(g)
    ensures HasLink(g.attachments) ==>
      var suffix := LinkSuffix(g.attachments[0].titleLink);
      |suffix| <= |TextBody(g)| && TextBody(g)[|TextBody(g)| - |suffix|..] == suffix
    ensures g.attachments != [] && !HasLink(g.attachments) ==>
      TextBody(g) == TextHeader(g.alias) + ErrorLine(g.attachments[0].title) + Join(FieldLines(AllFields(g.attachments)))
  {
  }

  // ---- rich text (post) ----

  /** The second row: one text per field of the first attachment, then the details link
      when there is one. */
  function FieldRow(a: SlackAttachment): (row: seq<FeishuPostElement>)
    ensures |row| == |a.fields| + (if a.titleLink != "" then 1 else 0)
    ensures forall k :: 0 <= k < |a.fields| ==> row[k] == FeishuPostElement.Text(FieldLine(a.fields[k]))
    ensures a.titleLink != "" ==> row[|row| - 1] == Link(DetailsLabel, a.titleLink)
  {
    seq(|a.fields|, k requires 0 <= k < |a.fields| => FeishuPostElement.Text(FieldLine(a.fields[k])))
    + (if a.titleLink != "" then [Link(DetailsLabel, a.titleLink)] else [])
  }

  /** Rows of the post: nothing without attachments; otherwise the header row of two
      texts, and the field row when it is not empty. Only the first attachment is used. */
  function PostRows(g: GlitchTipSlackWebhook): (rows: seq<seq<FeishuPostElement>>)
    ensures |rows| == 0 <==> g.attachments == []
    ensures |rows| > 0 ==> rows[0] == [FeishuPostElement.Text(TextHeader(g.alias)), FeishuPostElement.Text(ErrorLine(g.attachments[0].title))]
    ensures |rows| <= 2
    ensures |rows| == 2 <==> g.attachments != [] && |g.attachments[0].fields| + (if g.attachments[0].titleLink != "" then 1 else 0) > 0
    ensures |rows| == 2 ==> rows[1] == FieldRow(g.attachments[0])
  {
    if g.attachments == [] then []
    else
      var a := g.attachments[0];
      [[FeishuPostElement.Text(TextHeader(g.alias)), FeishuPostElement.Text(ErrorLine(a.title))]]
      + (if |FieldRow(a)| > 0 then [FieldRow(a)] else [])
  }

  function RichTextMessage(g: GlitchTipSlackWebhook): (w: FeishuWebhook)
    ensures w.msgType == "post" && w.card == None
    ensures w.content == Some(FeishuContent(None, Some(FeishuPost(FeishuPostContent(Some(NotifyTitle(g.alias)), PostRows(g))))))
  {
    FeishuWebhook("post", Some(FeishuContent(None, Some(FeishuPost(FeishuPostContent(Some(NotifyTitle(g.alias)), PostRows(g)))))), None)
  }

  /** `Converter::glitchtip_to_feishu_rich_text`. */
  method GlitchtipToFeishuRichText(g: GlitchTipSlackWebhook) returns (w: FeishuWebhook)
    ensures w == RichTextMessage(g)
  {
    var content: seq<seq<FeishuPostElement>> := [];
    if |g.attachments| > 0 {
      var a := g.attachments[0];
      content := content + [[FeishuPostElement.Text(TextHeader(g.alias)), FeishuPostElement.Text(ErrorLine(a.title))]];
      var fieldElements: seq<FeishuPostElement> := [];
      for k := 0 to |a.fields|
        invariant |fieldElements| == k
        invariant forall m :: 0 <= m < k ==> fieldElements[m] == FeishuPostElement.Text(FieldLine(a.fields[m]))
      {
        fieldElements := fieldElements + [FeishuPostElement.Text(FieldLine(a.fields[k]))];
      }
      if a.titleLink != "" {
        fieldElements := fieldElements + [Link(DetailsLabel, a.titleLink)];
      }
      assert fieldElements == FieldRow(a);
      if |fieldElements| > 0 {
        content := content + [fieldElements];
      }
    }
    assert content == PostRows(g);
    w := FeishuWebhook("post", Some(FeishuContent(None, Some(FeishuPost(FeishuPostContent(Some(NotifyTitle(g.alias)), content))))), None);
  }

  // ---- interactive card ----

  function LarkMd(content: string): Json {
    Object(map["content" := Str(content), "tag" := Str("lark_md")])
  }

  function PlainText(content: string): Json {
    Object(map["content" := Str(content), "tag" := Str("plain_text")])
  }

  function ErrorDiv(title: string): Json {
    Object(map["tag" := Str("div"), "text" := LarkMd("**错误**: " + title)])
  }

  function FieldDiv(f: AttachmentField): Json {
    Object(map["tag" := Str("div"),
               "fields" := Array([Object(map["is_short" := Bool(f.short),
                                             "text" := LarkMd("**" + f.title + "**\n" + f.value)])])])
  }

  function LinkAction(link: string): Json {
    Object(map["tag" := Str("action"),
               "actions" := Array([Object(map["tag" := Str("button"),
                                              "text" := PlainText(DetailsLabel),
                                              "type" := Str("primary"),
                                              "url" := Str(link)])])])
  }

  /** The card with the given element list. */
  function Card(alias: string, elements: seq<Json>): Json {
    Object(map[
      "schema" := Str("2.0"),
      "body" := Object(map[
        "type" := Str("card"),
        "header" := Object(map["template" := Str("red"), "title" := PlainText(NotifyTitle(alias))]),
        "elements" := Array(elements)])])
  }

  function FieldDivs(fs: seq<AttachmentField>): (r: seq<Json>)
    ensures |r| == |fs|
    ensures forall k :: 0 <= k < |fs| ==> r[k] == FieldDiv(fs[k])
  {
    seq(|fs|, k requires 0 <= k < |fs| => FieldDiv(fs[k]))
  }

  /** The card's elements: the title of the first attachment, one element per field of
      it, and a button for its link when there is one; nothing without attachments. */
  function CardElements(g: GlitchTipSlackWebhook): seq<Json> {
    if g.attachments == [] then []
    else
      var a := g.attachments[0];
      [ErrorDiv(a.title)] + FieldDivs(a.fields) + (if a.titleLink != "" then [LinkAction(a.titleLink)] else [])
  }

  function CardMessage(g: GlitchTipSlackWebhook): (w: FeishuWebhook)
    ensures w.msgType == "interactive" && w.content == None
    ensures w.card == Some(Card(g.alias, CardElements(g)))
  {
    FeishuWebhook("interactive", None, Some(Card(g.alias, CardElements(g))))
  }

  /** `card["body"]["elements"] = elements`, on a card whose body is an object. */
  function SetBodyElements(card: Json, elements: seq<Json>): (r: Json)
    requires card.Object? && "body" in card.fields && card.fields["body"].Object?
    ensures r.Object? && r.fields.Keys == card.fields.Keys
    ensures forall k :: k in card.fields && k != "body" ==> r.fields[k] == card.fields[k]
    ensures r.fields["body"].Object?
    ensures r.fields["body"].fields.Keys == card.fields["body"].fields.Keys + {"elements"}
    ensures forall k :: k in card.fields["body"].fields && k != "elements" ==>
      r.fields["body"].fields[k] == card.fields["body"].fields[k]
    ensures Lookup(r, ["body", "elements"]) == Some(Array(elements))
  {
    var body := card.fields["body"];
    var r := Object(card.fields["body" := Object(body.fields["elements" := Array(elements)])]);
    assert ["body", "elements"][1..] == ["elements"];
    r
  }

  /** Writing the elements into an empty card gives the card with those elements. */
  lemma SetBodyElementsOfCard(alias: string, elements: seq<Json>)
    ensures SetBodyElements(Card(alias, []), elements) == Card(alias, elements)
  {
    var empty := Card(alias, []);
    var body := empty.fields["body"];
    var full := Card(alias, elements);
    assert body.fields["elements" := Array(elements)] == full.fields["body"].fields;
    assert empty.fields["body" := full.fields["body"]] == full.fields;
  }

  /** `Converter::glitchtip_to_feishu_card`: an empty card, elements pushed one by one,
      then written into the card's body. */
  method GlitchtipToFeishuCard(g: GlitchTipSlackWebhook) returns (w: FeishuWebhook)
    ensures w == CardMessage(g)
  {
    var card := Card(g.alias, []);
    var elements: seq<Json> := [];
    if |g.attachments| > 0 {
      var a := g.attachments[0];
      elements := elements + [ErrorDiv(a.title)];
      for k := 0 to |a.fields|
        invariant |elements| == 1 + k
        invariant elements[0] == ErrorDiv(a.title)
        invariant forall m :: 0 <= m < k ==> elements[1 + m] == FieldDiv(a.fields[m])
      {
        elements := elements + [FieldDiv(a.fields[k])];
      }
      if a.titleLink != "" {
        elements := elements + [LinkAction(a.titleLink)];
      }
    }
    assert elements == CardElements(g);
    SetBodyElementsOfCard(g.alias, elements);
    card := SetBodyElements(card, elements);
    w := FeishuWebhook("interactive", None, Some(card));
  }

  /** The `is_short` flag of a field element, read back from the JSON tree. */
  function IsShortOf(element: Json): Option<bool> {
    match Get(element, "fields")
    case Some(Array(items)) =>
      if |items| > 0 then
        match Get(items[0], "is_short")
        case Some(Bool(b)) => Some(b)
        case _ => None
      else None
    case _ => None
  }

  /** Reading the card back: schema "2.0", a red header titled with the alias, and the
      element list under body.elements. */
  lemma CardReadBack(g: GlitchTipSlackWebhook)
    ensures var card := CardMessage(g).card.value;
      && Lookup(card, ["schema"]) == Some(Str("2.0"))
      && Lookup(card, ["body", "header", "template"]) == Some(Str("red"))
      && Lookup(card, ["body", "header", "title", "content"]) == Some(Str(NotifyTitle(g.alias)))
      && Lookup(card, ["body", "elements"]) == Some(Array(CardElements(g)))
  {
  }

  lemma IsShortOfFieldDiv(f: AttachmentField)
    ensures IsShortOf(FieldDiv(f)) == Some(f.short)
  {
    var item := Object(map["is_short" := Bool(f.short), "text" := LarkMd("**" + f.title + "**\n" + f.value)]);
    assert Get(FieldDiv(f), "fields") == Some(Array([item]));
    assert Get(item, "is_short") == Some(Bool(f.short));
  }

  /** The card has no element without attachments, and otherwise
      1 + fields + (1 if a link) elements: the field elements carry the fields'
      `short` flags in order and the last one is the link button. */
  lemma CardElementsShape(g: GlitchTipSlackWebhook)
    ensures g.attachments == [] ==> CardElements(g) == []
    ensures g.attachments != [] ==>
      var a := g.attachments[0];
      && |CardElements(g)| == 1 + |a.fields| + (if a.titleLink != "" then 1 else 0)
      && (forall k :: 0 <= k < |a.fields| ==> IsShortOf(CardElements(g)[1 + k]) == Some(a.fields[k].short))
      && (a.titleLink != "" ==> Lookup(CardElements(g)[|CardElements(g)| - 1], ["tag"]) == Some(Str("action")))
  {
    if g.attachments != [] {
      var a := g.attachments[0];
      var es := CardElements(g);
      assert |es| == 1 + |a.fields| + (if a.titleLink != "" then 1 else 0);
      forall k | 0 <= k < |a.fields|
        ensures IsShortOf(es[1 + k]) == Some(a.fields[k].short)
      {
        assert es[1 + k] == FieldDiv(a.fields[k]);
        IsShortOfFieldDiv(a.fields[k]);
      }
      if a.titleLink != "" {
        assert es[|es| - 1] == LinkAction(a.titleLink);
        assert ["tag"][1..] == [];
        assert Get(LinkAction(a.titleLink), "tag") == Some(Str("action"));
      }
    }
  }

  /** Rich text and card read only the first attachment; the text reads them all. */
  lemma PostAndCardUseFirstAttachment(g: GlitchTipSlackWebhook, h: GlitchTipSlackWebhook)
    requires g.alias == h.alias
    requires |g.attachments| > 0 && |h.attachments| > 0 && g.attachments[0] == h.attachments[0]
    ensures RichTextMessage(g) == RichTextMessage(h)
    ensures CardMessage(g) == CardMessage(h)
  {
  }
}
