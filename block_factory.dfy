/**
 * The static constructors of class `Block` in blocks.py: one function per block
 * the caller can build directly, each stated by the wire shape it produces.
 */
module BlockFactory {
  import opened Wrappers
  import opened Wire
  import opened Colors
  import O = Objects
  import Base

  /** The text styling arguments shared by the single-run constructors; no text colour by default. */
  datatype Style = Style(bold: bool, italic: bool, strikethrough: bool, underline: bool, code: bool, textColor: Option<Color>)

  const Plain := Style(false, false, false, false, false, None)

  /** The wire form of `Annotations(...)` built from a style: the five flags, and the colour only when given. */
  predicate StyleShape(d: map<string, Json>, style: Style) {
    && d.Keys == {"bold", "italic", "strikethrough", "underline", "code"} + (if style.textColor.Some? then {"color"} else {})
    && d["bold"] == JBool(style.bold) && d["italic"] == JBool(style.italic)
    && d["strikethrough"] == JBool(style.strikethrough) && d["underline"] == JBool(style.underline)
    && d["code"] == JBool(style.code)
    && (style.textColor.Some? ==> d["color"] == JStr(Name(style.textColor.value)))
  }

  /**
   * The wire form of a styled text run: type "text", the content, a link only when
   * a non-empty one is given, and the annotations of the style.
   */
  predicate TextRunShape(d: map<string, Json>, content: string, link: Option<string>, style: Style) {
    && d.Keys == {"type", "text", "annotations"}
    && d["type"] == JStr("text")
    && d["text"].JObj?
    && d["text"].fields.Keys == {"content"} + (if link.Some? && link.value != "" then {"link"} else {})
    && d["text"].fields["content"] == JStr(content)
    && (link.Some? && link.value != "" ==> d["text"].fields["link"] == JObj(map["url" := JStr(link.value)]))
    && d["annotations"].JObj? && StyleShape(d["annotations"].fields, style)
  }

  /** The annotations a style stands for. */
  function StyleAnnotations(style: Style): O.Annotations {
    O.Annotations(style.bold, style.italic, style.strikethrough, style.underline, style.code, style.textColor)
  }

  /** The link of a run: `Url(link)` for a non-empty link, otherwise none. */
  function RunLink(link: Option<string>): Option<O.Url> {
    if link.Some? && link.value != "" then Some(O.Url(link.value)) else None
  }

  lemma StyleHasShape(style: Style)
    ensures StyleShape(O.AnnotationsDump(StyleAnnotations(style)), style)
  {
    PutShape(map["bold" := JBool(style.bold), "italic" := JBool(style.italic), "strikethrough" := JBool(style.strikethrough),
                 "underline" := JBool(style.underline), "code" := JBool(style.code)],
             "color", if style.textColor.Some? then Some(JStr(Name(style.textColor.value))) else None);
  }

  /** The single styled text run those constructors wrap their `content` in. */
  function StyledRun(content: string, style: Style, link: Option<string> := None): (r: O.RichText)
    ensures TextRunShape(O.RichTextDump(r), content, link, style)
  {
    StyleHasShape(style);
    O.RichText(O.TextPayload(O.Text(content, RunLink(link))), Some(StyleAnnotations(style)), None, None)
  }

  /** An unstyled run: `RichText(type="text", text=Text(content=content))`. */
  function BareRun(content: string): O.RichText {
    O.RichText(O.TextPayload(O.Text(content, None)), None, None, None)
  }

  /** The wire form of an unstyled run: `{"type": "text", "text": {"content": content}}`. */
  function BareRunDump(content: string): Json {
    JObj(map["type" := JStr("text"), "text" := JObj(map["content" := JStr(content)])])
  }

  /** An unstyled run serialises to the bare `{"type": "text", "text": {"content": ...}}`. */
  lemma BareRunHasDump(content: string)
    ensures O.RichTextsDump([BareRun(content)]) == JArr([BareRunDump(content)])
  {
    assert O.RichTextDump(BareRun(content)) == map["type" := JStr("text"), "text" := JObj(map["content" := JStr(content)])];
  }

  /** The wire shape every text container block has: its tag, runs, colour and (optional) children. */
  predicate ContainerShape(b: O.Block, tag: string, runs: seq<O.RichText>, color: Color, children: O.Children) {
    var p := O.PayloadOf(b);
    && O.Tag(b.content) == tag
    && p.Keys == {"rich_text", "color"} + (if b.content.ToDo? then {"checked"} else {})
                 + (if children.Children? then {"children"} else {})
    && p["rich_text"] == O.RichTextsDump(runs)
    && p["color"] == JStr(Name(color))
    && (children.Children? ==> p["children"] == JArr(O.FormatBlocks(children.blocks)))
  }

  /** Every text container formats to its container shape. */
  lemma ContainerHasShape(b: O.Block)
    requires O.DeclaresChildren(b.content)
    ensures ContainerShape(b, O.Tag(b.content), b.content.richText, b.content.color, b.content.children)
    ensures b.content.ToDo? ==> O.PayloadOf(b)["checked"] == JBool(b.content.checked)
  {
    O.ModelPayload(b);
  }

  /** The wire shape of a heading: one unstyled run, its colour, and `is_toggleable` only when given. */
  predicate HeadingShape(b: O.Block, level: O.HeadingLevel, content: string, color: Color, isToggleable: Option<bool>) {
    var p := O.PayloadOf(b);
    && O.Tag(b.content) == "heading_" + ["0123"[level]]
    && p.Keys == {"rich_text", "color"} + (if isToggleable.Some? then {"is_toggleable"} else {})
    && p["rich_text"] == JArr([BareRunDump(content)])
    && p["color"] == JStr(Name(color))
    && (isToggleable.Some? ==> p["is_toggleable"] == JBool(isToggleable.value))
  }

  /** The dump of a heading content: `is_toggleable` only when given. */
  lemma HeadingDumpShape(level: O.HeadingLevel, rt: seq<O.RichText>, color: Color, isToggleable: Option<bool>)
    ensures O.ContentDump(O.Heading(level, rt, color, isToggleable)).Keys
         == {"rich_text", "color"} + (if isToggleable.Some? then {"is_toggleable"} else {})
    ensures O.ContentDump(O.Heading(level, rt, color, isToggleable))["rich_text"] == O.RichTextsDump(rt)
    ensures O.ContentDump(O.Heading(level, rt, color, isToggleable))["color"] == JStr(Name(color))
    ensures isToggleable.Some? ==> O.ContentDump(O.Heading(level, rt, color, isToggleable))["is_toggleable"] == JBool(isToggleable.value)
  {
    PutShape(map["rich_text" := O.RichTextsDump(rt), "color" := JStr(Name(color))],
             "is_toggleable", if isToggleable.Some? then Some(JBool(isToggleable.value)) else None);
  }

  // The constructors the markdown converter calls (headings, code, equation and the
  // three `*_from_rich_text`) state their wire shapes in lemmas beside them, so that
  // proofs about the converter's recursion do not carry those shapes along.

  /** `Block.heading_1`, `heading_2`, `heading_3`. */
  function Heading(level: O.HeadingLevel, content: string, color: Color := Default,
                   isToggleable: Option<bool> := None): O.Block
  {
    O.Block(O.Heading(level, [BareRun(content)], color, isToggleable))
  }

  /** A heading has one unstyled run and no `children` key. */
  lemma HeadingHasShape(level: O.HeadingLevel, content: string, color: Color, isToggleable: Option<bool>)
    ensures HeadingShape(Heading(level, content, color, isToggleable), level, content, color, isToggleable)
  {
    O.ModelPayload(Heading(level, content, color, isToggleable));
    HeadingDumpShape(level, [BareRun(content)], color, isToggleable);
    BareRunHasDump(content);
  }

  /** The wire shape of a code block: one unstyled run, the language, and a caption run only for a non-empty caption. */
  predicate CodeShape(b: O.Block, content: string, language: string, caption: Option<string>) {
    var p := O.PayloadOf(b);
    var captioned := caption.Some? && caption.value != "";
    && O.Tag(b.content) == "code"
    && p.Keys == {"rich_text", "language"} + (if captioned then {"caption"} else {})
    && p["rich_text"] == JArr([BareRunDump(content)])
    && p["language"] == JStr(language)
    && (captioned ==> p["caption"] == JArr([BareRunDump(caption.value)]))
  }

  /** The dump of a code content with one run and a language: the caption only when there is one. */
  lemma CodeDumpShape(rt: seq<O.RichText>, cap: Option<seq<O.RichText>>, language: string)
    ensures O.ContentDump(O.Code(rt, cap, Some(language))).Keys == {"rich_text", "language"} + (if cap.Some? then {"caption"} else {})
    ensures O.ContentDump(O.Code(rt, cap, Some(language)))["rich_text"] == O.RichTextsDump(rt)
    ensures O.ContentDump(O.Code(rt, cap, Some(language)))["language"] == JStr(language)
    ensures cap.Some? ==> O.ContentDump(O.Code(rt, cap, Some(language)))["caption"] == O.RichTextsDump(cap.value)
  {
    var m := map["rich_text" := O.RichTextsDump(rt)];
    PutShape(m, "caption", O.OptRichTexts(cap));
    PutShape(Put(m, "caption", O.OptRichTexts(cap)), "language", O.OptStr(Some(language)));
  }

  /** `Block.code`: the caption run only for a non-empty caption. */
  function Code(content: string, language: string, caption: Option<string> := None): O.Block {
    var cap := if caption.Some? && caption.value != "" then Some([BareRun(caption.value)]) else None;
    O.Block(O.Code([BareRun(content)], cap, Some(language)))
  }

  /** A code block has one unstyled run, its language, and a caption only when a non-empty one is given. */
  lemma CodeHasShape(content: string, language: string, caption: Option<string>)
    ensures CodeShape(Code(content, language, caption), content, language, caption)
  {
    var cap := if caption.Some? && caption.value != "" then Some([BareRun(caption.value)]) else None;
    O.ModelPayload(Code(content, language, caption));
    CodeDumpShape([BareRun(content)], cap, language);
    BareRunHasDump(content);
    BareRunHasDump(if caption.Some? then caption.value else "");
  }

  /** `Block.bulleted_list_item`. */
  function BulletedListItem(content: string, children: O.Children := O.NoChildren, color: Color := Default,
                            style: Style := Plain): (b: O.Block)
    ensures ContainerShape(b, "bulleted_list_item", [StyledRun(content, style)], color, children)
  {
    ContainerHasShape(O.Block(O.BulletedListItem([StyledRun(content, style)], color, children)));
    O.Block(O.BulletedListItem([StyledRun(content, style)], color, children))
  }

  /** `Block.bulleted_list_item_from_rich_text`. */
  function BulletedListItemFromRichText(richText: seq<O.RichText>, children: O.Children := O.NoChildren, color: Color := Default): O.Block {
    O.Block(O.BulletedListItem(richText, color, children))
  }

  /** The runs are kept as given, and the `children` key is present exactly when children are given. */
  lemma BulletedListItemFromRichTextHasShape(richText: seq<O.RichText>, children: O.Children, color: Color)
    ensures ContainerShape(BulletedListItemFromRichText(richText, children, color), "bulleted_list_item", richText, color, children)
  {
    ContainerHasShape(BulletedListItemFromRichText(richText, children, color));
  }

  /** `Block.numbered_list_item`. */
  function NumberedListItem(content: string, children: O.Children := O.NoChildren, color: Color := Default,
                            style: Style := Plain): (b: O.Block)
    ensures ContainerShape(b, "numbered_list_item", [StyledRun(content, style)], color, children)
  {
    ContainerHasShape(O.Block(O.NumberedListItem([StyledRun(content, style)], color, children)));
    O.Block(O.NumberedListItem([StyledRun(content, style)], color, children))
  }

  /** `Block.numbered_list_item_from_rich_text`. */
  function NumberedListItemFromRichText(richText: seq<O.RichText>, children: O.Children := O.NoChildren, color: Color := Default): O.Block {
    O.Block(O.NumberedListItem(richText, color, children))
  }

  /** The runs are kept as given, and the `children` key is present exactly when children are given. */
  lemma NumberedListItemFromRichTextHasShape(richText: seq<O.RichText>, children: O.Children, color: Color)
    ensures ContainerShape(NumberedListItemFromRichText(richText, children, color), "numbered_list_item", richText, color, children)
  {
    ContainerHasShape(NumberedListItemFromRichText(richText, children, color));
  }

  /** `Block.paragraph`: the run links to `link` only when it is non-empty. */
  function Paragraph(content: string, link: Option<string> := None, children: O.Children := O.NoChildren,
                     color: Color := Default, style: Style := Plain): (b: O.Block)
    ensures ContainerShape(b, "paragraph", [StyledRun(content, style, link)], color, children)
  {
    ContainerHasShape(O.Block(O.Paragraph([StyledRun(content, style, link)], color, children)));
    O.Block(O.Paragraph([StyledRun(content, style, link)], color, children))
  }

  /** `Block.paragraph_from_rich_text`. */
  function ParagraphFromRichText(richText: seq<O.RichText>, children: O.Children := O.NoChildren, color: Color := Default): O.Block {
    O.Block(O.Paragraph(richText, color, children))
  }

  /** The runs are kept as given, and the `children` key is present exactly when children are given. */
  lemma ParagraphFromRichTextHasShape(richText: seq<O.RichText>, children: O.Children, color: Color)
    ensures ContainerShape(ParagraphFromRichText(richText, children, color), "paragraph", richText, color, children)
  {
    ContainerHasShape(ParagraphFromRichText(richText, children, color));
  }

  /**
   * The wire shape of a mention paragraph: tag "paragraph", no children, the colour
   * "default", and the one mention run `{"type": "mention", "mention": mention}`.
   */
  predicate MentionShape(b: O.Block, mention: map<string, Json>) {
    var p := O.PayloadOf(b);
    && O.Tag(b.content) == "paragraph"
    && p.Keys == {"rich_text", "color"}
    && p["rich_text"] == JArr([JObj(map["type" := JStr("mention"), "mention" := JObj(mention)])])
    && p["color"] == JStr("default")
  }

  /** A paragraph holding the one mention run `{"type": "mention", "mention": mention}`. */
  function MentionParagraph(mention: map<string, Json>): (b: O.Block)
    ensures MentionShape(b, mention)
  {
    var run := O.RichText(O.MentionPayload(mention), None, None, None);
    ContainerHasShape(O.Block(O.Paragraph([run], Default, O.NoChildren)));
    O.Block(O.Paragraph([run], Default, O.NoChildren))
  }

  /** `Block.page_mention`: the mention is the formatted `Page`, `{"type": "page", "page": {"id": ...}}`. */
  function PageMention(pageId: string): (b: O.Block)
    ensures MentionShape(b, map["type" := JStr("page"), "page" := JObj(map["id" := JStr(pageId)])])
  {
    MentionParagraph(Base.Format("page", Base.ModelContent(map["id" := JStr(pageId)], Base.NoChildrenAttr)))
  }

  /** `Block.user_mention`: the user object carries `"object": "user"`. */
  function UserMention(userId: string): (b: O.Block)
    ensures MentionShape(b, map["type" := JStr("user"), "user" := JObj(map["object" := JStr("user"), "id" := JStr(userId)])])
  {
    MentionParagraph(Base.Format("user", Base.ModelContent(map["object" := JStr("user"), "id" := JStr(userId)], Base.NoChildrenAttr)))
  }

  /** `Block.date_mention`: only the start date is set; end and time zone are dropped. */
  function DateMention(date: string): (b: O.Block)
    ensures MentionShape(b, map["type" := JStr("date"), "date" := JObj(map["start" := JStr(date)])])
  {
    MentionParagraph(Base.Format("date", Base.ModelContent(map["start" := JStr(date)], Base.NoChildrenAttr)))
  }

  /** `Block.equation`. */
  function Equation(expression: string): O.Block {
    O.Block(O.Equation(expression))
  }

  /** An equation block is the expression alone, with no `children` key. */
  lemma EquationHasShape(expression: string)
    ensures O.FormatBlock(Equation(expression))
         == map["object" := JStr("block"), "type" := JStr("equation"), "equation" := JObj(map["expression" := JStr(expression)])]
  {
  }

  /** `Block.bookmark`: a caption run only for a non-empty caption. */
  function Bookmark(url: string, caption: Option<string> := None): (b: O.Block)
    ensures O.Tag(b.content) == "bookmark"
    ensures O.PayloadOf(b).Keys == {"url"} + (if caption.Some? && caption.value != "" then {"caption"} else {})
    ensures O.PayloadOf(b)["url"] == JStr(url)
    ensures caption.Some? && caption.value != "" ==> O.PayloadOf(b)["caption"] == JArr([BareRunDump(caption.value)])
  {
    var cap := if caption.Some? && caption.value != "" then Some([BareRun(caption.value)]) else None;
    O.ModelPayload(O.Block(O.Bookmark(url, cap)));
    BareRunHasDump(if caption.Some? then caption.value else "");
    O.Block(O.Bookmark(url, cap))
  }

  /** `Block.breadcrumb`. */
  function Breadcrumb(): (b: O.Block)
    ensures O.FormatBlock(b) == map["object" := JStr("block"), "type" := JStr("breadcrumb"), "breadcrumb" := JObj(map[])]
  {
    O.Block(O.BreadCrumb(map[]))
  }

  /** `Block.divider`. */
  function Divider(): (b: O.Block)
    ensures O.FormatBlock(b) == map["object" := JStr("block"), "type" := JStr("divider"), "divider" := JObj(map[])]
  {
    O.Block(O.Divider(map[]))
  }

  /** `Block.quote`. */
  function Quote(content: string, children: O.Children := O.NoChildren, color: Color := Default,
                 style: Style := Plain): (b: O.Block)
    ensures ContainerShape(b, "quote", [StyledRun(content, style)], color, children)
  {
    ContainerHasShape(O.Block(O.Quote([StyledRun(content, style)], color, children)));
    O.Block(O.Quote([StyledRun(content, style)], color, children))
  }

  /** `Block.todo`: unchecked unless `checked` is given. */
  function Todo(content: string, checked: bool := false, children: O.Children := O.NoChildren,
                color: Color := Default, style: Style := Plain): (b: O.Block)
    ensures ContainerShape(b, "to_do", [StyledRun(content, style)], color, children)
    ensures "checked" in O.PayloadOf(b) && O.PayloadOf(b)["checked"] == JBool(checked)
  {
    ContainerHasShape(O.Block(O.ToDo([StyledRun(content, style)], color, children, checked)));
    O.Block(O.ToDo([StyledRun(content, style)], color, children, checked))
  }

  /** `Block.toggle`. */
  function Toggle(content: string, children: O.Children := O.NoChildren, color: Color := Default,
                  style: Style := Plain): (b: O.Block)
    ensures ContainerShape(b, "toggle", [StyledRun(content, style)], color, children)
  {
    ContainerHasShape(O.Block(O.Toggle([StyledRun(content, style)], color, children)));
    O.Block(O.Toggle([StyledRun(content, style)], color, children))
  }

  /** `Block.embed`. */
  function Embed(url: string): (b: O.Block)
    ensures O.FormatBlock(b) == map["object" := JStr("block"), "type" := JStr("embed"), "embed" := JObj(map["url" := JStr(url)])]
  {
    O.Block(O.Embed(url))
  }

  /** `Block.file`: the payload is `FileContent.model_dump`. */
  function File(url: string, fileType: O.FileType, name: Option<string> := None): (b: O.Block)
    ensures O.FormatBlock(b)
         == map["object" := JStr("block"), "type" := JStr("file"), "file" := JObj(O.FileContentDump(url, fileType, name))]
  {
    O.Block(O.File(url, fileType, name))
  }
}
