/** `RichTextFactory`: the three ways the converter builds a rich-text run. */
module Factory {
  import opened Wrappers
  import opened Wire
  import opened Colors
  import opened Objects
  import Base

  /** The `link` of a text run: set only for a non-empty URL string (Python truthiness). */
  function LinkOf(link: Option<string>): Option<Url> {
    if link.Some? && link.value != "" then Some(Url(link.value)) else None
  }

  /**
   * `RichTextFactory.text`: a "text" run carrying `content`, the given link when it is
   * non-empty, and the given annotations (all false and colour "default" unless given).
   */
  function TextRun(content: string, link: Option<string> := None, bold: bool := false, italic: bool := false,
                   underline: bool := false, strikethrough: bool := false, code: bool := false,
                   color: Option<Color> := Some(Default)): (r: RichText)
    ensures RichTextDump(r).Keys == {"type", "text", "annotations"}
    ensures RichTextDump(r)["type"] == JStr("text")
    ensures r.payload.TextPayload? && r.payload.text.content == content
    ensures "link" in TextDump(r.payload.text) <==> link.Some? && link.value != ""
    ensures link.Some? && link.value != "" ==> TextDump(r.payload.text)["link"] == JObj(map["url" := JStr(link.value)])
    ensures r.annotations == Some(Annotations(bold, italic, strikethrough, underline, code, color))
  {
    RichText(TextPayload(Text(content, LinkOf(link))),
             Some(Annotations(bold, italic, strikethrough, underline, code, color)), None, None)
  }

  /** `RichTextFactory.page_mention`: a "mention" run whose mention is the page envelope of `content`. */
  function PageMentionRun(content: string): (r: RichText)
    ensures RichTextDump(r)
         == map["type" := JStr("mention"),
                "mention" := JObj(map["type" := JStr("page"), "page" := JObj(map["id" := JStr(content)])])]
  {
    RichText(MentionPayload(Base.Format("page", Base.ModelContent(map["id" := JStr(content)], Base.NoChildrenAttr))),
             None, None, None)
  }

  /** `RichTextFactory.equation`: an "equation" run with no text and no annotations. */
  function EquationRun(content: string): (r: RichText)
    ensures RichTextDump(r)
         == map["type" := JStr("equation"), "equation" := JObj(map["expression" := JStr(content)])]
  {
    RichText(EquationPayload(content), None, None, None)
  }
}
