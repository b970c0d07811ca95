/**
 * The document store's records: rich-text runs, the content of each block
 * variant, and blocks, together with their wire shapes (`model_dump` with
 * `None` fields dropped, `_Base.format` and `Block.format`).
 */
module Objects {
  import opened Wrappers
  import opened Wire
  import opened Colors
  import Base

  datatype Url = Url(url: string)

  datatype Text = Text(content: string, link: Option<Url>)

  /** Text styling; the colour may be absent (`None`), in which case it is not serialised. */
  datatype Annotations = Annotations(
    bold: bool, italic: bool, strikethrough: bool, underline: bool, code: bool, color: Option<Color>)

  /** `Annotations()` with every field at its default. */
  const DefaultAnnotations := Annotations(false, false, false, false, false, Some(Default))

  /** The one populated payload of a rich-text run; its tag is the run's `type`. */
  datatype Payload =
    | TextPayload(text: Text)
    | MentionPayload(mention: map<string, Json>)
    | EquationPayload(expression: string)

  datatype RichText = RichText(
    payload: Payload, annotations: Option<Annotations>, plainText: Option<string>, href: Option<string>)

  /** The `type` of a run: "text", "mention" or "equation". */
  function RunType(p: Payload): string {
    match p
    case TextPayload(_) => "text"
    case MentionPayload(_) => "mention"
    case EquationPayload(_) => "equation"
  }

  type HeadingLevel = n: int | 1 <= n <= 3 witness 1

  datatype FileType = External | Hosted

  function FileTypeName(t: FileType): string {
    match t
    case External => "external"
    case Hosted => "file"
  }

  /** The content variants a block can hold (`BlockContentTypes`). */
  datatype Content =
    | Paragraph(richText: seq<RichText>, color: Color, children: Children)
    | Heading(level: HeadingLevel, richText: seq<RichText>, color: Color, isToggleable: Option<bool>)
    | BulletedListItem(richText: seq<RichText>, color: Color, children: Children)
    | NumberedListItem(richText: seq<RichText>, color: Color, children: Children)
    | Quote(richText: seq<RichText>, color: Color, children: Children)
    | ToDo(richText: seq<RichText>, color: Color, children: Children, checked: bool)
    | Toggle(richText: seq<RichText>, color: Color, children: Children)
    | Code(richText: seq<RichText>, caption: Option<seq<RichText>>, language: Option<string>)
    | Equation(expression: string)
    | Bookmark(url: string, caption: Option<seq<RichText>>)
    | BreadCrumb(dict: map<string, Json>)
    | Divider(dict: map<string, Json>)
    | File(url: string, fileType: FileType, name: Option<string>)
    | Embed(url: string)
    | LinkPreview(url: string)
    | PageRef(id: string)

  datatype Block = Block(content: Content)

  /** A content's `children` field: `None`, or a `Blocks` object holding child blocks. */
  datatype Children = NoChildren | Children(blocks: seq<Block>)

  /** The content classes that declare a `children` field. */
  predicate DeclaresChildren(c: Content) {
    c.Paragraph? || c.BulletedListItem? || c.NumberedListItem? || c.Quote? || c.ToDo? || c.Toggle?
  }

  /** The fixed `type` literal of each content class. */
  function Tag(c: Content): string {
    match c
    case Paragraph(_, _, _) => "paragraph"
    case Heading(level, _, _, _) => if level == 1 then "heading_1" else if level == 2 then "heading_2" else "heading_3"
    case BulletedListItem(_, _, _) => "bulleted_list_item"
    case NumberedListItem(_, _, _) => "numbered_list_item"
    case Quote(_, _, _) => "quote"
    case ToDo(_, _, _, _) => "to_do"
    case Toggle(_, _, _) => "toggle"
    case Code(_, _, _) => "code"
    case Equation(_) => "equation"
    case Bookmark(_, _) => "bookmark"
    case BreadCrumb(_) => "breadcrumb"
    case Divider(_) => "divider"
    case File(_, _, _) => "file"
    case Embed(_) => "embed"
    case LinkPreview(_) => "link_preview"
    case PageRef(_) => "page"
  }

  // ---- model_dump(exclude_none=True) of the records ----

  function UrlDump(u: Url): map<string, Json> {
    map["url" := JStr(u.url)]
  }

  function TextDump(t: Text): map<string, Json> {
    Put(map["content" := JStr(t.content)], "link", if t.link.Some? then Some(JObj(UrlDump(t.link.value))) else None)
  }

  function AnnotationsDump(a: Annotations): map<string, Json> {
    var flags := map["bold" := JBool(a.bold), "italic" := JBool(a.italic), "strikethrough" := JBool(a.strikethrough),
                     "underline" := JBool(a.underline), "code" := JBool(a.code)];
    Put(flags, "color", if a.color.Some? then Some(JStr(Name(a.color.value))) else None)
  }

  function OptStr(s: Option<string>): Option<Json> {
    if s.Some? then Some(JStr(s.value)) else None
  }

  function RichTextDump(r: RichText): map<string, Json> {
    var payload := match r.payload
      case TextPayload(t) => JObj(TextDump(t))
      case MentionPayload(m) => JObj(m)
      case EquationPayload(e) => JObj(map["expression" := JStr(e)]);
    var run := map["type" := JStr(RunType(r.payload)), RunType(r.payload) := payload];
    var styled := Put(run, "annotations", if r.annotations.Some? then Some(JObj(AnnotationsDump(r.annotations.value))) else None);
    Put(Put(styled, "plain_text", OptStr(r.plainText)), "href", OptStr(r.href))
  }

  function RichTextsDump(rs: seq<RichText>): Json {
    JArr(seq(|rs|, i requires 0 <= i < |rs| => JObj(RichTextDump(rs[i]))))
  }

  function OptRichTexts(rs: Option<seq<RichText>>): Option<Json> {
    if rs.Some? then Some(RichTextsDump(rs.value)) else None
  }

  /** `FileContent.model_dump`: a named file nests its URL under the literal key "file". */
  function FileContentDump(url: string, fileType: FileType, name: Option<string>): map<string, Json> {
    var t := FileTypeName(fileType);
    var rest := map["url" := JStr(url)];
    if name.Some? && name.value != "" then map["type" := JStr(t), "file" := JObj(rest), "name" := JStr(name.value)]
    else map["type" := JStr(t), t := JObj(rest)]
  }

  /** The dump of a content model, without its `children` field. */
  function ContentDump(c: Content): (r: map<string, Json>)
    ensures "children" !in r
  {
    match c
    case Paragraph(rt, col, _) => map["rich_text" := RichTextsDump(rt), "color" := JStr(Name(col))]
    case Heading(_, rt, col, tog) =>
      Put(map["rich_text" := RichTextsDump(rt), "color" := JStr(Name(col))],
          "is_toggleable", if tog.Some? then Some(JBool(tog.value)) else None)
    case BulletedListItem(rt, col, _) => map["rich_text" := RichTextsDump(rt), "color" := JStr(Name(col))]
    case NumberedListItem(rt, col, _) => map["rich_text" := RichTextsDump(rt), "color" := JStr(Name(col))]
    case Quote(rt, col, _) => map["rich_text" := RichTextsDump(rt), "color" := JStr(Name(col))]
    case ToDo(rt, col, _, checked) =>
      map["rich_text" := RichTextsDump(rt), "color" := JStr(Name(col)), "checked" := JBool(checked)]
    case Toggle(rt, col, _) => map["rich_text" := RichTextsDump(rt), "color" := JStr(Name(col))]
    case Code(rt, caption, lang) =>
      Put(Put(map["rich_text" := RichTextsDump(rt)], "caption", OptRichTexts(caption)), "language", OptStr(lang))
    case Equation(e) => map["expression" := JStr(e)]
    case Bookmark(u, caption) => Put(map["url" := JStr(u)], "caption", OptRichTexts(caption))
    case BreadCrumb(_) => map[]  // dict contents are wrapped, not dumped
    case Divider(_) => map[]
    case File(u, t, n) => FileContentDump(u, t, n)
    case Embed(u) => map["url" := JStr(u)]
    case LinkPreview(u) => map["url" := JStr(u)]
    case PageRef(id) => map["id" := JStr(id)]
  }

  // ---- _Base.format, Block.format, Blocks.format ----

  /**
   * `content.format()`, given the content's children already formatted (`kids`):
   * dict contents are wrapped unchanged, models are dumped and get their children.
   */
  function FormatContent(c: Content, kids: Option<seq<Json>>): map<string, Json> {
    if c.BreadCrumb? || c.Divider? then Base.Format(Tag(c), Base.DictContent(c.dict))
    else
      var children :=
        if !DeclaresChildren(c) then Base.NoChildrenAttr
        else if kids.None? then Base.ChildrenUnset
        else Base.ChildrenSet(kids.value);
      Base.Format(Tag(c), Base.ModelContent(ContentDump(c), children))
  }

  /** The children of a block's content, formatted, when its class declares them and they are set. */
  function FormatKids(b: Block): Option<seq<Json>>
    decreases b, 0
  {
    var c := b.content;
    if DeclaresChildren(c) && c.children.Children? then
      var kids := c.children.blocks;
      Some(seq(|kids|, i requires 0 <= i < |kids| => JObj(FormatBlock(kids[i]))))
    else None
  }

  /** `Block.format()`: the content's envelope merged into `{"object": "block"}`. */
  function FormatBlock(b: Block): map<string, Json>
    decreases b, 1
  {
    map["object" := JStr("block")] + FormatContent(b.content, FormatKids(b))
  }

  /** `Blocks.format()`: each block formatted, in order. */
  function FormatBlocks(bs: seq<Block>): seq<Json> {
    seq(|bs|, i requires 0 <= i < |bs| => JObj(FormatBlock(bs[i])))
  }

  // ---- properties of the wire shapes ----

  /** The tag is never one of the envelope's own keys. */
  lemma TagIsNotReserved(c: Content)
    ensures Tag(c) != "type" && Tag(c) != "object" && Tag(c) != "children"
  {
  }

  /** A formatted block has exactly the keys "object", "type" and its tag, and its payload is an object. */
  lemma BlockEnvelope(b: Block)
    ensures FormatBlock(b).Keys == {"object", "type", Tag(b.content)}
    ensures FormatBlock(b)["object"] == JStr("block")
    ensures FormatBlock(b)["type"] == JStr(Tag(b.content))
    ensures FormatBlock(b)[Tag(b.content)].JObj?
  {
    TagIsNotReserved(b.content);
  }

  /** The payload under a block's tag. */
  function PayloadOf(b: Block): map<string, Json> {
    TagIsNotReserved(b.content);
    BlockEnvelope(b);
    FormatBlock(b)[Tag(b.content)].fields
  }

  /**
   * A `children` key appears exactly when the content class declares children and they are set;
   * the other fields are the content's dump, whatever the children.
   */
  lemma ChildrenKeyPresence(b: Block)
    requires !(b.content.BreadCrumb? || b.content.Divider?)
    ensures "children" in PayloadOf(b) <==> DeclaresChildren(b.content) && b.content.children.Children?
    ensures PayloadOf(b) - {"children"} == ContentDump(b.content)
  {
    PayloadIsContentFormat(b);
  }

  /** The payload of a block is the payload of its content's own envelope. */
  lemma PayloadIsContentFormat(b: Block)
    ensures PayloadOf(b) == FormatContent(b.content, FormatKids(b))[Tag(b.content)].fields
  {
    TagIsNotReserved(b.content);
  }

  /** The payload of a model content is its dump, plus its formatted children when they are set. */
  lemma ModelPayload(b: Block)
    requires !(b.content.BreadCrumb? || b.content.Divider?)
    ensures DeclaresChildren(b.content) && b.content.children.Children? ==>
      PayloadOf(b) == ContentDump(b.content)["children" := JArr(FormatBlocks(b.content.children.blocks))]
    ensures !(DeclaresChildren(b.content) && b.content.children.Children?) ==> PayloadOf(b) == ContentDump(b.content)
  {
    PayloadIsContentFormat(b);
    var p := PayloadOf(b);
    if DeclaresChildren(b.content) && b.content.children.Children? {
      var q := ContentDump(b.content)["children" := JArr(FormatBlocks(b.content.children.blocks))];
      assert p.Keys == q.Keys;
      assert forall k | k in p :: p[k] == q[k];
    } else {
      assert p.Keys == ContentDump(b.content).Keys;
    }
  }

  /** Leaf variants never carry a `children` key. */
  lemma LeafHasNoChildrenKey(b: Block)
    requires !DeclaresChildren(b.content)
    requires (b.content.BreadCrumb? || b.content.Divider?) ==> "children" !in b.content.dict
    ensures "children" !in PayloadOf(b)
  {
    TagIsNotReserved(b.content);
  }

  /** Set children are formatted recursively, one wire block per child block, in order. */
  lemma ChildrenInOrder(b: Block)
    requires DeclaresChildren(b.content) && b.content.children.Children?
    ensures "children" in PayloadOf(b)
    ensures PayloadOf(b)["children"] == JArr(FormatBlocks(b.content.children.blocks))
    ensures |FormatBlocks(b.content.children.blocks)| == |b.content.children.blocks|
  {
    PayloadIsContentFormat(b);
  }

  /** Dict contents are wrapped unchanged: a divider formats to `{"object": "block", "type": "divider", "divider": {}}`. */
  lemma DividerShape()
    ensures FormatBlock(Block(Divider(map[])))
         == map["object" := JStr("block"), "type" := JStr("divider"), "divider" := JObj(map[])]
  {
  }

  /**
   * A named file nests its URL under the literal key "file", even for an external file;
   * an unnamed (or empty-named) one nests it under its own type.
   */
  lemma FileContentShape(url: string, t: FileType, name: Option<string>)
    ensures name.Some? && name.value != "" ==>
      FileContentDump(url, t, name) == map["type" := JStr(FileTypeName(t)), "file" := JObj(map["url" := JStr(url)]), "name" := JStr(name.value)]
    ensures !(name.Some? && name.value != "") ==>
      FileContentDump(url, t, name).Keys == {"type", FileTypeName(t)}
  {
  }

  /** Default annotations serialise every flag as false and the colour as "default". */
  lemma DefaultAnnotationsDump()
    ensures AnnotationsDump(DefaultAnnotations)
         == map["bold" := JBool(false), "italic" := JBool(false), "strikethrough" := JBool(false),
                "underline" := JBool(false), "code" := JBool(false), "color" := JStr("default")]
  {
  }

  /** A rich-text run serialises its type and exactly the one payload key named by it. */
  lemma RunHasOnePayload(r: RichText)
    ensures "type" in RichTextDump(r) && RichTextDump(r)["type"] == JStr(RunType(r.payload))
    ensures RunType(r.payload) in RichTextDump(r)
    ensures forall k :: k in {"text", "mention", "equation"} && k != RunType(r.payload) ==> k !in RichTextDump(r)
  {
  }
}
