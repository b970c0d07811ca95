/**
 * The helpers of the Notion extension's utils.py: `make_batch`, which cuts a list
 * into overlapping windows of at most `batch_size` elements, and `block2markdown` /
 * `blocks2markdown`, which render block records fetched from Notion back as markdown.
 */
module Utils {
  import opened Wrappers
  import PyStr
  import opened Seqs

  // ---- make_batch ----

  /** The `ValueError` of `make_batch`. */
  datatype BatchError = OverlapNotLessThanBatchSize

  /** `min(a, b)`. */
  function Min(a: int, b: int): int {
    if a <= b then a else b
  }

  /** The batches the generator yields from start `st` on: the slice `[st:en]`, then, unless it reached the end, the batches from `st + batch_size - overlap`. */
  function BatchesFrom<T>(xs: seq<T>, st: nat, batchSize: int, overlap: int): seq<seq<T>>
    requires overlap < batchSize
    decreases |xs| - st
  {
    if st >= |xs| then []
    else
      var en := Min(st + batchSize, |xs|);
      [PyStr.Slice(xs, st, en)] + (if en == |xs| then [] else BatchesFrom(xs, st + batchSize - overlap, batchSize, overlap))
  }

  /** Everything `make_batch` yields, or its error when the overlap is not below the batch size. */
  function Batches<T>(xs: seq<T>, batchSize: int, overlap: int): (r: Result<seq<seq<T>>, BatchError>)
    ensures r.Err? <==> overlap >= batchSize
  {
    if overlap >= batchSize then Err(OverlapNotLessThanBatchSize) else Ok(BatchesFrom(xs, 0, batchSize, overlap))
  }

  /** One step of the generator: the window at `st`, then the batches from the next start unless the window reached the end. */
  lemma BatchesFromStep<T>(xs: seq<T>, st: nat, batchSize: int, overlap: int)
    requires overlap < batchSize && st < |xs|
    ensures var en := Min(st + batchSize, |xs|);
      BatchesFrom(xs, st, batchSize, overlap)
      == [PyStr.Slice(xs, st, en)] + (if en == |xs| then [] else BatchesFrom(xs, st + batchSize - overlap, batchSize, overlap))
  {
  }

  /** `make_batch(iterable, batch_size, overlap)`, with the yielded batches collected in order. */
  method MakeBatch<T>(xs: seq<T>, batchSize: int, overlap: int) returns (r: Result<seq<seq<T>>, BatchError>)
    ensures r == Batches(xs, batchSize, overlap)
  {
    if overlap >= batchSize {
      return Err(OverlapNotLessThanBatchSize);
    }
    var length := |xs|;
    var batches: seq<seq<T>> := [];
    var st: nat := 0;
    while st < length
      invariant batches + BatchesFrom(xs, st, batchSize, overlap) == BatchesFrom(xs, 0, batchSize, overlap)
      decreases length - st
    {
      var en := Min(st + batchSize, length);
      var batch := PyStr.Slice(xs, st, en);
      BatchesFromStep(xs, st, batchSize, overlap);
      if en == length {
        assert batches + [batch] == BatchesFrom(xs, 0, batchSize, overlap);
        return Ok(batches + [batch]);
      }
      var next := st + batchSize - overlap;
      assert batches + BatchesFrom(xs, st, batchSize, overlap) == (batches + [batch]) + BatchesFrom(xs, next, batchSize, overlap);
      batches := batches + [batch];
      st := next;
    }
    assert batches + [] == batches;
    r := Ok(batches);
  }

  /** An empty list gives no batches. */
  lemma NoBatchesOfEmpty<T>(xs: seq<T>, batchSize: int, overlap: int)
    requires xs == [] && overlap < batchSize
    ensures Batches(xs, batchSize, overlap) == Ok([])
  {
  }

  /** The window at a start inside the list, when the batch size is positive. */
  lemma Window<T>(xs: seq<T>, st: nat, batchSize: int)
    requires 0 < batchSize && st < |xs|
    ensures var en := Min(st + batchSize, |xs|);
      st < en <= |xs| && en - st <= batchSize && PyStr.Slice(xs, st, en) == xs[st..en]
  {
  }

  /** The start of batch `k` from start `st`, each batch starting `step` after the one before. */
  function StartOf(st: int, step: int, k: nat): int
    decreases k
  {
    if k == 0 then st else StartOf(st + step, step, k - 1)
  }

  /** Batch `k` starts `k` steps after the first. */
  lemma {:induction false} StartOfIs(st: int, step: int, k: nat)
    ensures StartOf(st, step, k) == st + k * step
    decreases k
  {
    if k > 0 {
      StartOfIs(st + step, step, k - 1);
      assert (k - 1) * step + step == k * step;
    }
  }

  /** The first batch, when there is one, is the window at the start. */
  lemma BatchHead<T>(xs: seq<T>, st: nat, batchSize: int, overlap: int)
    requires 0 <= overlap < batchSize && 0 < |BatchesFrom(xs, st, batchSize, overlap)|
    ensures st < |xs| && BatchesFrom(xs, st, batchSize, overlap)[0] == xs[st..Min(st + batchSize, |xs|)]
  {
    BatchesFromStep(xs, st, batchSize, overlap);
    Window(xs, st, batchSize);
  }

  /** Batch `k > 0` from `st` is batch `k - 1` from the next start. */
  lemma BatchTail<T>(xs: seq<T>, st: nat, batchSize: int, overlap: int, k: nat)
    requires 0 <= overlap < batchSize && 0 < k < |BatchesFrom(xs, st, batchSize, overlap)|
    ensures st < |xs| && k - 1 < |BatchesFrom(xs, st + batchSize - overlap, batchSize, overlap)|
    ensures BatchesFrom(xs, st, batchSize, overlap)[k] == BatchesFrom(xs, st + batchSize - overlap, batchSize, overlap)[k - 1]
  {
    BatchesFromStep(xs, st, batchSize, overlap);
  }

  /** The batches from `k` on are the batches from the start `k` steps later. */
  lemma {:induction false} BatchIndex<T>(xs: seq<T>, st: nat, batchSize: int, overlap: int, k: nat)
    requires 0 <= overlap < batchSize
    requires k < |BatchesFrom(xs, st, batchSize, overlap)|
    ensures var s := StartOf(st, batchSize - overlap, k);
      0 <= s && BatchesFrom(xs, st, batchSize, overlap)[k..] == BatchesFrom(xs, s, batchSize, overlap)
    decreases k
  {
    if k > 0 {
      var next := st + batchSize - overlap;
      var bs := BatchesFrom(xs, st, batchSize, overlap);
      BatchesFromStep(xs, st, batchSize, overlap);
      assert bs[1..] == BatchesFrom(xs, next, batchSize, overlap);
      BatchIndex(xs, next, batchSize, overlap, k - 1);
      assert bs[k..] == bs[1..][k - 1..];
    }
  }

  /** Batch `k` from start `st` is the window of at most `batch_size` elements at its start. */
  lemma BatchWindow<T>(xs: seq<T>, st: nat, batchSize: int, overlap: int, k: nat)
    requires 0 <= overlap < batchSize
    requires k < |BatchesFrom(xs, st, batchSize, overlap)|
    ensures var s := StartOf(st, batchSize - overlap, k);
      0 <= s < |xs| && BatchesFrom(xs, st, batchSize, overlap)[k] == xs[s..Min(s + batchSize, |xs|)]
    ensures 1 <= |BatchesFrom(xs, st, batchSize, overlap)[k]| <= batchSize
  {
    BatchIndex(xs, st, batchSize, overlap, k);
    var s := StartOf(st, batchSize - overlap, k);
    assert BatchesFrom(xs, st, batchSize, overlap)[k] == BatchesFrom(xs, st, batchSize, overlap)[k..][0];
    BatchHead(xs, s, batchSize, overlap);
  }

  /**
   * Every batch of `make_batch` is a window of at most `batch_size` consecutive elements,
   * the `k`-th starting at `k * (batch_size - overlap)`.
   */
  lemma BatchShape<T>(xs: seq<T>, batchSize: int, overlap: int, k: nat)
    requires 0 <= overlap < batchSize && Batches(xs, batchSize, overlap).Ok?
    requires k < |Batches(xs, batchSize, overlap).value|
    ensures var s := StartOf(0, batchSize - overlap, k);
      s == k * (batchSize - overlap) && 0 <= s < |xs| && Batches(xs, batchSize, overlap).value[k] == xs[s..Min(s + batchSize, |xs|)]
    ensures 1 <= |Batches(xs, batchSize, overlap).value[k]| <= batchSize
  {
    BatchWindow(xs, 0, batchSize, overlap, k);
    StartOfIs(0, batchSize - overlap, k);
  }

  /** The batches from a start inside the list end with one that reaches the end of the list. */
  lemma {:induction false} LastBatchFromEnds<T>(xs: seq<T>, st: nat, batchSize: int, overlap: int)
    requires 0 <= overlap < batchSize && st < |xs|
    ensures var bs := BatchesFrom(xs, st, batchSize, overlap);
      bs != [] && exists s :: st <= s < |xs| && bs[|bs| - 1] == xs[s..]
    decreases |xs| - st
  {
    var en := Min(st + batchSize, |xs|);
    var bs := BatchesFrom(xs, st, batchSize, overlap);
    BatchesFromStep(xs, st, batchSize, overlap);
    Window(xs, st, batchSize);
    if en == |xs| {
      assert bs == [xs[st..en]] + [];
      assert xs[st..en] == xs[st..];
      assert bs == [xs[st..]];
      assert bs[|bs| - 1] == xs[st..];
    } else {
      var rest := BatchesFrom(xs, st + batchSize - overlap, batchSize, overlap);
      LastBatchFromEnds(xs, st + batchSize - overlap, batchSize, overlap);
      assert bs == [xs[st..en]] + rest;
      assert bs[|bs| - 1] == rest[|rest| - 1];
    }
  }

  /** With a non-negative overlap the last batch always ends at the end of the list. */
  lemma LastBatchEnds<T>(xs: seq<T>, batchSize: int, overlap: int)
    requires 0 <= overlap < batchSize && xs != []
    ensures var bs := Batches(xs, batchSize, overlap).value;
      bs != [] && exists s :: 0 <= s < |xs| && bs[|bs| - 1] == xs[s..]
  {
    LastBatchFromEnds(xs, 0, batchSize, overlap);
  }

  /** Each batch with its first `overlap` elements dropped, concatenated. */
  function DropOverlaps<T>(bs: seq<seq<T>>, overlap: nat): seq<T> {
    if bs == [] then [] else bs[0][Min(overlap, |bs[0]|)..] + DropOverlaps(bs[1..], overlap)
  }

  /** Dropping a prefix of the first part of a concatenation drops it from the whole. */
  lemma DropFromFirst<T>(a: seq<T>, c: seq<T>, n: nat)
    requires n <= |a|
    ensures (a + c)[n..] == a[n..] + c
  {
  }

  /** The later batches without their overlap continue the list where the first batch ended. */
  lemma DropOverlapsRest<T>(xs: seq<T>, st': nat, en: nat, overlap: nat, rs: seq<seq<T>>)
    requires en == st' + overlap <= |xs| && rs != [] && |rs[0]| >= overlap
    requires rs[0] + DropOverlaps(rs[1..], overlap) == xs[st'..]
    ensures DropOverlaps(rs, overlap) == xs[en..]
  {
    DropFromFirst(rs[0], DropOverlaps(rs[1..], overlap), overlap);
    assert xs[st'..][overlap..] == xs[en..];
  }

  /** From a start inside the list, the first batch followed by the later batches without their overlap is the rest of the list. */
  lemma {:induction false} ReassembleFrom<T>(xs: seq<T>, st: nat, batchSize: int, overlap: nat)
    requires overlap < batchSize && st < |xs|
    ensures var bs := BatchesFrom(xs, st, batchSize, overlap);
      bs != [] && bs[0] == xs[st..Min(st + batchSize, |xs|)] && bs[0] + DropOverlaps(bs[1..], overlap) == xs[st..]
    decreases |xs| - st
  {
    var en := Min(st + batchSize, |xs|);
    var bs := BatchesFrom(xs, st, batchSize, overlap);
    BatchesFromStep(xs, st, batchSize, overlap);
    Window(xs, st, batchSize);
    assert bs[0] == xs[st..en];
    if en == |xs| {
      assert bs == [xs[st..en]] + [];
      assert bs[1..] == [];
    } else {
      var st' := st + batchSize - overlap;
      assert DropOverlaps(bs[1..], overlap) == xs[en..] by {
        var rs := BatchesFrom(xs, st', batchSize, overlap);
        ReassembleFrom(xs, st', batchSize, overlap);
        Window(xs, st', batchSize);
        assert bs == [xs[st..en]] + rs;
        assert bs[1..] == rs;
        DropOverlapsRest(xs, st', en, overlap, rs);
      }
      assert xs[st..en] + xs[en..] == xs[st..];
    }
  }

  /** With `0 <= overlap < batch_size`, the first batch followed by every later batch minus its first `overlap` elements gives back the list. */
  lemma Reassemble<T>(xs: seq<T>, batchSize: int, overlap: nat)
    requires overlap < batchSize && xs != []
    ensures var bs := Batches(xs, batchSize, overlap).value;
      bs != [] && bs[0] + DropOverlaps(bs[1..], overlap) == xs
  {
    ReassembleFrom(xs, 0, batchSize, overlap);
  }

  /** The concatenation of a list of lists. */
  function Flatten<T>(bs: seq<seq<T>>): seq<T> {
    if bs == [] then [] else bs[0] + Flatten(bs[1..])
  }

  lemma {:induction false} DropNoOverlap<T>(bs: seq<seq<T>>)
    ensures DropOverlaps(bs, 0) == Flatten(bs)
  {
    if bs != [] {
      DropNoOverlap(bs[1..]);
    }
  }

  /** Without overlap the batches partition the list: their concatenation is the list. */
  lemma BatchesPartition<T>(xs: seq<T>, batchSize: int)
    requires 0 < batchSize
    ensures Flatten(Batches(xs, batchSize, 0).value) == xs
  {
    if xs != [] {
      Reassemble(xs, batchSize, 0);
      var bs := Batches(xs, batchSize, 0).value;
      DropNoOverlap(bs[1..]);
      assert bs == [bs[0]] + bs[1..];
    }
  }

  // ---- block2markdown ----

  /** The `mention` of a rich text item, by its `type`. */
  datatype Mention = LinkPreview(url: string) | PageMention(id: string) | OtherMention(mentionType: string)

  /** The `type` of a rich text item: `text`, `mention` (with its mention), or anything else. */
  datatype ItemKind = TextItem | MentionItem(mention: Mention) | OtherItem

  /** A rich text item of a fetched block: its type and its `plain_text`. */
  datatype TextObject = TextObject(kind: ItemKind, plainText: string)

  /** The `type` of a fetched block: the types `block2markdown` renders, and the others by name. */
  datatype BlockType =
    | Heading1 | Heading2 | Heading3 | Paragraph | BulletedListItem | NumberedListItem
    | ToDo | Toggle | Bookmark | Code | Equation | Divider | Unrendered(name: string)

  /**
   * A block as Notion returns it, reduced to the fields `block2markdown` reads: its
   * `type`, the `rich_text` of its type's payload, `checked` of a to-do, `language` of a
   * code block, `url` of a bookmark, `expression` of an equation, and its `children`.
   */
  datatype BlockRecord = BlockRecord(kind: BlockType, richText: seq<TextObject>, checked: bool, language: string,
                                     url: string, expression: string, children: seq<BlockRecord>)

  /** The `UnboundLocalError` a code block without rich text raises: `lang` was never assigned. */
  datatype RenderError = UnboundLanguage

  /** `"  " * level`. */
  function Indent(level: nat): (r: string)
    ensures |r| == 2 * level && forall i :: 0 <= i < |r| ==> r[i] == ' '
  {
    if level == 0 then "" else "  " + Indent(level - 1)
  }

  /** The `plain_text` of the items, concatenated. */
  function PlainText(items: seq<TextObject>): string {
    if items == [] then "" else PlainText(items[..|items| - 1]) + items[|items| - 1].plainText
  }

  /** What a paragraph contributes for one item: a text item's plain text, a link preview or page mention as a link line, nothing for the rest. */
  function ItemMarkdown(item: TextObject): string {
    match item.kind
    case TextItem => item.plainText
    case MentionItem(LinkPreview(url)) => "[link_preview](" + url + ")\n"
    case MentionItem(PageMention(id)) => "[page_mention:" + id + "]\n"
    case _ => ""
  }

  /** A paragraph's items rendered in order. */
  function ParagraphText(items: seq<TextObject>): string {
    if items == [] then "" else ParagraphText(items[..|items| - 1]) + ItemMarkdown(items[|items| - 1])
  }

  /** The markdown line of a to-do item. */
  function TodoLine(checked: bool, text: string): (r: string)
    ensures |r| == |text| + 7
    ensures r[..6] == (if checked then "- [x] " else "- [ ] ") && r[6..|r| - 1] == text && r[|r| - 1] == '\n'
  {
    (if checked then "- [x] " else "- [ ] ") + text + "\n"
  }

  /** The to-do branch as written: inside the loop over the items, one line for every item, each with the text accumulated so far. */
  function TodoAsWritten(checked: bool, items: seq<TextObject>): string {
    if items == [] then "" else TodoAsWritten(checked, items[..|items| - 1]) + TodoLine(checked, PlainText(items))
  }

  /** A to-do with a single item renders the same line either way. */
  lemma TodoAsWrittenSingle(checked: bool, items: seq<TextObject>)
    requires |items| == 1
    ensures TodoAsWritten(checked, items) == TodoLine(checked, PlainText(items))
  {
    assert items[..0] == [];
  }

  /** With two or more items the written loop emits the first item's line before the full one, so the output is not the single to-do line. */
  lemma {:induction false} TodoAsWrittenRepeats(checked: bool, items: seq<TextObject>)
    requires |items| >= 2
    ensures TodoAsWritten(checked, items) != TodoLine(checked, PlainText(items))
    ensures |TodoAsWritten(checked, items)| > |TodoLine(checked, PlainText(items))|
  {
    var init := items[..|items| - 1];
    assert |TodoAsWritten(checked, init)| > 0 by {
      assert init != [];
    }
  }

  /** The concrete case: a to-do whose text comes in the two items `a` and `b`. */
  lemma TodoTwoItems(a: TextObject, b: TextObject)
    requires a == TextObject(TextItem, "a") && b == TextObject(TextItem, "b")
    ensures TodoAsWritten(false, [a, b]) == "- [ ] a\n- [ ] ab\n"
    ensures TodoLine(false, PlainText([a, b])) == "- [ ] ab\n"
  {
    assert [a, b][..1] == [a];
    assert [a][..0] == [];
    assert PlainText([a]) == "a";
    assert PlainText([a, b]) == "ab";
    assert TodoAsWritten(false, [a]) == "- [ ] a\n";
  }

  /** The heading marker of `heading_1` to `heading_3`. */
  function HeadingMarker(kind: BlockType): string {
    if kind == Heading1 then "# " else if kind == Heading2 then "## " else "### "
  }

  predicate IsHeading(kind: BlockType) {
    kind == Heading1 || kind == Heading2 || kind == Heading3
  }

  /** What the type branch of `block2markdown` appends to the indentation; a toggle with text instead replaces the indentation (`Head`). */
  function Own(b: BlockRecord): Result<string, RenderError> {
    var rt := b.richText;
    match b.kind
    case Heading1 | Heading2 | Heading3 => Ok(if rt != [] then HeadingMarker(b.kind) + PlainText(rt) else "")
    case Paragraph => Ok(if rt != [] then ParagraphText(rt) + "\n" else "")
    case BulletedListItem => Ok(if rt != [] then "- " + PlainText(rt) + "\n" else "")
    case NumberedListItem => Ok(if rt != [] then "1. " + PlainText(rt) + "\n" else "")
    case ToDo => Ok(if rt != [] then TodoLine(b.checked, PlainText(rt)) else "")
    case Toggle => Ok(if rt != [] then "<details>\n<summary>" + PlainText(rt) + "</summary>\n" else "")
    case Bookmark => Ok("[bookmark](" + b.url + ")\n")
    case Code => if rt != [] then Ok("```" + b.language + "\n" + PlainText(rt) + "\n```\n") else Err(UnboundLanguage)
    case Equation => Ok("$" + b.expression + "$\n")
    case Divider => Ok("---\n")
    case Unrendered(_) => Ok("")
  }

  /** A toggle with text, whose branch strips the indentation before opening its `<details>`. */
  predicate StripsIndent(b: BlockRecord) {
    b.kind == Toggle && b.richText != []
  }

  /** `markdown` after the type branch of `block2markdown`: the indentation and what the block's own type renders to. */
  function Head(b: BlockRecord, level: nat): Result<string, RenderError> {
    var indent := Indent(level);
    var own :- Own(b);
    Ok(if StripsIndent(b) then PyStr.StripWs(indent) + own else indent + own)
  }

  /** What follows the children: the toggle's closing tag, and the blank line after a top-level block. */
  function Closing(b: BlockRecord, level: nat): string {
    (if b.kind == Toggle then "</details>\n" else "") + (if level == 0 then "\n" else "")
  }

  /** `block2markdown(block, level)`: the block's own markdown, its children one level deeper, then the closing. */
  function Markdown(b: BlockRecord, level: nat): Result<string, RenderError>
    decreases b, 1
  {
    var head :- Head(b, level);
    var kids :- MarkdownAll(b.children, level + 1);
    Ok(head + kids + Closing(b, level))
  }

  /** The markdown of a list of blocks at one level, concatenated in order; the first failure stops the rendering. */
  function MarkdownAll(bs: seq<BlockRecord>, level: nat): Result<string, RenderError>
    decreases bs, 0
  {
    if bs == [] then Ok("")
    else
      var init :- MarkdownAll(bs[..|bs| - 1], level);
      var last :- Markdown(bs[|bs| - 1], level);
      Ok(init + last)
  }

  /** `blocks2markdown(blocks)`: every block rendered at the top level, in order. */
  function Document(bs: seq<BlockRecord>): Result<string, RenderError> {
    MarkdownAll(bs, 0)
  }

  // ---- what the rendering promises ----

  /** A tree renders without error exactly when none of its code blocks lacks rich text. */
  predicate Renderable(b: BlockRecord)
    decreases b, 1
  {
    !(b.kind == Code && b.richText == []) && AllRenderable(b.children)
  }

  predicate AllRenderable(bs: seq<BlockRecord>)
    decreases bs, 0
  {
    forall i :: 0 <= i < |bs| ==> Renderable(bs[i])
  }

  lemma {:induction false} MarkdownOkIff(b: BlockRecord, level: nat)
    ensures Markdown(b, level).Ok? <==> Renderable(b)
    decreases b, 1
  {
    MarkdownAllOkIff(b.children, level + 1);
  }

  lemma {:induction false} MarkdownAllOkIff(bs: seq<BlockRecord>, level: nat)
    ensures MarkdownAll(bs, level).Ok? <==> AllRenderable(bs)
    decreases bs, 0
  {
    if bs != [] {
      MarkdownAllOkIff(bs[..|bs| - 1], level);
      MarkdownOkIff(bs[|bs| - 1], level);
      MarkdownAllSnoc(bs, level);
      AllRenderableSnoc(bs);
    }
  }

  /** A list is renderable exactly when all but its last block are and the last one is. */
  lemma AllRenderableSnoc(bs: seq<BlockRecord>)
    requires bs != []
    ensures AllRenderable(bs) <==> AllRenderable(bs[..|bs| - 1]) && Renderable(bs[|bs| - 1])
  {
    var init := bs[..|bs| - 1];
    assert forall i :: 0 <= i < |init| ==> init[i] == bs[i];
  }

  /** The markdown of a list rendered block by block. */
  function Rendered(bs: seq<BlockRecord>, level: nat): seq<string>
    requires AllRenderable(bs)
  {
    if bs == [] then []
    else
      AllRenderableSnoc(bs);
      MarkdownOkIff(bs[|bs| - 1], level);
      Rendered(bs[..|bs| - 1], level) + [Markdown(bs[|bs| - 1], level).value]
  }

  /** The `i`-th rendered piece is the markdown of the `i`-th block. */
  lemma {:induction false} RenderedAt(bs: seq<BlockRecord>, level: nat, i: nat)
    requires AllRenderable(bs) && i < |bs|
    ensures |Rendered(bs, level)| == |bs| && Markdown(bs[i], level).Ok? && Rendered(bs, level)[i] == Markdown(bs[i], level).value
  {
    var init := bs[..|bs| - 1];
    AllRenderableSnoc(bs);
    MarkdownOkIff(bs[|bs| - 1], level);
    if i < |init| {
      RenderedAt(init, level, i);
      assert init[i] == bs[i];
    } else {
      assert i == |bs| - 1;
      RenderedLength(init, level);
    }
  }

  lemma {:induction false} RenderedLength(bs: seq<BlockRecord>, level: nat)
    requires AllRenderable(bs)
    ensures |Rendered(bs, level)| == |bs|
  {
    if bs != [] {
      AllRenderableSnoc(bs);
      RenderedLength(bs[..|bs| - 1], level);
    }
  }

  /** A renderable list renders to the concatenation of its blocks' markdown, in order. */
  lemma {:induction false} MarkdownAllConcat(bs: seq<BlockRecord>, level: nat)
    requires AllRenderable(bs)
    ensures MarkdownAll(bs, level) == Ok(PyStr.Concat(Rendered(bs, level)))
  {
    if bs != [] {
      var init := bs[..|bs| - 1];
      var last := bs[|bs| - 1];
      AllRenderableSnoc(bs);
      MarkdownOkIff(last, level);
      MarkdownAllConcat(init, level);
      MarkdownAllSnoc(bs, level);
      ConcatSnoc(Rendered(init, level), Markdown(last, level).value);
    }
  }

  /** The list rendering unfolded once: the rendering of all but the last block, then the last. */
  lemma MarkdownAllSnoc(bs: seq<BlockRecord>, level: nat)
    requires bs != []
    ensures var init := MarkdownAll(bs[..|bs| - 1], level);
      var last := Markdown(bs[|bs| - 1], level);
      MarkdownAll(bs, level) == if init.Err? then init else if last.Err? then Err(last.error) else Ok(init.value + last.value)
  {
  }

  lemma {:induction false} ConcatSnoc(parts: seq<string>, s: string)
    ensures PyStr.Concat(parts + [s]) == PyStr.Concat(parts) + s
  {
    if parts == [] {
      assert [s][1..] == [];
    } else {
      assert (parts + [s])[1..] == parts[1..] + [s];
      ConcatSnoc(parts[1..], s);
    }
  }

  /** The results of a sequence of renderings joined in order; the first failure stops the join. */
  function JoinAll(rs: seq<Result<string, RenderError>>): Result<string, RenderError> {
    if rs == [] then Ok("")
    else
      var init :- JoinAll(rs[..|rs| - 1]);
      var last :- rs[|rs| - 1];
      Ok(init + last)
  }

  /** Joining two runs of successful results is joining each and concatenating. */
  lemma {:induction false} JoinAllAppend(r1: seq<Result<string, RenderError>>, r2: seq<Result<string, RenderError>>)
    requires JoinAll(r1).Ok? && JoinAll(r2).Ok?
    ensures JoinAll(r1 + r2) == Ok(JoinAll(r1).value + JoinAll(r2).value)
    decreases |r2|
  {
    if r2 == [] {
      assert r1 + r2 == r1;
      assert JoinAll(r1).value + "" == JoinAll(r1).value;
    } else {
      var init := r2[..|r2| - 1];
      JoinAllAppend(r1, init);
      assert (r1 + r2)[..|r1 + r2| - 1] == r1 + init;
      assert (r1 + r2)[|r1 + r2| - 1] == r2[|r2| - 1];
      var x, y, z := JoinAll(r1).value, JoinAll(init).value, r2[|r2| - 1].value;
      assert (x + y) + z == x + (y + z);
    }
  }

  /** The rendering of each block of a list, one result per block. */
  function Pieces(bs: seq<BlockRecord>, level: nat): (r: seq<Result<string, RenderError>>)
    ensures |r| == |bs|
    ensures forall i :: 0 <= i < |bs| ==> r[i] == Markdown(bs[i], level)
  {
    MapSeq((b: BlockRecord) => Markdown(b, level), bs)
  }

  /** A list renders to its blocks' renderings, joined in order. */
  lemma {:induction false} MarkdownAllJoin(bs: seq<BlockRecord>, level: nat)
    ensures MarkdownAll(bs, level) == JoinAll(Pieces(bs, level))
  {
    if bs != [] {
      var init := bs[..|bs| - 1];
      MarkdownAllJoin(init, level);
      var p, q := Pieces(bs, level), Pieces(init, level);
      forall i | 0 <= i < |init|
        ensures p[..|p| - 1][i] == q[i]
      {
        assert init[i] == bs[i];
      }
      assert p[..|p| - 1] == q;
      assert p[|p| - 1] == Markdown(bs[|bs| - 1], level);
      MarkdownAllSnoc(bs, level);
    }
  }

  /** Rendering two documents one after the other is rendering their concatenation. */
  lemma DocumentAppend(a: seq<BlockRecord>, b: seq<BlockRecord>)
    requires Document(a).Ok? && Document(b).Ok?
    ensures Document(a + b) == Ok(Document(a).value + Document(b).value)
  {
    MarkdownAllJoin(a, 0);
    MarkdownAllJoin(b, 0);
    MarkdownAllJoin(a + b, 0);
    MapSeqAppend((x: BlockRecord) => Markdown(x, 0), a, b);
    JoinAllAppend(Pieces(a, 0), Pieces(b, 0));
  }

  /** Left-stripping a run of blanks leaves nothing. */
  lemma {:induction false} LStripBlanks(s: string)
    requires forall i :: 0 <= i < |s| ==> s[i] == ' '
    ensures PyStr.LStrip(s, PyStr.Whitespace) == ""
  {
    if s != [] {
      LStripBlanks(s[1..]);
    }
  }

  /** Stripping an indentation leaves nothing. */
  lemma StripIndent(level: nat)
    ensures PyStr.StripWs(Indent(level)) == ""
  {
    LStripBlanks(Indent(level));
  }

  /** A rendered block is its head, its children's markdown and its closing. */
  lemma MarkdownSplit(b: BlockRecord, level: nat)
    requires Markdown(b, level).Ok?
    ensures Head(b, level).Ok? && MarkdownAll(b.children, level + 1).Ok?
    ensures Markdown(b, level).value == Head(b, level).value + MarkdownAll(b.children, level + 1).value + Closing(b, level)
  {
  }

  /** A toggle with text starts unindented, with its `<details>` and `<summary>`, and ends with `</details>` (and the blank line of a top-level block). */
  lemma ToggleFrame(b: BlockRecord, level: nat)
    requires Markdown(b, level).Ok? && StripsIndent(b)
    ensures var r := Markdown(b, level).value;
      var open := "<details>\n<summary>" + PlainText(b.richText) + "</summary>\n";
      var close := "</details>\n" + (if level == 0 then "\n" else "");
      |open| + |close| <= |r| && r[..|open|] == open && r[|r| - |close|..] == close
  {
    var open := "<details>\n<summary>" + PlainText(b.richText) + "</summary>\n";
    var close := "</details>\n" + (if level == 0 then "\n" else "");
    MarkdownSplit(b, level);
    var kids := MarkdownAll(b.children, level + 1).value;
    assert Head(b, level).value == open by {
      StripIndent(level);
    }
    assert Closing(b, level) == close;
    PrefixSuffix(open, kids, close);
  }

  lemma PrefixSuffix(a: string, m: string, c: string)
    ensures var r := a + m + c; |a| + |c| <= |r| && r[..|a|] == a && r[|r| - |c|..] == c
  {
  }

  /** Every block but a toggle with text starts with its indentation. */
  lemma IndentFrame(b: BlockRecord, level: nat)
    requires Markdown(b, level).Ok? && !StripsIndent(b)
    ensures var r := Markdown(b, level).value; |Indent(level)| <= |r| && r[..|Indent(level)|] == Indent(level)
  {
    MarkdownSplit(b, level);
    HeadIndented(b, level);
    IndentPrefix(Indent(level), Own(b).value, MarkdownAll(b.children, level + 1).value, Closing(b, level), Markdown(b, level).value);
  }

  lemma HeadIndented(b: BlockRecord, level: nat)
    requires Head(b, level).Ok? && !StripsIndent(b)
    ensures Own(b).Ok? && Head(b, level).value == Indent(level) + Own(b).value
  {
  }

  lemma IndentPrefix(indent: string, own: string, kids: string, close: string, r: string)
    requires r == indent + own + kids + close
    ensures |indent| <= |r| && r[..|indent|] == indent
  {
    assert r == indent + (own + kids + close);
  }

  /** A top-level block's markdown ends with a newline. */
  lemma TopLevelEndsWithNewline(b: BlockRecord)
    requires Markdown(b, 0).Ok?
    ensures var r := Markdown(b, 0).value; r != [] && r[|r| - 1] == '\n'
  {
    MarkdownSplit(b, 0);
  }

  /** The children come right after the block's own markdown, one level deeper and in order. */
  lemma ChildrenFollow(b: BlockRecord, level: nat)
    requires Renderable(b)
    ensures var r := Markdown(b, level);
      var kids := PyStr.Concat(Rendered(b.children, level + 1));
      r.Ok? && Head(b, level).Ok? && |Head(b, level).value| + |kids| <= |r.value|
      && r.value[..|Head(b, level).value| + |kids|] == Head(b, level).value + kids
  {
    MarkdownOkIff(b, level);
    MarkdownAllConcat(b.children, level + 1);
  }

  /** The lines `block2markdown` gives the block types with a fixed marker: headings with their `#`s, numbered items always with `1. `, a divider as `---`. */
  lemma HeadMarkers(b: BlockRecord, level: nat)
    ensures IsHeading(b.kind) && b.richText != [] ==>
      Head(b, level) == Ok(Indent(level) + (HeadingMarker(b.kind) + PlainText(b.richText)))
    ensures b.kind == NumberedListItem && b.richText != [] ==>
      Head(b, level) == Ok(Indent(level) + ("1. " + PlainText(b.richText) + "\n"))
    ensures b.kind == Divider ==> Head(b, level) == Ok(Indent(level) + "---\n")
  {
  }

  // ---- the loops ----

  /** The inner `for text_obj in rich_text: text += text_obj["plain_text"]` loop. */
  method JoinPlainText(items: seq<TextObject>) returns (text: string)
    ensures text == PlainText(items)
  {
    text := "";
    for i := 0 to |items|
      invariant text == PlainText(items[..i])
    {
      assert items[..i + 1][..i] == items[..i];
      text := text + items[i].plainText;
    }
    assert items[..|items|] == items;
  }

  /** The paragraph loop over the items. */
  method JoinParagraph(items: seq<TextObject>) returns (text: string)
    ensures text == ParagraphText(items)
  {
    text := "";
    for i := 0 to |items|
      invariant text == ParagraphText(items[..i])
    {
      assert items[..i + 1][..i] == items[..i];
      match items[i].kind {
        case TextItem =>
          text := text + items[i].plainText;
        case MentionItem(m) =>
          match m {
            case LinkPreview(url) => text := text + "[link_preview](" + url + ")\n";
            case PageMention(id) => text := text + "[page_mention:" + id + "]\n";
            case OtherMention(_) =>
          }
        case OtherItem =>
      }
    }
    assert items[..|items|] == items;
  }

  /** The type branch of `block2markdown`. */
  method RenderHead(b: BlockRecord, level: nat) returns (r: Result<string, RenderError>)
    ensures r == Head(b, level)
  {
    var markdown := Indent(level);
    var rt := b.richText;
    assert markdown + "" == markdown;
    match b.kind {
      case Heading1 | Heading2 | Heading3 =>
        if rt != [] {
          var text := JoinPlainText(rt);
          markdown := markdown + (HeadingMarker(b.kind) + text);
        }
      case Paragraph =>
        if rt != [] {
          var text := JoinParagraph(rt);
          markdown := markdown + (text + "\n");
        }
      case BulletedListItem =>
        if rt != [] {
          var text := JoinPlainText(rt);
          markdown := markdown + ("- " + text + "\n");
        }
      case NumberedListItem =>
        if rt != [] {
          var text := JoinPlainText(rt);
          markdown := markdown + ("1. " + text + "\n");
        }
      case ToDo =>
        if rt != [] {
          var text := JoinPlainText(rt);
          markdown := markdown + TodoLine(b.checked, text);
        }
      case Toggle =>
        if rt != [] {
          var text := JoinPlainText(rt);
          markdown := PyStr.StripWs(markdown);
          markdown := markdown + ("<details>\n<summary>" + text + "</summary>\n");
        }
      case Bookmark =>
        markdown := markdown + ("[bookmark](" + b.url + ")\n");
      case Code =>
        if rt == [] {
          return Err(UnboundLanguage);
        }
        var text := JoinPlainText(rt);
        markdown := markdown + ("```" + b.language + "\n" + text + "\n```\n");
      case Equation =>
        markdown := markdown + ("$" + b.expression + "$\n");
      case Divider =>
        markdown := markdown + "---\n";
      case Unrendered(_) =>
    }
    r := Ok(markdown);
  }

  /** One more rendered block after a rendered prefix. */
  lemma MarkdownAllStep(bs: seq<BlockRecord>, i: nat, level: nat, acc: string, m: string)
    requires i < |bs| && MarkdownAll(bs[..i], level) == Ok(acc) && Markdown(bs[i], level) == Ok(m)
    ensures MarkdownAll(bs[..i + 1], level) == Ok(acc + m)
  {
    assert bs[..i + 1][..i] == bs[..i];
  }

  /** A failing block after a rendered prefix makes the whole list fail with its error. */
  lemma MarkdownAllStops(bs: seq<BlockRecord>, i: nat, level: nat, acc: string)
    requires i < |bs| && MarkdownAll(bs[..i], level) == Ok(acc) && Markdown(bs[i], level).Err?
    ensures MarkdownAll(bs, level) == Err(Markdown(bs[i], level).error)
  {
    assert bs[..i + 1][..i] == bs[..i];
    MarkdownAllPrefixErr(bs, i + 1, level);
  }

  /** A failing prefix makes the whole list fail with the same error. */
  lemma {:induction false} MarkdownAllPrefixErr(bs: seq<BlockRecord>, k: nat, level: nat)
    requires k <= |bs| && MarkdownAll(bs[..k], level).Err?
    ensures MarkdownAll(bs, level) == Err(MarkdownAll(bs[..k], level).error)
    decreases |bs| - k
  {
    if k < |bs| {
      assert bs[..k + 1][..k] == bs[..k];
      MarkdownAllPrefixErr(bs, k + 1, level);
    } else {
      assert bs[..k] == bs;
    }
  }

  /** `block2markdown(block, level)`. */
  method Block2Markdown(b: BlockRecord, level: nat) returns (r: Result<string, RenderError>)
    ensures r == Markdown(b, level)
    decreases b
  {
    var markdown :- RenderHead(b, level);
    var kids := "";
    for i := 0 to |b.children|
      invariant MarkdownAll(b.children[..i], level + 1) == Ok(kids)
    {
      var child := Block2Markdown(b.children[i], level + 1);
      if child.Err? {
        MarkdownAllStops(b.children, i, level + 1, kids);
        return Err(child.error);
      }
      MarkdownAllStep(b.children, i, level + 1, kids, child.value);
      kids := kids + child.value;
    }
    assert b.children[..|b.children|] == b.children;
    var closing := if b.kind == Toggle then "</details>\n" else "";
    if level == 0 {
      closing := closing + "\n";
    } else {
      assert closing + "" == closing;
    }
    r := Ok(markdown + kids + closing);
  }

  /** `blocks2markdown(blocks)`. */
  method Blocks2Markdown(blocks: seq<BlockRecord>) returns (r: Result<string, RenderError>)
    ensures r == Document(blocks)
  {
    var markdown := "";
    for i := 0 to |blocks|
      invariant MarkdownAll(blocks[..i], 0) == Ok(markdown)
    {
      var m := Block2Markdown(blocks[i], 0);
      if m.Err? {
        MarkdownAllStops(blocks, i, 0, markdown);
        return Err(m.error);
      }
      MarkdownAllStep(blocks, i, 0, markdown, m.value);
      markdown := markdown + m.value;
    }
    assert blocks[..|blocks|] == blocks;
    r := Ok(markdown);
  }
}
