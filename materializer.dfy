/**
 * `Blocks._hierarchy_to_blocks` and `Blocks.from_markdown`: every node of a
 * group's hierarchy becomes one block, built by the `Block` factory named after
 * the node's block type. A node with children needs the `*_from_rich_text`
 * factory of its type, which only paragraphs and list items have; a leaf heading
 * needs `heading_<level>`, which exists for levels 1 to 3. Any other lookup
 * fails the way `getattr` does, with the name it looked for.
 */
module Materializer {
  import opened Wrappers
  import opened Classifier
  import opened Hierarchy
  import opened Grouper
  import O = Objects
  import BF = BlockFactory
  import Inline
  import PyStr
  import Colors
  import opened Seqs

  /** The decimal digits of `n`, as `str(n)` writes them. */
  function Decimal(n: nat): (r: string)
    ensures r != []
    decreases n
  {
    if n < 10 then ["0123456789"[n]] else Decimal(n / 10) + ["0123456789"[n % 10]]
  }

  /** The `block_type` string the classifier gives a kind (`heading_<number of #>` for a heading). */
  function TypeName(k: Kind): string {
    match k
    case Heading(level) => "heading_" + Decimal(level)
    case BulletedListItem => "bulleted_list_item"
    case NumberedListItem => "numbered_list_item"
    case Paragraph => "paragraph"
    case Code => "code"
    case Equation => "equation"
  }

  /** The inline tokenizer the text blocks use (`_text_to_richtext`); `Converted` passes `Inline.Tokenize`. */
  type Tokenizer = string -> seq<O.RichText>

  /** The `AttributeError` of a factory lookup: `Block` has no attribute of that name. */
  datatype Failure = NoSuchFactory(name: string)

  /** The kinds that have a `*_from_rich_text` factory. */
  predicate HasRichTextFactory(k: Kind) {
    k.Paragraph? || k.BulletedListItem? || k.NumberedListItem?
  }

  /** `getattr(Block, f"{block_type}_from_rich_text")(rich_texts, children=...)`. */
  function FromRichText(k: Kind, richText: seq<O.RichText>, children: O.Children): Result<O.Block, Failure> {
    match k
    case Paragraph => Ok(BF.ParagraphFromRichText(richText, children))
    case BulletedListItem => Ok(BF.BulletedListItemFromRichText(richText, children))
    case NumberedListItem => Ok(BF.NumberedListItemFromRichText(richText, children))
    case _ => Err(NoSuchFactory(TypeName(k) + "_from_rich_text"))
  }

  /** `_hierarchy_to_blocks` of one node: the children first, in order, then the node's own factory. */
  function Materialize(g: BlockGroup, tokenize: Tokenizer): Result<O.Block, Failure>
    decreases g, 1
  {
    if g.children != [] then
      var kids :- MaterializeAll(g.children, tokenize);
      FromRichText(g.kind, tokenize(g.text), O.Children(kids))
    else
      match g.kind
      case Heading(level) =>
        if 1 <= level <= 3 then Ok(BF.Heading(level, g.text)) else Err(NoSuchFactory(TypeName(g.kind)))
      case Equation => Ok(BF.Equation(PyStr.StripWs(g.text)))
      case Code => Ok(BF.Code(PyStr.StripWs(g.text), "python"))
      case _ => FromRichText(g.kind, tokenize(g.text), O.NoChildren)
  }

  /** The blocks of a list of nodes, in order; the first failure stops the conversion. */
  function MaterializeAll(ns: seq<BlockGroup>, tokenize: Tokenizer): Result<seq<O.Block>, Failure>
    decreases ns, 0
  {
    if ns == [] then Ok([])
    else
      var init :- MaterializeAll(ns[..|ns| - 1], tokenize);
      var last :- Materialize(ns[|ns| - 1], tokenize);
      Ok(init + [last])
  }

  // ---- when the conversion succeeds ----

  /** A node every factory lookup of which succeeds: an independent statement of the lookup rules. */
  predicate Constructible(g: BlockGroup)
    decreases g, 1
  {
    && (g.children != [] ==> HasRichTextFactory(g.kind))
    && (g.children == [] && g.kind.Heading? ==> 1 <= g.kind.level <= 3)
    && AllConstructible(g.children)
  }

  predicate AllConstructible(ns: seq<BlockGroup>)
    decreases ns, 0
  {
    forall i :: 0 <= i < |ns| ==> Constructible(ns[i])
  }

  lemma AllConstructibleSnoc(ns: seq<BlockGroup>)
    requires ns != []
    ensures AllConstructible(ns) <==> AllConstructible(ns[..|ns| - 1]) && Constructible(ns[|ns| - 1])
  {
    assert forall i :: 0 <= i < |ns| - 1 ==> ns[..|ns| - 1][i] == ns[i];
  }

  /** A node converts exactly when every lookup in its tree succeeds. */
  lemma {:induction false} MaterializeOkIff(g: BlockGroup, tokenize: Tokenizer)
    ensures Materialize(g, tokenize).Ok? <==> Constructible(g)
    decreases g, 1
  {
    MaterializeAllOkIff(g.children, tokenize);
  }

  /** A list of nodes converts exactly when each of them does. */
  lemma {:induction false} MaterializeAllOkIff(ns: seq<BlockGroup>, tokenize: Tokenizer)
    ensures MaterializeAll(ns, tokenize).Ok? <==> AllConstructible(ns)
    decreases ns, 0
  {
    if ns != [] {
      MaterializeAllOkIff(ns[..|ns| - 1], tokenize);
      MaterializeOkIff(ns[|ns| - 1], tokenize);
      AllConstructibleSnoc(ns);
    }
  }

  /** The i-th block of a converted list is the conversion of the i-th node: one block per node, in order. */
  lemma MaterializeAllInOrder(ns: seq<BlockGroup>, tokenize: Tokenizer)
    requires MaterializeAll(ns, tokenize).Ok?
    ensures |MaterializeAll(ns, tokenize).value| == |ns|
    ensures forall i :: 0 <= i < |ns| ==> Materialize(ns[i], tokenize) == Ok(MaterializeAll(ns, tokenize).value[i])
  {
    MaterializeAllTraverse(ns, tokenize);
    TraverseInOrder((n: BlockGroup) => Materialize(n, tokenize), ns);
  }

  /** `MaterializeAll` walks the list with `Materialize`. */
  lemma {:induction false} MaterializeAllTraverse(ns: seq<BlockGroup>, tokenize: Tokenizer)
    ensures MaterializeAll(ns, tokenize) == Traverse((n: BlockGroup) => Materialize(n, tokenize), ns)
  {
    if ns != [] {
      MaterializeAllTraverse(ns[..|ns| - 1], tokenize);
    }
  }

  // ---- the tree of blocks mirrors the tree of nodes ----

  /** The tags of a block and its descendants, in preorder. */
  function BlockTags(b: O.Block): seq<string>
    decreases b, 1
  {
    [O.Tag(b.content)] + (if O.DeclaresChildren(b.content) && b.content.children.Children? then ForestTags(b.content.children.blocks) else [])
  }

  function ForestTags(bs: seq<O.Block>): seq<string>
    decreases bs, 0
  {
    if bs == [] then [] else ForestTags(bs[..|bs| - 1]) + BlockTags(bs[|bs| - 1])
  }

  /** The block types of a list of lines. */
  function Names(ls: seq<Line>): (r: seq<string>)
    ensures |r| == |ls|
  {
    if ls == [] then [] else Names(ls[..|ls| - 1]) + [TypeName(ls[|ls| - 1].kind)]
  }

  lemma {:induction false} NamesAppend(a: seq<Line>, b: seq<Line>)
    ensures Names(a + b) == Names(a) + Names(b)
    decreases |b|
  {
    if b != [] {
      assert (a + b)[..|a + b| - 1] == a + b[..|b| - 1];
      assert (a + b)[|a + b| - 1] == b[|b| - 1];
      NamesAppend(a, b[..|b| - 1]);
    } else {
      assert a + b == a;
    }
  }

  /** Every block carries the tag its node's block type names. */
  lemma RootTag(g: BlockGroup, tokenize: Tokenizer)
    requires Materialize(g, tokenize).Ok?
    ensures O.Tag(Materialize(g, tokenize).value.content) == TypeName(g.kind)
  {
    if g.children != [] {
      var kids := MaterializeAll(g.children, tokenize).value;
      FromRichTextTag(g.kind, tokenize(g.text), O.Children(kids));
    } else {
      LeafTag(g, tokenize);
    }
  }

  lemma FromRichTextTag(k: Kind, richText: seq<O.RichText>, children: O.Children)
    requires FromRichText(k, richText, children).Ok?
    ensures O.Tag(FromRichText(k, richText, children).value.content) == TypeName(k)
  {
  }

  /** `heading_<level>` for the three heading levels that have a factory. */
  lemma HeadingName(level: nat)
    requires 1 <= level <= 3
    ensures TypeName(Heading(level)) == if level == 1 then "heading_1" else if level == 2 then "heading_2" else "heading_3"
  {
    assert Decimal(level) == ["0123456789"[level]];
  }

  lemma LeafTag(g: BlockGroup, tokenize: Tokenizer)
    requires g.children == [] && Materialize(g, tokenize).Ok?
    ensures O.Tag(Materialize(g, tokenize).value.content) == TypeName(g.kind)
  {
    if g.kind.Heading? {
      HeadingLeafTag(g, tokenize);
    } else if g.kind.Equation? || g.kind.Code? {
      FixedLeafTag(g, tokenize);
    } else {
      TextLeafTag(g, tokenize);
    }
  }

  lemma HeadingLeafTag(g: BlockGroup, tokenize: Tokenizer)
    requires g.children == [] && g.kind.Heading? && Materialize(g, tokenize).Ok?
    ensures O.Tag(Materialize(g, tokenize).value.content) == TypeName(g.kind)
  {
    HeadingName(g.kind.level);
    assert Materialize(g, tokenize).value == BF.Heading(g.kind.level, g.text);
  }

  lemma FixedLeafTag(g: BlockGroup, tokenize: Tokenizer)
    requires g.children == [] && (g.kind.Equation? || g.kind.Code?)
    ensures Materialize(g, tokenize).Ok? && O.Tag(Materialize(g, tokenize).value.content) == TypeName(g.kind)
  {
  }

  lemma TextLeafTag(g: BlockGroup, tokenize: Tokenizer)
    requires g.children == [] && !g.kind.Heading? && !g.kind.Equation? && !g.kind.Code? && Materialize(g, tokenize).Ok?
    ensures O.Tag(Materialize(g, tokenize).value.content) == TypeName(g.kind)
  {
    assert Materialize(g, tokenize) == FromRichText(g.kind, tokenize(g.text), O.NoChildren);
    FromRichTextTag(g.kind, tokenize(g.text), O.NoChildren);
  }

  /** A converted node has its children's blocks as its children, or no children field when it is a leaf. */
  lemma ChildBlocks(g: BlockGroup, tokenize: Tokenizer)
    requires Materialize(g, tokenize).Ok?
    ensures var b := Materialize(g, tokenize).value;
      O.DeclaresChildren(b.content) ==> (b.content.children.Children? <==> g.children != [])
    ensures g.children != [] ==>
      MaterializeAll(g.children, tokenize).Ok? && Materialize(g, tokenize).value.content.children == O.Children(MaterializeAll(g.children, tokenize).value)
  {
  }

  /** The blocks list the node's block types in the order the tree lists its lines. */
  lemma {:induction false} MaterializeTags(g: BlockGroup, tokenize: Tokenizer)
    requires Materialize(g, tokenize).Ok?
    ensures BlockTags(Materialize(g, tokenize).value) == Names(Preorder(g))
    decreases g, 1
  {
    var b := Materialize(g, tokenize).value;
    RootTag(g, tokenize);
    ChildBlocks(g, tokenize);
    NamesAppend([LineOf(g)], Forest(g.children));
    assert Names([LineOf(g)]) == [TypeName(g.kind)];
    if g.children != [] {
      MaterializeAllTags(g.children, tokenize);
    } else {
      assert Forest(g.children) == [];
    }
  }

  lemma {:induction false} MaterializeAllTags(ns: seq<BlockGroup>, tokenize: Tokenizer)
    requires MaterializeAll(ns, tokenize).Ok?
    ensures ForestTags(MaterializeAll(ns, tokenize).value) == Names(Forest(ns))
    decreases ns, 0
  {
    if ns != [] {
      var init := ns[..|ns| - 1];
      var last := ns[|ns| - 1];
      MaterializeAllTags(init, tokenize);
      MaterializeTags(last, tokenize);
      NamesAppend(Forest(init), Preorder(last));
      var bs := MaterializeAll(ns, tokenize).value;
      assert bs == MaterializeAll(init, tokenize).value + [Materialize(last, tokenize).value];
      assert bs[..|bs| - 1] == MaterializeAll(init, tokenize).value;
    }
  }

  // ---- the content of each block ----

  /** The wire shape of each converted block: headings keep their text verbatim, code is stripped and tagged python, text blocks hold the tokenized runs. */
  lemma BlockContent(g: BlockGroup, tokenize: Tokenizer)
    requires Materialize(g, tokenize).Ok?
    ensures var b := Materialize(g, tokenize).value;
      match g.kind
      case Heading(level) => g.children == [] && 1 <= level <= 3 && BF.HeadingShape(b, level, g.text, Colors.Default, None)
      case Code => g.children == [] && BF.CodeShape(b, PyStr.StripWs(g.text), "python", None)
      case Equation => g.children == [] && b.content == O.Equation(PyStr.StripWs(g.text))
      case _ => BF.ContainerShape(b, TypeName(g.kind), tokenize(g.text), Colors.Default,
                                  if g.children == [] then O.NoChildren else O.Children(MaterializeAll(g.children, tokenize).value))
  {
    var children := if g.children == [] then O.NoChildren else O.Children(MaterializeAll(g.children, tokenize).value);
    match g.kind
    case Heading(level) => BF.HeadingHasShape(level, g.text, Colors.Default, None);
    case Code => BF.CodeHasShape(PyStr.StripWs(g.text), "python", None);
    case Equation =>
    case Paragraph => BF.ParagraphFromRichTextHasShape(tokenize(g.text), children, Colors.Default);
    case BulletedListItem => BF.BulletedListItemFromRichTextHasShape(tokenize(g.text), children, Colors.Default);
    case NumberedListItem => BF.NumberedListItemFromRichTextHasShape(tokenize(g.text), children, Colors.Default);
  }

  // ---- from_markdown ----

  /** The hierarchy of each group, in order. */
  function Hierarchies(groups: seq<seq<Line>>): (r: seq<BlockGroup>)
    requires NonEmptyGroups(groups)
  {
    seq(|groups|, j requires 0 <= j < |groups| => Build(groups[j]))
  }

  /** `Blocks.from_markdown`: classify, group, build each group's hierarchy and convert it; one block per group. */
  function Converted(text: string): Result<seq<O.Block>, Failure> {
    var groups := Groups(Classified(text));
    GroupsIsGrouping(Classified(text));
    MaterializeAll(Hierarchies(groups), Inline.Tokenize)
  }

  /** In a grouping, a group that starts unindented has every later line deeper than its first. */
  lemma UnindentedGroupIsRooted(lines: seq<Line>, g: seq<seq<Line>>, j: nat)
    requires IsGrouping(lines, g) && j < |g| && g[j][0].indent == 0
    ensures forall k :: 0 < k < |g[j]| ==> g[j][k].indent > g[j][0].indent
  {
  }

  /** Every group but the first starts unindented. */
  lemma LaterGroupsUnindented(lines: seq<Line>, g: seq<seq<Line>>, j: nat)
    requires IsGrouping(lines, g) && 0 < j < |g|
    ensures g[j][0].indent == 0
  {
  }

  /** The first line of a flattened grouping is the first line of its first group. */
  lemma {:induction false} FlattenFirst(g: seq<seq<Line>>)
    requires g != [] && NonEmptyGroups(g)
    ensures Flatten(g) != [] && Flatten(g)[0] == g[0][0]
  {
    if |g| > 1 {
      var init := g[..|g| - 1];
      assert NonEmptyGroups(init) by { assert forall j :: 0 <= j < |init| ==> init[j] == g[j]; }
      FlattenFirst(init);
    }
  }

  /** Every group starts unindented when the first line does. */
  lemma AllGroupsUnindented(lines: seq<Line>, g: seq<seq<Line>>)
    requires IsGrouping(lines, g)
    requires lines != [] ==> lines[0].indent == 0
    ensures forall j :: 0 <= j < |g| ==> g[j][0].indent == 0
  {
    if g != [] {
      FlattenFirst(g);
    }
  }

  /** When each group starts with its shallowest line, the hierarchies list the groups' lines in order. */
  lemma {:induction false} HierarchiesPreorder(groups: seq<seq<Line>>)
    requires NonEmptyGroups(groups)
    requires forall j, k :: 0 <= j < |groups| && 0 < k < |groups[j]| ==> groups[j][k].indent > groups[j][0].indent
    ensures Forest(Hierarchies(groups)) == Flatten(groups)
  {
    if groups != [] {
      var n := |groups|;
      var init := groups[..n - 1];
      assert forall j :: 0 <= j < |init| ==> init[j] == groups[j];
      HierarchiesPreorder(init);
      PreorderIsGroup(groups[n - 1]);
      assert Hierarchies(groups)[..n - 1] == Hierarchies(init);
    }
  }

  /**
   * A document whose first line is unindented converts, when it converts, into blocks
   * that hold every classified line exactly once, in document order, each with its block type.
   */
  lemma ConvertedCoversLines(text: string)
    requires Converted(text).Ok?
    requires Classified(text) != [] ==> Classified(text)[0].indent == 0
    ensures ForestTags(Converted(text).value) == Names(Classified(text))
  {
    var lines := Classified(text);
    var groups := Groups(lines);
    GroupsIsGrouping(lines);
    AllGroupsUnindented(lines, groups);
    MaterializeAllTags(Hierarchies(groups), Inline.Tokenize);
    HierarchiesPreorder(groups);
  }

  /** Each group's hierarchy converts to the block at its position; the list converts exactly when every hierarchy is constructible. */
  lemma HierarchiesConvert(groups: seq<seq<Line>>, tokenize: Tokenizer)
    requires NonEmptyGroups(groups)
    ensures MaterializeAll(Hierarchies(groups), tokenize).Ok? <==> forall j :: 0 <= j < |groups| ==> Constructible(Build(groups[j]))
    ensures MaterializeAll(Hierarchies(groups), tokenize).Ok? ==>
      |MaterializeAll(Hierarchies(groups), tokenize).value| == |groups|
      && forall j :: 0 <= j < |groups| ==> Materialize(Build(groups[j]), tokenize) == Ok(MaterializeAll(Hierarchies(groups), tokenize).value[j])
  {
    var trees := Hierarchies(groups);
    assert |trees| == |groups| && forall j :: 0 <= j < |groups| ==> trees[j] == Build(groups[j]);
    MaterializeAllOkIff(trees, tokenize);
    if MaterializeAll(trees, tokenize).Ok? {
      MaterializeAllInOrder(trees, tokenize);
    }
  }

  /** One block per group, in order; the document converts exactly when every group's hierarchy is constructible. */
  lemma ConvertedPerGroup(text: string)
    ensures var groups := Groups(Classified(text));
      && NonEmptyGroups(groups)
      && (Converted(text).Ok? <==> forall j :: 0 <= j < |groups| ==> Constructible(Build(groups[j])))
      && (Converted(text).Ok? ==>
            |Converted(text).value| == |groups|
            && forall j :: 0 <= j < |groups| ==> Materialize(Build(groups[j]), Inline.Tokenize) == Ok(Converted(text).value[j]))
  {
    GroupsIsGrouping(Classified(text));
    HierarchiesConvert(Groups(Classified(text)), Inline.Tokenize);
  }

  // ---- the recursion and the loops ----

  /** Converting one more node extends the blocks of a prefix by that node's block. */
  lemma MaterializeAllStep(ns: seq<BlockGroup>, i: nat, tokenize: Tokenizer, blocks: seq<O.Block>, b: O.Block)
    requires i < |ns| && MaterializeAll(ns[..i], tokenize) == Ok(blocks) && Materialize(ns[i], tokenize) == Ok(b)
    ensures MaterializeAll(ns[..i + 1], tokenize) == Ok(blocks + [b])
  {
    assert ns[..i + 1][..i] == ns[..i];
  }

  /** A failing node after a converted prefix makes the whole list fail with its error. */
  lemma MaterializeAllStops(ns: seq<BlockGroup>, i: nat, tokenize: Tokenizer, blocks: seq<O.Block>)
    requires i < |ns| && MaterializeAll(ns[..i], tokenize) == Ok(blocks) && Materialize(ns[i], tokenize).Err?
    ensures MaterializeAll(ns, tokenize) == Err(Materialize(ns[i], tokenize).error)
  {
    assert ns[..i + 1][..i] == ns[..i];
    MaterializeAllPrefixErr(ns, i + 1, tokenize);
  }

  /** A failing prefix makes the whole list fail with the same error. */
  lemma {:induction false} MaterializeAllPrefixErr(ns: seq<BlockGroup>, k: nat, tokenize: Tokenizer)
    requires k <= |ns| && MaterializeAll(ns[..k], tokenize).Err?
    ensures MaterializeAll(ns, tokenize) == Err(MaterializeAll(ns[..k], tokenize).error)
    decreases |ns| - k
  {
    if k < |ns| {
      assert ns[..k + 1][..k] == ns[..k];
      MaterializeAllPrefixErr(ns, k + 1, tokenize);
    } else {
      assert ns[..k] == ns;
    }
  }

  /** The leaf case of `_hierarchy_to_blocks`. */
  method LeafToBlock(g: BlockGroup) returns (r: Result<O.Block, Failure>)
    requires g.children == []
    ensures r == Materialize(g, Inline.Tokenize)
  {
    LeafCases(g, Inline.Tokenize);
    match g.kind {
      case Heading(level) =>
        if 1 <= level <= 3 {
          r := Ok(BF.Heading(level, g.text));
        } else {
          r := Err(NoSuchFactory(TypeName(g.kind)));
        }
      case Equation => r := Ok(BF.Equation(PyStr.StripWs(g.text)));
      case Code => r := Ok(BF.Code(PyStr.StripWs(g.text), "python"));
      case _ =>
        var richTexts := Inline.TextToRichText(g.text);
        r := FromRichText(g.kind, richTexts, O.NoChildren);
    }
  }

  /** The branches of `_hierarchy_to_blocks` for a node without children. */
  lemma LeafCases(g: BlockGroup, tokenize: Tokenizer)
    requires g.children == []
    ensures g.kind.Heading? ==>
      Materialize(g, tokenize) == if 1 <= g.kind.level <= 3 then Ok(BF.Heading(g.kind.level, g.text)) else Err(NoSuchFactory(TypeName(g.kind)))
    ensures g.kind.Equation? ==> Materialize(g, tokenize) == Ok(BF.Equation(PyStr.StripWs(g.text)))
    ensures g.kind.Code? ==> Materialize(g, tokenize) == Ok(BF.Code(PyStr.StripWs(g.text), "python"))
    ensures HasRichTextFactory(g.kind) ==> Materialize(g, tokenize) == FromRichText(g.kind, tokenize(g.text), O.NoChildren)
  {
  }

  /** `_hierarchy_to_blocks`, with its loop over the children. */
  method HierarchyToBlocks(g: BlockGroup) returns (r: Result<O.Block, Failure>)
    ensures r == Materialize(g, Inline.Tokenize)
    decreases g
  {
    if g.children == [] {
      r := LeafToBlock(g);
      return;
    }
    var blocks: seq<O.Block> := [];
    for i := 0 to |g.children|
      invariant MaterializeAll(g.children[..i], Inline.Tokenize) == Ok(blocks)
    {
      var recurse := HierarchyToBlocks(g.children[i]);
      if recurse.Err? {
        MaterializeAllStops(g.children, i, Inline.Tokenize, blocks);
        return Err(recurse.error);
      }
      MaterializeAllStep(g.children, i, Inline.Tokenize, blocks, recurse.value);
      blocks := blocks + [recurse.value];
    }
    assert g.children[..|g.children|] == g.children;
    r := ContainerToBlock(g, blocks);
  }

  /** The case of `_hierarchy_to_blocks` with children, once the children's blocks are built. */
  method ContainerToBlock(g: BlockGroup, blocks: seq<O.Block>) returns (r: Result<O.Block, Failure>)
    requires g.children != [] && MaterializeAll(g.children, Inline.Tokenize) == Ok(blocks)
    ensures r == Materialize(g, Inline.Tokenize)
  {
    var richTexts := Inline.TextToRichText(g.text);
    r := FromRichText(g.kind, richTexts, O.Children(blocks));
  }

  /** `Blocks.from_markdown`, with its loop over the groups. */
  method FromMarkdown(text: string) returns (r: Result<seq<O.Block>, Failure>)
    ensures r == Converted(text)
  {
    var linesBlockType := GetBlockTypeAndLevel(text);
    var grouped := GroupLines(linesBlockType);
    GroupsIsGrouping(linesBlockType);
    ghost var trees := Hierarchies(grouped);
    var pageContents: seq<O.Block> := [];
    for i := 0 to |grouped|
      invariant MaterializeAll(trees[..i], Inline.Tokenize) == Ok(pageContents)
    {
      var hierarchy := BuildHierarchy(grouped[i]);
      var block := HierarchyToBlocks(hierarchy);
      if block.Err? {
        MaterializeAllStops(trees, i, Inline.Tokenize, pageContents);
        return Err(block.error);
      }
      MaterializeAllStep(trees, i, Inline.Tokenize, pageContents, block.value);
      pageContents := pageContents + [block.value];
    }
    assert trees[..|grouped|] == trees;
    r := Ok(pageContents);
  }

  // ---- the lookups that fail ----

  /** A heading of four or more `#` has no factory: `Block.heading_4` and beyond do not exist. */
  lemma DeepHeadingFails(level: nat, text: string, indent: nat, tokenize: Tokenizer)
    requires level >= 4
    ensures Materialize(BlockGroup(Heading(level), text, indent, []), tokenize) == Err(NoSuchFactory("heading_" + Decimal(level)))
  {
  }

  /** A heading, code or equation line with indented lines under it fails: it has no `*_from_rich_text` factory. */
  lemma NonTextParentFails(g: BlockGroup, tokenize: Tokenizer)
    requires g.children != [] && !HasRichTextFactory(g.kind)
    ensures Materialize(g, tokenize).Err?
  {
  }
}
