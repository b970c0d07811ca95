# Markdown to Notion blocks, and back

This project is a Dafny model of the document-store extension of the ABEJA toolkit.

- **Markdown to blocks.** The converter turns a markdown text into Notion API blocks:
  - every line is classified by its leading marker;
  - fenced code and equation regions collapse into one entry each;
  - the lines are cut into groups at every unindented line;
  - each group becomes a tree by indentation;
  - each tree node becomes a block, built by the `Block` factory named after its type;
  - the text of a line becomes rich-text runs for links, page mentions, inline code and inline equations.
- **Wire form.** The records (rich text, block contents, blocks, database properties) are modelled together with the JSON dicts they serialise to.
- **Blocks to markdown (`utils.py`).** Blocks already fetched from the store are rendered back to markdown. The same module cuts a list into overlapping batches.
- **Notebook export (`extractor.py`).** The cells of a parsed Jupyter notebook are filtered: everything up to the marker cell `# ToNotion` is dropped. After it, markdown cells and code-cell outputs are kept, and each output becomes one MIME type chosen by priority.

## Design

- **Values.** Every record is a Dafny `datatype`. A Python dict on the wire is `Wire.Json`, whose `JObj` is a `map<string, Json>`.
  - `dict.update` and `{**a, **b}` are map `+`.
  - `model_dump(exclude_none=True)` drops a key whose field is `None`.
- **Loops become methods.** Each loop of the source is a `method` with a loop and invariants, proved equal to a recursive specification function. The lemmas are stated about those functions and their error paths.
  - `_get_block_type_and_level`: `Classifier.GetBlockTypeAndLevel` against `Classifier.Classified`.
  - `_group_lines`: `Grouper.GroupLines` against `Grouper.Groups`.
  - `_build_hierarchy`: `Hierarchy.BuildHierarchy` against `Hierarchy.Build`.
  - `_text_to_richtext`: `Inline.TextToRichText` against `Inline.Tokenize`. Its four `finditer` collection loops are `Inline.CollectMatches` (through `Inline.AppendFound`) against `Inline.Collect`.
  - `_hierarchy_to_blocks` and `from_markdown`: `Materializer.HierarchyToBlocks` and `Materializer.FromMarkdown` against `Materializer.Materialize` and `Materializer.Converted`.
  - `block2markdown`, `blocks2markdown` and `make_batch`: `Utils.Block2Markdown`, `Utils.Blocks2Markdown` and `Utils.MakeBatch`.
  - `NotebookExtractor.extract`: `Extractor.Extract`.
- **Regular expressions become scanners.** Each one is written as a direct scanner, plus a declarative predicate of what a match is. The scanner is proved sound and complete for that predicate: `Classifier.ClassifyHeading` and its family, `Inline.MatchEndSound` and `Inline.MatchEndComplete`.
- **Failures become values.** A failing `getattr` lookup in `_hierarchy_to_blocks` is `Err(NoSuchFactory(name))`. So is `overlap >= batch_size` in `make_batch`, and the unbound `lang` of a code block with no rich text in `block2markdown`. Each error path has a lemma stating exactly when it is taken.
- **The tokenizer is a parameter.** The materializer takes the rich-text tokenizer as a parameter, so its lemmas hold for any tokenizer. `Materializer.FromMarkdown` instantiates it with `Inline.Tokenize`.

Behaviours of the source that the model keeps as written:

- A heading's level counts all its `#`, so `#### x` asks for the missing factory `heading_4` (`Classifier.HeadingLevelUncapped`, `Materializer.DeepHeadingFails`).
- A line that appears while a fence is open, but carries a heading or list marker, is still emitted as its own entry (`Classifier.MarkerInsideFence`).
- An unterminated fence swallows the rest of the text (`Classifier.UnterminatedCodeFence`).
- Within one group, a line indented no deeper than the current root replaces that root, and the earlier lines are dropped (`Hierarchy.ShallowerLineReplacesRoot`).
- Overlapping spans of different patterns are all emitted. Every collected span is among the sorted matches (`Inline.SortedMatches`), and each sorted match's typed run is in the layout (`Inline.TypedRunPosition`).

Two behaviours of the source are not kept; both are listed under Findings and under Left out:

- The model gives a to-do block one line holding all of its text. The source emits one line per rich-text item.
- The model reads a link's URL as the pattern's second group. The source splits the whole link at its first `(`.

## Model

Source paths are relative to the repository root.

| member | source | states |
|---|---|---|
| Wire.PutShape | libs/abeja-toolkit/notion_extension/src/notion_extension/objects.py:339-354 | setting an optional key adds exactly that key when the value is present and leaves every other key unchanged (the `exclude_none` dump) |
| Colors.NameInjective | libs/abeja-toolkit/notion_extension/src/notion_extension/colors.py:3-18 | distinct colours have distinct wire names |
| Base.Format | libs/abeja-toolkit/notion_extension/src/notion_extension/base.py:11-26 | the envelope has exactly the keys `type` and the tag; dict content is wrapped unchanged; model content is its dump, plus a `children` key exactly when children are set, holding their formatted list |
| Objects.ContentDump | libs/abeja-toolkit/notion_extension/src/notion_extension/base.py:18 | a content dump never holds `children` (it is excluded) |
| Objects.TagIsNotReserved | libs/abeja-toolkit/notion_extension/src/notion_extension/objects.py:369-397 | no block type name collides with the envelope keys `type`, `object` or `children` |
| Objects.BlockEnvelope | libs/abeja-toolkit/notion_extension/src/notion_extension/objects.py:422-429 | a formatted block has exactly the keys `object`, `type` and its tag, with `object` equal to "block", `type` equal to the tag, and an object payload |
| Objects.ChildrenKeyPresence | libs/abeja-toolkit/notion_extension/src/notion_extension/base.py:17-21 | a payload has a `children` key if and only if the content class declares children and they are set; everything else in it is the content dump |
| Objects.PayloadIsContentFormat | libs/abeja-toolkit/notion_extension/src/notion_extension/objects.py:425-429 | the block's payload is the payload of its content's own `format()` |
| Objects.ModelPayload | libs/abeja-toolkit/notion_extension/src/notion_extension/base.py:17-26 | a model payload is its dump, extended with the formatted children exactly when they are set |
| Objects.LeafHasNoChildrenKey | libs/abeja-toolkit/notion_extension/src/notion_extension/objects.py:251-293 | headings, code, equation, bookmark, file and embed payloads never have a `children` key |
| Objects.ChildrenInOrder | libs/abeja-toolkit/notion_extension/src/notion_extension/blocks.py:75-76 | set children are formatted one wire block per child block, in order |
| Objects.DividerShape | libs/abeja-toolkit/notion_extension/src/notion_extension/objects.py:313-317 | a divider formats to `{"object": "block", "type": "divider", "divider": {}}` |
| Objects.FileContentShape | libs/abeja-toolkit/notion_extension/src/notion_extension/objects.py:339-354 | a file with a non-empty name dumps to exactly `type`, the URL nested under the literal key `file`, and `name`; without one its keys are `type` and the file's own type name |
| Objects.DefaultAnnotationsDump | libs/abeja-toolkit/notion_extension/src/notion_extension/objects.py:18-26 | default annotations dump every flag as false and the colour as "default" |
| Objects.RunHasOnePayload | libs/abeja-toolkit/notion_extension/src/notion_extension/objects.py:123-141 | a rich-text run dumps its `type` and the one payload key that type names, and no other payload key |
| Factory.TextRun | libs/abeja-toolkit/notion_extension/src/notion_extension/factory.py:10-59 | a run that dumps exactly `type` ("text"), `text` and `annotations`, carrying the content; its text has a `link` key exactly when a non-empty URL is given, holding that URL; it records the given annotations |
| Factory.PageMentionRun | libs/abeja-toolkit/notion_extension/src/notion_extension/factory.py:61-80 | a "mention" run whose mention is the page envelope `{"type": "page", "page": {"id": …}}` |
| Factory.EquationRun | libs/abeja-toolkit/notion_extension/src/notion_extension/factory.py:82-102 | an "equation" run holding only the expression, without text or annotations |
| BlockFactory.StyleHasShape | libs/abeja-toolkit/notion_extension/src/notion_extension/blocks.py:534-596 | the annotations of the styling arguments dump to the flags and colour given |
| BlockFactory.StyledRun | libs/abeja-toolkit/notion_extension/src/notion_extension/blocks.py:534-596 | the single run the text constructors build has the content, link and styling given |
| BlockFactory.BareRunHasDump | libs/abeja-toolkit/notion_extension/src/notion_extension/blocks.py:403-434 | an unstyled run dumps to `{"type": "text", "text": {"content": …}}` |
| BlockFactory.ContainerHasShape | libs/abeja-toolkit/notion_extension/src/notion_extension/objects.py:165-248 | every text container (list items, paragraph, quote, to-do, toggle) formats to its tag, its runs, its colour and its children key exactly when children are given; a to-do also has `checked` |
| BlockFactory.HeadingDumpShape | libs/abeja-toolkit/notion_extension/src/notion_extension/objects.py:251-293 | a heading dump has exactly `rich_text`, `color`, and `is_toggleable` only when given |
| BlockFactory.HeadingHasShape | libs/abeja-toolkit/notion_extension/src/notion_extension/blocks.py:403-501 | `heading_1`, `heading_2` and `heading_3` build one unstyled run, the given colour and no `children` key |
| BlockFactory.CodeDumpShape | libs/abeja-toolkit/notion_extension/src/notion_extension/objects.py:320-331 | a code dump has `rich_text` and `language`, and `caption` only when one is set |
| BlockFactory.CodeHasShape | libs/abeja-toolkit/notion_extension/src/notion_extension/blocks.py:503-532 | `code` builds one unstyled run and the language, and a caption only for a non-empty caption |
| BlockFactory.BulletedListItem | libs/abeja-toolkit/notion_extension/src/notion_extension/blocks.py:534-596 | a bulleted item with one styled run, the colour, and children exactly when given |
| BlockFactory.BulletedListItemFromRichTextHasShape | libs/abeja-toolkit/notion_extension/src/notion_extension/blocks.py:598-630 | the runs are kept as given, and the `children` key is present exactly when children are given |
| BlockFactory.NumberedListItem | libs/abeja-toolkit/notion_extension/src/notion_extension/blocks.py:632-694 | a numbered item with one styled run, the colour, and children exactly when given |
| BlockFactory.NumberedListItemFromRichTextHasShape | libs/abeja-toolkit/notion_extension/src/notion_extension/blocks.py:696-728 | runs kept as given; `children` present exactly when given |
| BlockFactory.Paragraph | libs/abeja-toolkit/notion_extension/src/notion_extension/blocks.py:730-795 | a paragraph whose one styled run links to the URL only when it is non-empty |
| BlockFactory.ParagraphFromRichTextHasShape | libs/abeja-toolkit/notion_extension/src/notion_extension/blocks.py:797-829 | runs kept as given; `children` present exactly when given |
| BlockFactory.MentionParagraph | libs/abeja-toolkit/notion_extension/src/notion_extension/blocks.py:831-931 | a block tagged "paragraph" whose payload has exactly `rich_text` and `color`: the rich text is one run of type "mention" carrying the given mention, and the colour is "default" |
| BlockFactory.PageMention | libs/abeja-toolkit/notion_extension/src/notion_extension/blocks.py:831-863 | a "paragraph" block, colour "default", whose only run is the mention `{"type": "page", "page": {"id": id}}` |
| BlockFactory.UserMention | libs/abeja-toolkit/notion_extension/src/notion_extension/blocks.py:865-897 | a "paragraph" block, colour "default", whose only run is the mention `{"type": "user", "user": {"object": "user", "id": id}}` |
| BlockFactory.DateMention | libs/abeja-toolkit/notion_extension/src/notion_extension/blocks.py:899-931 | a "paragraph" block, colour "default", whose only run is the mention `{"type": "date", "date": {"start": date}}`, with no end date |
| BlockFactory.EquationHasShape | libs/abeja-toolkit/notion_extension/src/notion_extension/blocks.py:933-954 | an equation block is `{"expression": …}` alone, with no `children` key |
| BlockFactory.Bookmark | libs/abeja-toolkit/notion_extension/src/notion_extension/blocks.py:956-982 | a bookmark has the URL, and a caption key only for a non-empty caption; that caption is the one plain run of the caption text |
| BlockFactory.Breadcrumb | libs/abeja-toolkit/notion_extension/src/notion_extension/blocks.py:984-994 | formats to an empty breadcrumb payload |
| BlockFactory.Divider | libs/abeja-toolkit/notion_extension/src/notion_extension/blocks.py:996-1006 | formats to an empty divider payload |
| BlockFactory.Quote | libs/abeja-toolkit/notion_extension/src/notion_extension/blocks.py:1008-1071 | a quote with one styled run, the colour, and children exactly when given |
| BlockFactory.Todo | libs/abeja-toolkit/notion_extension/src/notion_extension/blocks.py:1073-1139 | a to-do with one styled run and children exactly when given; `checked` is as given, false by default |
| BlockFactory.Toggle | libs/abeja-toolkit/notion_extension/src/notion_extension/blocks.py:1141-1203 | a toggle with one styled run, the colour, and children exactly when given |
| BlockFactory.Embed | libs/abeja-toolkit/notion_extension/src/notion_extension/blocks.py:1205-1229 | formats to `{"embed": {"url": …}}` |
| BlockFactory.File | libs/abeja-toolkit/notion_extension/src/notion_extension/blocks.py:1231-1260 | the file payload is the file content's own dump |
| PyStr.LStrip | libs/abeja-toolkit/notion_extension/src/notion_extension/blocks.py:106 | `lstrip(chars)` removes the longest prefix of stripped characters: the result is a suffix that does not start with one |
| PyStr.RStrip | libs/abeja-toolkit/notion_extension/src/notion_extension/blocks.py:109 | `rstrip(chars)` removes the longest such suffix |
| PyStr.Strip | libs/abeja-toolkit/notion_extension/src/notion_extension/blocks.py:97 | `strip` keeps the inner slice that neither starts nor ends with a stripped character |
| PyStr.IndexOf | libs/abeja-toolkit/notion_extension/src/notion_extension/blocks.py:163 | the first position holding the character |
| PyStr.Split | libs/abeja-toolkit/notion_extension/src/notion_extension/blocks.py:91 | `split` on one character: the pieces between the separators |
| PyStr.SplitJoin | libs/abeja-toolkit/notion_extension/src/notion_extension/blocks.py:91 | joining the pieces with the separator gives back the string, and no piece holds the separator |
| PyStr.SplitSnoc | libs/abeja-toolkit/notion_extension/src/notion_extension/blocks.py:91 | a trailing separator adds exactly one empty piece |
| PyStr.StripIdempotent | libs/abeja-toolkit/notion_extension/src/notion_extension/blocks.py:97-98 | stripping twice is stripping once |
| PyStr.ClampIndex | libs/abeja-toolkit/notion_extension/src/notion_extension/utils.py:162 | the index Python slicing uses for a bound: never beyond the length, and unchanged when already within range |
| PyStr.Slice | libs/abeja-toolkit/notion_extension/src/notion_extension/blocks.py:197-218 | `s[a:b]` is the ordinary slice when `0 <= a <= b <= len(s)`, and empty when `0 <= b <= a` |
| Classifier.RunLength | libs/abeja-toolkit/notion_extension/src/notion_extension/blocks.py:80-82 | the length of the longest prefix of one character class |
| Classifier.ClassifyHeading | libs/abeja-toolkit/notion_extension/src/notion_extension/blocks.py:104-106 | a line is a heading if and only if `^(#+) ` matches; its level counts the leading `#`; its text is `lstrip("# ")` |
| Classifier.ClassifyBullet | libs/abeja-toolkit/notion_extension/src/notion_extension/blocks.py:107-110 | a line is a bullet if and only if it starts with `-` or `*` and a space, and its text is `lstrip("- *").rstrip("*")` |
| Classifier.ClassifyNumbered | libs/abeja-toolkit/notion_extension/src/notion_extension/blocks.py:111-119 | a line is numbered if and only if `^(\d+\.) ` matches, and its text is what follows the match |
| Classifier.NumberedAtIsDigitRun | libs/abeja-toolkit/notion_extension/src/notion_extension/blocks.py:111-112 | the match ends after all the leading digits |
| Classifier.ClassifyFences | libs/abeja-toolkit/notion_extension/src/notion_extension/blocks.py:120-133 | a line is an equation fence if and only if it starts with `$$`, and a code fence if and only if it starts with three backquotes (when no earlier pattern matched) |
| Classifier.ScanAll | libs/abeja-toolkit/notion_extension/src/notion_extension/blocks.py:93-102 | every line is scanned in order: indent level, stripped text, marker |
| Classifier.GetBlockTypeAndLevel | libs/abeja-toolkit/notion_extension/src/notion_extension/blocks.py:79-141 | the loop returns exactly the classification of the split lines |
| Classifier.HandleLine | libs/abeja-toolkit/notion_extension/src/notion_extension/blocks.py:104-140 | one loop iteration is the classifier's step function on the five state variables |
| Classifier.RunAppend | libs/abeja-toolkit/notion_extension/src/notion_extension/blocks.py:93 | classifying two runs of lines one after another is classifying their concatenation |
| Classifier.OutputOnlyGrows | libs/abeja-toolkit/notion_extension/src/notion_extension/blocks.py:92-140 | entries are only appended, never changed |
| Classifier.RunKeepsBuffersClean | libs/abeja-toolkit/notion_extension/src/notion_extension/blocks.py:121-133 | outside a fence the accumulated fence text is empty, and this is preserved |
| Classifier.FenceBodyAccumulates | libs/abeja-toolkit/notion_extension/src/notion_extension/blocks.py:134-138 | inside a fence, unmarked lines only append `line + "\n"` to the fence text |
| Classifier.FenceCollapses | libs/abeja-toolkit/notion_extension/src/notion_extension/blocks.py:120-133 | an opening fence, unmarked body lines and a closing fence add exactly one code or equation entry, at the closing fence's indent, holding the body |
| Classifier.UnterminatedCodeFence | libs/abeja-toolkit/notion_extension/src/notion_extension/blocks.py:127-138 | with no closing fence the code block stays open and no code entry is ever emitted |
| Classifier.UnterminatedEquationFence | libs/abeja-toolkit/notion_extension/src/notion_extension/blocks.py:120-136 | with no closing `$$` no equation entry is ever emitted |
| Classifier.MarkerInsideFence | libs/abeja-toolkit/notion_extension/src/notion_extension/blocks.py:104-119 | a heading or list line inside a fence is emitted as its own entry and leaves the fence state and text unchanged |
| Classifier.TrailingNewline | libs/abeja-toolkit/notion_extension/src/notion_extension/blocks.py:139-140 | a trailing newline (outside a fence) adds exactly one empty paragraph at indent 0 |
| Classifier.EmptyLineIsParagraph | libs/abeja-toolkit/notion_extension/src/notion_extension/blocks.py:139-140 | an empty line outside a fence is an empty paragraph |
| Classifier.IndentOfSpaces | libs/abeja-toolkit/notion_extension/src/notion_extension/blocks.py:96 | `k` leading spaces give indent level `k // 2` |
| Classifier.LStripSpaces | libs/abeja-toolkit/notion_extension/src/notion_extension/blocks.py:97 | stripping leading spaces leaves the text after them |
| Classifier.HeadingLevelUncapped | libs/abeja-toolkit/notion_extension/src/notion_extension/blocks.py:105-106 | any number `k >= 1` of `#` followed by a space is a heading of level `k` |
| Grouper.Groups | libs/abeja-toolkit/notion_extension/src/notion_extension/blocks.py:144-159 | there are no more groups than lines, and there is some group if and only if there is some line |
| Grouper.StartGroup | libs/abeja-toolkit/notion_extension/src/notion_extension/blocks.py:151-154 | a line of indent 0 (or the first line) opening a new group keeps the groups non-empty and cut at indent 0 |
| Grouper.JoinGroup | libs/abeja-toolkit/notion_extension/src/notion_extension/blocks.py:155-156 | an indented line joining the current group keeps those properties |
| Grouper.GroupsIsGrouping | libs/abeja-toolkit/notion_extension/src/notion_extension/blocks.py:144-159 | the groups flatten back to the lines, are non-empty, start a group after the first at exactly the indent-0 lines, and hold no other indent-0 line |
| Grouper.ShrinkGroup | libs/abeja-toolkit/notion_extension/src/notion_extension/blocks.py:144-159 | removing the last line of a longer last group keeps a grouping |
| Grouper.DropGroup | libs/abeja-toolkit/notion_extension/src/notion_extension/blocks.py:144-159 | removing the last group keeps a grouping |
| Grouper.GroupingIsUnique | libs/abeja-toolkit/notion_extension/src/notion_extension/blocks.py:144-159 | any grouping of the lines with those properties is the one `_group_lines` returns |
| Grouper.GroupLines | libs/abeja-toolkit/notion_extension/src/notion_extension/blocks.py:144-159 | the loop returns exactly the groups |
| Grouper.FlatDocument | libs/abeja-toolkit/notion_extension/src/notion_extension/blocks.py:151-154 | a document without indentation has one group per line |
| Hierarchy.Pop | libs/abeja-toolkit/notion_extension/src/notion_extension/blocks.py:233 | popping shortens the stack by one |
| Hierarchy.PopWhile | libs/abeja-toolkit/notion_extension/src/notion_extension/blocks.py:232-233 | after popping, the top of the stack (if any) is indented less than the new line |
| Hierarchy.StackAfter | libs/abeja-toolkit/notion_extension/src/notion_extension/blocks.py:229-239 | a non-empty group leaves a non-empty stack |
| Hierarchy.PopKeepsShape | libs/abeja-toolkit/notion_extension/src/notion_extension/blocks.py:233-236 | popping keeps the stack strictly increasing in indent, with every child deeper than its parent |
| Hierarchy.PopWhileKeepsShape | libs/abeja-toolkit/notion_extension/src/notion_extension/blocks.py:232-233 | so does popping while the top is not shallower |
| Hierarchy.StackInvariant | libs/abeja-toolkit/notion_extension/src/notion_extension/blocks.py:229-239 | after every line the stack is strictly increasing in indent and nested |
| Hierarchy.PushKeepsShape | libs/abeja-toolkit/notion_extension/src/notion_extension/blocks.py:239 | pushing a line deeper than the top keeps that invariant |
| Hierarchy.CloseAllNested | libs/abeja-toolkit/notion_extension/src/notion_extension/blocks.py:240 | closing the open nodes gives a tree whose every child is deeper than its parent |
| Hierarchy.BuildIsNested | libs/abeja-toolkit/notion_extension/src/notion_extension/blocks.py:226-240 | the hierarchy is nested by indent |
| Hierarchy.ForestSnoc | libs/abeja-toolkit/notion_extension/src/notion_extension/blocks.py:236 | the preorder of a forest grows by the preorder of an appended tree |
| Hierarchy.AddChildPreorder | libs/abeja-toolkit/notion_extension/src/notion_extension/blocks.py:236 | attaching a last child appends its preorder to the parent's |
| Hierarchy.PopPreorder | libs/abeja-toolkit/notion_extension/src/notion_extension/blocks.py:233-236 | popping a node into its parent does not change the preorder of the stack |
| Hierarchy.PopWhileAbove | libs/abeja-toolkit/notion_extension/src/notion_extension/blocks.py:232-233 | popping above a shallower bottom keeps the bottom and the preorder |
| Hierarchy.LeafPreorder | libs/abeja-toolkit/notion_extension/src/notion_extension/blocks.py:230 | a new node's preorder is its own line |
| Hierarchy.StackPreorder | libs/abeja-toolkit/notion_extension/src/notion_extension/blocks.py:229-239 | when every later line is deeper than the first, the stack's preorder is the group read so far and its bottom is the first line |
| Hierarchy.CloseAllPreorder | libs/abeja-toolkit/notion_extension/src/notion_extension/blocks.py:240 | closing the open nodes keeps the preorder |
| Hierarchy.PreorderIsGroup | libs/abeja-toolkit/notion_extension/src/notion_extension/blocks.py:226-240 | when every later line is deeper than the first, the tree holds every line of the group exactly once, in order, rooted at the first |
| Hierarchy.Siblings | libs/abeja-toolkit/notion_extension/src/notion_extension/blocks.py:234-236 | two equally indented lines under a root become its two children, in order |
| Hierarchy.ShallowerLineReplacesRoot | libs/abeja-toolkit/notion_extension/src/notion_extension/blocks.py:232-238 | a later line no deeper than the root empties the stack and becomes the returned root; the first line is lost |
| Hierarchy.AttachPreorder | libs/abeja-toolkit/notion_extension/src/notion_extension/blocks.py:229-239 | attaching a line under the tree's right edge adds it at the end of the tree's preorder |
| Hierarchy.CloseAllSpine | libs/abeja-toolkit/notion_extension/src/notion_extension/blocks.py:240 | closing the open nodes gives the tree where every open node is the last child of the one below it |
| Hierarchy.SpineAttach | libs/abeja-toolkit/notion_extension/src/notion_extension/blocks.py:232-239 | one push of a line deeper than the stack's bottom attaches it as the last child of the deepest open node indented less than it |
| Hierarchy.BuildIsAttached | libs/abeja-toolkit/notion_extension/src/notion_extension/blocks.py:226-240 | when every later line is deeper than the first, the hierarchy is the tree in which each line is the last child of the nearest earlier line with a smaller indent |
| Hierarchy.Chain | libs/abeja-toolkit/notion_extension/src/notion_extension/blocks.py:226-240 | three lines of increasing indent form a chain, each the only child of the one before |
| Hierarchy.BuildHierarchy | libs/abeja-toolkit/notion_extension/src/notion_extension/blocks.py:226-240 | the loop with its stack returns exactly the hierarchy |
| Inline.FirstStop | libs/abeja-toolkit/notion_extension/src/notion_extension/blocks.py:173-176 | the first stop character at or after a position: none before it, and one there unless at the end |
| Inline.MatchEnd | libs/abeja-toolkit/notion_extension/src/notion_extension/blocks.py:173-176 | a match found at a position ends after it, within the text |
| Inline.MatchEndSound | libs/abeja-toolkit/notion_extension/src/notion_extension/blocks.py:173-176 | what the scanner finds is a match of the pattern |
| Inline.LinkEndComplete | libs/abeja-toolkit/notion_extension/src/notion_extension/blocks.py:174 | every match of the link pattern at a position is found, with its end |
| Inline.MentionEndComplete | libs/abeja-toolkit/notion_extension/src/notion_extension/blocks.py:173 | the same for page mentions |
| Inline.DelimitedEndComplete | libs/abeja-toolkit/notion_extension/src/notion_extension/blocks.py:175-176 | the same for inline code and inline equations |
| Inline.MatchEndComplete | libs/abeja-toolkit/notion_extension/src/notion_extension/blocks.py:173-176 | the scanner finds every match, of any of the four patterns |
| Inline.FindAllBounds | libs/abeja-toolkit/notion_extension/src/notion_extension/blocks.py:173-176 | `finditer` reports spans of its own pattern, non-empty, from the start position on, within the text |
| Inline.FindAllSound | libs/abeja-toolkit/notion_extension/src/notion_extension/blocks.py:173-176 | every reported span is one the scanner matches |
| Inline.FindAllDisjoint | libs/abeja-toolkit/notion_extension/src/notion_extension/blocks.py:173-176 | the spans of one search do not overlap and come in order |
| Inline.FindAllEmpty | libs/abeja-toolkit/notion_extension/src/notion_extension/blocks.py:173-176 | a search finds nothing if and only if the pattern matches nowhere |
| Inline.Insert | libs/abeja-toolkit/notion_extension/src/notion_extension/blocks.py:193 | inserting adds one span |
| Inline.SortByStart | libs/abeja-toolkit/notion_extension/src/notion_extension/blocks.py:193 | sorting keeps the number of spans |
| Inline.InsertPermutes | libs/abeja-toolkit/notion_extension/src/notion_extension/blocks.py:193 | inserting adds exactly that span to the multiset |
| Inline.SortPermutes | libs/abeja-toolkit/notion_extension/src/notion_extension/blocks.py:193 | sorting is a permutation |
| Inline.InsertOrdered | libs/abeja-toolkit/notion_extension/src/notion_extension/blocks.py:193 | stable insertion keeps spans ordered by start, ties by pattern rank |
| Inline.SortOrdered | libs/abeja-toolkit/notion_extension/src/notion_extension/blocks.py:193 | `sorted(key=start)` (stable) orders by start, and equal starts by the order the patterns were collected in |
| Inline.FindAllTieOrdered | libs/abeja-toolkit/notion_extension/src/notion_extension/blocks.py:180-190 | one search never reports two spans with the same start |
| Inline.TieOrderedAppend | libs/abeja-toolkit/notion_extension/src/notion_extension/blocks.py:178-190 | appending the searches in collection order keeps equal starts in pattern rank |
| Inline.AppendFound | libs/abeja-toolkit/notion_extension/src/notion_extension/blocks.py:180-181 | one collection loop leaves the matches gathered so far followed by every span found, in order |
| Inline.CollectMatches | libs/abeja-toolkit/notion_extension/src/notion_extension/blocks.py:178-190 | the four collection loops gather the link, inline code, page mention and inline equation spans, in that order |
| Inline.CollectTieOrdered | libs/abeja-toolkit/notion_extension/src/notion_extension/blocks.py:178-190 | the collected spans (links, code, mentions, equations) have equal starts only in that order |
| Inline.SortedMatches | libs/abeja-toolkit/notion_extension/src/notion_extension/blocks.py:192-193 | the sorted matches are a permutation of the collected ones, ordered by start and then by pattern |
| Inline.LabelEnd | libs/abeja-toolkit/notion_extension/src/notion_extension/blocks.py:174 | the `]` of a whole link is the one the link pattern closes its text at |
| Inline.LinkGroups | libs/abeja-toolkit/notion_extension/src/notion_extension/blocks.py:174 | the pattern's two groups are the text between `[` and `]` and the URL between `(` and the final `)` |
| Inline.MarkdownLink | libs/abeja-toolkit/notion_extension/src/notion_extension/blocks.py:162-165 | corrected link reading: the link's text and URL are the pattern's own two groups |
| Inline.ParenLinkGroups | libs/abeja-toolkit/notion_extension/src/notion_extension/blocks.py:174 | `[a(b](u)` is a whole link whose text is `a(b` and whose URL is `u` |
| Inline.ParenLinkSplit | libs/abeja-toolkit/notion_extension/src/notion_extension/blocks.py:164 | the second `(`-piece of `[a(b](u)` is `b]` |
| Inline.NoCloseParen | libs/abeja-toolkit/notion_extension/src/notion_extension/blocks.py:164 | `b]` without `)` is its own first `)`-piece |
| Inline.ParenLinkAsWritten | libs/abeja-toolkit/notion_extension/src/notion_extension/blocks.py:163-164 | the code as written reads the URL of `[a(b](u)` as `b]` |
| Inline.ParenInLabelBreaksUrl | libs/abeja-toolkit/notion_extension/src/notion_extension/blocks.py:164 | for `[a(b](u)` the code as written gives URL `b]`, which differs from the link's own URL `u` |
| Inline.LabelAsWritten | libs/abeja-toolkit/notion_extension/src/notion_extension/blocks.py:163 | for every whole link, the code as written reads the link text as the pattern's first group |
| Inline.LabelPiece | libs/abeja-toolkit/notion_extension/src/notion_extension/blocks.py:163 | `link.split("[")[1].split("]")[0]` is the link pattern's first group |
| Inline.TargetAsWritten | libs/abeja-toolkit/notion_extension/src/notion_extension/blocks.py:164 | without a `(` in the text or URL, the code as written gets the URL right |
| Inline.LinkAsWrittenAgrees | libs/abeja-toolkit/notion_extension/src/notion_extension/blocks.py:162-165 | as-written and corrected link readings agree whenever neither the text nor the URL holds `(` |
| Inline.FoundIsValid | libs/abeja-toolkit/notion_extension/src/notion_extension/blocks.py:173-176 | every reported span is a match within the text |
| Inline.CollectedIsValid | libs/abeja-toolkit/notion_extension/src/notion_extension/blocks.py:178-190 | so is every collected span |
| Inline.SortedValid | libs/abeja-toolkit/notion_extension/src/notion_extension/blocks.py:193 | so is every sorted span |
| Inline.LinkSegment | libs/abeja-toolkit/notion_extension/src/notion_extension/blocks.py:215 | a link span cut out of the text is a whole link |
| Inline.MentionSegment | libs/abeja-toolkit/notion_extension/src/notion_extension/blocks.py:208-209 | a mention span holds a `:`, so `split(":")[1]` exists |
| Inline.ValidIsCut | libs/abeja-toolkit/notion_extension/src/notion_extension/blocks.py:204-216 | every match can be cut out and read without an index error |
| Inline.SortedCut | libs/abeja-toolkit/notion_extension/src/notion_extension/blocks.py:194-216 | every sorted match can be cut out and read |
| Inline.Typed | libs/abeja-toolkit/notion_extension/src/notion_extension/blocks.py:204-216 | a match becomes a code, mention, equation or link run, never a plain one |
| Inline.TypedRuns | libs/abeja-toolkit/notion_extension/src/notion_extension/blocks.py:194-216 | one typed run per match |
| Inline.Emitted | libs/abeja-toolkit/notion_extension/src/notion_extension/blocks.py:194-216 | after `k` matches at least `k` runs were emitted |
| Inline.RunsOf | libs/abeja-toolkit/notion_extension/src/notion_extension/blocks.py:197-218 | one rich-text object per run |
| Inline.RunsOfAppend | libs/abeja-toolkit/notion_extension/src/notion_extension/blocks.py:197-218 | the objects of two lists of runs are the objects of each, concatenated |
| Inline.EmittedPrefix | libs/abeja-toolkit/notion_extension/src/notion_extension/blocks.py:194-216 | the runs after fewer matches are a prefix of the runs after more |
| Inline.NoMatchOneRun | libs/abeja-toolkit/notion_extension/src/notion_extension/blocks.py:218-221 | with no match the text is exactly one plain run, and with any match there are at least two runs |
| Inline.LayoutAt | libs/abeja-toolkit/notion_extension/src/notion_extension/blocks.py:194-218 | the runs after the first `k` matches open the list of runs |
| Inline.TypedRunPosition | libs/abeja-toolkit/notion_extension/src/notion_extension/blocks.py:204-216 | the typed run of match `i` is the last run emitted for the first `i + 1` matches |
| Inline.GapBeforeMatch | libs/abeja-toolkit/notion_extension/src/notion_extension/blocks.py:195-202 | before match `i` there is one plain run of the text between the previous match's end (or the text start) and this match's start exactly when that end differs from this match's start; when matches overlap the end lies past the start and the run is empty |
| Inline.AfterPreviousMatch | libs/abeja-toolkit/notion_extension/src/notion_extension/blocks.py:199-202 | the run emitted just before the gap of match `i` is the typed run of match `i - 1` |
| Inline.TrailingRun | libs/abeja-toolkit/notion_extension/src/notion_extension/blocks.py:218 | the last run is the text after the last match (possibly empty), preceded by that match's typed run |
| Inline.FindAllSkip | libs/abeja-toolkit/notion_extension/src/notion_extension/blocks.py:173-176 | positions where nothing matches are skipped |
| Inline.StripDelimiters | libs/abeja-toolkit/notion_extension/src/notion_extension/blocks.py:205-212 | `strip` of the delimiter from a delimited span leaves its inside |
| Inline.NoOpenerNoMatch | libs/abeja-toolkit/notion_extension/src/notion_extension/blocks.py:173-176 | a text without the pattern's opening character has no match |
| Inline.NoDelimiterNoMatch | libs/abeja-toolkit/notion_extension/src/notion_extension/blocks.py:175-176 | no code or equation match starts off a delimiter |
| Inline.OnlyDelimited | libs/abeja-toolkit/notion_extension/src/notion_extension/blocks.py:175-176 | a text with exactly two delimiters has exactly that one span |
| Inline.LayoutOne | libs/abeja-toolkit/notion_extension/src/notion_extension/blocks.py:194-218 | one match gives its gap, its run and the trailing text |
| Inline.OneMatchPieces | libs/abeja-toolkit/notion_extension/src/notion_extension/blocks.py:194-218 | the runs of a text with one match are its layout |
| Inline.PiecesOfOne | libs/abeja-toolkit/notion_extension/src/notion_extension/blocks.py:194-218 | the runs of one match are the text before it (if any), its run and the text after it |
| Inline.OnlyCodeSpan | libs/abeja-toolkit/notion_extension/src/notion_extension/blocks.py:173-193 | a text whose only special characters are two backquotes has exactly one match, the code span |
| Inline.CodeSpanPieces | libs/abeja-toolkit/notion_extension/src/notion_extension/blocks.py:194-218 | such a text becomes the plain text before (if any), the code with its backquotes stripped, and the plain text after |
| Inline.SetXExample | libs/abeja-toolkit/notion_extension/src/notion_extension/blocks.py:168-223 | ``set `x=1` now`` becomes three runs: "set ", red inline code "x=1", and " now" |
| Inline.MatchRun | libs/abeja-toolkit/notion_extension/src/notion_extension/blocks.py:204-216 | the branch on the match type builds the rich text of the match's typed run |
| Inline.GapRuns | libs/abeja-toolkit/notion_extension/src/notion_extension/blocks.py:195-202 | the gap branch builds the rich text of the gap before match `i` |
| Inline.EmitMatches | libs/abeja-toolkit/notion_extension/src/notion_extension/blocks.py:194-216 | the loop over the sorted matches emits exactly the rich text of the gaps and typed runs |
| Inline.TextToRichText | libs/abeja-toolkit/notion_extension/src/notion_extension/blocks.py:168-223 | `_text_to_richtext` returns exactly the rich text of the text's runs |
| Materializer.Decimal | libs/abeja-toolkit/notion_extension/src/notion_extension/blocks.py:106 | the decimal spelling of a heading level, as in the factory name `heading_<level>`, is never empty |
| Materializer.MaterializeOkIff | libs/abeja-toolkit/notion_extension/src/notion_extension/blocks.py:243-272 | a tree becomes a block if and only if every parent's type has a `_from_rich_text` factory and every leaf heading has level 1 to 3 |
| Materializer.MaterializeAllOkIff | libs/abeja-toolkit/notion_extension/src/notion_extension/blocks.py:245-248 | a list of children converts if and only if each child does |
| Materializer.MaterializeAllInOrder | libs/abeja-toolkit/notion_extension/src/notion_extension/blocks.py:245-248 | converted children are one block per child, in order |
| Materializer.Names | libs/abeja-toolkit/notion_extension/src/notion_extension/blocks.py:106 | one type name per line |
| Materializer.NamesAppend | libs/abeja-toolkit/notion_extension/src/notion_extension/blocks.py:106 | the names of two lists of lines are the names of each, concatenated |
| Materializer.RootTag | libs/abeja-toolkit/notion_extension/src/notion_extension/blocks.py:250-269 | the block built for a node has the node's block type as its tag |
| Materializer.LeafTag | libs/abeja-toolkit/notion_extension/src/notion_extension/blocks.py:255-272 | so does the block built for a leaf |
| Materializer.ChildBlocks | libs/abeja-toolkit/notion_extension/src/notion_extension/blocks.py:245-253 | a block has children set exactly when its node has children, and they are the node's children converted |
| Materializer.MaterializeTags | libs/abeja-toolkit/notion_extension/src/notion_extension/blocks.py:243-272 | the block tree's types in preorder are the node tree's types in preorder |
| Materializer.MaterializeAllTags | libs/abeja-toolkit/notion_extension/src/notion_extension/blocks.py:245-248 | the same for a list of trees |
| Materializer.BlockContent | libs/abeja-toolkit/notion_extension/src/notion_extension/blocks.py:243-272 | a heading leaf is an unstyled heading of the text; code is the stripped text in "python"; an equation is the stripped text; any other node is a container of the tokenized text, with its converted children when it has some |
| Materializer.UnindentedGroupIsRooted | libs/abeja-toolkit/notion_extension/src/notion_extension/blocks.py:150-156 | in a group opened by an indent-0 line every later line is deeper |
| Materializer.LaterGroupsUnindented | libs/abeja-toolkit/notion_extension/src/notion_extension/blocks.py:151-154 | every group after the first starts at indent 0 |
| Materializer.FlattenFirst | libs/abeja-toolkit/notion_extension/src/notion_extension/blocks.py:157-159 | the first line of the flattened groups is the first group's first line |
| Materializer.AllGroupsUnindented | libs/abeja-toolkit/notion_extension/src/notion_extension/blocks.py:150-159 | when the text starts unindented, every group starts at indent 0 |
| Materializer.HierarchiesPreorder | libs/abeja-toolkit/notion_extension/src/notion_extension/blocks.py:308-310 | the hierarchies of groups rooted at their first line hold every line of every group, in order |
| Materializer.ConvertedCoversLines | libs/abeja-toolkit/notion_extension/src/notion_extension/blocks.py:275-315 | for a text starting unindented, the converted blocks' types in preorder are exactly the classified lines' types: no line is lost or reordered |
| Materializer.HierarchiesConvert | libs/abeja-toolkit/notion_extension/src/notion_extension/blocks.py:308-313 | the groups convert if and only if each group's hierarchy does, one block per group, in order |
| Materializer.ConvertedPerGroup | libs/abeja-toolkit/notion_extension/src/notion_extension/blocks.py:275-315 | `from_markdown` succeeds if and only if every group's hierarchy is constructible, giving one top-level block per group |
| Materializer.MaterializeAllPrefixErr | libs/abeja-toolkit/notion_extension/src/notion_extension/blocks.py:245-248 | the first failing child's error is the error of the whole |
| Materializer.LeafToBlock | libs/abeja-toolkit/notion_extension/src/notion_extension/blocks.py:254-272 | the leaf branch builds exactly the node's block, or fails with the factory name it looked up |
| Materializer.LeafCases | libs/abeja-toolkit/notion_extension/src/notion_extension/blocks.py:255-272 | a leaf heading is `heading_<level>` of its text for levels 1 to 3 and otherwise a missing factory; equation and code strip their text; other kinds use their `_from_rich_text` factory |
| Materializer.HierarchyToBlocks | libs/abeja-toolkit/notion_extension/src/notion_extension/blocks.py:243-272 | the recursion returns exactly the node's block or its first error |
| Materializer.ContainerToBlock | libs/abeja-toolkit/notion_extension/src/notion_extension/blocks.py:249-253 | the parent branch builds the `_from_rich_text` block with the converted children |
| Materializer.FromMarkdown | libs/abeja-toolkit/notion_extension/src/notion_extension/blocks.py:275-315 | the pipeline classify, group, build, convert returns exactly the conversion of the text |
| Materializer.DeepHeadingFails | libs/abeja-toolkit/notion_extension/src/notion_extension/blocks.py:255-256 | a leaf heading of level 4 or more fails looking up `heading_<level>` |
| Materializer.NonTextParentFails | libs/abeja-toolkit/notion_extension/src/notion_extension/blocks.py:249-251 | a heading, code or equation node with children fails |
| DbProperties.Format | libs/abeja-toolkit/notion_extension/src/notion_extension/db_properties.py:18-20 | a property formats to a one-key dict from its name to its contents |
| DbProperties.ContentsKeys | libs/abeja-toolkit/notion_extension/src/notion_extension/db_properties.py:33-172 | the contents have exactly the type name as key, except a URL property without a URL, whose contents are empty |
| DbProperties.DateEndOmitted | libs/abeja-toolkit/notion_extension/src/notion_extension/db_properties.py:140-155 | a date has the start, and has `end` exactly when one is given |
| DbProperties.TitleOf | libs/abeja-toolkit/notion_extension/src/notion_extension/db_properties.py:224-241 | `title` formats to a one-element `title` list holding the text |
| DbProperties.StatusOf | libs/abeja-toolkit/notion_extension/src/notion_extension/db_properties.py:243-255 | `status` formats to `{"status": {"name": s}}`, or `{"status": {}}` without a status |
| DbProperties.DescriptionOf | libs/abeja-toolkit/notion_extension/src/notion_extension/db_properties.py:257-313 | `description` formats to a one-element `rich_text` list, a text run with the given annotations |
| DbProperties.CheckboxOf | libs/abeja-toolkit/notion_extension/src/notion_extension/db_properties.py:315-332 | `checkbox` formats to `{"checkbox": b}`, unwrapped, false by default |
| DbProperties.SelectOf | libs/abeja-toolkit/notion_extension/src/notion_extension/db_properties.py:334-351 | `select` formats to `{"select": {"name": value}}` |
| DbProperties.MultiSelectOf | libs/abeja-toolkit/notion_extension/src/notion_extension/db_properties.py:353-372 | `multi_select` formats to one option dict per value, in order |
| DbProperties.UrlOf | libs/abeja-toolkit/notion_extension/src/notion_extension/db_properties.py:374-391 | `url` formats to `{"url": u}`, unwrapped |
| DbProperties.DateOf | libs/abeja-toolkit/notion_extension/src/notion_extension/db_properties.py:393-412 | `date` formats to the start, and the end only when one is given |
| DbProperties.PeopleOf | libs/abeja-toolkit/notion_extension/src/notion_extension/db_properties.py:414-433 | `people` formats to the given user objects, in order |
| DbProperties.MergedKey | libs/abeja-toolkit/notion_extension/src/notion_extension/db_properties.py:191-195 | a name is a key of the merged dict if and only if some property has it |
| DbProperties.MergedKeys | libs/abeja-toolkit/notion_extension/src/notion_extension/db_properties.py:191-195 | the merged dict's keys are exactly the property names |
| DbProperties.MergedLastWins | libs/abeja-toolkit/notion_extension/src/notion_extension/db_properties.py:191-195 | under each name stands the contents of the last property with that name |
| DbProperties.PropertiesFormat | libs/abeja-toolkit/notion_extension/src/notion_extension/db_properties.py:191-195 | the `update` loop returns exactly the merged dict |
| Utils.Batches | libs/abeja-toolkit/notion_extension/src/notion_extension/utils.py:154-155 | `make_batch` fails if and only if `overlap >= batch_size` |
| Utils.BatchesFromStep | libs/abeja-toolkit/notion_extension/src/notion_extension/utils.py:160-168 | from a start inside the list: one batch up to the clamped end, then stop at the end of the list or continue at `st + batch_size - overlap` |
| Utils.MakeBatch | libs/abeja-toolkit/notion_extension/src/notion_extension/utils.py:133-168 | the generator loop yields exactly the batches, or raises the error |
| Utils.NoBatchesOfEmpty | libs/abeja-toolkit/notion_extension/src/notion_extension/utils.py:157-160 | an empty list yields no batch |
| Utils.Window | libs/abeja-toolkit/notion_extension/src/notion_extension/utils.py:161-162 | each window is a non-empty slice of at most `batch_size` elements |
| Utils.BatchHead | libs/abeja-toolkit/notion_extension/src/notion_extension/utils.py:161-163 | the first batch is the slice from the start up to the clamped end |
| Utils.BatchTail | libs/abeja-toolkit/notion_extension/src/notion_extension/utils.py:165-168 | the later batches are the batches from the next start |
| Utils.BatchIndex | libs/abeja-toolkit/notion_extension/src/notion_extension/utils.py:159-168 | the batches from batch `k` on are those from the `k`-th start |
| Utils.BatchWindow | libs/abeja-toolkit/notion_extension/src/notion_extension/utils.py:159-168 | batch `k` is the slice starting at the `k`-th start, of 1 to `batch_size` elements |
| Utils.BatchShape | libs/abeja-toolkit/notion_extension/src/notion_extension/utils.py:133-168 | batch `k` is `xs[k*(batch_size-overlap) : min(that+batch_size, len)]`, of 1 to `batch_size` elements |
| Utils.LastBatchEnds | libs/abeja-toolkit/notion_extension/src/notion_extension/utils.py:165-166 | the last batch of a non-empty list reaches its end |
| Utils.Reassemble | libs/abeja-toolkit/notion_extension/src/notion_extension/utils.py:133-168 | the first batch followed by the later batches with their `overlap` leading elements dropped is the list |
| Utils.DropNoOverlap | libs/abeja-toolkit/notion_extension/src/notion_extension/utils.py:168 | with no overlap nothing is dropped |
| Utils.BatchesPartition | libs/abeja-toolkit/notion_extension/src/notion_extension/utils.py:133-168 | without overlap the batches concatenate to the list |
| Utils.Indent | libs/abeja-toolkit/notion_extension/src/notion_extension/utils.py:21 | the indent is `2 * level` spaces |
| Utils.TodoLine | libs/abeja-toolkit/notion_extension/src/notion_extension/utils.py:78-87 | corrected to-do rendering: one line, `- [x] ` or `- [ ] `, the whole text and a newline |
| Utils.TodoAsWrittenSingle | libs/abeja-toolkit/notion_extension/src/notion_extension/utils.py:82-87 | with a single rich-text item the code as written renders that one line |
| Utils.TodoAsWrittenRepeats | libs/abeja-toolkit/notion_extension/src/notion_extension/utils.py:82-87 | with two or more items the code as written renders more than that one line |
| Utils.TodoTwoItems | libs/abeja-toolkit/notion_extension/src/notion_extension/utils.py:82-87 | items "a", "b" render as "- [ ] a\n- [ ] ab\n" where one line "- [ ] ab\n" is intended |
| Utils.MarkdownOkIff | libs/abeja-toolkit/notion_extension/src/notion_extension/utils.py:99-106 | a block renders without error if and only if none of its code blocks (at any depth) lacks rich text (the unbound `lang`/`text`) |
| Utils.MarkdownAllOkIff | libs/abeja-toolkit/notion_extension/src/notion_extension/utils.py:113-115 | a list of blocks renders if and only if each one does |
| Utils.RenderedAt | libs/abeja-toolkit/notion_extension/src/notion_extension/utils.py:113-115 | rendering a list yields each block's own markdown, in order |
| Utils.RenderedLength | libs/abeja-toolkit/notion_extension/src/notion_extension/utils.py:113-115 | one rendering per block |
| Utils.MarkdownAllConcat | libs/abeja-toolkit/notion_extension/src/notion_extension/utils.py:126-130 | a renderable list's markdown is the concatenation of its blocks' markdown |
| Utils.MarkdownAllSnoc | libs/abeja-toolkit/notion_extension/src/notion_extension/utils.py:114-115 | one more block appends its markdown, or that block's error stops the rendering |
| Utils.Pieces | libs/abeja-toolkit/notion_extension/src/notion_extension/utils.py:128-129 | the per-block renderings, one per block, in order |
| Utils.MarkdownAllJoin | libs/abeja-toolkit/notion_extension/src/notion_extension/utils.py:126-130 | rendering a list is joining the per-block renderings |
| Utils.DocumentAppend | libs/abeja-toolkit/notion_extension/src/notion_extension/utils.py:126-130 | the markdown of two documents one after the other is their markdown concatenated |
| Utils.StripIndent | libs/abeja-toolkit/notion_extension/src/notion_extension/utils.py:94 | an indent is all whitespace, so the toggle's `strip()` removes it entirely |
| Utils.MarkdownSplit | libs/abeja-toolkit/notion_extension/src/notion_extension/utils.py:21-121 | a block's markdown is its own line, then its children one level deeper, then its closing |
| Utils.ToggleFrame | libs/abeja-toolkit/notion_extension/src/notion_extension/utils.py:88-121 | a toggle starts, unindented, with `<details>\n<summary>text</summary>\n` and ends with `</details>\n` (and the blank line at the top level) |
| Utils.IndentFrame | libs/abeja-toolkit/notion_extension/src/notion_extension/utils.py:21-22 | every other block starts with its level's indent |
| Utils.TopLevelEndsWithNewline | libs/abeja-toolkit/notion_extension/src/notion_extension/utils.py:120-121 | a top-level block's markdown ends with a newline |
| Utils.ChildrenFollow | libs/abeja-toolkit/notion_extension/src/notion_extension/utils.py:113-115 | the children's markdown follows the block's own line directly |
| Utils.HeadMarkers | libs/abeja-toolkit/notion_extension/src/notion_extension/utils.py:23-111 | headings render as `#`, `##` or `###` and the text without a newline; numbered items as `1. text` with one; a divider as `---` |
| Utils.JoinPlainText | libs/abeja-toolkit/notion_extension/src/notion_extension/utils.py:26-28 | the loop concatenates the items' plain text |
| Utils.JoinParagraph | libs/abeja-toolkit/notion_extension/src/notion_extension/utils.py:47-62 | the paragraph loop renders each text item, link preview and page mention, and skips other mentions |
| Utils.RenderHead | libs/abeja-toolkit/notion_extension/src/notion_extension/utils.py:21-111 | the branch on the block type returns exactly the block's own line, or the code block's error |
| Utils.MarkdownAllPrefixErr | libs/abeja-toolkit/notion_extension/src/notion_extension/utils.py:113-115 | the first failing child's error is the error of the whole |
| Utils.Block2Markdown | libs/abeja-toolkit/notion_extension/src/notion_extension/utils.py:4-123 | the recursive renderer returns exactly the block's markdown or error |
| Utils.Blocks2Markdown | libs/abeja-toolkit/notion_extension/src/notion_extension/utils.py:126-130 | the loop returns exactly the document's markdown or its first error |
| Extractor.StreamContent | libs/abeja-toolkit/notebook_exporter/src/notebook_exporter/extractor.py:14-15 | a stream output is always of MIME type `text/plain` |
| Extractor.ImageKeys | libs/abeja-toolkit/notebook_exporter/src/notebook_exporter/extractor.py:40 | the image keys are exactly the data keys containing "image" |
| Extractor.ExecuteResultPriority | libs/abeja-toolkit/notebook_exporter/src/notebook_exporter/extractor.py:19-33 | an execute result picks JPEG over PNG over plain text, and nothing without any of them |
| Extractor.ImageKeyNames | libs/abeja-toolkit/notebook_exporter/src/notebook_exporter/extractor.py:40-46 | `image/jpeg` and `image/png` are image keys exactly when present, and `text/plain` is never one |
| Extractor.MissingCharNotContained | libs/abeja-toolkit/notebook_exporter/src/notebook_exporter/extractor.py:40 | a string lacking a character of the substring does not contain it |
| Extractor.DisplayDataPriority | libs/abeja-toolkit/notebook_exporter/src/notebook_exporter/extractor.py:36-50 | display data picks JPEG over PNG, always an image, and nothing without either |
| Extractor.OutputCellsIff | libs/abeja-toolkit/notebook_exporter/src/notebook_exporter/extractor.py:135-166 | an output gives at most one cell, exactly when its selected content is truthy, carrying the MIME type and the text or the image; other output types give none |
| Extractor.EmptyStreamSkipped | libs/abeja-toolkit/notebook_exporter/src/notebook_exporter/extractor.py:139-150 | an empty stream gives no cell |
| Extractor.StartedIff | libs/abeja-toolkit/notebook_exporter/src/notebook_exporter/extractor.py:96-100 | extraction has started if and only if some cell so far is the `# ToNotion` marker |
| Extractor.NothingBeforeMarker | libs/abeja-toolkit/notebook_exporter/src/notebook_exporter/extractor.py:98-113 | before the marker nothing is extracted |
| Extractor.ExtractedAfterMarker | libs/abeja-toolkit/notebook_exporter/src/notebook_exporter/extractor.py:89-168 | after the first marker, the extracted cells are those of the following cells |
| Extractor.ExtractedAtMarker | libs/abeja-toolkit/notebook_exporter/src/notebook_exporter/extractor.py:98-100 | the first marker itself is skipped |
| Extractor.ExtractedSnoc | libs/abeja-toolkit/notebook_exporter/src/notebook_exporter/extractor.py:91-166 | each cell adds its own cells once extraction has started, and nothing before |
| Extractor.StartedSnoc | libs/abeja-toolkit/notebook_exporter/src/notebook_exporter/extractor.py:98-99 | extraction starts at a marker and stays started |
| Extractor.StartedMonotone | libs/abeja-toolkit/notebook_exporter/src/notebook_exporter/extractor.py:90-99 | once started, extraction stays started |
| Extractor.ExtractedShape | libs/abeja-toolkit/notebook_exporter/src/notebook_exporter/extractor.py:72-168 | without a marker nothing is extracted; otherwise the result is the cells after the first marker |
| Extractor.LaterMarkerEmitted | libs/abeja-toolkit/notebook_exporter/src/notebook_exporter/extractor.py:98-109 | a later `# ToNotion` cell is emitted as ordinary markdown |
| Extractor.EmptyMarkdownSkipped | libs/abeja-toolkit/notebook_exporter/src/notebook_exporter/extractor.py:94-96 | a markdown cell with empty source gives nothing |
| Extractor.NoCodeCells | libs/abeja-toolkit/notebook_exporter/src/notebook_exporter/extractor.py:111-131 | no extracted cell is of type "code": code source is never emitted |
| Extractor.TargetedKinds | libs/abeja-toolkit/notebook_exporter/src/notebook_exporter/extractor.py:111-166 | a code cell gives exactly the cells of its outputs |
| Extractor.AllOutputsAreOutputs | libs/abeja-toolkit/notebook_exporter/src/notebook_exporter/extractor.py:152-166 | every cell from outputs is of type "output" |
| Extractor.FollowingAppend | libs/abeja-toolkit/notebook_exporter/src/notebook_exporter/extractor.py:91 | the cells of two runs of notebook cells are each run's cells, concatenated |
| Extractor.CodeCellOutputs | libs/abeja-toolkit/notebook_exporter/src/notebook_exporter/extractor.py:135-166 | the outputs loop returns exactly the output cells |
| Extractor.Extract | libs/abeja-toolkit/notebook_exporter/src/notebook_exporter/extractor.py:72-168 | the extraction loop returns exactly the extracted cells |

## Left out

- Network and file I/O: `client.py` and `notion.py` (the API calls), and the file open and `json.load` of `NotebookExtractor.extract`. The extractor starts from the list of already parsed cells.
- `decode_image` and PIL images: an image output carries its undecoded payload. `_get_comments_in_code` is not modelled, because its only caller is commented-out code.
- Regular expressions are replaced by scanners for the specific patterns used. `\d` is modelled as the ASCII digits, whereas Python's `re` also accepts other Unicode decimal digits. The classifier's `indent` argument is fixed at its default 2, which is the only value its caller uses.
- Python dict key order is not modelled: JSON objects are maps.
- pydantic validation is not modelled: colours, literals and field types are constrained by the Dafny types instead. A rich-text run has exactly one payload by construction.
- `block2markdown` reads dicts fetched from the store. Here it reads a typed record holding the fields it uses. A `KeyError` on a malformed dict is not modelled. A missing `children` is an empty list, which is what `.get("children", [])` gives.
- Extractor: notebook, cell, output and cell types are datatypes, so an unknown `output_type` is one variant. A missing `source`, `outputs`, `text` or `data` is modelled as empty, like the `.get` defaults. `image_keys` is a set rather than a list; only membership is used.
- Hierarchy.BuildHierarchy: requires a non-empty group. On an empty group the source raises an `UnboundLocalError` for `root`, but `_group_lines` never produces one.
- Inline.Typed: reads a link's URL as the link pattern's second group, whereas the code splits the whole link at its first `(` (Findings, first row). The runs below inherit this corrected reading.
- Inline.TypedRuns: uses the corrected link URL of `Inline.Typed`.
- Inline.MatchRun: uses the corrected link URL of `Inline.Typed`.
- Inline.EmitMatches: uses the corrected link URL of `Inline.Typed`.
- Inline.TextToRichText: uses the corrected link URL of `Inline.Typed`; for a link whose text holds `(` its run differs from the one the code builds.
- Materializer.LeafToBlock: the rich text of a leaf comes from `Inline.TextToRichText`, so it carries the corrected link URL.
- Materializer.HierarchyToBlocks: carries the corrected link URL of `Inline.TextToRichText`.
- Materializer.ContainerToBlock: carries the corrected link URL of `Inline.TextToRichText`.
- Materializer.FromMarkdown: carries the corrected link URL of `Inline.TextToRichText`.
- Utils.RenderHead: renders a to-do as one line holding all of its text (`Utils.TodoLine`), whereas the code emits one line per rich-text item (Findings, second row).
- Utils.Block2Markdown: renders a to-do with the corrected one-line `Utils.TodoLine`.
- Utils.Blocks2Markdown: renders each to-do with the corrected one-line `Utils.TodoLine`.
- In-place aliasing of `BlockGroup.children` is not modelled: the tree is built on values. The module comment of `Hierarchy` explains why the resulting child lists are the same.
- Utils.MakeBatch: the generator is modelled as the list of every batch it yields. The `ValueError` is modelled as an error result; the source raises it lazily, on the first `next()`, not at the call.
- Materializer: the tokenizer is a parameter of the lemmas, so they hold for any tokenizer. `FromMarkdown` uses `Inline.Tokenize`.

## Findings

| source | as written | input that shows it | evidently intended | confidence | as-written member | corrected member |
|---|---|---|---|---|---|---|
| libs/abeja-toolkit/notion_extension/src/notion_extension/blocks.py:162-165 | the URL is read as `link.split("(")[1].split(")")[0]`, which finds the first `(` of the whole link, including one in the link text | `[a(b](u)` (a whole match of the link pattern) gives the URL `b]` | the URL is the pattern's second group, `u` | not executed | Inline.ParenInLabelBreaksUrl | Inline.MarkdownLink |
| libs/abeja-toolkit/notion_extension/src/notion_extension/utils.py:78-87 | the to-do line is appended inside the loop over the rich-text items, each time with the text accumulated so far | a to-do with plain-text items "a" and "b" renders as "- [ ] a\n- [ ] ab\n" | one line, "- [ ] ab\n", as for the other list items | not executed | Utils.TodoTwoItems | Utils.TodoLine |

Behind each row:

- **Link URL.** `Inline.MarkdownLinkAsWritten` is the reading as written. `Inline.LinkAsWrittenAgrees` proves that it agrees with the corrected `Inline.MarkdownLink` whenever neither the text nor the URL holds `(`. `Inline.Typed` uses the corrected reading.
- **To-do lines.** `Utils.TodoAsWritten` is the rendering as written. `Utils.TodoAsWrittenRepeats` proves that it differs from the corrected rendering for every to-do of two or more items; with one item the two agree (`Utils.TodoAsWrittenSingle`). `Utils.Head` uses the corrected `Utils.TodoLine`.
