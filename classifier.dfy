/**
 * `Blocks._get_block_type_and_level`: one pass over the lines of a markdown
 * text that classifies every line by its leading marker and collapses fenced
 * code and equation regions into a single entry each.
 */
module Classifier {
  import opened PyStr

  /** The block type of a classified line; a heading keeps its number of `#`, uncapped. */
  datatype Kind = Heading(level: nat) | BulletedListItem | NumberedListItem | Paragraph | Code | Equation

  /** One entry `(block_type, indent_level, text)` of the classifier's output. */
  datatype Line = Line(kind: Kind, indent: nat, text: string)

  /** `\d`, restricted to the ASCII digits. */
  predicate IsDigit(c: char) { '0' <= c <= '9' }

  /** The characters a leading run is made of: `#` for headings, digits for numbered items. */
  datatype Class = Hash | Digit

  predicate InClass(cl: Class, c: char) {
    match cl
    case Hash => c == '#'
    case Digit => IsDigit(c)
  }

  /** The length of the longest prefix of `s` made of characters of class `cl`. */
  function RunLength(s: string, cl: Class): (n: nat)
    ensures n <= |s|
    ensures forall i :: 0 <= i < n ==> InClass(cl, s[i])
    ensures n < |s| ==> !InClass(cl, s[n])
    ensures n > 0 <==> s != [] && InClass(cl, s[0])
  {
    if s != [] && InClass(cl, s[0]) then 1 + RunLength(s[1..], cl) else 0
  }

  // ---- the five line patterns, as the regular expressions state them ----

  /** `^(#+) ` matches `s`, the group of hashes ending at `n`. */
  predicate HeadingAt(s: string, n: nat) {
    1 <= n < |s| && s[n] == ' ' && forall i :: 0 <= i < n ==> s[i] == '#'
  }

  /** `^(-|\*) ` matches `s`. */
  predicate BulletMatch(s: string) {
    |s| >= 2 && (s[0] == '-' || s[0] == '*') && s[1] == ' '
  }

  /** `^(\d+\.) ` matches `s`, the group of digits ending at `n`. */
  predicate NumberedAt(s: string, n: nat) {
    1 <= n && n + 1 < |s| && s[n] == '.' && s[n + 1] == ' ' && forall i :: 0 <= i < n ==> IsDigit(s[i])
  }

  /** `^\$\$` matches `s`. */
  predicate EquationFenceMatch(s: string) {
    |s| >= 2 && s[0] == '$' && s[1] == '$'
  }

  /** `^```` matches `s`. */
  predicate CodeFenceMatch(s: string) {
    |s| >= 3 && s[0] == '`' && s[1] == '`' && s[2] == '`'
  }

  /** What a stripped line is, with the text an item line contributes. */
  datatype Marker =
    | HeadingMark(level: nat, text: string)
    | BulletMark(text: string)
    | NumberedMark(text: string)
    | EquationFence
    | CodeFence
    | Plain

  /**
   * The patterns tried in order heading, bullet, numbered, `$$`, ```` ``` ````.
   * A heading's level is the number of leading `#` and its text `lstrip("# ")`;
   * a bullet's text is `lstrip("- *").rstrip("*")`; a numbered item's text is
   * whatever follows the match. `ClassifyHeading` and its siblings below state
   * the result against the patterns.
   */
  function Classify(s: string): Marker {
    var h := RunLength(s, Hash);
    var d := RunLength(s, Digit);
    if 1 <= h < |s| && s[h] == ' ' then HeadingMark(h, LStrip(s, OneOf("# ")))
    else if BulletMatch(s) then BulletMark(RStrip(LStrip(s, OneOf("- *")), OneOf("*")))
    else if 1 <= d && d + 1 < |s| && s[d] == '.' && s[d + 1] == ' ' then NumberedMark(s[d + 2..])
    else if EquationFenceMatch(s) then EquationFence
    else if CodeFenceMatch(s) then CodeFence
    else Plain
  }

  /** A line is a heading exactly when `^(#+) ` matches it; its level counts all the leading `#`. */
  lemma ClassifyHeading(s: string)
    ensures Classify(s).HeadingMark? <==> exists n :: HeadingAt(s, n)
    ensures forall n :: HeadingAt(s, n) ==> Classify(s) == HeadingMark(n, LStrip(s, OneOf("# ")))
  {
    var h := RunLength(s, Hash);
    if 1 <= h < |s| && s[h] == ' ' {
      assert HeadingAt(s, h);
    }
    forall n: nat | HeadingAt(s, n) ensures n == h {
    }
  }

  /** A line is a bullet exactly when `^(-|\*) ` matches it. */
  lemma ClassifyBullet(s: string)
    ensures Classify(s).BulletMark? <==> BulletMatch(s)
    ensures BulletMatch(s) ==> Classify(s) == BulletMark(RStrip(LStrip(s, OneOf("- *")), OneOf("*")))
  {
  }

  /** A line is a numbered item exactly when `^(\d+\.) ` matches it; its text follows the match. */
  lemma ClassifyNumbered(s: string)
    ensures Classify(s).NumberedMark? <==> exists n :: NumberedAt(s, n)
    ensures forall n :: NumberedAt(s, n) ==> Classify(s) == NumberedMark(s[n + 2..])
  {
    var d := RunLength(s, Digit);
    if s != [] && IsDigit(s[0]) {
      assert RunLength(s, Hash) == 0 && !BulletMatch(s);
    }
    if 1 <= d && d + 1 < |s| && s[d] == '.' && s[d + 1] == ' ' {
      assert NumberedAt(s, d);
    }
    forall n: nat | NumberedAt(s, n) ensures Classify(s) == NumberedMark(s[n + 2..]) {
      NumberedAtIsDigitRun(s, n);
    }
  }

  /** The digits `^(\d+\.) ` matches are all the leading digits. */
  lemma NumberedAtIsDigitRun(s: string, n: nat)
    requires NumberedAt(s, n)
    ensures n == RunLength(s, Digit)
  {
  }

  /** A line opens or closes a fence exactly when it starts with `$$` or with three backquotes. */
  lemma ClassifyFences(s: string)
    ensures Classify(s).EquationFence? <==> EquationFenceMatch(s)
    ensures Classify(s).CodeFence? <==> CodeFenceMatch(s)
  {
    if s != [] && (s[0] == '$' || s[0] == '`') {
      assert RunLength(s, Hash) == 0 && RunLength(s, Digit) == 0;
    }
  }

  // ---- the state machine ----

  /** `(len(line) - len(line.lstrip())) // 2`, measured on the unstripped line. */
  function IndentOf(raw: string): nat {
    (|raw| - |LStripWs(raw)|) / 2
  }

  /** A raw line as the loop sees it: its indent level, the stripped line, and the marker that line carries. */
  datatype Scanned = Scanned(indent: nat, text: string, marker: Marker)

  function Scan(raw: string): Scanned {
    Scanned(IndentOf(raw), StripWs(raw), Classify(StripWs(raw)))
  }

  function ScanAll(lines: seq<string>): (r: seq<Scanned>)
    ensures |r| == |lines| && forall i :: 0 <= i < |lines| ==> r[i] == Scan(lines[i])
  {
    seq(|lines|, i requires 0 <= i < |lines| => Scan(lines[i]))
  }

  /** The loop's variables: the two fence flags, their buffers, and the entries so far. */
  datatype State = State(inEquation: bool, inCode: bool, equationText: string, codeText: string, out: seq<Line>)

  const Start := State(false, false, "", "", [])

  /** One iteration of the loop, on a scanned line. */
  function Step(st: State, l: Scanned): State {
    match l.marker
    case HeadingMark(n, t) => st.(out := st.out + [Line(Heading(n), l.indent, t)])
    case BulletMark(t) => st.(out := st.out + [Line(BulletedListItem, l.indent, t)])
    case NumberedMark(t) => st.(out := st.out + [Line(NumberedListItem, l.indent, t)])
    case EquationFence =>
      if st.inEquation then st.(inEquation := false, out := st.out + [Line(Equation, l.indent, st.equationText)], equationText := "")
      else st.(inEquation := true)
    case CodeFence =>
      if st.inCode then st.(inCode := false, out := st.out + [Line(Code, l.indent, st.codeText)], codeText := "")
      else st.(inCode := true)
    case Plain =>
      if st.inEquation then st.(equationText := st.equationText + l.text + "\n")
      else if st.inCode then st.(codeText := st.codeText + l.text + "\n")
      // `line.strip()` of the already stripped line is the line itself (`PyStr.StripIdempotent`)
      else st.(out := st.out + [Line(Paragraph, l.indent, l.text)])
  }

  /** The loop run over `lines` from state `st`. */
  function Run(st: State, lines: seq<Scanned>): State
    decreases |lines|
  {
    if lines == [] then st else Step(Run(st, lines[..|lines| - 1]), lines[|lines| - 1])
  }

  /** The classifier's result on a whole markdown text, split at every `"\n"`. */
  function Classified(markdown: string): seq<Line> {
    Run(Start, ScanAll(Split(markdown, '\n'))).out
  }

  /** The loop of `_get_block_type_and_level`: every line is scanned, then handled by `HandleLine`. */
  method GetBlockTypeAndLevel(markdown: string) returns (blockTypes: seq<Line>)
    ensures blockTypes == Classified(markdown)
  {
    var lines := Split(markdown, '\n');
    ghost var scanned := ScanAll(lines);
    var inEquation, inCode := false, false;
    var equationText, codeText := "", "";
    blockTypes := [];
    for i := 0 to |lines|
      invariant Run(Start, scanned[..i]) == State(inEquation, inCode, equationText, codeText, blockTypes)
    {
      assert scanned[..i + 1][..i] == scanned[..i];
      assert Run(Start, scanned[..i + 1]) == Step(Run(Start, scanned[..i]), scanned[i]);
      inEquation, inCode, equationText, codeText, blockTypes :=
        HandleLine(inEquation, inCode, equationText, codeText, blockTypes, Scan(lines[i]));
    }
    assert scanned[..|lines|] == scanned;
  }

  /** The body of the loop for one scanned line: emit an entry, toggle a fence, or extend a buffer. */
  method HandleLine(inEquation: bool, inCode: bool, equationText: string, codeText: string, blockTypes: seq<Line>,
                    scanned: Scanned)
    returns (inEquation': bool, inCode': bool, equationText': string, codeText': string, blockTypes': seq<Line>)
    ensures State(inEquation', inCode', equationText', codeText', blockTypes')
         == Step(State(inEquation, inCode, equationText, codeText, blockTypes), scanned)
  {
    inEquation', inCode', equationText', codeText', blockTypes' := inEquation, inCode, equationText, codeText, blockTypes;
    var Scanned(indentLevel, line, marker) := scanned;
    match marker
    case HeadingMark(n, t) =>
      blockTypes' := blockTypes + [Line(Heading(n), indentLevel, t)];
    case BulletMark(t) =>
      blockTypes' := blockTypes + [Line(BulletedListItem, indentLevel, t)];
    case NumberedMark(t) =>
      blockTypes' := blockTypes + [Line(NumberedListItem, indentLevel, t)];
    case EquationFence =>
      if inEquation {
        inEquation' := false;
        blockTypes' := blockTypes + [Line(Equation, indentLevel, equationText)];
        equationText' := "";
      } else {
        inEquation' := true;
      }
    case CodeFence =>
      if inCode {
        inCode' := false;
        blockTypes' := blockTypes + [Line(Code, indentLevel, codeText)];
        codeText' := "";
      } else {
        inCode' := true;
      }
    case Plain =>
      if inEquation {
        equationText' := equationText + line + "\n";
      } else if inCode {
        codeText' := codeText + line + "\n";
      } else {
        blockTypes' := blockTypes + [Line(Paragraph, indentLevel, line)];
      }
  }

  // ---- properties ----

  /** Running over `a + b` is running over `a`, then over `b`. */
  lemma {:induction false} RunAppend(st: State, a: seq<Scanned>, b: seq<Scanned>)
    ensures Run(st, a + b) == Run(Run(st, a), b)
    decreases |b|
  {
    if b == [] {
      assert a + b == a;
    } else {
      var b' := b[..|b| - 1];
      assert (a + b)[..|a + b| - 1] == a + b';
      RunAppend(st, a, b');
    }
  }

  /** Entries are only ever appended: what was emitted stays, in order. */
  lemma {:induction false} OutputOnlyGrows(st: State, lines: seq<Scanned>)
    ensures |Run(st, lines).out| >= |st.out|
    ensures Run(st, lines).out[..|st.out|] == st.out
    decreases |lines|
  {
    if lines != [] {
      OutputOnlyGrows(st, lines[..|lines| - 1]);
    }
  }

  /** A buffer is empty whenever its fence is not open. */
  predicate BuffersClean(st: State) {
    (!st.inEquation ==> st.equationText == "") && (!st.inCode ==> st.codeText == "")
  }

  lemma {:induction false} RunKeepsBuffersClean(st: State, lines: seq<Scanned>)
    requires BuffersClean(st)
    ensures BuffersClean(Run(st, lines))
    decreases |lines|
  {
    if lines != [] {
      RunKeepsBuffersClean(st, lines[..|lines| - 1]);
    }
  }

  /** The text a fenced region accumulates: every inner line stripped, each followed by `"\n"`. */
  function FencedText(body: seq<Scanned>): string
    decreases |body|
  {
    if body == [] then "" else FencedText(body[..|body| - 1]) + body[|body| - 1].text + "\n"
  }

  /** Inside an open fence, plain lines only extend that fence's buffer. */
  lemma {:induction false} FenceBodyAccumulates(st: State, body: seq<Scanned>, code: bool)
    requires if code then st.inCode && !st.inEquation else st.inEquation
    requires forall i :: 0 <= i < |body| ==> body[i].marker.Plain?
    ensures code ==> Run(st, body) == st.(codeText := st.codeText + FencedText(body))
    ensures !code ==> Run(st, body) == st.(equationText := st.equationText + FencedText(body))
    decreases |body|
  {
    if body != [] {
      var body' := body[..|body| - 1];
      FenceBodyAccumulates(st, body', code);
    }
  }

  /**
   * A fenced region whose inner lines match no marker collapses into exactly one
   * `code` (or `equation`) entry at the closing line's indent; the opening fence
   * emits nothing and the buffer is empty again afterwards.
   */
  lemma FenceCollapses(st: State, open: Scanned, body: seq<Scanned>, close: Scanned, code: bool)
    requires !st.inEquation && !st.inCode && BuffersClean(st)
    requires open.marker == close.marker == (if code then CodeFence else EquationFence)
    requires forall i :: 0 <= i < |body| ==> body[i].marker.Plain?
    ensures Run(st, [open] + body + [close])
         == st.(out := st.out + [Line(if code then Code else Equation, close.indent, FencedText(body))])
  {
    var afterOpen := Step(st, open);
    assert [open][..0] == [];
    assert Run(st, [open]) == afterOpen;
    RunAppend(st, [open], body);
    FenceBodyAccumulates(afterOpen, body, code);
    var mid := Run(st, [open] + body);
    RunAppend(st, [open] + body, [close]);
    assert [close][..0] == [];
    assert Run(mid, [close]) == Step(mid, close);
    if code {
      assert mid == st.(inCode := true, codeText := FencedText(body));
    } else {
      assert mid == st.(inEquation := true, equationText := FencedText(body));
    }
  }

  /** A code fence that is never closed is never flushed: no `code` entry is emitted and the fence stays open. */
  lemma {:induction false} UnterminatedCodeFence(st: State, rest: seq<Scanned>)
    requires st.inCode
    requires forall i :: 0 <= i < |rest| ==> !rest[i].marker.CodeFence?
    ensures Run(st, rest).inCode
    ensures |Run(st, rest).out| >= |st.out|
    ensures forall i :: |st.out| <= i < |Run(st, rest).out| ==> Run(st, rest).out[i].kind != Code
    decreases |rest|
  {
    if rest != [] {
      UnterminatedCodeFence(st, rest[..|rest| - 1]);
    }
  }

  /** An equation fence that is never closed is never flushed. */
  lemma {:induction false} UnterminatedEquationFence(st: State, rest: seq<Scanned>)
    requires st.inEquation
    requires forall i :: 0 <= i < |rest| ==> !rest[i].marker.EquationFence?
    ensures Run(st, rest).inEquation
    ensures |Run(st, rest).out| >= |st.out|
    ensures forall i :: |st.out| <= i < |Run(st, rest).out| ==> Run(st, rest).out[i].kind != Equation
    decreases |rest|
  {
    if rest != [] {
      UnterminatedEquationFence(st, rest[..|rest| - 1]);
    }
  }

  /** A heading, bullet or numbered line is emitted as a block even inside a fence, and leaves the fences as they are. */
  lemma MarkerInsideFence(st: State, l: Scanned)
    requires l.marker.HeadingMark? || l.marker.BulletMark? || l.marker.NumberedMark?
    ensures Step(st, l).inEquation == st.inEquation && Step(st, l).inCode == st.inCode
    ensures Step(st, l).equationText == st.equationText && Step(st, l).codeText == st.codeText
    ensures |Step(st, l).out| == |st.out| + 1 && Step(st, l).out[..|st.out|] == st.out
  {
  }

  /** Outside fences, a text ending in `"\n"` ends with an empty indent-0 paragraph. */
  lemma TrailingNewline(markdown: string)
    requires !Run(Start, ScanAll(Split(markdown, '\n'))).inEquation && !Run(Start, ScanAll(Split(markdown, '\n'))).inCode
    ensures Classified(markdown + "\n") == Classified(markdown) + [Line(Paragraph, 0, "")]
  {
    var lines := Split(markdown, '\n');
    SplitSnoc(markdown, '\n');
    ScanAllSnocEmpty(lines);
    EmptyLineIsParagraph(ScanAll(lines));
  }

  lemma ScanAllSnocEmpty(lines: seq<string>)
    ensures ScanAll(lines + [""]) == ScanAll(lines) + [Scanned(0, "", Plain)]
  {
    ScanAllSnoc(lines, "");
    ScanEmptyLine();
  }

  lemma EmptyLineIsParagraph(lines: seq<Scanned>)
    requires !Run(Start, lines).inEquation && !Run(Start, lines).inCode
    ensures Run(Start, lines + [Scanned(0, "", Plain)]).out == Run(Start, lines).out + [Line(Paragraph, 0, "")]
  {
    RunSnoc(Start, lines, Scanned(0, "", Plain));
  }

  lemma ScanAllSnoc(lines: seq<string>, raw: string)
    ensures ScanAll(lines + [raw]) == ScanAll(lines) + [Scan(raw)]
  {
  }

  lemma RunSnoc(st: State, lines: seq<Scanned>, l: Scanned)
    ensures Run(st, lines + [l]) == Step(Run(st, lines), l)
  {
    assert (lines + [l])[..|lines|] == lines;
  }

  /** An empty line is a plain line at indent 0. */
  lemma ScanEmptyLine()
    ensures Scan("") == Scanned(0, "", Plain)
  {
  }

  /** `k` spaces in front of a line not starting with whitespace give indent level `k // 2`. */
  lemma {:induction false} IndentOfSpaces(k: nat, s: string)
    requires s == [] || !IsSpace(s[0])
    ensures IndentOf(seq(k, _ => ' ') + s) == k / 2
  {
    LStripSpaces(k, s);
  }

  lemma {:induction false} LStripSpaces(k: nat, s: string)
    requires s == [] || !IsSpace(s[0])
    ensures LStripWs(seq(k, _ => ' ') + s) == s
  {
    if k > 0 {
      assert (seq(k, _ => ' ') + s)[1..] == seq(k - 1, _ => ' ') + s;
      LStripSpaces(k - 1, s);
    } else {
      assert seq(k, _ => ' ') + s == s;
    }
  }

  /** A heading's level is the number of its `#`, not capped at three. */
  lemma HeadingLevelUncapped(k: nat, t: string)
    requires k >= 1
    ensures Classify(seq(k, _ => '#') + " " + t).HeadingMark?
    ensures Classify(seq(k, _ => '#') + " " + t).level == k
  {
    var s := seq(k, _ => '#') + " " + t;
    assert HeadingAt(s, k);
    ClassifyHeading(s);
  }
}
