/**
 * `NotebookExtractor` of the notebook exporter: over the cells of an already parsed
 * notebook, drop everything up to the first markdown cell reading `# ToNotion`, then
 * keep the markdown cells and the outputs of the code cells (never their source),
 * each output reduced to one MIME type chosen by priority.
 */
module Extractor {
  import opened Wrappers
  import PyStr
  import opened Seqs

  /** An image payload as the notebook stores it; `decode_image` would turn it into a picture. */
  type ImagePayload = seq<string>

  /** The `output_type` of a code cell output. */
  datatype OutputType = Stream | ExecuteResult | DisplayData | OtherOutput(name: string)

  /** A code cell output: its type, its `text` (a stream's lines) and its `data` MIME bundle, both empty when absent. */
  datatype Output = Output(outputType: OutputType, text: seq<string>, data: map<string, seq<string>>)

  /** The `cell_type` of a notebook cell. */
  datatype CellType = MarkdownCell | CodeCell | OtherCell(name: string)

  /** A notebook cell: its type, its `source` lines and its `outputs`, both empty when absent. */
  datatype NotebookCell = NotebookCell(cellType: CellType, source: seq<string>, outputs: seq<Output>)

  /** The content of an output: text, or an image still in its stored form. */
  datatype Content = Text(text: string) | Image(payload: ImagePayload)

  /** The `type` of an extracted `Cell`. */
  datatype CellKind = Code | Markdown | OutputKind

  /** The extracted `Cell` of data.py. */
  datatype Cell = Cell(kind: CellKind, mimeType: string, text: Option<string>, image: Option<ImagePayload>)

  const Jpeg := "image/jpeg"
  const Png := "image/png"
  const Plain := "text/plain"

  /** `_get_stream_content`: plain text, the stream's lines joined. */
  function StreamContent(o: Output): (r: (string, string))
    ensures r.0 == Plain
  {
    (Plain, PyStr.Concat(o.text))
  }

  /** `_get_execute_result_content`: a JPEG, else a PNG, else the plain text, else nothing. */
  function ExecuteResultContent(o: Output): Option<(string, Content)> {
    var data := o.data;
    if Jpeg in data then Some((Jpeg, Image(data[Jpeg])))
    else if Png in data then Some((Png, Image(data[Png])))
    else if Plain in data then Some((Plain, Text(PyStr.Concat(data[Plain]))))
    else None
  }

  /** The keys of a MIME bundle that contain `image`. */
  function ImageKeys(data: map<string, seq<string>>): (r: set<string>)
    ensures forall k :: k in r <==> k in data && PyStr.Contains(k, "image")
  {
    set k | k in data && PyStr.Contains(k, "image")
  }

  /** `_get_display_data_content`: among the image keys, a JPEG, else a PNG, else nothing. */
  function DisplayDataContent(o: Output): Option<(string, Content)> {
    var data := o.data;
    var imageKeys := ImageKeys(data);
    if Jpeg in imageKeys then Some((Jpeg, Image(data[Jpeg])))
    else if Png in imageKeys then Some((Png, Image(data[Png])))
    else None
  }

  /** Python truthiness of the content: an empty text is false, a decoded image is always true. */
  predicate Truthy(c: Content) {
    c.Image? || c.text != ""
  }

  /** The `Cell` an output with a MIME type and a content becomes. */
  function OutputCell(mimeType: string, c: Content): Cell {
    match c
    case Text(t) => Cell(OutputKind, mimeType, Some(t), None)
    case Image(p) => Cell(OutputKind, mimeType, None, Some(p))
  }

  /** The MIME type and content an output yields, by its type; nothing for an unknown type. */
  function Selected(o: Output): Option<(string, Content)> {
    match o.outputType
    case Stream => var (m, t) := StreamContent(o); Some((m, Text(t)))
    case ExecuteResult => ExecuteResultContent(o)
    case DisplayData => DisplayDataContent(o)
    case OtherOutput(_) => None
  }

  /** What one output contributes: its cell when the selected content and MIME type are truthy. */
  function OutputCells(o: Output): seq<Cell> {
    match Selected(o)
    case Some((m, c)) => if Truthy(c) && m != "" then [OutputCell(m, c)] else []
    case None => []
  }

  /** The cells of a code cell's outputs, in order. */
  function AllOutputCells(os: seq<Output>): seq<Cell> {
    if os == [] then [] else AllOutputCells(os[..|os| - 1]) + OutputCells(os[|os| - 1])
  }

  /** The cell that starts the extraction: a markdown cell with a source that joins to `# ToNotion`. */
  predicate IsMarker(c: NotebookCell) {
    c.cellType == MarkdownCell && c.source != [] && PyStr.Concat(c.source) == "# ToNotion"
  }

  /** What a cell contributes once the extraction has started: a markdown cell with a source as markdown, a code cell's outputs. */
  function Targeted(c: NotebookCell): seq<Cell> {
    match c.cellType
    case MarkdownCell => if c.source != [] then [Cell(Markdown, "text/markdown", Some(PyStr.Concat(c.source)), None)] else []
    case CodeCell => AllOutputCells(c.outputs)
    case OtherCell(_) => []
  }

  /** `is_target` after the given cells: whether one of them was the marker. */
  function Started(cells: seq<NotebookCell>): bool {
    if cells == [] then false else Started(cells[..|cells| - 1]) || IsMarker(cells[|cells| - 1])
  }

  /** `outputs` after the given cells: nothing from a cell met before the marker was seen. */
  function Extracted(cells: seq<NotebookCell>): seq<Cell> {
    if cells == [] then []
    else
      var init := cells[..|cells| - 1];
      Extracted(init) + (if Started(init) then Targeted(cells[|cells| - 1]) else [])
  }

  /** The cells that follow the marker, each contributing what it contributes once started, in order. */
  function Following(cells: seq<NotebookCell>): seq<Cell> {
    FlatMap(Targeted, cells)
  }

  // ---- the content helpers ----

  /** The execute-result priority: JPEG over PNG over plain text, and nothing without any of them. */
  lemma ExecuteResultPriority(o: Output)
    ensures ExecuteResultContent(o).None? <==> Jpeg !in o.data && Png !in o.data && Plain !in o.data
    ensures Jpeg in o.data ==> ExecuteResultContent(o) == Some((Jpeg, Image(o.data[Jpeg])))
    ensures Jpeg !in o.data && Png in o.data ==> ExecuteResultContent(o) == Some((Png, Image(o.data[Png])))
    ensures Jpeg !in o.data && Png !in o.data && Plain in o.data ==>
      ExecuteResultContent(o) == Some((Plain, Text(PyStr.Concat(o.data[Plain]))))
  {
  }

  /** `image/jpeg` and `image/png` contain `image`, and `text/plain` does not. */
  lemma ImageKeyNames(data: map<string, seq<string>>)
    ensures Jpeg in ImageKeys(data) <==> Jpeg in data
    ensures Png in ImageKeys(data) <==> Png in data
    ensures Plain !in ImageKeys(data)
  {
    assert Jpeg[..5] == "image";
    assert Png[..5] == "image";
    assert 'm' !in Plain;
    MissingCharNotContained(Plain, "image", 'm');
  }

  /** A string lacking one of the characters of `sub` does not contain `sub`. */
  lemma {:induction false} MissingCharNotContained(s: string, sub: string, c: char)
    requires c in sub && c !in s
    ensures !PyStr.Contains(s, sub)
    decreases |s|
  {
    if |sub| <= |s| {
      assert c !in s[1..];
      MissingCharNotContained(s[1..], sub, c);
    }
  }

  /** Display data is only ever an image, JPEG over PNG, whatever text it also holds; without either image it yields nothing. */
  lemma DisplayDataPriority(o: Output)
    ensures DisplayDataContent(o).None? <==> Jpeg !in o.data && Png !in o.data
    ensures Jpeg in o.data ==> DisplayDataContent(o) == Some((Jpeg, Image(o.data[Jpeg])))
    ensures Jpeg !in o.data && Png in o.data ==> DisplayDataContent(o) == Some((Png, Image(o.data[Png])))
    ensures DisplayDataContent(o).Some? ==> DisplayDataContent(o).value.1.Image?
  {
    ImageKeyNames(o.data);
  }

  /** An output yields a cell exactly when its type is known and it selects a truthy content; the cell carries that content under its MIME type. */
  lemma OutputCellsIff(o: Output)
    ensures |OutputCells(o)| <= 1
    ensures OutputCells(o) != [] <==> Selected(o).Some? && Truthy(Selected(o).value.1)
    ensures OutputCells(o) != [] ==>
      var (m, c) := Selected(o).value;
      OutputCells(o)[0].kind == OutputKind && OutputCells(o)[0].mimeType == m
      && (c.Text? ==> OutputCells(o)[0].text == Some(c.text) && OutputCells(o)[0].image == None)
      && (c.Image? ==> OutputCells(o)[0].image == Some(c.payload) && OutputCells(o)[0].text == None)
    ensures o.outputType.OtherOutput? ==> OutputCells(o) == []
  {
    match Selected(o) {
      case Some((m, c)) =>
        assert m == Jpeg || m == Png || m == Plain;
        ExecuteResultPriority(o);
        DisplayDataPriority(o);
      case None =>
    }
  }

  /** A stream with no text, or text that joins to nothing, yields no cell. */
  lemma EmptyStreamSkipped(o: Output)
    requires o.outputType == Stream && PyStr.Concat(o.text) == ""
    ensures OutputCells(o) == []
  {
  }

  // ---- the extraction ----

  /** The extraction has started after a prefix exactly when the prefix holds the marker. */
  lemma {:induction false} StartedIff(cells: seq<NotebookCell>)
    ensures Started(cells) <==> exists i :: 0 <= i < |cells| && IsMarker(cells[i])
  {
    if cells != [] {
      var init := cells[..|cells| - 1];
      StartedIff(init);
      if exists i :: 0 <= i < |init| && IsMarker(init[i]) {
        var i :| 0 <= i < |init| && IsMarker(init[i]);
        assert cells[i] == init[i];
      }
      if exists i :: 0 <= i < |cells| && IsMarker(cells[i]) {
        var i :| 0 <= i < |cells| && IsMarker(cells[i]);
        if i < |init| {
          assert init[i] == cells[i];
        }
      }
    }
  }

  /** Before the marker is seen nothing is extracted. */
  lemma {:induction false} NothingBeforeMarker(cells: seq<NotebookCell>)
    requires !Started(cells)
    ensures Extracted(cells) == []
  {
    if cells != [] {
      NothingBeforeMarker(cells[..|cells| - 1]);
    }
  }

  /** From the first marker on, the extraction is what the cells after the marker contribute, in order: the marker itself is not emitted. */
  lemma {:induction false} ExtractedAfterMarker(cells: seq<NotebookCell>, i: nat, k: nat)
    requires i < k <= |cells| && !Started(cells[..i]) && Started(cells[..i + 1])
    ensures Extracted(cells[..k]) == Following(cells[i + 1..k])
    decreases k
  {
    if k == i + 1 {
      ExtractedAtMarker(cells, i);
    } else {
      ExtractedAfterMarker(cells, i, k - 1);
      ExtractedStep(cells, i, k);
    }
  }

  /** Right after the marker nothing has been extracted yet. */
  lemma ExtractedAtMarker(cells: seq<NotebookCell>, i: nat)
    requires i < |cells| && !Started(cells[..i])
    ensures Extracted(cells[..i + 1]) == [] && Following(cells[i + 1..i + 1]) == []
  {
    ExtractedSnoc(cells, i + 1);
    NothingBeforeMarker(cells[..i]);
    assert cells[i + 1..i + 1] == [];
  }

  /** Past the marker, one more cell adds its contribution to both sides. */
  lemma ExtractedStep(cells: seq<NotebookCell>, i: nat, k: nat)
    requires i + 1 < k <= |cells| && Started(cells[..i + 1])
    requires Extracted(cells[..k - 1]) == Following(cells[i + 1..k - 1])
    ensures Extracted(cells[..k]) == Following(cells[i + 1..k])
  {
    ExtractedSnoc(cells, k);
    StartedMonotone(cells, i + 1, k - 1);
    FollowingSnoc(cells, i + 1, k);
  }

  /** `Extracted` of a prefix, one cell at a time. */
  lemma ExtractedSnoc(cells: seq<NotebookCell>, k: nat)
    requires 0 < k <= |cells|
    ensures Extracted(cells[..k]) == Extracted(cells[..k - 1]) + (if Started(cells[..k - 1]) then Targeted(cells[k - 1]) else [])
  {
    assert cells[..k][..k - 1] == cells[..k - 1];
    assert cells[..k][k - 1] == cells[k - 1];
  }

  /** `Started` of a prefix, one cell at a time. */
  lemma StartedSnoc(cells: seq<NotebookCell>, k: nat)
    requires 0 < k <= |cells|
    ensures Started(cells[..k]) == (Started(cells[..k - 1]) || IsMarker(cells[k - 1]))
  {
    assert cells[..k][..k - 1] == cells[..k - 1];
    assert cells[..k][k - 1] == cells[k - 1];
  }

  /** `Following` of a slice, one cell at a time. */
  lemma FollowingSnoc(cells: seq<NotebookCell>, a: nat, b: nat)
    requires a < b <= |cells|
    ensures Following(cells[a..b]) == Following(cells[a..b - 1]) + Targeted(cells[b - 1])
  {
    var after := cells[a..b];
    assert after[..|after| - 1] == cells[a..b - 1];
    assert after[|after| - 1] == cells[b - 1];
  }

  /** Once started, the extraction stays started. */
  lemma {:induction false} StartedMonotone(cells: seq<NotebookCell>, j: nat, k: nat)
    requires j <= k <= |cells| && Started(cells[..j])
    ensures Started(cells[..k])
    decreases k - j
  {
    if j < k {
      assert cells[..j + 1][..j] == cells[..j];
      StartedMonotone(cells, j + 1, k);
    }
  }

  /** The whole notebook: nothing without a marker, and what follows the first marker otherwise. */
  lemma ExtractedShape(cells: seq<NotebookCell>)
    ensures (forall i :: 0 <= i < |cells| ==> !IsMarker(cells[i])) ==> Extracted(cells) == []
    ensures forall i :: 0 <= i < |cells| && IsMarker(cells[i]) && !Started(cells[..i]) ==>
      Extracted(cells) == Following(cells[i + 1..])
  {
    StartedIff(cells);
    if !Started(cells) {
      NothingBeforeMarker(cells);
    }
    forall i | 0 <= i < |cells| && IsMarker(cells[i]) && !Started(cells[..i])
      ensures Extracted(cells) == Following(cells[i + 1..])
    {
      StartedSnoc(cells, i + 1);
      ExtractedAfterMarker(cells, i, |cells|);
      assert cells[..|cells|] == cells;
    }
  }

  /** A marker cell met after the start is emitted as markdown like any other. */
  lemma LaterMarkerEmitted(c: NotebookCell)
    requires IsMarker(c)
    ensures Targeted(c) == [Cell(Markdown, "text/markdown", Some("# ToNotion"), None)]
  {
  }

  /** A markdown cell without source contributes nothing. */
  lemma EmptyMarkdownSkipped(c: NotebookCell)
    requires c.cellType == MarkdownCell && c.source == []
    ensures Targeted(c) == []
  {
  }

  /** The source of a code cell is never emitted: its contribution is its outputs, and every extracted cell is markdown or an output. */
  lemma {:induction false} NoCodeCells(cells: seq<NotebookCell>)
    ensures forall j :: 0 <= j < |Extracted(cells)| ==> Extracted(cells)[j].kind != Code
  {
    if cells != [] {
      var init := cells[..|cells| - 1];
      NoCodeCells(init);
      if Started(init) {
        TargetedKinds(cells[|cells| - 1]);
      }
    }
  }

  lemma TargetedKinds(c: NotebookCell)
    ensures forall j :: 0 <= j < |Targeted(c)| ==> Targeted(c)[j].kind != Code
    ensures c.cellType == CodeCell ==> Targeted(c) == AllOutputCells(c.outputs)
  {
    if c.cellType == CodeCell {
      AllOutputsAreOutputs(c.outputs);
    }
  }

  lemma {:induction false} AllOutputsAreOutputs(os: seq<Output>)
    ensures forall j :: 0 <= j < |AllOutputCells(os)| ==> AllOutputCells(os)[j].kind == OutputKind
  {
    if os != [] {
      AllOutputsAreOutputs(os[..|os| - 1]);
    }
  }

  /** The cells after the marker contribute in notebook order: two runs of cells one after the other contribute one after the other. */
  lemma FollowingAppend(a: seq<NotebookCell>, b: seq<NotebookCell>)
    ensures Following(a + b) == Following(a) + Following(b)
  {
    FlatMapAppend(Targeted, a, b);
  }

  // ---- the loops ----

  /** The loop over a code cell's outputs. */
  method CodeCellOutputs(os: seq<Output>) returns (cells: seq<Cell>)
    ensures cells == AllOutputCells(os)
  {
    cells := [];
    for i := 0 to |os|
      invariant cells == AllOutputCells(os[..i])
    {
      assert os[..i + 1][..i] == os[..i];
      var output := os[i];
      var mimeType: string, content: Content;
      match output.outputType {
        case Stream =>
          var (m, t) := StreamContent(output);
          mimeType, content := m, Text(t);
        case ExecuteResult =>
          var r := ExecuteResultContent(output);
          if r.None? {
            continue;
          }
          mimeType, content := r.value.0, r.value.1;
        case DisplayData =>
          var r := DisplayDataContent(output);
          if r.None? {
            continue;
          }
          mimeType, content := r.value.0, r.value.1;
        case OtherOutput(_) =>
          continue;
      }
      if Truthy(content) && mimeType != "" {
        cells := cells + [OutputCell(mimeType, content)];
      }
    }
    assert os[..|os|] == os;
  }

  /** `NotebookExtractor.extract` over the parsed cells. */
  method Extract(notebook: seq<NotebookCell>) returns (outputs: seq<Cell>)
    ensures outputs == Extracted(notebook)
  {
    outputs := [];
    var isTarget := false;
    for i := 0 to |notebook|
      invariant outputs == Extracted(notebook[..i]) && isTarget == Started(notebook[..i])
    {
      var cell := notebook[i];
      assert notebook[..i + 1][..i] == notebook[..i];
      assert notebook[..i + 1][i] == cell;
      match cell.cellType {
        case MarkdownCell =>
          var source := cell.source;
          if source != [] {
            var markdown := PyStr.Concat(source);
            if !isTarget && markdown == "# ToNotion" {
              isTarget := true;
              continue;
            }
            if isTarget {
              outputs := outputs + [Cell(Markdown, "text/markdown", Some(markdown), None)];
            }
          }
        case CodeCell =>
          if !isTarget {
            continue;
          }
          var cells := CodeCellOutputs(cell.outputs);
          outputs := outputs + cells;
        case OtherCell(_) =>
      }
    }
    assert notebook[..|notebook|] == notebook;
  }
}
