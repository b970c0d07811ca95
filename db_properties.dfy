/**
 * The database page properties of db_properties.py: one variant per property
 * class, the wire form `format()` gives each of them, the `Property` factory
 * methods, and `Properties.format`, which merges the per-property dicts.
 */
module DbProperties {
  import opened Wrappers
  import opened Wire
  import opened Colors
  import O = Objects
  import BF = BlockFactory

  /** A property of a database page: its name on the database and its content. */
  datatype Property =
    | Title(name: string, text: O.Text)
    | Status(name: string, status: Option<string>)
    | Description(name: string, richText: seq<O.RichText>)
    | Checkbox(name: string, checked: bool)
    | Select(name: string, option: Option<string>)
    | MultiSelect(name: string, options: seq<Option<string>>)
    | Url(name: string, url: Option<string>)
    | Date(name: string, start: string, end: Option<string>)
    | People(name: string, people: seq<map<string, Json>>)

  /** The `type` literal of each property class. */
  function TypeTag(p: Property): string {
    match p
    case Title(_, _) => "title"
    case Status(_, _) => "status"
    case Description(_, _) => "rich_text"
    case Checkbox(_, _) => "checkbox"
    case Select(_, _) => "select"
    case MultiSelect(_, _) => "multi_select"
    case Url(_, _) => "url"
    case Date(_, _, _) => "date"
    case People(_, _) => "people"
  }

  /** `{"name": n}` for an option with a name, `{}` for one without (`model_dump(exclude_none=True)`). */
  function OptionDump(option: Option<string>): map<string, Json> {
    Put(map[], "name", O.OptStr(option))
  }

  /**
   * What `format()` puts under the property's name. Checkbox and URL dump their content
   * directly, whose one field happens to be named like the type; the others wrap it under the type.
   */
  function Contents(p: Property): map<string, Json> {
    match p
    case Title(_, text) => map["title" := JArr([JObj(map["text" := JObj(O.TextDump(text))])])]
    case Status(_, status) => map["status" := JObj(OptionDump(status))]
    case Description(_, rt) => map["rich_text" := O.RichTextsDump(rt)]
    case Checkbox(_, checked) => map["checkbox" := JBool(checked)]
    case Select(_, option) => map["select" := JObj(OptionDump(option))]
    case MultiSelect(_, options) =>
      map["multi_select" := JArr(seq(|options|, i requires 0 <= i < |options| => JObj(OptionDump(options[i]))))]
    case Url(_, url) => Put(map[], "url", O.OptStr(url))
    case Date(_, start, end) => map["date" := JObj(Put(map["start" := JStr(start)], "end", O.OptStr(end)))]
    case People(_, people) => map["people" := JArr(seq(|people|, i requires 0 <= i < |people| => JObj(people[i])))]
  }

  /** `*Property.format()`: a one-key dict from the property's name to its contents. */
  function Format(p: Property): (r: map<string, Json>)
    ensures r.Keys == {p.name} && r[p.name] == JObj(Contents(p))
  {
    map[p.name := JObj(Contents(p))]
  }

  /** The contents always have the type as their only key, except a URL property without a URL, whose contents are empty. */
  lemma ContentsKeys(p: Property)
    ensures p.Url? && p.url.None? ==> Contents(p) == map[]
    ensures !(p.Url? && p.url.None?) ==> Contents(p).Keys == {TypeTag(p)}
  {
  }

  /** A date omits `end` exactly when none is given. */
  lemma DateEndOmitted(name: string, start: string, end: Option<string>)
    ensures var d := Contents(Date(name, start, end))["date"];
      d.JObj? && "start" in d.fields && d.fields["start"] == JStr(start) && ("end" in d.fields <==> end.Some?)
  {
    PutShape(map["start" := JStr(start)], "end", O.OptStr(end));
  }

  // ---- the `Property` factory methods, stated by the wire form they format to ----

  /** `Property.title`: a one-element `title` list holding the text. */
  function TitleOf(name: string, text: string): (p: Property)
    ensures Format(p) == map[name := JObj(map["title" := JArr([JObj(map["text" := JObj(map["content" := JStr(text)])])])])]
  {
    Title(name, O.Text(text, None))
  }

  /** `Property.status`: `{"status": {"name": s}}`, or `{"status": {}}` without a status. */
  function StatusOf(name: string, status: Option<string> := None): (p: Property)
    ensures Format(p) == map[name := JObj(map["status" := JObj(if status.Some? then map["name" := JStr(status.value)] else map[])])]
  {
    Status(name, status)
  }

  /** `Property.description`: a one-element `rich_text` list, a text run carrying the given annotations. */
  function DescriptionOf(name: string, text: string, bold: bool := false, italic: bool := false, strikethrough: bool := false,
                         underline: bool := false, code: bool := false, color: Option<Color> := Some(Default)): (p: Property)
    ensures Format(p).Keys == {name}
    ensures Format(p)[name].JObj? && Format(p)[name].fields.Keys == {"rich_text"}
    ensures var items := Format(p)[name].fields["rich_text"];
      items.JArr? && |items.items| == 1 && items.items[0].JObj?
      && BF.TextRunShape(items.items[0].fields, text, None, BF.Style(bold, italic, strikethrough, underline, code, color))
  {
    var style := BF.Style(bold, italic, strikethrough, underline, code, color);
    var run := O.RichText(O.TextPayload(O.Text(text, None)),
                          Some(O.Annotations(bold, italic, strikethrough, underline, code, color)), None, None);
    assert run == BF.StyledRun(text, style);
    assert O.RichTextsDump([run]) == JArr([JObj(O.RichTextDump(run))]);
    Description(name, [run])
  }

  /** `Property.checkbox`: `{"checkbox": b}`, not wrapped, unchecked by default. */
  function CheckboxOf(name: string, checkbox: bool := false): (p: Property)
    ensures Format(p) == map[name := JObj(map["checkbox" := JBool(checkbox)])]
  {
    Checkbox(name, checkbox)
  }

  /** `Property.select`: `{"select": {"name": value}}`. */
  function SelectOf(name: string, value: string): (p: Property)
    ensures Format(p) == map[name := JObj(map["select" := JObj(map["name" := JStr(value)])])]
  {
    Select(name, Some(value))
  }

  /** `Property.multi_select`: one option dict per value, in the order of the values. */
  function MultiSelectOf(name: string, values: seq<string>): (p: Property)
    ensures Format(p).Keys == {name}
    ensures Format(p)[name] == JObj(map["multi_select" := JArr(seq(|values|, i requires 0 <= i < |values| => JObj(map["name" := JStr(values[i])])))])
  {
    var options := seq(|values|, i requires 0 <= i < |values| => Some(values[i]));
    assert forall i :: 0 <= i < |values| ==> OptionDump(options[i]) == map["name" := JStr(values[i])];
    assert seq(|options|, i requires 0 <= i < |options| => JObj(OptionDump(options[i])))
        == seq(|values|, i requires 0 <= i < |values| => JObj(map["name" := JStr(values[i])]));
    MultiSelect(name, options)
  }

  /** `Property.url`: `{"url": u}`, not wrapped. */
  function UrlOf(name: string, url: string): (p: Property)
    ensures Format(p) == map[name := JObj(map["url" := JStr(url)])]
  {
    Url(name, Some(url))
  }

  /** `Property.date`: the start, and the end only when one is given. */
  function DateOf(name: string, start: string, end: Option<string> := None): (p: Property)
    ensures Format(p) == map[name := JObj(map["date" := JObj(if end.Some? then map["start" := JStr(start), "end" := JStr(end.value)]
                                                             else map["start" := JStr(start)])])]
  {
    Date(name, start, end)
  }

  /** `Property.people`: the user objects as given, in order. */
  function PeopleOf(name: string, people: seq<map<string, Json>>): (p: Property)
    ensures Format(p) == map[name := JObj(map["people" := JArr(seq(|people|, i requires 0 <= i < |people| => JObj(people[i])))])]
  {
    People(name, people)
  }

  // ---- Properties.format ----

  /** The dicts of the properties merged in list order, a later one replacing an earlier one of the same name. */
  function Merged(props: seq<Property>): map<string, Json> {
    if props == [] then map[] else Merged(props[..|props| - 1]) + Format(props[|props| - 1])
  }

  /** A name is a key of the merged dict exactly when some property has that name. */
  lemma {:induction false} MergedKey(props: seq<Property>, k: string)
    ensures k in Merged(props) <==> exists i :: 0 <= i < |props| && props[i].name == k
  {
    if props != [] {
      var n := |props|;
      var init := props[..n - 1];
      MergedKey(init, k);
      assert Merged(props) == Merged(init) + Format(props[n - 1]);
      if k in Merged(init) {
        var i :| 0 <= i < |init| && init[i].name == k;
        assert props[i] == init[i];
      }
      if exists i :: 0 <= i < n && props[i].name == k {
        var i :| 0 <= i < n && props[i].name == k;
        if i < n - 1 {
          assert init[i] == props[i];
        }
      }
    }
  }

  /** The merged dict has one key per distinct property name, and no other. */
  lemma MergedKeys(props: seq<Property>)
    ensures forall k :: k in Merged(props) <==> exists i :: 0 <= i < |props| && props[i].name == k
  {
    forall k ensures k in Merged(props) <==> exists i :: 0 <= i < |props| && props[i].name == k {
      MergedKey(props, k);
    }
  }

  /** Under each name stands the contents of the last property of that name. */
  lemma {:induction false} MergedLastWins(props: seq<Property>, i: nat)
    requires i < |props|
    requires forall j :: i < j < |props| ==> props[j].name != props[i].name
    ensures props[i].name in Merged(props) && Merged(props)[props[i].name] == JObj(Contents(props[i]))
  {
    var n := |props|;
    var init, last := props[..n - 1], props[n - 1];
    assert Merged(props) == Merged(init) + Format(last);
    if i < n - 1 {
      assert init[i] == props[i];
      forall j | i < j < |init| ensures init[j].name != init[i].name {
        assert init[j] == props[j];
      }
      MergedLastWins(init, i);
      assert last.name != props[i].name;
    } else {
      assert last == props[i];
    }
  }

  /** `Properties.format`: `output.update(prop.format())` for each property in turn. */
  method PropertiesFormat(props: seq<Property>) returns (output: map<string, Json>)
    ensures output == Merged(props)
  {
    output := map[];
    for i := 0 to |props|
      invariant output == Merged(props[..i])
    {
      assert props[..i + 1][..i] == props[..i];
      output := output + Format(props[i]);
    }
    assert props[..|props|] == props;
  }
}
