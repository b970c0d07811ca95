/**
 * `_Base.format`: the envelope every typed object of the document store is
 * serialised into, `{"type": t, t: payload}`, with the payload's `children`
 * key added only for content that declares children and has them set.
 */
module Base {
  import opened Wire

  /** What `_Base.format` finds in the content's `children` attribute. */
  datatype ChildrenAttr =
    | NoChildrenAttr                   // the content class declares no `children` field
    | ChildrenUnset                    // declared, and left at its default `None`
    | ChildrenSet(formatted: seq<Json>) // declared and set: `children.format()`, already serialised

  /**
   * The content of a `_Base` object: a plain dict, or a pydantic model given by
   * its `model_dump(exclude={"children"}, exclude_none=True)` and its children.
   */
  datatype Content =
    | DictContent(dict: map<string, Json>)
    | ModelContent(dump: map<string, Json>, children: ChildrenAttr)

  /** `_Base.format()` for an object whose type tag is `tag`. */
  function Format(tag: string, content: Content): (r: map<string, Json>)
    requires content.ModelContent? ==> "children" !in content.dump
    ensures r.Keys == {"type", tag}
    ensures tag != "type" ==> r["type"] == JStr(tag)
    ensures content.DictContent? ==> r[tag] == JObj(content.dict)
    ensures content.ModelContent? ==>
      && r[tag].JObj?
      && r[tag].fields - {"children"} == content.dump
      && ("children" in r[tag].fields <==> content.children.ChildrenSet?)
      && (content.children.ChildrenSet? ==> r[tag].fields["children"] == JArr(content.children.formatted))
  {
    match content
    case DictContent(d) => map["type" := JStr(tag), tag := JObj(d)]
    case ModelContent(dump, children) =>
      var contents := if children.ChildrenSet? then dump["children" := JArr(children.formatted)] else dump;
      map["type" := JStr(tag), tag := JObj(contents)]
  }
}
