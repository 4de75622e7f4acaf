/** `xml_to_json` and the feed assembly of `channel_to_json` in
    `src-tauri/src/utils/netgrab.rs`: an XML element tree turned into JSON,
    with repeated child names grouped into arrays in document order. */
module XmlJson {
  import opened Wrappers
  import opened Text
  import opened Json
  import opened Seqs

  /** The `xmltree` node kinds. */
  datatype XmlNode =
    | Element(name: string, attributes: map<string, string>, children: seq<XmlNode>)
    | TextNode(text: string)
    | CData(text: string)
    | Comment(text: string)

  /** `Element::get_text`: the text and CDATA children concatenated, or
      `None` when there are none. */
  function TextOf(children: seq<XmlNode>): (r: Option<string>)
    ensures r.None? <==> forall i :: 0 <= i < |children| ==> !(children[i].TextNode? || children[i].CData?)
  {
    if children == [] then None
    else
      var rest := TextOf(children[1..]);
      match children[0]
      case TextNode(t) => Some(t + rest.GetOr(""))
      case CData(t) => Some(t + rest.GetOr(""))
      case _ => rest
  }

  predicate HasElementChild(children: seq<XmlNode>) {
    exists i :: 0 <= i < |children| && children[i].Element?
  }

  function AttributesJson(attributes: map<string, string>): Json {
    JObject(map k | k in attributes :: JString(attributes[k]))
  }

  /** Whether the element has text that is not all whitespace. */
  predicate HasText(e: XmlNode) {
    e.Element? && TextOf(e.children).Some? && !IsBlank(TextOf(e.children).value)
  }

  /** An element with non-blank text and neither attributes nor element children. */
  predicate IsTextLeaf(e: XmlNode) {
    HasText(e) && e.attributes == map[] && !HasElementChild(e.children)
  }

  /** `xml_to_json`. Never produces an array itself, which is what makes the
      grouping below sound. */
  function XmlToJson(e: XmlNode): (j: Json)
    requires e.Element?
    ensures !j.JArray?
    ensures IsTextLeaf(e) ==> j == JString(TextOf(e.children).value)
    ensures !IsTextLeaf(e) ==> j.JObject?
    ensures !IsTextLeaf(e) && HasText(e) ==> "text" in j.fields && j.fields["text"] == JString(TextOf(e.children).value)
    ensures !IsTextLeaf(e) && e.attributes != map[] ==> "@attributes" in j.fields
    decreases e, 1, 0
  {
    if IsTextLeaf(e) then JString(TextOf(e.children).value)
    else
      var start := if e.attributes != map[] then map["@attributes" := AttributesJson(e.attributes)] else map[];
      var grouped := Group(e, 0, start);
      JObject(if HasText(e) then grouped["text" := JString(TextOf(e.children).value)] else grouped)
  }

  /** Adds one converted child under its name: first occurrence as is, second
      turns the entry into a two-element array, later ones are pushed. */
  function AddChild(acc: map<string, Json>, name: string, child: Json): (r: map<string, Json>)
    ensures r.Keys == acc.Keys + {name}
    ensures forall k :: k in acc && k != name ==> r[k] == acc[k]
  {
    if name in acc then
      if acc[name].JArray? then acc[name := JArray(acc[name].items + [child])]
      else acc[name := JArray([acc[name], child])]
    else acc[name := child]
  }

  /** The loop over the children of `e`, from index `i` on. */
  function Group(e: XmlNode, i: nat, acc: map<string, Json>): (r: map<string, Json>)
    requires e.Element? && i <= |e.children|
    ensures acc.Keys <= r.Keys
    ensures "@attributes" in acc ==> "@attributes" in r
    decreases e, 0, |e.children| - i
  {
    if i == |e.children| then acc
    else
      var c := e.children[i];
      if c.Element? then
        assert c in e.children;
        Group(e, i + 1, AddChild(acc, c.name, XmlToJson(c)))
      else Group(e, i + 1, acc)
  }

  /** The converted element children of `e` named `k`, from index `i` on, in
      document order. */
  function ChildValues(e: XmlNode, i: nat, k: string): (r: seq<Json>)
    requires e.Element? && i <= |e.children|
    ensures forall m :: 0 <= m < |r| ==> !r[m].JArray?
    decreases |e.children| - i
  {
    if i == |e.children| then []
    else
      var c := e.children[i];
      if c.Element? && c.name == k then [XmlToJson(c)] + ChildValues(e, i + 1, k)
      else ChildValues(e, i + 1, k)
  }

  /** How a list of same-named children is stored: absent, the single value,
      or an array of all of them. */
  function Grouped(vs: seq<Json>): Option<Json> {
    if vs == [] then None else if |vs| == 1 then Some(vs[0]) else Some(JArray(vs))
  }

  function Lookup(m: map<string, Json>, k: string): Option<Json> {
    if k in m then Some(m[k]) else None
  }

  lemma {:induction false} GroupCollects(e: XmlNode, i: nat, acc: map<string, Json>, k: string, prev: seq<Json>)
    requires e.Element? && i <= |e.children|
    requires Lookup(acc, k) == Grouped(prev)
    requires forall m :: 0 <= m < |prev| ==> !prev[m].JArray?
    ensures Lookup(Group(e, i, acc), k) == Grouped(prev + ChildValues(e, i, k))
    decreases |e.children| - i
  {
    if i == |e.children| {
      assert prev + [] == prev;
    } else {
      var c := e.children[i];
      if c.Element? {
        var child := XmlToJson(c);
        var acc' := AddChild(acc, c.name, child);
        if c.name == k {
          var prev' := prev + [child];
          assert Lookup(acc', k) == Grouped(prev') by {
            if |prev| == 1 {
              assert prev' == [prev[0], child];
            }
          }
          GroupCollects(e, i + 1, acc', k, prev');
          assert ChildValues(e, i, k) == [child] + ChildValues(e, i + 1, k);
          AppendAssoc(prev, [child], ChildValues(e, i + 1, k));
        } else {
          GroupCollects(e, i + 1, acc', k, prev);
        }
      } else {
        GroupCollects(e, i + 1, acc, k, prev);
      }
    }
  }

  /** Repeated child names become one array in document order; a single child
      is stored as is; a name with no child is absent. This holds for every
      name except `text` when the element has text (overwritten by it) and
      `@attributes` when it has attributes (seeded with them). */
  lemma ChildrenGroupedByName(e: XmlNode, k: string)
    requires e.Element? && !IsTextLeaf(e)
    requires k != "text" || !HasText(e)
    requires k != "@attributes" || e.attributes == map[]
    ensures XmlToJson(e).JObject?
    ensures Lookup(XmlToJson(e).fields, k) == Grouped(ChildValues(e, 0, k))
  {
    var start: map<string, Json> := if e.attributes != map[] then map["@attributes" := AttributesJson(e.attributes)] else map[];
    assert Lookup(start, k) == Grouped([]);
    GroupCollects(e, 0, start, k, []);
    assert [] + ChildValues(e, 0, k) == ChildValues(e, 0, k);
  }

  /** An element with attributes stores them under `@attributes`, whether or
      not it has text. Only a child element that is itself named `@attributes`
      would be grouped together with them. */
  lemma AttributesKept(e: XmlNode)
    requires e.Element? && !IsTextLeaf(e) && e.attributes != map[]
    ensures XmlToJson(e).JObject?
    ensures Lookup(XmlToJson(e).fields, "@attributes") ==
      Grouped([AttributesJson(e.attributes)] + ChildValues(e, 0, "@attributes"))
    ensures ChildValues(e, 0, "@attributes") == [] ==>
      Lookup(XmlToJson(e).fields, "@attributes") == Some(AttributesJson(e.attributes))
  {
    var start: map<string, Json> := map["@attributes" := AttributesJson(e.attributes)];
    assert Lookup(start, "@attributes") == Grouped([AttributesJson(e.attributes)]);
    GroupCollects(e, 0, start, "@attributes", [AttributesJson(e.attributes)]);
  }

  /** `Element::get_child`: the first element child with the given name. */
  function GetChild(e: XmlNode, name: string): (r: Option<XmlNode>)
    requires e.Element?
    ensures r.Some? ==> r.value in e.children && r.value.Element? && r.value.name == name
  {
    FirstNamed(e.children, name)
  }

  function FirstNamed(nodes: seq<XmlNode>, name: string): (r: Option<XmlNode>)
    ensures r.Some? ==> r.value in nodes && r.value.Element? && r.value.name == name
  {
    if nodes == [] then None
    else if nodes[0].Element? && nodes[0].name == name then Some(nodes[0])
    else FirstNamed(nodes[1..], name)
  }

  /** The JSON `channel_to_json` returns for the parsed feed document: the
      converted root, with the converted `item`s of its `channel` child added
      as `feeds` when the root converts to an object. */
  function ChannelJson(root: XmlNode): (j: Json)
    requires root.Element?
    ensures XmlToJson(root).JObject? ==> j.JObject? && "feeds" in j.fields
    ensures XmlToJson(root).JObject? && GetChild(root, "channel").None? ==> j.fields["feeds"] == JArray([])
    ensures XmlToJson(root).JObject? && GetChild(root, "channel").Some? ==>
      j.fields["feeds"] == JArray(ChildValues(GetChild(root, "channel").value, 0, "item"))
    ensures XmlToJson(root).JObject? ==> forall k :: k in XmlToJson(root).fields && k != "feeds" ==>
      k in j.fields && j.fields[k] == XmlToJson(root).fields[k]
    ensures !XmlToJson(root).JObject? ==> j == XmlToJson(root)
  {
    var feeds := match GetChild(root, "channel")
      case None => []
      case Some(channel) => ChildValues(channel, 0, "item");
    var rootJson := XmlToJson(root);
    if rootJson.JObject? then JObject(rootJson.fields["feeds" := JArray(feeds)]) else rootJson
  }
}
