/**
 * `xodr_reducer/io_functions.py`: rebuilds an XML tree under an `OpenDRIVE`
 * root from the reduced JSON. A dict value becomes a child element named
 * by its key, a list value one element per item named by the key, and any
 * other value an attribute (or, at the top level, the element's text),
 * written with Python's `str`.
 */
module XodrReducerIo {
  import opened Wrappers
  import opened ODict
  import opened JsonValue
  import opened XmlTree

  /** Python's `str(value)`; only ever applied to values that are not dicts. */
  type Show = Json -> string

  /** A fresh `etree.SubElement(parent, key)`: no attributes, text or children. */
  function Fresh(tag: string): Element
  {
    Element(tag, [], None, [])
  }

  /** A value that is neither a dict nor a list. */
  predicate Scalar(v: Json)
  {
    !v.JObj? && !v.JArr?
  }

  /** The attributes after the first `n` entries of the dict `obj` have been
      visited: each scalar entry sets its key to `str(value)`. */
  function Attrs(attrib: Dict<string>, obj: Json, n: nat, show: Show): Dict<string>
    requires obj.JObj? && n <= |obj.fields|
  {
    if n == 0 then attrib
    else
      var a := Attrs(attrib, obj, n - 1, show);
      var (key, value) := obj.fields[n - 1];
      if Scalar(value) then Put(a, key, show(value)) else a
  }

  /** The children one entry `key: value` of a dict adds. */
  function EntryChildren(key: string, value: Json, show: Show): seq<Element>
    decreases value, 3
  {
    match value
    case JObj(_) => [ObjElement(key, value, show)]
    case JArr(items) => ListElements(key, value, |items|, show)
    case _ => []
  }

  /** The element `key` filled from the dict `obj`. */
  function ObjElement(key: string, obj: Json, show: Show): Element
    requires obj.JObj?
    decreases obj, 2
  {
    Element(key, Attrs([], obj, |obj.fields|, show), None, Children(obj, |obj.fields|, show))
  }

  /** The children the first `n` entries of the dict `obj` add, in order. */
  function Children(obj: Json, n: nat, show: Show): seq<Element>
    requires obj.JObj? && n <= |obj.fields|
    decreases obj, 1, n
  {
    if n == 0 then []
    else
      var entry := obj.fields[n - 1];
      assert entry in obj.fields;
      Children(obj, n - 1, show) + EntryChildren(entry.0, entry.1, show)
  }

  /** The elements `json_to_xml_handle_list` adds for the first `n` items. */
  function ListElements(key: string, list: Json, n: nat, show: Show): seq<Element>
    requires list.JArr? && n <= |list.items|
    decreases list, 1, n
  {
    if n == 0 then []
    else ListElements(key, list, n - 1, show) + [ItemElement(key, list.items[n - 1], show)]
  }

  /** The element for one list item: filled from a dict, else holding
      `str(item)` as its text. */
  function ItemElement(key: string, item: Json, show: Show): Element
    decreases item, 3
  {
    if item.JObj? then ObjElement(key, item, show) else Element(key, [], Some(show(item)), [])
  }

  /** `parent` after `json_to_xml_add_attributes_and_children(parent, obj)`. */
  function Filled(parent: Element, obj: Json, show: Show): Element
    requires obj.JObj?
  {
    Element(parent.tag, Attrs(parent.attrib, obj, |obj.fields|, show), parent.text,
            parent.children + Children(obj, |obj.fields|, show))
  }

  /** Filling a fresh element gives the element `ObjElement` describes. */
  lemma FilledFresh(key: string, obj: Json, show: Show)
    requires obj.JObj?
    ensures Filled(Fresh(key), obj, show) == ObjElement(key, obj, show)
  {
    assert [] + Children(obj, |obj.fields|, show) == Children(obj, |obj.fields|, show);
  }

  /** The child of the root for one top-level entry `key: value`. */
  function TopElement(key: string, value: Json, show: Show): Element
  {
    match value
    case JObj(_) => ObjElement(key, value, show)
    case JArr(items) => Element(key, [], None, ListElements(key, value, |items|, show))
    case _ => Element(key, [], Some(show(value)), [])
  }

  /** The children of the root for the entries of one top-level dict, in order. */
  function TopElements(fields: Dict<Json>, show: Show): (r: seq<Element>)
    ensures |r| == |fields|
  {
    seq(|fields|, j requires 0 <= j < |fields| => TopElement(fields[j].0, fields[j].1, show))
  }

  /** The children of the root for the first `n` items of the JSON list. */
  function RootChildren(data: seq<Json>, n: nat, show: Show): Result<seq<Element>>
    requires n <= |data|
  {
    if n == 0 then Ok([])
    else
      var pre :- RootChildren(data, n - 1, show);
      if data[n - 1].JObj? then Ok(pre + TopElements(data[n - 1].fields, show))
      else Err(AttributeError("object has no attribute 'items'"))
  }

  /** A top-level item that is not a dict is the failure of the whole call. */
  lemma {:induction false} RootChildrenErr(data: seq<Json>, n: nat, m: nat, show: Show)
    requires n <= m <= |data| && RootChildren(data, n, show).Err?
    ensures RootChildren(data, m, show) == RootChildren(data, n, show)
    decreases m
  {
    if n < m {
      RootChildrenErr(data, n, m - 1, show);
    }
  }

  /** What `json_to_xml(data)` returns. */
  function Rebuilt(data: seq<Json>, show: Show): Result<Element>
  {
    var children :- RootChildren(data, |data|, show);
    Ok(Element("OpenDRIVE", [], None, children))
  }

  /** The tags of a list of elements. */
  function Tags(es: seq<Element>): (r: seq<string>)
    ensures |r| == |es|
  {
    seq(|es|, i requires 0 <= i < |es| => es[i].tag)
  }

  /** The keys of the first `n` top-level dicts, one after the other. */
  function AllKeys(data: seq<Json>, n: nat): seq<string>
    requires n <= |data| && forall i :: 0 <= i < |data| ==> data[i].JObj?
  {
    if n == 0 then [] else AllKeys(data, n - 1) + Keys(data[n - 1].fields)
  }

  /** The child of the root for an entry is named by the entry's key. */
  lemma TopElementTag(key: string, value: Json, show: Show)
    ensures TopElement(key, value, show).tag == key
  {
  }

  /** The entries of a top-level dict give one child each, in order, named
      by their keys. */
  lemma TopElementsKeys(fields: Dict<Json>, show: Show)
    ensures Tags(TopElements(fields, show)) == Keys(fields)
  {
    var ts := Tags(TopElements(fields, show));
    forall j | 0 <= j < |fields|
      ensures ts[j] == Keys(fields)[j]
    {
      TopElementTag(fields[j].0, fields[j].1, show);
    }
  }

  /** `json_to_xml` fails exactly when an item of the list is not a dict;
      otherwise the root is a bare `OpenDRIVE` element whose children carry
      the keys of the items, item after item and key after key. */
  lemma {:induction false} RebuiltShape(data: seq<Json>, show: Show)
    ensures Rebuilt(data, show).Ok? <==> forall i :: 0 <= i < |data| ==> data[i].JObj?
    ensures Rebuilt(data, show).Ok? ==>
              var root := Rebuilt(data, show).value;
              root.tag == "OpenDRIVE" && root.attrib == [] && root.text == None
              && Tags(root.children) == AllKeys(data, |data|)
  {
    if forall i :: 0 <= i < |data| ==> data[i].JObj? {
      RootChildrenKeys(data, |data|, show);
    } else {
      var i :| 0 <= i < |data| && !data[i].JObj?;
      RootChildrenFails(data, i, show);
      RootChildrenErr(data, i + 1, |data|, show);
    }
  }

  lemma RootChildrenFails(data: seq<Json>, i: nat, show: Show)
    requires i < |data| && !data[i].JObj?
    ensures RootChildren(data, i + 1, show).Err?
  {
  }

  lemma {:induction false} RootChildrenKeys(data: seq<Json>, n: nat, show: Show)
    requires n <= |data| && forall i :: 0 <= i < |data| ==> data[i].JObj?
    ensures RootChildren(data, n, show).Ok? && Tags(RootChildren(data, n, show).value) == AllKeys(data, n)
  {
    if n > 0 {
      RootChildrenKeys(data, n - 1, show);
      var pre := RootChildren(data, n - 1, show).value;
      var top := TopElements(data[n - 1].fields, show);
      TopElementsKeys(data[n - 1].fields, show);
      TagsAppend(pre, top);
    }
  }

  lemma TagsAppend(a: seq<Element>, b: seq<Element>)
    ensures Tags(a + b) == Tags(a) + Tags(b)
  {
  }

  /** A dict value gives one child named by its key and filled from the
      dict; a list value one child per item, all named by the key, in item
      order; any other value no child. */
  lemma EntryChildrenShape(key: string, value: Json, show: Show)
    ensures value.JObj? ==> EntryChildren(key, value, show) == [ObjElement(key, value, show)]
    ensures value.JArr? ==>
              |EntryChildren(key, value, show)| == |value.items|
              && forall j :: 0 <= j < |value.items| ==> EntryChildren(key, value, show)[j] == ItemElement(key, value.items[j], show)
    ensures Scalar(value) ==> EntryChildren(key, value, show) == []
    ensures forall c :: c in EntryChildren(key, value, show) ==> c.tag == key
  {
    if value.JArr? {
      ListElementsPointwise(key, value, |value.items|, show);
    }
  }

  lemma {:induction false} ListElementsPointwise(key: string, list: Json, n: nat, show: Show)
    requires list.JArr? && n <= |list.items|
    ensures |ListElements(key, list, n, show)| == n
    ensures forall j :: 0 <= j < n ==> ListElements(key, list, n, show)[j] == ItemElement(key, list.items[j], show)
    ensures forall j :: 0 <= j < n ==> ListElements(key, list, n, show)[j].tag == key
  {
    if n > 0 {
      ListElementsPointwise(key, list, n - 1, show);
    }
  }

  /** A list item that is a dict becomes an element filled from it; any
      other item an element holding `str(item)` as its text. */
  lemma ItemElementShape(key: string, item: Json, show: Show)
    ensures ItemElement(key, item, show).tag == key
    ensures item.JObj? ==> ItemElement(key, item, show) == Filled(Fresh(key), item, show)
    ensures !item.JObj? ==> ItemElement(key, item, show).text == Some(show(item)) && ItemElement(key, item, show).children == []
  {
    if item.JObj? {
      FilledFresh(key, item, show);
    }
  }

  /** In a dict whose keys are unique, each scalar entry is an attribute
      holding `str(value)`, and no other key is an attribute. */
  lemma ObjElementAttrs(key: string, obj: Json, k: string, show: Show)
    requires obj.JObj? && UniqueKeys(obj.fields)
    ensures var v := Get(obj.fields, k);
            Get(ObjElement(key, obj, show).attrib, k) == if v.Some? && Scalar(v.value) then Some(show(v.value)) else None
  {
    var f := obj.fields;
    if k in Keys(f) {
      var j :| 0 <= j < |f| && Keys(f)[j] == k;
      AttrsGetAt([], obj, |f|, k, show, j);
      UniqueGet(f, j);
    } else {
      assert forall j :: 0 <= j < |f| ==> Keys(f)[j] == f[j].0;
      AttrsGetMissing([], obj, |f|, k, show);
    }
  }

  /** A key no entry among the first `n` carries keeps its attribute. */
  lemma {:induction false} AttrsGetMissing(attrib: Dict<string>, obj: Json, n: nat, k: string, show: Show)
    requires obj.JObj? && n <= |obj.fields|
    requires forall j :: 0 <= j < n ==> obj.fields[j].0 != k
    ensures Get(Attrs(attrib, obj, n, show), k) == Get(attrib, k)
  {
    if n > 0 {
      AttrsGetMissing(attrib, obj, n - 1, k, show);
      assert obj.fields[n - 1].0 != k;
    }
  }

  /** The entry `j` carrying key `k` decides its attribute, when keys are unique. */
  lemma {:induction false} AttrsGetAt(attrib: Dict<string>, obj: Json, n: nat, k: string, show: Show, j: nat)
    requires obj.JObj? && j < n <= |obj.fields| && UniqueKeys(obj.fields) && obj.fields[j].0 == k
    ensures Get(Attrs(attrib, obj, n, show), k)
            == if Scalar(obj.fields[j].1) then Some(show(obj.fields[j].1)) else Get(attrib, k)
  {
    var f := obj.fields;
    if j < n - 1 {
      AttrsGetAt(attrib, obj, n - 1, k, show, j);
      assert f[j].0 != f[n - 1].0;
    } else {
      assert forall i :: 0 <= i < n - 1 ==> f[i].0 != f[j].0;
      AttrsGetMissing(attrib, obj, n - 1, k, show);
    }
  }

  /** `json_to_xml_add_attributes_and_children`: the dict's entries in
      order, a dict value as a new child filled recursively, a list value
      through `json_to_xml_handle_list`, anything else as an attribute. */
  method AddAttributesAndChildren(parent: Element, data: Json, show: Show) returns (r: Element)
    requires data.JObj?
    ensures r == Filled(parent, data, show)
    decreases data, 1
  {
    r := parent;
    var fields := data.fields;
    for i := 0 to |fields|
      invariant r == Element(parent.tag, Attrs(parent.attrib, data, i, show), parent.text,
                             parent.children + Children(data, i, show))
    {
      assert fields[i] in data.fields;
      r := AddEntry(r, fields[i].0, fields[i].1, show);
    }
  }

  /** One entry of the loop in `json_to_xml_add_attributes_and_children`. */
  method AddEntry(parent: Element, key: string, value: Json, show: Show) returns (r: Element)
    ensures r == Element(parent.tag, if Scalar(value) then Put(parent.attrib, key, show(value)) else parent.attrib,
                         parent.text, parent.children + EntryChildren(key, value, show))
    decreases value, 2
  {
    if value.JObj? {
      var child := AddAttributesAndChildren(Fresh(key), value, show);
      FilledFresh(key, value, show);
      r := parent.(children := parent.children + [child]);
    } else if value.JArr? {
      r := HandleList(parent, key, value, show);
    } else {
      r := parent.(attrib := Put(parent.attrib, key, show(value)));
      assert parent.children + EntryChildren(key, value, show) == parent.children;
    }
  }

  /** `json_to_xml_handle_list`: one new child named `key` per item. */
  method HandleList(parent: Element, key: string, list: Json, show: Show) returns (r: Element)
    requires list.JArr?
    ensures r == parent.(children := parent.children + ListElements(key, list, |list.items|, show))
    decreases list, 0
  {
    r := parent;
    var items := list.items;
    for j := 0 to |items|
      invariant r == parent.(children := parent.children + ListElements(key, list, j, show))
    {
      var item := items[j];
      var element := Fresh(key);
      if item.JObj? {
        element := AddAttributesAndChildren(element, item, show);
        FilledFresh(key, item, show);
      } else {
        element := element.(text := Some(show(item)));
      }
      assert element == ItemElement(key, item, show);
      r := r.(children := r.children + [element]);
    }
  }

  /** `json_to_xml`. */
  method JsonToXml(data: seq<Json>, show: Show) returns (r: Result<Element>)
    ensures r == Rebuilt(data, show)
  {
    var root := Fresh("OpenDRIVE");
    for n := 0 to |data|
      invariant RootChildren(data, n, show) == Ok(root.children)
      invariant root == Element("OpenDRIVE", [], None, root.children)
    {
      var item := data[n];
      if !item.JObj? {
        RootChildrenErr(data, n + 1, |data|, show);
        return Err(AttributeError("object has no attribute 'items'"));
      }
      var fields := item.fields;
      ghost var before := root.children;
      for k := 0 to |fields|
        invariant root == Element("OpenDRIVE", [], None, before + TopElements(fields[..k], show))
      {
        var (key, value) := fields[k];
        var element := Fresh(key);
        if value.JObj? {
          element := AddAttributesAndChildren(element, value, show);
          FilledFresh(key, value, show);
        } else if value.JArr? {
          element := HandleList(element, key, value, show);
          assert [] + ListElements(key, value, |value.items|, show) == ListElements(key, value, |value.items|, show);
        } else {
          element := element.(text := Some(show(value)));
        }
        assert element == TopElement(key, value, show);
        assert fields[..k + 1][..k] == fields[..k];
        root := root.(children := root.children + [element]);
      }
      assert fields[..|fields|] == fields;
    }
    r := Ok(root);
  }
}
