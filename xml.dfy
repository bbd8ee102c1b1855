/**
 * The part of an lxml element tree the reducers read and build: an
 * element's tag, its attributes in document order, its text and its
 * child elements.
 */
module XmlTree {
  import opened Wrappers
  import opened ODict

  datatype Element = Element(tag: string, attrib: Dict<string>, text: Option<string>, children: seq<Element>)

  /** The children of `cs` whose tag is `tag`, in order. */
  function Tagged(cs: seq<Element>, tag: string): seq<Element>
  {
    if |cs| == 0 then []
    else Tagged(cs[..|cs| - 1], tag) + (if cs[|cs| - 1].tag == tag then [cs[|cs| - 1]] else [])
  }

  /** `e.findall(tag)` for a plain tag name: the direct children with that
      tag, in document order. */
  function FindAll(e: Element, tag: string): seq<Element>
  {
    Tagged(e.children, tag)
  }

  /** Exactly the direct children with the tag are found. */
  lemma {:induction false} TaggedMembers(cs: seq<Element>, tag: string)
    ensures forall c :: c in Tagged(cs, tag) <==> c in cs && c.tag == tag
  {
    if |cs| > 0 {
      var n := |cs| - 1;
      TaggedMembers(cs[..n], tag);
      assert cs == cs[..n] + [cs[n]];
    }
  }
}
