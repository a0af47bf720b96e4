/** The part of the XML tree model the page builders rely on: elements with
    an ordered list of attributes and an ordered list of children, text and
    CDATA leaves, and the element helper that turns a flat content list
    (with null entries) into an element. Qualified names such as
    "ac:structured-macro" are opaque strings: prefix resolution is not
    modelled. */
module Xml {
  import opened Wrappers

  /** A qualified attribute name and its value. */
  datatype Attr = Attr(name: string, value: string)

  datatype Node =
    | Element(name: string, attrs: seq<Attr>, children: seq<Node>)
    | Text(text: string)
    | CData(data: string)

  /** One entry of an element's content list: an attribute or a child node.
      A string entry is a Text node; a null entry is None in the list. */
  datatype Content = AttrItem(attr: Attr) | NodeItem(node: Node)

  /** The attributes of a content list, in their order, with null entries
      and child nodes skipped. */
  function AttrsIn(content: seq<Option<Content>>): (r: seq<Attr>)
    ensures |r| <= |content|
    ensures forall a :: a in r <==> Some(AttrItem(a)) in content
  {
    if |content| == 0 then []
    else
      assert content == [content[0]] + content[1..];
      var rest := AttrsIn(content[1..]);
      match content[0]
      case Some(AttrItem(a)) => [a] + rest
      case _ => rest
  }

  /** The child nodes of a content list, in their order, with null entries
      and attributes skipped. */
  function NodesIn(content: seq<Option<Content>>): (r: seq<Node>)
    ensures |r| <= |content|
    ensures forall n :: n in r <==> Some(NodeItem(n)) in content
  {
    if |content| == 0 then []
    else
      assert content == [content[0]] + content[1..];
      var rest := NodesIn(content[1..]);
      match content[0]
      case Some(NodeItem(n)) => [n] + rest
      case _ => rest
  }

  /** Builds an attribute with a qualified name. */
  function MakeAttribute(name: string, value: string): (c: Content)
  {
    AttrItem(Attr(name, value))
  }

  /** Builds an element with a qualified name from a content list: null
      entries are dropped, attributes go to the attribute list and nodes to
      the child list, each keeping the order of the content list. */
  function MakeElement(name: string, content: seq<Option<Content>>): (r: Node)
    ensures r.Element? && r.name == name
    ensures |r.attrs| + |r.children| == |content| - NullCount(content)
    ensures forall a :: a in r.attrs <==> Some(AttrItem(a)) in content
    ensures forall n :: n in r.children <==> Some(NodeItem(n)) in content
  {
    AttrsNodesSize(content);
    Element(name, AttrsIn(content), NodesIn(content))
  }

  /** The value of the first attribute called `name`, if any. */
  function AttrValue(attrs: seq<Attr>, name: string): (r: Option<string>)
    ensures r.Some? <==> exists v :: Attr(name, v) in attrs
    ensures r.Some? ==>
      exists i :: 0 <= i < |attrs| && attrs[i] == Attr(name, r.value) && (forall j :: 0 <= j < i ==> attrs[j].name != name)
  {
    if |attrs| == 0 then None
    else if attrs[0].name == name then Some(attrs[0].value)
    else
      assert attrs == [attrs[0]] + attrs[1..];
      AttrValue(attrs[1..], name)
  }

  /** Content entries listing the given attributes, none of them null. */
  function AttrEntries(attrs: seq<Attr>): (r: seq<Option<Content>>)
  {
    seq(|attrs|, i requires 0 <= i < |attrs| => Some(AttrItem(attrs[i])))
  }

  /** Content entries listing the given nodes, none of them null. */
  function NodeEntries(nodes: seq<Node>): (r: seq<Option<Content>>)
  {
    seq(|nodes|, i requires 0 <= i < |nodes| => Some(NodeItem(nodes[i])))
  }

  /** The content list an element is rebuilt from: its attributes, then its
      children. */
  function ContentOf(n: Node): (r: seq<Option<Content>>)
    requires n.Element?
    ensures |r| == |n.attrs| + |n.children|
  {
    AttrEntries(n.attrs) + NodeEntries(n.children)
  }

  /** Every entry that is not null becomes an attribute or a child. */
  lemma {:induction false} AttrsNodesSize(content: seq<Option<Content>>)
    ensures |AttrsIn(content)| + |NodesIn(content)| == |content| - NullCount(content)
  {
    if |content| > 0 {
      AttrsNodesSize(content[1..]);
    }
  }

  /** The number of null entries of a content list. */
  function NullCount(content: seq<Option<Content>>): (r: nat)
    ensures r <= |content|
  {
    if |content| == 0 then 0
    else (if content[0].None? then 1 else 0) + NullCount(content[1..])
  }

  lemma {:induction false} AttrsInAppend(a: seq<Option<Content>>, b: seq<Option<Content>>)
    ensures AttrsIn(a + b) == AttrsIn(a) + AttrsIn(b)
  {
    if |a| == 0 {
      assert a + b == b;
    } else {
      assert (a + b)[0] == a[0];
      assert (a + b)[1..] == a[1..] + b;
      AttrsInAppend(a[1..], b);
    }
  }

  lemma {:induction false} NodesInAppend(a: seq<Option<Content>>, b: seq<Option<Content>>)
    ensures NodesIn(a + b) == NodesIn(a) + NodesIn(b)
  {
    if |a| == 0 {
      assert a + b == b;
    } else {
      assert (a + b)[0] == a[0];
      assert (a + b)[1..] == a[1..] + b;
      NodesInAppend(a[1..], b);
    }
  }

  /** The element helper splits a concatenated content list piecewise. */
  lemma MakeElementAppend(name: string, a: seq<Option<Content>>, b: seq<Option<Content>>)
    ensures MakeElement(name, a + b).attrs == MakeElement(name, a).attrs + MakeElement(name, b).attrs
    ensures MakeElement(name, a + b).children == MakeElement(name, a).children + MakeElement(name, b).children
  {
    AttrsInAppend(a, b);
    NodesInAppend(a, b);
  }

  /** A null entry contributes nothing, wherever it stands. */
  lemma DropNull(name: string, a: seq<Option<Content>>, b: seq<Option<Content>>)
    ensures MakeElement(name, a + [None] + b) == MakeElement(name, a + b)
  {
    var withNull := a + [None];
    assert AttrsIn([None]) == [] && NodesIn([None]) == [];
    AttrsInAppend(a, [None]);
    NodesInAppend(a, [None]);
    assert AttrsIn(withNull) == AttrsIn(a) && NodesIn(withNull) == NodesIn(a);
    AttrsInAppend(withNull, b);
    NodesInAppend(withNull, b);
    AttrsInAppend(a, b);
    NodesInAppend(a, b);
  }

  lemma {:induction false} AttrEntriesRead(attrs: seq<Attr>)
    ensures AttrsIn(AttrEntries(attrs)) == attrs
    ensures NodesIn(AttrEntries(attrs)) == []
  {
    if |attrs| > 0 {
      assert AttrEntries(attrs)[1..] == AttrEntries(attrs[1..]);
      AttrEntriesRead(attrs[1..]);
    }
  }

  lemma {:induction false} NodeEntriesRead(nodes: seq<Node>)
    ensures NodesIn(NodeEntries(nodes)) == nodes
    ensures AttrsIn(NodeEntries(nodes)) == []
  {
    if |nodes| > 0 {
      assert NodeEntries(nodes)[1..] == NodeEntries(nodes[1..]);
      NodeEntriesRead(nodes[1..]);
    }
  }

  /** Attributes listed before nodes in a content list come out exactly as
      listed. */
  lemma ElementOfEntries(name: string, attrs: seq<Attr>, nodes: seq<Node>)
    ensures MakeElement(name, AttrEntries(attrs) + NodeEntries(nodes)) == Element(name, attrs, nodes)
  {
    AttrsInAppend(AttrEntries(attrs), NodeEntries(nodes));
    NodesInAppend(AttrEntries(attrs), NodeEntries(nodes));
    AttrEntriesRead(attrs);
    NodeEntriesRead(nodes);
  }

  /** Every element is what the element helper builds from its own content
      list, so the helper can produce any element. */
  lemma RebuildElement(n: Node)
    requires n.Element?
    ensures MakeElement(n.name, ContentOf(n)) == n
  {
    ElementOfEntries(n.name, n.attrs, n.children);
  }

  /** An attribute entry lands in the attribute list at its place among the
      other attributes, and never among the children. */
  lemma AttributeLandsInPlace(e: string, a: seq<Option<Content>>, name: string, value: string, b: seq<Option<Content>>)
    ensures MakeElement(e, a + [Some(MakeAttribute(name, value))] + b)
         == Element(e, AttrsIn(a) + [Attr(name, value)] + AttrsIn(b), NodesIn(a) + NodesIn(b))
  {
    AttrEntrySplit(a, Attr(name, value), b);
  }

  /** One attribute entry between two content lists, for both lists. */
  lemma AttrEntrySplit(a: seq<Option<Content>>, at: Attr, b: seq<Option<Content>>)
    ensures AttrsIn(a + [Some(AttrItem(at))] + b) == AttrsIn(a) + [at] + AttrsIn(b)
    ensures NodesIn(a + [Some(AttrItem(at))] + b) == NodesIn(a) + NodesIn(b)
  {
    AttrEntryAttrs(a, at, b);
    AttrEntryNodes(a, at, b);
  }

  /** One attribute entry between two content lists adds itself in place. */
  lemma AttrEntryAttrs(a: seq<Option<Content>>, at: Attr, b: seq<Option<Content>>)
    ensures AttrsIn(a + [Some(AttrItem(at))] + b) == AttrsIn(a) + [at] + AttrsIn(b)
  {
    var entry := [Some(AttrItem(at))];
    assert entry == AttrEntries([at]);
    AttrEntriesRead([at]);
    AttrsInAppend(a, entry);
    AttrsInAppend(a + entry, b);
  }

  /** One attribute entry between two content lists adds no child. */
  lemma AttrEntryNodes(a: seq<Option<Content>>, at: Attr, b: seq<Option<Content>>)
    ensures NodesIn(a + [Some(AttrItem(at))] + b) == NodesIn(a) + NodesIn(b)
  {
    var entry := [Some(AttrItem(at))];
    assert entry == AttrEntries([at]);
    AttrEntriesRead([at]);
    NodesInAppend(a, entry);
    NodesInAppend(a + entry, b);
    assert NodesIn(a) + [] == NodesIn(a);
  }

  /** The content list of an element built from entries without attributes
      has the listed nodes as children, in order. */
  lemma NodesOnly(name: string, nodes: seq<Node>)
    ensures MakeElement(name, NodeEntries(nodes)) == Element(name, [], nodes)
  {
    NodeEntriesRead(nodes);
  }
}
