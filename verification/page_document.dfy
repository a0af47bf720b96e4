/** The block builders of a Confluence storage-format page: each one returns
    a small element tree (a macro, a link, an image, an emoticon or a rich
    text body) ready to be placed into a page. The container macros accept
    only a rich text body and fail on anything else. */
module PageDocument {
  import opened Wrappers
  import opened Xml

  /** Possible colours of the "status" macro. */
  datatype StatusColor = Grey | Red | Yellow | Green | Blue

  /** The name of a colour member, as the enumeration renders it. */
  function ColorName(c: StatusColor): (r: string)
  {
    match c
    case Grey => "Grey"
    case Red => "Red"
    case Yellow => "Yellow"
    case Green => "Green"
    case Blue => "Blue"
  }

  /** The one predefined emoticon symbol. */
  const YellowStar: string := "yellow-star"

  // Qualified element and attribute names of the storage format.
  const StructuredMacro: string := "ac:structured-macro"
  const MacroParameter: string := "ac:parameter"
  const MacroName: string := "ac:name"
  const RichTextBody: string := "ac:rich-text-body"
  const Image: string := "ac:image"
  const Link: string := "ac:link"
  const LinkAnchor: string := "ac:anchor"
  const PlainTextLinkBody: string := "ac:plain-text-link-body"
  const LinkBody: string := "ac:link-body"
  const EmoticonTag: string := "ac:emoticon"
  const UrlRef: string := "ri:url"
  const UrlValue: string := "ri:value"
  const UserRef: string := "ri:user"
  const UserKey: string := "ri:userkey"
  const PageRef: string := "ri:page"
  const ContentTitle: string := "ri:content-title"

  /** The one error the builders raise. */
  datatype BuildError = InvalidOperation(message: string)

  const RichTextBodyExpected: string := "Rich text body expected."

  /** Boolean rendering of the runtime: capitalised. */
  function BoolToString(b: bool): (r: string)
  {
    if b then "True" else "False"
  }

  function LowerChar(c: char): (r: char)
  {
    if 'A' <= c <= 'Z' then (c as int + 32) as char else c
  }

  /** Culture-independent lower-casing, for the ASCII letters it meets here. */
  function ToLowerInvariant(s: string): (r: string)
  {
    seq(|s|, i requires 0 <= i < |s| => LowerChar(s[i]))
  }

  /** The text the "subtle" parameter carries for an outline flag. */
  lemma SubtleText(outline: bool)
    ensures ToLowerInvariant(BoolToString(outline)) == (if outline then "true" else "false")
  {
  }

  /** A macro parameter: an `ac:parameter` element named `name` whose only
      content is the text `value`. */
  function Parameter(name: string, value: string): (r: Node)
    ensures r == Element(MacroParameter, [Attr(MacroName, name)], [Text(value)])
  {
    var content := [Some(MakeAttribute(MacroName, name)), Some(NodeItem(Text(value)))];
    assert content == AttrEntries([Attr(MacroName, name)]) + NodeEntries([Text(value)]);
    ElementOfEntries(MacroParameter, [Attr(MacroName, name)], [Text(value)]);
    MakeElement(MacroParameter, content)
  }

  /** The "status" macro: a badge showing `title` in `color`, outlined or
      filled. */
  function BuildStatus(title: string, color: StatusColor, outline: bool): (r: Node)
    ensures r == Element(StructuredMacro, [Attr(MacroName, "status")], [
      Parameter("subtle", if outline then "true" else "false"),
      Parameter("colour", ColorName(color)),
      Parameter("title", title)])
  {
    SubtleText(outline);
    var subtle := Parameter("subtle", ToLowerInvariant(BoolToString(outline)));
    var colour := Parameter("colour", ColorName(color));
    var caption := Parameter("title", title);
    var content := [
      Some(MakeAttribute(MacroName, "status")),
      Some(NodeItem(subtle)),
      Some(NodeItem(colour)),
      Some(NodeItem(caption))];
    assert content == AttrEntries([Attr(MacroName, "status")]) + NodeEntries([subtle, colour, caption]);
    ElementOfEntries(StructuredMacro, [Attr(MacroName, "status")], [subtle, colour, caption]);
    MakeElement(StructuredMacro, content)
  }

  /** The "toc" macro: no parameters, no content. */
  function BuildToc(): (r: Node)
    ensures r == Element(StructuredMacro, [Attr(MacroName, "toc")], [])
  {
    var content := [Some(MakeAttribute(MacroName, "toc"))];
    assert content == AttrEntries([Attr(MacroName, "toc")]) + NodeEntries([]);
    ElementOfEntries(StructuredMacro, [Attr(MacroName, "toc")], []);
    MakeElement(StructuredMacro, content)
  }

  /** Makes sure a node is a rich text body. */
  function CheckBody(body: Node): (r: Outcome<BuildError>)
    ensures r.Pass? <==> body.Element? && body.name == RichTextBody
    ensures r.Fail? ==> r.error == InvalidOperation(RichTextBodyExpected)
  {
    if body.Element? && body.name == RichTextBody then Pass
    else Fail(InvalidOperation(RichTextBodyExpected))
  }

  /** A macro named `macro` whose only content is `body`. */
  function BodyMacro(macro: string, body: Node): (r: Node)
    ensures r == Element(StructuredMacro, [Attr(MacroName, macro)], [body])
  {
    var content := [Some(MakeAttribute(MacroName, macro)), Some(NodeItem(body))];
    assert content == AttrEntries([Attr(MacroName, macro)]) + NodeEntries([body]);
    ElementOfEntries(StructuredMacro, [Attr(MacroName, macro)], [body]);
    MakeElement(StructuredMacro, content)
  }

  /** The "info" macro around a rich text body. */
  function BuildInfo(body: Node): (r: Result<Node, BuildError>)
    ensures r.Ok? <==> CheckBody(body).Pass?
    ensures r.Err? ==> r.error == InvalidOperation(RichTextBodyExpected)
    ensures r.Ok? ==> r.value == Element(StructuredMacro, [Attr(MacroName, "info")], [body])
  {
    var check := CheckBody(body);
    if check.Fail? then Err(check.error)
    else Ok(BodyMacro("info", body))
  }

  /** The "section" macro around a rich text body. */
  function BuildSection(body: Node): (r: Result<Node, BuildError>)
    ensures r.Ok? <==> CheckBody(body).Pass?
    ensures r.Err? ==> r.error == InvalidOperation(RichTextBodyExpected)
    ensures r.Ok? ==> r.value == Element(StructuredMacro, [Attr(MacroName, "section")], [body])
  {
    var check := CheckBody(body);
    if check.Fail? then Err(check.error)
    else Ok(BodyMacro("section", body))
  }

  /** The "column" macro around a rich text body, with a "width" parameter
      when a width is given. */
  function BuildColumn(width: Option<string>, body: Node): (r: Result<Node, BuildError>)
    ensures r.Ok? <==> CheckBody(body).Pass?
    ensures r.Err? ==> r.error == InvalidOperation(RichTextBodyExpected)
    ensures r.Ok? && width.None? ==>
      r.value == Element(StructuredMacro, [Attr(MacroName, "column")], [body])
    ensures r.Ok? && width.Some? ==>
      r.value == Element(StructuredMacro, [Attr(MacroName, "column")], [Parameter("width", width.value), body])
  {
    var check := CheckBody(body);
    if check.Fail? then Err(check.error)
    else
      var widthParam := if width.None? then None else Some(NodeItem(Parameter("width", width.value)));
      var name := [Some(MakeAttribute(MacroName, "column"))];
      var content := name + [widthParam] + [Some(NodeItem(body))];
      if width.None? then
        DropNull(StructuredMacro, name, [Some(NodeItem(body))]);
        assert name + [Some(NodeItem(body))] == AttrEntries([Attr(MacroName, "column")]) + NodeEntries([body]);
        ElementOfEntries(StructuredMacro, [Attr(MacroName, "column")], [body]);
        Ok(MakeElement(StructuredMacro, content))
      else
        var param := Parameter("width", width.value);
        assert content == AttrEntries([Attr(MacroName, "column")]) + NodeEntries([param, body]);
        ElementOfEntries(StructuredMacro, [Attr(MacroName, "column")], [param, body]);
        Ok(MakeElement(StructuredMacro, content))
  }

  /** An element whose only content is one reference element carrying one
      attribute, as images and user links are. */
  function Reference(outer: string, inner: string, key: string, value: string): (r: Node)
    ensures r == Element(outer, [], [Element(inner, [Attr(key, value)], [])])
  {
    var ref := [Some(MakeAttribute(key, value))];
    assert ref == AttrEntries([Attr(key, value)]) + NodeEntries([]);
    ElementOfEntries(inner, [Attr(key, value)], []);
    var refNode := MakeElement(inner, ref);
    NodesOnly(outer, [refNode]);
    MakeElement(outer, NodeEntries([refNode]))
  }

  /** An image shown from `imageUrl`. */
  function BuildImage(imageUrl: string): (r: Node)
    ensures r == Element(Image, [], [Element(UrlRef, [Attr(UrlValue, imageUrl)], [])])
  {
    Reference(Image, UrlRef, UrlValue, imageUrl)
  }

  /** A link to the user with key `userKey`. */
  function BuildUserLink(userKey: string): (r: Node)
    ensures r == Element(Link, [], [Element(UserRef, [Attr(UserKey, userKey)], [])])
  {
    Reference(Link, UserRef, UserKey, userKey)
  }

  /** True for a null or empty string. */
  predicate IsNullOrEmpty(s: Option<string>)
  {
    s.None? || s.value == ""
  }

  /** The reference to the page titled `title`. */
  function PageRefNode(title: string): (r: Node)
    ensures r == Element(PageRef, [Attr(ContentTitle, title)], [])
  {
    var content := [Some(MakeAttribute(ContentTitle, title))];
    assert content == AttrEntries([Attr(ContentTitle, title)]) + NodeEntries([]);
    ElementOfEntries(PageRef, [Attr(ContentTitle, title)], []);
    MakeElement(PageRef, content)
  }

  /** The builder every page link goes through: a link to the page titled
      `title`, at `anchor` unless that is null or empty, showing `linkBody`
      when one is given. */
  function PageLink(title: string, anchor: Option<string>, linkBody: Option<Node>): (r: Node)
    ensures r.Element? && r.name == Link
    ensures (exists v :: Attr(LinkAnchor, v) in r.attrs) <==> !IsNullOrEmpty(anchor)
    ensures !IsNullOrEmpty(anchor) ==> r.attrs == [Attr(LinkAnchor, anchor.value)]
    ensures IsNullOrEmpty(anchor) ==> r.attrs == []
    ensures |r.children| == (if linkBody.Some? then 2 else 1)
    ensures r.children[0] == PageRefNode(title)
    ensures linkBody.Some? ==> r.children[1] == linkBody.value
  {
    var anchorAttr := if IsNullOrEmpty(anchor) then None else Some(MakeAttribute(LinkAnchor, anchor.value));
    var attrs := if IsNullOrEmpty(anchor) then [] else [Attr(LinkAnchor, anchor.value)];
    var page := PageRefNode(title);
    var body := if linkBody.None? then None else Some(NodeItem(linkBody.value));
    var nodes := if linkBody.None? then [page] else [page, linkBody.value];
    var content := [anchorAttr, Some(NodeItem(page)), body];
    PageLinkContent(anchorAttr, attrs, page, body, nodes);
    ElementOfEntries(Link, attrs, nodes);
    MakeElement(Link, content)
  }

  /** The content list of a page link, null entries dropped. */
  lemma PageLinkContent(
    anchorAttr: Option<Content>, attrs: seq<Attr>, page: Node, body: Option<Content>, nodes: seq<Node>)
    requires anchorAttr.None? ==> attrs == []
    requires anchorAttr.Some? ==> |attrs| == 1 && anchorAttr.value == AttrItem(attrs[0])
    requires body.None? ==> nodes == [page]
    requires body.Some? ==> body.value.NodeItem? && nodes == [page, body.value.node]
    ensures MakeElement(Link, [anchorAttr, Some(NodeItem(page)), body])
         == MakeElement(Link, AttrEntries(attrs) + NodeEntries(nodes))
  {
    var content := [anchorAttr, Some(NodeItem(page)), body];
    var front := if anchorAttr.None? then [] else [anchorAttr];
    var back := if body.None? then [] else [body];
    AnchorEntry(anchorAttr, front, [Some(NodeItem(page)), body]);
    assert content == [anchorAttr] + [Some(NodeItem(page)), body];
    BodyEntry(front + [Some(NodeItem(page))], body, back);
    assert front + [Some(NodeItem(page)), body] == front + [Some(NodeItem(page))] + [body];
    assert front + [Some(NodeItem(page))] + back == AttrEntries(attrs) + NodeEntries(nodes);
  }

  /** A leading anchor entry contributes itself when present and nothing
      when null. */
  lemma AnchorEntry(anchorAttr: Option<Content>, front: seq<Option<Content>>, rest: seq<Option<Content>>)
    requires front == if anchorAttr.None? then [] else [anchorAttr]
    ensures MakeElement(Link, [anchorAttr] + rest) == MakeElement(Link, front + rest)
  {
    if anchorAttr.None? {
      DropNull(Link, [], rest);
      assert [] + [None] + rest == [anchorAttr] + rest;
      assert [] + rest == front + rest;
    }
  }

  /** A trailing body entry contributes itself when present and nothing
      when null. */
  lemma BodyEntry(front: seq<Option<Content>>, body: Option<Content>, back: seq<Option<Content>>)
    requires back == if body.None? then [] else [body]
    ensures MakeElement(Link, front + [body]) == MakeElement(Link, front + back)
  {
    if body.None? {
      DropNull(Link, front, []);
      assert front + [None] + [] == front + [body];
      assert front + [] == front + back;
    }
  }

  /** The plain-text link body: the text kept verbatim in one CDATA node. */
  function PlainTextBody(linkText: string): (r: Node)
    ensures r == Element(PlainTextLinkBody, [], [CData(linkText)])
  {
    NodesOnly(PlainTextLinkBody, [CData(linkText)]);
    MakeElement(PlainTextLinkBody, NodeEntries([CData(linkText)]))
  }

  /** A link to a page, showing the page title. */
  function PageLinkByTitle(pageTitle: string): (r: Node)
    ensures r == Element(Link, [], [PageRefNode(pageTitle)])
  {
    PageLink(pageTitle, None, None)
  }

  /** A link to a page, showing `linkText`. */
  function PageLinkWithText(pageTitle: string, linkText: string): (r: Node)
    ensures r == Element(Link, [], [PageRefNode(pageTitle), Element(PlainTextLinkBody, [], [CData(linkText)])])
  {
    PageLink(pageTitle, None, Some(PlainTextBody(linkText)))
  }

  /** A link to an anchor of a page, showing `linkText`; a null or empty
      anchor gives no anchor attribute. */
  function PageLinkWithAnchor(pageTitle: string, pageAnchor: Option<string>, linkText: string): (r: Node)
    ensures r.Element? && r.name == Link
    ensures r.attrs == (if IsNullOrEmpty(pageAnchor) then [] else [Attr(LinkAnchor, pageAnchor.value)])
    ensures r.children == [PageRefNode(pageTitle), Element(PlainTextLinkBody, [], [CData(linkText)])]
  {
    PageLink(pageTitle, pageAnchor, Some(PlainTextBody(linkText)))
  }

  /** A link to a page, showing arbitrary content (an image, say) wrapped in
      a rich link body. */
  function PageLinkWithBody(pageTitle: string, linkBody: seq<Option<Content>>): (r: Node)
    ensures r.Element? && r.name == Link && r.attrs == []
    ensures |r.children| == 2 && r.children[0] == PageRefNode(pageTitle)
    ensures r.children[1].Element? && r.children[1].name == LinkBody
    ensures forall n :: n in r.children[1].children <==> Some(NodeItem(n)) in linkBody
    ensures forall a :: a in r.children[1].attrs <==> Some(AttrItem(a)) in linkBody
    ensures forall nodes :: linkBody == NodeEntries(nodes) ==>
      r == Element(Link, [], [PageRefNode(pageTitle), Element(LinkBody, [], nodes)])
  {
    assert forall nodes :: linkBody == NodeEntries(nodes) ==> MakeElement(LinkBody, linkBody) == Element(LinkBody, [], nodes) by {
      forall nodes | linkBody == NodeEntries(nodes) {
        NodesOnly(LinkBody, nodes);
      }
    }
    PageLink(pageTitle, None, Some(MakeElement(LinkBody, linkBody)))
  }

  /** A rich text body holding `content`, null entries dropped: the only
      node the container macros accept. */
  function BuildBody(content: seq<Option<Content>>): (r: Node)
    ensures CheckBody(r).Pass?
    ensures forall n :: n in r.children <==> Some(NodeItem(n)) in content
    ensures forall a :: a in r.attrs <==> Some(AttrItem(a)) in content
    ensures forall nodes :: content == NodeEntries(nodes) ==> r == Element(RichTextBody, [], nodes)
  {
    assert forall nodes :: content == NodeEntries(nodes) ==> MakeElement(RichTextBody, content) == Element(RichTextBody, [], nodes) by {
      forall nodes | content == NodeEntries(nodes) {
        NodesOnly(RichTextBody, nodes);
      }
    }
    MakeElement(RichTextBody, content)
  }

  /** An emoticon showing `emoticon`; any symbol is accepted. */
  function BuildEmoticon(emoticon: string): (r: Node)
    ensures r == Element(EmoticonTag, [Attr(MacroName, emoticon)], [])
  {
    var content := [Some(MakeAttribute(MacroName, emoticon))];
    assert content == AttrEntries([Attr(MacroName, emoticon)]) + NodeEntries([]);
    ElementOfEntries(EmoticonTag, [Attr(MacroName, emoticon)], []);
    MakeElement(EmoticonTag, content)
  }
}
