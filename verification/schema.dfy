/** Readers for the storage-format blocks: each one recognises the shape a
    builder produces and recovers the builder's arguments from it. They are
    written against the schema of the blocks, independently of the builders,
    and the lemmas here connect the two in both directions: reading a built
    block gives back its arguments, and every block a reader accepts is what
    the builder makes from the arguments read. */
module Schema {
  import opened Wrappers
  import opened Xml
  import opened PageDocument

  /** The colour a member name stands for, if it names one. */
  function ParseColor(s: string): (r: Option<StatusColor>)
  {
    if s == "Grey" then Some(Grey)
    else if s == "Red" then Some(Red)
    else if s == "Yellow" then Some(Yellow)
    else if s == "Green" then Some(Green)
    else if s == "Blue" then Some(Blue)
    else None
  }

  /** The colour names are exactly the strings ParseColor accepts, and each
      names one colour. */
  lemma ColorNameParses(s: string, c: StatusColor)
    ensures ParseColor(s) == Some(c) <==> ColorName(c) == s
  {
  }

  function ParseBool(s: string): (r: Option<bool>)
  {
    if s == "true" then Some(true) else if s == "false" then Some(false) else None
  }

  /** The text of a parameter called `name` holding one text node. */
  function ParamText(p: Node, name: string): (r: Option<string>)
  {
    match p
    case Element(tag, attrs, children) =>
      if tag == MacroParameter && attrs == [Attr(MacroName, name)] && |children| == 1 && children[0].Text?
      then Some(children[0].text)
      else None
    case _ => None
  }

  /** A parameter is exactly the element its name and text describe. */
  lemma ParamTextExact(p: Node, name: string)
    ensures ParamText(p, name).Some? ==> p == Parameter(name, ParamText(p, name).value)
  {
  }

  /** The `ac:name` of a structured macro. */
  function MacroKind(n: Node): (r: Option<string>)
  {
    if n.Element? && n.name == StructuredMacro then AttrValue(n.attrs, MacroName) else None
  }

  /** Each macro builder yields a macro of its own kind, so no two of them
      produce the same block. */
  lemma MacroKinds(title: string, color: StatusColor, outline: bool, width: Option<string>, body: Node)
    ensures MacroKind(BuildStatus(title, color, outline)) == Some("status")
    ensures MacroKind(BuildToc()) == Some("toc")
    ensures BuildInfo(body).Ok? ==> MacroKind(BuildInfo(body).value) == Some("info")
    ensures BuildSection(body).Ok? ==> MacroKind(BuildSection(body).value) == Some("section")
    ensures BuildColumn(width, body).Ok? ==> MacroKind(BuildColumn(width, body).value) == Some("column")
  {
    MacroKindOf("status", BuildStatus(title, color, outline).children);
    MacroKindOf("toc", []);
    MacroKindOf("info", [body]);
    MacroKindOf("section", [body]);
    if BuildColumn(width, body).Ok? {
      MacroKindOf("column", BuildColumn(width, body).value.children);
    }
  }

  lemma MacroKindOf(macro: string, children: seq<Node>)
    ensures MacroKind(Element(StructuredMacro, [Attr(MacroName, macro)], children)) == Some(macro)
  {
  }

  /** Whether a node is a "toc" macro: a structured macro whose one
      attribute names it "toc" and which has no content. */
  predicate ReadToc(n: Node)
  {
    MacroKind(n) == Some("toc") && |n.attrs| == 1 && |n.children| == 0
  }

  /** The toc reader accepts the built toc macro and nothing else. */
  lemma TocExact(n: Node)
    ensures ReadToc(n) <==> n == BuildToc()
  {
  }

  /** The arguments of a "status" macro. */
  datatype StatusSpec = StatusSpec(title: string, color: StatusColor, outline: bool)

  function ReadStatus(n: Node): (r: Option<StatusSpec>)
  {
    if n.Element? && n.name == StructuredMacro && n.attrs == [Attr(MacroName, "status")] && |n.children| == 3 then
      var subtle := ParamText(n.children[0], "subtle");
      var colour := ParamText(n.children[1], "colour");
      var title := ParamText(n.children[2], "title");
      if subtle.Some? && colour.Some? && title.Some? then
        var outline := ParseBool(subtle.value);
        var color := ParseColor(colour.value);
        if outline.Some? && color.Some? then Some(StatusSpec(title.value, color.value, outline.value)) else None
      else None
    else None
  }

  /** A status macro reads back as its title, colour and outline flag. */
  lemma StatusRoundTrip(title: string, color: StatusColor, outline: bool)
    ensures ReadStatus(BuildStatus(title, color, outline)) == Some(StatusSpec(title, color, outline))
  {
    var subtle := if outline then "true" else "false";
    var c0, c1, c2 := Parameter("subtle", subtle), Parameter("colour", ColorName(color)), Parameter("title", title);
    assert BuildStatus(title, color, outline) == Element(StructuredMacro, [Attr(MacroName, "status")], [c0, c1, c2]);
    ParamOf("subtle", subtle);
    ParamOf("colour", ColorName(color));
    ParamOf("title", title);
    assert ParseBool(subtle) == Some(outline);
    ColorNameParses(ColorName(color), color);
    ReadStatusOfParams(c0, c1, c2, StatusSpec(title, color, outline));
  }

  lemma ParamOf(name: string, value: string)
    ensures ParamText(Parameter(name, value), name) == Some(value)
  {
  }

  /** A status element reads as the values its three parameters carry. */
  lemma ReadStatusOfParams(c0: Node, c1: Node, c2: Node, s: StatusSpec)
    requires ParamText(c0, "subtle").Some? && ParseBool(ParamText(c0, "subtle").value) == Some(s.outline)
    requires ParamText(c1, "colour").Some? && ParseColor(ParamText(c1, "colour").value) == Some(s.color)
    requires ParamText(c2, "title") == Some(s.title)
    ensures ReadStatus(Element(StructuredMacro, [Attr(MacroName, "status")], [c0, c1, c2])) == Some(s)
  {
  }

  /** Every well-formed status macro is built from the arguments it reads as. */
  lemma StatusComplete(n: Node)
    requires ReadStatus(n).Some?
    ensures BuildStatus(ReadStatus(n).value.title, ReadStatus(n).value.color, ReadStatus(n).value.outline) == n
  {
    var s := ReadStatus(n).value;
    var c0, c1, c2 := n.children[0], n.children[1], n.children[2];
    assert n == Element(StructuredMacro, [Attr(MacroName, "status")], [c0, c1, c2]);
    StatusParts(c0, c1, c2, s);
  }

  lemma StatusParts(c0: Node, c1: Node, c2: Node, s: StatusSpec)
    requires ParamText(c0, "subtle").Some? && ParseBool(ParamText(c0, "subtle").value) == Some(s.outline)
    requires ParamText(c1, "colour").Some? && ParseColor(ParamText(c1, "colour").value) == Some(s.color)
    requires ParamText(c2, "title") == Some(s.title)
    ensures c0 == Parameter("subtle", if s.outline then "true" else "false")
    ensures c1 == Parameter("colour", ColorName(s.color))
    ensures c2 == Parameter("title", s.title)
  {
  }

  /** The body of a macro of kind `macro` holding one rich text body. */
  function ReadBodyMacro(n: Node, macro: string): (r: Option<Node>)
  {
    if n.Element? && n.name == StructuredMacro && n.attrs == [Attr(MacroName, macro)] && |n.children| == 1
       && n.children[0].Element? && n.children[0].name == RichTextBody
    then Some(n.children[0])
    else None
  }

  /** An info or section macro reads back as the body it wraps. */
  lemma BodyMacroRoundTrip(body: Node)
    ensures BuildInfo(body).Ok? ==> ReadBodyMacro(BuildInfo(body).value, "info") == Some(body)
    ensures BuildSection(body).Ok? ==> ReadBodyMacro(BuildSection(body).value, "section") == Some(body)
  {
  }

  /** Every well-formed info or section macro is built from its body. */
  lemma BodyMacroComplete(n: Node)
    ensures ReadBodyMacro(n, "info").Some? ==> BuildInfo(ReadBodyMacro(n, "info").value) == Ok(n)
    ensures ReadBodyMacro(n, "section").Some? ==> BuildSection(ReadBodyMacro(n, "section").value) == Ok(n)
  {
    if ReadBodyMacro(n, "info").Some? {
      assert n.children == [n.children[0]];
    }
    if ReadBodyMacro(n, "section").Some? {
      assert n.children == [n.children[0]];
    }
  }

  /** The arguments of a "column" macro. */
  datatype ColumnSpec = ColumnSpec(width: Option<string>, body: Node)

  function ReadColumn(n: Node): (r: Option<ColumnSpec>)
  {
    if n.Element? && n.name == StructuredMacro && n.attrs == [Attr(MacroName, "column")]
       && 1 <= |n.children| <= 2
    then
      var body := n.children[|n.children| - 1];
      if !(body.Element? && body.name == RichTextBody) then None
      else if |n.children| == 1 then Some(ColumnSpec(None, body))
      else
        var width := ParamText(n.children[0], "width");
        if width.Some? then Some(ColumnSpec(width, body)) else None
    else None
  }

  /** A column macro reads back as its width (or none) and its body. */
  lemma ColumnRoundTrip(width: Option<string>, body: Node)
    ensures BuildColumn(width, body).Ok? ==> ReadColumn(BuildColumn(width, body).value) == Some(ColumnSpec(width, body))
  {
  }

  /** Every well-formed column macro is built from the width and body it
      reads as. */
  lemma ColumnComplete(n: Node)
    requires ReadColumn(n).Some?
    ensures BuildColumn(ReadColumn(n).value.width, ReadColumn(n).value.body) == Ok(n)
  {
    var c := ReadColumn(n).value;
    if |n.children| == 1 {
      assert n.children == [c.body];
    } else {
      ParamTextExact(n.children[0], "width");
      assert n.children == [Parameter("width", c.width.value), c.body];
    }
  }

  /** The arguments of the shared page-link builder, with the anchor as the
      block carries it. */
  datatype LinkSpec = LinkSpec(title: string, anchor: Option<string>, body: Option<Node>)

  /** The title of a page reference. */
  function ReadPageRef(n: Node): (r: Option<string>)
  {
    if n.Element? && n.name == PageRef && |n.attrs| == 1 && n.attrs[0].name == ContentTitle && n.children == []
    then Some(n.attrs[0].value)
    else None
  }

  /** The anchor of a link's attribute list: none, or one non-empty anchor. */
  function ReadAnchor(attrs: seq<Attr>): (r: Option<Option<string>>)
  {
    if attrs == [] then Some(None)
    else if |attrs| == 1 && attrs[0].name == LinkAnchor && attrs[0].value != "" then Some(Some(attrs[0].value))
    else None
  }

  function ReadPageLink(n: Node): (r: Option<LinkSpec>)
  {
    if n.Element? && n.name == Link && 1 <= |n.children| <= 2 then
      var anchor := ReadAnchor(n.attrs);
      var title := ReadPageRef(n.children[0]);
      if anchor.Some? && title.Some? then
        Some(LinkSpec(title.value, anchor.value, if |n.children| == 2 then Some(n.children[1]) else None))
      else None
    else None
  }

  /** A page link reads back as its title, its body, and its anchor when
      that is neither null nor empty. */
  lemma PageLinkRoundTrip(title: string, anchor: Option<string>, linkBody: Option<Node>)
    ensures ReadPageLink(PageLink(title, anchor, linkBody))
         == Some(LinkSpec(title, if IsNullOrEmpty(anchor) then None else anchor, linkBody))
  {
  }

  /** Every well-formed page link is built by the shared builder from the
      title, anchor and body it reads as. */
  lemma PageLinkComplete(n: Node)
    requires ReadPageLink(n).Some?
    ensures PageLink(ReadPageLink(n).value.title, ReadPageLink(n).value.anchor, ReadPageLink(n).value.body) == n
  {
    var s := ReadPageLink(n).value;
    var built := PageLink(s.title, s.anchor, s.body);
    assert n.children[0] == PageRefNode(s.title);
    if |n.children| == 1 {
      assert built.children == n.children;
    } else {
      assert built.children == n.children;
    }
    if n.attrs != [] {
      assert n.attrs == [Attr(LinkAnchor, s.anchor.value)];
    }
  }

  /** An empty anchor is the same as no anchor. */
  lemma EmptyAnchorIsNoAnchor(title: string, linkBody: Option<Node>)
    ensures PageLink(title, Some(""), linkBody) == PageLink(title, None, linkBody)
  {
  }

  /** The text of a plain-text link body, kept as one CDATA node. */
  function ReadPlainText(n: Node): (r: Option<string>)
  {
    if n.Element? && n.name == PlainTextLinkBody && n.attrs == [] && |n.children| == 1 && n.children[0].CData?
    then Some(n.children[0].data)
    else None
  }

  /** Every node the plain-text reader accepts is the plain-text body of the
      text it reads. */
  lemma {:induction false} PlainTextComplete(n: Node)
    ensures ReadPlainText(n).Some? ==> PlainTextBody(ReadPlainText(n).value) == n
  {
    if ReadPlainText(n).Some? {
      assert n.children == [n.children[0]];
    }
  }

  /** The public page-link shapes are the shared builder with no anchor, an
      optional anchor, and a plain-text or rich body; their link text reads
      back verbatim. */
  lemma PageLinkShapes(title: string, anchor: Option<string>, linkText: string, linkBody: seq<Option<Content>>)
    ensures ReadPageLink(PageLinkByTitle(title)) == Some(LinkSpec(title, None, None))
    ensures ReadPageLink(PageLinkWithText(title, linkText)) == Some(LinkSpec(title, None, Some(PlainTextBody(linkText))))
    ensures ReadPageLink(PageLinkWithAnchor(title, anchor, linkText))
         == Some(LinkSpec(title, if IsNullOrEmpty(anchor) then None else anchor, Some(PlainTextBody(linkText))))
    ensures ReadPageLink(PageLinkWithBody(title, linkBody))
         == Some(LinkSpec(title, None, Some(MakeElement(LinkBody, linkBody))))
    ensures ReadPlainText(PlainTextBody(linkText)) == Some(linkText)
  {
  }

  /** A rich link body lists the nodes it was given, in order. */
  lemma RichLinkBodyKeepsOrder(title: string, nodes: seq<Node>)
    ensures PageLinkWithBody(title, NodeEntries(nodes)).children[1] == Element(LinkBody, [], nodes)
  {
    NodesOnly(LinkBody, nodes);
  }

  /** A user link is a link, but never reads as a page link. */
  lemma UserLinkIsNotPageLink(userKey: string)
    ensures BuildUserLink(userKey).name == Link
    ensures ReadPageLink(BuildUserLink(userKey)) == None
  {
  }

  /** The value of a one-attribute reference element inside `outer`. */
  function ReadReference(n: Node, outer: string, inner: string, key: string): (r: Option<string>)
  {
    if n.Element? && n.name == outer && n.attrs == [] && |n.children| == 1
       && n.children[0].Element? && n.children[0].name == inner && |n.children[0].attrs| == 1
       && n.children[0].attrs[0].name == key && n.children[0].children == []
    then Some(n.children[0].attrs[0].value)
    else None
  }

  /** Images and user links read back as their URL and user key, and every
      such reference is built from the value it reads as. */
  lemma ReferenceRoundTrip(imageUrl: string, userKey: string, n: Node)
    ensures ReadReference(BuildImage(imageUrl), Image, UrlRef, UrlValue) == Some(imageUrl)
    ensures ReadReference(BuildUserLink(userKey), Link, UserRef, UserKey) == Some(userKey)
    ensures ReadReference(n, Image, UrlRef, UrlValue).Some? ==>
      BuildImage(ReadReference(n, Image, UrlRef, UrlValue).value) == n
    ensures ReadReference(n, Link, UserRef, UserKey).Some? ==>
      BuildUserLink(ReadReference(n, Link, UserRef, UserKey).value) == n
  {
    if ReadReference(n, Image, UrlRef, UrlValue).Some? || ReadReference(n, Link, UserRef, UserKey).Some? {
      assert n.children[0].attrs == [n.children[0].attrs[0]];
      assert n.children == [n.children[0]];
    }
  }

  /** The symbol of an emoticon. */
  function ReadEmoticon(n: Node): (r: Option<string>)
  {
    if n.Element? && n.name == EmoticonTag && |n.attrs| == 1 && n.attrs[0].name == MacroName && n.children == []
    then Some(n.attrs[0].value)
    else None
  }

  /** An emoticon reads back as any symbol it was given, and every emoticon
      is built from its symbol. */
  lemma EmoticonRoundTrip(emoticon: string, n: Node)
    ensures ReadEmoticon(BuildEmoticon(emoticon)) == Some(emoticon)
    ensures BuildEmoticon(YellowStar).attrs == [Attr(MacroName, "yellow-star")]
    ensures ReadEmoticon(n).Some? ==> BuildEmoticon(ReadEmoticon(n).value) == n
  {
  }

  /** The nodes CheckBody accepts are exactly the ones BuildBody can make. */
  lemma CheckBodyAcceptsBuiltBodies(n: Node)
    ensures CheckBody(n).Pass? <==> exists content :: BuildBody(content) == n
  {
    if CheckBody(n).Pass? {
      RebuildElement(n);
      assert BuildBody(ContentOf(n)) == n;
    }
  }

  /** A rich text body holds its nodes in order, whatever nulls stand among
      them. */
  lemma BodyKeepsOrder(nodes: seq<Node>, a: seq<Option<Content>>, b: seq<Option<Content>>)
    ensures BuildBody(NodeEntries(nodes)) == Element(RichTextBody, [], nodes)
    ensures BuildBody(a + [None] + b) == BuildBody(a + b)
  {
    NodesOnly(RichTextBody, nodes);
    DropNull(RichTextBody, a, b);
  }

  /** Wrapping a built body in an info or section macro succeeds, and the
      macro's one child is the body holding the given nodes in order. */
  lemma BuiltBodyIsAccepted(nodes: seq<Node>)
    ensures BuildInfo(BuildBody(NodeEntries(nodes)))
         == Ok(Element(StructuredMacro, [Attr(MacroName, "info")], [Element(RichTextBody, [], nodes)]))
    ensures BuildSection(BuildBody(NodeEntries(nodes)))
         == Ok(Element(StructuredMacro, [Attr(MacroName, "section")], [Element(RichTextBody, [], nodes)]))
  {
    NodesOnly(RichTextBody, nodes);
  }

  /** A macro is not a rich text body, so the container macros refuse it. */
  lemma MacrosAreNotBodies(title: string, color: StatusColor, outline: bool, width: Option<string>)
    ensures BuildInfo(BuildToc()) == Err(InvalidOperation(RichTextBodyExpected))
    ensures BuildSection(BuildToc()) == Err(InvalidOperation(RichTextBodyExpected))
    ensures BuildColumn(width, BuildToc()) == Err(InvalidOperation(RichTextBodyExpected))
    ensures BuildInfo(BuildStatus(title, color, outline)) == Err(InvalidOperation(RichTextBodyExpected))
    ensures BuildSection(BuildStatus(title, color, outline)) == Err(InvalidOperation(RichTextBodyExpected))
    ensures BuildColumn(width, BuildStatus(title, color, outline)) == Err(InvalidOperation(RichTextBodyExpected))
  {
  }
}
