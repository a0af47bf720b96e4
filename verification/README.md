# Confluence page block builders

This project models the block builders of `PageDocument`, a partial C# class that builds pieces of a Confluence page in the storage format. The storage format is XHTML with `ac:` (macro) and `ri:` (resource reference) elements. Each builder is a pure function that returns a small element tree:

- leaf blocks: status badge, table of contents, image, user link, emoticon;
- container macros: info, section, column. These accept only a rich text body and fail on anything else;
- page links: four public shapes that go through one shared builder. The shared builder drops the anchor when it is null or empty.

The project has four modules, one per file:

- `Wrappers` (`wrappers.dfy`): `Option`, for a C# null, plus `Result` and `Outcome`, for a call that may throw.
- `Xml` (`xml.dfy`): the tree. A `Node` is an `Element(name, attrs, children)`, a `Text` or a `CData`. `MakeElement` models the `Element` helper: it takes a flat content list of `Option<Content>`, drops the null entries, and sends attributes to the attribute list and nodes to the child list. Both lists keep the order of the content. `RebuildElement` shows the helper can produce every element.
- `PageDocument` (`page_document.dfy`): the builders, each with a contract that gives the exact tree. `BuildBody` and `PageLinkWithBody` take arbitrary content. For node-only content their contracts give the exact tree. For any content they give the exact attribute and child membership, and the `Xml` lemmas give the order. The body check returns `Outcome<BuildError>`. The container macros return `Result<Node, BuildError>` and fail with `InvalidOperation("Rich text body expected.")`.
- `Schema` (`schema.dfy`): a reader for each block kind. The toc macro has no arguments, so its reader only recognises it. Each reader checks a node against the block's schema and recovers the builder's arguments. The lemmas prove two directions: reading a built block returns its arguments (round trip), and every node a reader accepts is exactly what the builder makes from the arguments read (completeness).

Modelling decisions:

- Qualified names such as `ac:structured-macro` are opaque strings. Namespace-prefix resolution is defined elsewhere and is not part of this model.
- The only nullable strings are the column `width` and the page `anchor`, both `Option<string>`. Every other string argument is a non-null `string`.
- `CheckBody` takes any `Node`. The C# parameter type is `XElement`, so text and CDATA nodes cannot reach it there. In the model they fail the check.
- `bool.ToString()` is `"True"`/`"False"`. It is then lower-cased by an ASCII model of `ToLowerInvariant`, which is exact for those two strings.
- Only null content entries are dropped. `BuildColumn` tests `width == null`, so an empty width still gives a width parameter.
- The error message is "Rich text body expected.", with a capital letter and a period.

## Model

| member | source | states |
|---|---|---|
| Xml.AttrsIn | CCNet.Build.Confluence/PageDocument.Build.cs:49-52 | an element's attributes are exactly the non-null attribute entries of its content, and there are no more of them than entries |
| Xml.NodesIn | CCNet.Build.Confluence/PageDocument.Build.cs:49-52 | an element's children are exactly the non-null node entries of its content |
| Xml.MakeElement | CCNet.Build.Confluence/PageDocument.Build.cs:49-52 | the element helper keeps the given name and keeps exactly the non-null attributes and nodes; nulls are dropped, so attributes plus children number exactly the non-null entries |
| Xml.AttributeLandsInPlace | CCNet.Build.Confluence/PageDocument.Build.cs:49-60 | an attribute built by the attribute helper lands in the element's attribute list at its place among the other attributes, and never among the children |
| Xml.AttrsNodesSize | CCNet.Build.Confluence/PageDocument.Build.cs:49-52 | every non-null entry becomes exactly one attribute or one child |
| Xml.AttrsInAppend | CCNet.Build.Confluence/PageDocument.Build.cs:49-52 | the attributes of concatenated content are those of each part, in order |
| Xml.NodesInAppend | CCNet.Build.Confluence/PageDocument.Build.cs:49-52 | the children of concatenated content are those of each part, in order |
| Xml.MakeElementAppend | CCNet.Build.Confluence/PageDocument.Build.cs:49-52 | an element of concatenated content has the attributes and the children of each part, in order |
| Xml.DropNull | CCNet.Build.Confluence/PageDocument.Build.cs:49-52 | a null entry anywhere in the content leaves the element unchanged |
| Xml.ElementOfEntries | CCNet.Build.Confluence/PageDocument.Build.cs:49-52 | listed attributes followed by listed nodes give exactly those attributes and children, in order |
| Xml.RebuildElement | CCNet.Build.Confluence/PageDocument.Build.cs:49-52 | every element is rebuilt by the helper from its own attributes and children, so the helper is onto |
| Xml.NodesOnly | CCNet.Build.Confluence/PageDocument.Build.cs:49-52 | content made only of nodes gives no attributes and those nodes as children, in order |
| PageDocument.SubtleText | CCNet.Build.Confluence/PageDocument.Build.cs:73 | the lower-cased rendering of the outline flag is "true" or "false" |
| PageDocument.Parameter | CCNet.Build.Confluence/PageDocument.Build.cs:70-81 | a macro parameter is an `ac:parameter` with one `ac:name` attribute and one text child |
| PageDocument.BuildStatus | CCNet.Build.Confluence/PageDocument.Build.cs:65-82 | the status macro has the single attribute `ac:name`="status" and exactly three parameters, in the order subtle ("true"/"false" for the outline flag), colour (the colour's member name), title (the title unchanged) |
| Schema.ColorNameParses | CCNet.Build.Confluence/PageDocument.Build.cs:14-21 | the colour names are the five member names, and each names exactly one colour |
| Schema.StatusRoundTrip | CCNet.Build.Confluence/PageDocument.Build.cs:65-82 | a status macro reads back as its title, colour and outline flag, so different arguments give different blocks |
| Schema.StatusComplete | CCNet.Build.Confluence/PageDocument.Build.cs:65-82 | every node that reads as a status macro is exactly what BuildStatus makes from the arguments read |
| PageDocument.BuildToc | CCNet.Build.Confluence/PageDocument.Build.cs:87-92 | the toc macro is one fixed value: only the attribute `ac:name`="toc", no children |
| Schema.TocExact | CCNet.Build.Confluence/PageDocument.Build.cs:87-92 | a node is read as a toc macro (a structured macro whose one attribute is `ac:name`="toc" and which has no content) exactly when it equals the built toc macro |
| Schema.MacroKinds | CCNet.Build.Confluence/PageDocument.Build.cs:65-137 | the status, toc, info, section and column builders each produce a macro of their own `ac:name` |
| PageDocument.CheckBody | CCNet.Build.Confluence/PageDocument.Build.cs:217-221 | the check passes exactly when the node is an element named `ac:rich-text-body`; otherwise it fails with "Rich text body expected." |
| Schema.CheckBodyAcceptsBuiltBodies | CCNet.Build.Confluence/PageDocument.Build.cs:217-231 | the nodes the check accepts are exactly the nodes BuildBody can return |
| PageDocument.BuildInfo | CCNet.Build.Confluence/PageDocument.Build.cs:97-105 | the result is a failure exactly when the body check fails; on success it is the "info" macro whose sole child is the body, unchanged |
| PageDocument.BuildSection | CCNet.Build.Confluence/PageDocument.Build.cs:110-118 | the result is a failure exactly when the body check fails; on success it is the "section" macro whose sole child is the body, unchanged |
| Schema.BodyMacroRoundTrip | CCNet.Build.Confluence/PageDocument.Build.cs:97-118 | a built info or section macro reads back as the body it wraps |
| Schema.BodyMacroComplete | CCNet.Build.Confluence/PageDocument.Build.cs:97-118 | every node that reads as an info or section macro is what BuildInfo or BuildSection makes from its body |
| PageDocument.BuildColumn | CCNet.Build.Confluence/PageDocument.Build.cs:123-137 | the result fails exactly when the body check fails; with no width the column's only child is the body; with a width the children are a "width" parameter holding it, then the body |
| Schema.ColumnRoundTrip | CCNet.Build.Confluence/PageDocument.Build.cs:123-137 | a built column reads back as its width (or none) and its body |
| Schema.ColumnComplete | CCNet.Build.Confluence/PageDocument.Build.cs:123-137 | every node that reads as a column is what BuildColumn makes from the width and body read |
| Schema.MacrosAreNotBodies | CCNet.Build.Confluence/PageDocument.Build.cs:97-137 | passing a toc or status macro as the body makes info, section and column fail with the rich-text-body error |
| PageDocument.BuildImage | CCNet.Build.Confluence/PageDocument.Build.cs:142-149 | an image is `ac:image` with no attributes and one `ri:url` child whose only attribute is `ri:value` = the URL |
| PageDocument.BuildUserLink | CCNet.Build.Confluence/PageDocument.Build.cs:154-161 | a user link is `ac:link` with no attributes and one `ri:user` child whose only attribute is `ri:userkey` = the key |
| Schema.ReferenceRoundTrip | CCNet.Build.Confluence/PageDocument.Build.cs:142-161 | images and user links read back as their URL and key, and every node read as one is built from the value read |
| Schema.UserLinkIsNotPageLink | CCNet.Build.Confluence/PageDocument.Build.cs:154-173 | a user link is an `ac:link` but never reads as a page link |
| PageDocument.PageLink | CCNet.Build.Confluence/PageDocument.Build.cs:166-173 | a page link is `ac:link`; it has an `ac:anchor` attribute if and only if the anchor is neither null nor empty; its first child is `ri:page` with the title; the link body is the second child exactly when one is given |
| PageDocument.PageLinkContent | CCNet.Build.Confluence/PageDocument.Build.cs:168-172 | a missing anchor and a missing link body drop out of the link's content list, and the rest keeps its order |
| Schema.PageLinkRoundTrip | CCNet.Build.Confluence/PageDocument.Build.cs:166-173 | a page link reads back as its title, its body, and its anchor when that is neither null nor empty |
| Schema.PageLinkComplete | CCNet.Build.Confluence/PageDocument.Build.cs:166-173 | every node that reads as a page link is what the shared builder makes from the title, anchor and body read |
| Schema.EmptyAnchorIsNoAnchor | CCNet.Build.Confluence/PageDocument.Build.cs:170 | an empty anchor gives the same link as a null anchor |
| PageDocument.PlainTextBody | CCNet.Build.Confluence/PageDocument.Build.cs:190 | the plain-text link body has no attributes and a single CDATA child holding the text verbatim |
| Schema.PlainTextComplete | CCNet.Build.Confluence/PageDocument.Build.cs:190 | every node the plain-text reader accepts is the plain-text link body of the text it reads |
| PageDocument.PageLinkByTitle | CCNet.Build.Confluence/PageDocument.Build.cs:178-182 | the title-only link has no anchor attribute and only the `ri:page` child |
| PageDocument.PageLinkWithText | CCNet.Build.Confluence/PageDocument.Build.cs:187-192 | the text link has no anchor; its children are `ri:page`, then a plain-text link body holding the text as CDATA |
| PageDocument.PageLinkWithAnchor | CCNet.Build.Confluence/PageDocument.Build.cs:197-202 | the anchored link has the anchor attribute only for a non-null, non-empty anchor; its children are `ri:page`, then the plain-text body |
| PageDocument.PageLinkWithBody | CCNet.Build.Confluence/PageDocument.Build.cs:207-212 | the rich link has no anchor; its second child is an `ac:link-body` holding exactly the non-null content given, and for node-only content it is exactly those nodes in the given order |
| Schema.PageLinkShapes | CCNet.Build.Confluence/PageDocument.Build.cs:178-212 | each public page-link shape reads as the shared builder's arguments: no anchor except the normalised one of the anchored form, and a plain-text body whose text reads back verbatim |
| Schema.RichLinkBodyKeepsOrder | CCNet.Build.Confluence/PageDocument.Build.cs:207-212 | the rich link body lists the given nodes in order |
| PageDocument.BuildBody | CCNet.Build.Confluence/PageDocument.Build.cs:226-231 | a built body always passes the body check, and its children and attributes are exactly the non-null content, and node-only content gives exactly those nodes in the given order |
| Schema.BodyKeepsOrder | CCNet.Build.Confluence/PageDocument.Build.cs:226-231 | a body holds the given nodes in order, and null entries anywhere leave it unchanged |
| Schema.BuiltBodyIsAccepted | CCNet.Build.Confluence/PageDocument.Build.cs:97-118 | info and section succeed on a built body, and their sole child is that body, holding the given nodes in order |
| PageDocument.BuildEmoticon | CCNet.Build.Confluence/PageDocument.Build.cs:236-241 | an emoticon is `ac:emoticon` with the single attribute `ac:name` = the symbol and no children, for any symbol |
| Schema.EmoticonRoundTrip | CCNet.Build.Confluence/PageDocument.Build.cs:236-241 | an emoticon reads back as its symbol; every node read as one is built from it; the yellow-star emoticon carries "yellow-star" |

## Left out

- Namespace-prefix resolution (`Nm`): it is defined in another part of the class, which is not part of this model. Qualified names are opaque strings.
- System.Xml.Linq behaviour beyond ordering and null-dropping is not modelled. That covers text escaping, CDATA serialisation, merging of adjacent text content, and the handling of an empty string as content. An empty string is modelled as a `Text("")` child; XLinq keeps no text node for it. It also covers the exception XLinq raises for duplicate attribute names. No builder here can produce duplicates, but caller content given to `BuildBody` or the rich page link could.
- Flattening of nested `object[]` content: content is given as one flat list of `Option<Content>`.
- Null arguments other than the column width and the page anchor. In C#, a null title, URL, key, symbol or link text either throws in `XAttribute`/`XCData` or is dropped as content. The model takes those arguments as non-null strings.
- C# overload resolution between the `BuildPageLink` overloads. The four shapes are distinct functions: `PageLinkByTitle`, `PageLinkWithText`, `PageLinkWithAnchor`, `PageLinkWithBody`.
- ToLowerInvariant: modelled for ASCII letters only. It is applied only to "True" and "False", where that is exact.
- StatusColor: a closed datatype of the five named colours. The C# enum also accepts any integer cast to it, and `color.ToString()` then renders the number (`(StatusColor)7` gives colour "7"). Such out-of-range values are not modelled.
- A null `body` for `BuildInfo`, `BuildSection` or `BuildColumn`: in C# it throws `NullReferenceException` at `body.Name` in `CheckBody`, not the `InvalidOperationException` that `BuildError` models. The model takes the body as a non-null `Node`.
- The `Style.Color` string constants: they have no behaviour.
- `RegisteredUserInfo`: a wrapper over an Active Directory principal whose behaviour is not visible.
- Publishing pages and all other I/O.
