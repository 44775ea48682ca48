// The parsed HTML index pages the crawlers walk: golang.org/x/net/html nodes
// reduced to what the walks read (type, data, attributes, children in order).
module HtmlTree {

  datatype NodeKind = ErrorNode | TextNode | DocumentNode | ElementNode | CommentNode | DoctypeNode | RawNode

  datatype Attr = Attr(key: string, val: string)

  /** An html.Node: FirstChild/NextSibling become the ordered children. */
  datatype Node = Node(kind: NodeKind, data: string, attrs: seq<Attr>, children: seq<Node>)

  /** An <a> element. */
  predicate IsAnchor(n: Node) { n.kind == ElementNode && n.data == "a" }

  /** The number of <a> elements in a tree. */
  function AnchorCount(n: Node): nat
    decreases n
  {
    (if IsAnchor(n) then 1 else 0) + AnchorCountAll(n.children)
  }

  function AnchorCountAll(cs: seq<Node>): nat
    decreases cs
  {
    if cs == [] then 0 else AnchorCountAll(cs[..|cs| - 1]) + AnchorCount(cs[|cs| - 1])
  }
}
