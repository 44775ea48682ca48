// The link extraction of the v2 parser package (link.go, file-link.go,
// folder-link.go): collect every trimmed href of every <a> element in
// document order, then split the links into files and folders.
module ParserLinks {
  import opened Common
  import opened HtmlTree

  /** The trimmed values of the href attributes, in attribute order. */
  function Hrefs(attrs: seq<Attr>): (links: seq<string>)
    ensures |links| <= |attrs|
  {
    if attrs == [] then []
    else Hrefs(attrs[..|attrs| - 1])
         + (if attrs[|attrs| - 1].key == "href" then [TrimSpace(attrs[|attrs| - 1].val)] else [])
  }

  /**
   * The links of a tree in pre-order: an anchor's own hrefs first, then the
   * links of its children from left to right.
   */
  function Links(n: Node): seq<string>
    decreases n
  {
    (if IsAnchor(n) then Hrefs(n.attrs) else []) + LinksAll(n.children)
  }

  function LinksAll(cs: seq<Node>): seq<string>
    decreases cs
  {
    if cs == [] then [] else LinksAll(cs[..|cs| - 1]) + Links(cs[|cs| - 1])
  }

  /** The attribute loop of the closure: appends the trimmed href values to acc. */
  method AppendHrefs(attrs: seq<Attr>, acc: seq<string>) returns (links: seq<string>)
    ensures links == acc + Hrefs(attrs)
  {
    links := acc;
    var j := 0;
    while j < |attrs|
      invariant 0 <= j <= |attrs|
      invariant links == acc + Hrefs(attrs[..j])
    {
      HrefsStep(attrs, j);
      if attrs[j].key == "href" {
        var link := TrimSpace(attrs[j].val);
        AppendAssoc(acc, Hrefs(attrs[..j]), [link]);
        links := links + [link];
      }
      j := j + 1;
    }
    assert attrs[..j] == attrs;
  }

  /** One more attribute adds its trimmed value when it is an href. */
  lemma HrefsStep(attrs: seq<Attr>, j: nat)
    requires j < |attrs|
    ensures Hrefs(attrs[..j + 1]) == Hrefs(attrs[..j]) + (if attrs[j].key == "href" then [TrimSpace(attrs[j].val)] else [])
  {
    assert attrs[..j + 1][..j] == attrs[..j];
  }

  /** The closure `filter` of parseLinks: appends the links of node to acc. */
  method CollectLinks(node: Node, acc: seq<string>) returns (links: seq<string>)
    ensures links == acc + Links(node)
    decreases node
  {
    links := acc;
    if IsAnchor(node) {
      links := AppendHrefs(node.attrs, links);
    }
    ghost var own := links;
    assert own == acc + (if IsAnchor(node) then Hrefs(node.attrs) else []);
    var i := 0;
    while i < |node.children|
      invariant 0 <= i <= |node.children|
      invariant links == own + LinksAll(node.children[..i])
    {
      assert node.children[..i + 1][..i] == node.children[..i];
      AppendAssoc(own, LinksAll(node.children[..i]), Links(node.children[i]));
      links := CollectLinks(node.children[i], links);
      i := i + 1;
    }
    assert node.children[..i] == node.children;
  }

  /** parseLinks */
  method ParseLinks(document: Node) returns (links: seq<string>)
    ensures links == Links(document)
  {
    links := CollectLinks(document, []);
  }

  /** Every href attribute of an element gives a link: its trimmed value. */
  lemma {:induction false} HrefsComplete(attrs: seq<Attr>)
    ensures forall i :: 0 <= i < |attrs| && attrs[i].key == "href" ==> TrimSpace(attrs[i].val) in Hrefs(attrs)
    decreases |attrs|
  {
    if attrs != [] {
      var init := attrs[..|attrs| - 1];
      var last := attrs[|attrs| - 1];
      var extra := if last.key == "href" then [TrimSpace(last.val)] else [];
      assert Hrefs(attrs) == Hrefs(init) + extra;
      HrefsComplete(init);
      forall i | 0 <= i < |attrs| && attrs[i].key == "href"
        ensures TrimSpace(attrs[i].val) in Hrefs(attrs)
      {
        if i < |init| {
          assert attrs[i] == init[i];
          assert TrimSpace(init[i].val) in Hrefs(init);
        } else {
          assert attrs[i] == last;
          assert TrimSpace(last.val) in extra;
        }
      }
    }
  }

  /** Every link of an element is the trimmed value of one of its href attributes. */
  lemma {:induction false} HrefsSound(attrs: seq<Attr>)
    ensures forall l :: l in Hrefs(attrs) ==>
      exists i :: 0 <= i < |attrs| && attrs[i].key == "href" && l == TrimSpace(attrs[i].val)
    decreases |attrs|
  {
    if attrs != [] {
      var init := attrs[..|attrs| - 1];
      var last := attrs[|attrs| - 1];
      var extra := if last.key == "href" then [TrimSpace(last.val)] else [];
      assert Hrefs(attrs) == Hrefs(init) + extra;
      HrefsSound(init);
      forall l | l in Hrefs(attrs)
        ensures exists i :: 0 <= i < |attrs| && attrs[i].key == "href" && l == TrimSpace(attrs[i].val)
      {
        if l in Hrefs(init) {
          var i :| 0 <= i < |init| && init[i].key == "href" && l == TrimSpace(init[i].val);
          assert attrs[i] == init[i];
        } else {
          assert l in extra;
        }
      }
    }
  }

  /** Every collected link is already trimmed. */
  lemma {:induction false} HrefsTrimmed(attrs: seq<Attr>)
    ensures forall l :: l in Hrefs(attrs) ==> Trimmed(l)
  {
    if attrs != [] {
      HrefsTrimmed(attrs[..|attrs| - 1]);
      TrimSpaceTrims(attrs[|attrs| - 1].val);
    }
  }

  lemma {:induction false} LinksTrimmed(n: Node)
    ensures forall l :: l in Links(n) ==> Trimmed(l)
    decreases n
  {
    if IsAnchor(n) { HrefsTrimmed(n.attrs); }
    LinksAllTrimmed(n.children);
  }

  lemma {:induction false} LinksAllTrimmed(cs: seq<Node>)
    ensures forall l :: l in LinksAll(cs) ==> Trimmed(l)
    decreases cs
  {
    if cs != [] {
      LinksAllTrimmed(cs[..|cs| - 1]);
      LinksTrimmed(cs[|cs| - 1]);
    }
  }

  // --------------------------------------------------- files and folders

  /** ParseFileLinks keeps a link unless it is empty, "../" or ends in "/". */
  predicate IsFileLink(l: string) { l != "" && l != "../" && !HasSuffix(l, "/") }

  /** ParseFolderLinks keeps a non-empty link ending in "/", "../" included. */
  predicate IsFolderLink(l: string) { l != "" && HasSuffix(l, "/") }

  function FileLinksOf(links: seq<string>): (files: seq<string>)
    ensures |files| <= |links|
  {
    if links == [] then []
    else FileLinksOf(links[..|links| - 1]) + (if IsFileLink(links[|links| - 1]) then [links[|links| - 1]] else [])
  }

  /** The file links are exactly the links that pass the file filter. */
  lemma {:induction false} FileLinksExactly(links: seq<string>)
    ensures forall f :: f in FileLinksOf(links) ==> f in links && IsFileLink(f)
    ensures forall l :: l in links && IsFileLink(l) ==> l in FileLinksOf(links)
    decreases |links|
  {
    if links != [] {
      var init := links[..|links| - 1];
      FileLinksExactly(init);
      assert links == init + [links[|links| - 1]];
    }
  }

  lemma FileLinksOfStep(links: seq<string>, i: nat)
    requires i < |links|
    ensures FileLinksOf(links[..i + 1]) == FileLinksOf(links[..i]) + (if IsFileLink(links[i]) then [links[i]] else [])
  {
    assert links[..i + 1][..i] == links[..i];
  }

  function FolderLinksOf(links: seq<string>): (folders: seq<string>)
    ensures |folders| <= |links|
  {
    if links == [] then []
    else FolderLinksOf(links[..|links| - 1]) + (if IsFolderLink(links[|links| - 1]) then [links[|links| - 1]] else [])
  }

  /** The folder links are exactly the links that pass the folder filter. */
  lemma {:induction false} FolderLinksExactly(links: seq<string>)
    ensures forall f :: f in FolderLinksOf(links) ==> f in links && IsFolderLink(f)
    ensures forall l :: l in links && IsFolderLink(l) ==> l in FolderLinksOf(links)
    decreases |links|
  {
    if links != [] {
      var init := links[..|links| - 1];
      FolderLinksExactly(init);
      assert links == init + [links[|links| - 1]];
    }
  }

  lemma FolderLinksOfStep(links: seq<string>, i: nat)
    requires i < |links|
    ensures FolderLinksOf(links[..i + 1]) == FolderLinksOf(links[..i]) + (if IsFolderLink(links[i]) then [links[i]] else [])
  {
    assert links[..i + 1][..i] == links[..i];
  }

  function CountEmpty(links: seq<string>): nat
  {
    if links == [] then 0 else CountEmpty(links[..|links| - 1]) + (if links[|links| - 1] == "" then 1 else 0)
  }

  /** ParseFileLinks: the file links of the document, each trimmed once more. */
  method ParseFileLinks(document: Node) returns (files: seq<string>)
    ensures files == FileLinksOf(Links(document))
  {
    var links := ParseLinks(document);
    LinksTrimmed(document);
    files := [];
    var i := 0;
    while i < |links|
      invariant 0 <= i <= |links|
      invariant files == FileLinksOf(links[..i])
    {
      FileLinksOfStep(links, i);
      var link := links[i];
      if IsFileLink(link) {
        TrimmedAt(links, i);
        files := files + [TrimSpace(link)];
      }
      i := i + 1;
    }
    assert links[..i] == links;
  }

  /** ParseFolderLinks: the folder links of the document, each trimmed once more. */
  method ParseFolderLinks(document: Node) returns (folders: seq<string>)
    ensures folders == FolderLinksOf(Links(document))
  {
    var links := ParseLinks(document);
    LinksTrimmed(document);
    folders := [];
    var i := 0;
    while i < |links|
      invariant 0 <= i <= |links|
      invariant folders == FolderLinksOf(links[..i])
    {
      FolderLinksOfStep(links, i);
      var link := links[i];
      if IsFolderLink(link) {
        TrimmedAt(links, i);
        folders := folders + [TrimSpace(link)];
      }
      i := i + 1;
    }
    assert links[..i] == links;
  }

  /** A second trim leaves each link of a trimmed list alone. */
  lemma TrimmedAt(links: seq<string>, i: nat)
    requires i < |links|
    requires forall l :: l in links ==> Trimmed(l)
    ensures TrimSpace(links[i]) == links[i]
  {
    assert links[i] in links;
    TrimSpaceOfTrimmed(links[i]);
  }

  /** No link is both a file link and a folder link. */
  lemma FileAndFolderDisjoint(links: seq<string>)
    ensures forall l :: l in FileLinksOf(links) ==> l !in FolderLinksOf(links)
  {
    FileLinksExactly(links);
    FolderLinksExactly(links);
  }

  /**
   * Every link of a page lands in exactly one of the two lists, or is the
   * empty link: the lists split the links (counted with repetition).
   */
  lemma {:induction false} FilesFoldersPartition(links: seq<string>)
    ensures |FileLinksOf(links)| + |FolderLinksOf(links)| + CountEmpty(links) == |links|
  {
    if links != [] {
      FilesFoldersPartition(links[..|links| - 1]);
    }
  }

  /** "../" is always kept as a folder and never as a file. */
  lemma ParentLinkIsAFolder(links: seq<string>)
    requires "../" in links
    ensures "../" in FolderLinksOf(links) && "../" !in FileLinksOf(links)
  {
    FileLinksExactly(links);
    FolderLinksExactly(links);
    assert HasSuffix("../", "/");
  }

  /** The file list keeps the page order: it is the links with the others removed. */
  lemma {:induction false} FileLinksOfAppend(a: seq<string>, b: seq<string>)
    ensures FileLinksOf(a + b) == FileLinksOf(a) + FileLinksOf(b)
    decreases |b|
  {
    if b == [] {
      assert a + b == a;
    } else {
      var b' := b[..|b| - 1];
      assert (a + b)[..|a + b| - 1] == a + b';
      FileLinksOfAppend(a, b');
    }
  }
}
