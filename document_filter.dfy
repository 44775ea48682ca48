// The legacy walks of helpers/document-filter.go. The folder walk reads an
// anchor's link from the anchor's first child (its text), and panics on an
// anchor without children; the file walk reads the last href attribute.
module DocumentFilter {
  import opened Common
  import opened HtmlTree

  /** The legacy folder rule: ends in "/" and is not "../". */
  predicate KeepsFolder(link: string) { link != "../" && HasSuffix(link, "/") }

  /** The legacy file rule: non-empty, not "../", not ending in "/". */
  predicate KeepsFile(link: string) { link != "" && link != "../" && !HasSuffix(link, "/") }

  /** Concatenation of two partial walks: a panic in either is a panic of both. */
  function Then(a: Option<seq<string>>, b: Option<seq<string>>): (r: Option<seq<string>>)
    ensures r.Some? <==> a.Some? && b.Some?
    ensures r.Some? ==> r.value == a.value + b.value
  {
    if a.Some? && b.Some? then Some(a.value + b.value) else None
  }

  /** What one node adds to the folder list; None is the nil FirstChild dereference. */
  function FolderEntry(n: Node): Option<seq<string>>
  {
    if !IsAnchor(n) then Some([])
    else if n.children == [] then None
    else if KeepsFolder(n.children[0].data) then Some([n.children[0].data])
    else Some([])
  }

  /** The folders of a tree in pre-order, or None when the walk panics. */
  function Folders(n: Node): Option<seq<string>>
    decreases n
  {
    Then(FolderEntry(n), FoldersAll(n.children))
  }

  function FoldersAll(cs: seq<Node>): Option<seq<string>>
    decreases cs
  {
    if cs == [] then Some([]) else Then(FoldersAll(cs[..|cs| - 1]), Folders(cs[|cs| - 1]))
  }

  /** The value of the last href attribute, or "" when there is none. */
  function LastHref(attrs: seq<Attr>): string
  {
    if attrs == [] then ""
    else if attrs[|attrs| - 1].key == "href" then attrs[|attrs| - 1].val
    else LastHref(attrs[..|attrs| - 1])
  }

  /**
   * The link is "" when there is no href attribute, and otherwise the value
   * of the href attribute that no later href attribute follows.
   */
  lemma {:induction false} LastHrefFound(attrs: seq<Attr>)
    ensures (forall i :: 0 <= i < |attrs| ==> attrs[i].key != "href") ==> LastHref(attrs) == ""
    ensures (exists i :: 0 <= i < |attrs| && attrs[i].key == "href") ==>
              exists i :: 0 <= i < |attrs| && attrs[i].key == "href" && attrs[i].val == LastHref(attrs)
                          && forall j :: i < j < |attrs| ==> attrs[j].key != "href"
    decreases |attrs|
  {
    if attrs != [] {
      var init := attrs[..|attrs| - 1];
      LastHrefFound(init);
      if attrs[|attrs| - 1].key != "href" {
        forall i | 0 <= i < |init|
          ensures init[i] == attrs[i]
        {
        }
        if exists i :: 0 <= i < |attrs| && attrs[i].key == "href" {
          var i :| 0 <= i < |attrs| && attrs[i].key == "href";
          assert init[i].key == "href";
          var k :| 0 <= k < |init| && init[k].key == "href" && init[k].val == LastHref(init)
                   && forall j :: k < j < |init| ==> init[j].key != "href";
          assert attrs[k] == init[k];
        }
      } else {
        assert attrs[|attrs| - 1].val == LastHref(attrs);
      }
    }
  }

  function FileEntry(n: Node): (r: seq<string>)
    ensures |r| <= 1 && (r != [] ==> IsAnchor(n))
  {
    if IsAnchor(n) && KeepsFile(LastHref(n.attrs)) then [LastHref(n.attrs)] else []
  }

  /** The files of a tree in pre-order. */
  function Files(n: Node): seq<string>
    decreases n
  {
    FileEntry(n) + FilesAll(n.children)
  }

  function FilesAll(cs: seq<Node>): seq<string>
    decreases cs
  {
    if cs == [] then [] else FilesAll(cs[..|cs| - 1]) + Files(cs[|cs| - 1])
  }

  /** The closure of FilterDocumentForFolders; None when it panics. */
  method WalkFolders(node: Node, acc: seq<string>) returns (folders: Option<seq<string>>)
    ensures folders == Then(Some(acc), Folders(node))
    decreases node, 1
  {
    var links := acc;
    if node.kind == ElementNode && node.data == "a" {
      if |node.children| == 0 {
        return None;
      }
      var link := node.children[0].data;
      if link != "../" && HasSuffix(link, "/") {
        links := links + [link];
      }
    }
    assert FolderEntry(node).Some? && links == acc + FolderEntry(node).value;
    folders := WalkFolderChildren(node, links);
    if folders.Some? {
      assert folders.value == acc + (FolderEntry(node).value + FoldersAll(node.children).value);
    }
  }

  /** The child loop of the folder walk: each child's walk in turn, stopping at a panic. */
  method WalkFolderChildren(node: Node, acc: seq<string>) returns (folders: Option<seq<string>>)
    ensures folders == Then(Some(acc), FoldersAll(node.children))
    decreases node, 0
  {
    var links := acc;
    var i := 0;
    while i < |node.children|
      invariant 0 <= i <= |node.children|
      invariant FoldersAll(node.children[..i]).Some?
      invariant links == acc + FoldersAll(node.children[..i]).value
    {
      FoldersAllStep(node.children, i);
      var r := WalkFolders(node.children[i], links);
      if r.None? {
        FoldersAllPrefix(node.children, i + 1);
        return None;
      }
      links := r.value;
      i := i + 1;
    }
    assert node.children[..i] == node.children;
    return Some(links);
  }

  lemma FoldersAllStep(cs: seq<Node>, i: nat)
    requires i < |cs|
    ensures FoldersAll(cs[..i + 1]) == Then(FoldersAll(cs[..i]), Folders(cs[i]))
  {
    assert cs[..i + 1][..i] == cs[..i];
  }

  /** A panic in the first k children is a panic of the whole child walk. */
  lemma {:induction false} FoldersAllPrefix(cs: seq<Node>, k: nat)
    requires k <= |cs|
    requires FoldersAll(cs[..k]).None?
    ensures FoldersAll(cs).None?
    decreases |cs| - k
  {
    if k < |cs| {
      assert cs[..k + 1][..k] == cs[..k];
      FoldersAllPrefix(cs, k + 1);
    } else {
      assert cs[..k] == cs;
    }
  }

  /** FilterDocumentForFolders */
  method FilterDocumentForFolders(document: Node) returns (folders: Option<seq<string>>)
    ensures folders == Folders(document)
  {
    folders := WalkFolders(document, []);
    if folders.Some? {
      assert [] + Folders(document).value == Folders(document).value;
    }
  }

  /** The attribute loop of FilterDocumentForFiles: the last href wins. */
  method FindLastHref(attrs: seq<Attr>) returns (link: string)
    ensures link == LastHref(attrs)
  {
    link := "";
    var j := 0;
    while j < |attrs|
      invariant 0 <= j <= |attrs|
      invariant link == LastHref(attrs[..j])
    {
      assert attrs[..j + 1][..j] == attrs[..j];
      if attrs[j].key == "href" {
        link := attrs[j].val;
      }
      j := j + 1;
    }
    assert attrs[..j] == attrs;
  }

  /** What the anchor test of the file walk appends for one node. */
  method AnchorFile(node: Node) returns (entry: seq<string>)
    ensures entry == FileEntry(node)
  {
    entry := [];
    if node.kind == ElementNode && node.data == "a" {
      var link := FindLastHref(node.attrs);
      if link != "" && link != "../" && !HasSuffix(link, "/") {
        entry := [link];
      }
    }
  }

  /** The closure of FilterDocumentForFiles. */
  method WalkFiles(node: Node, acc: seq<string>) returns (files: seq<string>)
    ensures files == acc + Files(node)
    decreases node, 1
  {
    var entry := AnchorFile(node);
    files := WalkFileChildren(node, acc + entry);
    assert files == (acc + FileEntry(node)) + FilesAll(node.children);
  }

  /** The child loop of the file walk: each child's walk in turn. */
  method WalkFileChildren(node: Node, acc: seq<string>) returns (files: seq<string>)
    ensures files == acc + FilesAll(node.children)
    decreases node, 0
  {
    files := acc;
    var i := 0;
    while i < |node.children|
      invariant 0 <= i <= |node.children|
      invariant files == acc + FilesAll(node.children[..i])
    {
      ghost var before := FilesAll(node.children[..i]);
      FilesAllStep(node.children, i);
      files := WalkFiles(node.children[i], files);
      AppendAssoc(acc, before, Files(node.children[i]));
      i := i + 1;
    }
    assert node.children[..i] == node.children;
  }

  lemma FilesAllStep(cs: seq<Node>, i: nat)
    requires i < |cs|
    ensures FilesAll(cs[..i + 1]) == FilesAll(cs[..i]) + Files(cs[i])
  {
    assert cs[..i + 1][..i] == cs[..i];
  }

  /** FilterDocumentForFiles */
  method FilterDocumentForFiles(document: Node) returns (files: seq<string>)
    ensures files == Files(document)
    ensures forall f :: f in files ==> KeepsFile(f)
  {
    files := WalkFiles(document, []);
    FilesKept(document);
  }

  /** Every listed file obeys the file rule: not empty, not "../", not ending in "/". */
  lemma {:induction false} FilesKept(n: Node)
    ensures forall f :: f in Files(n) ==> KeepsFile(f)
    decreases n
  {
    FilesKeptAll(n.children);
  }

  lemma {:induction false} FilesKeptAll(cs: seq<Node>)
    ensures forall f :: f in FilesAll(cs) ==> KeepsFile(f)
    decreases cs
  {
    if cs != [] {
      FilesKeptAll(cs[..|cs| - 1]);
      FilesKept(cs[|cs| - 1]);
    }
  }

  /** At most one file per anchor. */
  lemma {:induction false} FilesPerAnchor(n: Node)
    ensures |Files(n)| <= AnchorCount(n)
    decreases n
  {
    FilesPerAnchorAll(n.children);
  }

  lemma {:induction false} FilesPerAnchorAll(cs: seq<Node>)
    ensures |FilesAll(cs)| <= AnchorCountAll(cs)
    decreases cs
  {
    if cs != [] {
      FilesPerAnchorAll(cs[..|cs| - 1]);
      FilesPerAnchor(cs[|cs| - 1]);
    }
  }

  /** At most one folder per anchor, when the walk does not panic. */
  lemma {:induction false} FoldersPerAnchor(n: Node)
    requires Folders(n).Some?
    ensures |Folders(n).value| <= AnchorCount(n)
    decreases n
  {
    FoldersPerAnchorAll(n.children);
  }

  lemma {:induction false} FoldersPerAnchorAll(cs: seq<Node>)
    requires FoldersAll(cs).Some?
    ensures |FoldersAll(cs).value| <= AnchorCountAll(cs)
    decreases cs
  {
    if cs != [] {
      FoldersPerAnchorAll(cs[..|cs| - 1]);
      FoldersPerAnchor(cs[|cs| - 1]);
    }
  }

  /** Every listed folder obeys the folder rule. */
  lemma {:induction false} FoldersKept(n: Node)
    requires Folders(n).Some?
    ensures forall f :: f in Folders(n).value ==> KeepsFolder(f)
    decreases n
  {
    FoldersKeptAll(n.children);
  }

  lemma {:induction false} FoldersKeptAll(cs: seq<Node>)
    requires FoldersAll(cs).Some?
    ensures forall f :: f in FoldersAll(cs).value ==> KeepsFolder(f)
    decreases cs
  {
    if cs != [] {
      FoldersKeptAll(cs[..|cs| - 1]);
      FoldersKept(cs[|cs| - 1]);
    }
  }

  /** The folder walk panics exactly when some anchor has no child. */
  lemma {:induction false} FoldersPanicOnEmptyAnchor(n: Node)
    ensures Folders(n).None? <==> ChildlessAnchor(n)
    decreases n
  {
    FoldersPanicOnEmptyAnchorAll(n.children);
  }

  lemma {:induction false} FoldersPanicOnEmptyAnchorAll(cs: seq<Node>)
    ensures FoldersAll(cs).None? <==> exists i :: 0 <= i < |cs| && ChildlessAnchor(cs[i])
    decreases cs
  {
    if cs != [] {
      var init := cs[..|cs| - 1];
      FoldersPanicOnEmptyAnchorAll(init);
      FoldersPanicOnEmptyAnchor(cs[|cs| - 1]);
      if exists i :: 0 <= i < |init| && ChildlessAnchor(init[i]) {
        var i :| 0 <= i < |init| && ChildlessAnchor(init[i]);
        assert cs[i] == init[i];
      }
      if exists i :: 0 <= i < |cs| && ChildlessAnchor(cs[i]) {
        var i :| 0 <= i < |cs| && ChildlessAnchor(cs[i]);
        if i < |init| { assert init[i] == cs[i]; }
      }
    }
  }

  /** Some <a> element of the tree has no child node. */
  predicate ChildlessAnchor(n: Node)
    decreases n
  {
    (IsAnchor(n) && n.children == []) || exists i :: 0 <= i < |n.children| && ChildlessAnchor(n.children[i])
  }
}
