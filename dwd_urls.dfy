// The index-page walks of the legacy dwd package (file-urls.go,
// folder-urls.go). FilterDocumentForFiles there is the same walk as the one
// in helpers/document-filter.go; GetFolderURLs is the folder walk that turns
// each kept folder into "<baseUrl>/<folder>".
module DwdUrls {
  import opened Common
  import opened HtmlTree
  import DocumentFilter

  /** FilterDocumentForFiles of internal/dwd: the legacy file walk. */
  method FilterDocumentForFiles(document: Node) returns (files: seq<string>)
    ensures files == DocumentFilter.Files(document)
    ensures |files| <= AnchorCount(document)
    ensures forall f :: f in files ==> DocumentFilter.KeepsFile(f)
  {
    files := DocumentFilter.FilterDocumentForFiles(document);
    DocumentFilter.FilesPerAnchor(document);
  }

  /** fmt.Sprintf("%s/%s", baseUrl, link) for every link, in order. */
  function FolderUrls(baseUrl: string, links: seq<string>): (urls: seq<string>)
    ensures |urls| == |links|
    ensures forall i :: 0 <= i < |links| ==> urls[i] == baseUrl + "/" + links[i]
  {
    if links == [] then [] else FolderUrls(baseUrl, links[..|links| - 1]) + [baseUrl + "/" + links[|links| - 1]]
  }

  lemma FolderUrlsAppend(baseUrl: string, a: seq<string>, b: seq<string>)
    ensures FolderUrls(baseUrl, a + b) == FolderUrls(baseUrl, a) + FolderUrls(baseUrl, b)
  {
  }

  /** What the anchor test of GetFolderURLs appends for one node; None is the panic. */
  method AnchorFolderUrl(node: Node, baseUrl: string) returns (entry: Option<seq<string>>)
    ensures entry.None? <==> DocumentFilter.FolderEntry(node).None?
    ensures entry.Some? ==> entry.value == FolderUrls(baseUrl, DocumentFilter.FolderEntry(node).value)
  {
    entry := Some([]);
    if node.kind == ElementNode && node.data == "a" {
      if |node.children| == 0 {
        return None;
      }
      var link := node.children[0].data;
      if link != "../" && HasSuffix(link, "/") {
        entry := Some([baseUrl + "/" + link]);
      }
    }
  }

  /** The closure of GetFolderURLs; None when an anchor without child is reached. */
  method WalkFolderUrls(node: Node, baseUrl: string, acc: seq<string>) returns (urls: Option<seq<string>>)
    ensures DocumentFilter.Folders(node).None? ==> urls.None?
    ensures DocumentFilter.Folders(node).Some? ==>
              urls == Some(acc + FolderUrls(baseUrl, DocumentFilter.Folders(node).value))
    decreases node, 1
  {
    var entry := AnchorFolderUrl(node, baseUrl);
    if entry.None? {
      return None;
    }
    urls := WalkFolderUrlChildren(node, baseUrl, acc + entry.value);
    if DocumentFilter.Folders(node).Some? {
      ghost var entries := DocumentFilter.FolderEntry(node).value;
      ghost var rest := DocumentFilter.FoldersAll(node.children).value;
      FolderUrlsAppend(baseUrl, entries, rest);
      AppendAssoc(acc, FolderUrls(baseUrl, entries), FolderUrls(baseUrl, rest));
    }
  }

  /** The child loop of GetFolderURLs: each child's walk in turn, stopping at a panic. */
  method WalkFolderUrlChildren(node: Node, baseUrl: string, acc: seq<string>) returns (urls: Option<seq<string>>)
    ensures DocumentFilter.FoldersAll(node.children).None? ==> urls.None?
    ensures DocumentFilter.FoldersAll(node.children).Some? ==>
              urls == Some(acc + FolderUrls(baseUrl, DocumentFilter.FoldersAll(node.children).value))
    decreases node, 0
  {
    var links := acc;
    var i := 0;
    while i < |node.children|
      invariant 0 <= i <= |node.children|
      invariant DocumentFilter.FoldersAll(node.children[..i]).Some?
      invariant links == acc + FolderUrls(baseUrl, DocumentFilter.FoldersAll(node.children[..i]).value)
    {
      DocumentFilter.FoldersAllStep(node.children, i);
      var r := WalkFolderUrls(node.children[i], baseUrl, links);
      if r.None? {
        DocumentFilter.FoldersAllPrefix(node.children, i + 1);
        return None;
      }
      ghost var before := DocumentFilter.FoldersAll(node.children[..i]).value;
      ghost var child := DocumentFilter.Folders(node.children[i]).value;
      FolderUrlsAppend(baseUrl, before, child);
      AppendAssoc(acc, FolderUrls(baseUrl, before), FolderUrls(baseUrl, child));
      links := r.value;
      i := i + 1;
    }
    assert node.children[..i] == node.children;
    return Some(links);
  }

  /**
   * GetFolderURLs: the folders FilterDocumentForFolders would list, each
   * prefixed with the base URL and a slash; the same panic.
   */
  method GetFolderURLs(p: Node, baseUrl: string) returns (urls: Option<seq<string>>)
    ensures urls.Some? <==> DocumentFilter.Folders(p).Some?
    ensures urls.Some? ==> urls.value == FolderUrls(baseUrl, DocumentFilter.Folders(p).value)
  {
    urls := WalkFolderUrls(p, baseUrl, []);
    if urls.Some? {
      assert [] + FolderUrls(baseUrl, DocumentFilter.Folders(p).value) == FolderUrls(baseUrl, DocumentFilter.Folders(p).value);
    }
  }
}
