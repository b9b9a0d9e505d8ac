/**
 * The file explorer: the search over the loaded files, the rows it renders (top-level items
 * and the children of an expanded directory), and the click behaviour of one item.
 */
module FileExplorer {
  import opened Wrappers
  import Strings
  import Seqs

  /** A listed file; `children` is the optional nested list of a directory. */
  datatype FileNode = FileNode(id: string, name: string, path: string, size: int, isDirectory: bool,
                               children: Option<seq<FileNode>>)

  /** One rendered item: which file, at what indentation level, highlighted or not. */
  datatype Row = Row(path: string, level: nat, isActive: bool)

  /** The search: the lower-cased name contains the lower-cased term. */
  predicate NameMatches(f: FileNode, term: string) {
    Strings.Contains(Strings.Lower(f.name), Strings.Lower(term))
  }

  /** `filteredFiles`: the files whose name matches, in list order. */
  function FilteredFiles(files: seq<FileNode>, term: string): (r: seq<FileNode>)
    ensures Seqs.IsSubsequence(r, files)
    ensures forall i :: 0 <= i < |r| ==> NameMatches(r[i], term)
    ensures forall f :: multiset(r)[f] == if NameMatches(f, term) then multiset(files)[f] else 0
  {
    Seqs.Filter(files, f => NameMatches(f, term))
  }

  /** An empty search keeps every file, in order. */
  lemma EmptySearchKeepsAll(files: seq<FileNode>)
    ensures FilteredFiles(files, "") == files
  {
    assert Strings.Lower("") == "";
    forall i | 0 <= i < |files|
      ensures NameMatches(files[i], "")
    {
      Strings.ContainsEmpty(Strings.Lower(files[i].name));
    }
    Seqs.FilterKeepsAll(files, f => NameMatches(f, ""));
  }

  /** The top-level rows: level 0, highlighted exactly when the item is the active file. */
  function TopLevelRows(files: seq<FileNode>, term: string, activeFile: Option<string>): (r: seq<Row>)
    ensures |r| == |FilteredFiles(files, term)|
    ensures forall i :: 0 <= i < |r| ==>
      var f := FilteredFiles(files, term)[i];
      r[i].path == f.path && r[i].level == 0 && (r[i].isActive <==> activeFile == Some(f.path))
  {
    var shown := FilteredFiles(files, term);
    seq(|shown|, i requires 0 <= i < |shown| => Row(shown[i].path, 0, activeFile == Some(shown[i].path)))
  }

  /** At most one top-level row is highlighted when paths are distinct. */
  lemma AtMostOneActiveTopLevel(files: seq<FileNode>, term: string, activeFile: Option<string>)
    requires forall i, j :: 0 <= i < j < |files| ==> files[i].path != files[j].path
    ensures var r := TopLevelRows(files, term, activeFile);
      forall i, j :: 0 <= i < j < |r| && r[i].isActive ==> !r[j].isActive
  {
    var shown := FilteredFiles(files, term);
    var r := TopLevelRows(files, term, activeFile);
    forall i, j | 0 <= i < j < |r| && r[i].isActive
      ensures !r[j].isActive
    {
      SubsequenceKeepsDistinctPaths(shown, files, i, j);
    }
  }

  /** Distinct paths stay distinct in an order-preserving subsequence. */
  lemma {:induction false} SubsequenceKeepsDistinctPaths(r: seq<FileNode>, s: seq<FileNode>, i: int, j: int)
    requires Seqs.IsSubsequence(r, s)
    requires forall a, b :: 0 <= a < b < |s| ==> s[a].path != s[b].path
    requires 0 <= i < j < |r|
    ensures r[i].path != r[j].path
    decreases |s|
  {
    if r[0] == s[0] && Seqs.IsSubsequence(r[1..], s[1..]) {
      if i == 0 {
        SubsequenceMember(r[1..], s[1..], j - 1);
      } else {
        SubsequenceKeepsDistinctPaths(r[1..], s[1..], i - 1, j - 1);
      }
    } else {
      SubsequenceKeepsDistinctPaths(r, s[1..], i, j);
    }
  }

  /** Every element of a subsequence is an element of the sequence. */
  lemma {:induction false} SubsequenceMember<T>(r: seq<T>, s: seq<T>, k: int)
    requires Seqs.IsSubsequence(r, s) && 0 <= k < |r|
    ensures exists m :: 0 <= m < |s| && s[m] == r[k]
    decreases |s|
  {
    if r[0] == s[0] && Seqs.IsSubsequence(r[1..], s[1..]) {
      if k == 0 {
        assert s[0] == r[k];
      } else {
        SubsequenceMember(r[1..], s[1..], k - 1);
        var m :| 0 <= m < |s[1..]| && s[1..][m] == r[1..][k - 1];
        assert s[m + 1] == r[k];
      }
    } else {
      SubsequenceMember(r, s[1..], k);
      var m :| 0 <= m < |s[1..]| && s[1..][m] == r[k];
      assert s[m + 1] == r[k];
    }
  }

  /** One rendered item with its own expanded state and the `onSelect` calls it has made. */
  class Item {
    const file: FileNode
    const level: nat
    const isActive: bool
    var isExpanded: bool
    var selected: seq<string>

    constructor (file: FileNode, level: nat, isActive: bool)
      ensures this.file == file && this.level == level && this.isActive == isActive
      ensures !isExpanded && selected == []
    {
      this.file := file;
      this.level := level;
      this.isActive := isActive;
      isExpanded := false;
      selected := [];
    }

    /** A click on a directory toggles it and selects nothing; on a file it selects the file once. */
    method HandleClick()
      modifies this
      ensures file.isDirectory ==> isExpanded == !old(isExpanded) && selected == old(selected)
      ensures !file.isDirectory ==> isExpanded == old(isExpanded) && selected == old(selected) + [file.path]
    {
      if file.isDirectory {
        isExpanded := !isExpanded;
      } else {
        selected := selected + [file.path];
      }
    }

    /**
     * The child rows: only for an expanded directory with a children list, one per child at
     * the next level, highlighted when the child's path equals this item's own path.
     */
    function ChildRows(): (r: seq<Row>)
      reads this
      ensures !(file.isDirectory && isExpanded && file.children.Some?) ==> r == []
      ensures file.isDirectory && isExpanded && file.children.Some? ==>
        |r| == |file.children.value| &&
        forall i :: 0 <= i < |r| ==>
          r[i].path == file.children.value[i].path && r[i].level == level + 1 &&
          (r[i].isActive <==> file.children.value[i].path == file.path)
    {
      if file.isDirectory && isExpanded && file.children.Some? then
        var cs := file.children.value;
        seq(|cs|, i requires 0 <= i < |cs| => Row(cs[i].path, level + 1, cs[i].path == file.path))
      else []
    }

    /**
     * The child rows highlighted against the explorer's active file, the way the top-level
     * rows are.
     */
    function ChildRowsFor(activeFile: Option<string>): (r: seq<Row>)
      reads this
      ensures !(file.isDirectory && isExpanded && file.children.Some?) ==> r == []
      ensures file.isDirectory && isExpanded && file.children.Some? ==>
        |r| == |file.children.value| &&
        forall i :: 0 <= i < |r| ==>
          r[i].path == file.children.value[i].path && r[i].level == level + 1 &&
          (r[i].isActive <==> activeFile == Some(file.children.value[i].path))
    {
      if file.isDirectory && isExpanded && file.children.Some? then
        var cs := file.children.value;
        seq(|cs|, i requires 0 <= i < |cs| => Row(cs[i].path, level + 1, activeFile == Some(cs[i].path)))
      else []
    }

    /**
     * As written, a child whose path differs from its directory's (every child, in a tree of
     * distinct paths) is never highlighted, even when it is the active file; compared with the
     * active file, exactly the active child is.
     */
    lemma ActiveChildHighlight(activeFile: Option<string>, k: int)
      requires file.isDirectory && isExpanded && file.children.Some?
      requires 0 <= k < |file.children.value| && file.children.value[k].path != file.path
      requires activeFile == Some(file.children.value[k].path)
      ensures !ChildRows()[k].isActive
      ensures ChildRowsFor(activeFile)[k].isActive
    {
    }
  }
}
