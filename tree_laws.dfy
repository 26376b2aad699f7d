/** What the tree printer promises: RenderTree prints every node below the one
    it is given exactly once, in pre-order, each child with the caller's prefix
    and the connector its position calls for, and below a directory child only
    that child's lines, indented one step further; BuildTree keeps the
    directories and, when asked, the files of a listing, in order. */
module TreeLaws {
  import opened Strings
  import opened Tree

  // ---------------------------------------------------------------------------
  // Shape of a tree

  /** Files have no children, at every level. */
  predicate WellFormed(nd: Node)
    decreases nd
  {
    forall k :: 0 <= k < |nd.children| ==>
      WellFormed(nd.children[k]) && (!nd.children[k].isDir ==> nd.children[k].children == [])
  }

  /** Every node is a directory, at every level. */
  predicate OnlyDirs(nd: Node)
    decreases nd
  {
    nd.isDir && forall k :: 0 <= k < |nd.children| ==> OnlyDirs(nd.children[k])
  }

  /** The names of all nodes strictly below `nd`, parents before their children,
      siblings in order. */
  function Preorder(nd: Node): seq<string>
    decreases nd, |nd.children| + 1
  {
    PreorderUpTo(nd, |nd.children|)
  }

  function PreorderUpTo(nd: Node, k: nat): seq<string>
    requires k <= |nd.children|
    decreases nd, k
  {
    if k == 0 then [] else PreorderUpTo(nd, k - 1) + [nd.children[k - 1].name] + Preorder(nd.children[k - 1])
  }

  function Names(lines: seq<Line>): seq<string>
  {
    if |lines| == 0 then [] else Names(lines[..|lines| - 1]) + [lines[|lines| - 1].name]
  }

  lemma {:induction false} NamesAppend(a: seq<Line>, b: seq<Line>)
    ensures Names(a + b) == Names(a) + Names(b)
  {
    if |b| > 0 {
      assert (a + b)[..|a + b| - 1] == a + b[..|b| - 1];
      NamesAppend(a, b[..|b| - 1]);
    } else {
      assert a + b == a;
    }
  }

  lemma {:induction false} NamesLength(lines: seq<Line>)
    ensures |Names(lines)| == |lines|
  {
    if |lines| > 0 {
      NamesLength(lines[..|lines| - 1]);
    }
  }

  // ---------------------------------------------------------------------------
  // RenderTree

  /** One line per node below `nd`, none for `nd` itself, in pre-order. */
  lemma {:induction false} LinesArePreorder(prefix: seq<string>, nd: Node)
    requires WellFormed(nd)
    ensures Names(Lines(prefix, nd)) == Preorder(nd)
    ensures |Lines(prefix, nd)| == |Preorder(nd)|
    decreases nd, |nd.children| + 1
  {
    ChildLinesArePreorder(prefix, nd, |nd.children|);
    NamesLength(Lines(prefix, nd));
  }

  lemma {:induction false} ChildLinesArePreorder(prefix: seq<string>, nd: Node, k: nat)
    requires WellFormed(nd) && k <= |nd.children|
    ensures Names(ChildLines(prefix, nd, k)) == PreorderUpTo(nd, k)
    decreases nd, k
  {
    if k > 0 {
      ChildLinesArePreorder(prefix, nd, k - 1);
      var v := nd.children[k - 1];
      var last := k == |nd.children|;
      var head := ChildLines(prefix, nd, k - 1) + [Line(prefix, last, v.name)];
      var below := if v.isDir then Lines(prefix + [Indent(last)], v) else [];
      NamesAppend(head, below);
      NamesAppend(ChildLines(prefix, nd, k - 1), [Line(prefix, last, v.name)]);
      if v.isDir {
        LinesArePreorder(prefix + [Indent(last)], v);
      } else {
        assert Preorder(v) == [];
      }
    }
  }

  /** The lines of the first i children are the start of the lines of the first k. */
  lemma {:induction false} ChildLinesPrefix(prefix: seq<string>, nd: Node, i: nat, k: nat)
    requires i <= k <= |nd.children|
    ensures |ChildLines(prefix, nd, i)| <= |ChildLines(prefix, nd, k)|
    ensures ChildLines(prefix, nd, k)[..|ChildLines(prefix, nd, i)|] == ChildLines(prefix, nd, i)
    decreases k
  {
    if i < k {
      ChildLinesPrefix(prefix, nd, i, k - 1);
      var a := ChildLines(prefix, nd, k - 1);
      assert ChildLines(prefix, nd, k)[..|a|] == a;
    }
  }

  /** The block of lines for child i: its own line, with the caller's prefix and
      the end connector exactly when it is the last child, followed (for a
      directory only) by its own lines with the prefix extended by the last
      indent or the default indent. */
  lemma ChildBlock(prefix: seq<string>, nd: Node, i: nat)
    requires i < |nd.children|
    ensures var lines := Lines(prefix, nd);
            var lo := |ChildLines(prefix, nd, i)|;
            var hi := |ChildLines(prefix, nd, i + 1)|;
            var last := i == |nd.children| - 1;
            lo < hi <= |lines| &&
            lines[lo] == Line(prefix, last, nd.children[i].name) &&
            lines[lo + 1..hi] == (if nd.children[i].isDir then Lines(prefix + [Indent(last)], nd.children[i]) else [])
  {
    ChildLinesPrefix(prefix, nd, i + 1, |nd.children|);
    var lines := Lines(prefix, nd);
    var hi := |ChildLines(prefix, nd, i + 1)|;
    assert lines[..hi] == ChildLines(prefix, nd, i + 1);
  }

  /** `indent` is `prefix` followed by indents of the two kinds only. */
  predicate Extends(indent: seq<string>, prefix: seq<string>)
  {
    |prefix| <= |indent| && indent[..|prefix|] == prefix &&
    forall j :: |prefix| <= j < |indent| ==> indent[j] == DefPrefix || indent[j] == LastPrefix
  }

  predicate AllExtend(lines: seq<Line>, prefix: seq<string>)
  {
    forall i :: 0 <= i < |lines| ==> Extends(lines[i].indent, prefix)
  }

  lemma ExtendsStep(indent: seq<string>, prefix: seq<string>, x: string)
    requires x == DefPrefix || x == LastPrefix
    requires Extends(indent, prefix + [x])
    ensures Extends(indent, prefix)
  {
    assert indent[..|prefix|] == indent[..|prefix| + 1][..|prefix|];
  }

  /** Every line below `nd` starts with the caller's prefix, and anything
      beyond it is made of the default and last indents. */
  lemma {:induction false} LinesExtendPrefix(prefix: seq<string>, nd: Node)
    ensures AllExtend(Lines(prefix, nd), prefix)
    decreases nd, |nd.children| + 1
  {
    ChildLinesExtendPrefix(prefix, nd, |nd.children|);
  }

  lemma {:induction false} ChildLinesExtendPrefix(prefix: seq<string>, nd: Node, k: nat)
    requires k <= |nd.children|
    ensures AllExtend(ChildLines(prefix, nd, k), prefix)
    decreases nd, k
  {
    if k > 0 {
      ChildLinesExtendPrefix(prefix, nd, k - 1);
      var v := nd.children[k - 1];
      var last := k == |nd.children|;
      var head := ChildLines(prefix, nd, k - 1) + [Line(prefix, last, v.name)];
      assert Extends(prefix, prefix);
      assert AllExtend(head, prefix);
      if v.isDir {
        var inner := prefix + [Indent(last)];
        var below := Lines(inner, v);
        LinesExtendPrefix(inner, v);
        forall i | 0 <= i < |below| ensures Extends(below[i].indent, prefix) {
          ExtendsStep(below[i].indent, prefix, Indent(last));
        }
        var all := head + below;
        forall i | 0 <= i < |all| ensures Extends(all[i].indent, prefix) {
          if i >= |head| {
            assert all[i] == below[i - |head|];
          }
        }
      } else {
        assert ChildLines(prefix, nd, k) == head;
      }
    }
  }

  /** One more indent in the prefix adds exactly that indent to the joined text. */
  lemma IndentText(prefix: seq<string>, x: string)
    ensures Join(prefix + [x], "") == Join(prefix, "") + x
  {
    if |prefix| == 0 {
      assert prefix + [x] == [x];
    } else {
      JoinSnoc(prefix, x, "");
    }
  }

  /** With the initial prefix `[""]` the printed child lines carry no indent at all. */
  lemma TopLevelText(last: bool, name: string)
    ensures Text(Line([""], last, name)) == Connector(last) + name + Eof
  {
    assert Join([""], "") == "";
  }

  // ---------------------------------------------------------------------------
  // BuildTree

  /** The entries BuildTree keeps: directories always, files when `withFiles` is set. */
  function Kept(files: seq<Entry>, withFiles: bool): (r: seq<Entry>)
    ensures |r| <= |files|
  {
    if |files| == 0 then []
    else
      var e := files[|files| - 1];
      Kept(files[..|files| - 1], withFiles) + (if e.Dir? || withFiles then [e] else [])
  }

  /** The node BuildTree makes for a kept entry. */
  function NodeOf(e: Entry, withFiles: bool): Node
  {
    match e
    case Dir(name, listing) => Node(name, true, Built(Entries(listing), withFiles))
    case File(name, size) => Node(name + SizeLabel(size), false, [])
  }

  /** BuildTree makes one node for each kept entry, in the listing's order: a
      directory keeps its name and holds the nodes of its own entries, a file
      gets its size label and no children. */
  lemma {:induction false} BuiltFollowsKept(files: seq<Entry>, withFiles: bool)
    ensures |Built(files, withFiles)| == |Kept(files, withFiles)|
    ensures forall k :: 0 <= k < |Kept(files, withFiles)| ==>
      Built(files, withFiles)[k] == NodeOf(Kept(files, withFiles)[k], withFiles)
  {
    if |files| > 0 {
      BuiltFollowsKept(files[..|files| - 1], withFiles);
    }
  }

  /** An entry is kept exactly when it is in the listing and is a directory or files are shown. */
  lemma {:induction false} KeptMembers(files: seq<Entry>, withFiles: bool, e: Entry)
    ensures e in Kept(files, withFiles) <==> e in files && (e.Dir? || withFiles)
  {
    if |files| > 0 {
      KeptMembers(files[..|files| - 1], withFiles, e);
      assert files == files[..|files| - 1] + [files[|files| - 1]];
    }
  }

  /** With files shown, every entry is kept, in order. */
  lemma {:induction false} KeptAll(files: seq<Entry>)
    ensures Kept(files, true) == files
  {
    if |files| > 0 {
      KeptAll(files[..|files| - 1]);
      assert files == files[..|files| - 1] + [files[|files| - 1]];
    }
  }

  /** BuildTree's nodes are well formed: files never have children. */
  lemma {:induction false} BuiltWellFormed(files: seq<Entry>, withFiles: bool)
    ensures forall k :: 0 <= k < |Built(files, withFiles)| ==>
      WellFormed(Built(files, withFiles)[k]) &&
      (!Built(files, withFiles)[k].isDir ==> Built(files, withFiles)[k].children == [])
    decreases SizeAll(files), 1
  {
    if |files| > 0 {
      BuiltWellFormed(files[..|files| - 1], withFiles);
      NodesOfWellFormed(files[|files| - 1], withFiles);
    }
  }

  lemma {:induction false} NodesOfWellFormed(e: Entry, withFiles: bool)
    ensures forall k :: 0 <= k < |NodesOf(e, withFiles)| ==>
      WellFormed(NodesOf(e, withFiles)[k]) &&
      (!NodesOf(e, withFiles)[k].isDir ==> NodesOf(e, withFiles)[k].children == [])
    decreases Size(e), 0
  {
    if e.Dir? {
      DirSize(e);
      BuiltWellFormed(Entries(e.listing), withFiles);
    }
  }

  /** Without files, BuildTree makes directory nodes only, at every level. */
  lemma {:induction false} HiddenFilesLeaveDirs(files: seq<Entry>)
    ensures forall k :: 0 <= k < |Built(files, false)| ==> OnlyDirs(Built(files, false)[k])
    decreases SizeAll(files), 1
  {
    if |files| > 0 {
      HiddenFilesLeaveDirs(files[..|files| - 1]);
      NodesOfDirs(files[|files| - 1]);
    }
  }

  lemma {:induction false} NodesOfDirs(e: Entry)
    ensures forall k :: 0 <= k < |NodesOf(e, false)| ==> OnlyDirs(NodesOf(e, false)[k])
    decreases Size(e), 0
  {
    if e.Dir? {
      DirSize(e);
      HiddenFilesLeaveDirs(Entries(e.listing));
    }
  }

  /** The tree NewTree builds prints one line per entry BuildTree kept at any
      depth, in pre-order. */
  lemma TreeLines(path: string, entries: seq<Entry>, withFiles: bool, prefix: seq<string>)
    ensures var root := Node(path, true, Built(entries, withFiles));
            Names(Lines(prefix, root)) == Preorder(root)
  {
    var root := Node(path, true, Built(entries, withFiles));
    BuiltWellFormed(entries, withFiles);
    assert WellFormed(root);
    LinesArePreorder(prefix, root);
  }
}
