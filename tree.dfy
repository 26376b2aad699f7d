/** The directory-tree printer of hw1_tree/pkg/tree: the `node` record
    (node.go), BuildTree, which turns a directory listing into nodes, NewTree
    and Root, and RenderTree, which writes one line per node below a node.

    The file system is an input value: a directory's listing is either
    unreadable or the entries `ioutil.ReadDir` returned, in the order it
    returned them. The writer is the string RenderTree returns. */
module Tree {
  import opened Strings

  const Eof: string := "\n"
  /** Indent added below a child that is not the last one: a vertical bar and two spaces. */
  const DefPrefix: string := "\U{2502}  "
  /** Indent added below the last child: two spaces. */
  const LastPrefix: string := "  "
  /** Connector before every child but the last. */
  const StartLine: string := "\U{251C}\U{2500}\U{2500}\U{2500}"
  /** Connector before the last child. */
  const EndLine: string := "\U{2514}\U{2500}\U{2500}\U{2500}"

  // ---------------------------------------------------------------------------
  // The file system, as BuildTree sees it

  datatype Listing = Unreadable | Listed(entries: seq<Entry>)
  datatype Entry = File(name: string, size: int) | Dir(name: string, listing: Listing)

  /** The entries of a listing; a listing that could not be read gives none
      (BuildTree ignores the error from `ioutil.ReadDir`, which then returns nil). */
  function Entries(l: Listing): seq<Entry>
  {
    if l.Listed? then l.entries else []
  }

  /** Number of entries in an entry, itself included (for termination). */
  function Size(e: Entry): nat
    decreases e
  {
    1 + if e.Dir? then ListingSize(e.listing, |Entries(e.listing)|) else 0
  }

  function ListingSize(l: Listing, k: nat): nat
    requires k <= |Entries(l)|
    decreases l, k
  {
    if k == 0 then 0 else ListingSize(l, k - 1) + Size(l.entries[k - 1])
  }

  function SizeAll(es: seq<Entry>): nat
  {
    if |es| == 0 then 0 else SizeAll(es[..|es| - 1]) + Size(es[|es| - 1])
  }

  lemma {:induction false} ListingSizeIsSum(l: Listing, k: nat)
    requires k <= |Entries(l)|
    ensures ListingSize(l, k) == SizeAll(Entries(l)[..k])
  {
    if k > 0 {
      ListingSizeIsSum(l, k - 1);
      assert Entries(l)[..k][..k - 1] == Entries(l)[..k - 1];
    }
  }

  /** A directory is larger than all its entries together. */
  lemma DirSize(e: Entry)
    requires e.Dir?
    ensures SizeAll(Entries(e.listing)) < Size(e)
  {
    ListingSizeIsSum(e.listing, |Entries(e.listing)|);
    assert Entries(e.listing)[..|Entries(e.listing)|] == Entries(e.listing);
  }

  /** A list of entries is at least as large as any one of them. */
  lemma {:induction false} EntryWithin(es: seq<Entry>, i: nat)
    requires i < |es|
    ensures Size(es[i]) <= SizeAll(es)
  {
    if i < |es| - 1 {
      EntryWithin(es[..|es| - 1], i);
    }
  }

  // ---------------------------------------------------------------------------
  // node.go

  /** A node of the printed tree. */
  datatype Node = Node(name: string, isDir: bool, children: seq<Node>)

  /** `newNode`: stores name, kind and children exactly as given. */
  function NewNode(name: string, isDir: bool, children: seq<Node>): (n: Node)
    ensures n.name == name && n.isDir == isDir
    ensures |n.children| == |children| && forall k :: 0 <= k < |children| ==> n.children[k] == children[k]
  {
    Node(name, isDir, children)
  }

  // ---------------------------------------------------------------------------
  // BuildTree

  /** The suffix a file's size gives its name. */
  function SizeLabel(size: int): string
  {
    if size == 0 then " (empty)" else " (" + Itoa(size) + "b)"
  }

  /** The nodes BuildTree makes for `files`, in order. */
  function Built(files: seq<Entry>, withFiles: bool): seq<Node>
    decreases SizeAll(files), 1
  {
    if |files| == 0 then [] else Built(files[..|files| - 1], withFiles) + NodesOf(files[|files| - 1], withFiles)
  }

  /** The nodes BuildTree makes for one entry: a directory always, with its own
      entries below it; a file only when files are shown, labelled with its size. */
  function NodesOf(e: Entry, withFiles: bool): seq<Node>
    decreases Size(e), 0
  {
    match e
    case Dir(name, listing) => DirSize(e); [Node(name, true, Built(Entries(listing), withFiles))]
    case File(name, size) => if withFiles then [Node(name + SizeLabel(size), false, [])] else []
  }

  /** BuildTree: one node per directory entry, and per file entry when
      `withFiles` is set, in the order of the listing. */
  method BuildTree(files: seq<Entry>, withFiles: bool) returns (nodes: seq<Node>)
    ensures nodes == Built(files, withFiles)
    decreases SizeAll(files)
  {
    nodes := [];
    for i := 0 to |files|
      invariant nodes == Built(files[..i], withFiles)
    {
      assert files[..i + 1][..i] == files[..i];
      var v := files[i];
      if v.Dir? {
        var childFiles := Entries(v.listing);
        EntryWithin(files, i);
        DirSize(v);
        var children := BuildTree(childFiles, withFiles);
        var node := NewNode(v.name, true, children);
        nodes := nodes + [node];
      } else if withFiles {
        var strSize := "";
        if v.size == 0 {
          strSize := " (empty)";
        } else {
          strSize := " (" + Itoa(v.size) + "b)";
        }
        var node := NewNode(v.name + strSize, false, []);
        nodes := nodes + [node];
      }
    }
    assert files[..|files|] == files;
  }

  // ---------------------------------------------------------------------------
  // tree, NewTree, Root

  datatype Tree = Tree(root: Node)
  {
    /** `Root`: the node the tree was made with. */
    function Root(): (r: Node)
      ensures r == root
    {
      root
    }
  }

  /** NewTree: no tree when the root directory cannot be read; otherwise a
      directory node named `path` whose children are BuildTree's nodes for its entries. */
  method NewTree(path: string, root: Listing, withFiles: bool) returns (t: Option<Tree>)
    ensures root.Unreadable? <==> t.None?
    ensures t.Some? ==> t.value.Root().name == path && t.value.Root().isDir
    ensures t.Some? ==> t.value.Root().children == Built(Entries(root), withFiles)
  {
    if root.Unreadable? {
      return None;
    }
    var nodes := BuildTree(root.entries, withFiles);
    var rootNode := NewNode(path, true, nodes);
    t := Some(Tree(rootNode));
  }

  // ---------------------------------------------------------------------------
  // RenderTree

  /** One printed line: the joined indent, a connector, the name and a newline. */
  datatype Line = Line(indent: seq<string>, last: bool, name: string)

  function Connector(last: bool): string
  {
    if last then EndLine else StartLine
  }

  function Indent(last: bool): string
  {
    if last then LastPrefix else DefPrefix
  }

  function Text(l: Line): string
  {
    Join(l.indent, "") + Connector(l.last) + l.name + Eof
  }

  /** The lines written below `nd` with indent `prefix`. */
  function Lines(prefix: seq<string>, nd: Node): seq<Line>
    decreases nd, |nd.children| + 1
  {
    ChildLines(prefix, nd, |nd.children|)
  }

  /** The lines written for the first k children of `nd` and what lies below them. */
  function ChildLines(prefix: seq<string>, nd: Node, k: nat): seq<Line>
    requires k <= |nd.children|
    decreases nd, k
  {
    if k == 0 then []
    else
      var v := nd.children[k - 1];
      var last := k == |nd.children|;
      ChildLines(prefix, nd, k - 1) + [Line(prefix, last, v.name)]
        + (if v.isDir then Lines(prefix + [Indent(last)], v) else [])
  }

  /** The text of a list of lines. */
  function Render(lines: seq<Line>): string
  {
    if |lines| == 0 then "" else Render(lines[..|lines| - 1]) + Text(lines[|lines| - 1])
  }

  lemma {:induction false} RenderAppend(a: seq<Line>, b: seq<Line>)
    ensures Render(a + b) == Render(a) + Render(b)
  {
    if |b| > 0 {
      assert (a + b)[..|a + b| - 1] == a + b[..|b| - 1];
      RenderAppend(a, b[..|b| - 1]);
    } else {
      assert a + b == a;
    }
  }

  /** RenderTree: for each child of `nd`, the joined prefix, a connector (the end
      connector for the last child), the name and a newline; below a directory
      child, its own lines with the prefix extended by one indent. */
  method RenderTree(prefix: seq<string>, nd: Node) returns (written: string)
    requires |prefix| > 0
    ensures written == Render(Lines(prefix, nd))
    decreases nd
  {
    written := "";
    var prefix := prefix;
    var lvlPrefix: string;
    for i := 0 to |nd.children|
      invariant written == Render(ChildLines(prefix, nd, i))
    {
      var v := nd.children[i];
      var line := "";
      if i == |nd.children| - 1 {
        lvlPrefix := LastPrefix;
        line := Join(prefix, "") + EndLine;
      } else {
        lvlPrefix := DefPrefix;
        line := Join(prefix, "") + StartLine;
      }
      line := line + v.name + Eof;
      var done := ChildLines(prefix, nd, i);
      var mine := Line(prefix, i + 1 == |nd.children|, v.name);
      RenderAppend(done, [mine]);
      assert Render([mine]) == line;
      written := written + line;
      if v.isDir {
        var below := RenderTree(prefix + [lvlPrefix], v);
        RenderAppend(done + [mine], Lines(prefix + [lvlPrefix], v));
        written := written + below;
      } else {
        assert done + [mine] + [] == done + [mine];
      }
    }
    // `prefix[:len(prefix)-1]`: only possible on a non-empty prefix
    prefix := prefix[..|prefix| - 1];
  }
}
