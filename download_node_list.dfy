/**
 * `DownloadNodeList`: the download queue as a single-page GraphQL connection.
 * The whole list is the one page; only its first and last nodes get an edge.
 */
module DownloadNodeList {
  import opened Kotlin
  import opened Decimal
  import opened DownloadTypes

  /** A position token: the decimal rendering of an index into the list. */
  datatype Cursor = Cursor(value: string)

  datatype PageInfo = PageInfo(
    hasNextPage: bool,
    hasPreviousPage: bool,
    startCursor: Cursor,
    endCursor: Cursor)

  datatype DownloadEdge = DownloadEdge(cursor: Cursor, node: DownloadType)

  datatype NodeList = NodeList(
    nodes: seq<DownloadType>,
    edges: seq<DownloadEdge>,
    pageInfo: PageInfo,
    totalCount: int)

  /** Kotlin's `lastIndex`: one less than the size, so -1 for an empty list. */
  function LastIndex(xs: seq<DownloadType>): int {
    |xs| - 1
  }

  /** `getEdges()`: none for an empty list, else the first node at cursor "0" and the last at its index. */
  function GetEdges(xs: seq<DownloadType>): (edges: seq<DownloadEdge>)
    ensures edges == [] <==> xs == []
    ensures xs != [] ==> |edges| == 2
    ensures xs != [] ==> edges[0].cursor == Cursor("0") && edges[0].node == xs[0]
    ensures xs != [] ==> edges[1].cursor == Cursor(IntToString(|xs| - 1)) && edges[1].node == xs[|xs| - 1]
  {
    if |xs| == 0 then []
    else [DownloadEdge(Cursor("0"), xs[0]), DownloadEdge(Cursor(IntToString(LastIndex(xs))), xs[|xs| - 1])]
  }

  /** `toNodeList()`: the list itself, its two boundary edges, a page with no neighbours, and its size. */
  function ToNodeList(xs: seq<DownloadType>): (r: NodeList)
    ensures r.nodes == xs
    ensures r.totalCount == |xs|
    ensures r.edges == GetEdges(xs)
    ensures !r.pageInfo.hasNextPage && !r.pageInfo.hasPreviousPage
    ensures r.pageInfo.startCursor == Cursor("0")
    ensures r.pageInfo.endCursor == Cursor(IntToString(|xs| - 1))
  {
    NodeList(
      nodes := xs,
      edges := GetEdges(xs),
      pageInfo := PageInfo(
        hasNextPage := false,
        hasPreviousPage := false,
        startCursor := Cursor(IntToString(0)),
        endCursor := Cursor(IntToString(LastIndex(xs)))),
      totalCount := |xs|)
  }

  /** Every edge's cursor decodes to a position in the list that holds the edge's node. */
  lemma EdgeCursorsLocateNodes(xs: seq<DownloadType>)
    ensures forall e :: e in GetEdges(xs) ==>
      ParseInt(e.cursor.value).Some? &&
      0 <= ParseInt(e.cursor.value).value < |xs| &&
      xs[ParseInt(e.cursor.value).value] == e.node
  {
    if xs != [] {
      IntToStringRoundTrip(0);
      IntToStringRoundTrip(|xs| - 1);
      assert "0" == IntToString(0);
    }
  }

  /** The page's cursors decode to its first index, 0, and its last index, which is -1 for an empty list. */
  lemma PageCursorsDecode(xs: seq<DownloadType>)
    ensures ParseInt(ToNodeList(xs).pageInfo.startCursor.value) == Some(0)
    ensures ParseInt(ToNodeList(xs).pageInfo.endCursor.value) == Some(|xs| - 1)
  {
    IntToStringRoundTrip(0);
    IntToStringRoundTrip(|xs| - 1);
    assert "0" == IntToString(0);
  }

  /** For a non-empty list the first edge carries the start cursor and the last edge the end cursor. */
  lemma BoundaryEdgesCarryPageCursors(xs: seq<DownloadType>)
    requires xs != []
    ensures var r := ToNodeList(xs);
      r.edges[0].cursor == r.pageInfo.startCursor && r.edges[|r.edges| - 1].cursor == r.pageInfo.endCursor
  {
  }

  /** With two or more nodes the two edges are told apart by their cursors. */
  lemma EdgeCursorsDistinct(xs: seq<DownloadType>)
    requires |xs| >= 2
    ensures GetEdges(xs)[0].cursor != GetEdges(xs)[1].cursor
  {
  }

  /** A single node gets two identical edges, both at cursor "0", and the page starts and ends there. */
  lemma SingletonNodeList(x: DownloadType)
    ensures ToNodeList([x]).edges == [DownloadEdge(Cursor("0"), x), DownloadEdge(Cursor("0"), x)]
    ensures ToNodeList([x]).pageInfo.endCursor == Cursor("0")
  {
  }

  /** The empty queue: no nodes and no edges, and the end cursor is the rendering of -1. */
  lemma EmptyNodeList()
    ensures ToNodeList([]) == NodeList([], [], PageInfo(false, false, Cursor("0"), Cursor("-1")), 0)
  {
  }

  /** Three downloads A, B, C: edges ("0", A) and ("2", C), and a page from "0" to "2". */
  lemma ThreeNodeList(a: DownloadType, b: DownloadType, c: DownloadType)
    ensures ToNodeList([a, b, c]) ==
      NodeList([a, b, c], [DownloadEdge(Cursor("0"), a), DownloadEdge(Cursor("2"), c)],
               PageInfo(false, false, Cursor("0"), Cursor("2")), 3)
  {
  }
}
