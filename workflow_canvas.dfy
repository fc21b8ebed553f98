/**
 * components/n8n/WorkflowCanvas.tsx: the canvas that lays out a workflow's nodes and draws
 * one arrow per resolved connection. Positions are whole pixels; each node is taken to be
 * 200 wide and 100 high, and the canvas keeps a 50 pixel margin around the nodes.
 */
module WorkflowCanvas {
  import opened Common

  const NodeWidth := 200
  const NodeHeight := 100
  const Margin := 50
  const MaxViewHeight := 600

  /** The node fields the viewer reads; `model` and `path` come from `parameters`. */
  datatype Node = Node(id: string, name: string, nodeType: string, x: int, y: int,
                       model: Option<string>, path: Option<string>)

  /**
   * The result of `calculateBounds`. With no nodes the minima stay at +Infinity and the
   * maxima at -Infinity, so every field is infinite: that case is `NoNodes`.
   */
  datatype Bounds = NoNodes | Box(width: int, height: int, offsetX: int, offsetY: int)

  function Left(n: Node): int { n.x }
  function Right(n: Node): int { n.x + NodeWidth }
  function Top(n: Node): int { n.y }
  function Bottom(n: Node): int { n.y + NodeHeight }

  function Min(a: int, b: int): int { if a <= b then a else b }
  function Max(a: int, b: int): int { if a >= b then a else b }

  /** The least value of `f` over the nodes, folded from the front as `forEach` does. */
  function Least(ns: seq<Node>, f: Node -> int): int
    requires |ns| > 0
  {
    if |ns| == 1 then f(ns[0]) else Min(Least(ns[..|ns| - 1], f), f(ns[|ns| - 1]))
  }

  /** The greatest value of `f` over the nodes. */
  function Greatest(ns: seq<Node>, f: Node -> int): int
    requires |ns| > 0
  {
    if |ns| == 1 then f(ns[0]) else Max(Greatest(ns[..|ns| - 1], f), f(ns[|ns| - 1]))
  }

  lemma {:induction false} LeastIsLower(ns: seq<Node>, f: Node -> int, k: nat)
    requires k < |ns|
    ensures Least(ns, f) <= f(ns[k])
  {
    if |ns| > 1 && k < |ns| - 1 {
      LeastIsLower(ns[..|ns| - 1], f, k);
    }
  }

  lemma {:induction false} GreatestIsUpper(ns: seq<Node>, f: Node -> int, k: nat)
    requires k < |ns|
    ensures f(ns[k]) <= Greatest(ns, f)
  {
    if |ns| > 1 && k < |ns| - 1 {
      GreatestIsUpper(ns[..|ns| - 1], f, k);
    }
  }

  lemma {:induction false} LeastIsAttained(ns: seq<Node>, f: Node -> int) returns (k: nat)
    requires |ns| > 0
    ensures k < |ns| && f(ns[k]) == Least(ns, f)
  {
    if |ns| == 1 {
      k := 0;
    } else {
      k := LeastIsAttained(ns[..|ns| - 1], f);
      if f(ns[|ns| - 1]) < Least(ns[..|ns| - 1], f) {
        k := |ns| - 1;
      }
    }
  }

  lemma {:induction false} GreatestIsAttained(ns: seq<Node>, f: Node -> int) returns (k: nat)
    requires |ns| > 0
    ensures k < |ns| && f(ns[k]) == Greatest(ns, f)
  {
    if |ns| == 1 {
      k := 0;
    } else {
      k := GreatestIsAttained(ns[..|ns| - 1], f);
      if f(ns[|ns| - 1]) > Greatest(ns[..|ns| - 1], f) {
        k := |ns| - 1;
      }
    }
  }

  /** The bounds `calculateBounds` computes, stated over the whole node list. */
  function BoundsOf(ns: seq<Node>): (b: Bounds)
    ensures b.NoNodes? <==> ns == []
  {
    if ns == [] then NoNodes
    else
      var minX := Least(ns, Left);
      var minY := Least(ns, Top);
      Box(Greatest(ns, Right) - minX + 2 * Margin, Greatest(ns, Bottom) - minY + 2 * Margin,
          minX - Margin, minY - Margin)
  }

  /**
   * `calculateBounds`: one pass over the nodes tracking the least left and top edges and
   * the greatest right and bottom edges. The first node replaces the infinite start values.
   */
  method CalculateBounds(nodes: seq<Node>) returns (b: Bounds)
    ensures b == BoundsOf(nodes)
  {
    var minX, minY, maxX, maxY := 0, 0, 0, 0;
    var i := 0;
    while i < |nodes|
      invariant 0 <= i <= |nodes|
      invariant i > 0 ==> minX == Least(nodes[..i], Left) && minY == Least(nodes[..i], Top)
      invariant i > 0 ==> maxX == Greatest(nodes[..i], Right) && maxY == Greatest(nodes[..i], Bottom)
    {
      var n := nodes[i];
      assert nodes[..i + 1][..i] == nodes[..i];
      if i == 0 {
        minX, minY, maxX, maxY := n.x, n.y, n.x + NodeWidth, n.y + NodeHeight;
      } else {
        minX := Min(minX, n.x);
        minY := Min(minY, n.y);
        maxX := Max(maxX, n.x + NodeWidth);
        maxY := Max(maxY, n.y + NodeHeight);
      }
      i := i + 1;
    }
    if i == 0 {
      b := NoNodes;
    } else {
      assert nodes[..i] == nodes;
      b := Box(maxX - minX + 2 * Margin, maxY - minY + 2 * Margin, minX - Margin, minY - Margin);
    }
  }

  /** Where a node is drawn on the canvas: its position shifted by the bounds' offsets. */
  function AdjustedX(n: Node, b: Bounds): int
    requires b.Box?
  {
    n.x - b.offsetX
  }

  function AdjustedY(n: Node, b: Bounds): int
    requires b.Box?
  {
    n.y - b.offsetY
  }

  /** Every node, drawn at its adjusted position, lies inside the canvas with the margin to spare. */
  lemma NodesInsideCanvas(ns: seq<Node>, k: nat)
    requires k < |ns|
    ensures BoundsOf(ns).Box?
    ensures var b := BoundsOf(ns);
      && Margin <= AdjustedX(ns[k], b) && AdjustedX(ns[k], b) + NodeWidth <= b.width - Margin
      && Margin <= AdjustedY(ns[k], b) && AdjustedY(ns[k], b) + NodeHeight <= b.height - Margin
  {
    LeastIsLower(ns, Left, k);
    LeastIsLower(ns, Top, k);
    GreatestIsUpper(ns, Right, k);
    GreatestIsUpper(ns, Bottom, k);
  }

  /** The canvas is no larger than needed: some node touches each margin. */
  lemma CanvasIsTight(ns: seq<Node>)
    requires ns != []
    ensures var b := BoundsOf(ns);
      && (exists k :: 0 <= k < |ns| && AdjustedX(ns[k], b) == Margin)
      && (exists k :: 0 <= k < |ns| && AdjustedY(ns[k], b) == Margin)
      && (exists k :: 0 <= k < |ns| && AdjustedX(ns[k], b) + NodeWidth == b.width - Margin)
      && (exists k :: 0 <= k < |ns| && AdjustedY(ns[k], b) + NodeHeight == b.height - Margin)
  {
    var b := BoundsOf(ns);
    var l := LeastIsAttained(ns, Left);
    var t := LeastIsAttained(ns, Top);
    var r := GreatestIsAttained(ns, Right);
    var d := GreatestIsAttained(ns, Bottom);
    assert AdjustedX(ns[l], b) == Margin;
    assert AdjustedY(ns[t], b) == Margin;
    assert AdjustedX(ns[r], b) + NodeWidth == b.width - Margin;
    assert AdjustedY(ns[d], b) + NodeHeight == b.height - Margin;
  }

  /**
   * The height of the scrolling view, `Math.min(bounds.height, 600)`; with no nodes it is
   * -Infinity, which is `None` here.
   */
  function DisplayedHeight(b: Bounds): (h: Option<int>)
    ensures h.None? <==> b.NoNodes?
    ensures h.Some? ==> h.value <= MaxViewHeight && h.value <= b.height
    ensures h.Some? ==> (h.value == b.height || h.value == MaxViewHeight)
  {
    if b.NoNodes? then None else Some(Min(b.height, MaxViewHeight))
  }

  /** One entry of a connection list; only its `node` member is read. */
  datatype Target = Target(node: string)

  /** A value the renderer tests with `Array.isArray`. */
  datatype Level<T> = Arr(items: seq<T>) | NotArr

  /**
   * One entry of `workflow.connections`: the key naming the source node and the values of
   * its outputs object. Entries and values come in `Object.entries` / `Object.values`
   * order: keys that look like array indices first, in ascending numeric order, then the
   * other keys in insertion order.
   */
  datatype Entry = Entry(source: string, outputs: seq<Level<Level<Target>>>)

  datatype Workflow = Workflow(nodes: seq<Node>, connections: Option<seq<Entry>>)

  /** One drawn arrow, keyed `${source.id}-${target.id}`. */
  datatype Edge = Edge(source: Node, target: Node)

  predicate Names(n: Node, key: string) {
    n.id == key || n.name == key
  }

  /** `nodes.find`: a node whose id or name is the key, if there is one. */
  function FindNode(nodes: seq<Node>, key: string): (r: Option<Node>)
    ensures r.None? <==> forall i :: 0 <= i < |nodes| ==> !Names(nodes[i], key)
    ensures r.Some? ==> r.value in nodes && Names(r.value, key)
  {
    if nodes == [] then None
    else if Names(nodes[0], key) then Some(nodes[0])
    else
      assert forall i :: 1 <= i < |nodes| ==> nodes[i] == nodes[1..][i - 1];
      FindNode(nodes[1..], key)
  }

  /** The node found is the first one named by the key. */
  lemma {:induction false} FindNodeIsFirst(nodes: seq<Node>, key: string, i: nat)
    requires i < |nodes| && Names(nodes[i], key)
    requires forall j :: 0 <= j < i ==> !Names(nodes[j], key)
    ensures FindNode(nodes, key) == Some(nodes[i])
  {
    if i > 0 {
      FindNodeIsFirst(nodes[1..], key, i - 1);
    }
  }

  /** The arrows for one connection list: one per target that names a node. */
  function TargetsEdges(nodes: seq<Node>, s: Node, ts: seq<Target>): (r: seq<Edge>)
    ensures |r| <= |ts|
    ensures forall e :: e in r ==> e.source == s && e.target in nodes
    ensures (forall i :: 0 <= i < |ts| ==> FindNode(nodes, ts[i].node).Some?) ==> |r| == |ts|
  {
    if ts == [] then []
    else
      var rest := TargetsEdges(nodes, s, ts[..|ts| - 1]);
      rest + match FindNode(nodes, ts[|ts| - 1].node)
             case Some(t) => [Edge(s, t)]
             case None => []
  }

  function GroupsEdges(nodes: seq<Node>, s: Node, gs: seq<Level<Target>>): (r: seq<Edge>)
    ensures forall e :: e in r ==> e.source == s && e.target in nodes
  {
    if gs == [] then []
    else
      GroupsEdges(nodes, s, gs[..|gs| - 1]) + match gs[|gs| - 1]
                                              case Arr(ts) => TargetsEdges(nodes, s, ts)
                                              case NotArr => []
  }

  function OutputsEdges(nodes: seq<Node>, s: Node, os: seq<Level<Level<Target>>>): (r: seq<Edge>)
    ensures forall e :: e in r ==> e.source == s && e.target in nodes
  {
    if os == [] then []
    else
      OutputsEdges(nodes, s, os[..|os| - 1]) + match os[|os| - 1]
                                               case Arr(gs) => GroupsEdges(nodes, s, gs)
                                               case NotArr => []
  }

  function EntryEdges(nodes: seq<Node>, e: Entry): (r: seq<Edge>)
    ensures forall d :: d in r ==> d.source in nodes && Names(d.source, e.source) && d.target in nodes
  {
    match FindNode(nodes, e.source)
    case Some(s) => OutputsEdges(nodes, s, e.outputs)
    case None => []
  }

  function EntriesEdges(nodes: seq<Node>, es: seq<Entry>): (r: seq<Edge>)
    ensures forall d :: d in r ==> d.source in nodes && d.target in nodes
  {
    if es == [] then [] else EntriesEdges(nodes, es[..|es| - 1]) + EntryEdges(nodes, es[|es| - 1])
  }

  /** The arrows of a workflow; a workflow without `connections` draws none. */
  function WorkflowEdges(w: Workflow): (r: seq<Edge>)
    ensures w.connections.None? ==> r == []
    ensures forall d :: d in r ==> d.source in w.nodes && d.target in w.nodes
  {
    if w.connections.Some? then EntriesEdges(w.nodes, w.connections.value) else []
  }

  /** Arrows come out in the order of the connection entries: entries contribute independently. */
  lemma {:induction false} EntriesEdgesAppend(nodes: seq<Node>, xs: seq<Entry>, ys: seq<Entry>)
    ensures EntriesEdges(nodes, xs + ys) == EntriesEdges(nodes, xs) + EntriesEdges(nodes, ys)
    decreases |ys|
  {
    if ys == [] {
      assert xs + ys == xs;
    } else {
      var ys' := ys[..|ys| - 1];
      var zs := xs + ys;
      assert zs[|zs| - 1] == ys[|ys| - 1];
      assert zs[..|zs| - 1] == xs + ys';
      EntriesEdgesAppend(nodes, xs, ys');
      var last := EntryEdges(nodes, ys[|ys| - 1]);
      assert EntriesEdges(nodes, zs) == EntriesEdges(nodes, xs + ys') + last;
      assert EntriesEdges(nodes, ys) == EntriesEdges(nodes, ys') + last;
      Associative(EntriesEdges(nodes, xs), EntriesEdges(nodes, ys'), last);
    }
  }

  /** Re-brackets the edge lists in the inductive step of `EntriesEdgesAppend`. */
  lemma Associative(a: seq<Edge>, b: seq<Edge>, c: seq<Edge>)
    ensures (a + b) + c == a + (b + c)
  {
  }

  /** An entry whose key names no node draws nothing, wherever it sits in the list. */
  lemma UnknownSourceDrawsNothing(nodes: seq<Node>, xs: seq<Entry>, e: Entry, ys: seq<Entry>)
    requires FindNode(nodes, e.source).None?
    ensures EntriesEdges(nodes, xs + [e] + ys) == EntriesEdges(nodes, xs + ys)
  {
    var xe := xs + [e];
    assert xe[..|xe| - 1] == xs && xe[|xe| - 1] == e;
    assert EntryEdges(nodes, e) == [];
    assert EntriesEdges(nodes, xe) == EntriesEdges(nodes, xs) + [];
    assert xe + ys == xs + [e] + ys;
    EntriesEdgesAppend(nodes, xe, ys);
    EntriesEdgesAppend(nodes, xs, ys);
  }

  /** The innermost `forEach`: one arrow per connection whose node is found. */
  method DrawTargets(nodes: seq<Node>, s: Node, ts: seq<Target>) returns (edges: seq<Edge>)
    ensures edges == TargetsEdges(nodes, s, ts)
  {
    edges := [];
    var i := 0;
    while i < |ts|
      invariant 0 <= i <= |ts|
      invariant edges == TargetsEdges(nodes, s, ts[..i])
    {
      var target := FindNode(nodes, ts[i].node);
      ghost var next := TargetsEdges(nodes, s, ts[..i + 1]);
      assert next == edges + if target.Some? then [Edge(s, target.value)] else [] by {
        assert ts[..i + 1][..i] == ts[..i];
        assert ts[..i + 1][i] == ts[i];
      }
      if target.Some? {
        edges := edges + [Edge(s, target.value)];
      }
      i := i + 1;
    }
    assert ts[..i] == ts;
  }

  /** The middle `forEach`: connection lists that are not arrays are skipped. */
  method DrawGroups(nodes: seq<Node>, s: Node, gs: seq<Level<Target>>) returns (edges: seq<Edge>)
    ensures edges == GroupsEdges(nodes, s, gs)
  {
    edges := [];
    var i := 0;
    while i < |gs|
      invariant 0 <= i <= |gs|
      invariant edges == GroupsEdges(nodes, s, gs[..i])
    {
      assert GroupsEdges(nodes, s, gs[..i + 1]) ==
             edges + if gs[i].Arr? then TargetsEdges(nodes, s, gs[i].items) else [] by {
        assert gs[..i + 1][..i] == gs[..i];
        assert gs[..i + 1][i] == gs[i];
      }
      if gs[i].Arr? {
        var more := DrawTargets(nodes, s, gs[i].items);
        edges := edges + more;
      }
      i := i + 1;
    }
    assert gs[..i] == gs;
  }

  /** The outer `forEach` over an outputs object's values: non-arrays are skipped. */
  method DrawOutputs(nodes: seq<Node>, s: Node, os: seq<Level<Level<Target>>>) returns (edges: seq<Edge>)
    ensures edges == OutputsEdges(nodes, s, os)
  {
    edges := [];
    var i := 0;
    while i < |os|
      invariant 0 <= i <= |os|
      invariant edges == OutputsEdges(nodes, s, os[..i])
    {
      assert OutputsEdges(nodes, s, os[..i + 1]) ==
             edges + if os[i].Arr? then GroupsEdges(nodes, s, os[i].items) else [] by {
        assert os[..i + 1][..i] == os[..i];
        assert os[..i + 1][i] == os[i];
      }
      if os[i].Arr? {
        var more := DrawGroups(nodes, s, os[i].items);
        edges := edges + more;
      }
      i := i + 1;
    }
    assert os[..i] == os;
  }

  /**
   * `renderConnections`: for every entry of `connections || {}` whose key names a node,
   * the arrows from that node to every connection target that names a node.
   */
  method RenderConnections(w: Workflow) returns (edges: seq<Edge>)
    ensures edges == WorkflowEdges(w)
    ensures forall d :: d in edges ==> d.source in w.nodes && d.target in w.nodes
  {
    edges := [];
    var es := if w.connections.Some? then w.connections.value else [];
    var i := 0;
    while i < |es|
      invariant 0 <= i <= |es|
      invariant edges == EntriesEdges(w.nodes, es[..i])
    {
      var source := FindNode(w.nodes, es[i].source);
      assert EntriesEdges(w.nodes, es[..i + 1]) ==
             edges + if source.Some? then OutputsEdges(w.nodes, source.value, es[i].outputs) else [] by {
        assert es[..i + 1][..i] == es[..i];
        assert es[..i + 1][i] == es[i];
      }
      if source.Some? {
        var more := DrawOutputs(w.nodes, source.value, es[i].outputs);
        edges := edges + more;
      }
      i := i + 1;
    }
    assert es[..i] == es;
  }

  /** The end points of an arrow: 20 pixels inside the source's right edge and the target's left edge, 40 below their tops. */
  datatype PathEnds = PathEnds(sourceX: int, sourceY: int, targetX: int, targetY: int)

  function CreatePath(source: Node, target: Node, b: Bounds): (p: PathEnds)
    requires b.Box?
    ensures p.sourceX == AdjustedX(source, b) + NodeWidth - 20 && p.sourceY == AdjustedY(source, b) + 40
    ensures p.targetX == AdjustedX(target, b) + 20 && p.targetY == AdjustedY(target, b) + 40
  {
    PathEnds(source.x - b.offsetX + 180, source.y - b.offsetY + 40,
             target.x - b.offsetX + 20, target.y - b.offsetY + 40)
  }

  /** Both ends of every drawn arrow lie inside the canvas, clear of its margin. */
  lemma ArrowEndsInsideCanvas(w: Workflow, d: Edge)
    requires d in WorkflowEdges(w)
    ensures var b := BoundsOf(w.nodes);
      && b.Box?
      && var p := CreatePath(d.source, d.target, b);
      && Margin <= p.sourceX <= b.width - Margin && Margin <= p.sourceY <= b.height - Margin
      && Margin <= p.targetX <= b.width - Margin && Margin <= p.targetY <= b.height - Margin
  {
    var i :| 0 <= i < |w.nodes| && w.nodes[i] == d.source;
    var j :| 0 <= j < |w.nodes| && w.nodes[j] == d.target;
    NodesInsideCanvas(w.nodes, i);
    NodesInsideCanvas(w.nodes, j);
  }
}
