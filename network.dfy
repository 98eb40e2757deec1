/** The small network graph drawn beside the particle field: 24 nodes,
    random links between them, and a per-frame drift of every node with
    damping and a bounce off the edges of the 400 x 300 drawing.

    The circular placement of the nodes (trigonometry) is an input: the
    model starts from the placed nodes. The `Math.random` draws are input
    sequences. */
module NetworkGraph {
  import opened Common

  const NodeCount: nat := 24
  const Damping: real := 0.95
  /** Nodes may wander in [20, 380] x [20, 280] before their velocity is negated. */
  const MinX: real := 20.0
  const MaxX: real := 380.0
  const MinY: real := 20.0
  const MaxY: real := 280.0

  datatype Node = Node(x: real, y: real, vx: real, vy: real)

  /** A link from node `source` to node `target`. */
  datatype GraphLink = GraphLink(source: nat, target: nat)

  predicate IsDraw(r: real) {
    0.0 <= r < 1.0
  }

  predicate AllDraws(draws: seq<real>) {
    forall k :: 0 <= k < |draws| ==> IsDraw(draws[k])
  }

  /** `Math.floor(Math.random() * 3) + 1`: how many links a node attempts,
      written as the three thirds of [0, 1) (see AttemptsIsFloor). */
  function Attempts(r: real): (a: int)
    requires IsDraw(r)
    ensures 1 <= a <= 3
  {
    if r < 1.0 / 3.0 then 1 else if r < 2.0 / 3.0 then 2 else 3
  }

  /** The thirds are exactly `Math.floor(r * 3) + 1`. */
  lemma AttemptsIsFloor(r: real)
    requires IsDraw(r)
    ensures Attempts(r) == (r * 3.0).Floor + 1
  {
    if r < 1.0 / 3.0 {
      assert 0.0 <= r * 3.0 < 1.0;
    } else if r < 2.0 / 3.0 {
      assert 1.0 <= r * 3.0 < 2.0;
    } else {
      assert 2.0 <= r * 3.0 < 3.0;
    }
  }

  /** `Math.floor(Math.random() * nodeCount)`: a uniformly drawn node. */
  function Target(r: real): (t: int)
    requires IsDraw(r)
    ensures 0 <= t < NodeCount
  {
    (r * 24.0).Floor
  }

  /** The links node i gets from its first k attempts, which read the
      draws start .. start+k-1: an attempt that draws i itself adds nothing. */
  function AttemptLinks(draws: seq<real>, start: nat, i: nat, k: nat): (ls: seq<GraphLink>)
    requires start + k <= |draws| && AllDraws(draws)
    ensures |ls| <= k
    decreases k
  {
    if k == 0 then []
    else
      var t := Target(draws[start + k - 1]);
      AttemptLinks(draws, start, i, k - 1) + (if t != i then [GraphLink(i, t)] else [])
  }

  /** Links made so far and how many draws they used. */
  datatype Scan = Scan(links: seq<GraphLink>, used: nat)

  /** Node i's turn after the scan `prev`: one draw for its number of
      attempts, then one per attempt. */
  function NodeLinks(draws: seq<real>, prev: Scan, i: nat): (r: Scan)
    requires AllDraws(draws) && prev.used + 4 <= |draws|
    ensures prev.used + 2 <= r.used <= prev.used + 4
    ensures |prev.links| <= |r.links| <= |prev.links| + 3
  {
    var a := Attempts(draws[prev.used]);
    Scan(prev.links + AttemptLinks(draws, prev.used + 1, i, a), prev.used + 1 + a)
  }

  /** The links of nodes 0 .. i-1 and how many draws they used. */
  function LinkScan(draws: seq<real>, i: nat): (r: Scan)
    requires AllDraws(draws) && 4 * i <= |draws|
    ensures 2 * i <= r.used <= 4 * i
    ensures |r.links| <= 3 * i
    decreases i
  {
    if i == 0 then Scan([], 0) else NodeLinks(draws, LinkScan(draws, i - 1), i - 1)
  }

  /** A link between two nodes that is not a self-loop and whose source
      is below `bound`. */
  predicate ProperLink(l: GraphLink, bound: nat) {
    l.source < bound && l.target < NodeCount && l.source != l.target
  }

  lemma {:induction false} AttemptLinksProper(draws: seq<real>, start: nat, i: nat, k: nat)
    requires start + k <= |draws| && AllDraws(draws) && i < NodeCount
    ensures var ls := AttemptLinks(draws, start, i, k);
      |ls| <= k && forall a :: 0 <= a < |ls| ==> ProperLink(ls[a], i + 1) && ls[a].source == i
    decreases k
  {
    if k > 0 {
      AttemptLinksProper(draws, start, i, k - 1);
    }
  }

  /** Joining two runs of proper links gives a run of proper links. */
  lemma ProperAppend(xs: seq<GraphLink>, ys: seq<GraphLink>, bound: nat)
    requires forall a :: 0 <= a < |xs| ==> ProperLink(xs[a], bound)
    requires forall a :: 0 <= a < |ys| ==> ProperLink(ys[a], bound)
    ensures forall a :: 0 <= a < |xs + ys| ==> ProperLink((xs + ys)[a], bound)
  {
    forall a | 0 <= a < |xs + ys|
      ensures ProperLink((xs + ys)[a], bound)
    {
      if a >= |xs| {
        assert (xs + ys)[a] == ys[a - |xs|];
      }
    }
  }

  /** Node i's turn keeps every link proper and adds only links from i. */
  lemma NodeLinksProper(draws: seq<real>, prev: Scan, i: nat)
    requires AllDraws(draws) && prev.used + 4 <= |draws| && i < NodeCount
    requires forall b :: 0 <= b < |prev.links| ==> ProperLink(prev.links[b], i)
    ensures forall b :: 0 <= b < |NodeLinks(draws, prev, i).links| ==> ProperLink(NodeLinks(draws, prev, i).links[b], i + 1)
  {
    var a := Attempts(draws[prev.used]);
    var row := AttemptLinks(draws, prev.used + 1, i, a);
    AttemptLinksProper(draws, prev.used + 1, i, a);
    assert NodeLinks(draws, prev, i).links == prev.links + row;
    assert forall b :: 0 <= b < |prev.links| ==> ProperLink(prev.links[b], i + 1);
    ProperAppend(prev.links, row, i + 1);
  }

  /** No link is a self-loop, every endpoint is a node, and every source
      is one of the nodes 0 .. i-1. */
  lemma {:induction false} LinkScanProper(draws: seq<real>, i: nat)
    requires AllDraws(draws) && 4 * i <= |draws| && i <= NodeCount
    ensures forall a :: 0 <= a < |LinkScan(draws, i).links| ==> ProperLink(LinkScan(draws, i).links[a], i)
    decreases i
  {
    if i > 0 {
      var r: nat := i - 1;
      LinkScanProper(draws, r);
      LinkScanStep(draws, r);
      NodeLinksProper(draws, LinkScan(draws, r), r);
    }
  }

  /** Links whose source is node i, in the order they were made. */
  function LinksOf(links: seq<GraphLink>, i: nat): seq<GraphLink> {
    if links == [] then []
    else LinksOf(links[..|links| - 1], i) + (if links[|links| - 1].source == i then [links[|links| - 1]] else [])
  }

  lemma {:induction false} LinksOfAppend(a: seq<GraphLink>, b: seq<GraphLink>, i: nat)
    ensures LinksOf(a + b, i) == LinksOf(a, i) + LinksOf(b, i)
    decreases |b|
  {
    if b == [] {
      assert a + b == a;
    } else {
      assert (a + b)[..|a + b| - 1] == a + b[..|b| - 1];
      LinksOfAppend(a, b[..|b| - 1], i);
    }
  }

  lemma {:induction false} LinksOfOthers(ls: seq<GraphLink>, i: nat)
    requires forall a :: 0 <= a < |ls| ==> ls[a].source != i
    ensures LinksOf(ls, i) == []
    decreases |ls|
  {
    if ls != [] {
      LinksOfOthers(ls[..|ls| - 1], i);
    }
  }

  lemma {:induction false} LinksOfOwn(ls: seq<GraphLink>, i: nat)
    requires forall a :: 0 <= a < |ls| ==> ls[a].source == i
    ensures LinksOf(ls, i) == ls
    decreases |ls|
  {
    if ls != [] {
      LinksOfOwn(ls[..|ls| - 1], i);
      assert ls[..|ls| - 1] + [ls[|ls| - 1]] == ls;
    }
  }

  /** The links one node's attempts add for node m: at most one per
      attempt when m is that node, none otherwise. */
  lemma RowShare(draws: seq<real>, start: nat, r: nat, a: nat, m: nat)
    requires start + a <= |draws| && AllDraws(draws) && r < NodeCount
    ensures |LinksOf(AttemptLinks(draws, start, r, a), m)| <= (if m == r then a else 0)
  {
    var row := AttemptLinks(draws, start, r, a);
    AttemptLinksProper(draws, start, r, a);
    if m == r {
      LinksOfOwn(row, m);
    } else {
      LinksOfOthers(row, m);
    }
  }

  /** Node i's turn adds at most three links from i and none from any other node. */
  lemma NodeLinksOf(draws: seq<real>, prev: Scan, i: nat, m: nat)
    requires AllDraws(draws) && prev.used + 4 <= |draws| && i < NodeCount
    ensures |LinksOf(NodeLinks(draws, prev, i).links, m)| <= |LinksOf(prev.links, m)| + (if m == i then 3 else 0)
  {
    var a := Attempts(draws[prev.used]);
    var row := AttemptLinks(draws, prev.used + 1, i, a);
    assert NodeLinks(draws, prev, i).links == prev.links + row;
    LinksOfAppend(prev.links, row, m);
    RowShare(draws, prev.used + 1, i, a, m);
  }

  /** Each node m < i ends up with at most three outgoing links: one per
      attempt, and it makes one to three attempts. */
  lemma {:induction false} AtMostThreeEach(draws: seq<real>, i: nat, m: nat)
    requires AllDraws(draws) && 4 * i <= |draws| && i <= NodeCount && m < NodeCount
    ensures |LinksOf(LinkScan(draws, i).links, m)| <= (if m < i then 3 else 0)
    decreases i
  {
    if i > 0 {
      var r: nat := i - 1;
      AtMostThreeEach(draws, r, m);
      LinkScanStep(draws, r);
      NodeLinksOf(draws, LinkScan(draws, r), r, m);
    }
  }

  lemma LinkScanStep(draws: seq<real>, i: nat)
    requires AllDraws(draws) && 4 * i + 4 <= |draws|
    ensures LinkScan(draws, i + 1) == NodeLinks(draws, LinkScan(draws, i), i)
  {
  }

  /** The attempts of one node: `k` draws from `start` on, each drawing a
      target and linking to it unless it is the node itself. */
  method AttemptRow(draws: seq<real>, start: nat, i: nat, k: nat) returns (row: seq<GraphLink>)
    requires start + k <= |draws| && AllDraws(draws)
    ensures row == AttemptLinks(draws, start, i, k)
  {
    row := [];
    for j := 0 to k
      invariant row == AttemptLinks(draws, start, i, j)
    {
      var target := Target(draws[start + j]);
      if target != i {
        row := row + [GraphLink(i, target)];
      }
    }
  }

  /** One pass of the outer loop: node i draws its number of attempts
      and makes them. */
  method NodeTurn(draws: seq<real>, links: seq<GraphLink>, used: nat, i: nat)
    returns (links': seq<GraphLink>, used': nat)
    requires AllDraws(draws) && used + 4 <= |draws|
    ensures Scan(links', used') == NodeLinks(draws, Scan(links, used), i)
  {
    var connections := Attempts(draws[used]);
    var row := AttemptRow(draws, used + 1, i, connections);
    links', used' := links + row, used + 1 + connections;
  }

  /** The link creation of `initializeNetworkVisualization`. */
  method CreateLinks(draws: seq<real>) returns (links: seq<GraphLink>, used: nat)
    requires AllDraws(draws) && 4 * NodeCount <= |draws|
    ensures Scan(links, used) == LinkScan(draws, NodeCount)
  {
    links, used := [], 0;
    var i := 0;
    while i < NodeCount
      invariant i <= NodeCount
      invariant Scan(links, used) == LinkScan(draws, i)
    {
      LinkScanStep(draws, i);
      links, used := NodeTurn(draws, links, used, i);
      i := i + 1;
    }
  }

  /** One node's move in a frame from the two draws rx, ry: jitter the
      velocity, damp it, move by it, then negate a component whose
      coordinate left the drawing's inner box. */
  function NodeStep(node: Node, rx: real, ry: real): (q: Node)
    ensures q.x == node.x + (node.vx + (rx - 0.5) * 0.1) * Damping
    ensures q.y == node.y + (node.vy + (ry - 0.5) * 0.1) * Damping
    ensures Abs(q.vx) == Abs((node.vx + (rx - 0.5) * 0.1) * Damping)
    ensures Abs(q.vy) == Abs((node.vy + (ry - 0.5) * 0.1) * Damping)
    ensures q.vx == -((node.vx + (rx - 0.5) * 0.1) * Damping) <==> (q.x < MinX || q.x > MaxX || q.vx == 0.0)
    ensures q.vy == -((node.vy + (ry - 0.5) * 0.1) * Damping) <==> (q.y < MinY || q.y > MaxY || q.vy == 0.0)
  {
    var vx := (node.vx + (rx - 0.5) * 0.1) * Damping;
    var vy := (node.vy + (ry - 0.5) * 0.1) * Damping;
    var x := node.x + vx;
    var y := node.y + vy;
    Node(x, y, if x < MinX || x > MaxX then vx * -1.0 else vx, if y < MinY || y > MaxY then vy * -1.0 else vy)
  }

  /** With real draws, damping keeps every velocity component within
      0.95 once it is: 0.95 * (0.95 + 0.05) = 0.95. Nodes start at rest,
      so no node ever moves faster than 0.95 per frame on either axis. */
  lemma SpeedBound(node: Node, rx: real, ry: real)
    requires IsDraw(rx) && IsDraw(ry)
    requires Abs(node.vx) <= Damping && Abs(node.vy) <= Damping
    ensures Abs(NodeStep(node, rx, ry).vx) <= Damping && Abs(NodeStep(node, rx, ry).vy) <= Damping
  {
    var q := NodeStep(node, rx, ry);
    var vx := node.vx + (rx - 0.5) * 0.1;
    var vy := node.vy + (ry - 0.5) * 0.1;
    assert -1.0 <= vx <= 1.0 && -1.0 <= vy <= 1.0;
    assert Abs(vx * Damping) <= Damping;
    assert Abs(vy * Damping) <= Damping;
  }

  class Network {
    const nodes: array<Node>
    var links: seq<GraphLink>

    /** Nodes at the given places, at rest, then the random links. */
    constructor (placed: seq<(real, real)>, draws: seq<real>)
      requires |placed| == NodeCount
      requires AllDraws(draws) && 4 * NodeCount <= |draws|
      ensures fresh(nodes) && nodes.Length == NodeCount
      ensures forall i :: 0 <= i < NodeCount ==> nodes[i] == Node(placed[i].0, placed[i].1, 0.0, 0.0)
      ensures links == LinkScan(draws, NodeCount).links
    {
      var ns := new Node[NodeCount];
      for i := 0 to NodeCount
        invariant forall k :: 0 <= k < i ==> ns[k] == Node(placed[k].0, placed[k].1, 0.0, 0.0)
      {
        ns[i] := Node(placed[i].0, placed[i].1, 0.0, 0.0);
      }
      nodes := ns;
      var ls, _ := CreateLinks(draws);
      links := ls;
    }

    /** One frame of `animateNetwork`: node i reads draws 2i and 2i+1. */
    method AnimateNetwork(draws: seq<real>)
      requires |draws| == 2 * nodes.Length
      modifies nodes
      ensures forall i :: 0 <= i < nodes.Length ==> nodes[i] == NodeStep(old(nodes[i]), draws[2 * i], draws[2 * i + 1])
    {
      for i := 0 to nodes.Length
        invariant forall k :: 0 <= k < i ==> nodes[k] == NodeStep(old(nodes[k]), draws[2 * k], draws[2 * k + 1])
        invariant forall k :: i <= k < nodes.Length ==> nodes[k] == old(nodes[k])
      {
        var node := nodes[i];
        var vx := (node.vx + (draws[2 * i] - 0.5) * 0.1) * Damping;
        var vy := (node.vy + (draws[2 * i + 1] - 0.5) * 0.1) * Damping;
        var x := node.x + vx;
        var y := node.y + vy;
        if x < MinX || x > MaxX {
          vx := vx * -1.0;
        }
        if y < MinY || y > MaxY {
          vy := vy * -1.0;
        }
        nodes[i] := Node(x, y, vx, vy);
      }
    }
  }
}
