/**
 * The layered neural-network scene: a fixed 4 → 6 → 6 → 3 graph with a
 * connection for every pair of nodes in consecutive layers, and a tick that
 * fires an input node, sweeps the travelling signals (arrival, hidden-layer
 * fan-out), decays node activity and fades the firing auras.
 */
module NeuralNetwork {
  import opened Wrappers
  import opened Numeric
  import opened Text

  datatype Layer = Input | Hidden1 | Hidden2 | Output

  /**
   * A node id such as `H1-4`: the layer prefix and the index within the layer.
   * The model compares ids as these pairs; `IdText` prints them, and
   * `IdTextInjective` shows that comparing the printed strings is the same.
   */
  datatype NodeKey = NodeKey(layer: Layer, index: nat)

  /** A node; its colour is presentation and is not kept. */
  datatype Node = Node(id: NodeKey, pos: Vec3, layer: Layer, active: real, internalRotation: real, val: real)

  datatype Connection = Connection(fromId: NodeKey, toId: NodeKey, path: seq<Vec3>)

  datatype Signal = Signal(fromId: NodeKey, toId: NodeKey, progress: real, intensity: real, jitterOffset: real)

  datatype Aura = Aura(pos: Vec3, radius: real, opacity: real)

  /** The sliders: speed, threshold, dropout rate and noise level. */
  datatype Params = Params(speed: real, threshold: real, dropoutRate: real, noiseLevel: real)

  // ---------------------------------------------------------------- layout

  /** Nodes are pushed layer by layer: 4 inputs, 6 + 6 hidden, 3 outputs. */
  function LayerAt(i: nat): Layer {
    if i < 4 then Input else if i < 10 then Hidden1 else if i < 16 then Hidden2 else Output
  }

  function LayerStart(l: Layer): nat {
    match l
    case Input => 0
    case Hidden1 => 4
    case Hidden2 => 10
    case Output => 16
  }

  function LayerSize(l: Layer): nat {
    match l
    case Input => 4
    case Hidden1 => 6
    case Hidden2 => 6
    case Output => 3
  }

  /** The layer a connection from layer l goes to, if any. */
  function Succ(l: Layer): Option<Layer> {
    match l
    case Input => Some(Hidden1)
    case Hidden1 => Some(Hidden2)
    case Hidden2 => Some(Output)
    case Output => None
  }

  lemma LayerAtRange(i: nat, l: Layer)
    requires i < 19
    ensures LayerAt(i) == l <==> LayerStart(l) <= i < LayerStart(l) + LayerSize(l)
  {
  }

  function Prefix(l: Layer): string {
    match l
    case Input => "IN"
    case Hidden1 => "H1"
    case Hidden2 => "H2"
    case Output => "OUT"
  }

  /** The printed id: `IN-0` … `IN-3`, `H1-0` … `H1-5`, `H2-0` … `H2-5`, `OUT-0` … `OUT-2`. */
  function IdText(k: NodeKey): string {
    Prefix(k.layer) + "-" + NatToString(k.index)
  }

  /** Printed ids are equal only for equal keys. */
  lemma IdTextInjective(a: NodeKey, b: NodeKey)
    requires IdText(a) == IdText(b)
    ensures a == b
  {
    assert forall l, c :: 0 <= c < |Prefix(l)| ==> Prefix(l)[c] != '-';
    DashJoinInjective(Prefix(a.layer), NatToString(a.index), Prefix(b.layer), NatToString(b.index));
    assert a.layer == b.layer by {
      assert Prefix(a.layer)[..2] == Prefix(b.layer)[..2];
    }
    NatToStringInjective(a.index, b.index);
  }

  /** The id of the i-th node pushed. */
  function NodeId(i: nat): NodeKey
    requires i < 19
  {
    NodeKey(LayerAt(i), i - LayerStart(LayerAt(i)))
  }

  /** The position of the i-th node: a column of inputs, two 3 × 2 hidden grids, a column of outputs. */
  function NodePos(i: nat): Vec3
    requires i < 19
  {
    var j := i - LayerStart(LayerAt(i));
    match LayerAt(i)
    case Input => Vec3(-300.0, (j as real - 1.5) * 100.0, 0.0)
    case Hidden1 => Vec3(-100.0, ((j / 2) as real - 1.0) * 80.0, ((j % 2) as real - 0.5) * 80.0)
    case Hidden2 => Vec3(100.0, ((j / 2) as real - 1.0) * 80.0, ((j % 2) as real - 0.5) * 80.0)
    case Output => Vec3(300.0, 0.0, (j as real - 1.0) * 120.0)
  }

  function MakeNode(i: nat, v: real): Node
    requires i < 19
  {
    Node(NodeId(i), NodePos(i), LayerAt(i), 0.0, 0.0, v)
  }

  /** The initial `val`: a draw for inputs, `0.1 + 0.9·draw` for outputs, 0 for hidden nodes. */
  function InitialVal(rnd: RandomStream, k0: nat, i: nat): real
    requires i < 19
  {
    match LayerAt(i)
    case Input => rnd(k0 + i)
    case Output => rnd(k0 + 4 + (i - 16)) * 0.9 + 0.1
    case _ => 0.0
  }

  /** The nodes `initNetwork` lays out when its draws start at k0. */
  function Layout(rnd: RandomStream, k0: nat): (ns: seq<Node>)
    ensures |ns| == 19
  {
    seq(19, i requires 0 <= i < 19 => MakeNode(i, InitialVal(rnd, k0, i)))
  }

  /** The ids, layers and positions of the nodes are those of the layout (activity and values may change). */
  predicate Shaped(nodes: seq<Node>) {
    |nodes| == 19 &&
    forall i :: 0 <= i < 19 ==> nodes[i].id == NodeId(i) && nodes[i].layer == LayerAt(i) && nodes[i].pos == NodePos(i)
  }

  /** Two node lists agree on everything but activity, rotation and value. */
  predicate SameSkeleton(a: seq<Node>, b: seq<Node>) {
    |a| == |b| &&
    forall i :: 0 <= i < |a| ==> a[i].id == b[i].id && a[i].layer == b[i].layer && a[i].pos == b[i].pos
  }

  lemma SkeletonKeepsShape(a: seq<Node>, b: seq<Node>)
    requires Shaped(a) && SameSkeleton(a, b)
    ensures Shaped(b)
  {
  }

  lemma LayoutShaped(rnd: RandomStream, k0: nat)
    ensures Shaped(Layout(rnd, k0))
  {
    var ns := Layout(rnd, k0);
    forall j | 0 <= j < 19 ensures ns[j].id == NodeId(j) && ns[j].layer == LayerAt(j) && ns[j].pos == NodePos(j) {
      assert ns[j] == MakeNode(j, InitialVal(rnd, k0, j));
    }
  }

  /** The layout has 4, 6, 6 and 3 nodes in its layers and starts with no activity; inputs draw a value in [0, 1), outputs in [0.1, 1). */
  lemma LayoutShape(rnd: RandomStream, k0: nat)
    requires IsUnitStream(rnd)
    ensures Shaped(Layout(rnd, k0))
    ensures forall l :: |OfLayer(Layout(rnd, k0), l)| == LayerSize(l)
    ensures forall i :: 0 <= i < 19 ==> Layout(rnd, k0)[i].active == 0.0
    ensures forall i :: 0 <= i < 19 && LayerAt(i) == Input ==> 0.0 <= Layout(rnd, k0)[i].val < 1.0
    ensures forall i :: 0 <= i < 19 && LayerAt(i) == Output ==> 0.1 <= Layout(rnd, k0)[i].val < 1.0
    ensures forall i :: 0 <= i < 19 && (LayerAt(i) == Hidden1 || LayerAt(i) == Hidden2) ==> Layout(rnd, k0)[i].val == 0.0
  {
    var ns := Layout(rnd, k0);
    LayoutShaped(rnd, k0);
    forall l ensures |OfLayer(ns, l)| == LayerSize(l) {
      OfLayerShaped(ns, l);
    }
    forall i | 0 <= i < 19 && LayerAt(i) == Output ensures 0.1 <= ns[i].val < 1.0 {
      var r := rnd(k0 + 4 + (i - 16));
      assert ns[i].val == r * 0.9 + 0.1;
      MulMonotone(0.0, r, 0.9);
      MulStrict(r, 1.0, 0.9);
    }
  }

  /** Different nodes have different ids, also as printed. */
  lemma NodeIdsUnique(i: nat, j: nat)
    requires i < 19 && j < 19 && IdText(NodeId(i)) == IdText(NodeId(j))
    ensures i == j
  {
    IdTextInjective(NodeId(i), NodeId(j));
    LayerAtRange(i, LayerAt(j));
  }

  // ---------------------------------------------------------------- lookups

  /** `nodes.find(n => n.id === id)`, as an index. */
  function FindNode(nodes: seq<Node>, id: NodeKey): (r: Option<nat>)
    ensures r.Some? ==> r.value < |nodes| && nodes[r.value].id == id && forall i :: 0 <= i < r.value ==> nodes[i].id != id
    ensures r.None? ==> forall i :: 0 <= i < |nodes| ==> nodes[i].id != id
  {
    if nodes == [] then None
    else if nodes[0].id == id then Some(0)
    else match FindNode(nodes[1..], id)
      case None => None
      case Some(j) => Some(j + 1)
  }

  /** In a well-shaped list the node with the i-th id is the i-th node. */
  lemma FindShaped(nodes: seq<Node>, i: nat)
    requires Shaped(nodes) && i < 19
    ensures FindNode(nodes, NodeId(i)) == Some(i)
  {
    match FindNode(nodes, NodeId(i))
    case Some(j) =>
      NodeIdsUnique(i, j);
    case None =>
  }

  /** `nodes.filter(n => n.layer === l)`. */
  function OfLayer(nodes: seq<Node>, l: Layer): (r: seq<Node>)
    ensures |r| <= |nodes|
  {
    if nodes == [] then []
    else OfLayer(nodes[..|nodes| - 1], l) + (if nodes[|nodes| - 1].layer == l then [nodes[|nodes| - 1]] else [])
  }

  function ClipTo(n: int, lo: int, hi: int): int {
    if n < lo then lo else if n > hi then hi else n
  }

  lemma SliceSnoc<T>(a: seq<T>, i: nat, j: nat)
    requires i < j <= |a|
    ensures a[i..j - 1] + [a[j - 1]] == a[i..j]
  {
    assert forall x :: 0 <= x < j - i ==> (a[i..j - 1] + [a[j - 1]])[x] == a[i..j][x];
  }

  lemma {:induction false} OfLayerPrefix(nodes: seq<Node>, l: Layer, n: nat)
    requires Shaped(nodes) && n <= 19
    ensures OfLayer(nodes[..n], l) == nodes[LayerStart(l)..ClipTo(n, LayerStart(l), LayerStart(l) + LayerSize(l))]
  {
    if n > 0 {
      var s, e := LayerStart(l), LayerStart(l) + LayerSize(l);
      OfLayerPrefix(nodes, l, n - 1);
      assert nodes[..n][..n - 1] == nodes[..n - 1];
      assert nodes[..n][n - 1] == nodes[n - 1];
      var last := nodes[n - 1];
      assert last.layer == LayerAt(n - 1);
      LayerAtRange(n - 1, l);
      if last.layer == l {
        assert ClipTo(n - 1, s, e) == n - 1 && ClipTo(n, s, e) == n;
        SliceSnoc(nodes, s, n);
      } else {
        assert ClipTo(n, s, e) == ClipTo(n - 1, s, e);
      }
    }
  }

  /** The nodes of layer l are the consecutive block that the layout pushed for it. */
  lemma OfLayerShaped(nodes: seq<Node>, l: Layer)
    requires Shaped(nodes)
    ensures OfLayer(nodes, l) == nodes[LayerStart(l)..LayerStart(l) + LayerSize(l)]
  {
    OfLayerPrefix(nodes, l, 19);
    assert nodes[..19] == nodes;
  }

  // ---------------------------------------------------------------- connections

  /** The step-th of the 21 points of a connection: linear from a to b, bent up by `20·sin(t·π)`. */
  function PathPoint(m: MathLib, a: Vec3, b: Vec3, step: nat): Vec3 {
    var t := step as real / 20.0;
    var bend := m.sin(t * PI) * 20.0;
    Vec3(a.x + (b.x - a.x) * t, a.y + (b.y - a.y) * t + bend, a.z + (b.z - a.z) * t)
  }

  /** The first n points of a connection path. */
  function PathPoints(m: MathLib, a: Vec3, b: Vec3, n: nat): (ps: seq<Vec3>)
    ensures |ps| == n
  {
    if n == 0 then [] else PathPoints(m, a, b, n - 1) + [PathPoint(m, a, b, n - 1)]
  }

  lemma {:induction false} PathPointsAt(m: MathLib, a: Vec3, b: Vec3, n: nat, j: nat)
    requires j < n
    ensures PathPoints(m, a, b, n)[j] == PathPoint(m, a, b, j)
  {
    if j < n - 1 {
      PathPointsAt(m, a, b, n - 1, j);
    }
  }

  /** Every path has 21 points and, since sin 0 = 0, starts at its source node. */
  lemma PathStartsAtSource(m: MathLib, a: Vec3, b: Vec3)
    requires ZeroAngle(m)
    ensures |PathPoints(m, a, b, 21)| == 21 && PathPoints(m, a, b, 21)[0] == a
  {
    PathPointsAt(m, a, b, 21, 0);
    assert 0 as real / 20.0 * PI == 0.0;
  }

  function Link(m: MathLib, f: Node, t: Node): Connection {
    Connection(f.id, t.id, PathPoints(m, f.pos, t.pos, 21))
  }

  /** The connections from f to each of `tos`, in order. */
  function Row(m: MathLib, f: Node, tos: seq<Node>): (cs: seq<Connection>)
    ensures |cs| == |tos|
  {
    if tos == [] then [] else Row(m, f, tos[..|tos| - 1]) + [Link(m, f, tos[|tos| - 1])]
  }

  /** `froms.forEach(f => tos.forEach(t => push(f → t)))`. */
  function Conns(m: MathLib, froms: seq<Node>, tos: seq<Node>): (cs: seq<Connection>) {
    if froms == [] then []
    else Conns(m, froms[..|froms| - 1], tos) + Row(m, froms[|froms| - 1], tos)
  }

  /** One connection per (from, to) pair. */
  lemma {:induction false} ConnsLength(m: MathLib, froms: seq<Node>, tos: seq<Node>)
    ensures |Conns(m, froms, tos)| == |froms| * |tos|
  {
    if froms != [] {
      ConnsLength(m, froms[..|froms| - 1], tos);
      assert (|froms| - 1) * |tos| + |tos| == |froms| * |tos|;
    }
  }

  /** A connection in a row is the link to one of its targets. */
  lemma {:induction false} RowPick(m: MathLib, f: Node, tos: seq<Node>, c: Connection) returns (j: nat)
    requires c in Row(m, f, tos)
    ensures j < |tos| && c == Link(m, f, tos[j])
  {
    var init := tos[..|tos| - 1];
    if c in Row(m, f, init) {
      j := RowPick(m, f, init, c);
      assert tos[j] == init[j];
    } else {
      j := |tos| - 1;
    }
  }

  /** The link to each target is in the row. */
  lemma {:induction false} RowHas(m: MathLib, f: Node, tos: seq<Node>, j: nat)
    requires j < |tos|
    ensures Link(m, f, tos[j]) in Row(m, f, tos)
  {
    var init := tos[..|tos| - 1];
    if j < |init| {
      RowHas(m, f, init, j);
      assert tos[j] == init[j];
    }
  }

  /** A built connection is the link of some (from, to) pair. */
  lemma {:induction false} ConnsPick(m: MathLib, froms: seq<Node>, tos: seq<Node>, c: Connection) returns (i: nat, j: nat)
    requires c in Conns(m, froms, tos)
    ensures i < |froms| && j < |tos| && c == Link(m, froms[i], tos[j])
  {
    var init := froms[..|froms| - 1];
    if c in Conns(m, init, tos) {
      i, j := ConnsPick(m, init, tos, c);
      assert froms[i] == init[i];
    } else {
      i := |froms| - 1;
      j := RowPick(m, froms[i], tos, c);
    }
  }

  /** The link of every (from, to) pair is built. */
  lemma {:induction false} ConnsHas(m: MathLib, froms: seq<Node>, tos: seq<Node>, i: nat, j: nat)
    requires i < |froms| && j < |tos|
    ensures Link(m, froms[i], tos[j]) in Conns(m, froms, tos)
  {
    var init := froms[..|froms| - 1];
    if i < |init| {
      ConnsHas(m, init, tos, i, j);
      assert froms[i] == init[i];
    } else {
      RowHas(m, froms[i], tos, j);
    }
  }

  function AllConns(m: MathLib, nodes: seq<Node>): seq<Connection> {
    Conns(m, OfLayer(nodes, Input), OfLayer(nodes, Hidden1)) +
    Conns(m, OfLayer(nodes, Hidden1), OfLayer(nodes, Hidden2)) +
    Conns(m, OfLayer(nodes, Hidden2), OfLayer(nodes, Output))
  }

  /** The link from node i to node j of the layout. */
  function LinkAt(m: MathLib, i: nat, j: nat): Connection
    requires i < 19 && j < 19
  {
    Connection(NodeId(i), NodeId(j), PathPoints(m, NodePos(i), NodePos(j), 21))
  }

  /** Node i of the layout may send to node j: j is in the layer after i's. */
  predicate Edge(i: int, j: int) {
    0 <= i < 19 && 0 <= j < 19 && Succ(LayerAt(i)) == Some(LayerAt(j))
  }

  lemma LinkShaped(m: MathLib, nodes: seq<Node>, i: nat, j: nat)
    requires Shaped(nodes) && i < 19 && j < 19
    ensures Link(m, nodes[i], nodes[j]) == LinkAt(m, i, j)
  {
  }

  /** A connection between the blocks of layers l and l2 links a node of l to a node of l2. */
  lemma BlockForward(m: MathLib, nodes: seq<Node>, l: Layer, l2: Layer, c: Connection)
    requires Shaped(nodes) && c in Conns(m, OfLayer(nodes, l), OfLayer(nodes, l2))
    ensures exists i, j :: 0 <= i < 19 && 0 <= j < 19 && LayerAt(i) == l && LayerAt(j) == l2 && c == LinkAt(m, i, j)
  {
    OfLayerShaped(nodes, l);
    OfLayerShaped(nodes, l2);
    var froms, tos := OfLayer(nodes, l), OfLayer(nodes, l2);
    var a, b := ConnsPick(m, froms, tos, c);
    var i, j := LayerStart(l) + a, LayerStart(l2) + b;
    assert froms[a] == nodes[i] && tos[b] == nodes[j];
    LinkShaped(m, nodes, i, j);
    LayerAtRange(i, l);
    LayerAtRange(j, l2);
  }

  /** The link from node i to node j is among the connections between their layers' blocks. */
  lemma BlockBackward(m: MathLib, nodes: seq<Node>, i: nat, j: nat)
    requires Shaped(nodes) && i < 19 && j < 19
    ensures LinkAt(m, i, j) in Conns(m, OfLayer(nodes, LayerAt(i)), OfLayer(nodes, LayerAt(j)))
  {
    var l, l2 := LayerAt(i), LayerAt(j);
    OfLayerShaped(nodes, l);
    OfLayerShaped(nodes, l2);
    var froms, tos := OfLayer(nodes, l), OfLayer(nodes, l2);
    LayerAtRange(i, l);
    LayerAtRange(j, l2);
    var a, b := i - LayerStart(l), j - LayerStart(l2);
    assert froms[a] == nodes[i] && tos[b] == nodes[j];
    LinkShaped(m, nodes, i, j);
    ConnsHas(m, froms, tos, a, b);
  }

  /**
   * `buildConns` for the three consecutive layer pairs: 4·6 + 6·6 + 6·3 = 78
   * connections, one from each node to each node of the next layer and no others.
   */
  lemma AllConnsShape(m: MathLib, nodes: seq<Node>)
    requires Shaped(nodes)
    ensures |AllConns(m, nodes)| == 78
    ensures forall c :: c in AllConns(m, nodes) ==> exists i, j :: Edge(i, j) && c == LinkAt(m, i, j)
    ensures forall i, j :: Edge(i, j) ==> LinkAt(m, i, j) in AllConns(m, nodes)
  {
    AllConnsCount(m, nodes);
    forall c | c in AllConns(m, nodes) ensures exists i, j :: Edge(i, j) && c == LinkAt(m, i, j) {
      var i, j := AllConnsPick(m, nodes, c);
    }
    forall i, j | Edge(i, j) ensures LinkAt(m, i, j) in AllConns(m, nodes) {
      BlockBackward(m, nodes, i, j);
    }
  }

  lemma AllConnsCount(m: MathLib, nodes: seq<Node>)
    requires Shaped(nodes)
    ensures |AllConns(m, nodes)| == 78
  {
    OfLayerShaped(nodes, Input);
    OfLayerShaped(nodes, Hidden1);
    OfLayerShaped(nodes, Hidden2);
    OfLayerShaped(nodes, Output);
    ConnsLength(m, OfLayer(nodes, Input), OfLayer(nodes, Hidden1));
    ConnsLength(m, OfLayer(nodes, Hidden1), OfLayer(nodes, Hidden2));
    ConnsLength(m, OfLayer(nodes, Hidden2), OfLayer(nodes, Output));
  }

  lemma AllConnsPick(m: MathLib, nodes: seq<Node>, c: Connection) returns (i: nat, j: nat)
    requires Shaped(nodes) && c in AllConns(m, nodes)
    ensures Edge(i, j) && c == LinkAt(m, i, j)
  {
    if c in Conns(m, OfLayer(nodes, Input), OfLayer(nodes, Hidden1)) {
      BlockForward(m, nodes, Input, Hidden1, c);
      i, j :| 0 <= i < 19 && 0 <= j < 19 && LayerAt(i) == Input && LayerAt(j) == Hidden1 && c == LinkAt(m, i, j);
    } else if c in Conns(m, OfLayer(nodes, Hidden1), OfLayer(nodes, Hidden2)) {
      BlockForward(m, nodes, Hidden1, Hidden2, c);
      i, j :| 0 <= i < 19 && 0 <= j < 19 && LayerAt(i) == Hidden1 && LayerAt(j) == Hidden2 && c == LinkAt(m, i, j);
    } else {
      BlockForward(m, nodes, Hidden2, Output, c);
      i, j :| 0 <= i < 19 && 0 <= j < 19 && LayerAt(i) == Hidden2 && LayerAt(j) == Output && c == LinkAt(m, i, j);
    }
  }

  /** No connection leaves an output node or enters an input node; each path has 21 points starting at its source. */
  lemma ConnectionFacts(m: MathLib, nodes: seq<Node>, c: Connection)
    requires Shaped(nodes) && ZeroAngle(m) && c in AllConns(m, nodes)
    ensures exists i, j :: (0 <= i < 19 && 0 <= j < 19 && c.fromId == NodeId(i) && c.toId == NodeId(j) &&
      LayerAt(i) != Output && LayerAt(j) != Input && |c.path| == 21 && c.path[0] == NodePos(i))
  {
    AllConnsShape(m, nodes);
    var i, j :| Edge(i, j) && c == LinkAt(m, i, j);
    PathStartsAtSource(m, NodePos(i), NodePos(j));
  }

  // ---------------------------------------------------------------- signals

  /** The signal runs along one of the connections. */
  predicate Wired(conns: seq<Connection>, s: Signal) {
    exists c :: c in conns && c.fromId == s.fromId && c.toId == s.toId
  }

  /** `connections.filter(c => c.fromId === id)`. */
  function Outgoing(conns: seq<Connection>, id: NodeKey): (r: seq<Connection>)
    ensures forall c :: c in r <==> c in conns && c.fromId == id
  {
    if conns == [] then []
    else Outgoing(conns[..|conns| - 1], id) + (if conns[|conns| - 1].fromId == id then [conns[|conns| - 1]] else [])
  }

  /** `(draw − 0.5)·noise·scale`, the noise the scene adds to offsets and steps. */
  function Jitter(r: real, noise: real, scale: real): real {
    (r - 0.5) * noise * scale
  }

  /** A new signal along c. */
  function Launch(c: Connection, intensity: real, jitter: real): Signal {
    Signal(c.fromId, c.toId, 0.0, intensity, jitter)
  }

  /**
   * The signals a firing launches along `cs`: one per connection whose draw
   * beats the dropout rate, at full intensity, with a second draw for the jitter.
   * Returns them with the index of the next draw.
   */
  function Emitted(cs: seq<Connection>, prm: Params, rnd: RandomStream, k0: nat): (seq<Signal>, nat) {
    if cs == [] then ([], k0)
    else
      var prev := Emitted(cs[..|cs| - 1], prm, rnd, k0);
      var c, k := cs[|cs| - 1], prev.1;
      if rnd(k) > prm.dropoutRate then
        (prev.0 + [Launch(c, 1.0, Jitter(rnd(k + 1), prm.noiseLevel, 40.0))], k + 2)
      else (prev.0, k + 1)
  }

  /** Every emitted signal starts at progress 0 with intensity 1 along one of `cs`; at most one per connection. */
  lemma {:induction false} EmittedFacts(cs: seq<Connection>, prm: Params, rnd: RandomStream, k0: nat)
    ensures |Emitted(cs, prm, rnd, k0).0| <= |cs|
    ensures Emitted(cs, prm, rnd, k0).1 >= k0 + |cs|
    ensures forall s :: s in Emitted(cs, prm, rnd, k0).0 ==> s.progress == 0.0 && s.intensity == 1.0 && Wired(cs, s)
  {
    if cs != [] {
      var init := cs[..|cs| - 1];
      EmittedFacts(init, prm, rnd, k0);
      forall s | s in Emitted(init, prm, rnd, k0).0 ensures Wired(cs, s) {
        var c :| c in init && c.fromId == s.fromId && c.toId == s.toId;
        assert c in cs;
      }
      assert cs[|cs| - 1] in cs;
    }
  }

  /** The signals a node emits along its outgoing connections are live and not yet moving. */
  lemma EmittedLive(conns: seq<Connection>, id: NodeKey, prm: Params, rnd: RandomStream, k0: nat)
    ensures forall s :: s in Emitted(Outgoing(conns, id), prm, rnd, k0).0 ==> Live(conns, s) && s.progress == 0.0
  {
    var cs := Outgoing(conns, id);
    EmittedFacts(cs, prm, rnd, k0);
    forall s | s in Emitted(cs, prm, rnd, k0).0 ensures Live(conns, s) {
      var c :| c in cs && c.fromId == s.fromId && c.toId == s.toId;
    }
  }

  /**
   * The children an arriving signal p spawns along `cs` (the target's outgoing
   * connections): one per connection whose draw beats the dropout rate, provided
   * p's intensity exceeds `threshold·0.4`, with intensity `p·(0.9 + 0.1·draw)`.
   */
  function Children(cs: seq<Connection>, p: Signal, prm: Params, rnd: RandomStream, k0: nat): (seq<Signal>, nat) {
    if cs == [] then ([], k0)
    else
      var prev := Children(cs[..|cs| - 1], p, prm, rnd, k0);
      var c, k := cs[|cs| - 1], prev.1;
      if rnd(k) > prm.dropoutRate && p.intensity > prm.threshold * 0.4 then
        (prev.0 + [Launch(c, Attenuate(p.intensity, rnd(k + 1)), Jitter(rnd(k + 2), prm.noiseLevel, 40.0))], k + 3)
      else (prev.0, k + 1)
  }

  /** The intensity of a child of a parent with intensity p, from the draw r: `p·(0.9 + 0.1·r)`. */
  function Attenuate(p: real, r: real): (x: real)
    ensures p > 0.0 && 0.0 <= r < 1.0 ==> 0.9 * p <= x < p
  {
    var f := 0.9 + r * 0.1;
    assert p > 0.0 && 0.0 <= r < 1.0 ==> 0.9 * p <= p * f < p by {
      if p > 0.0 && 0.0 <= r < 1.0 {
        MulMonotone(0.9, f, p);
        MulStrict(f, 1.0, p);
      }
    }
    p * f
  }

  /**
   * Children start at progress 0 along one of `cs` with intensity in
   * [0.9·p, p); a parent no stronger than `threshold·0.4` has none.
   */
  lemma {:induction false} ChildrenFacts(cs: seq<Connection>, p: Signal, prm: Params, rnd: RandomStream, k0: nat)
    requires IsUnitStream(rnd) && p.intensity > 0.0
    ensures Children(cs, p, prm, rnd, k0).1 >= k0 + |cs|
    ensures |Children(cs, p, prm, rnd, k0).0| <= |cs|
    ensures forall s :: s in Children(cs, p, prm, rnd, k0).0 ==>
      s.progress == 0.0 && 0.9 * p.intensity <= s.intensity < p.intensity && Wired(cs, s)
    ensures p.intensity <= prm.threshold * 0.4 ==> Children(cs, p, prm, rnd, k0).0 == []
  {
    if cs != [] {
      var init := cs[..|cs| - 1];
      ChildrenFacts(init, p, prm, rnd, k0);
      forall s | s in Children(init, p, prm, rnd, k0).0 ensures Wired(cs, s) {
        var c :| c in init && c.fromId == s.fromId && c.toId == s.toId;
        assert c in cs;
      }
      assert cs[|cs| - 1] in cs;
    }
  }

  /** The progress step of one frame: `0.02·speed` plus a jitter drawn from r. */
  function Advanced(s: Signal, prm: Params, r: real): Signal {
    s.(progress := s.progress + 0.02 * prm.speed + Jitter(r, prm.noiseLevel, 0.05))
  }

  /** A target reached by a signal: fully active, its value nudged by the draw r and clamped to [0.1, 0.99]. */
  function Arrive(n: Node, r: real): (a: Node)
    ensures a.active == 1.0 && 0.1 <= a.val <= 0.99
    ensures a.id == n.id && a.layer == n.layer && a.pos == n.pos
  {
    n.(active := 1.0, val := Clamp(0.1, 0.99, n.val + (r - 0.5) * 0.05))
  }

  /** The sweep so far: the nodes, the surviving signals, the children collected for after the sweep, the draw index. */
  datatype SweepState = SweepState(nodes: seq<Node>, kept: seq<Signal>, next: seq<Signal>, k: nat)

  /** The sweep callback on one signal s (`signals.current.filter(s => …)`). */
  function SweepStep(st: SweepState, s: Signal, conns: seq<Connection>, prm: Params, rnd: RandomStream): SweepState {
    var s' := Advanced(s, prm, rnd(st.k));
    var k1 := st.k + 1;
    if s'.progress >= 1.0 then
      match FindNode(st.nodes, s.toId)
      case None => SweepState(st.nodes, st.kept, st.next, k1)
      case Some(j) =>
        var t := st.nodes[j];
        var nodes' := st.nodes[j := Arrive(t, rnd(k1))];
        if t.layer == Hidden1 || t.layer == Hidden2 then
          var ch := Children(Outgoing(conns, t.id), s', prm, rnd, k1 + 1);
          SweepState(nodes', st.kept, st.next + ch.0, ch.1)
        else SweepState(nodes', st.kept, st.next, k1 + 1)
    else SweepState(st.nodes, st.kept + [s'], st.next, k1)
  }

  /** The children spawned along a node's outgoing connections are live and not yet moving. */
  lemma ChildrenLive(conns: seq<Connection>, id: NodeKey, p: Signal, prm: Params, rnd: RandomStream, k0: nat)
    requires IsUnitStream(rnd) && 0.0 < p.intensity <= 1.0
    ensures forall s :: s in Children(Outgoing(conns, id), p, prm, rnd, k0).0 ==> Live(conns, s) && s.progress == 0.0
  {
    var cs := Outgoing(conns, id);
    ChildrenFacts(cs, p, prm, rnd, k0);
    forall c | c in Children(cs, p, prm, rnd, k0).0 ensures Live(conns, c) {
      var e :| e in cs && e.fromId == c.fromId && e.toId == c.toId;
    }
  }

  /** The sweep over a list of signals, in order. */
  function SweepAll(nodes: seq<Node>, conns: seq<Connection>, sigs: seq<Signal>, prm: Params, rnd: RandomStream, k0: nat): SweepState {
    if sigs == [] then SweepState(nodes, [], [], k0)
    else SweepStep(SweepAll(nodes, conns, sigs[..|sigs| - 1], prm, rnd, k0), sigs[|sigs| - 1], conns, prm, rnd)
  }

  /** A signal is live: on a connection, with intensity in (0, 1]. */
  predicate Live(conns: seq<Connection>, s: Signal) {
    Wired(conns, s) && 0.0 < s.intensity <= 1.0
  }

  /** The invariant a sweep keeps of its state. */
  predicate SweepOk(nodes0: seq<Node>, conns: seq<Connection>, st: SweepState) {
    SameSkeleton(nodes0, st.nodes) &&
    (forall s :: s in st.kept ==> Live(conns, s) && s.progress < 1.0) &&
    (forall s :: s in st.next ==> Live(conns, s) && s.progress == 0.0)
  }

  /** One step keeps the sweep invariant: survivors are below progress 1, children start at 0 on a connection. */
  lemma SweepStepOk(nodes0: seq<Node>, conns: seq<Connection>, st: SweepState, s: Signal, prm: Params, rnd: RandomStream)
    requires IsUnitStream(rnd) && SweepOk(nodes0, conns, st) && Live(conns, s)
    ensures SweepOk(nodes0, conns, SweepStep(st, s, conns, prm, rnd))
  {
    var s' := Advanced(s, prm, rnd(st.k));
    var r := SweepStep(st, s, conns, prm, rnd);
    if s'.progress >= 1.0 {
      match FindNode(st.nodes, s.toId)
      case None =>
      case Some(j) =>
        var t := st.nodes[j];
        if t.layer == Hidden1 || t.layer == Hidden2 {
          ChildrenLive(conns, t.id, s', prm, rnd, st.k + 2);
        }
    } else {
      assert Live(conns, s');
    }
  }

  /** The whole sweep keeps the invariant, so every signal afterwards is live and short of its target. */
  lemma {:induction false} SweepAllOk(nodes: seq<Node>, conns: seq<Connection>, sigs: seq<Signal>, prm: Params, rnd: RandomStream, k0: nat)
    requires IsUnitStream(rnd)
    requires forall s :: s in sigs ==> Live(conns, s)
    ensures SweepOk(nodes, conns, SweepAll(nodes, conns, sigs, prm, rnd, k0))
  {
    if sigs != [] {
      var init := sigs[..|sigs| - 1];
      SweepAllOk(nodes, conns, init, prm, rnd, k0);
      assert sigs[|sigs| - 1] in sigs;
      SweepStepOk(nodes, conns, SweepAll(nodes, conns, init, prm, rnd, k0), sigs[|sigs| - 1], prm, rnd);
    }
  }

  /**
   * What one signal does to the sweep: it survives, advanced, iff it stays short
   * of progress 1; on arrival its target (found by id) becomes active with its
   * value in [0.1, 0.99], and children are added only for a hidden-layer target.
   */
  lemma SweepStepEffect(st: SweepState, s: Signal, conns: seq<Connection>, prm: Params, rnd: RandomStream)
    ensures var s' := Advanced(s, prm, rnd(st.k));
      var r := SweepStep(st, s, conns, prm, rnd);
      (s'.progress < 1.0 ==> r.nodes == st.nodes && r.kept == st.kept + [s'] && r.next == st.next) &&
      (s'.progress >= 1.0 ==> (r.kept == st.kept && |r.nodes| == |st.nodes| &&
        match FindNode(st.nodes, s.toId)
        case None => r.nodes == st.nodes && r.next == st.next
        case Some(j) =>
          r.nodes == st.nodes[j := Arrive(st.nodes[j], rnd(st.k + 1))] &&
          r.nodes[j].active == 1.0 && 0.1 <= r.nodes[j].val <= 0.99 &&
          (st.nodes[j].layer == Input || st.nodes[j].layer == Output ==> r.next == st.next) &&
          (st.nodes[j].layer == Hidden1 || st.nodes[j].layer == Hidden2 ==>
            r.next == st.next + Children(Outgoing(conns, s.toId), s', prm, rnd, st.k + 2).0)))
  {
  }

  // ---------------------------------------------------------------- node decay and auras

  /** The per-frame node update: activity decays by `0.04·speed` while positive (it may overshoot below 0), rotation advances. */
  function Decayed(n: Node, speed: real): (d: Node)
    ensures d.id == n.id && d.layer == n.layer && d.pos == n.pos && d.val == n.val
    ensures n.active <= 0.0 ==> d.active == n.active
    ensures n.active > 0.0 && speed >= 0.0 ==> d.active <= n.active
    ensures d.internalRotation - n.internalRotation == 0.1 * speed
  {
    n.(active := if n.active > 0.0 then n.active - 0.04 * speed else n.active,
       internalRotation := n.internalRotation + 0.1 * speed)
  }

  /** One frame of an aura: it grows by `4·speed` and fades by `0.02·speed`. */
  function Fade(a: Aura, speed: real): Aura {
    a.(radius := a.radius + 4.0 * speed, opacity := a.opacity - 0.02 * speed)
  }

  /** `auras.filter(a => { grow and fade a; return a.opacity > 0 })`. */
  function Faded(auras: seq<Aura>, speed: real): seq<Aura> {
    if auras == [] then []
    else
      var a := Fade(auras[|auras| - 1], speed);
      Faded(auras[..|auras| - 1], speed) + (if a.opacity > 0.0 then [a] else [])
  }

  /** The surviving auras are exactly the faded ones still visible, and there are no more of them than before. */
  lemma {:induction false} FadedFacts(auras: seq<Aura>, speed: real)
    ensures |Faded(auras, speed)| <= |auras|
    ensures forall a :: a in Faded(auras, speed) <==> a.opacity > 0.0 && exists b :: b in auras && a == Fade(b, speed)
  {
    if auras != [] {
      var init := auras[..|auras| - 1];
      FadedFacts(init, speed);
      forall a ensures a in Faded(auras, speed) <==> a.opacity > 0.0 && exists b :: b in auras && a == Fade(b, speed) {
        if a.opacity > 0.0 && exists b :: b in auras && a == Fade(b, speed) {
          var b :| b in auras && a == Fade(b, speed);
          if b != auras[|auras| - 1] {
            assert b in init by {
              var i :| 0 <= i < |auras| && auras[i] == b;
              assert init[i] == b;
            }
          }
        }
        if a in Faded(init, speed) {
          var b :| b in init && a == Fade(b, speed);
          assert b in auras;
        }
      }
    }
  }

  // ---------------------------------------------------------------- the scene

  class Network {
    var nodes: seq<Node>
    var connections: seq<Connection>
    var signals: seq<Signal>
    var auras: seq<Aura>
    var time: real

    /** The scene's invariant between frames. */
    ghost predicate Valid()
      reads this
    {
      Shaped(nodes) &&
      (forall s :: s in signals ==> Live(connections, s) && s.progress < 1.0) &&
      (forall a :: a in auras ==> a.opacity > 0.0)
    }

    constructor ()
      ensures nodes == [] && connections == [] && signals == [] && auras == [] && time == 0.0
    {
      nodes := [];
      connections := [];
      signals := [];
      auras := [];
      time := 0.0;
    }

    /** The `for (step = 0; step <= 20; step++)` loop of `buildConns`. */
    static method LayPath(m: MathLib, a: Vec3, b: Vec3) returns (path: seq<Vec3>)
      ensures path == PathPoints(m, a, b, 21)
    {
      path := [];
      var step := 0;
      while step <= 20
        invariant 0 <= step <= 21
        invariant path == PathPoints(m, a, b, step)
      {
        path := path + [PathPoint(m, a, b, step)];
        step := step + 1;
      }
    }

    /** `buildConns`: for each node of `froms`, a connection to each node of `tos`. */
    static method BuildConns(m: MathLib, froms: seq<Node>, tos: seq<Node>) returns (conns: seq<Connection>)
      ensures conns == Conns(m, froms, tos)
      ensures |conns| == |froms| * |tos|
    {
      conns := [];
      var fi := 0;
      while fi < |froms|
        invariant 0 <= fi <= |froms|
        invariant conns == Conns(m, froms[..fi], tos)
      {
        var f := froms[fi];
        var row: seq<Connection> := [];
        var ti := 0;
        while ti < |tos|
          invariant 0 <= ti <= |tos|
          invariant row == Row(m, f, tos[..ti])
        {
          var t := tos[ti];
          var path := LayPath(m, f.pos, t.pos);
          row := row + [Connection(f.id, t.id, path)];
          assert tos[..ti + 1][..ti] == tos[..ti];
          ti := ti + 1;
        }
        assert tos[..ti] == tos;
        conns := conns + row;
        assert froms[..fi + 1][..fi] == froms[..fi];
        fi := fi + 1;
      }
      assert froms[..fi] == froms;
      ConnsLength(m, froms, tos);
    }

    /**
     * `initNetwork`: the 19 nodes layer by layer (4 input draws, then 3 output
     * draws), the 78 connections, and no signals or auras.
     */
    method InitNetwork(m: MathLib, rnd: RandomStream, k0: nat) returns (k: nat)
      modifies this
      ensures nodes == Layout(rnd, k0) && connections == AllConns(m, nodes)
      ensures signals == [] && auras == [] && time == old(time) && k == k0 + 7
      ensures Valid()
    {
      var ns := LayNodes(rnd, k0);
      LayoutShaped(rnd, k0);
      var c1 := BuildConns(m, OfLayer(ns, Input), OfLayer(ns, Hidden1));
      var c2 := BuildConns(m, OfLayer(ns, Hidden1), OfLayer(ns, Hidden2));
      var c3 := BuildConns(m, OfLayer(ns, Hidden2), OfLayer(ns, Output));
      nodes := ns;
      connections := c1 + c2 + c3;
      signals := [];
      auras := [];
      k := k0 + 7;
    }

    /** The four push loops of `initNetwork`, one per layer. */
    static method LayNodes(rnd: RandomStream, k0: nat) returns (ns: seq<Node>)
      ensures ns == Layout(rnd, k0)
    {
      ns := [];
      var i := 0;
      while i < 4
        invariant 0 <= i <= 4 && |ns| == i
        invariant forall j :: 0 <= j < |ns| ==> ns[j] == MakeNode(j, InitialVal(rnd, k0, j))
      {
        ns := ns + [MakeNode(i, rnd(k0 + i))];
        i := i + 1;
      }
      i := 0;
      while i < 6
        invariant 0 <= i <= 6 && |ns| == 4 + i
        invariant forall j :: 0 <= j < |ns| ==> ns[j] == MakeNode(j, InitialVal(rnd, k0, j))
      {
        ns := ns + [MakeNode(4 + i, 0.0)];
        i := i + 1;
      }
      i := 0;
      while i < 6
        invariant 0 <= i <= 6 && |ns| == 10 + i
        invariant forall j :: 0 <= j < |ns| ==> ns[j] == MakeNode(j, InitialVal(rnd, k0, j))
      {
        ns := ns + [MakeNode(10 + i, 0.0)];
        i := i + 1;
      }
      i := 0;
      while i < 3
        invariant 0 <= i <= 3 && |ns| == 16 + i
        invariant forall j :: 0 <= j < |ns| ==> ns[j] == MakeNode(j, InitialVal(rnd, k0, j))
      {
        ns := ns + [MakeNode(16 + i, rnd(k0 + 4 + i) * 0.9 + 0.1)];
        i := i + 1;
      }
    }

    /** The firing loop over the source's outgoing connections. */
    static method Emit(cs: seq<Connection>, prm: Params, rnd: RandomStream, k0: nat) returns (sigs: seq<Signal>, k: nat)
      ensures (sigs, k) == Emitted(cs, prm, rnd, k0)
    {
      sigs := [];
      k := k0;
      var i := 0;
      while i < |cs|
        invariant 0 <= i <= |cs|
        invariant (sigs, k) == Emitted(cs[..i], prm, rnd, k0)
      {
        assert cs[..i + 1][..i] == cs[..i];
        assert Emitted(cs[..i + 1], prm, rnd, k0) ==
          if rnd(k) > prm.dropoutRate then (sigs + [Launch(cs[i], 1.0, Jitter(rnd(k + 1), prm.noiseLevel, 40.0))], k + 2)
          else (sigs, k + 1);
        if rnd(k) > prm.dropoutRate {
          sigs := sigs + [Launch(cs[i], 1.0, Jitter(rnd(k + 1), prm.noiseLevel, 40.0))];
          k := k + 2;
        } else {
          k := k + 1;
        }
        i := i + 1;
      }
      assert cs[..i] == cs;
    }

    /** The fan-out loop over an arriving signal's target's outgoing connections. */
    static method FanOut(cs: seq<Connection>, p: Signal, prm: Params, rnd: RandomStream, k0: nat) returns (sigs: seq<Signal>, k: nat)
      ensures (sigs, k) == Children(cs, p, prm, rnd, k0)
    {
      sigs := [];
      k := k0;
      var i := 0;
      while i < |cs|
        invariant 0 <= i <= |cs|
        invariant (sigs, k) == Children(cs[..i], p, prm, rnd, k0)
      {
        assert cs[..i + 1][..i] == cs[..i];
        assert Children(cs[..i + 1], p, prm, rnd, k0) ==
          if rnd(k) > prm.dropoutRate && p.intensity > prm.threshold * 0.4 then
            (sigs + [Launch(cs[i], Attenuate(p.intensity, rnd(k + 1)), Jitter(rnd(k + 2), prm.noiseLevel, 40.0))], k + 3)
          else (sigs, k + 1);
        if rnd(k) > prm.dropoutRate && p.intensity > prm.threshold * 0.4 {
          sigs := sigs + [Launch(cs[i], Attenuate(p.intensity, rnd(k + 1)), Jitter(rnd(k + 2), prm.noiseLevel, 40.0))];
          k := k + 3;
        } else {
          k := k + 1;
        }
        i := i + 1;
      }
      assert cs[..i] == cs;
    }

    /**
     * The firing at the top of an unpaused frame: with probability `0.08·speed`
     * a random input node becomes fully active, gets an aura, and launches
     * signals along its outgoing connections.
     */
    method Fire(prm: Params, rnd: RandomStream, k0: nat) returns (k: nat)
      requires IsUnitStream(rnd) && Valid()
      modifies this
      ensures Valid()
      ensures connections == old(connections) && time == old(time)
      ensures !(rnd(k0) < 0.08 * prm.speed) ==>
        nodes == old(nodes) && signals == old(signals) && auras == old(auras) && k == k0 + 1
      ensures 0 <= RandomIndex(rnd(k0 + 1), 4) < 4
      ensures rnd(k0) < 0.08 * prm.speed ==>
        var j := RandomIndex(rnd(k0 + 1), 4);
        var e := Emitted(Outgoing(connections, NodeId(j)), prm, rnd, k0 + 2);
        nodes == old(nodes)[j := old(nodes)[j].(active := 1.0)] &&
        auras == old(auras) + [Aura(NodePos(j), 20.0, 0.8)] &&
        signals == old(signals) + e.0 && k == e.1
    {
      k := k0 + 1;
      if rnd(k0) < 0.08 * prm.speed {
        var inputs := OfLayer(nodes, Input);
        OfLayerShaped(nodes, Input);
        var j := RandomIndex(rnd(k), |inputs|);
        k := k + 1;
        assert inputs[j] == nodes[j];
        k := FireFrom(inputs[j], j, prm, rnd, k);
      }
    }

    /** The firing input node `source`, at index j: it lights up, gets an aura and emits along its connections. */
    method FireFrom(source: Node, j: nat, prm: Params, rnd: RandomStream, k0: nat) returns (k: nat)
      requires Valid() && j < |nodes| && nodes[j] == source
      modifies this
      ensures Valid()
      ensures connections == old(connections) && time == old(time)
      ensures var e := Emitted(Outgoing(connections, source.id), prm, rnd, k0);
        nodes == old(nodes)[j := source.(active := 1.0)] &&
        auras == old(auras) + [Aura(source.pos, 20.0, 0.8)] &&
        signals == old(signals) + e.0 && k == e.1
    {
      ghost var before := nodes;
      nodes := nodes[j := source.(active := 1.0)];
      assert SameSkeleton(before, nodes);
      SkeletonKeepsShape(before, nodes);
      auras := auras + [Aura(source.pos, 20.0, 0.8)];
      var sigs;
      sigs, k := Emit(Outgoing(connections, source.id), prm, rnd, k0);
      EmittedLive(connections, source.id, prm, rnd, k0);
      signals := signals + sigs;
    }

    /**
     * The signal sweep: each signal advances; one that reaches progress 1 is
     * dropped and activates its target, fanning out from hidden layers only; the
     * children are appended after the survivors, so none of them moves this frame.
     */
    method Sweep(prm: Params, rnd: RandomStream, k0: nat) returns (k: nat)
      requires IsUnitStream(rnd) && Valid()
      modifies this
      ensures var st := SweepAll(old(nodes), connections, old(signals), prm, rnd, k0);
        nodes == st.nodes && signals == st.kept + st.next && k == st.k
      ensures connections == old(connections) && auras == old(auras) && time == old(time)
      ensures Valid()
    {
      var ns, kept, next;
      ns, kept, next, k := SweepLoop(nodes, connections, signals, prm, rnd, k0);
      SweepAllOk(nodes, connections, signals, prm, rnd, k0);
      SkeletonKeepsShape(nodes, ns);
      nodes := ns;
      signals := kept + next;
    }

    /** The filter callback on one signal, on the sweep's running state. */
    static method SweepOne(ns0: seq<Node>, kept0: seq<Signal>, next0: seq<Signal>, k0: nat, s: Signal,
                           conns: seq<Connection>, prm: Params, rnd: RandomStream)
      returns (ns: seq<Node>, kept: seq<Signal>, next: seq<Signal>, k: nat)
      ensures SweepState(ns, kept, next, k) == SweepStep(SweepState(ns0, kept0, next0, k0), s, conns, prm, rnd)
    {
      ns, kept, next := ns0, kept0, next0;
      var s' := Advanced(s, prm, rnd(k0));
      k := k0 + 1;
      if s'.progress >= 1.0 {
        var found := FindNode(ns, s.toId);
        if found.Some? {
          var target := ns[found.value];
          ns := ns[found.value := Arrive(target, rnd(k))];
          k := k + 1;
          if target.layer == Hidden1 || target.layer == Hidden2 {
            var ch;
            ch, k := FanOut(Outgoing(conns, target.id), s', prm, rnd, k);
            next := next + ch;
          }
        }
      } else {
        kept := kept + [s'];
      }
    }

    /** The sweep loop over the signal list, in order. */
    static method SweepLoop(nodes: seq<Node>, conns: seq<Connection>, sigs: seq<Signal>, prm: Params, rnd: RandomStream, k0: nat)
      returns (ns: seq<Node>, kept: seq<Signal>, next: seq<Signal>, k: nat)
      ensures SweepState(ns, kept, next, k) == SweepAll(nodes, conns, sigs, prm, rnd, k0)
    {
      ns, kept, next, k := nodes, [], [], k0;
      var i := 0;
      while i < |sigs|
        invariant 0 <= i <= |sigs|
        invariant SweepState(ns, kept, next, k) == SweepAll(nodes, conns, sigs[..i], prm, rnd, k0)
      {
        assert sigs[..i + 1][..i] == sigs[..i];
        ns, kept, next, k := SweepOne(ns, kept, next, k, sigs[i], conns, prm, rnd);
        i := i + 1;
      }
      assert sigs[..i] == sigs;
    }

    /** The node loop: every node's activity decays and its rotation advances. */
    method DecayNodes(speed: real)
      modifies this
      ensures |nodes| == |old(nodes)|
      ensures forall i :: 0 <= i < |nodes| ==> nodes[i] == Decayed(old(nodes)[i], speed)
      ensures connections == old(connections) && signals == old(signals) && auras == old(auras) && time == old(time)
    {
      var i := 0;
      while i < |nodes|
        invariant 0 <= i <= |nodes| == |old(nodes)|
        invariant forall j :: 0 <= j < i ==> nodes[j] == Decayed(old(nodes)[j], speed)
        invariant forall j :: i <= j < |nodes| ==> nodes[j] == old(nodes)[j]
        invariant connections == old(connections) && signals == old(signals) && auras == old(auras) && time == old(time)
      {
        var n := nodes[i];
        var active := if n.active > 0.0 then n.active - 0.04 * speed else n.active;
        nodes := nodes[i := n.(active := active, internalRotation := n.internalRotation + 0.1 * speed)];
        i := i + 1;
      }
    }

    /** The aura filter: each aura grows and fades, and those no longer visible are dropped. */
    method FadeAuras(speed: real)
      modifies this
      ensures auras == Faded(old(auras), speed)
      ensures nodes == old(nodes) && connections == old(connections) && signals == old(signals) && time == old(time)
    {
      var live: seq<Aura> := [];
      var i := 0;
      while i < |auras|
        invariant 0 <= i <= |auras| && auras == old(auras)
        invariant live == Faded(auras[..i], speed)
      {
        assert auras[..i + 1][..i] == auras[..i];
        var a := auras[i];
        a := a.(radius := a.radius + 4.0 * speed);
        a := a.(opacity := a.opacity - 0.02 * speed);
        if a.opacity > 0.0 {
          live := live + [a];
        }
        i := i + 1;
      }
      assert auras[..i] == auras;
      auras := live;
    }

    /**
     * One frame of the simulation: nothing happens while paused; otherwise the
     * clock advances by `0.016·speed`, then firing, the sweep, node decay and
     * the aura filter run in that order.
     */
    method Tick(paused: bool, prm: Params, rnd: RandomStream, k0: nat) returns (k: nat)
      requires IsUnitStream(rnd) && Valid()
      modifies this
      ensures Valid()
      ensures paused ==> nodes == old(nodes) && signals == old(signals) && auras == old(auras) && time == old(time) && k == k0
      ensures !paused ==> time == old(time) + 0.016 * prm.speed && |auras| <= |old(auras)| + 1
      ensures connections == old(connections)
    {
      k := k0;
      if paused {
        return;
      }
      time := time + 0.016 * prm.speed;
      k := Fire(prm, rnd, k);
      k := Sweep(prm, rnd, k);
      ghost var before := nodes;
      DecayNodes(prm.speed);
      assert SameSkeleton(before, nodes);
      SkeletonKeepsShape(before, nodes);
      ghost var aurasBefore := auras;
      FadeAuras(prm.speed);
      FadedFacts(aurasBefore, prm.speed);
    }
  }
}
