/**
 * The ComfyUI "API prompt" that every workflow builder returns: a map from node key to a
 * node, where a node names its `class_type` and gives each of its inputs either a literal
 * or a link `[node_key, output_slot]` to an output of another node.
 *
 * Node keys are decimal numerals in the source ("37"); here each key is its numeric value.
 * The builders only ever write plain numerals without leading zeros, so the two are in
 * one-to-one correspondence.
 */
module ComfyGraph {
  import opened Wrappers

  type NodeId = nat

  /** One node input: a string, an integer, another number, a boolean, a link, or JavaScript `undefined`. */
  datatype Val =
    | S(s: string)
    | N(n: int)
    | R(r: real)
    | B(b: bool)
    | Ref(id: NodeId, slot: nat)
    | Undefined

  datatype Node = Node(classType: string, inputs: map<string, Val>)

  type Graph = map<NodeId, Node>

  /** `input.x` for a number the request may not carry: `undefined` when it is absent. */
  function RealOrUndefined(o: Option<real>): (v: Val)
    ensures v.Undefined? <==> o.None?
    ensures o.Some? ==> v == R(o.value)
  {
    match o
    case Some(x) => R(x)
    case None => Undefined
  }

  /** `input.x` for a boolean the request may not carry: `undefined` when it is absent. */
  function BoolOrUndefined(o: Option<bool>): (v: Val)
    ensures v.Undefined? <==> o.None?
    ensures o.Some? ==> v == B(o.value)
  {
    match o
    case Some(x) => B(x)
    case None => Undefined
  }

  /** Node `i` of `g` has an input linked to some output of node `j`. */
  ghost predicate Links(g: Graph, i: NodeId, j: NodeId) {
    i in g && exists s: nat :: Ref(j, s) in g[i].inputs.Values
  }

  /** Every link names a node of the same graph. */
  ghost predicate Closed(g: Graph) {
    forall i, j | Links(g, i, j) :: j in g
  }

  /** `p` follows links: each node of `p` links to the next one. */
  ghost predicate IsPath(g: Graph, p: seq<NodeId>) {
    forall t | 0 <= t < |p| - 1 :: Links(g, p[t], p[t + 1])
  }

  /** No chain of links leads from a node back to itself. */
  ghost predicate Acyclic(g: Graph) {
    forall p | IsPath(g, p) && |p| >= 2 :: p[0] != p[|p| - 1]
  }

  /** No input of `n` is `undefined`. */
  ghost predicate Defined(n: Node) {
    forall v | v in n.inputs.Values :: !v.Undefined?
  }

  /** No input of any node is `undefined`. */
  ghost predicate AllDefined(g: Graph) {
    forall k | k in g :: Defined(g[k])
  }

  /** Every link of `n` names a node of `ids`. */
  ghost predicate LinksWithin(n: Node, ids: set<NodeId>) {
    forall v | v in n.inputs.Values && v.Ref? :: v.id in ids
  }

  /** Every link of `n` names a node whose rank is below `r`. */
  ghost predicate LinksBelow(n: Node, r: int, rank: NodeId -> nat) {
    forall v | v in n.inputs.Values && v.Ref? :: rank(v.id) < r
  }

  /** Every node only links to nodes of the graph that rank strictly below it. */
  ghost predicate RankedBy(g: Graph, rank: NodeId -> nat) {
    forall k | k in g :: LinksWithin(g[k], g.Keys) && LinksBelow(g[k], rank(k), rank)
  }

  /** In a ranked graph, each link goes to a node of the graph with a smaller rank. */
  lemma LinkDescends(g: Graph, rank: NodeId -> nat, i: NodeId, j: NodeId)
    requires RankedBy(g, rank) && Links(g, i, j)
    ensures j in g && rank(j) < rank(i)
  {
    var s: nat :| Ref(j, s) in g[i].inputs.Values;
    assert LinksWithin(g[i], g.Keys) && LinksBelow(g[i], rank(i), rank);
  }

  /** Along any path of a ranked graph the rank falls strictly. */
  lemma {:induction false} RankFallsAlongPath(g: Graph, rank: NodeId -> nat, p: seq<NodeId>)
    requires RankedBy(g, rank) && IsPath(g, p) && |p| >= 2
    ensures rank(p[|p| - 1]) < rank(p[0])
  {
    LinkDescends(g, rank, p[0], p[1]);
    if |p| > 2 {
      var q := p[1..];
      assert IsPath(g, q) by {
        forall t | 0 <= t < |q| - 1 ensures Links(g, q[t], q[t + 1]) {
          assert q[t] == p[t + 1] && q[t + 1] == p[t + 2];
        }
      }
      RankFallsAlongPath(g, rank, q);
    }
  }

  /** A ranking is a certificate that the prompt is closed and acyclic. */
  lemma RankedIsClosedAndAcyclic(g: Graph, rank: NodeId -> nat)
    requires RankedBy(g, rank)
    ensures Closed(g) && Acyclic(g)
  {
    forall i, j | Links(g, i, j) ensures j in g {
      LinkDescends(g, rank, i, j);
    }
    forall p | IsPath(g, p) && |p| >= 2 ensures p[0] != p[|p| - 1] {
      RankFallsAlongPath(g, rank, p);
    }
  }

  /** The keys of the nodes whose `class_type` is `c`. */
  ghost function NodesOfClass(g: Graph, c: string): set<NodeId> {
    set k | k in g && g[k].classType == c
  }
}
