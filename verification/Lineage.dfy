/**
  Provenance graph of confidential computations: node merging, edge recording and the depth-first `trace`.
 */
module Lineage {
  import opened Common

  datatype Kind = Dataset | Ciphertext | Program | Outcome | DecryptRequest | Released

  /** Position of a node kind along the provenance chain. */
  function Rank(k: Kind): nat {
    match k
    case Dataset => 0
    case Ciphertext => 1
    case Program => 2
    case Outcome => 3
    case DecryptRequest => 4
    case Released => 5
  }

  /** The commitment over (kind, ref) is taken to be collision-free, so the pair itself is the node id. */
  datatype NodeId = NodeId(kind: Kind, ref: Id)

  datatype Key =
    | Classification | ContextId | KeyEpoch | Version | LineageId | Requester | Purpose | Recipient | ApprovalId

  datatype Value = Text(t: Id) | Number(n: int)

  datatype Node = Node(id: NodeId, refHash: Option<Id>, attributes: map<Key, Value>) {
    /** Lexicographic: a hash first, then the number of attributes. */
    predicate RicherThan(other: Node) {
      if refHash.Some? != other.refHash.Some? then refHash.Some?
      else |attributes| > |other.attributes|
    }
  }

  function Bare(id: NodeId): Node { Node(id, None, map[]) }

  datatype Relation = Encrypts | ComputedBy | Produces | DecryptOf | Releases

  datatype Edge = Edge(src: NodeId, dst: NodeId, relation: Relation)

  datatype Graph = Graph(nodes: map<NodeId, Node>, edges: seq<Edge>)

  const EMPTY := Graph(map[], [])

  /** One recording call. */
  datatype Record =
    | RecordCiphertext(dataset: Id, ciphertext: Id, hash: Id, classification: Id, context: Id, keyEpoch: int)
    | RecordResult(parents: seq<Id>, program: Id, version: Id, result: Id, hash: Id, lineage: Id)
    | RecordDecrypt(result: Id, request: Id, requester: Id, purpose: Id)
    | RecordRelease(request: Id, release: Id, recipient: Id, released: Option<Id>, approval: Option<Id>)

  function CiphertextNode(c: Id, hash: Id, classification: Id, context: Id, keyEpoch: int): Node {
    Node(NodeId(Ciphertext, c), Some(hash),
         map[Classification := Text(classification), ContextId := Text(context), KeyEpoch := Number(keyEpoch)])
  }

  function ProgramNode(p: Id, version: Id): Node {
    Node(NodeId(Program, p), None, map[Version := Text(version)])
  }

  function OutcomeNode(r: Id, hash: Id, lineage: Id): Node {
    Node(NodeId(Outcome, r), Some(hash), map[LineageId := Text(lineage)])
  }

  function RequestNode(q: Id, requester: Id, purpose: Id): Node {
    Node(NodeId(DecryptRequest, q), None, map[Requester := Text(requester), Purpose := Text(purpose)])
  }

  function ReleaseNode(l: Id, recipient: Id, hash: Option<Id>, approval: Option<Id>): Node {
    var attributes := map[Recipient := Text(recipient)];
    Node(NodeId(Released, l), hash,
         if approval.Some? then attributes[ApprovalId := Text(approval.value)] else attributes)
  }

  /** The nodes a call names, in the order it adds them. */
  function NodesOf(rec: Record): seq<Node> {
    match rec
    case RecordCiphertext(d, c, h, k, x, e) => [Bare(NodeId(Dataset, d)), CiphertextNode(c, h, k, x, e)]
    case RecordResult(ps, p, v, r, h, l) => [ProgramNode(p, v)] + Inputs(ps) + [OutcomeNode(r, h, l)]
    case RecordDecrypt(r, q, u, w) => [Bare(NodeId(Outcome, r)), RequestNode(q, u, w)]
    case RecordRelease(q, l, u, h, a) => [Bare(NodeId(DecryptRequest, q)), ReleaseNode(l, u, h, a)]
  }

  function Inputs(ps: seq<Id>): seq<Node> {
    seq(|ps|, i requires 0 <= i < |ps| => Bare(NodeId(Ciphertext, ps[i])))
  }

  function InputEdges(ps: seq<Id>, p: Id): seq<Edge> {
    seq(|ps|, i requires 0 <= i < |ps| => Edge(NodeId(Ciphertext, ps[i]), NodeId(Program, p), ComputedBy))
  }

  function EdgesOf(rec: Record): seq<Edge> {
    match rec
    case RecordCiphertext(d, c, _, _, _, _) => [Edge(NodeId(Dataset, d), NodeId(Ciphertext, c), Encrypts)]
    case RecordResult(ps, p, _, r, _, _) => InputEdges(ps, p) + [Edge(NodeId(Program, p), NodeId(Outcome, r), Produces)]
    case RecordDecrypt(r, q, _, _) => [Edge(NodeId(Outcome, r), NodeId(DecryptRequest, q), DecryptOf)]
    case RecordRelease(q, l, _, _, _) => [Edge(NodeId(DecryptRequest, q), NodeId(Released, l), Releases)]
  }

  function AddNode(nodes: map<NodeId, Node>, n: Node): map<NodeId, Node> {
    if n.id !in nodes || n.RicherThan(nodes[n.id]) then nodes[n.id := n] else nodes
  }

  function AddNodes(nodes: map<NodeId, Node>, ns: seq<Node>): map<NodeId, Node> {
    if ns == [] then nodes else AddNode(AddNodes(nodes, ns[..|ns| - 1]), ns[|ns| - 1])
  }

  function AddEdge(edges: seq<Edge>, e: Edge): seq<Edge> {
    if e in edges then edges else edges + [e]
  }

  function AddEdges(edges: seq<Edge>, es: seq<Edge>): seq<Edge> {
    if es == [] then edges else AddEdge(AddEdges(edges, es[..|es| - 1]), es[|es| - 1])
  }

  function Apply(g: Graph, rec: Record): Graph {
    Graph(AddNodes(g.nodes, NodesOf(rec)), AddEdges(g.edges, EdgesOf(rec)))
  }

  function Run(history: seq<Record>): Graph {
    if history == [] then EMPTY else Apply(Run(history[..|history| - 1]), history[|history| - 1])
  }

  // ---------------------------------------------------------------------------
  // What every history keeps
  // ---------------------------------------------------------------------------

  ghost predicate WellFormed(g: Graph) {
    && (forall i | i in g.nodes :: g.nodes[i].id == i && Shaped(g.nodes[i]))
    && (forall e | e in g.edges :: StepsUp(e) && e.src in g.nodes && e.dst in g.nodes)
  }

  predicate StepsUp(e: Edge) {
    Rank(e.dst.kind) == Rank(e.src.kind) + 1
  }

  /** Which metadata a recorded node can carry: a pinned hash comes with a fixed number of attributes. */
  ghost predicate Shaped(n: Node) {
    match n.id.kind
    case Ciphertext => |n.attributes| == if n.refHash.Some? then 3 else 0
    case Outcome => |n.attributes| == if n.refHash.Some? then 1 else 0
    case Released => Recipient in n.attributes && |n.attributes| == if ApprovalId in n.attributes then 2 else 1
    case _ => n.refHash.None?
  }

  lemma {:induction false} AddNodesShaped(nodes: map<NodeId, Node>, ns: seq<Node>)
    requires forall i | i in nodes :: nodes[i].id == i && Shaped(nodes[i])
    requires forall k | 0 <= k < |ns| :: Shaped(ns[k])
    ensures forall i | i in AddNodes(nodes, ns) :: AddNodes(nodes, ns)[i].id == i && Shaped(AddNodes(nodes, ns)[i])
  {
    hide Shaped;
    if ns != [] {
      AddNodesShaped(nodes, ns[..|ns| - 1]);
    }
  }

  lemma {:induction false} AddNodesNames(nodes: map<NodeId, Node>, ns: seq<Node>)
    ensures nodes.Keys <= AddNodes(nodes, ns).Keys
    ensures forall k | 0 <= k < |ns| :: ns[k].id in AddNodes(nodes, ns)
  {
    if ns != [] {
      AddNodesNames(nodes, ns[..|ns| - 1]);
    }
  }

  lemma {:induction false} AddEdgesMembers(edges: seq<Edge>, es: seq<Edge>)
    ensures forall e :: e in AddEdges(edges, es) <==> e in edges || e in es
  {
    if es != [] {
      AddEdgesMembers(edges, es[..|es| - 1]);
      assert es == es[..|es| - 1] + [es[|es| - 1]];
    }
  }

  lemma RecordsAreShaped(rec: Record, k: nat)
    requires k < |NodesOf(rec)|
    ensures Shaped(NodesOf(rec)[k])
  {
    if rec.RecordRelease? && k == 1 {
      var n := NodesOf(rec)[1];
      assert n.attributes.Keys == if rec.approval.Some? then {Recipient, ApprovalId} else {Recipient};
    } else if rec.RecordCiphertext? && k == 1 {
      assert NodesOf(rec)[1].attributes.Keys == {Classification, ContextId, KeyEpoch};
    }
  }

  /** Every edge of a call joins two nodes of that call and goes up one rank. */
  lemma EndpointsNamed(rec: Record, k: nat) returns (i: nat, j: nat)
    requires k < |EdgesOf(rec)|
    ensures StepsUp(EdgesOf(rec)[k])
    ensures i < |NodesOf(rec)| && NodesOf(rec)[i].id == EdgesOf(rec)[k].src
    ensures j < |NodesOf(rec)| && NodesOf(rec)[j].id == EdgesOf(rec)[k].dst
  {
    i, j := 0, 1;
    if rec.RecordResult? {
      var n := |rec.parents|;
      i, j := if k < n then k + 1 else 0, if k < n then 0 else n + 1;
    }
  }

  lemma ApplyKeeps(g: Graph, rec: Record)
    requires WellFormed(g)
    ensures WellFormed(Apply(g, rec))
  {
    var nodes := AddNodes(g.nodes, NodesOf(rec));
    forall k | 0 <= k < |NodesOf(rec)| ensures Shaped(NodesOf(rec)[k]) { RecordsAreShaped(rec, k); }
    AddNodesShaped(g.nodes, NodesOf(rec));
    AddNodesNames(g.nodes, NodesOf(rec));
    AddEdgesMembers(g.edges, EdgesOf(rec));
    forall e | e in Apply(g, rec).edges ensures StepsUp(e) && e.src in nodes && e.dst in nodes {
      if e in EdgesOf(rec) {
        var k :| 0 <= k < |EdgesOf(rec)| && EdgesOf(rec)[k] == e;
        var i, j := EndpointsNamed(rec, k);
      }
    }
  }

  lemma {:induction false} RunKeeps(history: seq<Record>)
    ensures WellFormed(Run(history))
  {
    if history != [] {
      RunKeeps(history[..|history| - 1]);
      ApplyKeeps(Run(history[..|history| - 1]), history[|history| - 1]);
    }
  }

  // ---------------------------------------------------------------------------
  // Ancestors
  // ---------------------------------------------------------------------------

  ghost predicate Arc(edges: seq<Edge>, a: NodeId, b: NodeId) {
    exists e | e in edges :: e.src == a && e.dst == b
  }

  ghost predicate IsPath(edges: seq<Edge>, p: seq<NodeId>) {
    && p != []
    && forall i | 0 <= i < |p| - 1 :: Arc(edges, p[i], p[i + 1])
  }

  /** `a` is `n` or an ancestor of `n`: some chain of edges leads from `a` to `n`. */
  ghost predicate Reaches(edges: seq<Edge>, a: NodeId, n: NodeId) {
    exists p :: IsPath(edges, p) && p[0] == a && p[|p| - 1] == n
  }

  lemma ReachesSelf(edges: seq<Edge>, n: NodeId)
    ensures Reaches(edges, n, n)
  {
    assert IsPath(edges, [n]);
  }

  lemma ReachesFurther(edges: seq<Edge>, a: NodeId, p: NodeId, n: NodeId)
    requires Reaches(edges, a, p) && Arc(edges, p, n)
    ensures Reaches(edges, a, n)
  {
    var q :| IsPath(edges, q) && q[0] == a && q[|q| - 1] == p;
    assert IsPath(edges, q + [n]);
    assert (q + [n])[|q|] == n;
  }

  /** A path climbs one rank per edge, so the graph has no cycle. */
  lemma {:induction false} PathClimbs(g: Graph, p: seq<NodeId>)
    requires WellFormed(g) && IsPath(g.edges, p)
    ensures Rank(p[|p| - 1].kind) == Rank(p[0].kind) + |p| - 1
  {
    if |p| > 1 {
      assert Arc(g.edges, p[|p| - 2], p[|p| - 1]);
      PathClimbs(g, p[..|p| - 1]);
    }
  }

  lemma Acyclic(g: Graph, a: NodeId, b: NodeId)
    requires WellFormed(g) && Reaches(g.edges, a, b) && Reaches(g.edges, b, a)
    ensures a == b
  {
    var p :| IsPath(g.edges, p) && p[0] == a && p[|p| - 1] == b;
    var q :| IsPath(g.edges, q) && q[0] == b && q[|q| - 1] == a;
    PathClimbs(g, p);
    PathClimbs(g, q);
  }

  ghost predicate ParentsIn(edges: seq<Edge>, n: NodeId, s: seq<NodeId>) {
    forall a | Arc(edges, a, n) :: a in s
  }

  /** Every element of `order` comes after all its parents. */
  ghost predicate Topological(edges: seq<Edge>, order: seq<NodeId>) {
    order != [] ==>
      && Topological(edges, order[..|order| - 1])
      && ParentsIn(edges, order[|order| - 1], order[..|order| - 1])
  }

  lemma {:induction false} TopologicalClosed(edges: seq<Edge>, order: seq<NodeId>, k: nat, a: NodeId)
    requires Topological(edges, order) && k < |order| && Arc(edges, a, order[k])
    ensures exists j :: 0 <= j < k && order[j] == a
  {
    if k < |order| - 1 {
      TopologicalClosed(edges, order[..|order| - 1], k, a);
    }
  }

  /** A list closed under parents holds every ancestor of its members. */
  lemma {:induction false} ClosedHoldsAncestors(edges: seq<Edge>, order: seq<NodeId>, p: seq<NodeId>)
    requires Topological(edges, order) && IsPath(edges, p) && p[|p| - 1] in order
    ensures p[0] in order
  {
    if |p| > 1 {
      var q := p[..|p| - 1];
      assert Arc(edges, p[|p| - 2], p[|p| - 1]);
      var k :| 0 <= k < |order| && order[k] == p[|p| - 1];
      TopologicalClosed(edges, order, k, p[|p| - 2]);
      ClosedHoldsAncestors(edges, order, q);
    }
  }

  // ---------------------------------------------------------------------------
  // The trace
  // ---------------------------------------------------------------------------

  /** What `trace` owes its caller: the ancestors of `n`, once each, parents first and `n` last. */
  ghost predicate TraceOf(g: Graph, n: NodeId, order: seq<NodeId>) {
    && NoRepeats(order)
    && (forall a :: a in order <==> Reaches(g.edges, a, n))
    && (forall i, j | 0 <= i < |order| && 0 <= j < |order| && Arc(g.edges, order[i], order[j]) :: i < j)
    && order != [] && order[|order| - 1] == n
  }

  /** The parent index built from the edge list. */
  ghost predicate Indexes(parents: map<NodeId, seq<NodeId>>, edges: seq<Edge>) {
    forall a, n {:trigger Arc(edges, a, n)} :: Arc(edges, a, n) <==> n in parents && a in parents[n]
  }

  /**
    A state of the visit about to enter nodes of rank below `rank`: finished nodes are in `order`, and the nodes
    seen but unfinished are on the stack, all at rank `rank` or above.
   */
  ghost predicate Visiting(edges: seq<Edge>, seen: set<NodeId>, order: seq<NodeId>, rank: nat) {
    && NoRepeats(order)
    && Topological(edges, order)
    && (forall x | x in order :: x in seen)
    && (forall x | x in seen && x !in order :: Rank(x.kind) >= rank)
  }

  /** Seen but not finished. */
  ghost function Stack(seen: set<NodeId>, order: seq<NodeId>): set<NodeId> {
    set x | x in seen && x !in order
  }

  /** The visit of `nid` only appends ancestors of `nid` and leaves the stack as it found it. */
  ghost predicate Grown(g: Graph, nid: NodeId, seen: set<NodeId>, order: seq<NodeId>, seen': set<NodeId>,
                        order': seq<NodeId>) {
    && order <= order'
    && Stack(seen', order') == Stack(seen, order)
    && forall k | |order| <= k < |order'| :: Reaches(g.edges, order'[k], nid)
  }

  lemma GrowThroughParent(g: Graph, nid: NodeId, p: NodeId, s0: set<NodeId>, o0: seq<NodeId>,
                          s1: set<NodeId>, o1: seq<NodeId>, s2: set<NodeId>, o2: seq<NodeId>)
    requires Arc(g.edges, p, nid) && Grown(g, nid, s0, o0, s1, o1) && Grown(g, p, s1, o1, s2, o2)
    ensures Grown(g, nid, s0, o0, s2, o2)
  {
    forall k | |o0| <= k < |o2| ensures Reaches(g.edges, o2[k], nid) {
      if k < |o1| {
        assert o2[k] == o1[k];
      } else {
        ReachesFurther(g.edges, o2[k], p, nid);
      }
    }
  }

  lemma FinishVisit(g: Graph, nid: NodeId, seen: set<NodeId>, order: seq<NodeId>, s: set<NodeId>, o: seq<NodeId>)
    requires nid !in seen && Visiting(g.edges, seen, order, Rank(nid.kind) + 1)
    requires Visiting(g.edges, s, o, Rank(nid.kind)) && Grown(g, nid, seen + {nid}, order, s, o)
    requires ParentsIn(g.edges, nid, o)
    ensures Visiting(g.edges, s, o + [nid], Rank(nid.kind) + 1)
    ensures Grown(g, nid, seen, order, s, o + [nid])
  {
    hide Reaches, ParentsIn, Rank;
    var o' := o + [nid];
    assert o'[..|o'| - 1] == o;
    assert nid in Stack(seen + {nid}, order);
    ReachesSelf(g.edges, nid);
    assert Stack(s, o') == Stack(s, o) - {nid};
    assert Stack(seen + {nid}, order) - {nid} == Stack(seen, order);
    forall x | x in s && x !in o' ensures Rank(x.kind) >= Rank(nid.kind) + 1 {
      assert x in Stack(seen, order);
    }
  }

  /** A node already seen below the stack is already finished. */
  lemma SeenIsFinished(g: Graph, nid: NodeId, seen: set<NodeId>, order: seq<NodeId>)
    requires Visiting(g.edges, seen, order, Rank(nid.kind) + 1) && nid in seen
    ensures nid in order && Grown(g, nid, seen, order, seen, order)
  {
  }

  lemma EnterVisit(g: Graph, nid: NodeId, seen: set<NodeId>, order: seq<NodeId>, ps: seq<NodeId>)
    requires Visiting(g.edges, seen, order, Rank(nid.kind) + 1)
    ensures FirstIn(ps, 0, order)
    ensures Visiting(g.edges, seen + {nid}, order, Rank(nid.kind))
    ensures Grown(g, nid, seen + {nid}, order, seen + {nid}, order)
  {
  }

  lemma ParentBelow(g: Graph, parents: map<NodeId, seq<NodeId>>, nid: NodeId, p: NodeId)
    requires WellFormed(g) && Indexes(parents, g.edges) && nid in parents && p in parents[nid]
    ensures Arc(g.edges, p, nid) && Rank(p.kind) + 1 == Rank(nid.kind)
  {
    assert Arc(g.edges, p, nid);
  }

  ghost predicate FirstIn(ps: seq<NodeId>, i: nat, order: seq<NodeId>) {
    forall k | 0 <= k < i && k < |ps| :: ps[k] in order
  }

  lemma OneMoreIn(g: Graph, p: NodeId, s1: set<NodeId>, o1: seq<NodeId>, s2: set<NodeId>, o2: seq<NodeId>,
                  ps: seq<NodeId>, i: nat)
    requires Grown(g, p, s1, o1, s2, o2) && i < |ps| && ps[i] == p && p in o2 && FirstIn(ps, i, o1)
    ensures FirstIn(ps, i + 1, o2)
  {
    forall k | 0 <= k < i + 1 ensures ps[k] in o2 {
      if k < i {
        var j :| 0 <= j < |o1| && o1[j] == ps[k];
        assert o2[j] == ps[k];
      }
    }
  }

  lemma AllParentsVisited(g: Graph, parents: map<NodeId, seq<NodeId>>, nid: NodeId, ps: seq<NodeId>, order: seq<NodeId>)
    requires Indexes(parents, g.edges) && ps == (if nid in parents then parents[nid] else [])
        && FirstIn(ps, |ps|, order)
    ensures ParentsIn(g.edges, nid, order)
  {
  }

  /** The recursive visit over the shared `seen` set. */
  method Visit(parents: map<NodeId, seq<NodeId>>, nid: NodeId, seen: set<NodeId>, order: seq<NodeId>, ghost g: Graph)
    returns (seen': set<NodeId>, order': seq<NodeId>)
    requires WellFormed(g) && Indexes(parents, g.edges)
    requires Visiting(g.edges, seen, order, Rank(nid.kind) + 1)
    ensures Visiting(g.edges, seen', order', Rank(nid.kind) + 1)
    ensures Grown(g, nid, seen, order, seen', order') && nid in order'
    ensures nid !in seen ==> order'[|order'| - 1] == nid
    decreases Rank(nid.kind)
  {
    hide Visiting, Grown, WellFormed, Indexes, ParentsIn, Arc, Rank, FirstIn;
    seen', order' := seen, order;
    if nid in seen {
      SeenIsFinished(g, nid, seen, order);
      return;
    }
    seen' := seen' + {nid};
    var ps := if nid in parents then parents[nid] else [];
    EnterVisit(g, nid, seen, order, ps);
    var i := 0;
    while i < |ps|
      invariant 0 <= i <= |ps|
      invariant Visiting(g.edges, seen', order', Rank(nid.kind))
      invariant Grown(g, nid, seen + {nid}, order, seen', order')
      invariant FirstIn(ps, i, order')
    {
      ParentBelow(g, parents, nid, ps[i]);
      ghost var s1, o1 := seen', order';
      seen', order' := Visit(parents, ps[i], seen', order', g);
      GrowThroughParent(g, nid, ps[i], seen + {nid}, order, s1, o1, seen', order');
      OneMoreIn(g, ps[i], s1, o1, seen', order', ps, i);
      i := i + 1;
    }
    AllParentsVisited(g, parents, nid, ps, order');
    FinishVisit(g, nid, seen, order, seen', order');
    order' := order' + [nid];
  }

  lemma {:induction false} TraceExact(g: Graph, n: NodeId, seen: set<NodeId>, order: seq<NodeId>)
    requires Visiting(g.edges, seen, order, Rank(n.kind) + 1) && Grown(g, n, {}, [], seen, order)
    requires order != [] && order[|order| - 1] == n
    ensures TraceOf(g, n, order)
  {
    forall a ensures a in order <==> Reaches(g.edges, a, n) {
      if Reaches(g.edges, a, n) {
        var p :| IsPath(g.edges, p) && p[0] == a && p[|p| - 1] == n;
        ClosedHoldsAncestors(g.edges, order, p);
      }
    }
    forall i, j | 0 <= i < |order| && 0 <= j < |order| && Arc(g.edges, order[i], order[j]) ensures i < j {
      TopologicalClosed(g.edges, order, j, order[i]);
    }
  }

  /** Recorded nodes have recorded ancestors only. */
  lemma AncestorsRecorded(g: Graph, a: NodeId, n: NodeId)
    requires WellFormed(g) && Reaches(g.edges, a, n) && (a != n || n in g.nodes)
    ensures a in g.nodes && n in g.nodes
  {
    var p :| IsPath(g.edges, p) && p[0] == a && p[|p| - 1] == n;
    if |p| > 1 {
      assert Arc(g.edges, p[0], p[1]) && Arc(g.edges, p[|p| - 2], p[|p| - 1]);
    }
  }

  // ---------------------------------------------------------------------------
  // What a trace says about the recording history
  // ---------------------------------------------------------------------------

  /** Some call of the history named the edge. */
  ghost predicate Recorded(history: seq<Record>, e: Edge) {
    exists k | 0 <= k < |history| :: e in EdgesOf(history[k])
  }

  lemma RecordedExtends(history: seq<Record>, e: Edge)
    requires history != []
    ensures Recorded(history, e) <==> Recorded(history[..|history| - 1], e) || e in EdgesOf(history[|history| - 1])
  {
    hide EdgesOf;
    var init := history[..|history| - 1];
    if k :| 0 <= k < |init| && e in EdgesOf(init[k]) {
      assert history[k] == init[k];
    }
    if k :| 0 <= k < |history| && e in EdgesOf(history[k]) {
      assert k < |init| ==> history[k] == init[k];
    }
  }

  lemma {:induction false} RunEdges(history: seq<Record>, e: Edge)
    ensures e in Run(history).edges <==> Recorded(history, e)
  {
    if history != [] {
      var init, last := history[..|history| - 1], history[|history| - 1];
      RunEdges(init, e);
      AddEdgesMembers(Run(init).edges, EdgesOf(last));
      RecordedExtends(history, e);
      hide Recorded, EdgesOf, AddEdges;
    }
  }

  /** Every recorded edge carries the relation of the two kinds it joins. */
  lemma RelationsByKind(history: seq<Record>, e: Edge)
    requires e in Run(history).edges
    ensures (e.src.kind, e.dst.kind, e.relation) in
              {(Dataset, Ciphertext, Encrypts), (Ciphertext, Program, ComputedBy), (Program, Outcome, Produces),
               (Outcome, DecryptRequest, DecryptOf), (DecryptRequest, Released, Releases)}
  {
    hide Run;
    RunEdges(history, e);
    var i :| 0 <= i < |history| && e in EdgesOf(history[i]);
    var k :| 0 <= k < |EdgesOf(history[i])| && EdgesOf(history[i])[k] == e;
    if history[i].RecordResult? && k < |history[i].parents| {
      assert e == InputEdges(history[i].parents, history[i].program)[k];
    }
  }

  /** Some run of the program that produced `result` (not necessarily the producing run) took `ciphertext` as input. */
  ghost predicate SharedProgram(history: seq<Record>, ciphertext: Id, result: Id, i: nat, j: nat) {
    && i < |history| && history[i].RecordResult? && history[i].result == result
    && j < |history| && history[j].RecordResult? && history[j].program == history[i].program
    && ciphertext in history[j].parents
  }

  lemma SharedBehindResult(history: seq<Record>, ciphertext: Id, result: Id) returns (i: nat, j: nat)
    requires Reaches(Run(history).edges, NodeId(Ciphertext, ciphertext), NodeId(Outcome, result))
    ensures SharedProgram(history, ciphertext, result, i, j)
  {
    var g := Run(history);
    RunKeeps(history);
    var p :| IsPath(g.edges, p) && p[0] == NodeId(Ciphertext, ciphertext) && p[|p| - 1] == NodeId(Outcome, result);
    PathClimbs(g, p);
    assert |p| == 3 && Arc(g.edges, p[0], p[1]) && Arc(g.edges, p[1], p[2]);
    i := ProducedIn(history, p[1], result);
    j := ConsumedIn(history, ciphertext, p[1]);
  }

  lemma SharedReaches(history: seq<Record>, ciphertext: Id, result: Id, i: nat, j: nat)
    requires SharedProgram(history, ciphertext, result, i, j)
    ensures Reaches(Run(history).edges, NodeId(Ciphertext, ciphertext), NodeId(Outcome, result))
  {
    var g := Run(history);
    var c, m, r := NodeId(Ciphertext, ciphertext), NodeId(Program, history[i].program), NodeId(Outcome, result);
    var e1, e2 := Edge(c, m, ComputedBy), Edge(m, r, Produces);
    var k :| 0 <= k < |history[j].parents| && history[j].parents[k] == ciphertext;
    assert e1 == EdgesOf(history[j])[k];
    assert e2 == EdgesOf(history[i])[|history[i].parents|];
    RunEdges(history, e1);
    RunEdges(history, e2);
    ReachesSelf(g.edges, c);
    ReachesFurther(g.edges, c, c, m);
    ReachesFurther(g.edges, c, m, r);
  }

  /**
    The ciphertexts behind a result are the inputs of every recorded run of its program: all of its own inputs,
    but not only those, because the runs of one program share one node.
   */
  lemma InputsBehindResult(history: seq<Record>, ciphertext: Id, result: Id)
    ensures Reaches(Run(history).edges, NodeId(Ciphertext, ciphertext), NodeId(Outcome, result))
       <==> exists i: nat, j: nat :: SharedProgram(history, ciphertext, result, i, j)
  {
    hide Reaches, SharedProgram, Run;
    if Reaches(Run(history).edges, NodeId(Ciphertext, ciphertext), NodeId(Outcome, result)) {
      var i, j := SharedBehindResult(history, ciphertext, result);
    }
    if i: nat, j: nat :| SharedProgram(history, ciphertext, result, i, j) {
      SharedReaches(history, ciphertext, result, i, j);
    }
  }

  lemma EdgeKinds(rec: Record, e: Edge)
    requires e in EdgesOf(rec)
    ensures e.dst.kind.Outcome? ==>
              rec.RecordResult? && e.src == NodeId(Program, rec.program) && e.dst == NodeId(Outcome, rec.result)
    ensures e.src.kind.Ciphertext? ==>
              rec.RecordResult? && e.dst == NodeId(Program, rec.program) && e.src.ref in rec.parents
  {
    var k :| 0 <= k < |EdgesOf(rec)| && EdgesOf(rec)[k] == e;
    if rec.RecordResult? && k < |rec.parents| {
      assert e == InputEdges(rec.parents, rec.program)[k];
    }
  }

  lemma ProducedIn(history: seq<Record>, p: NodeId, result: Id) returns (i: nat)
    requires Arc(Run(history).edges, p, NodeId(Outcome, result))
    ensures i < |history| && history[i].RecordResult? && history[i].result == result
    ensures p == NodeId(Program, history[i].program)
  {
    hide Run, EdgesOf;
    var e :| e in Run(history).edges && e.src == p && e.dst == NodeId(Outcome, result);
    RunEdges(history, e);
    i :| 0 <= i < |history| && e in EdgesOf(history[i]);
    EdgeKinds(history[i], e);
  }

  lemma ConsumedIn(history: seq<Record>, ciphertext: Id, p: NodeId) returns (j: nat)
    requires Arc(Run(history).edges, NodeId(Ciphertext, ciphertext), p)
    ensures j < |history| && history[j].RecordResult? && ciphertext in history[j].parents
    ensures p == NodeId(Program, history[j].program)
  {
    hide Run, EdgesOf;
    var e :| e in Run(history).edges && e.src == NodeId(Ciphertext, ciphertext) && e.dst == p;
    RunEdges(history, e);
    j :| 0 <= j < |history| && e in EdgesOf(history[j]);
    EdgeKinds(history[j], e);
  }

  // ---------------------------------------------------------------------------
  // Datasets, ciphertexts, results and releases
  // ---------------------------------------------------------------------------

  /** Some call encrypted the dataset into the ciphertext. */
  ghost predicate Encrypted(history: seq<Record>, dataset: Id, ciphertext: Id) {
    exists i | 0 <= i < |history| ::
      history[i].RecordCiphertext? && history[i].dataset == dataset && history[i].ciphertext == ciphertext
  }

  /** Some call asked to decrypt the result under the request. */
  ghost predicate Asked(history: seq<Record>, result: Id, request: Id) {
    exists i | 0 <= i < |history| ::
      history[i].RecordDecrypt? && history[i].result == result && history[i].request == request
  }

  /** Some call made the release under the request. */
  ghost predicate Answered(history: seq<Record>, request: Id, release: Id) {
    exists i | 0 <= i < |history| ::
      history[i].RecordRelease? && history[i].request == request && history[i].release == release
  }

  /** Which calls draw an arc between which nodes. */
  lemma ArcsByCalls(history: seq<Record>, a: NodeId, b: NodeId)
    ensures b.kind == Ciphertext ==>
              (Arc(Run(history).edges, a, b) <==> a.kind == Dataset && Encrypted(history, a.ref, b.ref))
    ensures b.kind == DecryptRequest ==>
              (Arc(Run(history).edges, a, b) <==> a.kind == Outcome && Asked(history, a.ref, b.ref))
    ensures b.kind == Released ==>
              (Arc(Run(history).edges, a, b) <==> a.kind == DecryptRequest && Answered(history, a.ref, b.ref))
  {
    hide Run;
    if Arc(Run(history).edges, a, b) {
      var e :| e in Run(history).edges && e.src == a && e.dst == b;
      RunEdges(history, e);
      var i :| 0 <= i < |history| && e in EdgesOf(history[i]);
      EdgeEnds(history[i], e);
    }
    if b.kind == Ciphertext && a.kind == Dataset && Encrypted(history, a.ref, b.ref) {
      var i :| 0 <= i < |history| && history[i].RecordCiphertext? && history[i].dataset == a.ref
               && history[i].ciphertext == b.ref;
      FirstEdgeRecorded(history, i);
    }
    if b.kind == DecryptRequest && a.kind == Outcome && Asked(history, a.ref, b.ref) {
      var i :| 0 <= i < |history| && history[i].RecordDecrypt? && history[i].result == a.ref
               && history[i].request == b.ref;
      FirstEdgeRecorded(history, i);
    }
    if b.kind == Released && a.kind == DecryptRequest && Answered(history, a.ref, b.ref) {
      var i :| 0 <= i < |history| && history[i].RecordRelease? && history[i].request == a.ref
               && history[i].release == b.ref;
      FirstEdgeRecorded(history, i);
    }
  }

  /** The ends of an edge are the objects its call names. */
  lemma EdgeEnds(rec: Record, e: Edge)
    requires e in EdgesOf(rec)
    ensures match rec
            case RecordCiphertext(d, c, _, _, _, _) => e.src == NodeId(Dataset, d) && e.dst == NodeId(Ciphertext, c)
            case RecordResult(_, _, _, _, _, _) => e.dst.kind in {Program, Outcome}
            case RecordDecrypt(r, q, _, _) => e.src == NodeId(Outcome, r) && e.dst == NodeId(DecryptRequest, q)
            case RecordRelease(q, l, _, _, _) => e.src == NodeId(DecryptRequest, q) && e.dst == NodeId(Released, l)
  {
    var k :| 0 <= k < |EdgesOf(rec)| && EdgesOf(rec)[k] == e;
    if rec.RecordResult? && k < |rec.parents| {
      assert e == InputEdges(rec.parents, rec.program)[k];
    }
  }

  lemma FirstEdgeRecorded(history: seq<Record>, i: nat)
    requires i < |history| && !history[i].RecordResult?
    ensures match history[i]
            case RecordCiphertext(d, c, _, _, _, _) =>
              Arc(Run(history).edges, NodeId(Dataset, d), NodeId(Ciphertext, c))
            case RecordResult(_, _, _, _, _, _) => true
            case RecordDecrypt(r, q, _, _) => Arc(Run(history).edges, NodeId(Outcome, r), NodeId(DecryptRequest, q))
            case RecordRelease(q, l, _, _, _) => Arc(Run(history).edges, NodeId(DecryptRequest, q), NodeId(Released, l))
  {
    hide Run;
    var e := EdgesOf(history[i])[0];
    assert e in EdgesOf(history[i]);
    RunEdges(history, e);
  }

  /** A path of one more arc ends in an arc from a node the source reaches. */
  lemma LastArc(edges: seq<Edge>, a: NodeId, b: NodeId) returns (m: NodeId)
    requires Reaches(edges, a, b) && a != b
    ensures Reaches(edges, a, m) && Arc(edges, m, b)
  {
    var p :| IsPath(edges, p) && p[0] == a && p[|p| - 1] == b;
    m := p[|p| - 2];
    var q := p[..|p| - 1];
    assert IsPath(edges, q) && q[0] == a && q[|q| - 1] == m;
  }

  lemma ReachesTrans(edges: seq<Edge>, a: NodeId, b: NodeId, c: NodeId)
    requires Reaches(edges, a, b) && Reaches(edges, b, c)
    ensures Reaches(edges, a, c)
  {
    var p :| IsPath(edges, p) && p[0] == a && p[|p| - 1] == b;
    var q :| IsPath(edges, q) && q[0] == b && q[|q| - 1] == c;
    var r := p + q[1..];
    forall i | 0 <= i < |r| - 1 ensures Arc(edges, r[i], r[i + 1]) {
      if i < |p| - 1 {
        assert Arc(edges, p[i], p[i + 1]);
      } else {
        assert Arc(edges, q[i - |p| + 1], q[i - |p| + 2]);
      }
    }
    assert r[|r| - 1] == c;
  }

  lemma ArcReaches(edges: seq<Edge>, a: NodeId, b: NodeId)
    requires Arc(edges, a, b)
    ensures Reaches(edges, a, b)
  {
    ReachesSelf(edges, a);
    ReachesFurther(edges, a, a, b);
  }

  /** The datasets behind a ciphertext are those it was encrypted from. */
  lemma DatasetsBehindCiphertext(history: seq<Record>, dataset: Id, ciphertext: Id)
    ensures Reaches(Run(history).edges, NodeId(Dataset, dataset), NodeId(Ciphertext, ciphertext))
       <==> Encrypted(history, dataset, ciphertext)
  {
    hide Run, Reaches, Arc, Encrypted;
    var edges, d, c := Run(history).edges, NodeId(Dataset, dataset), NodeId(Ciphertext, ciphertext);
    ArcsByCalls(history, d, c);
    if Reaches(edges, d, c) {
      var m := LastArc(edges, d, c);
      ArcsByCalls(history, m, c);
      SameRankReach(history, d, m);
    }
    if Arc(edges, d, c) { ArcReaches(edges, d, c); }
  }

  /** Between nodes of one rank only a node itself reaches it. */
  lemma SameRankReach(history: seq<Record>, a: NodeId, b: NodeId)
    requires Reaches(Run(history).edges, a, b) && Rank(a.kind) == Rank(b.kind)
    ensures a == b
  {
    RunKeeps(history);
    var p :| IsPath(Run(history).edges, p) && p[0] == a && p[|p| - 1] == b;
    PathClimbs(Run(history), p);
  }

  /** The results behind a release are those whose decryption was asked for under a request the release answers. */
  lemma ResultsBehindRelease(history: seq<Record>, result: Id, release: Id)
    ensures Reaches(Run(history).edges, NodeId(Outcome, result), NodeId(Released, release))
       <==> exists q :: Asked(history, result, q) && Answered(history, q, release)
  {
    hide Run, Reaches, Arc, Asked, Answered;
    var edges, r, l := Run(history).edges, NodeId(Outcome, result), NodeId(Released, release);
    if Reaches(edges, r, l) {
      var m := LastArc(edges, r, l);
      ArcsByCalls(history, m, l);
      var n := LastArc(edges, r, m);
      ArcsByCalls(history, n, m);
      SameRankReach(history, r, n);
      assert Asked(history, result, m.ref) && Answered(history, m.ref, release);
    }
    if q :| Asked(history, result, q) && Answered(history, q, release) {
      var m := NodeId(DecryptRequest, q);
      ArcsByCalls(history, r, m);
      ArcsByCalls(history, m, l);
      ArcReaches(edges, r, m);
      ReachesFurther(edges, r, m, l);
    }
  }

  /** One chain of calls from the dataset to the release. */
  ghost predicate Disclosed(history: seq<Record>, dataset: Id, release: Id, ciphertext: Id, result: Id, request: Id) {
    && Encrypted(history, dataset, ciphertext)
    && (exists i: nat, j: nat :: SharedProgram(history, ciphertext, result, i, j))
    && Asked(history, result, request) && Answered(history, request, release)
  }

  /**
    End to end: a dataset is behind a release exactly when it was encrypted into a ciphertext that some run of a program
    took as input, that program produced a result, and the decryption of that result was asked for and answered by the
    release.
   */
  lemma DatasetsBehindRelease(history: seq<Record>, dataset: Id, release: Id)
    ensures Reaches(Run(history).edges, NodeId(Dataset, dataset), NodeId(Released, release))
       <==> exists c, r, q :: Disclosed(history, dataset, release, c, r, q)
  {
    hide Run, Reaches, Arc, Asked, Answered, Encrypted, SharedProgram;
    var edges, d, l := Run(history).edges, NodeId(Dataset, dataset), NodeId(Released, release);
    if Reaches(edges, d, l) {
      var q := LastArc(edges, d, l);
      ArcsByCalls(history, q, l);
      var r := LastArc(edges, d, q);
      ArcsByCalls(history, r, q);
      var c := CiphertextBetween(history, dataset, r.ref);
      DatasetsBehindCiphertext(history, dataset, c);
      InputsBehindResult(history, c, r.ref);
      assert Disclosed(history, dataset, release, c, r.ref, q.ref);
    }
    if c, r, q :| Disclosed(history, dataset, release, c, r, q) {
      DatasetsBehindCiphertext(history, dataset, c);
      InputsBehindResult(history, c, r);
      ResultsBehindRelease(history, r, release);
      ReachesTrans(edges, d, NodeId(Ciphertext, c), NodeId(Outcome, r));
      ReachesTrans(edges, d, NodeId(Outcome, r), l);
    }
  }

  /** Every chain from a dataset to a result passes a ciphertext. */
  lemma CiphertextBetween(history: seq<Record>, dataset: Id, result: Id) returns (c: Id)
    requires Reaches(Run(history).edges, NodeId(Dataset, dataset), NodeId(Outcome, result))
    ensures Reaches(Run(history).edges, NodeId(Dataset, dataset), NodeId(Ciphertext, c))
    ensures Reaches(Run(history).edges, NodeId(Ciphertext, c), NodeId(Outcome, result))
  {
    var g, d, r := Run(history), NodeId(Dataset, dataset), NodeId(Outcome, result);
    hide Run;
    RunKeeps(history);
    var p: seq<NodeId> :| IsPath(g.edges, p) && p[0] == d && p[|p| - 1] == r;
    PathClimbs(g, p);
    assert |p| == 4 && Arc(g.edges, p[0], p[1]) && Arc(g.edges, p[1], p[2]) && Arc(g.edges, p[2], p[3]);
    ArcSteps(g, p[0], p[1]);
    c := p[1].ref;
    ArcReaches(g.edges, p[0], p[1]);
    ArcReaches(g.edges, p[1], p[2]);
    ReachesFurther(g.edges, p[1], p[2], p[3]);
  }

  lemma ArcSteps(g: Graph, a: NodeId, b: NodeId)
    requires WellFormed(g) && Arc(g.edges, a, b)
    ensures Rank(b.kind) == Rank(a.kind) + 1
  {
  }

  /** Two runs of one program: the second run's input shows up behind the first run's result. */
  lemma TraceOverApproximates(program: Id, version: Id, hash: Id, lineage: Id, c1: Id, c2: Id, r1: Id, r2: Id)
    requires c1 != c2 && r1 != r2
    ensures var history := [RecordResult([c1], program, version, r1, hash, lineage),
                            RecordResult([c2], program, version, r2, hash, lineage)];
            Reaches(Run(history).edges, NodeId(Ciphertext, c2), NodeId(Outcome, r1))
  {
    var history := [RecordResult([c1], program, version, r1, hash, lineage),
                    RecordResult([c2], program, version, r2, hash, lineage)];
    assert c2 in history[1].parents;
    SharedReaches(history, c2, r1, 0, 1);
  }

  // ---------------------------------------------------------------------------
  // Node merging
  // ---------------------------------------------------------------------------

  /** `ns[k]` is the earliest of the richest records of its id. */
  ghost predicate FirstRichest(ns: seq<Node>, k: nat) {
    && k < |ns|
    && (forall i | 0 <= i < |ns| && ns[i].id == ns[k].id :: !ns[i].RicherThan(ns[k]))
    && (forall i | 0 <= i < k && ns[i].id == ns[k].id :: ns[k].RicherThan(ns[i]))
  }

  lemma RichestExtends(ns: seq<Node>, k: nat)
    requires ns != [] && FirstRichest(ns[..|ns| - 1], k)
    requires ns[|ns| - 1].id == ns[k].id ==> !ns[|ns| - 1].RicherThan(ns[k])
    ensures FirstRichest(ns, k)
  {
    assert forall i | 0 <= i < |ns| - 1 :: ns[i] == ns[..|ns| - 1][i];
  }

  lemma RichestReplaced(ns: seq<Node>, k: nat)
    requires ns != [] && FirstRichest(ns[..|ns| - 1], k)
    requires ns[|ns| - 1].id == ns[k].id && ns[|ns| - 1].RicherThan(ns[k])
    ensures FirstRichest(ns, |ns| - 1)
  {
    assert forall i | 0 <= i < |ns| - 1 :: ns[i] == ns[..|ns| - 1][i];
  }

  /** Merging keeps the earliest richest record of every id, whatever the order of the calls. */
  lemma {:induction false} MergeKeepsFirstRichest(ns: seq<Node>, id: NodeId)
    ensures id in AddNodes(map[], ns) <==> exists k | 0 <= k < |ns| :: ns[k].id == id
    ensures id in AddNodes(map[], ns) ==> Kept(ns, AddNodes(map[], ns)[id], id)
  {
    if ns != [] {
      var init, n := ns[..|ns| - 1], ns[|ns| - 1];
      var was := AddNodes(map[], init);
      MergeKeepsFirstRichest(init, id);
      assert ns == init + [n];
      if id in was {
        var k: nat :| FirstRichest(init, k) && init[k].id == id && was[id] == init[k];
        assert ns[k] == init[k];
        if n.id == id && n.RicherThan(was[id]) {
          RichestReplaced(ns, k);
        } else {
          RichestExtends(ns, k);
        }
      } else if n.id == id {
        assert forall i | 0 <= i < |init| :: ns[i] == init[i] && init[i].id != id;
        assert FirstRichest(ns, |init|);
      }
    }
  }

  /** Every node named by the calls of a history, in order. */
  function AllNodes(history: seq<Record>): seq<Node> {
    if history == [] then [] else AllNodes(history[..|history| - 1]) + NodesOf(history[|history| - 1])
  }

  lemma {:induction false} AddNodesConcat(nodes: map<NodeId, Node>, a: seq<Node>, b: seq<Node>)
    ensures AddNodes(nodes, a + b) == AddNodes(AddNodes(nodes, a), b)
  {
    if b == [] {
      assert a + b == a;
    } else {
      AddNodesConcat(nodes, a, b[..|b| - 1]);
      assert (a + b)[..|a + b| - 1] == a + b[..|b| - 1];
    }
  }

  lemma NextNodes(history: seq<Record>)
    requires history != []
    ensures Run(history).nodes == AddNodes(Run(history[..|history| - 1]).nodes, NodesOf(history[|history| - 1]))
    ensures AllNodes(history) == AllNodes(history[..|history| - 1]) + NodesOf(history[|history| - 1])
  {
    hide NodesOf, AddNodes, EdgesOf, AddEdges;
  }

  lemma {:induction false} RunNodes(history: seq<Record>)
    ensures Run(history).nodes == AddNodes(map[], AllNodes(history))
  {
    if history == [] {
      assert AddNodes(map[], []) == map[];
    } else {
      var init, rec := history[..|history| - 1], history[|history| - 1];
      RunNodes(init);
      AddNodesConcat(map[], AllNodes(init), NodesOf(rec));
      NextNodes(history);
    }
    hide *;
  }

  /** After every history a node is recorded iff some call named it, and the earliest richest of its records is kept. */
  lemma RunKeepsFirstRichest(history: seq<Record>, id: NodeId)
    ensures id in Run(history).nodes <==> exists k | 0 <= k < |AllNodes(history)| :: AllNodes(history)[k].id == id
    ensures id in Run(history).nodes ==> Kept(AllNodes(history), Run(history).nodes[id], id)
  {
    RunNodes(history);
    MergeKeepsFirstRichest(AllNodes(history), id);
    hide AddNodes, AllNodes, Run, FirstRichest;
  }

  /** `kept` is the earliest richest of the records of `id`. */
  ghost predicate Kept(ns: seq<Node>, kept: Node, id: NodeId) {
    exists k: nat :: FirstRichest(ns, k) && ns[k].id == id && kept == ns[k]
  }

  // ---------------------------------------------------------------------------
  // Which metadata is kept
  // ---------------------------------------------------------------------------

  /** The full record a call makes of an object, as opposed to a bare reference to it. */
  function Own(rec: Record, id: NodeId): Option<Node> {
    match rec
    case RecordCiphertext(_, c, h, k, x, e) =>
      if id != NodeId(Ciphertext, c) then None
      else Some(Node(id, Some(h), map[Classification := Text(k), ContextId := Text(x), KeyEpoch := Number(e)]))
    case RecordResult(_, p, v, r, h, l) =>
      if id == NodeId(Program, p) then Some(Node(id, None, map[Version := Text(v)]))
      else if id == NodeId(Outcome, r) then Some(Node(id, Some(h), map[LineageId := Text(l)]))
      else None
    case RecordDecrypt(_, q, u, w) =>
      if id != NodeId(DecryptRequest, q) then None
      else Some(Node(id, None, map[Requester := Text(u), Purpose := Text(w)]))
    case RecordRelease(_, l, u, h, None) =>
      if id != NodeId(Released, l) then None else Some(Node(id, h, map[Recipient := Text(u)]))
    case RecordRelease(_, l, u, h, Some(a)) =>
      if id != NodeId(Released, l) then None
      else Some(Node(id, h, map[Recipient := Text(u), ApprovalId := Text(a)]))
  }

  /** A call adds its own record of an object and bare references, nothing else. */
  lemma OwnOrBare(rec: Record, id: NodeId)
    ensures forall k | 0 <= k < |NodesOf(rec)| && NodesOf(rec)[k].id == id ::
              NodesOf(rec)[k] == Bare(id) || Some(NodesOf(rec)[k]) == Own(rec, id)
    ensures Own(rec, id).Some? ==> Own(rec, id).value in NodesOf(rec) && Own(rec, id).value.id == id
    ensures Own(rec, id).Some? ==> Own(rec, id).value.RicherThan(Bare(id))
  {
    var ns := NodesOf(rec);
    match rec
    case RecordResult(ps, p, v, r, h, l) =>
      assert ns[0] == ProgramNode(p, v) && ns[|ps| + 1] == OutcomeNode(r, h, l);
      assert forall k | 0 < k <= |ps| :: ns[k] == Inputs(ps)[k - 1];
    case RecordCiphertext(d, c, h, k, x, e) =>
      assert ns[1] == CiphertextNode(c, h, k, x, e);
    case RecordDecrypt(r, q, u, w) =>
      assert ns[1] == RequestNode(q, u, w);
    case RecordRelease(q, l, u, h, a) =>
      assert ns[1] == ReleaseNode(l, u, h, a);
      var m := map[Recipient := Text(u)];
      if a.Some? { assert m[ApprovalId := Text(a.value)] == map[Recipient := Text(u), ApprovalId := Text(a.value)]; }
  }

  /** Merging one full record and bare references of `id`. */
  lemma {:induction false} AddOwn(nodes: map<NodeId, Node>, ns: seq<Node>, id: NodeId, full: Node)
    requires full.id == id && full.RicherThan(Bare(id))
    requires forall k | 0 <= k < |ns| && ns[k].id == id :: ns[k] == Bare(id) || ns[k] == full
    ensures var after := AddNodes(nodes, ns);
            && (full in ns ==> id in after && after[id] == if id !in nodes || full.RicherThan(nodes[id]) then full
                                                           else nodes[id])
            && (full !in ns ==> id in after ==> after[id] == if id in nodes then nodes[id] else Bare(id))
  {
    if ns != [] {
      var init, n := ns[..|ns| - 1], ns[|ns| - 1];
      AddOwn(nodes, init, id, full);
      AddNodesNames(nodes, init);
      assert ns == init + [n];
    }
  }

  /** Call `i` makes the earliest of the richest records of the object. */
  ghost predicate Prevails(history: seq<Record>, id: NodeId, i: nat) {
    && i < |history| && Own(history[i], id).Some?
    && forall j | 0 <= j < |history| && Own(history[j], id).Some? ::
         && !Own(history[j], id).value.RicherThan(Own(history[i], id).value)
         && (j < i ==> Own(history[i], id).value.RicherThan(Own(history[j], id).value))
  }

  lemma PrevailsStill(history: seq<Record>, id: NodeId, i: nat)
    requires history != [] && Prevails(history[..|history| - 1], id, i)
    requires var own := Own(history[|history| - 1], id);
             own.Some? ==> !own.value.RicherThan(Own(history[i], id).value)
    ensures Prevails(history, id, i)
  {
    hide Own;
    var init := history[..|history| - 1];
    assert forall j | 0 <= j < |init| :: history[j] == init[j];
  }

  lemma PrevailsNow(history: seq<Record>, id: NodeId, i: nat)
    requires history != [] && Prevails(history[..|history| - 1], id, i) && Own(history[|history| - 1], id).Some?
    requires Own(history[|history| - 1], id).value.RicherThan(Own(history[i], id).value)
    ensures Prevails(history, id, |history| - 1)
  {
    hide Own;
    var init := history[..|history| - 1];
    assert forall j | 0 <= j < |init| :: history[j] == init[j];
  }

  /** How the last call of a history changes the record of an object. */
  lemma LastCallKeeps(history: seq<Record>, id: NodeId)
    requires history != [] && id in Run(history).nodes
    ensures var was, own := Run(history[..|history| - 1]).nodes, Own(history[|history| - 1], id);
            Run(history).nodes[id] ==
            if id !in was then (if own.Some? then own.value else Bare(id))
            else if own.Some? && own.value.RicherThan(was[id]) then own.value else was[id]
  {
    hide Run, NodesOf, AddNodes, Own, AllNodes;
    var rec, was := history[|history| - 1], Run(history[..|history| - 1]).nodes;
    OwnOrBare(rec, id);
    NextNodes(history);
    if Own(rec, id).Some? {
      AddOwn(was, NodesOf(rec), id, Own(rec, id).value);
    } else {
      AddBare(was, NodesOf(rec), id);
    }
  }

  ghost predicate Undescribed(history: seq<Record>, id: NodeId) {
    forall j | 0 <= j < |history| :: Own(history[j], id).None?
  }

  lemma FirstPrevails(history: seq<Record>, id: NodeId)
    requires history != [] && Undescribed(history[..|history| - 1], id) && Own(history[|history| - 1], id).Some?
    ensures Prevails(history, id, |history| - 1)
  {
    hide Own;
    var init := history[..|history| - 1];
    assert forall j | 0 <= j < |init| :: history[j] == init[j];
  }

  lemma StillUndescribed(history: seq<Record>, id: NodeId)
    requires history != [] && Undescribed(history[..|history| - 1], id) && Own(history[|history| - 1], id).None?
    ensures Undescribed(history, id)
  {
    hide Own;
    var init := history[..|history| - 1];
    assert forall j | 0 <= j < |init| :: history[j] == init[j];
  }

  lemma DescribedIsRich(rec: Record, id: NodeId)
    requires Own(rec, id).Some?
    ensures Own(rec, id).value.RicherThan(Bare(id))
  {
  }

  /**
    After every history the record of an object is exactly what the prevailing call said of it, field by field; an
    object that no call described is a bare reference.
   */
  lemma {:induction false} MetadataKept(history: seq<Record>, id: NodeId)
    requires id in Run(history).nodes
    ensures || (exists i: nat :: Prevails(history, id, i) && Some(Run(history).nodes[id]) == Own(history[i], id))
            || (Undescribed(history, id) && Run(history).nodes[id] == Bare(id))
  {
    assert history != [];
    var init, rec := history[..|history| - 1], history[|history| - 1];
    hide Run, NodesOf, AddNodes, Own, AllNodes, Prevails, Undescribed;
    LastCallKeeps(history, id);
    var was := Run(init).nodes;
    if id !in was {
      NeverNamed(init, id);
      if Own(rec, id).Some? { FirstPrevails(history, id); } else { StillUndescribed(history, id); }
    } else {
      MetadataKept(init, id);
      if i: nat :| Prevails(init, id, i) && Some(was[id]) == Own(init[i], id) {
        PrevailsInRange(init, id, i);
        if Own(rec, id).Some? && Own(rec, id).value.RicherThan(was[id]) {
          PrevailsNow(history, id, i);
        } else {
          PrevailsStill(history, id, i);
        }
      } else if Own(rec, id).Some? {
        DescribedIsRich(rec, id);
        FirstPrevails(history, id);
      } else {
        StillUndescribed(history, id);
      }
    }
  }

  lemma PrevailsInRange(history: seq<Record>, id: NodeId, i: nat)
    requires Prevails(history, id, i)
    ensures i < |history| && Own(history[i], id).Some?
  {
  }

  lemma {:induction false} AddBare(nodes: map<NodeId, Node>, ns: seq<Node>, id: NodeId)
    requires forall k | 0 <= k < |ns| && ns[k].id == id :: ns[k] == Bare(id)
    ensures id in AddNodes(nodes, ns) ==> AddNodes(nodes, ns)[id] == if id in nodes then nodes[id] else Bare(id)
  {
    if ns != [] {
      AddBare(nodes, ns[..|ns| - 1], id);
      AddNodesNames(nodes, ns[..|ns| - 1]);
    }
  }

  /** An object that is not recorded was described by no call. */
  lemma {:induction false} NeverNamed(history: seq<Record>, id: NodeId)
    requires id !in Run(history).nodes
    ensures Undescribed(history, id)
  {
    hide Run, NodesOf, AddNodes, Own, AllNodes;
    if history != [] {
      var init, rec := history[..|history| - 1], history[|history| - 1];
      NextNodes(history);
      AddNodesNames(Run(init).nodes, NodesOf(rec));
      NeverNamed(init, id);
      OwnOrBare(rec, id);
      StillUndescribed(history, id);
    }
  }

  /** Except for releases, the first call that describes an object decides its record for good. */
  lemma FirstDescriptionWins(history: seq<Record>, id: NodeId, i: nat)
    requires i < |history| && id.kind != Released && Own(history[i], id).Some? && Undescribed(history[..i], id)
    ensures id in Run(history).nodes && Some(Run(history).nodes[id]) == Own(history[i], id)
  {
    hide Run, Own;
    if id !in Run(history).nodes { NeverNamed(history, id); }
    MetadataKept(history, id);
    var k: nat :| Prevails(history, id, k) && Some(Run(history).nodes[id]) == Own(history[k], id);
    assert forall j | 0 <= j < i :: history[j] == history[..i][j];
    EquallyRich(history[k], history[i], id);
  }

  lemma EquallyRich(a: Record, b: Record, id: NodeId)
    requires id.kind != Released && Own(a, id).Some? && Own(b, id).Some?
    ensures !Own(a, id).value.RicherThan(Own(b, id).value)
  {
  }

  lemma {:induction false} UnnamedUntouched(nodes: map<NodeId, Node>, ns: seq<Node>, id: NodeId)
    requires id in nodes
    requires forall k | 0 <= k < |ns| && ns[k].id == id :: !ns[k].RicherThan(nodes[id])
    ensures id in AddNodes(nodes, ns) && AddNodes(nodes, ns)[id] == nodes[id]
  {
    if ns != [] {
      UnnamedUntouched(nodes, ns[..|ns| - 1], id);
    }
  }

  /**
    A record with a pinned hash is final, except for a release: it is replaced exactly when the same release is
    recorded again with a hash and, for the first time, an approval.
   */
  lemma PinnedRecordChangesIff(g: Graph, rec: Record, id: NodeId)
    requires WellFormed(g) && id in g.nodes && g.nodes[id].refHash.Some?
    ensures id in Apply(g, rec).nodes
    ensures Apply(g, rec).nodes[id] != g.nodes[id] <==>
              && rec.RecordRelease? && id == NodeId(Released, rec.release)
              && rec.released.Some? && rec.approval.Some? && ApprovalId !in g.nodes[id].attributes
  {
    var ns := NodesOf(rec);
    if k :| 0 <= k < |ns| && ns[k].id == id && ns[k].RicherThan(g.nodes[id]) {
      RecordsAreShaped(rec, k);
      assert rec.RecordRelease? && k == 1;
      TwoNodesOneEdge(g, rec);
    } else {
      UnnamedUntouched(g.nodes, ns, id);
      if rec.RecordRelease? && id == NodeId(Released, rec.release) {
        RecordsAreShaped(rec, 1);
        assert ns[1].id == id;
      }
    }
  }

  /** The exception is real: recording a release again with an approval replaces its pinned hash. */
  lemma ReleaseHashCanChange(request: Id, release: Id, recipient: Id, h1: Id, h2: Id, approval: Id)
    requires h1 != h2
    ensures var one := [RecordRelease(request, release, recipient, Some(h1), None)];
            var id := NodeId(Released, release);
            && id in Run(one).nodes && Run(one).nodes[id].refHash == Some(h1)
            && var two := one + [RecordRelease(request, release, recipient, Some(h2), Some(approval))];
            && id in Run(two).nodes && Run(two).nodes[id].refHash == Some(h2)
  {
    var first := RecordRelease(request, release, recipient, Some(h1), None);
    var second := RecordRelease(request, release, recipient, Some(h2), Some(approval));
    var id := NodeId(Released, release);
    assert [first][..0] == [] && [first, second][..1] == [first] && [first] + [second] == [first, second];
    TwoNodesOneEdge(EMPTY, first);
    TwoNodesOneEdge(Run([first]), second);
    assert Run([first]) == Apply(EMPTY, first) && Run([first, second]) == Apply(Run([first]), second);
    assert |map[Recipient := Text(recipient)][ApprovalId := Text(approval)]| == 2;
  }

  // ---------------------------------------------------------------------------
  // The graph object
  // ---------------------------------------------------------------------------

  /** The membership index holds exactly the recorded edges. */
  ghost predicate Mirrors(edges: seq<Edge>, edgeSet: set<Edge>) {
    edgeSet == set e | e in edges
  }

  class LineageGraph {
    var nodes: map<NodeId, Node>
    var edges: seq<Edge>
    var edgeSet: set<Edge>

    ghost function State(): Graph
      reads this
    {
      Graph(nodes, edges)
    }

    ghost predicate Valid()
      reads this
    {
      && WellFormed(State())
      && Mirrors(edges, edgeSet)
    }

    constructor ()
      ensures Valid() && State() == EMPTY
    {
      nodes, edges, edgeSet := map[], [], {};
    }

    method PutNode(n: Node) returns (id: NodeId)
      modifies this`nodes
      ensures id == n.id && nodes == AddNode(old(nodes), n)
    {
      if n.id !in nodes || n.RicherThan(nodes[n.id]) {
        nodes := nodes[n.id := n];
      }
      return n.id;
    }

    method PutEdge(src: NodeId, dst: NodeId, relation: Relation)
      requires Mirrors(edges, edgeSet)
      modifies this`edges, this`edgeSet
      ensures edges == AddEdge(old(edges), Edge(src, dst, relation)) && Mirrors(edges, edgeSet)
    {
      var e := Edge(src, dst, relation);
      if e in edgeSet { return; }
      edgeSet := edgeSet + {e};
      edges := edges + [e];
    }

    method PutCiphertext(dataset: Id, ciphertext: Id, hash: Id, classification: Id, context: Id, keyEpoch: int)
      returns (id: NodeId)
      requires Valid()
      modifies this
      ensures Valid() && id == NodeId(Ciphertext, ciphertext)
      ensures State()
          == Apply(old(State()), RecordCiphertext(dataset, ciphertext, hash, classification, context, keyEpoch))
    {
      ghost var rec := RecordCiphertext(dataset, ciphertext, hash, classification, context, keyEpoch);
      ApplyKeeps(State(), rec);
      TwoNodesOneEdge(State(), rec);
      hide WellFormed;
      var ds := PutNode(Bare(NodeId(Dataset, dataset)));
      id := PutNode(CiphertextNode(ciphertext, hash, classification, context, keyEpoch));
      PutEdge(ds, id, Encrypts);
    }

    /** The part of `PutResult` that records the input ciphertexts and links each to the program. */
    method PutInputs(parents: seq<Id>, prog: NodeId, ghost g: Graph, ghost rec: Record)
      requires rec.RecordResult? && rec.parents == parents && prog == NodeId(Program, rec.program)
      requires |NodesOf(rec)| == |parents| + 2 && |EdgesOf(rec)| == |parents| + 1
      requires nodes == AddNodes(g.nodes, NodesOf(rec)[..1]) && edges == g.edges && Mirrors(edges, edgeSet)
      modifies this
      ensures nodes == AddNodes(g.nodes, NodesOf(rec)[..|parents| + 1])
      ensures edges == AddEdges(g.edges, EdgesOf(rec)[..|parents|]) && Mirrors(edges, edgeSet)
    {
      ghost var ns, es := NodesOf(rec), EdgesOf(rec);
      ResultParts(rec);
      hide Mirrors, NodesOf, EdgesOf, AddNodes, AddEdges, AddNode, AddEdge;
      AddEdgesNext(g.edges, es, 0);
      var i := 0;
      while i < |parents|
        invariant 0 <= i <= |parents|
        invariant nodes == AddNodes(g.nodes, ns[..i + 1]) && edges == AddEdges(g.edges, es[..i])
        invariant Mirrors(edges, edgeSet)
      {
        AddNodesNext(g.nodes, ns, i + 1);
        AddEdgesNext(g.edges, es, i);
        var ct := PutNode(Bare(NodeId(Ciphertext, parents[i])));
        PutEdge(ct, prog, ComputedBy);
        i := i + 1;
      }
    }

    method PutResult(parents: seq<Id>, program: Id, version: Id, result: Id, hash: Id, lineage: Id)
      returns (id: NodeId)
      requires Valid()
      modifies this
      ensures Valid() && id == NodeId(Outcome, result)
      ensures State() == Apply(old(State()), RecordResult(parents, program, version, result, hash, lineage))
    {
      ghost var g, rec := State(), RecordResult(parents, program, version, result, hash, lineage);
      ghost var ns, es := NodesOf(rec), EdgesOf(rec);
      ApplyKeeps(g, rec);
      ResultParts(rec);
      hide WellFormed, Mirrors, NodesOf, EdgesOf, AddNodes, AddEdges, AddNode, AddEdge;
      var prog := PutNode(ProgramNode(program, version));
      AddNodesNext(g.nodes, ns, 0);
      PutInputs(parents, prog, g, rec);
      AddNodesNext(g.nodes, ns, |parents| + 1);
      AddEdgesNext(g.edges, es, |parents|);
      id := PutNode(OutcomeNode(result, hash, lineage));
      PutEdge(prog, id, Produces);
      assert ns[..|ns|] == ns && es[..|es|] == es;
    }

    method PutDecryptRequest(result: Id, request: Id, requester: Id, purpose: Id) returns (id: NodeId)
      requires Valid()
      modifies this
      ensures Valid() && id == NodeId(DecryptRequest, request)
      ensures State() == Apply(old(State()), RecordDecrypt(result, request, requester, purpose))
    {
      ApplyKeeps(State(), RecordDecrypt(result, request, requester, purpose));
      TwoNodesOneEdge(State(), RecordDecrypt(result, request, requester, purpose));
      hide WellFormed;
      var res := PutNode(Bare(NodeId(Outcome, result)));
      id := PutNode(RequestNode(request, requester, purpose));
      PutEdge(res, id, DecryptOf);
    }

    method PutRelease(request: Id, release: Id, recipient: Id, released: Option<Id>, approval: Option<Id>)
      returns (id: NodeId)
      requires Valid()
      modifies this
      ensures Valid() && id == NodeId(Released, release)
      ensures State() == Apply(old(State()), RecordRelease(request, release, recipient, released, approval))
    {
      ApplyKeeps(State(), RecordRelease(request, release, recipient, released, approval));
      TwoNodesOneEdge(State(), RecordRelease(request, release, recipient, released, approval));
      hide WellFormed;
      var req := PutNode(Bare(NodeId(DecryptRequest, request)));
      id := PutNode(ReleaseNode(release, recipient, released, approval));
      PutEdge(req, id, Releases);
    }

    /** The ancestors of a recorded node, roots first and the node last; nothing for an unrecorded node. */
    method Trace(nid: NodeId) returns (trace: seq<Node>, ghost order: seq<NodeId>)
      requires Valid()
      ensures nid !in nodes ==> trace == []
      ensures nid in nodes ==> TraceOf(State(), nid, order) && |trace| == |order|
      ensures nid in nodes ==> forall i | 0 <= i < |order| :: order[i] in nodes && trace[i] == nodes[order[i]]
    {
      ghost var g := State();
      var parents := IndexParents();
      var seen: set<NodeId>, visited: seq<NodeId> := {}, [];
      seen, visited := Visit(parents, nid, seen, visited, g);
      order := visited;
      TraceExact(g, nid, seen, order);
      forall a | a in order ensures nid in nodes ==> a in nodes
                            ensures nid !in nodes ==> a == nid
      {
        if nid in nodes || a != nid { AncestorsRecorded(g, a, nid); }
      }
      hide TraceOf, WellFormed;
      trace := [];
      var i := 0;
      while i < |visited|
        invariant 0 <= i <= |visited|
        invariant nid !in nodes ==> trace == []
        invariant nid in nodes ==>
            |trace| == i && forall k | 0 <= k < i :: visited[k] in nodes && trace[k] == nodes[visited[k]]
      {
        assert visited[i] in order;
        if visited[i] in nodes {
          trace := trace + [nodes[visited[i]]];
        }
        i := i + 1;
      }
    }

    method IndexParents() returns (parents: map<NodeId, seq<NodeId>>)
      ensures Indexes(parents, edges)
    {
      parents := map[];
      var i := 0;
      while i < |edges|
        invariant 0 <= i <= |edges| && Indexes(parents, edges[..i])
      {
        var e := edges[i];
        assert edges[..i + 1] == edges[..i] + [e];
        IndexStep(parents, edges[..i], e);
        parents := parents[e.dst := (if e.dst in parents then parents[e.dst] else []) + [e.src]];
        i := i + 1;
      }
      assert edges[..|edges|] == edges;
    }
  }

  lemma IndexStep(parents: map<NodeId, seq<NodeId>>, edges: seq<Edge>, e: Edge)
    requires Indexes(parents, edges)
    ensures Indexes(parents[e.dst := (if e.dst in parents then parents[e.dst] else []) + [e.src]], edges + [e])
  {
    forall a, n ensures Arc(edges + [e], a, n) <==> Arc(edges, a, n) || (a == e.src && n == e.dst) {
      if Arc(edges, a, n) {
        var f :| f in edges && f.src == a && f.dst == n;
        assert f in edges + [e];
      }
      assert e in edges + [e];
    }
  }

  lemma ResultParts(rec: Record)
    requires rec.RecordResult?
    ensures var ns, es, n := NodesOf(rec), EdgesOf(rec), |rec.parents|;
            && |ns| == n + 2 && |es| == n + 1
            && ns[0] == ProgramNode(rec.program, rec.version)
               && ns[n + 1] == OutcomeNode(rec.result, rec.hash, rec.lineage)
            && (forall i | 0 <= i < n :: ns[i + 1] == Bare(NodeId(Ciphertext, rec.parents[i])))
            && (forall i | 0 <= i < n ::
               es[i] == Edge(NodeId(Ciphertext, rec.parents[i]), NodeId(Program, rec.program), ComputedBy))
            && es[n] == Edge(NodeId(Program, rec.program), NodeId(Outcome, rec.result), Produces)
  {
  }

  lemma AddNodesNext(nodes: map<NodeId, Node>, ns: seq<Node>, k: nat)
    requires k < |ns|
    ensures AddNodes(nodes, ns[..k + 1]) == AddNode(AddNodes(nodes, ns[..k]), ns[k])
    ensures AddNodes(nodes, ns[..0]) == nodes
  {
    assert ns[..k + 1][..k] == ns[..k];
  }

  lemma AddEdgesNext(edges: seq<Edge>, es: seq<Edge>, k: nat)
    requires k < |es|
    ensures AddEdges(edges, es[..k + 1]) == AddEdge(AddEdges(edges, es[..k]), es[k])
    ensures AddEdges(edges, es[..0]) == edges
  {
    assert es[..k + 1][..k] == es[..k];
  }

  lemma TwoNodesOneEdge(g: Graph, rec: Record)
    requires !rec.RecordResult?
    ensures |NodesOf(rec)| == 2 && |EdgesOf(rec)| == 1
    ensures Apply(g, rec).nodes == AddNode(AddNode(g.nodes, NodesOf(rec)[0]), NodesOf(rec)[1])
    ensures Apply(g, rec).edges == AddEdge(g.edges, EdgesOf(rec)[0])
  {
    var ns, es := NodesOf(rec), EdgesOf(rec);
    AddTwo(g.nodes, ns[0], ns[1]);
    assert ns == [ns[0], ns[1]] && es == [es[0]] && es[..0] == [];
    assert AddEdges(g.edges, es[..0]) == g.edges;
  }

  lemma AddTwo(nodes: map<NodeId, Node>, a: Node, b: Node)
    ensures AddNodes(nodes, [a, b]) == AddNode(AddNode(nodes, a), b)
  {
    assert [a, b][..1] == [a] && [a][..0] == [];
    assert AddNodes(nodes, [a][..0]) == nodes;
    assert AddNodes(nodes, [a]) == AddNode(nodes, a);
  }
}
