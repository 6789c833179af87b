/** How many sub-tasks a batched node splits into. The count of a node that takes its batch from
    another node's outputs is computed by recursion along those edges. */
module BatchCount {
  import opened Basics
  import opened WorkflowModel

  /** `TooDeep`: the recursion is still going after the given number of levels. */
  datatype Counted = Count(n: nat) | Stuck | TooDeep

  /** `sub_node_count`, with its depth of recursion bounded. */
  function SubNodeCount(inst: Instance, id: Uuid, depth: nat): Counted
    decreases depth, 1, 0
  {
    var node := Find(inst.nodes, SpecId, id);
    if node.None? then Stuck else Fold(inst, node.value, node.value.strategies, depth)
  }

  function Fold(inst: Instance, node: NodeSpec, bs: seq<BatchStrategy>, depth: nat): Counted
    decreases depth, 0, |bs|
  {
    if bs == [] then Count(1)
    else
      var factor := Factor(inst, node, bs[0], depth);
      if !factor.Count? then factor
      else
        var rest := Fold(inst, node, bs[1..], depth);
        if !rest.Count? then rest else Count(factor.n * rest.n)
  }

  function Factor(inst: Instance, node: NodeSpec, b: BatchStrategy, depth: nat): Counted
    decreases depth, 0, 0
  {
    match b.kind
    case MatchRegex(fillCount) => Count(fillCount)
    case OriginalBatch =>
      var slot := Find(node.inputs, InputName, b.slot);
      if slot.None? || !InputsCount<()>(slot.value).Done? then Stuck else Count(InputsCount<()>(slot.value).value)
    case FromBatchOutputs =>
      var from := BatchSource(inst, node, b);
      if from.None? then Stuck else if depth == 0 then TooDeep else SubNodeCount(inst, from.value, depth - 1)
  }

  /** The node a strategy takes its batch from: the first that feeds the slot. */
  function BatchSource(inst: Instance, node: NodeSpec, b: BatchStrategy): Option<Uuid> {
    var r := FirstFeeding(DependenciesOf(inst.relations, node.id), b.slot);
    if r.None? then None else Some(r.value.fromId)
  }

  /** It is the upstream node of the first relation that feeds this very node at that slot; with no such
      relation there is none. */
  lemma SourceIsFirst(inst: Instance, node: NodeSpec, b: BatchStrategy, i: nat)
    requires i < |inst.relations| && inst.relations[i].toId == node.id && Feeds(inst.relations[i], b.slot)
    requires forall j :: 0 <= j < i ==> !(inst.relations[j].toId == node.id && Feeds(inst.relations[j], b.slot))
    ensures BatchSource(inst, node, b) == Some(inst.relations[i].fromId)
  {
    DependencyIsFirst(inst.relations, node.id, b.slot, i);
  }

  lemma NoSource(inst: Instance, node: NodeSpec, b: BatchStrategy)
    requires forall r :: r in inst.relations && r.toId == node.id ==> !Feeds(r, b.slot)
    ensures BatchSource(inst, node, b) == None
  {
  }

  // ---------------------------------------------------------------- the graph of batch sources

  /** Every lookup the count unwraps is there. */
  ghost predicate Resolved(inst: Instance) {
    forall n, b :: n in inst.nodes && b in n.strategies ==> ResolvedStrategy(inst, n, b)
  }

  ghost predicate ResolvedStrategy(inst: Instance, n: NodeSpec, b: BatchStrategy) {
    match b.kind
    case MatchRegex(_) => true
    case OriginalBatch =>
      var slot := Find(n.inputs, InputName, b.slot);
      slot.Some? && InputsCount<()>(slot.value).Done?
    case FromBatchOutputs =>
      var from := BatchSource(inst, n, b);
      from.Some? && Find(inst.nodes, SpecId, from.value).Some?
  }

  /** Node `a` takes a batch from node `b`. */
  ghost predicate Edge(inst: Instance, a: Uuid, b: Uuid) {
    var n := Find(inst.nodes, SpecId, a);
    && n.Some?
    && exists s :: s in n.value.strategies && s.kind == FromBatchOutputs && BatchSource(inst, n.value, s) == Some(b)
  }

  ghost predicate Path(inst: Instance, p: seq<Uuid>) {
    p != [] && forall k :: 0 <= k < |p| - 1 ==> Edge(inst, p[k], p[k + 1])
  }

  ghost predicate Acyclic(inst: Instance) {
    forall p :: Path(inst, p) && |p| >= 2 ==> p[0] != p[|p| - 1]
  }

  /** Some path from the node comes back to a node it has visited. */
  ghost predicate ReachesCycle(inst: Instance, id: Uuid) {
    exists p, i, j :: Path(inst, p) && p[0] == id && 0 <= i < j < |p| && p[i] == p[j]
  }

  /** More depth changes nothing once the recursion has ended, with a count or stuck. */
  lemma {:induction false} DeeperIsSame(inst: Instance, id: Uuid, depth: nat, more: nat)
    requires SubNodeCount(inst, id, depth) != TooDeep && depth <= more
    ensures SubNodeCount(inst, id, more) == SubNodeCount(inst, id, depth)
    decreases depth, 1, 0
  {
    var node := Find(inst.nodes, SpecId, id);
    if node.Some? { DeeperFold(inst, node.value, node.value.strategies, depth, more); }
  }

  lemma {:induction false} DeeperFold(inst: Instance, n: NodeSpec, bs: seq<BatchStrategy>, depth: nat, more: nat)
    requires Fold(inst, n, bs, depth) != TooDeep && depth <= more
    ensures Fold(inst, n, bs, more) == Fold(inst, n, bs, depth)
    decreases depth, 0, |bs|
  {
    if bs != [] {
      DeeperFactor(inst, n, bs[0], depth, more);
      if Factor(inst, n, bs[0], depth).Count? { DeeperFold(inst, n, bs[1..], depth, more); }
    }
  }

  lemma {:induction false} DeeperFactor(inst: Instance, n: NodeSpec, b: BatchStrategy, depth: nat, more: nat)
    requires Factor(inst, n, b, depth) != TooDeep && depth <= more
    ensures Factor(inst, n, b, more) == Factor(inst, n, b, depth)
    decreases depth, 0, 0
  {
    if b.kind == FromBatchOutputs && BatchSource(inst, n, b).Some? {
      DeeperIsSame(inst, BatchSource(inst, n, b).value, depth - 1, more - 1);
    }
  }

  lemma {:induction false} NeverStuck(inst: Instance, id: Uuid, depth: nat)
    requires Resolved(inst) && Find(inst.nodes, SpecId, id).Some?
    ensures SubNodeCount(inst, id, depth) != Stuck
    decreases depth, 1, 0
  {
    var n := Find(inst.nodes, SpecId, id).value;
    FoldNeverStuck(inst, n, n.strategies, depth);
  }

  lemma {:induction false} FoldNeverStuck(inst: Instance, n: NodeSpec, bs: seq<BatchStrategy>, depth: nat)
    requires Resolved(inst) && forall b :: b in bs ==> ResolvedStrategy(inst, n, b)
    ensures Fold(inst, n, bs, depth) != Stuck
    decreases depth, 0, |bs|
  {
    if bs != [] {
      FoldNeverStuck(inst, n, bs[1..], depth);
      assert ResolvedStrategy(inst, n, bs[0]);
      if bs[0].kind == FromBatchOutputs && depth > 0 {
        NeverStuck(inst, BatchSource(inst, n, bs[0]).value, depth - 1);
      }
    }
  }

  /** One strategy decides the count of a node that has no other. */
  lemma OneStrategy(inst: Instance, n: NodeSpec, b: BatchStrategy, depth: nat)
    requires Find(inst.nodes, SpecId, n.id) == Some(n) && n.strategies == [b]
    ensures SubNodeCount(inst, n.id, depth) == Factor(inst, n, b, depth)
  {
    assert n.strategies[1..] == [];
    assert Fold(inst, n, n.strategies[1..], depth) == Count(1);
  }

  lemma OneSource(inst: Instance, n: NodeSpec, b: BatchStrategy, depth: nat)
    requires Find(inst.nodes, SpecId, n.id) == Some(n) && n.strategies == [b] && b.kind == FromBatchOutputs
    ensures var from := BatchSource(inst, n, b);
            SubNodeCount(inst, n.id, depth) ==
            if from.None? then Stuck else if depth == 0 then TooDeep else SubNodeCount(inst, from.value, depth - 1)
  {
    OneStrategy(inst, n, b, depth);
  }

  /** A count that came back resolved every lookup of its node. */
  lemma CountResolves(inst: Instance, id: Uuid, depth: nat)
    requires SubNodeCount(inst, id, depth).Count?
    ensures var n := Find(inst.nodes, SpecId, id);
            n.Some? && forall b :: b in n.value.strategies ==> ResolvedStrategy(inst, n.value, b)
  {
    var n := Find(inst.nodes, SpecId, id).value;
    FoldResolves(inst, n, n.strategies, depth);
  }

  lemma {:induction false} FoldResolves(inst: Instance, n: NodeSpec, bs: seq<BatchStrategy>, depth: nat)
    requires Fold(inst, n, bs, depth).Count?
    ensures forall b :: b in bs ==> ResolvedStrategy(inst, n, b)
  {
    if bs != [] {
      FoldResolves(inst, n, bs[1..], depth);
      assert Factor(inst, n, bs[0], depth).Count?;
      if bs[0].kind == FromBatchOutputs {
        assert SubNodeCount(inst, BatchSource(inst, n, bs[0]).value, depth - 1).Count?;
      }
    }
  }

  /** A recursion that is too deep has walked a path of batch sources. */
  lemma {:induction false} DeepWalk(inst: Instance, id: Uuid, depth: nat) returns (p: seq<Uuid>)
    requires SubNodeCount(inst, id, depth) == TooDeep
    ensures Path(inst, p) && p[0] == id && |p| == depth + 2
    decreases depth
  {
    var n := Find(inst.nodes, SpecId, id).value;
    var b := DeepFactor(inst, n, n.strategies, depth);
    var from := BatchSource(inst, n, b).value;
    if depth == 0 {
      p := [id, from];
    } else {
      var q := DeepWalk(inst, from, depth - 1);
      p := [id] + q;
      assert forall k :: 0 < k < |p| - 1 ==> p[k] == q[k - 1] && p[k + 1] == q[k];
    }
    assert Edge(inst, id, from);
  }

  lemma {:induction false} DeepFactor(inst: Instance, n: NodeSpec, bs: seq<BatchStrategy>, depth: nat)
    returns (b: BatchStrategy)
    requires Fold(inst, n, bs, depth) == TooDeep
    ensures b in bs && b.kind == FromBatchOutputs && Factor(inst, n, b, depth) == TooDeep
    ensures BatchSource(inst, n, b).Some?
  {
    if Factor(inst, n, bs[0], depth) == TooDeep {
      b := bs[0];
    } else {
      b := DeepFactor(inst, n, bs[1..], depth);
    }
  }

  /** A finished recursion of some depth has no longer path in front of it. */
  lemma {:induction false} FinishedBounds(inst: Instance, id: Uuid, depth: nat, p: seq<Uuid>)
    requires SubNodeCount(inst, id, depth).Count?
    requires Path(inst, p) && p[0] == id
    ensures |p| <= depth + 1
    decreases depth
  {
    if |p| > 1 {
      assert Edge(inst, p[0], p[1]);
      var n := Find(inst.nodes, SpecId, id).value;
      var s :| s in n.strategies && s.kind == FromBatchOutputs && BatchSource(inst, n, s) == Some(p[1]);
      FinishedFactor(inst, n, n.strategies, s, depth);
      forall k | 0 <= k < |p[1..]| - 1 ensures Edge(inst, p[1..][k], p[1..][k + 1]) {
        assert Edge(inst, p[k + 1], p[k + 2]);
      }
      FinishedBounds(inst, p[1], depth - 1, p[1..]);
    }
  }

  lemma {:induction false} FinishedFactor(inst: Instance, n: NodeSpec, bs: seq<BatchStrategy>, b: BatchStrategy,
                                          depth: nat)
    requires Fold(inst, n, bs, depth).Count? && b in bs
    ensures Factor(inst, n, b, depth).Count?
  {
    if b != bs[0] { FinishedFactor(inst, n, bs[1..], b, depth); }
  }

  // ---------------------------------------------------------------- termination

  function Visited(s: seq<Uuid>): set<Uuid> { set x | x in s }

  lemma {:induction false} DistinctSize(s: seq<Uuid>)
    requires Distinct(s)
    ensures |Visited(s)| == |s|
  {
    if s != [] {
      DistinctSize(s[1..]);
      assert s[0] !in s[1..] by {
        forall i | 0 <= i < |s[1..]| ensures s[1..][i] != s[0] { assert s[i + 1] != s[0]; }
      }
      assert Visited(s) == Visited(s[1..]) + {s[0]};
    }
  }

  lemma {:induction false} IdsSize(nodes: seq<NodeSpec>) returns (ids: set<Uuid>)
    ensures |ids| <= |nodes|
    ensures forall x :: Find(nodes, SpecId, x).Some? ==> x in ids
  {
    if nodes == [] {
      ids := {};
    } else {
      var rest := IdsSize(nodes[1..]);
      ids := rest + {nodes[0].id};
    }
  }

  lemma SubsetSize(a: set<Uuid>, b: set<Uuid>)
    requires a <= b
    ensures |a| <= |b|
  {
    assert b == a + (b - a);
  }

  /** A path longer than the graph has nodes visits some node twice. */
  lemma LongPathRepeats(inst: Instance, p: seq<Uuid>) returns (i: nat, j: nat)
    requires Path(inst, p) && |p| == |inst.nodes| + 2
    ensures i < j < |p| && p[i] == p[j]
  {
    var front := p[..|p| - 1];
    if Distinct(front) {
      DistinctSize(front);
      var ids := IdsSize(inst.nodes);
      forall x | x in Visited(front) ensures x in ids {
        var k :| 0 <= k < |front| && front[k] == x;
        assert Edge(inst, p[k], p[k + 1]);
      }
      SubsetSize(Visited(front), ids);
      assert false;
    } else {
      i, j :| 0 <= i < j < |front| && front[i] == front[j];
    }
  }

  lemma Segment(inst: Instance, p: seq<Uuid>, i: nat, j: nat)
    requires Path(inst, p) && i < j <= |p|
    ensures Path(inst, p[i..j])
  {
    forall k | 0 <= k < j - i - 1 ensures Edge(inst, p[i..j][k], p[i..j][k + 1]) {
      assert Edge(inst, p[i + k], p[i + k + 1]);
    }
  }

  lemma Joined(inst: Instance, p: seq<Uuid>, q: seq<Uuid>)
    requires Path(inst, p) && Path(inst, q) && Edge(inst, p[|p| - 1], q[0])
    ensures Path(inst, p + q)
  {
    var r := p + q;
    forall k | 0 <= k < |r| - 1 ensures Edge(inst, r[k], r[k + 1]) {
      if k < |p| - 1 {
        assert Edge(inst, p[k], p[k + 1]);
      } else if k >= |p| {
        assert Edge(inst, q[k - |p|], q[k - |p| + 1]);
      }
    }
  }

  /** A path that repeats a node can be made as long as one likes. */
  lemma {:induction false} Pump(inst: Instance, p: seq<Uuid>, i: nat, j: nat, length: nat) returns (q: seq<Uuid>)
    requires Path(inst, p) && i < j < |p| && p[i] == p[j]
    ensures Path(inst, q) && q[0] == p[0] && |q| >= length && q[|q| - 1] == p[j - 1]
  {
    Segment(inst, p, 0, j);
    if length == 0 {
      q := p[0..j];
    } else {
      var shorter := Pump(inst, p, i, j, length - 1);
      Segment(inst, p, i, j);
      assert Edge(inst, p[j - 1], p[j]);
      Joined(inst, shorter, p[i..j]);
      q := shorter + p[i..j];
    }
  }

  /** The recursion ends, for a node whose lookups all resolve, exactly when no cycle of batch sources
      can be reached from it; the number of nodes is then depth enough. */
  lemma TerminatesExactly(inst: Instance, id: Uuid)
    requires Resolved(inst) && Find(inst.nodes, SpecId, id).Some?
    ensures (exists depth: nat :: SubNodeCount(inst, id, depth).Count?) <==> !ReachesCycle(inst, id)
    ensures !ReachesCycle(inst, id) ==> SubNodeCount(inst, id, |inst.nodes|).Count?
  {
    NeverStuck(inst, id, |inst.nodes|);
    if SubNodeCount(inst, id, |inst.nodes|) == TooDeep {
      var p := DeepWalk(inst, id, |inst.nodes|);
      var i, j := LongPathRepeats(inst, p);
    }
    if ReachesCycle(inst, id) {
      var p, i, j :| Path(inst, p) && p[0] == id && 0 <= i < j < |p| && p[i] == p[j];
      forall depth: nat ensures !SubNodeCount(inst, id, depth).Count? {
        if SubNodeCount(inst, id, depth).Count? {
          var q := Pump(inst, p, i, j, depth + 2);
          FinishedBounds(inst, id, depth, q);
        }
      }
    }
  }

  /** The least depth at which the recursion has ended. */
  ghost predicate EndsAt(inst: Instance, id: Uuid, depth: nat) {
    SubNodeCount(inst, id, depth) != TooDeep && (depth > 0 ==> SubNodeCount(inst, id, depth - 1) == TooDeep)
  }

  /** A recursion that needs some depth has a source that needs one less. */
  lemma NeedsSource(inst: Instance, id: Uuid, depth: nat) returns (from: Uuid)
    requires depth > 0 && EndsAt(inst, id, depth)
    ensures Edge(inst, id, from) && EndsAt(inst, from, depth - 1)
  {
    var n := Find(inst.nodes, SpecId, id).value;
    var b := NeedsFactor(inst, n, n.strategies, depth);
    from := BatchSource(inst, n, b).value;
  }

  lemma {:induction false} NeedsFactor(inst: Instance, n: NodeSpec, bs: seq<BatchStrategy>, depth: nat)
    returns (b: BatchStrategy)
    requires depth > 0 && Fold(inst, n, bs, depth - 1) == TooDeep && Fold(inst, n, bs, depth) != TooDeep
    ensures b in bs && b.kind == FromBatchOutputs && BatchSource(inst, n, b).Some?
    ensures Factor(inst, n, b, depth - 1) == TooDeep && Factor(inst, n, b, depth) != TooDeep
  {
    if Factor(inst, n, bs[0], depth - 1) == TooDeep {
      b := bs[0];
    } else {
      DeeperFactor(inst, n, bs[0], depth - 1, depth);
      b := NeedsFactor(inst, n, bs[1..], depth);
    }
  }

  /** The path of the sources that need the depth. */
  lemma {:induction false} NeedsPath(inst: Instance, id: Uuid, depth: nat) returns (p: seq<Uuid>)
    requires EndsAt(inst, id, depth)
    ensures Path(inst, p) && p[0] == id && |p| == depth + 1
    ensures forall k :: 0 <= k < |p| ==> EndsAt(inst, p[k], depth - k)
    decreases depth
  {
    if depth == 0 {
      p := [id];
    } else {
      var from := NeedsSource(inst, id, depth);
      var q := NeedsPath(inst, from, depth - 1);
      p := [id] + q;
      assert forall k :: 0 < k < |p| - 1 ==> p[k] == q[k - 1] && p[k + 1] == q[k];
      forall k | 0 <= k < |p| ensures EndsAt(inst, p[k], depth - k) {
        if k > 0 { assert EndsAt(inst, q[k - 1], depth - 1 - (k - 1)); }
      }
    }
  }

  lemma {:induction false} LeastDepth(inst: Instance, id: Uuid, depth: nat) returns (least: nat)
    requires SubNodeCount(inst, id, depth) != TooDeep
    ensures least <= depth && EndsAt(inst, id, least)
    decreases depth
  {
    if depth > 0 && SubNodeCount(inst, id, depth - 1) != TooDeep {
      least := LeastDepth(inst, id, depth - 1);
    } else {
      least := depth;
    }
  }

  lemma NeverBeyond(inst: Instance, id: Uuid, depth: nat)
    requires EndsAt(inst, id, depth)
    ensures depth <= |inst.nodes|
  {
    if depth > |inst.nodes| {
      var p := NeedsPath(inst, id, depth);
      var front := p[..|inst.nodes| + 2];
      Segment(inst, p, 0, |inst.nodes| + 2);
      assert p[0..|inst.nodes| + 2] == front;
      var i, j := LongPathRepeats(inst, front);
      assert EndsAt(inst, p[i], depth - i) && EndsAt(inst, p[j], depth - j);
      DeeperIsSame(inst, p[j], depth - j, depth - i - 1);
      assert false;
    }
  }

  /** The number of nodes is depth enough: a recursion that is still going after as many levels never
      ends, with a count or otherwise. */
  lemma DepthEnough(inst: Instance, id: Uuid)
    ensures SubNodeCount(inst, id, |inst.nodes|) == TooDeep <==>
            forall depth: nat :: SubNodeCount(inst, id, depth) == TooDeep
  {
    if depth: nat :| SubNodeCount(inst, id, depth) != TooDeep {
      var least := LeastDepth(inst, id, depth);
      NeverBeyond(inst, id, least);
      DeeperIsSame(inst, id, least, |inst.nodes|);
    }
  }

  lemma LoopIsCycle(inst: Instance, c: seq<Uuid>)
    requires Path(inst, c) && |c| >= 2 && c[0] == c[|c| - 1]
    ensures !Acyclic(inst)
  {
  }

  lemma RepeatIsCycle(inst: Instance, p: seq<Uuid>, i: nat, j: nat)
    requires Path(inst, p) && i < j < |p| && p[i] == p[j]
    ensures !Acyclic(inst)
  {
    Segment(inst, p, i, j + 1);
    var c := p[i..j + 1];
    assert c[0] == p[i] && c[|c| - 1] == p[j];
    LoopIsCycle(inst, c);
  }

  lemma AcyclicTerminates(inst: Instance, id: Uuid)
    requires Resolved(inst) && Acyclic(inst) && Find(inst.nodes, SpecId, id).Some?
    ensures SubNodeCount(inst, id, |inst.nodes|).Count?
  {
    if ReachesCycle(inst, id) {
      var p, i, j :| Path(inst, p) && p[0] == id && 0 <= i < j < |p| && p[i] == p[j];
      RepeatIsCycle(inst, p, i, j);
    }
    TerminatesExactly(inst, id);
  }

  // ---------------------------------------------------------------- the value of the count

  /** The factor of a strategy when the counts of the nodes are given. */
  function FactorUnder(inst: Instance, n: NodeSpec, b: BatchStrategy, counts: map<Uuid, nat>): nat {
    match b.kind
    case MatchRegex(fillCount) => fillCount
    case OriginalBatch =>
      var slot := Find(n.inputs, InputName, b.slot);
      if slot.Some? && InputsCount<()>(slot.value).Done? then InputsCount<()>(slot.value).value else 0
    case FromBatchOutputs =>
      var from := BatchSource(inst, n, b);
      if from.Some? && from.value in counts then counts[from.value] else 0
  }

  function Product(inst: Instance, n: NodeSpec, bs: seq<BatchStrategy>, counts: map<Uuid, nat>): nat {
    if bs == [] then 1 else FactorUnder(inst, n, bs[0], counts) * Product(inst, n, bs[1..], counts)
  }

  /** An assignment of counts in which every node's count is the product of its strategies' factors. */
  ghost predicate Balanced(inst: Instance, counts: map<Uuid, nat>) {
    forall id :: Find(inst.nodes, SpecId, id).Some? ==>
                   var n := Find(inst.nodes, SpecId, id).value;
                   id in counts && counts[id] == Product(inst, n, n.strategies, counts)
  }

  /** Whatever assignment balances, the recursion computes it. */
  lemma {:induction false} CountIsBalanced(inst: Instance, id: Uuid, depth: nat, counts: map<Uuid, nat>)
    requires Balanced(inst, counts) && SubNodeCount(inst, id, depth).Count?
    ensures id in counts && SubNodeCount(inst, id, depth) == Count(counts[id])
    decreases depth, 1, 0
  {
    var n := Find(inst.nodes, SpecId, id).value;
    FoldIsProduct(inst, n, n.strategies, depth, counts);
  }

  lemma {:induction false} FoldIsProduct(inst: Instance, n: NodeSpec, bs: seq<BatchStrategy>, depth: nat,
                                         counts: map<Uuid, nat>)
    requires Balanced(inst, counts) && Fold(inst, n, bs, depth).Count?
    ensures Fold(inst, n, bs, depth) == Count(Product(inst, n, bs, counts))
    decreases depth, 0, |bs|
  {
    if bs != [] {
      FoldIsProduct(inst, n, bs[1..], depth, counts);
      if bs[0].kind == FromBatchOutputs {
        CountIsBalanced(inst, BatchSource(inst, n, bs[0]).value, depth - 1, counts);
      }
    }
  }

  /** The counts of all the nodes. */
  ghost function AllCounts(inst: Instance): map<Uuid, nat> {
    map n | n in inst.nodes && SubNodeCount(inst, n.id, |inst.nodes|).Count? ::
      n.id := SubNodeCount(inst, n.id, |inst.nodes|).n
  }

  lemma {:induction false} FoldUnderCounts(inst: Instance, n: NodeSpec, bs: seq<BatchStrategy>)
    requires Resolved(inst) && Acyclic(inst)
    requires forall b :: b in bs ==> ResolvedStrategy(inst, n, b)
    requires Fold(inst, n, bs, |inst.nodes|).Count?
    ensures Fold(inst, n, bs, |inst.nodes|) == Count(Product(inst, n, bs, AllCounts(inst)))
  {
    if bs != [] {
      FoldUnderCounts(inst, n, bs[1..]);
      assert ResolvedStrategy(inst, n, bs[0]);
      if bs[0].kind == FromBatchOutputs {
        var from := BatchSource(inst, n, bs[0]).value;
        AcyclicTerminates(inst, from);
        DeeperIsSame(inst, from, |inst.nodes| - 1, |inst.nodes|);
        assert Find(inst.nodes, SpecId, from).value in inst.nodes;
      }
    }
  }

  /** On an acyclic graph the counts exist, satisfy the product equations, and are the only numbers
      that do. */
  lemma CountsAreTheProducts(inst: Instance, counts: map<Uuid, nat>)
    requires Resolved(inst) && Acyclic(inst)
    ensures Balanced(inst, AllCounts(inst))
    ensures Balanced(inst, counts) ==>
              forall id :: Find(inst.nodes, SpecId, id).Some? ==>
                id in counts && SubNodeCount(inst, id, |inst.nodes|) == Count(counts[id])
  {
    forall id | Find(inst.nodes, SpecId, id).Some?
      ensures var n := Find(inst.nodes, SpecId, id).value;
              id in AllCounts(inst) && AllCounts(inst)[id] == Product(inst, n, n.strategies, AllCounts(inst))
      ensures SubNodeCount(inst, id, |inst.nodes|).Count?
    {
      var n := Find(inst.nodes, SpecId, id).value;
      AcyclicTerminates(inst, id);
      FoldUnderCounts(inst, n, n.strategies);
      assert n in inst.nodes && n.id == id;
    }
    if Balanced(inst, counts) {
      forall id | Find(inst.nodes, SpecId, id).Some?
        ensures id in counts && SubNodeCount(inst, id, |inst.nodes|) == Count(counts[id])
      {
        CountIsBalanced(inst, id, |inst.nodes|, counts);
      }
    }
  }

  /** Every node of the chain takes its only batch from the next. */
  ghost predicate Chain(inst: Instance, p: seq<Uuid>) {
    && p != []
    && (forall k :: 0 <= k < |p| ==> Find(inst.nodes, SpecId, p[k]).Some?)
    && forall k :: 0 <= k < |p| - 1 ==> Link(inst, p[k], p[k + 1])
  }

  ghost predicate Link(inst: Instance, a: Uuid, b: Uuid) {
    var n := Find(inst.nodes, SpecId, a);
    n.Some? && |n.value.strategies| == 1 && n.value.strategies[0].kind == FromBatchOutputs
    && BatchSource(inst, n.value, n.value.strategies[0]) == Some(b)
  }

  /** The count is constant along such a chain. */
  lemma ConstantAtLink(inst: Instance, a: Uuid, b: Uuid)
    requires Resolved(inst) && Acyclic(inst) && Link(inst, a, b) && Find(inst.nodes, SpecId, b).Some?
    ensures SubNodeCount(inst, a, |inst.nodes|) == SubNodeCount(inst, b, |inst.nodes|)
  {
    var n := Find(inst.nodes, SpecId, a).value;
    CountsAreTheProducts(inst, AllCounts(inst));
    LinkProduct(inst, n, b, AllCounts(inst));
  }

  lemma LinkProduct(inst: Instance, n: NodeSpec, b: Uuid, counts: map<Uuid, nat>)
    requires |n.strategies| == 1 && n.strategies[0].kind == FromBatchOutputs
    requires BatchSource(inst, n, n.strategies[0]) == Some(b) && b in counts
    ensures Product(inst, n, n.strategies, counts) == counts[b]
  {
    assert n.strategies[1..] == [];
  }

  lemma {:induction false} ConstantAlongChain(inst: Instance, p: seq<Uuid>)
    requires Resolved(inst) && Acyclic(inst) && Chain(inst, p)
    ensures SubNodeCount(inst, p[0], |inst.nodes|) == SubNodeCount(inst, p[|p| - 1], |inst.nodes|)
  {
    if |p| > 1 {
      assert Link(inst, p[0], p[1]);
      assert p[1..][|p| - 2] == p[|p| - 1];
      forall k | 0 <= k < |p| - 2 ensures Link(inst, p[1..][k], p[1..][k + 1]) {
        assert Link(inst, p[k + 1], p[k + 2]);
      }
      ConstantAlongChain(inst, p[1..]);
      ConstantAtLink(inst, p[0], p[1]);
    }
  }
}
