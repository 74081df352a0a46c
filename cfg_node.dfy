/** A basic block of the Subzero code generator (CfgNode) and the part of
    its owning function (Cfg) that a block relies on: the table of nodes,
    indexed by node number, the table of identifier names, and the
    instruction-number counter.

    Blocks refer to each other by reference, as the in- and out-edge lists
    of the source do; every block belongs to exactly one Cfg and sits in
    that Cfg's node table at the position given by its number. */
module CfgNodes {
  import opened IceDefs

  /** An instruction, reduced to what a block does with it: it is kept in
      order and it is given a number.  `op` stands for everything else. */
  datatype Inst = Inst(op: nat, number: int)

  /** Cfg::IdentifierIndexInvalid: a node without a name. */
  const IdentifierIndexInvalid: int := -1

  /** The assembly label of a block: ".L", the function name, "$", the
      block name. */
  function AsmLabel(functionName: string, nodeName: string): string {
    ".L" + functionName + "$" + nodeName
  }

  /** The label can be taken apart again: the function name and the block
      name sit at fixed positions. */
  lemma AsmLabelParts(functionName: string, nodeName: string)
    ensures var asmLabel := AsmLabel(functionName, nodeName);
      |asmLabel| == |functionName| + |nodeName| + 3 &&
      asmLabel[..2] == ".L" &&
      asmLabel[2..|functionName| + 2] == functionName &&
      asmLabel[|functionName| + 2] == '$' &&
      asmLabel[|functionName| + 3..] == nodeName
  {
    var asmLabel := AsmLabel(functionName, nodeName);
    assert asmLabel == ".L" + (functionName + ("$" + nodeName));
  }

  /** Within one function, distinct block names give distinct labels. */
  lemma AsmLabelInjective(functionName: string, a: string, b: string)
    requires AsmLabel(functionName, a) == AsmLabel(functionName, b)
    ensures a == b
  {
    AsmLabelParts(functionName, a);
    AsmLabelParts(functionName, b);
  }

  /** Number of occurrences of x in s. */
  function Count<T(==)>(s: seq<T>, x: T): nat {
    if s == [] then 0
    else Count(s[..|s| - 1], x) + (if s[|s| - 1] == x then 1 else 0)
  }

  function Repeat<T>(x: T, k: nat): seq<T> {
    seq(k, _ => x)
  }

  lemma {:induction false} CountConcat<T>(a: seq<T>, b: seq<T>, x: T)
    ensures Count(a + b, x) == Count(a, x) + Count(b, x)
    decreases |b|
  {
    if b == [] {
      assert a + b == a;
    } else {
      var b' := b[..|b| - 1];
      assert (a + b)[..|a + b| - 1] == a + b';
      CountConcat(a, b', x);
    }
  }

  lemma {:induction false} CountRepeat<T>(y: T, k: nat, x: T)
    ensures Count(Repeat(y, k), x) == if x == y then k else 0
  {
    if k > 0 {
      assert Repeat(y, k)[..k - 1] == Repeat(y, k - 1);
      CountRepeat(y, k - 1, x);
    }
  }

  lemma {:induction false} CountPositive<T>(s: seq<T>, x: T)
    ensures x in s <==> Count(s, x) > 0
  {
    if s != [] {
      var front := s[..|s| - 1];
      assert s == front + [s[|s| - 1]];
      CountPositive(front, x);
    }
  }

  /** The instructions of s, numbered consecutively from `first`. */
  function Renumbered(s: seq<Inst>, first: int): seq<Inst> {
    seq(|s|, i requires 0 <= i < |s| => s[i].(number := first + i))
  }

  /** Renumbering keeps the instructions and their order, and gives them
      strictly increasing numbers; numbering two lists one after the other
      numbers their concatenation. */
  lemma RenumberedProperties(a: seq<Inst>, b: seq<Inst>, first: int)
    ensures |Renumbered(a, first)| == |a|
    ensures forall i :: 0 <= i < |a| ==> Renumbered(a, first)[i].op == a[i].op
    ensures forall i, j :: 0 <= i < j < |a| ==>
              Renumbered(a, first)[i].number < Renumbered(a, first)[j].number
    ensures Renumbered(a, first) + Renumbered(b, first + |a|) == Renumbered(a + b, first)
  {
  }

  /** The function being compiled, as far as its blocks see it. */
  class Cfg {
    const functionName: string
    /** How a block that was never named is called; the rule lives in
        IceCfgNode.cpp, which is not part of this model. */
    const unnamedNodeName: nat -> string
    /** Nodes, in layout order; node i has number i. */
    var nodes: seq<CfgNode>
    /** Cfg::NodeNames: names handed out by addIdentifierName. */
    var identifierNames: seq<string>
    /** The next instruction number to hand out. */
    var nextInstNumber: int

    /** The identity invariant: Nodes[Number] == node for every node. */
    ghost predicate Valid()
      reads this, nodes
    {
      forall i | 0 <= i < |nodes| :: nodes[i].number == i && nodes[i].func == this
    }

    constructor (functionName: string, unnamedNodeName: nat -> string)
      ensures Valid()
      ensures this.functionName == functionName && this.unnamedNodeName == unnamedNodeName
      ensures nodes == [] && identifierNames == [] && nextInstNumber == 0
    {
      this.functionName := functionName;
      this.unnamedNodeName := unnamedNodeName;
      nodes := [];
      identifierNames := [];
      nextInstNumber := 0;
    }

    /** Adds a name to the name table and returns its index. */
    method AddIdentifierName(name: string) returns (index: int)
      modifies this`identifierNames
      ensures identifierNames == old(identifierNames) + [name]
      ensures index == |old(identifierNames)| && identifierNames[index] == name
    {
      index := |identifierNames|;
      identifierNames := identifierNames + [name];
    }

    /** Hands out the next instruction number. */
    method NewInstNumber() returns (number: int)
      modifies this`nextInstNumber
      ensures number == old(nextInstNumber) && nextInstNumber == number + 1
    {
      number := nextInstNumber;
      nextInstNumber := nextInstNumber + 1;
    }

    /** Creates a block whose label index is its position in the node
        table, and appends it there, keeping the identity invariant. */
    method MakeNode() returns (node: CfgNode)
      requires Valid()
      modifies this`nodes
      ensures Valid() && fresh(node)
      ensures nodes == old(nodes) + [node]
      ensures node.number == node.labelNumber == |old(nodes)|
      ensures node.Fresh()
    {
      node := new CfgNode(this, |nodes|);
      nodes := nodes + [node];
    }

    /** Installs a new order of the same nodes and resets every node's
        number to its new position, restoring the identity invariant. */
    method ReorderNodes(newOrder: seq<CfgNode>)
      requires Valid()
      requires multiset(newOrder) == multiset(nodes)
      modifies this`nodes, nodes
      ensures Valid() && nodes == newOrder
      ensures forall n | n in nodes :: unchanged(n`nameIndex, n`loopNestDepth, n`hasReturn, n`needsPlacement,
                              n`needsAlignment, n`instCountEstimate, n`inEdges, n`outEdges,
                              n`phis, n`insts)
    {
      forall i, j | 0 <= i < j < |nodes| ensures nodes[i] != nodes[j] {
        assert nodes[i].number == i && nodes[j].number == j;
      }
      PermutationDistinct(nodes, newOrder);
      forall n | n in newOrder ensures n in nodes && n.func == this {
        assert n in multiset(newOrder);
      }
      nodes := newOrder;
      for i := 0 to |newOrder|
        invariant nodes == newOrder
        invariant forall n | n in newOrder :: n.func == this
        invariant forall j | 0 <= j < i :: newOrder[j].number == j
        invariant forall n | n in newOrder :: unchanged(n`nameIndex, n`loopNestDepth, n`hasReturn, n`needsPlacement,
                              n`needsAlignment, n`instCountEstimate, n`inEdges, n`outEdges,
                              n`phis, n`insts)
      {
        assert newOrder[i] in old(nodes);
        newOrder[i].ResetIndex(i);
      }
    }

    /** computePredecessors applied to every node in turn: afterwards node
        q has gained one in-edge from node p for every out-edge p->q. */
    method ComputePredecessors()
      requires Valid()
      requires forall a, b | a in nodes && b in a.outEdges :: b in nodes
      modifies (set n | n in nodes)`inEdges
      ensures Valid()
      ensures OutEdgeLists(nodes) == old(OutEdgeLists(nodes))
      ensures InEdgeLists(nodes)
              == PredecessorsUpTo(old(InEdgeLists(nodes)), nodes, OutEdgeLists(nodes), |nodes|)
      ensures (forall q | 0 <= q < |nodes| :: old(InEdgeLists(nodes))[q] == []) ==>
                forall p, q | 0 <= p < |nodes| && 0 <= q < |nodes| ::
                  nodes[p] in nodes[q].inEdges <==> nodes[q] in nodes[p].outEdges
      ensures forall n | n in nodes :: unchanged(n`nameIndex, n`loopNestDepth, n`hasReturn, n`needsPlacement,
                                        n`needsAlignment, n`instCountEstimate, n`phis, n`insts)
    {
      ghost var ins0, outs := InEdgeLists(nodes), OutEdgeLists(nodes);
      assert forall p, b | 0 <= p < |nodes| && b in outs[p] :: b in nodes;
      for i := 0 to |nodes|
        invariant forall q | 0 <= q < |nodes| ::
                    nodes[q].number == q && nodes[q].outEdges == outs[q] &&
                    nodes[q].inEdges == PredecessorsUpTo(ins0, nodes, outs, i)[q]
      {
        ComputePredecessorsAt(ins0, outs, i);
      }
      EdgeListsOf(nodes, PredecessorsUpTo(ins0, nodes, outs, |nodes|), outs);
      if forall q | 0 <= q < |nodes| :: ins0[q] == [] {
        ValidDistinct();
        EdgeListSymmetry(nodes, ins0, outs);
      }
    }

    /** Nodes[Number] == node makes the node table free of repeats. */
    lemma ValidDistinct()
      requires Valid()
      ensures Distinct(nodes)
    {
      forall i, j | 0 <= i < j < |nodes| ensures nodes[i] != nodes[j] {
        assert nodes[i].number == i && nodes[j].number == j;
      }
    }

    /** Step i of ComputePredecessors: node i's computePredecessors. */
    method ComputePredecessorsAt(ghost ins0: seq<seq<CfgNode>>, ghost outs: seq<seq<CfgNode>>, i: nat)
      requires i < |nodes| == |ins0| == |outs|
      requires forall b | b in outs[i] :: b in nodes
      requires forall q | 0 <= q < |nodes| ::
                 nodes[q].number == q && nodes[q].outEdges == outs[q] &&
                 nodes[q].inEdges == PredecessorsUpTo(ins0, nodes, outs, i)[q]
      modifies (set n | n in nodes)`inEdges
      ensures forall q | 0 <= q < |nodes| ::
                nodes[q].number == q && nodes[q].outEdges == outs[q] &&
                nodes[q].inEdges == PredecessorsUpTo(ins0, nodes, outs, i + 1)[q]
      ensures forall n | n in nodes :: unchanged(n`nameIndex, n`loopNestDepth, n`hasReturn, n`needsPlacement,
                                        n`needsAlignment, n`instCountEstimate, n`phis, n`insts)
    {
      var node := nodes[i];
      ghost var prev := PredecessorsUpTo(ins0, nodes, outs, i);
      assert node.outEdges == outs[i];
      node.ComputePredecessors();
      forall q | 0 <= q < |nodes|
        ensures nodes[q].inEdges == prev[q] + Repeat(node, Count(outs[i], nodes[q]))
      {
        if nodes[q] !in outs[i] {
          CountPositive(outs[i], nodes[q]);
          assert Repeat(node, 0) == [];
        }
      }
      assert PredecessorsUpTo(ins0, nodes, outs, i + 1) == AddPredecessor(prev, nodes, outs[i], node);
    }
  }

  /** The in-edge lists of the given nodes, in node order. */
  ghost function InEdgeLists(nodes: seq<CfgNode>): (r: seq<seq<CfgNode>>)
    reads set n | n in nodes
    ensures |r| == |nodes|
  {
    seq(|nodes|, q requires 0 <= q < |nodes| reads set n | n in nodes => nodes[q].inEdges)
  }

  /** The out-edge lists of the given nodes, in node order. */
  ghost function OutEdgeLists(nodes: seq<CfgNode>): (r: seq<seq<CfgNode>>)
    reads set n | n in nodes
    ensures |r| == |nodes|
  {
    seq(|nodes|, q requires 0 <= q < |nodes| reads set n | n in nodes => nodes[q].outEdges)
  }

  lemma EdgeListsOf(nodes: seq<CfgNode>, ins: seq<seq<CfgNode>>, outs: seq<seq<CfgNode>>)
    requires |ins| == |outs| == |nodes|
    requires forall q | 0 <= q < |nodes| :: nodes[q].inEdges == ins[q] && nodes[q].outEdges == outs[q]
    ensures InEdgeLists(nodes) == ins && OutEdgeLists(nodes) == outs
  {
  }

  /** In-edge lists `ins` after `src`, with out-edges `srcOuts`, has added
      itself to the in-edges of each of its successors among `nodes`. */
  function AddPredecessor<T(==)>(ins: seq<seq<T>>, nodes: seq<T>, srcOuts: seq<T>, src: T)
    : (r: seq<seq<T>>)
    requires |ins| == |nodes|
    ensures |r| == |nodes|
  {
    seq(|ins|, q requires 0 <= q < |ins| => ins[q] + Repeat(src, Count(srcOuts, nodes[q])))
  }

  /** In-edge lists after the first i nodes have added themselves to their
      successors' in-edges. */
  function PredecessorsUpTo<T(==)>(ins: seq<seq<T>>, nodes: seq<T>, outs: seq<seq<T>>, i: nat)
    : (r: seq<seq<T>>)
    requires |ins| == |nodes| == |outs| && i <= |nodes|
    ensures |r| == |nodes|
  {
    if i == 0 then ins
    else AddPredecessor(PredecessorsUpTo(ins, nodes, outs, i - 1), nodes, outs[i - 1], nodes[i - 1])
  }

  /** Edge symmetry: once the first i nodes have run, node q's in-edge list
      holds node p once more for every edge p->q with p among them. */
  lemma {:induction false} PredecessorsUpToCount<T>(ins: seq<seq<T>>, nodes: seq<T>,
                                                   outs: seq<seq<T>>, i: nat, p: nat, q: nat)
    requires |ins| == |nodes| == |outs| && i <= |nodes|
    requires Distinct(nodes) && p < |nodes| && q < |nodes|
    ensures Count(PredecessorsUpTo(ins, nodes, outs, i)[q], nodes[p])
            == Count(ins[q], nodes[p]) + (if p < i then Count(outs[p], nodes[q]) else 0)
  {
    if i > 0 {
      var prev := PredecessorsUpTo(ins, nodes, outs, i - 1);
      PredecessorsUpToCount(ins, nodes, outs, i - 1, p, q);
      AppendedEdgesCount(prev[q], PredecessorsUpTo(ins, nodes, outs, i)[q],
                         nodes[i - 1], Count(outs[i - 1], nodes[q]), nodes[p]);
    }
  }

  /** Edge symmetry once every node has run: q's in-edges gained p exactly
      as often as p->q occurs among p's out-edges. */
  lemma EdgeSymmetry<T>(ins: seq<seq<T>>, nodes: seq<T>, outs: seq<seq<T>>)
    requires |ins| == |nodes| == |outs| && Distinct(nodes)
    ensures forall p, q | 0 <= p < |nodes| && 0 <= q < |nodes| ::
              Count(PredecessorsUpTo(ins, nodes, outs, |nodes|)[q], nodes[p])
              == Count(ins[q], nodes[p]) + Count(outs[p], nodes[q])
  {
    forall p, q | 0 <= p < |nodes| && 0 <= q < |nodes|
      ensures Count(PredecessorsUpTo(ins, nodes, outs, |nodes|)[q], nodes[p])
              == Count(ins[q], nodes[p]) + Count(outs[p], nodes[q])
    {
      PredecessorsUpToCount(ins, nodes, outs, |nodes|, p, q);
    }
  }

  /** Starting from empty in-edge lists, p ends up a predecessor of q
      exactly when q is a successor of p. */
  lemma PredecessorIffSuccessor<T>(ins: seq<seq<T>>, nodes: seq<T>, outs: seq<seq<T>>, p: nat, q: nat)
    requires |ins| == |nodes| == |outs| && Distinct(nodes)
    requires forall r | 0 <= r < |nodes| :: ins[r] == []
    requires p < |nodes| && q < |nodes|
    ensures nodes[p] in PredecessorsUpTo(ins, nodes, outs, |nodes|)[q] <==> nodes[q] in outs[p]
  {
    PredecessorsUpToCount(ins, nodes, outs, |nodes|, p, q);
    CountPositive(PredecessorsUpTo(ins, nodes, outs, |nodes|)[q], nodes[p]);
    CountPositive(outs[p], nodes[q]);
    CountPositive(ins[q], nodes[p]);
  }

  /** The heap form of PredecessorIffSuccessor: when the in-edge lists
      were empty before the pass, a node's in-edges afterwards are exactly
      the nodes that list it among their out-edges. */
  lemma EdgeListSymmetry(nodes: seq<CfgNode>, ins0: seq<seq<CfgNode>>, outs: seq<seq<CfgNode>>)
    requires |ins0| == |outs| == |nodes| && Distinct(nodes)
    requires forall q | 0 <= q < |nodes| :: ins0[q] == []
    requires InEdgeLists(nodes) == PredecessorsUpTo(ins0, nodes, outs, |nodes|)
    requires OutEdgeLists(nodes) == outs
    ensures forall p, q | 0 <= p < |nodes| && 0 <= q < |nodes| ::
              nodes[p] in nodes[q].inEdges <==> nodes[q] in nodes[p].outEdges
  {
    forall p, q | 0 <= p < |nodes| && 0 <= q < |nodes|
      ensures nodes[p] in nodes[q].inEdges <==> nodes[q] in nodes[p].outEdges
    {
      PredecessorIffSuccessor(ins0, nodes, outs, p, q);
      assert InEdgeLists(nodes)[q] == nodes[q].inEdges;
      assert OutEdgeLists(nodes)[p] == nodes[p].outEdges;
    }
  }

  /** Appending k copies of y to a list raises the count of y by k and
      leaves every other count alone. */
  lemma AppendedEdgesCount<T>(before: seq<T>, after: seq<T>, y: T, k: nat, x: T)
    requires after == before + Repeat(y, k)
    ensures Count(after, x) == Count(before, x) + (if x == y then k else 0)
  {
    CountConcat(before, Repeat(y, k), x);
    CountRepeat(y, k, x);
  }

  predicate Distinct<T(==)>(s: seq<T>) {
    forall i, j | 0 <= i < j < |s| :: s[i] != s[j]
  }

  /** Each element of a list without repetitions occurs at most once. */
  lemma {:induction false} DistinctMultiplicity<T>(s: seq<T>, x: T)
    requires Distinct(s)
    ensures multiset(s)[x] <= 1
  {
    if s != [] {
      var front := s[..|s| - 1];
      assert s == front + [s[|s| - 1]];
      assert Distinct(front);
      DistinctMultiplicity(front, x);
      if s[|s| - 1] == x {
        assert x !in front;
      }
    }
  }

  /** An element found at two positions occurs at least twice. */
  lemma TwoPositions<T>(s: seq<T>, j: nat, i: nat)
    requires j < i < |s|
    ensures multiset(s)[s[i]] >= if s[j] == s[i] then 2 else 1
  {
    assert s == s[..j] + [s[j]] + s[j + 1..i] + [s[i]] + s[i + 1..];
  }

  /** A permutation of a list without repetitions has none either. */
  lemma PermutationDistinct<T>(s: seq<T>, t: seq<T>)
    requires Distinct(s) && multiset(t) == multiset(s)
    ensures Distinct(t)
  {
    forall i, j | 0 <= i < j < |t| ensures t[i] != t[j] {
      TwoPositions(t, i, j);
      DistinctMultiplicity(s, t[j]);
    }
  }

  /** A basic block: its identity, name, loop depth, flags, instruction
      lists and edge lists. */
  class CfgNode {
    const func: Cfg
    /** Position in func.nodes; changed by ResetIndex. */
    var number: nat
    /** Fixed at creation; used to build stable labels. */
    const labelNumber: nat
    /** Index into func.identifierNames, or IdentifierIndexInvalid. */
    var nameIndex: int
    var loopNestDepth: SizeT
    /** The block contains a return and so needs an epilog. */
    var hasReturn: bool
    /** The block was synthesized and still needs a place in the layout. */
    var needsPlacement: bool
    /** The block needs alignment (sandboxing). */
    var needsAlignment: bool
    /** Rough count of instructions: raised when one is added, recomputed
        by RenumberInstructions. */
    var instCountEstimate: int
    /** Predecessors and successors, in no particular order. */
    var inEdges: seq<CfgNode>
    var outEdges: seq<CfgNode>
    /** Phi instructions (unordered) and the ordered other instructions. */
    var phis: seq<Inst>
    var insts: seq<Inst>

    /** The state of a newly created block. */
    ghost predicate Fresh() reads this {
      nameIndex == IdentifierIndexInvalid && loopNestDepth == 0 &&
      !hasReturn && !needsPlacement && !needsAlignment &&
      instCountEstimate == 0 &&
      inEdges == [] && outEdges == [] && phis == [] && insts == []
    }

    constructor (func: Cfg, labelIndex: nat)
      ensures this.func == func && number == labelIndex && labelNumber == labelIndex
      ensures Fresh()
    {
      this.func := func;
      number := labelIndex;
      labelNumber := labelIndex;
      nameIndex := IdentifierIndexInvalid;
      loopNestDepth := 0;
      hasReturn := false;
      needsPlacement := false;
      needsAlignment := false;
      instCountEstimate := 0;
      inEdges := [];
      outEdges := [];
      phis := [];
      insts := [];
    }

    method ResetIndex(newNumber: nat)
      modifies this`number
      ensures number == newNumber
    {
      number := newNumber;
    }

    predicate HasName() reads this {
      nameIndex != IdentifierIndexInvalid
    }

    /** The name index is absent or points into the name table. */
    ghost predicate NameValid() reads this, func {
      nameIndex == IdentifierIndexInvalid || 0 <= nameIndex < |func.identifierNames|
    }

    /** The block's name: the one it was given, or the function's name for
        an unnamed block with this label number. */
    function GetName(): (r: string)
      reads this, func
      requires NameValid()
      ensures HasName() ==> r == func.identifierNames[nameIndex]
      ensures !HasName() ==> r == func.unnamedNodeName(labelNumber)
    {
      if nameIndex == IdentifierIndexInvalid then func.unnamedNodeName(labelNumber)
      else func.identifierNames[nameIndex]
    }

    /** Names the block; a block can be named only once, and an empty name
        leaves it unnamed. */
    method SetName(newName: string)
      requires !HasName() && NameValid()
      modifies this`nameIndex, func`identifierNames
      ensures NameValid()
      ensures HasName() <==> newName != []
      ensures HasName() ==> GetName() == newName
      ensures func.identifierNames == if newName == [] then old(func.identifierNames)
                                      else old(func.identifierNames) + [newName]
      ensures newName != [] ==> nameIndex == |old(func.identifierNames)|
    {
      if newName != [] {
        nameIndex := func.AddIdentifierName(newName);
      }
    }

    /** The block's assembly label. */
    function GetAsmName(): (r: string)
      reads this, func
      requires NameValid()
      ensures r == AsmLabel(func.functionName, GetName())
      ensures r[..2] == ".L" && r[|func.functionName| + 3..] == GetName()
    {
      AsmLabelParts(func.functionName, GetName());
      ".L" + func.functionName + "$" + GetName()
    }

    /** One more level of loop nesting, in a 32-bit counter. */
    method IncrementLoopNestDepth()
      modifies this`loopNestDepth
      ensures loopNestDepth == WrapSizeT(old(loopNestDepth) as int + 1)
      ensures old(loopNestDepth) as int + 1 < SizeTModulus ==>
                loopNestDepth as int == old(loopNestDepth) as int + 1
    {
      loopNestDepth := WrapSizeT(loopNestDepth as int + 1);
    }

    method SetLoopNestDepth(newDepth: SizeT)
      modifies this`loopNestDepth
      ensures loopNestDepth == newDepth
    {
      loopNestDepth := newDepth;
    }

    /** Once set, hasReturn stays set: nothing clears it. */
    method SetHasReturn()
      modifies this`hasReturn
      ensures hasReturn
    {
      hasReturn := true;
    }

    method SetNeedsPlacement(value: bool)
      modifies this`needsPlacement
      ensures needsPlacement == value
    {
      needsPlacement := value;
    }

    /** Once set, needsAlignment stays set: nothing clears it. */
    method SetNeedsAlignment()
      modifies this`needsAlignment
      ensures needsAlignment
    {
      needsAlignment := true;
    }

    /** Appends a non-phi instruction; the estimate goes up with it. */
    method AppendInst(inst: Inst)
      modifies this`insts, this`instCountEstimate
      ensures insts == old(insts) + [inst]
      ensures instCountEstimate == old(instCountEstimate) + 1
    {
      insts := insts + [inst];
      instCountEstimate := instCountEstimate + 1;
    }

    /** Numbers the phis, then the other instructions, from the function's
        next instruction number on; the estimate becomes the exact count. */
    method RenumberInstructions()
      modifies this`phis, this`insts, this`instCountEstimate, func`nextInstNumber
      ensures phis == Renumbered(old(phis), old(func.nextInstNumber))
      ensures insts == Renumbered(old(insts), old(func.nextInstNumber) + |phis|)
      ensures phis + insts == Renumbered(old(phis) + old(insts), old(func.nextInstNumber))
      ensures instCountEstimate == |phis| + |insts|
      ensures func.nextInstNumber == old(func.nextInstNumber) + instCountEstimate
    {
      var first := func.nextInstNumber;
      for k := 0 to |phis|
        invariant |phis| == |old(phis)| && insts == old(insts)
        invariant func.nextInstNumber == first + k
        invariant phis[..k] == Renumbered(old(phis), first)[..k]
        invariant phis[k..] == old(phis)[k..]
      {
        var n := func.NewInstNumber();
        phis := phis[k := phis[k].(number := n)];
      }
      assert phis == Renumbered(old(phis), first) by {
        assert phis == phis[..|phis|];
      }
      var afterPhis := func.nextInstNumber;
      for k := 0 to |insts|
        invariant |insts| == |old(insts)| && phis == Renumbered(old(phis), first)
        invariant func.nextInstNumber == afterPhis + k
        invariant insts[..k] == Renumbered(old(insts), afterPhis)[..k]
        invariant insts[k..] == old(insts)[k..]
      {
        var n := func.NewInstNumber();
        insts := insts[k := insts[k].(number := n)];
      }
      assert insts == Renumbered(old(insts), afterPhis) by {
        assert insts == insts[..|insts|];
      }
      instCountEstimate := func.nextInstNumber - first;
      RenumberedProperties(old(phis), old(insts), first);
    }

    /** Adds this node to the in-edges of each of its successors, once per
        out-edge. */
    method ComputePredecessors()
      modifies (set n | n in outEdges)`inEdges
      ensures outEdges == old(outEdges)
      ensures forall n | n in outEdges ::
                n.inEdges == old(n.inEdges) + Repeat(this, Count(outEdges, n))
      ensures forall n | n in outEdges :: this in n.inEdges
      ensures forall n | n in outEdges :: unchanged(n`number, n`nameIndex, n`loopNestDepth, n`hasReturn,
                              n`needsPlacement, n`needsAlignment, n`instCountEstimate,
                              n`outEdges, n`phis, n`insts)
    {
      for i := 0 to |outEdges|
        invariant outEdges == old(outEdges)
        invariant forall n | n in outEdges ::
                    n.inEdges == old(n.inEdges) + Repeat(this, Count(outEdges[..i], n))
      {
        var succ := outEdges[i];
        assert outEdges[..i + 1][..i] == outEdges[..i];
        succ.inEdges := succ.inEdges + [this];
      }
      assert outEdges[..|outEdges|] == outEdges;
      forall n | n in outEdges ensures this in n.inEdges {
        CountPositive(outEdges, n);
        assert n.inEdges[|n.inEdges| - 1] == this;
      }
    }
  }
}
