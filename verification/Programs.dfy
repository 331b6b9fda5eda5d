/** Forward-mode tangents as the derivative of the whole recorded program, and what an
    overwritten intermediate result does to that. */
module Programs {
  import opened RealSums
  import opened Shapes
  import opened Calculus
  import opened Operators
  import opened Duals
  import opened Graphs
  import opened TopologyBuilder

  /** Every result `root` depends on still holds the value its operator computes from its
      operands. */
  ghost predicate Coherent(p: Primitives, g: Graph, root: nat)
    requires GraphOk(g) && root < |g|
  {
    forall i :: 0 <= i < |g| && DependsOn(g, root, i) && g[i].role.Computed? ==> HoldsResult(p, g, i)
  }

  ghost predicate HoldsResult(p: Primitives, g: Graph, i: nat)
    requires GraphOk(g) && i < |g| && g[i].role.Computed?
  {
    ValuesSized(g, i);
    assert NodeOk(g, i);
    g[i].vals == Eval(p, g[i].role.op, OperandDims(g, i), g[i].dims, OperandValues(g, i))
  }

  /** Re-evaluate the recorded program on dual numbers, from its leaves and constants. */
  function Program(p: Primitives, g: Graph, seed: seq<seq<real>>, i: nat): (x: DTensor)
    requires GraphOk(g) && SeedOk(g, seed) && i < |g|
    ensures |x.v| == |x.d| == Numel(g[i].dims)
    decreases i, 1
  {
    assert NodeOk(g, i);
    NumelPositive(g[i].dims);
    match g[i].role
    case Constant => DTensor(g[i].vals, Zeros(Numel(g[i].dims)))
    case Leaf => DTensor(g[i].vals, seed[i])
    case Computed(op, parents) =>
      var x := ProgramOperands(p, g, seed, i);
      DualTensor(p, op, OperandDims(g, i), g[i].dims, x)
  }

  function ProgramOperands(p: Primitives, g: Graph, seed: seq<seq<real>>, i: nat): (x: seq<DTensor>)
    requires GraphOk(g) && SeedOk(g, seed) && i < |g|
    ensures |x| == |Operands(g, i)|
    decreases i, 0
  {
    assert NodeOk(g, i);
    seq(|Operands(g, i)|, k requires 0 <= k < |Operands(g, i)| && GraphOk(g) && SeedOk(g, seed) && ParentsEarlier(g, i) =>
      Program(p, g, seed, Operands(g, i)[k]))
  }

  /** One operator on dual operands. */
  function DualTensor(p: Primitives, op: Op, pd: seq<seq<int>>, od: seq<int>, x: seq<DTensor>): (r: DTensor)
    requires Typed(op, pd, od) && |x| == |pd|
    ensures |r.v| == |r.d| == Numel(od)
  {
    NumelPositive(od);
    DTensor(seq(Numel(od), j requires Typed(op, pd, od) && |x| == |pd| => DualAt(p, op, pd, od, x, j).v),
            Jvp(p, op, pd, od, x))
  }

  lemma DualTensorValues(p: Primitives, op: Op, pd: seq<seq<int>>, od: seq<int>, x: seq<DTensor>)
    requires Typed(op, pd, od) && |x| == |pd| && Sized(pd, Values(x)) && Lawful(p)
    ensures DualTensor(p, op, pd, od, x).v == Eval(p, op, pd, od, Values(x))
  {
    EvalLength(p, op, pd, od, Values(x));
    forall j | 0 <= j < Numel(od)
      ensures DualTensor(p, op, pd, od, x).v[j] == Eval(p, op, pd, od, Values(x))[j]
    {
      DualValue(p, op, pd, od, x, j);
    }
  }

  lemma CoherentOperand(p: Primitives, g: Graph, root: nat, k: nat)
    requires GraphOk(g) && root < |g| && Coherent(p, g, root) && k < |Operands(g, root)|
    ensures Operands(g, root)[k] < root && Coherent(p, g, Operands(g, root)[k])
  {
    assert NodeOk(g, root);
    var q := Operands(g, root)[k];
    forall i | 0 <= i < |g| && DependsOn(g, q, i) && g[i].role.Computed? ensures HoldsResult(p, g, i) {
      assert DependsOnOperand(g, root, k, i);
    }
  }

  /** If no intermediate result was overwritten, re-evaluating the program on dual numbers
      reproduces the stored values and gives the tangents of forward mode: the gradient is
      the derivative of the program as a function of its leaves. */
  lemma {:induction false} TangentIsProgramDerivative(p: Primitives, g: Graph, seed: seq<seq<real>>, i: nat)
    requires GraphOk(g) && SeedOk(g, seed) && i < |g| && Coherent(p, g, i) && Lawful(p)
    ensures Program(p, g, seed, i) == DTensor(g[i].vals, Tan(p, g, seed, i))
    decreases i
  {
    if g[i].role.Computed? {
      assert NodeOk(g, i);
      var x := ProgramOperands(p, g, seed, i);
      forall k | 0 <= k < |Operands(g, i)|
        ensures x[k] == OperandTensors(p, g, seed, i)[k]
      {
        CoherentOperand(p, g, i, k);
        TangentIsProgramDerivative(p, g, seed, Operands(g, i)[k]);
        OperandTangent(p, g, seed, i, k);
      }
      ComputedIsDual(p, g, seed, i, x);
      assert HoldsResult(p, g, i);
    }
  }

  /** A node whose operands are reproduced is reproduced, if it holds its result. */
  lemma ComputedIsDual(p: Primitives, g: Graph, seed: seq<seq<real>>, i: nat, x: seq<DTensor>)
    requires GraphOk(g) && SeedOk(g, seed) && i < |g| && g[i].role.Computed? && Lawful(p)
    requires x == ProgramOperands(p, g, seed, i) && |x| == |Operands(g, i)| && ParentsEarlier(g, i)
    requires forall k :: 0 <= k < |x| ==> x[k].v == OperandValues(g, i)[k]
    ensures Typed(g[i].role.op, OperandDims(g, i), g[i].dims) && Sized(OperandDims(g, i), OperandValues(g, i))
    ensures Program(p, g, seed, i).v
         == Eval(p, g[i].role.op, OperandDims(g, i), g[i].dims, OperandValues(g, i))
    ensures x == OperandTensors(p, g, seed, i) ==> Program(p, g, seed, i).d == Tan(p, g, seed, i)
  {
    assert NodeOk(g, i);
    ValuesSized(g, i);
    assert Values(x) == OperandValues(g, i);
    DualTensorValues(p, g[i].role.op, OperandDims(g, i), g[i].dims, x);
  }

  /** The stored values are those of the program exactly when every result the root depends
      on still holds what its operator computes. */
  lemma ReproducedIffCoherent(p: Primitives, g: Graph, seed: seq<seq<real>>, root: nat)
    requires GraphOk(g) && SeedOk(g, seed) && root < |g| && Lawful(p)
    ensures Coherent(p, g, root) <==>
            forall i :: 0 <= i < |g| && DependsOn(g, root, i) ==> Program(p, g, seed, i).v == g[i].vals
  {
    if Coherent(p, g, root) {
      forall i | 0 <= i < |g| && DependsOn(g, root, i) ensures Program(p, g, seed, i).v == g[i].vals {
        CoherentBelow(p, g, root, i);
        TangentIsProgramDerivative(p, g, seed, i);
      }
    }
    if forall i :: 0 <= i < |g| && DependsOn(g, root, i) ==> Program(p, g, seed, i).v == g[i].vals {
      forall i | 0 <= i < |g| && DependsOn(g, root, i) && g[i].role.Computed? ensures HoldsResult(p, g, i) {
        assert NodeOk(g, i);
        var x := ProgramOperands(p, g, seed, i);
        forall k | 0 <= k < |x| ensures x[k].v == OperandValues(g, i)[k] {
          DependsTransitive(g, root, i, k);
        }
        ComputedIsDual(p, g, seed, i, x);
      }
    }
  }

  lemma {:induction false} CoherentBelow(p: Primitives, g: Graph, root: nat, i: nat)
    requires GraphOk(g) && root < |g| && i < |g| && Coherent(p, g, root) && DependsOn(g, root, i)
    ensures Coherent(p, g, i)
    decreases root
  {
    if i != root {
      var k :| 0 <= k < |Operands(g, root)| && DependsOnOperand(g, root, k, i);
      CoherentOperand(p, g, root, k);
      CoherentBelow(p, g, Operands(g, root)[k], i);
    }
  }
}
