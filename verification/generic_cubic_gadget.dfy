/** The gadget of `src/generic_cubic_gadget/generic_cubic_gadget.cpp`: proves
    knowledge of `x` with `A*x^3 + B*x^2 + C*x + D = E`, the five coefficients
    being caller variables `coefficients[0..4]`. Over its ten variables
    `X = [x0, ..., x9]` it emits

      x1 = A * x0        x6 = C * x0
      x2 = x1 * x0       x7 = x6 + D
      x3 = x2 * x0       x8 = x5 + x3
      x4 = B * x0        x9 = x8 + x7
      x5 = x4 * x0       x9 = E
*/
module GenericCubicGadget {
  import opened Field
  import opened R1CS
  import opened Utils
  import CubicCircuit

  /** `x` solves `a*x^3 + b*x^2 + c*x + d = e` in the field. */
  predicate IsRoot(a: int, b: int, c: int, d: int, e: int, x: int)
  {
    Reduce(a * Pow(x, 3) + b * Pow(x, 2) + c * x + d) == e
  }

  /** The ten constraints in the order the gadget appends them, over its
      variables `v` and the coefficient variables `k`; additions use the
      constant one as the `b` operand. */
  function Circuit(v: seq<nat>, k: seq<nat>): seq<Constraint>
    requires |v| == 10 && |k| >= 5
  {
    [ Constraint(Var(k[0]), Var(v[0]), Var(v[1])),
      Constraint(Var(v[1]), Var(v[0]), Var(v[2])),
      Constraint(Var(v[2]), Var(v[0]), Var(v[3])),
      Constraint(Var(k[1]), Var(v[0]), Var(v[4])),
      Constraint(Var(v[4]), Var(v[0]), Var(v[5])),
      Constraint(Var(k[2]), Var(v[0]), Var(v[6])),
      Constraint(Var(v[6]) + Var(k[3]), Const(1), Var(v[7])),
      Constraint(Var(v[5]) + Var(v[3]), Const(1), Var(v[8])),
      Constraint(Var(v[8]) + Var(v[7]), Const(1), Var(v[9])),
      Constraint(Var(v[9]), Const(1), Var(k[4])) ]
  }

  /** The intended values of the ten variables for input `x`:
      `[x, A*x, A*x^2, A*x^3, B*x, B*x^2, C*x, C*x + D, B*x^2 + A*x^3,
        A*x^3 + B*x^2 + C*x + D]`. */
  function Wires(x: Felt, a: Felt, b: Felt, c: Felt, d: Felt): seq<Felt>
  {
    [ x, Reduce(a * x), Reduce(a * Pow(x, 2)), Reduce(a * Pow(x, 3)), Reduce(b * x),
      Reduce(b * Pow(x, 2)), Reduce(c * x), Reduce(c * x + d),
      Reduce(b * Pow(x, 2) + a * Pow(x, 3)), Reduce(a * Pow(x, 3) + b * Pow(x, 2) + c * x + d) ]
  }

  /** Multiplying a monomial by `x` raises its degree by one. */
  lemma MonomialShift(a: int, x: int)
    ensures a * x * x == a * Pow(x, 2)
    ensures a * Pow(x, 2) * x == a * Pow(x, 3)
  {
    SquareAndCube(x);
  }

  /** The three additions of the witness step, over the reduced monomials
      `m3 = A*x^3`, `m2 = B*x^2`, `m1 = C*x`. */
  lemma SumSteps(m3: int, m2: int, m1: int, d: Felt)
    ensures Add(Reduce(m1), d) == Reduce(m1 + d)
    ensures Add(Reduce(m2), Reduce(m3)) == Reduce(m2 + m3)
    ensures Add(Reduce(m2 + m3), Reduce(m1 + d)) == Reduce(m3 + m2 + m1 + d)
  {
    AddIsReduce(Reduce(m1), d);
    AddMod(m1, d);
    AddIsReduce(Reduce(m2), Reduce(m3));
    AddMod(m2, Reduce(m3));
    AddMod(m3, m2);
    AddIsReduce(Reduce(m2 + m3), Reduce(m1 + d));
    AddMod(m2 + m3, Reduce(m1 + d));
    AddMod(m1 + d, m2 + m3);
  }

  /** The step-by-step field arithmetic of the witness step computes the
      monomials and partial sums of `Wires`. */
  lemma StepsComputeCubic(x: Felt, a: Felt, b: Felt, c: Felt, d: Felt)
    ensures var W := Wires(x, a, b, c, d);
      && Mul(a, x) == W[1] && Mul(W[1], x) == W[2] && Mul(W[2], x) == W[3]
      && Mul(b, x) == W[4] && Mul(W[4], x) == W[5]
      && Mul(c, x) == W[6] && Add(W[6], d) == W[7]
      && Add(W[5], W[3]) == W[8] && Add(W[8], W[7]) == W[9]
  {
    MonomialShift(a, x);
    MonomialShift(b, x);
    MulMod(a * x, x);
    MulMod(a * Pow(x, 2), x);
    MulMod(b * x, x);
    SumSteps(a * Pow(x, 3), b * Pow(x, 2), c * x, d);
  }

  /** The ten values in the order the witness step computes them, each from
      values computed before it. */
  function Steps(x: Felt, a: Felt, b: Felt, c: Felt, d: Felt): seq<Felt>
  {
    var x1 := Mul(a, x);
    var x2 := Mul(x1, x);
    var x3 := Mul(x2, x);
    var x4 := Mul(b, x);
    var x5 := Mul(x4, x);
    var x6 := Mul(c, x);
    var x7 := Add(x6, d);
    var x8 := Add(x5, x3);
    [x, x1, x2, x3, x4, x5, x6, x7, x8, Add(x8, x7)]
  }

  /** Computing step by step yields the intended values. */
  lemma StepsAreWires(x: Felt, a: Felt, b: Felt, c: Felt, d: Felt)
    ensures Steps(x, a, b, c, d) == Wires(x, a, b, c, d)
  {
    StepsComputeCubic(x, a, b, c, d);
  }

  /** Writing ten values to ten consecutive variables in order replaces that
      block of the assignment. */
  lemma FillBlock(w: seq<Felt>, base: nat, xs: seq<Felt>)
    requires |xs| == 10 && base + 10 <= |w|
    ensures w[base := xs[0]][base + 1 := xs[1]][base + 2 := xs[2]][base + 3 := xs[3]][base + 4 := xs[4]][base + 5 := xs[5]][base + 6 := xs[6]][base + 7 := xs[7]][base + 8 := xs[8]][base + 9 := xs[9]]
            == w[..base] + xs + w[base + 10..]
  {
  }

  /** The six product constraints say that `x1..x6` hold the products. */
  lemma ProductsMeaning(v: seq<nat>, k: seq<nat>, w: seq<Felt>)
    requires |v| == 10 && |k| >= 5
    requires forall i :: 0 <= i < 10 ==> v[i] < |w|
    requires forall i :: 0 <= i < 5 ==> k[i] < |w|
    ensures forall i :: 0 <= i < 6 ==> WellFormed(Circuit(v, k)[i], |w|)
    ensures Holds(Circuit(v, k)[0], w) <==> w[v[1]] == Mul(w[k[0]], w[v[0]])
    ensures Holds(Circuit(v, k)[1], w) <==> w[v[2]] == Mul(w[v[1]], w[v[0]])
    ensures Holds(Circuit(v, k)[2], w) <==> w[v[3]] == Mul(w[v[2]], w[v[0]])
    ensures Holds(Circuit(v, k)[3], w) <==> w[v[4]] == Mul(w[k[1]], w[v[0]])
    ensures Holds(Circuit(v, k)[4], w) <==> w[v[5]] == Mul(w[v[4]], w[v[0]])
    ensures Holds(Circuit(v, k)[5], w) <==> w[v[6]] == Mul(w[k[2]], w[v[0]])
  {
    HoldsProduct(k[0], v[0], v[1], w);
    HoldsProduct(v[1], v[0], v[2], w);
    HoldsProduct(v[2], v[0], v[3], w);
    HoldsProduct(k[1], v[0], v[4], w);
    HoldsProduct(v[4], v[0], v[5], w);
    HoldsProduct(k[2], v[0], v[6], w);
  }

  /** The three sum constraints say that `x7..x9` hold the sums, and the last
      one that `x9` holds `E`. */
  lemma SumsMeaning(v: seq<nat>, k: seq<nat>, w: seq<Felt>)
    requires |v| == 10 && |k| >= 5 && |w| > 0 && w[ONE] == 1
    requires forall i :: 0 <= i < 10 ==> v[i] < |w|
    requires forall i :: 0 <= i < 5 ==> k[i] < |w|
    ensures forall i :: 6 <= i < 10 ==> WellFormed(Circuit(v, k)[i], |w|)
    ensures Holds(Circuit(v, k)[6], w) <==> w[v[7]] == Add(w[v[6]], w[k[3]])
    ensures Holds(Circuit(v, k)[7], w) <==> w[v[8]] == Add(w[v[5]], w[v[3]])
    ensures Holds(Circuit(v, k)[8], w) <==> w[v[9]] == Add(w[v[8]], w[v[7]])
    ensures Holds(Circuit(v, k)[9], w) <==> w[v[9]] == w[k[4]]
  {
    EvalVarPlusVar(v[6], k[3], w);
    HoldsCopyBack(Var(v[6]) + Var(k[3]), v[7], w);
    EvalVarPlusVar(v[5], v[3], w);
    HoldsCopyBack(Var(v[5]) + Var(v[3]), v[8], w);
    EvalVarPlusVar(v[8], v[7], w);
    HoldsCopyBack(Var(v[8]) + Var(v[7]), v[9], w);
    EvalVar(k[4], w);
    HoldsCopy(v[9], Var(k[4]), w);
  }

  /** What each constraint says about the values of the variables: the circuit
      is exactly the flattened program of the header comment. */
  lemma CircuitMeaning(v: seq<nat>, k: seq<nat>, w: seq<Felt>)
    requires |v| == 10 && |k| >= 5 && |w| > 0 && w[ONE] == 1
    requires forall i :: 0 <= i < 10 ==> v[i] < |w|
    requires forall i :: 0 <= i < 5 ==> k[i] < |w|
    ensures AllWellFormed(Circuit(v, k), |w|)
    ensures Holds(Circuit(v, k)[0], w) <==> w[v[1]] == Mul(w[k[0]], w[v[0]])
    ensures Holds(Circuit(v, k)[1], w) <==> w[v[2]] == Mul(w[v[1]], w[v[0]])
    ensures Holds(Circuit(v, k)[2], w) <==> w[v[3]] == Mul(w[v[2]], w[v[0]])
    ensures Holds(Circuit(v, k)[3], w) <==> w[v[4]] == Mul(w[k[1]], w[v[0]])
    ensures Holds(Circuit(v, k)[4], w) <==> w[v[5]] == Mul(w[v[4]], w[v[0]])
    ensures Holds(Circuit(v, k)[5], w) <==> w[v[6]] == Mul(w[k[2]], w[v[0]])
    ensures Holds(Circuit(v, k)[6], w) <==> w[v[7]] == Add(w[v[6]], w[k[3]])
    ensures Holds(Circuit(v, k)[7], w) <==> w[v[8]] == Add(w[v[5]], w[v[3]])
    ensures Holds(Circuit(v, k)[8], w) <==> w[v[9]] == Add(w[v[8]], w[v[7]])
    ensures Holds(Circuit(v, k)[9], w) <==> w[v[9]] == w[k[4]]
  {
    ProductsMeaning(v, k, w);
    SumsMeaning(v, k, w);
  }

  /** Gadget variables holding the witness steps satisfy the six product
      constraints. */
  lemma StepsSatisfyProducts(v: seq<nat>, k: seq<nat>, w: seq<Felt>)
    requires |v| == 10 && |k| >= 5
    requires forall i :: 0 <= i < 5 ==> k[i] < |w|
    requires forall i :: 0 <= i < 10 ==> v[i] < |w|
    requires forall i :: 0 <= i < 10 ==> w[v[i]] == Steps(w[v[0]], w[k[0]], w[k[1]], w[k[2]], w[k[3]])[i]
    ensures forall i :: 0 <= i < 6 ==> WellFormed(Circuit(v, k)[i], |w|) && Holds(Circuit(v, k)[i], w)
  {
    var S := Steps(w[v[0]], w[k[0]], w[k[1]], w[k[2]], w[k[3]]);
    assert w[v[1]] == S[1] && w[v[2]] == S[2] && w[v[3]] == S[3];
    assert w[v[4]] == S[4] && w[v[5]] == S[5] && w[v[6]] == S[6];
    ProductsMeaning(v, k, w);
  }

  /** Gadget variables holding the witness steps satisfy the three sum
      constraints. */
  lemma StepsSatisfySums(v: seq<nat>, k: seq<nat>, w: seq<Felt>)
    requires |v| == 10 && |k| >= 5 && |w| > 0 && w[ONE] == 1
    requires forall i :: 0 <= i < 5 ==> k[i] < |w|
    requires forall i :: 0 <= i < 10 ==> v[i] < |w|
    requires forall i :: 0 <= i < 10 ==> w[v[i]] == Steps(w[v[0]], w[k[0]], w[k[1]], w[k[2]], w[k[3]])[i]
    ensures forall i :: 6 <= i < 9 ==> WellFormed(Circuit(v, k)[i], |w|) && Holds(Circuit(v, k)[i], w)
  {
    var S := Steps(w[v[0]], w[k[0]], w[k[1]], w[k[2]], w[k[3]]);
    assert w[v[3]] == S[3] && w[v[5]] == S[5] && w[v[6]] == S[6];
    assert w[v[7]] == S[7] && w[v[8]] == S[8] && w[v[9]] == S[9];
    SumsMeaning(v, k, w);
  }

  /** An assignment whose gadget variables hold the values of the witness
      steps satisfies the first nine constraints, and the last one exactly
      when `x9` equals `E`. */
  lemma StepsSatisfyIff(v: seq<nat>, k: seq<nat>, w: seq<Felt>)
    requires |v| == 10 && |k| >= 5 && |w| > 0 && w[ONE] == 1
    requires forall i :: 0 <= i < 5 ==> k[i] < |w|
    requires forall i :: 0 <= i < 10 ==> v[i] < |w|
    requires forall i :: 0 <= i < 10 ==> w[v[i]] == Steps(w[v[0]], w[k[0]], w[k[1]], w[k[2]], w[k[3]])[i]
    ensures AllWellFormed(Circuit(v, k), |w|)
    ensures forall i :: 0 <= i < 9 ==> Holds(Circuit(v, k)[i], w)
    ensures AllHold(Circuit(v, k), w) <==> w[v[9]] == w[k[4]]
  {
    StepsSatisfyProducts(v, k, w);
    StepsSatisfySums(v, k, w);
    CircuitMeaning(v, k, w);
  }

  /** With the witness values, the first nine constraints hold for every input,
      and the whole circuit holds exactly when `x` solves the equation whose
      coefficients the variables `k` hold. */
  lemma WitnessSatisfiesIff(v: seq<nat>, k: seq<nat>, x: Felt, w: seq<Felt>)
    requires |v| == 10 && |k| >= 5 && |w| > 0 && w[ONE] == 1
    requires forall i :: 0 <= i < 5 ==> k[i] < |w|
    requires forall i :: 0 <= i < 10 ==>
      v[i] < |w| && w[v[i]] == Wires(x, w[k[0]], w[k[1]], w[k[2]], w[k[3]])[i]
    ensures AllWellFormed(Circuit(v, k), |w|)
    ensures forall i :: 0 <= i < 9 ==> Holds(Circuit(v, k)[i], w)
    ensures AllHold(Circuit(v, k), w) <==> IsRoot(w[k[0]], w[k[1]], w[k[2]], w[k[3]], w[k[4]], x)
  {
    StepsAreWires(x, w[k[0]], w[k[1]], w[k[2]], w[k[3]]);
    assert w[v[0]] == x;
    assert w[v[9]] == Wires(x, w[k[0]], w[k[1]], w[k[2]], w[k[3]])[9];
    StepsSatisfyIff(v, k, w);
  }

  /** `WitnessSatisfiesIff` for the layout the gadget produces: the ten
      variables form one block right after `pre`, and the coefficients lie in
      `pre`. */
  lemma WitnessBlockSatisfiesIff(v: seq<nat>, k: seq<nat>, x: Felt, pre: seq<Felt>, post: seq<Felt>)
    requires |v| == 10 && forall i :: 0 <= i < 10 ==> v[i] == |pre| + i
    requires |k| >= 5 && forall i :: 0 <= i < 5 ==> k[i] < |pre|
    requires |pre| > 0 && pre[ONE] == 1
    ensures var w := pre + Wires(x, pre[k[0]], pre[k[1]], pre[k[2]], pre[k[3]]) + post;
      && AllWellFormed(Circuit(v, k), |w|)
      && (AllHold(Circuit(v, k), w) <==> IsRoot(pre[k[0]], pre[k[1]], pre[k[2]], pre[k[3]], pre[k[4]], x))
  {
    var W := Wires(x, pre[k[0]], pre[k[1]], pre[k[2]], pre[k[3]]);
    var w := pre + W + post;
    forall i | 0 <= i < 5
      ensures w[k[i]] == pre[k[i]]
    {
    }
    forall i | 0 <= i < 10
      ensures w[v[i]] == W[i]
    {
    }
    WitnessSatisfiesIff(v, k, x, w);
  }

  /** Conversely, any assignment that satisfies the circuit is the witness of a
      root: `x0` solves the equation and `x1..x9` are forced. */
  lemma CircuitForcesWitness(v: seq<nat>, k: seq<nat>, w: seq<Felt>)
    requires |v| == 10 && |k| >= 5 && |w| > 0 && w[ONE] == 1
    requires forall i :: 0 <= i < 10 ==> v[i] < |w|
    requires forall i :: 0 <= i < 5 ==> k[i] < |w|
    requires AllWellFormed(Circuit(v, k), |w|)
    requires AllHold(Circuit(v, k), w)
    ensures forall i :: 0 <= i < 10 ==> w[v[i]] == Wires(w[v[0]], w[k[0]], w[k[1]], w[k[2]], w[k[3]])[i]
    ensures IsRoot(w[k[0]], w[k[1]], w[k[2]], w[k[3]], w[k[4]], w[v[0]])
  {
    CircuitMeaning(v, k, w);
    forall i | 0 <= i < 10
      ensures Holds(Circuit(v, k)[i], w)
    {
    }
    StepsComputeCubic(w[v[0]], w[k[0]], w[k[1]], w[k[2]], w[k[3]]);
  }

  /** No constraint mentions a variable that is neither ONE, one of the gadget's
      variables nor a coefficient: `sol_x` only seeds `x0` in the witness step. */
  lemma CircuitIgnores(v: seq<nat>, k: seq<nat>, s: nat)
    requires |v| == 10 && |k| >= 5 && s != ONE && s !in v
    requires forall i :: 0 <= i < 5 ==> k[i] != s
    ensures forall c :: c in Circuit(v, k) ==> !Mentions(c, s)
  {
  }

  /** With coefficients (1, 0, 1, 5, 35) the generic equation is the fixed
      gadgets' `x^3 + x + 5 = 35`. */
  lemma GeneralisesFixed(x: Felt)
    ensures IsRoot(1, 0, 1, 5, 35, x) <==> CubicCircuit.IsRoot(x, 5, 35)
  {
  }

  class GenericCubicGadget {
    const pb: Protoboard
    /** The caller's input variable holding `x`. */
    const solX: nat
    /** The caller's variables holding `A, B, C, D, E`. */
    const coefficients: seq<nat>
    /** `X = [x0, ..., x9]`. */
    const vars: seq<nat>

    /** The layout the constructor produces: `vars` are consecutive and were
        allocated after `sol_x` and the coefficient variables. */
    ghost predicate Valid()
      reads pb
    {
      && pb.Valid()
      && |vars| == 10 && (forall i :: 0 <= i < 10 ==> vars[i] == vars[0] + i)
      && ONE < vars[0] && vars[0] + 10 <= |pb.values|
      && solX < vars[0]
      && |coefficients| >= 5 && (forall i :: 0 <= i < 5 ==> coefficients[i] < vars[0])
    }

    /** Allocates exactly ten fresh variables; `coefficients` and `sol_x` are
        kept as given. */
    constructor (pb: Protoboard, coefficients: seq<nat>, solX: nat)
      requires pb.Valid() && solX < |pb.values|
      requires |coefficients| >= 5 && forall i :: 0 <= i < 5 ==> coefficients[i] < |pb.values|
      modifies pb
      ensures Valid()
      ensures this.pb == pb && this.solX == solX && this.coefficients == coefficients
      ensures vars == Range(old(|pb.values|), 10)
      ensures pb.values == old(pb.values) + Zeros(10)
      ensures pb.constraints == old(pb.constraints)
    {
      var vs := pb.AllocateArray(10);
      this.pb := pb;
      this.solX := solX;
      this.coefficients := coefficients;
      vars := vs;
    }

    /** Appends the ten constraints of the circuit in the order of the header
        comment; earlier constraints and the assignment are untouched. */
    method GenerateR1csConstraints()
      requires Valid()
      modifies pb
      ensures Valid()
      ensures pb.constraints == old(pb.constraints) + Circuit(vars, coefficients)
      ensures pb.values == old(pb.values)
    {
      var constraint1 := Constraint(Var(coefficients[0]), Var(vars[0]), Var(vars[1]));
      var constraint2 := Constraint(Var(vars[1]), Var(vars[0]), Var(vars[2]));
      var constraint3 := Constraint(Var(vars[2]), Var(vars[0]), Var(vars[3]));
      var constraint4 := Constraint(Var(coefficients[1]), Var(vars[0]), Var(vars[4]));
      var constraint5 := Constraint(Var(vars[4]), Var(vars[0]), Var(vars[5]));
      var constraint6 := Constraint(Var(coefficients[2]), Var(vars[0]), Var(vars[6]));
      var constraint7 := Constraint(Var(vars[6]) + Var(coefficients[3]), Const(1), Var(vars[7]));
      var constraint8 := Constraint(Var(vars[5]) + Var(vars[3]), Const(1), Var(vars[8]));
      var constraint9 := Constraint(Var(vars[8]) + Var(vars[7]), Const(1), Var(vars[9]));
      var constraint10 := Constraint(Var(vars[9]), Const(1), Var(coefficients[4]));
      assert Circuit(vars, coefficients)
          == [constraint1, constraint2, constraint3, constraint4, constraint5,
              constraint6, constraint7, constraint8, constraint9, constraint10];
      pb.AddConstraint(constraint1);
      pb.AddConstraint(constraint2);
      pb.AddConstraint(constraint3);
      pb.AddConstraint(constraint4);
      pb.AddConstraint(constraint5);
      pb.AddConstraint(constraint6);
      pb.AddConstraint(constraint7);
      pb.AddConstraint(constraint8);
      pb.AddConstraint(constraint9);
      pb.AddConstraint(constraint10);
    }

    /** Copies `x` from `sol_x` into `x0` and computes `x1..x9` in dependency
        order; the coefficient variables, `sol_x` and every other variable keep
        their values. */
    method GenerateR1csWitness()
      requires Valid()
      modifies pb
      ensures Valid()
      ensures pb.values == old(pb.values)[..vars[0]]
                           + Wires(old(pb.values[solX]),
                                   old(pb.values[coefficients[0]]), old(pb.values[coefficients[1]]),
                                   old(pb.values[coefficients[2]]), old(pb.values[coefficients[3]]))
                           + old(pb.values)[vars[0] + 10..]
      ensures pb.constraints == old(pb.constraints)
    {
      ghost var w := pb.values;
      ghost var W := Steps(w[solX], w[coefficients[0]], w[coefficients[1]],
                           w[coefficients[2]], w[coefficients[3]]);
      assert |W| == 10;
      ghost var v0 := vars[0];
      assert vars[1] == v0 + 1 && vars[2] == v0 + 2 && vars[3] == v0 + 3 && vars[4] == v0 + 4;
      assert vars[5] == v0 + 5 && vars[6] == v0 + 6 && vars[7] == v0 + 7 && vars[8] == v0 + 8;
      assert vars[9] == v0 + 9;
      // The assignment after the 3rd, 6th and 10th write, with the values of `Steps`.
      pb.SetVal(vars[0], pb.values[solX]);
      pb.SetVal(vars[1], Mul(pb.values[coefficients[0]], pb.values[vars[0]]));
      pb.SetVal(vars[2], Mul(pb.values[vars[1]], pb.values[vars[0]]));
      assert pb.values == w[v0 := W[0]][v0 + 1 := W[1]][v0 + 2 := W[2]];
      pb.SetVal(vars[3], Mul(pb.values[vars[2]], pb.values[vars[0]]));
      pb.SetVal(vars[4], Mul(pb.values[coefficients[1]], pb.values[vars[0]]));
      pb.SetVal(vars[5], Mul(pb.values[vars[4]], pb.values[vars[0]]));
      assert pb.values == w[v0 := W[0]][v0 + 1 := W[1]][v0 + 2 := W[2]][v0 + 3 := W[3]][v0 + 4 := W[4]][v0 + 5 := W[5]];
      pb.SetVal(vars[6], Mul(pb.values[coefficients[2]], pb.values[vars[0]]));
      pb.SetVal(vars[7], Add(pb.values[vars[6]], pb.values[coefficients[3]]));
      pb.SetVal(vars[8], Add(pb.values[vars[5]], pb.values[vars[3]]));
      pb.SetVal(vars[9], Add(pb.values[vars[8]], pb.values[vars[7]]));
      assert pb.values == w[v0 := W[0]][v0 + 1 := W[1]][v0 + 2 := W[2]][v0 + 3 := W[3]][v0 + 4 := W[4]][v0 + 5 := W[5]][v0 + 6 := W[6]][v0 + 7 := W[7]][v0 + 8 := W[8]][v0 + 9 := W[9]];
      FillBlock(w, v0, W);
      StepsAreWires(w[solX], w[coefficients[0]], w[coefficients[1]],
                    w[coefficients[2]], w[coefficients[3]]);
    }
  }

  /** The start of the test iteration: each coefficient is built from its
      bits, and the five values are copied into five fresh variables. */
  method CoefficientsFromBits(
    pb: Protoboard, coeffA: seq<bool>, coeffB: seq<bool>, coeffC: seq<bool>, coeffD: seq<bool>,
    coeffE: seq<bool>) returns (coefficients: seq<nat>)
    requires pb.Valid()
    modifies pb
    ensures pb.Valid() && pb.constraints == old(pb.constraints)
    ensures pb.values == old(pb.values) + BitsAsFelts(coeffA) + BitsAsFelts(coeffB) + BitsAsFelts(coeffC)
                         + BitsAsFelts(coeffD) + BitsAsFelts(coeffE)
                         + [Reduce(BitsValue(coeffA)), Reduce(BitsValue(coeffB)), Reduce(BitsValue(coeffC)),
                            Reduce(BitsValue(coeffD)), Reduce(BitsValue(coeffE))]
    ensures coefficients == Range(old(|pb.values|) + |coeffA| + |coeffB| + |coeffC| + |coeffD| + |coeffE|, 5)
    ensures forall i :: 0 <= i < 5 ==> coefficients[i] < |pb.values|
    ensures pb.values[coefficients[0]] == Reduce(BitsValue(coeffA))
    ensures pb.values[coefficients[1]] == Reduce(BitsValue(coeffB))
    ensures pb.values[coefficients[2]] == Reduce(BitsValue(coeffC))
    ensures pb.values[coefficients[3]] == Reduce(BitsValue(coeffD))
    ensures pb.values[coefficients[4]] == Reduce(BitsValue(coeffE))
  {
    var a := FieldElementFromBits(pb, coeffA);
    var b := FieldElementFromBits(pb, coeffB);
    var c := FieldElementFromBits(pb, coeffC);
    var d := FieldElementFromBits(pb, coeffD);
    var e := FieldElementFromBits(pb, coeffE);
    var fieldCoefficients := [a, b, c, d, e];
    ghost var w0 := pb.values;
    coefficients := pb.AllocateArray(|fieldCoefficients|);
    pb.Fill(coefficients, fieldCoefficients);
    pb.FilledBlock(w0, coefficients, fieldCoefficients);
  }

  /** The inputs of the test iteration on a fresh protoboard: the coefficient
      variables, then `x` built from its bits into `sol_x`. */
  method TestIterationInputs(
    coeffA: seq<bool>, coeffB: seq<bool>, coeffC: seq<bool>, coeffD: seq<bool>, coeffE: seq<bool>,
    xBits: seq<bool>) returns (pb: Protoboard, coefficients: seq<nat>, solX: nat)
    ensures fresh(pb) && pb.Valid() && pb.constraints == []
    ensures pb.values == [1] + BitsAsFelts(coeffA) + BitsAsFelts(coeffB) + BitsAsFelts(coeffC)
                         + BitsAsFelts(coeffD) + BitsAsFelts(coeffE)
                         + [Reduce(BitsValue(coeffA)), Reduce(BitsValue(coeffB)), Reduce(BitsValue(coeffC)),
                            Reduce(BitsValue(coeffD)), Reduce(BitsValue(coeffE))]
                         + BitsAsFelts(xBits) + [Reduce(BitsValue(xBits))]
    ensures coefficients == Range(1 + |coeffA| + |coeffB| + |coeffC| + |coeffD| + |coeffE|, 5)
    ensures solX == |pb.values| - 1 && pb.values[solX] == Reduce(BitsValue(xBits))
    ensures forall i :: 0 <= i < 5 ==> coefficients[i] < solX
    ensures pb.values[coefficients[0]] == Reduce(BitsValue(coeffA))
    ensures pb.values[coefficients[1]] == Reduce(BitsValue(coeffB))
    ensures pb.values[coefficients[2]] == Reduce(BitsValue(coeffC))
    ensures pb.values[coefficients[3]] == Reduce(BitsValue(coeffD))
    ensures pb.values[coefficients[4]] == Reduce(BitsValue(coeffE))
  {
    pb := new Protoboard();
    coefficients := CoefficientsFromBits(pb, coeffA, coeffB, coeffC, coeffD, coeffE);
    ghost var w1 := pb.values;
    var solXValue := FieldElementFromBits(pb, xBits);
    solX := pb.Allocate();
    pb.SetVal(solX, solXValue);
    SetFresh(w1 + BitsAsFelts(xBits), solXValue);
    assert forall j :: 0 <= j < |w1| ==> pb.values[j] == w1[j];
  }

  /** The satisfiability half of the test iteration: after the inputs are in
      place, the gadget's three steps run and the board is checked. The board
      is satisfied exactly when `x` solves the encoded equation. */
  method GenericCubicGadgetTestIteration(
    coeffA: seq<bool>, coeffB: seq<bool>, coeffC: seq<bool>, coeffD: seq<bool>, coeffE: seq<bool>,
    xBits: seq<bool>) returns (ok: bool)
    ensures ok <==> IsRoot(Reduce(BitsValue(coeffA)), Reduce(BitsValue(coeffB)), Reduce(BitsValue(coeffC)),
                           Reduce(BitsValue(coeffD)), Reduce(BitsValue(coeffE)), Reduce(BitsValue(xBits)))
  {
    var pb, coefficients, solX := TestIterationInputs(coeffA, coeffB, coeffC, coeffD, coeffE, xBits);
    ghost var pre := pb.values;
    var testedGadget := new GenericCubicGadget(pb, coefficients, solX);
    ghost var v := testedGadget.vars;
    assert pb.values[..v[0]] == pre && pb.values[v[0] + 10..] == [];
    testedGadget.GenerateR1csConstraints();
    testedGadget.GenerateR1csWitness();
    assert pb.values == pre + Wires(pre[solX], pre[coefficients[0]], pre[coefficients[1]],
                                    pre[coefficients[2]], pre[coefficients[3]]) + [];
    assert pb.constraints == Circuit(v, coefficients);
    WitnessBlockSatisfiesIff(v, coefficients, pre[solX], pre, []);
    ok := pb.IsSatisfied();
  }

  /** The bit vectors of the test cases denote the numbers they encode. */
  lemma TestBitValues()
    ensures BitsValue([false]) == 0 && BitsValue([true]) == 1
    ensures BitsValue([false, true]) == 2 && BitsValue([true, true]) == 3
    ensures BitsValue([false, false, true]) == 4 && BitsValue([true, false, true]) == 5
    ensures BitsValue([true, true, true]) == 7 && BitsValue([false, false, false, true]) == 8
    ensures BitsValue([false, false, false, false, true]) == 16
    ensures BitsValue([true, true, false, false, false, true]) == 35
    ensures BitsValue([true, true, true, false, true, false, false, false, false, false, false, true]) == 2071
  {
    var b := [true, true, true, false, true, false, false, false, false, false, false, true];
    BitsValueCons(b);
    BitsValueCons(b[1..]);
    BitsValueCons(b[2..]);
    BitsValueCons(b[3..]);
    BitsValueCons(b[4..]);
    BitsValueCons(b[5..]);
    BitsValueCons(b[6..]);
    BitsValueCons(b[7..]);
    BitsValueCons(b[8..]);
    BitsValueCons(b[9..]);
    BitsValueCons(b[10..]);
    BitsValueCons(b[11..]);
    assert b[12..] == [];
    var z := [false, false, false, false, true];
    BitsValueCons(z);
    BitsValueCons(z[1..]);
    BitsValueCons(z[2..]);
    BitsValueCons(z[3..]);
    BitsValueCons(z[4..]);
    assert z[5..] == [];
    BitsValueCons([false]);
    assert [false][1..] == [];
    BitsValueCons([true, true]);
    BitsValueCons([true, true, true]);
    FiveAndThirtyFive();
  }

  /** The test's three cases: `x^3 + x + 5 = 35` with `x = 3` holds;
      `4*x^3 + 2*x + 7 = 2071` holds with `x = 8` and fails with `x = 16`. */
  lemma TestCases()
    ensures IsRoot(Reduce(BitsValue([true])), Reduce(BitsValue([false])), Reduce(BitsValue([true])),
                   Reduce(BitsValue([true, false, true])),
                   Reduce(BitsValue([true, true, false, false, false, true])),
                   Reduce(BitsValue([true, true])))
    ensures IsRoot(Reduce(BitsValue([false, false, true])), Reduce(BitsValue([false])),
                   Reduce(BitsValue([false, true])), Reduce(BitsValue([true, true, true])),
                   Reduce(BitsValue([true, true, true, false, true, false, false, false, false, false, false, true])),
                   Reduce(BitsValue([false, false, false, true])))
    ensures !IsRoot(Reduce(BitsValue([false, false, true])), Reduce(BitsValue([false])),
                    Reduce(BitsValue([false, true])), Reduce(BitsValue([true, true, true])),
                    Reduce(BitsValue([true, true, true, false, true, false, false, false, false, false, false, true])),
                    Reduce(BitsValue([false, false, false, false, true])))
  {
    TestBitValues();
    assert IsRoot(1, 0, 1, 5, 35, 3);
    assert IsRoot(4, 0, 2, 7, 2071, 8);
    assert !IsRoot(4, 0, 2, 7, 2071, 16);
  }
}
