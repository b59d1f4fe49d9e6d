/** The flattened circuit for `x^3 + x + d = e` that both fixed-coefficient cubic
    gadgets emit, over their five variables `X = [x0, x1, x2, x3, x4]`:

      x1 = x0 * x0
      x2 = x1 * x0
      x3 = x2 + x0
      x4 = x3 + d
      x4 = e

    The two gadgets embed `d = 5` and `e = 35`. */
module CubicCircuit {
  import opened Field
  import opened R1CS

  /** `x` solves `x^3 + x + d = e` in the field. */
  predicate IsRoot(x: int, d: int, e: int)
  {
    Reduce(Pow(x, 3) + x + d) == e
  }

  /** The five constraints in the order the gadgets append them. Additions use
      the constant one as the `b` operand; `d` and `e` are constants on ONE. */
  function Circuit(v: seq<nat>, d: Felt, e: Felt): seq<Constraint>
    requires |v| == 5
  {
    [ Constraint(Var(v[0]), Var(v[0]), Var(v[1])),
      Constraint(Var(v[1]), Var(v[0]), Var(v[2])),
      Constraint(Var(v[3]), Const(1), Var(v[2]) + Var(v[0])),
      Constraint(Var(v[4]), Const(1), Var(v[3]) + Const(d)),
      Constraint(Var(v[4]), Const(1), Const(e)) ]
  }

  /** The intended values of the five variables for input `x`:
      `[x, x^2, x^3, x^3 + x, x^3 + x + d]`. */
  function Wires(x: Felt, d: Felt): seq<Felt>
  {
    [x, Reduce(Pow(x, 2)), Reduce(Pow(x, 3)), Reduce(Pow(x, 3) + x), Reduce(Pow(x, 3) + x + d)]
  }

  /** The step-by-step field arithmetic of the witness step computes the powers
      and sums of `Wires`. */
  lemma StepsComputeCubic(x: Felt, d: Felt)
    ensures Mul(x, x) == Wires(x, d)[1]
    ensures Mul(Wires(x, d)[1], x) == Wires(x, d)[2]
    ensures Add(Wires(x, d)[2], x) == Wires(x, d)[3]
    ensures Add(Wires(x, d)[3], d) == Wires(x, d)[4]
  {
    SquareAndCube(x);
    MulMod(Pow(x, 2), x);
    AddIsReduce(Reduce(Pow(x, 3)), x);
    AddMod(Pow(x, 3), x);
    AddIsReduce(Reduce(Pow(x, 3) + x), d);
    AddMod(Pow(x, 3) + x, d);
  }

  /** Every variable of the circuit is one of the first `n`. */
  lemma CircuitWellFormed(v: seq<nat>, d: Felt, e: Felt, n: nat)
    requires |v| == 5 && n > 0
    requires forall i :: 0 <= i < 5 ==> v[i] < n
    ensures AllWellFormed(Circuit(v, d, e), n)
  {
  }

  /** What each constraint says about the values of the five variables: the
      circuit is exactly the flattened program. */
  lemma CircuitMeaning(v: seq<nat>, d: Felt, e: Felt, w: seq<Felt>)
    requires |v| == 5 && |w| > 0 && w[ONE] == 1
    requires forall i :: 0 <= i < 5 ==> v[i] < |w|
    ensures AllWellFormed(Circuit(v, d, e), |w|)
    ensures Holds(Circuit(v, d, e)[0], w) <==> w[v[1]] == Mul(w[v[0]], w[v[0]])
    ensures Holds(Circuit(v, d, e)[1], w) <==> w[v[2]] == Mul(w[v[1]], w[v[0]])
    ensures Holds(Circuit(v, d, e)[2], w) <==> w[v[3]] == Add(w[v[2]], w[v[0]])
    ensures Holds(Circuit(v, d, e)[3], w) <==> w[v[4]] == Add(w[v[3]], d)
    ensures Holds(Circuit(v, d, e)[4], w) <==> w[v[4]] == e
  {
    HoldsProduct(v[0], v[0], v[1], w);
    HoldsProduct(v[1], v[0], v[2], w);
    EvalVarPlusVar(v[2], v[0], w);
    HoldsCopy(v[3], Var(v[2]) + Var(v[0]), w);
    EvalVarPlusConst(v[3], d, w);
    HoldsCopy(v[4], Var(v[3]) + Const(d), w);
    EvalConst(e, w);
    HoldsCopy(v[4], Const(e), w);
    CircuitWellFormed(v, d, e, |w|);
  }

  /** With the witness values, the first four constraints always hold, and the
      whole circuit holds exactly when `x` solves `x^3 + x + d = e`. */
  lemma WitnessSatisfiesIff(v: seq<nat>, d: Felt, e: Felt, x: Felt, w: seq<Felt>)
    requires |v| == 5 && |w| > 0 && w[ONE] == 1
    requires forall i :: 0 <= i < 5 ==> v[i] < |w| && w[v[i]] == Wires(x, d)[i]
    ensures AllWellFormed(Circuit(v, d, e), |w|)
    ensures forall i :: 0 <= i < 4 ==> Holds(Circuit(v, d, e)[i], w)
    ensures AllHold(Circuit(v, d, e), w) <==> IsRoot(x, d, e)
  {
    CircuitMeaning(v, d, e, w);
    StepsComputeCubic(x, d);
  }

  /** Conversely, any assignment that satisfies the circuit is the witness of a
      root: `x0` solves the equation and the other four variables are forced. */
  lemma CircuitForcesWitness(v: seq<nat>, d: Felt, e: Felt, w: seq<Felt>)
    requires |v| == 5 && |w| > 0 && w[ONE] == 1
    requires forall i :: 0 <= i < 5 ==> v[i] < |w|
    requires AllWellFormed(Circuit(v, d, e), |w|)
    requires AllHold(Circuit(v, d, e), w)
    ensures forall i :: 0 <= i < 5 ==> w[v[i]] == Wires(w[v[0]], d)[i]
    ensures IsRoot(w[v[0]], d, e)
  {
    CircuitMeaning(v, d, e, w);
    assert Holds(Circuit(v, d, e)[0], w) && Holds(Circuit(v, d, e)[1], w);
    assert Holds(Circuit(v, d, e)[2], w) && Holds(Circuit(v, d, e)[3], w);
    assert Holds(Circuit(v, d, e)[4], w);
    StepsComputeCubic(w[v[0]], d);
  }

  /** No constraint mentions a variable outside the five (other than ONE): the
      input variable `sol_x` only seeds `x0` during witness generation. */
  lemma CircuitIgnores(v: seq<nat>, d: Felt, e: Felt, s: nat)
    requires |v| == 5 && s != ONE && s !in v
    ensures forall c :: c in Circuit(v, d, e) ==> !Mentions(c, s)
  {
  }

  /** The source's scenarios: `x = 3` gives the witness `[3, 9, 27, 30, 35]` and
      solves `x^3 + x + 5 = 35`; `x = 4` (73) does not. */
  lemma Examples()
    ensures Wires(3, 5) == [3, 9, 27, 30, 35]
    ensures IsRoot(3, 5, 35)
    ensures !IsRoot(4, 5, 35)
  {
  }
}
