/** The gadget of `src/cubic_gadget/cubic_gadget.cpp`: proves knowledge of `x`
    with `x^3 + x + 5 = 35`, with the constants 5 and 35 built from bit vectors
    through `field_element_from_bits`. */
module CubicGadget {
  import opened Field
  import opened R1CS
  import opened Utils
  import opened CubicCircuit

  /** 5, least significant bit first. */
  const CoeffDBits: seq<bool> := [true, false, true]

  /** 35, least significant bit first. */
  const RightPartBits: seq<bool> := [true, true, false, false, false, true]

  class CubicGadget {
    const pb: Protoboard
    /** The caller's input variable holding `x`. */
    const solX: nat
    /** `X = [x0, x1, x2, x3, x4]`. */
    const vars: seq<nat>
    /** The variable holding the constant term 5. */
    const coeffD: nat
    /** The variable holding the right-hand side 35. */
    const rightPart: nat

    /** The layout the constructor produces: `vars` are consecutive, allocated
        after `sol_x` and before `coeff_D` and `right_part`. */
    ghost predicate Valid()
      reads pb
    {
      && pb.Valid()
      && |vars| == 5 && vars == Range(vars[0], 5)
      && ONE < vars[0] && solX < vars[0]
      && vars[0] + 5 <= coeffD < |pb.values|
      && vars[0] + 5 <= rightPart < |pb.values|
    }

    /** Allocates `vars`, three bit variables, `coeff_D` (= 5), six bit variables
        and `right_part` (= 35), in that order, and appends no constraint. */
    constructor (pb: Protoboard, solX: nat)
      requires pb.Valid() && solX < |pb.values|
      modifies pb
      ensures Valid() && this.pb == pb && this.solX == solX
      ensures vars == Range(old(|pb.values|), 5)
      ensures coeffD == old(|pb.values|) + 8 && rightPart == old(|pb.values|) + 15
      ensures pb.values == old(pb.values) + Zeros(5) + BitsAsFelts(CoeffDBits) + [5]
                                          + BitsAsFelts(RightPartBits) + [35]
      ensures pb.constraints == old(pb.constraints)
    {
      var vs := pb.AllocateArray(5);
      FiveAndThirtyFive();
      var coeffDValue := FieldElementFromBits(pb, CoeffDBits);
      var d := pb.Allocate();
      pb.SetVal(d, coeffDValue);
      var rightPartValue := FieldElementFromBits(pb, RightPartBits);
      var r := pb.Allocate();
      pb.SetVal(r, rightPartValue);
      this.pb := pb;
      this.solX := solX;
      vars := vs;
      coeffD := d;
      rightPart := r;
    }

    /** Appends the five constraints of the circuit, reading the current values of
        `coeff_D` and `right_part` as constants; earlier constraints and the
        assignment are untouched. */
    method GenerateR1csConstraints()
      requires Valid()
      modifies pb
      ensures Valid()
      ensures pb.constraints == old(pb.constraints) + Circuit(vars, old(pb.values[coeffD]), old(pb.values[rightPart]))
      ensures pb.values == old(pb.values)
    {
      var constraint1 := Constraint(Var(vars[0]), Var(vars[0]), Var(vars[1]));
      var constraint2 := Constraint(Var(vars[1]), Var(vars[0]), Var(vars[2]));
      var constraint3 := Constraint(Var(vars[3]), Const(1), Var(vars[2]) + Var(vars[0]));
      var constraint4 := Constraint(Var(vars[4]), Const(1), Var(vars[3]) + Const(pb.values[coeffD]));
      var constraint5 := Constraint(Var(vars[4]), Const(1), Const(pb.values[rightPart]));
      assert Circuit(vars, pb.values[coeffD], pb.values[rightPart])
          == [constraint1, constraint2, constraint3, constraint4, constraint5];
      pb.AddConstraint(constraint1);
      pb.AddConstraint(constraint2);
      pb.AddConstraint(constraint3);
      pb.AddConstraint(constraint4);
      pb.AddConstraint(constraint5);
    }

    /** Copies `x` from `sol_x` into `x0` and computes `x0..x4` in dependency order;
        no other variable changes. */
    method GenerateR1csWitness()
      requires Valid()
      modifies pb
      ensures Valid()
      ensures pb.values == old(pb.values)[..vars[0]]
                           + Wires(old(pb.values[solX]), old(pb.values[coeffD]))
                           + old(pb.values)[vars[0] + 5..]
      ensures pb.constraints == old(pb.constraints)
    {
      ghost var x, d := pb.values[solX], pb.values[coeffD];
      pb.SetVal(vars[0], pb.values[solX]);
      pb.SetVal(vars[1], Mul(pb.values[vars[0]], pb.values[vars[0]]));
      pb.SetVal(vars[2], Mul(pb.values[vars[1]], pb.values[vars[0]]));
      pb.SetVal(vars[3], Add(pb.values[vars[2]], pb.values[vars[0]]));
      pb.SetVal(vars[4], Add(pb.values[vars[3]], pb.values[coeffD]));
      StepsComputeCubic(x, d);
      assert pb.values == old(pb.values)[..vars[0]] + Wires(x, d) + old(pb.values)[vars[0] + 5..];
    }
  }

  /** The satisfiability half of the test iteration: build `x` from bits, run the
      gadget's three steps on a fresh protoboard and check it. The board is
      satisfied exactly when `x` solves `x^3 + x + 5 = 35`. */
  method CubicGadgetTestIteration(xBits: seq<bool>) returns (ok: bool)
    ensures ok <==> IsRoot(Reduce(BitsValue(xBits)), 5, 35)
  {
    var pb := new Protoboard();
    var solXValue := FieldElementFromBits(pb, xBits);
    var solX := pb.Allocate();
    pb.SetVal(solX, solXValue);
    var testedGadget := new CubicGadget(pb, solX);
    testedGadget.GenerateR1csConstraints();
    testedGadget.GenerateR1csWitness();
    WitnessSatisfiesIff(testedGadget.vars, 5, 35, solXValue, pb.values);
    assert pb.constraints == Circuit(testedGadget.vars, 5, 35);
    ok := pb.IsSatisfied();
  }

  /** The test's two cases: bits `{0, 0, 1}` (4) are rejected and bits `{1, 1}` (3)
      are accepted. */
  lemma TestCases()
    ensures !IsRoot(Reduce(BitsValue([false, false, true])), 5, 35)
    ensures IsRoot(Reduce(BitsValue([true, true])), 5, 35)
  {
    BitsValueCons([false, false, true]);
    BitsValueCons([false, true]);
    BitsValueCons([true]);
    assert [true][1..] == [];
    BitsValueCons([true, true]);
    assert [true, true][1..] == [true];
    Examples();
  }
}
