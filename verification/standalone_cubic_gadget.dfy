/** The gadget of `src/cubic_gadget.cpp` (driven by `src/main.cpp`): the same
    `x^3 + x + 5 = 35` circuit as `CubicGadget`, with the bit-to-field conversion
    of the constants written out inline and the constant variables named
    `final_coeff` and `result`. */
module StandaloneCubicGadget {
  import opened Field
  import opened R1CS
  import opened Utils
  import opened CubicCircuit

  /** 5, least significant bit first. */
  const CoeffBits: seq<bool> := [true, false, true]

  /** 35, least significant bit first. */
  const ResBits: seq<bool> := [true, true, false, false, false, true]

  /** The statement group the file writes out three times (for `final_coeff`,
      `result` and, in the test driver, `sol_x`): allocate one variable per bit,
      fill them with the bits, read them back as a field element, then allocate
      one more variable and store that element in it. */
  method AllocateFromBits(pb: Protoboard, bits: seq<bool>) returns (v: nat, value: Felt)
    requires pb.Valid()
    modifies pb
    ensures pb.Valid()
    ensures value == Reduce(BitsValue(bits))
    ensures v == old(|pb.values|) + |bits|
    ensures pb.values == old(pb.values) + BitsAsFelts(bits) + [value]
    ensures pb.constraints == old(pb.constraints)
  {
    var valueBits := pb.AllocateArray(|bits|);
    pb.FillWithBits(valueBits, bits);
    pb.FilledBlock(old(pb.values), valueBits, BitsAsFelts(bits));
    value := pb.GetFieldElementFromBits(valueBits);
    ghost var w := pb.values;
    v := pb.Allocate();
    pb.SetVal(v, value);
    SetFresh(w, value);
  }

  class CubicGadget {
    const pb: Protoboard
    /** The caller's input variable holding `x`. */
    const solX: nat
    /** `X = [x0, x1, x2, x3, x4]`. */
    const vars: seq<nat>
    /** The variable holding the constant term 5. */
    const finalCoeff: nat
    /** The variable holding the right-hand side 35. */
    const result: nat

    ghost predicate Valid()
      reads pb
    {
      && pb.Valid()
      && |vars| == 5 && vars == Range(vars[0], 5)
      && ONE < vars[0] && solX < vars[0]
      && vars[0] + 5 <= finalCoeff < |pb.values|
      && vars[0] + 5 <= result < |pb.values|
    }

    /** Allocates `vars`, three bit variables, `final_coeff` (= 5), six bit
        variables and `result` (= 35), in that order, and appends no constraint. */
    constructor (pb: Protoboard, solX: nat)
      requires pb.Valid() && solX < |pb.values|
      modifies pb
      ensures Valid() && this.pb == pb && this.solX == solX
      ensures vars == Range(old(|pb.values|), 5)
      ensures finalCoeff == old(|pb.values|) + 8 && result == old(|pb.values|) + 15
      ensures pb.values == old(pb.values) + Zeros(5) + BitsAsFelts(CoeffBits) + [5]
                                          + BitsAsFelts(ResBits) + [35]
      ensures pb.constraints == old(pb.constraints)
    {
      var vs := pb.AllocateArray(5);
      FiveAndThirtyFive();
      var fc, coeffValue := AllocateFromBits(pb, CoeffBits);
      var r, resValue := AllocateFromBits(pb, ResBits);
      this.pb := pb;
      this.solX := solX;
      vars := vs;
      finalCoeff := fc;
      result := r;
    }

    /** Appends the five constraints (five, not the four the file's header
        comment announces), reading `final_coeff` and `result` as constants at
        this point; earlier constraints and the assignment are untouched. */
    method GenerateR1csConstraints()
      requires Valid()
      modifies pb
      ensures Valid()
      ensures pb.constraints == old(pb.constraints) + Circuit(vars, old(pb.values[finalCoeff]), old(pb.values[result]))
      ensures |pb.constraints| == old(|pb.constraints|) + 5
      ensures pb.values == old(pb.values)
    {
      var constraint1 := Constraint(Var(vars[0]), Var(vars[0]), Var(vars[1]));
      var constraint2 := Constraint(Var(vars[1]), Var(vars[0]), Var(vars[2]));
      var constraint3 := Constraint(Var(vars[3]), Const(1), Var(vars[2]) + Var(vars[0]));
      var constraint4 := Constraint(Var(vars[4]), Const(1), Var(vars[3]) + Const(pb.values[finalCoeff]));
      var constraint5 := Constraint(Var(vars[4]), Const(1), Const(pb.values[result]));
      assert Circuit(vars, pb.values[finalCoeff], pb.values[result])
          == [constraint1, constraint2, constraint3, constraint4, constraint5];
      pb.AddConstraint(constraint1);
      pb.AddConstraint(constraint2);
      pb.AddConstraint(constraint3);
      pb.AddConstraint(constraint4);
      pb.AddConstraint(constraint5);
    }

    /** Copies `x` from `sol_x` into `x0` and computes `x0..x4` in dependency
        order; `sol_x`, `final_coeff`, `result` and the bit variables keep
        their values. */
    method GenerateR1csWitness()
      requires Valid()
      modifies pb
      ensures Valid()
      ensures pb.values == old(pb.values)[..vars[0]]
                           + Wires(old(pb.values[solX]), old(pb.values[finalCoeff]))
                           + old(pb.values)[vars[0] + 5..]
      ensures pb.constraints == old(pb.constraints)
    {
      ghost var x, d := pb.values[solX], pb.values[finalCoeff];
      pb.SetVal(vars[0], pb.values[solX]);
      pb.SetVal(vars[1], Mul(pb.values[vars[0]], pb.values[vars[0]]));
      pb.SetVal(vars[2], Mul(pb.values[vars[1]], pb.values[vars[0]]));
      pb.SetVal(vars[3], Add(pb.values[vars[2]], pb.values[vars[0]]));
      pb.SetVal(vars[4], Add(pb.values[vars[3]], pb.values[finalCoeff]));
      StepsComputeCubic(x, d);
      assert pb.values == old(pb.values)[..vars[0]] + Wires(x, d) + old(pb.values)[vars[0] + 5..];
    }
  }

  /** The satisfiability half of `cubic_gadget_test`: the bits of `x` are written
      to a fresh array and read back inline, then the gadget's three steps run on
      a fresh protoboard. The board is satisfied exactly when `x` solves
      `x^3 + x + 5 = 35`. */
  method CubicGadgetTest(xBits: seq<bool>) returns (ok: bool)
    ensures ok <==> IsRoot(Reduce(BitsValue(xBits)), 5, 35)
  {
    var pb := new Protoboard();
    var solX, solXValue := AllocateFromBits(pb, xBits);
    var testedGadget := new CubicGadget(pb, solX);
    testedGadget.GenerateR1csConstraints();
    testedGadget.GenerateR1csWitness();
    WitnessSatisfiesIff(testedGadget.vars, 5, 35, solXValue, pb.values);
    assert pb.constraints == Circuit(testedGadget.vars, 5, 35);
    ok := pb.IsSatisfied();
  }
}
