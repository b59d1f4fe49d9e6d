# Cubic-equation gadgets over a minimal protoboard

This project models the three libsnark `gadgetlib1` gadgets of the
libsnark-playground repository and proves what they promise. It also models the
part of the libsnark protoboard that they use.

- The fixed cubic gadget of `src/cubic_gadget/cubic_gadget.cpp` proves knowledge of
  `x` with `x^3 + x + 5 = 35`. It has five internal variables and five constraints.
  The constants 5 and 35 are built from bit vectors through `field_element_from_bits`.
- The copy of the same gadget in `src/cubic_gadget.cpp` writes the bit-to-field
  conversion inline. It names the constant variables `final_coeff` and `result`.
  `src/main.cpp` drives it.
- The generic cubic gadget of `src/generic_cubic_gadget/generic_cubic_gadget.cpp`
  proves knowledge of `x` with `A*x^3 + B*x^2 + C*x + D = E`. The coefficients
  are read from caller variables. It has ten internal variables and ten constraints.

Each gadget follows the same life cycle on a protoboard:
1. The constructor allocates variables.
2. `generate_r1cs_constraints` appends rank-1 constraints `a * b = c` over linear
   combinations.
3. `generate_r1cs_witness` fills the internal variables with straight-line field
   arithmetic.
4. `is_satisfied` checks every constraint against the assignment.

The model is organised as follows:

- `Field` is the scalar field of alt_bn128 (integers modulo its order `P`).
  `Reduce` gives the residue in `[0, P)` by adding or subtracting `P`, and
  `Division` proves that it is the remainder of division by `P`. Addition
  subtracts `P` once when the sum reaches `P`, as libff's `+` does.
- `R1CS` holds the linear combinations, the constraints, their evaluation and the
  `Protoboard` class. The class has two fields that its methods reassign: the
  assignment `values`, whose index 0 is the constant ONE, and the append-only
  `constraints`.
- `Utils` holds `field_element_from_bits`.
- `CubicCircuit` is the shared specification of the five-constraint circuit.
- The modules `CubicGadget`, `StandaloneCubicGadget` and `GenericCubicGadget`
  each hold one gadget class and the satisfiability part of its test driver.

The gadgets' methods are proved against specification functions:
- `Circuit` is the list of constraints.
- `Wires` holds the intended values of the internal variables, written as plain
  polynomials in `x`.

Lemmas then prove three things about these functions:
- the witness satisfies the circuit exactly when `x` is a root;
- any satisfying assignment is that witness;
- no constraint mentions `sol_x`.

The file comment of `src/cubic_gadget.cpp` says the circuit has 4 constraints
(line 77). The code appends 5, and the model follows the code.

## Model

| member | source | states |
|---|---|---|
| Field.Division | src/cubic_gadget/cubic_gadget.cpp:212-215 | every integer is a multiple of `P` plus its residue, so the residue the field operations keep is the remainder mod `P` |
| Field.ReduceUnique | src/cubic_gadget/cubic_gadget.cpp:212-215 | the residue is the only value in `[0, P)` that differs from the integer by a multiple of `P` |
| Field.AddIsReduce | src/cubic_gadget/cubic_gadget.cpp:214-215 | the field sum (less `P` when it reaches `P`) is the residue of the integer sum |
| Field.AddMod | src/cubic_gadget/cubic_gadget.cpp:214-215 | reducing an operand before adding does not change the residue of the sum |
| Field.MulMod | src/generic_cubic_gadget/generic_cubic_gadget.cpp:153-158 | reducing a factor before multiplying does not change the field product, which is what lets the chained products equal the monomials |
| Field.AddAssoc | src/cubic_gadget/cubic_gadget.cpp:184 | field addition is associative, which evaluating a sum of linear combinations such as `vars[2] + vars[0]` relies on |
| Field.DoubleAdd | src/cubic_gadget/cubic_gadget.cpp:114 | one step `result += result + v` of the bit reader maps the reduced value of `s` to the reduced value of `2*s + v` |
| R1CS.EvalPlus | src/cubic_gadget/cubic_gadget.cpp:184 | the sum of two linear combinations evaluates to the field sum of their values (induction over the left operand) |
| R1CS.EvalVarPlusConst | src/cubic_gadget/cubic_gadget.cpp:191 | `vars[3] + pb.val(coeff_D)` evaluates to the value of `vars[3]` plus the constant |
| R1CS.HoldsProduct | src/cubic_gadget/cubic_gadget.cpp:167-171 | the constraint `a * b = c` over three variables holds exactly when `c` holds the product of the values of `a` and `b` |
| R1CS.HoldsCopy | src/cubic_gadget/cubic_gadget.cpp:181-185 | `r * 1 = lc` holds exactly when `r` holds the value of `lc` |
| R1CS.HoldsCopyBack | src/generic_cubic_gadget/generic_cubic_gadget.cpp:109-113 | `lc * 1 = r` holds exactly when `r` holds the value of `lc` |
| R1CS.WritesRange | src/generic_cubic_gadget/test.cpp:33-35 | writing values in order to a block of consecutive variables replaces exactly that block and leaves every other variable unchanged |
| R1CS.WeightedSumHorner | src/cubic_gadget/cubic_gadget.cpp:114 | the little-endian value of a digit sequence is its first digit plus twice the value of the rest (Horner's rule from the top bit) |
| R1CS.Protoboard.constructor | src/cubic_gadget/test.cpp:11 | a fresh protoboard has only ONE, holding one, and no constraints |
| R1CS.Protoboard.SetVal | src/cubic_gadget/cubic_gadget.cpp:156 | `pb.val(v) = x` changes only variable `v` and no constraint |
| R1CS.Protoboard.Allocate | src/cubic_gadget/cubic_gadget.cpp:155 | a fresh variable is the next index and starts at zero; nothing else changes |
| R1CS.Protoboard.AllocateArray | src/cubic_gadget/cubic_gadget.cpp:112 | `n` fresh consecutive variables, all zero, appended after the existing ones |
| R1CS.Protoboard.Fill | src/generic_cubic_gadget/test.cpp:35 | `fill_with_field_elements` writes `xs[i]` to `vs[i]` in order and touches no constraint |
| R1CS.Protoboard.FillWithBits | src/cubic_gadget/cubic_gadget.cpp:113 | `fill_with_bits` writes one for each set bit and zero for each clear bit, in order |
| R1CS.Protoboard.FilledBlock | src/cubic_gadget/cubic_gadget.cpp:111-113 | allocating a block and then filling it appends exactly the written values, and the block reads back as them |
| R1CS.Protoboard.GetFieldElementFromBits | src/cubic_gadget/cubic_gadget.cpp:114 | the doubling loop from the last variable returns the little-endian weighted sum of the variables' values, reduced mod `P` |
| R1CS.Protoboard.AddConstraint | src/cubic_gadget/cubic_gadget.cpp:201-205 | `add_r1cs_constraint` appends the constraint at the end and leaves the assignment unchanged |
| R1CS.Protoboard.IsSatisfied | src/cubic_gadget/test.cpp:31-34 | the board is reported satisfied exactly when every constraint holds under the assignment |
| Utils.FieldElementFromBits | src/cubic_gadget/cubic_gadget.cpp:110-116 | returns the little-endian value of the bits mod `P`; appends exactly one variable per bit, holding that bit; earlier variables and the constraints are unchanged |
| Utils.BitsValueBounds | src/cubic_gadget/cubic_gadget.cpp:110-116 | an `n`-bit vector denotes a number in `[0, 2^n)` |
| Utils.BitsValueCons | src/cubic_gadget/cubic_gadget.cpp:110-116 | the value of a bit vector is its first bit plus twice the value of the remaining bits |
| Utils.BitsRoundTrip | src/cubic_gadget/cubic_gadget.cpp:110-116 | decoding the `n`-bit little-endian encoding of any `k < 2^n` gives `k` back |
| Utils.FiveAndThirtyFive | src/cubic_gadget/cubic_gadget.cpp:153-161 | the bit vectors `{1, 0, 1}` and `{1, 1, 0, 0, 0, 1}` denote 5 and 35 |
| CubicCircuit.StepsComputeCubic | src/cubic_gadget/cubic_gadget.cpp:208-216 | multiplying and adding step by step in the field gives `x^2`, `x^3`, `x^3 + x` and `x^3 + x + d`, each reduced mod `P` |
| CubicCircuit.CircuitWellFormed | src/cubic_gadget/cubic_gadget.cpp:165-206 | every variable the five constraints mention lies below any bound that covers ONE and the five `vars` |
| CubicCircuit.CircuitMeaning | src/cubic_gadget/cubic_gadget.cpp:165-199 | each of the five constraints holds exactly when its gate holds: `x1 = x0*x0`, `x2 = x1*x0`, `x3 = x2+x0`, `x4 = x3+d`, `x4 = e` |
| CubicCircuit.WitnessSatisfiesIff | src/cubic_gadget/cubic_gadget.cpp:165-216 | with the witness values, constraints 1-4 always hold, and the whole circuit holds exactly when `x^3 + x + d = e` in the field |
| CubicCircuit.CircuitForcesWitness | src/cubic_gadget/cubic_gadget.cpp:165-206 | any assignment that satisfies the circuit is the witness of its own `x0`, and `x0` is a root |
| CubicCircuit.CircuitIgnores | src/cubic_gadget/cubic_gadget.cpp:165-209 | no constraint mentions a variable other than ONE and the five `vars`, so `sol_x` only seeds `x0` |
| CubicCircuit.Examples | src/cubic_gadget.cpp:86-96 | `x = 3` gives the witness `[3, 9, 27, 30, 35]` and is a root of `x^3 + x + 5 = 35`; `x = 4` is not |
| CubicGadget.CubicGadget.constructor | src/cubic_gadget/cubic_gadget.cpp:140-162 | allocates, in order, the 5 `vars`, 3 bit variables, `coeff_D` holding 5, 6 bit variables and `right_part` holding 35 (16 variables in all); appends no constraint |
| CubicGadget.CubicGadget.GenerateR1csConstraints | src/cubic_gadget/cubic_gadget.cpp:165-206 | appends exactly the five constraints of the circuit, in order, reading `coeff_D` and `right_part` as constants at that moment; the assignment and earlier constraints are unchanged |
| CubicGadget.CubicGadget.GenerateR1csWitness | src/cubic_gadget/cubic_gadget.cpp:208-216 | the five `vars` become `[x, x^2, x^3, x^3 + x, x^3 + x + val(coeff_D)]` (5 after the constructor) for `x = val(sol_x)` (mod `P`), with `val(coeff_D)` read when the method is called; every other variable and all constraints are unchanged |
| CubicGadget.CubicGadgetTestIteration | src/cubic_gadget/test.cpp:8-34 | after the gadget's three steps on a fresh board, `is_satisfied` holds exactly when the number the bits denote solves `x^3 + x + 5 = 35` |
| CubicGadget.TestCases | src/cubic_gadget/test.cpp:65-81 | the bits `{0, 0, 1}` (4) are rejected and the bits `{1, 1}` (3) are accepted |
| StandaloneCubicGadget.AllocateFromBits | src/cubic_gadget.cpp:137-143 | the inline conversion appends one variable per bit, holding that bit, then one variable holding the value of the bits; the constraints are unchanged |
| StandaloneCubicGadget.CubicGadget.constructor | src/cubic_gadget.cpp:121-153 | allocates, in order, the 5 `vars`, 3 bit variables, `final_coeff` holding 5, 6 bit variables and `result` holding 35; appends no constraint |
| StandaloneCubicGadget.CubicGadget.GenerateR1csConstraints | src/cubic_gadget.cpp:156-197 | appends exactly five constraints (not four), in order, with `val(final_coeff)` and `val(result)` embedded as constants on ONE |
| StandaloneCubicGadget.CubicGadget.GenerateR1csWitness | src/cubic_gadget.cpp:199-207 | the five `vars` become `[x, x^2, x^3, x^3 + x, x^3 + x + val(final_coeff)]` (5 after the constructor) for `x = val(sol_x)` (mod `P`), with both values read when the method is called; `sol_x`, `final_coeff`, `result`, the bit variables and the constraints are unchanged |
| StandaloneCubicGadget.CubicGadgetTest | src/main.cpp:7-33 | after the inline bit conversion of `x` and the gadget's three steps, the board is satisfied exactly when `x` solves `x^3 + x + 5 = 35` |
| GenericCubicGadget.StepsComputeCubic | src/generic_cubic_gadget/generic_cubic_gadget.cpp:153-161 | each field product and sum of the witness step gives the monomial or partial sum of the polynomial it stands for, reduced mod `P` |
| GenericCubicGadget.StepsAreWires | src/generic_cubic_gadget/generic_cubic_gadget.cpp:148-162 | the values computed in dependency order are `x, A*x, A*x^2, A*x^3, B*x, B*x^2, C*x, C*x + D, B*x^2 + A*x^3, A*x^3 + B*x^2 + C*x + D`, each mod `P` |
| GenericCubicGadget.ProductsMeaning | src/generic_cubic_gadget/generic_cubic_gadget.cpp:66-106 | each of the six product constraints holds exactly when its variable holds the product |
| GenericCubicGadget.SumsMeaning | src/generic_cubic_gadget/generic_cubic_gadget.cpp:108-134 | the three sum constraints hold exactly when their variables hold the sums, and the last holds exactly when `x9 = E` |
| GenericCubicGadget.CircuitMeaning | src/generic_cubic_gadget/generic_cubic_gadget.cpp:13-23 | the ten constraints are exactly the flattened program of the header comment, gate by gate |
| GenericCubicGadget.StepsSatisfyProducts | src/generic_cubic_gadget/generic_cubic_gadget.cpp:66-106 | when the variables hold the values of the witness steps, the six product constraints hold |
| GenericCubicGadget.StepsSatisfySums | src/generic_cubic_gadget/generic_cubic_gadget.cpp:107-126 | when the variables hold the values of the witness steps, the three sum constraints hold |
| GenericCubicGadget.StepsSatisfyIff | src/generic_cubic_gadget/generic_cubic_gadget.cpp:65-162 | when the variables hold the values of the witness steps, constraints 1-9 hold and the circuit holds exactly when `x9 = E` |
| GenericCubicGadget.WitnessSatisfiesIff | src/generic_cubic_gadget/generic_cubic_gadget.cpp:109-162 | with the witness values, constraints 1-9 hold for every input, and the circuit holds exactly when `A*x^3 + B*x^2 + C*x + D = E` in the field |
| GenericCubicGadget.WitnessBlockSatisfiesIff | src/generic_cubic_gadget/generic_cubic_gadget.cpp:48-162 | the same equivalence for the gadget's layout: ten consecutive witness variables allocated after the coefficient variables |
| GenericCubicGadget.CircuitForcesWitness | src/generic_cubic_gadget/generic_cubic_gadget.cpp:65-146 | any satisfying assignment holds the witness values of its own `x0`, and `x0` is a root |
| GenericCubicGadget.CircuitIgnores | src/generic_cubic_gadget/generic_cubic_gadget.cpp:65-149 | no constraint mentions a variable other than ONE, the ten `vars` and the five coefficients, so `sol_x` only seeds `x0` |
| GenericCubicGadget.GeneralisesFixed | src/generic_cubic_gadget/test.cpp:86-94 | with coefficients `(1, 0, 1, 5, 35)` the generic equation is the fixed gadgets' `x^3 + x + 5 = 35` |
| GenericCubicGadget.GenericCubicGadget.constructor | src/generic_cubic_gadget/generic_cubic_gadget.cpp:48-62 | allocates exactly ten fresh variables and nothing else; `coefficients` and `sol_x` are the caller's variables |
| GenericCubicGadget.GenericCubicGadget.GenerateR1csConstraints | src/generic_cubic_gadget/generic_cubic_gadget.cpp:65-146 | appends exactly the ten constraints of the header comment, in order, with 1 as the `b` operand of the additions; the assignment and earlier constraints are unchanged |
| GenericCubicGadget.GenericCubicGadget.GenerateR1csWitness | src/generic_cubic_gadget/generic_cubic_gadget.cpp:148-162 | the ten `vars` become the intended values for `x = val(sol_x)` and the coefficients' values; the coefficient variables, `sol_x`, every other variable and the constraints are unchanged |
| GenericCubicGadget.CoefficientsFromBits | src/generic_cubic_gadget/test.cpp:26-35 | appends the bit variables of `A`, `B`, `C`, `D` and `E` in that order, each holding its bit, then five consecutive coefficient variables holding the values of the five bit vectors, mod `P`; earlier variables and the constraints are unchanged |
| GenericCubicGadget.TestIterationInputs | src/generic_cubic_gadget/test.cpp:18-41 | the fresh board holds ONE, the bit variables of the five coefficients, the five coefficient variables, the bit variables of `x` and finally `sol_x` holding `x`, and no constraint |
| GenericCubicGadget.GenericCubicGadgetTestIteration | src/generic_cubic_gadget/test.cpp:8-56 | after the gadget's three steps, the board is satisfied exactly when `x` solves the equation that the coefficient bits encode |
| GenericCubicGadget.TestBitValues | src/generic_cubic_gadget/test.cpp:89-136 | the bit vectors of the test cases denote 0, 1, 2, 3, 4, 5, 7, 8, 16, 35 and 2071 |
| GenericCubicGadget.TestCases | src/generic_cubic_gadget/test.cpp:86-147 | `(1, 0, 1, 5, 35)` with `x = 3` and `(4, 0, 2, 7, 2071)` with `x = 8` are satisfied; `(4, 0, 2, 7, 2071)` with `x = 16` is not |

## Left out

- Key generation, proving and verification (`r1cs_ppzksnark_*`), curve parameter initialisation and the `[DEBUG]` output of the test drivers are not modelled. They are external cryptography and I/O.
- CubicGadget.CubicGadgetTestIteration, StandaloneCubicGadget.CubicGadgetTest and GenericCubicGadget.GenericCubicGadgetTestIteration: these return the `is_satisfied` result only. The source also requires the generated proof to verify before it returns true.
- `set_input_sizes`, `primary_input` and `auxiliary_input` are not modelled. They only split the assignment for the proof system. In the generic test, the first five variables (the would-be primary input) are bit variables from the conversions of the first coefficients (`A`, `B`, `C`, ...), not the coefficient variables, because the coefficients are allocated after all the bit conversions (the layout `TestIterationInputs` states).
- The gadget classes store `sol_x` and the coefficient variables as `const` indices. The source holds them by reference. No caller changes them after construction, so the copies behave the same.
- Annotation strings and `FMT` are not modelled. They are diagnostics only.
- libsnark keeps ONE outside its value vector. The model stores ONE at index 0 of `values` with the value one, which gives the same indices and evaluations.
- The sum of two linear combinations is modelled as concatenation of their terms. libsnark merges terms by variable, which gives the same evaluation.
- R1CS.Protoboard.SetVal: requires the variable to be allocated and not ONE. The source never writes ONE.
- R1CS.Protoboard.AddConstraint: does not check that the constraint's variables exist, as libsnark does not. Instead, `IsSatisfied` requires every constraint to mention only allocated variables. In libsnark, evaluating a constraint that mentions a missing variable is an out-of-range access.
- R1CS.Protoboard.GetFieldElementFromBits: libsnark asserts in debug builds that every variable holds zero or one. The model does not check this; every caller writes bits there just before.
- `src/secret_root_gadget/secret_root_gadget.cpp` is not part of this model. It is a comment with no code.
- `src/utils.hpp` only declares `field_element_from_bits`, and its definition file `utils.tcc` is not part of this model. The definition in `src/cubic_gadget/cubic_gadget.cpp` is modelled instead.
- The field is the integers modulo the alt_bn128 scalar order. libff's Montgomery representation is not modelled.
