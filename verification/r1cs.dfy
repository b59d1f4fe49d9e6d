/** A minimal model of libsnark's gadgetlib1 protoboard, restricted to what the
    three gadgets use: variable allocation, reading and writing the assignment,
    appending rank-1 constraints `a * b = c` over linear combinations, filling a
    variable array with bits and reading it back, and the satisfiability check. */
module R1CS {
  import opened Field

  /** Index of the constant variable ONE; it always holds the field's one. */
  const ONE: nat := 0

  /** `coeff * x_index` */
  datatype Term = Term(index: nat, coeff: Felt)

  /** A linear combination `sum coeff_i * x_index_i`; a constant `k` is the term `k * ONE`. */
  type LinComb = seq<Term>

  /** A rank-1 constraint `<a, X> * <b, X> = <c, X>`. */
  datatype Constraint = Constraint(a: LinComb, b: LinComb, c: LinComb)

  /** A variable used as a linear combination (coefficient one). */
  function Var(v: nat): LinComb
  {
    [Term(v, 1)]
  }

  /** A field constant used as a linear combination (a coefficient on ONE). */
  function Const(k: Felt): LinComb
  {
    [Term(ONE, k)]
  }

  /** Every variable the linear combination mentions is among the first `n`. */
  predicate InScope(lc: LinComb, n: nat)
  {
    forall i :: 0 <= i < |lc| ==> lc[i].index < n
  }

  predicate WellFormed(c: Constraint, n: nat)
  {
    InScope(c.a, n) && InScope(c.b, n) && InScope(c.c, n)
  }

  predicate AllWellFormed(cs: seq<Constraint>, n: nat)
  {
    forall i :: 0 <= i < |cs| ==> WellFormed(cs[i], n)
  }

  /** The constraint mentions variable `v` in one of its three linear combinations. */
  predicate Mentions(c: Constraint, v: nat)
  {
    exists t :: t in c.a + c.b + c.c && t.index == v
  }

  /** Value of a linear combination under the assignment `w`. */
  function Eval(lc: LinComb, w: seq<Felt>): Felt
    requires InScope(lc, |w|)
  {
    if lc == [] then 0 else Add(Mul(lc[0].coeff, w[lc[0].index]), Eval(lc[1..], w))
  }

  /** The constraint holds under `w`. */
  predicate Holds(c: Constraint, w: seq<Felt>)
    requires WellFormed(c, |w|)
  {
    Mul(Eval(c.a, w), Eval(c.b, w)) == Eval(c.c, w)
  }

  /** Every constraint of the list holds under `w`. */
  predicate AllHold(cs: seq<Constraint>, w: seq<Felt>)
    requires AllWellFormed(cs, |w|)
  {
    forall i :: 0 <= i < |cs| ==> Holds(cs[i], w)
  }

  /** A variable evaluates to its assigned value. */
  lemma EvalVar(v: nat, w: seq<Felt>)
    requires v < |w|
    ensures Eval(Var(v), w) == w[v]
  {
    assert Var(v)[1..] == [];
  }

  /** A constant evaluates to itself, as ONE is assigned one. */
  lemma EvalConst(k: Felt, w: seq<Felt>)
    requires |w| > 0 && w[ONE] == 1
    ensures Eval(Const(k), w) == k
  {
    assert Const(k)[1..] == [];
  }

  /** Evaluation is additive: the sum of two linear combinations evaluates to the
      field sum of their values. */
  lemma {:induction false} EvalPlus(x: LinComb, y: LinComb, w: seq<Felt>)
    requires InScope(x, |w|) && InScope(y, |w|)
    ensures InScope(x + y, |w|)
    ensures Eval(x + y, w) == Add(Eval(x, w), Eval(y, w))
  {
    if x == [] {
      assert x + y == y;
    } else {
      assert (x + y)[1..] == x[1..] + y;
      assert (x + y)[0] == x[0];
      EvalPlus(x[1..], y, w);
      var m := Mul(x[0].coeff, w[x[0].index]);
      assert Eval(x + y, w) == Add(m, Eval(x[1..] + y, w));
      AddAssoc(m, Eval(x[1..], w), Eval(y, w));
    }
  }

  /** `Var(u) + Var(v)` evaluates to the sum of the two values. */
  lemma EvalVarPlusVar(u: nat, v: nat, w: seq<Felt>)
    requires u < |w| && v < |w|
    ensures InScope(Var(u) + Var(v), |w|)
    ensures Eval(Var(u) + Var(v), w) == Add(w[u], w[v])
  {
    EvalVar(u, w);
    EvalVar(v, w);
    EvalPlus(Var(u), Var(v), w);
  }

  /** `Var(u) + Const(k)` evaluates to the value of `u` plus `k`. */
  lemma EvalVarPlusConst(u: nat, k: Felt, w: seq<Felt>)
    requires u < |w| && w[ONE] == 1
    ensures InScope(Var(u) + Const(k), |w|)
    ensures Eval(Var(u) + Const(k), w) == Add(w[u], k)
  {
    EvalVar(u, w);
    EvalConst(k, w);
    EvalPlus(Var(u), Const(k), w);
  }

  /** `a * b = c` over three variables holds when `c` holds the product. */
  lemma HoldsProduct(a: nat, b: nat, c: nat, w: seq<Felt>)
    requires a < |w| && b < |w| && c < |w|
    ensures WellFormed(Constraint(Var(a), Var(b), Var(c)), |w|)
    ensures Holds(Constraint(Var(a), Var(b), Var(c)), w) <==> w[c] == Mul(w[a], w[b])
  {
    EvalVar(a, w);
    EvalVar(b, w);
    EvalVar(c, w);
  }

  /** `r * 1 = lc` holds when `r` holds the value of `lc`. */
  lemma HoldsCopy(r: nat, lc: LinComb, w: seq<Felt>)
    requires r < |w| && w[ONE] == 1 && InScope(lc, |w|)
    ensures WellFormed(Constraint(Var(r), Const(1), lc), |w|)
    ensures Holds(Constraint(Var(r), Const(1), lc), w) <==> w[r] == Eval(lc, w)
  {
    EvalVar(r, w);
    EvalConst(1, w);
    MulOne(w[r]);
  }

  /** `lc * 1 = r` holds when `r` holds the value of `lc`. */
  lemma HoldsCopyBack(lc: LinComb, r: nat, w: seq<Felt>)
    requires r < |w| && w[ONE] == 1 && InScope(lc, |w|)
    ensures WellFormed(Constraint(lc, Const(1), Var(r)), |w|)
    ensures Holds(Constraint(lc, Const(1), Var(r)), w) <==> w[r] == Eval(lc, w)
  {
    EvalVar(r, w);
    EvalConst(1, w);
    MulOne(Eval(lc, w));
  }

  /** The variables `base, base + 1, ..., base + n - 1`. */
  function Range(base: nat, n: nat): seq<nat>
  {
    seq(n, i => base + i)
  }

  /** `n` zero values, the initial value of freshly allocated variables. */
  function Zeros(n: nat): seq<Felt>
  {
    seq(n, i => 0)
  }

  /** The assignment `w` after writing `xs[i]` to variable `vs[i]`, for `i` in
      increasing order (a later write to the same variable wins). */
  function Writes(w: seq<Felt>, vs: seq<nat>, xs: seq<Felt>): (r: seq<Felt>)
    requires |vs| == |xs|
    requires forall i :: 0 <= i < |vs| ==> vs[i] < |w|
    ensures |r| == |w|
    decreases |vs|
  {
    if |vs| == 0 then w
    else Writes(w, vs[..|vs| - 1], xs[..|xs| - 1])[vs[|vs| - 1] := xs[|xs| - 1]]
  }

  /** Writing to a contiguous block of variables replaces exactly that block. */
  lemma {:induction false} WritesRange(w: seq<Felt>, base: nat, xs: seq<Felt>)
    requires base + |xs| <= |w|
    ensures Writes(w, Range(base, |xs|), xs) == w[..base] + xs + w[base + |xs|..]
  {
    var n := |xs|;
    if n == 0 {
      assert w[..base] + xs + w[base..] == w;
    } else {
      assert Range(base, n)[..n - 1] == Range(base, n - 1);
      WritesRange(w, base, xs[..n - 1]);
      var prev := w[..base] + xs[..n - 1] + w[base + n - 1..];
      assert prev[base + n - 1 := xs[n - 1]] == w[..base] + xs + w[base + n..];
    }
  }

  /** Writing to variables that were just allocated appends the written values. */
  lemma WritesFresh(w: seq<Felt>, xs: seq<Felt>)
    ensures |w| + |xs| <= |w + Zeros(|xs|)|
    ensures Writes(w + Zeros(|xs|), Range(|w|, |xs|), xs) == w + xs
  {
    var u := w + Zeros(|xs|);
    WritesRange(u, |w|, xs);
    assert u[..|w|] == w;
    assert u[|w| + |xs|..] == [];
  }

  /** Setting a freshly allocated last variable replaces its zero. */
  lemma SetFresh(w: seq<Felt>, x: Felt)
    ensures (w + [0])[|w| := x] == w + [x]
  {
  }

  /** 2^n */
  function Pow2(n: nat): nat
  {
    if n == 0 then 1 else 2 * Pow2(n - 1)
  }

  /** `sum_i xs[i] * 2^i`: the little-endian reading of a digit sequence. */
  function WeightedSum(xs: seq<int>): int
  {
    if xs == [] then 0 else WeightedSum(xs[..|xs| - 1]) + xs[|xs| - 1] * Pow2(|xs| - 1)
  }

  /** The little-endian sum obeys Horner's rule from the most significant end:
      peeling off the least significant digit halves the rest. */
  lemma {:induction false} WeightedSumHorner(xs: seq<int>)
    requires |xs| > 0
    ensures WeightedSum(xs) == xs[0] + 2 * WeightedSum(xs[1..])
  {
    var n := |xs|;
    if n == 1 {
      assert xs[1..] == [];
      assert xs[..0] == [];
    } else {
      var init := xs[..n - 1];
      WeightedSumHorner(init);
      assert init[1..] == xs[1..][..n - 2];
      assert xs[1..][n - 2] == xs[n - 1];
      assert Pow2(n - 1) == 2 * Pow2(n - 2);
      assert xs[n - 1] * Pow2(n - 1) == 2 * (xs[n - 1] * Pow2(n - 2));
    }
  }

  /** A bit vector as field elements, `true` as one and `false` as zero
      (what `fill_with_bits` writes). */
  function BitsAsFelts(bits: seq<bool>): seq<Felt>
  {
    seq(|bits|, i requires 0 <= i < |bits| => if bits[i] then 1 else 0)
  }

  /** The number a bit vector denotes, least significant bit first. */
  function BitsValue(bits: seq<bool>): int
  {
    WeightedSum(BitsAsFelts(bits))
  }

  /** The protoboard: the assignment vector (index ONE included) and the
      append-only list of constraints. */
  class Protoboard {
    var values: seq<Felt>
    var constraints: seq<Constraint>

    /** ONE exists and holds one. Constraints may mention variables that do
        not exist yet: only `IsSatisfied` needs them allocated. */
    ghost predicate Valid()
      reads this
    {
      |values| > 0 && values[ONE] == 1
    }

    constructor ()
      ensures Valid()
      ensures values == [1] && constraints == []
    {
      values := [1];
      constraints := [];
    }

    /** The values held by the variables `vs`, in order. */
    function ValuesAt(vs: seq<nat>): (xs: seq<Felt>)
      reads this
      requires forall i :: 0 <= i < |vs| ==> vs[i] < |values|
      ensures |xs| == |vs|
    {
      seq(|vs|, i requires 0 <= i < |vs| && vs[i] < |values| reads this => values[vs[i]])
    }

    /** After allocating a block for `xs` on top of `w` and filling it, the
        assignment is `w + xs` and the block reads back as `xs`. */
    lemma FilledBlock(w: seq<Felt>, vs: seq<nat>, xs: seq<Felt>)
      requires vs == Range(|w|, |xs|)
      requires values == Writes(w + Zeros(|xs|), Range(|w|, |xs|), xs)
      ensures values == w + xs
      ensures ValuesAt(vs) == xs
    {
      WritesFresh(w, xs);
    }

    /** `pb.val(v) = x`. */
    method SetVal(v: nat, x: Felt)
      requires Valid() && ONE < v < |values|
      modifies this
      ensures Valid()
      ensures values == old(values)[v := x] && constraints == old(constraints)
    {
      values := values[v := x];
    }

    /** `pb_variable::allocate`: a fresh variable, initially zero. */
    method Allocate() returns (v: nat)
      requires Valid()
      modifies this
      ensures Valid()
      ensures v == old(|values|)
      ensures values == old(values) + [0] && constraints == old(constraints)
    {
      v := |values|;
      values := values + [0];
    }

    /** `pb_variable_array::allocate(pb, n)`: `n` fresh consecutive variables. */
    method AllocateArray(n: nat) returns (vs: seq<nat>)
      requires Valid()
      modifies this
      ensures Valid()
      ensures vs == Range(old(|values|), n)
      ensures values == old(values) + Zeros(n) && constraints == old(constraints)
    {
      vs := [];
      var i := 0;
      while i < n
        invariant 0 <= i <= n
        invariant Valid()
        invariant vs == Range(old(|values|), i)
        invariant values == old(values) + Zeros(i) && constraints == old(constraints)
      {
        var v := Allocate();
        vs := vs + [v];
        i := i + 1;
      }
    }

    /** `pb_variable_array::fill_with_field_elements`: `pb.val(vs[i]) = xs[i]` in order. */
    method Fill(vs: seq<nat>, xs: seq<Felt>)
      requires Valid()
      requires |vs| == |xs|
      requires forall i :: 0 <= i < |vs| ==> ONE < vs[i] < |values|
      modifies this
      ensures Valid()
      ensures values == Writes(old(values), vs, xs) && constraints == old(constraints)
    {
      var i := 0;
      while i < |vs|
        invariant 0 <= i <= |vs|
        invariant Valid()
        invariant values == Writes(old(values), vs[..i], xs[..i])
        invariant constraints == old(constraints)
      {
        SetVal(vs[i], xs[i]);
        assert vs[..i + 1][..i] == vs[..i] && xs[..i + 1][..i] == xs[..i];
        i := i + 1;
      }
      assert vs[..i] == vs && xs[..i] == xs;
    }

    /** `pb_variable_array::fill_with_bits`: one and zero for set and clear bits. */
    method FillWithBits(vs: seq<nat>, bits: seq<bool>)
      requires Valid()
      requires |vs| == |bits|
      requires forall i :: 0 <= i < |vs| ==> ONE < vs[i] < |values|
      modifies this
      ensures Valid()
      ensures values == Writes(old(values), vs, BitsAsFelts(bits)) && constraints == old(constraints)
    {
      Fill(vs, BitsAsFelts(bits));
    }

    /** `pb_variable_array::get_field_element_from_bits`: reads the array from its
        last (most significant) variable down, doubling and adding. */
    method GetFieldElementFromBits(vs: seq<nat>) returns (r: Felt)
      requires Valid()
      requires forall i :: 0 <= i < |vs| ==> vs[i] < |values|
      ensures r == Reduce(WeightedSum(ValuesAt(vs)))
    {
      ghost var xs := ValuesAt(vs);
      var n := |vs|;
      r := 0;
      var i := 0;
      while i < n
        invariant 0 <= i <= n
        invariant r == Reduce(WeightedSum(xs[n - i..]))
      {
        var v := values[vs[n - 1 - i]];
        ghost var s := WeightedSum(xs[n - i..]);
        WeightedSumHorner(xs[n - 1 - i..]);
        assert xs[n - 1 - i..][1..] == xs[n - i..];
        assert v == xs[n - 1 - i];
        DoubleAdd(s, v);
        r := Add(r, Add(r, v));
        i := i + 1;
      }
      assert xs[n - i..] == xs;
    }

    /** `pb.add_r1cs_constraint(c)`: appends; nothing is checked at this point. */
    method AddConstraint(c: Constraint)
      requires Valid()
      modifies this
      ensures Valid()
      ensures constraints == old(constraints) + [c] && values == old(values)
    {
      constraints := constraints + [c];
    }

    /** `pb.is_satisfied()`: evaluates the constraints in order and stops at the
        first one that fails. */
    method IsSatisfied() returns (ok: bool)
      requires Valid() && AllWellFormed(constraints, |values|)
      ensures ok == AllHold(constraints, values)
    {
      var i := 0;
      while i < |constraints|
        invariant 0 <= i <= |constraints|
        invariant forall j :: 0 <= j < i ==> Holds(constraints[j], values)
      {
        var c := constraints[i];
        if Mul(Eval(c.a, values), Eval(c.b, values)) != Eval(c.c, values) {
          return false;
        }
        i := i + 1;
      }
      return true;
    }
  }
}
