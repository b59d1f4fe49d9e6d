/** The prime field the gadgets are instantiated over: the scalar field of the
    alt_bn128 curve (`libff::Fr<alt_bn128_pp>`), modelled as the integers modulo
    its order. Elements are kept in canonical form, `0 <= x < P`. */
module Field {

  /** Order of the alt_bn128 scalar field. */
  const P: nat := 21888242871839275222246405745257275088548364400416034343698204186575808495617

  /** A canonical field element. */
  type Felt = x: int | 0 <= x < P

  /** The canonical representative of an integer: the residue in `[0, P)`
      reached by adding or subtracting the modulus. */
  function Reduce(x: int): Felt
    decreases if x < 0 then P - x else x
  {
    if x < 0 then Reduce(x + P) else if x < P then x else Reduce(x - P)
  }

  /** How many times the modulus is taken away on the way to `Reduce(x)`. */
  function Quot(x: int): int
    decreases if x < 0 then P - x else x
  {
    if x < 0 then Quot(x + P) - 1 else if x < P then 0 else Quot(x - P) + 1
  }

  /** Every integer is its quotient times the modulus plus its residue. */
  lemma {:induction false} Division(x: int)
    ensures x == Quot(x) * P + Reduce(x)
    decreases if x < 0 then P - x else x
  {
    if x < 0 {
      Division(x + P);
    } else if x >= P {
      Division(x - P);
    }
  }

  /** The residue is the only remainder in `[0, P)`. */
  lemma ReduceUnique(x: int, q: int, r: int)
    requires 0 <= r < P && x == q * P + r
    ensures Reduce(x) == r
  {
    Division(x);
  }

  /** Adding a multiple of the modulus does not change the residue. */
  lemma ReduceAddMultiple(k: int, m: int)
    ensures Reduce(k * P + m) == Reduce(m)
  {
    Division(m);
    ReduceUnique(k * P + m, k + Quot(m), Reduce(m));
  }

  /** Field addition, as libff computes it: the sum, less the modulus when it
      reaches the modulus. */
  function Add(a: Felt, b: Felt): Felt
  {
    if a + b < P then a + b else a + b - P
  }

  /** Field addition is the residue of the integer sum. */
  lemma AddIsReduce(a: Felt, b: Felt)
    ensures Add(a, b) == Reduce(a + b)
  {
    if a + b >= P {
      assert Reduce(a + b) == Reduce(a + b - P);
    }
  }

  /** Field multiplication. */
  function Mul(a: Felt, b: Felt): Felt
  {
    Reduce(a * b)
  }

  /** One is the multiplicative identity. */
  lemma MulOne(a: Felt)
    ensures Mul(a, 1) == a
  {
  }

  /** `x` to the power `n`, over the integers. */
  function Pow(x: int, n: nat): int
  {
    if n == 0 then 1 else x * Pow(x, n - 1)
  }

  /** The two powers the cubic gadgets use, as products. */
  lemma SquareAndCube(x: int)
    ensures Pow(x, 2) == x * x
    ensures Pow(x, 3) == Pow(x, 2) * x
  {
    assert Pow(x, 1) == x;
  }

  /** Reducing the left operand of a sum first does not change the residue. */
  lemma AddMod(a: int, b: int)
    ensures Reduce(Reduce(a) + b) == Reduce(a + b)
  {
    Division(a);
    ReduceAddMultiple(Quot(a), Reduce(a) + b);
  }

  /** Reducing the left operand of a product first does not change the residue. */
  lemma MulMod(a: int, b: int)
    ensures Reduce(Reduce(a) * b) == Reduce(a * b)
  {
    Division(a);
    var q, r := Quot(a), Reduce(a);
    assert a * b == (q * b) * P + r * b by {
      assert a * b == (q * P + r) * b;
    }
    ReduceAddMultiple(q * b, r * b);
  }

  /** One step of `result += result + v` on reduced values: it reduces
      `2 * s + v`. */
  lemma DoubleAdd(s: int, v: Felt)
    ensures Add(Reduce(s), Add(Reduce(s), v)) == Reduce(v + 2 * s)
  {
    AddIsReduce(Reduce(s), v);
    AddMod(s, v);
    AddIsReduce(Reduce(s), Reduce(s + v));
    AddMod(s, Reduce(s + v));
    AddMod(s + v, s);
    assert Reduce(s + v) + s == s + Reduce(s + v);
  }

  /** Field addition is associative. */
  lemma AddAssoc(a: Felt, b: Felt, c: Felt)
    ensures Add(a, Add(b, c)) == Add(Add(a, b), c)
  {
    AddIsReduce(b, c);
    AddIsReduce(a, Add(b, c));
    AddIsReduce(a, b);
    AddIsReduce(Add(a, b), c);
    AddMod(b + c, a);
    AddMod(a + b, c);
  }
}
