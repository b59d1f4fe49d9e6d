/** `field_element_from_bits`: turns a little-endian bit vector into a field
    element by way of the protoboard, leaving one filled variable per bit behind. */
module Utils {
  import opened Field
  import opened R1CS

  /** Allocates `|bits|` fresh variables, writes the bits into them and reads
      them back as a field element. */
  method FieldElementFromBits(pb: Protoboard, bits: seq<bool>) returns (r: Felt)
    requires pb.Valid()
    modifies pb
    ensures pb.Valid()
    ensures r == Reduce(BitsValue(bits))
    ensures pb.values == old(pb.values) + BitsAsFelts(bits)
    ensures pb.constraints == old(pb.constraints)
  {
    var arrayBits := pb.AllocateArray(|bits|);
    pb.FillWithBits(arrayBits, bits);
    pb.FilledBlock(old(pb.values), arrayBits, BitsAsFelts(bits));
    r := pb.GetFieldElementFromBits(arrayBits);
  }

  /** Each bit vector denotes a number below `2^|bits|`. */
  lemma {:induction false} BitsValueBounds(bits: seq<bool>)
    ensures 0 <= BitsValue(bits) < Pow2(|bits|)
  {
    if bits != [] {
      var n := |bits|;
      assert BitsAsFelts(bits)[..n - 1] == BitsAsFelts(bits[..n - 1]);
      BitsValueBounds(bits[..n - 1]);
    }
  }

  /** Reading little-endian bits is the same as Horner's rule from the most
      significant bit: `value(b0 :: rest) = b0 + 2 * value(rest)`. */
  lemma BitsValueCons(bits: seq<bool>)
    requires |bits| > 0
    ensures BitsValue(bits) == (if bits[0] then 1 else 0) + 2 * BitsValue(bits[1..])
  {
    WeightedSumHorner(BitsAsFelts(bits));
    assert BitsAsFelts(bits)[1..] == BitsAsFelts(bits[1..]);
  }

  /** The `n`-bit little-endian encoding of `k` (bit `i` is bit `i` of `k`). */
  function LittleEndianBits(k: nat, n: nat): (bits: seq<bool>)
    ensures |bits| == n
  {
    if n == 0 then [] else [k % 2 == 1] + LittleEndianBits(k / 2, n - 1)
  }

  /** Decoding the little-endian encoding gives the number back whenever it fits
      in the bits, so `FieldElementFromBits` yields `k` for every `k < 2^n` below `P`. */
  lemma {:induction false} BitsRoundTrip(k: nat, n: nat)
    requires k < Pow2(n)
    ensures BitsValue(LittleEndianBits(k, n)) == k
  {
    if n > 0 {
      var bits := LittleEndianBits(k, n);
      assert bits[1..] == LittleEndianBits(k / 2, n - 1);
      BitsRoundTrip(k / 2, n - 1);
      BitsValueCons(bits);
    }
  }

  /** The bit vectors of the source: `{1, 0, 1}` is 5 and `{1, 1, 0, 0, 0, 1}` is 35,
      least significant bit first. */
  lemma FiveAndThirtyFive()
    ensures BitsValue([true, false, true]) == 5
    ensures BitsValue([true, true, false, false, false, true]) == 35
  {
    BitsValueCons([true, false, true]);
    BitsValueCons([false, true]);
    BitsValueCons([true]);
    assert [true][1..] == [];
    var b := [true, true, false, false, false, true];
    BitsValueCons(b);
    BitsValueCons(b[1..]);
    BitsValueCons(b[2..]);
    BitsValueCons(b[3..]);
    BitsValueCons(b[4..]);
    BitsValueCons(b[5..]);
    assert b[6..] == [];
  }
}
