/** C#'s 32-bit `int` and its unchecked (wrapping) arithmetic. */
module Int32 {

  const TWO_TO_THE_31: int := 0x8000_0000
  const TWO_TO_THE_32: int := 0x1_0000_0000

  /** The values of a C# `int`. */
  type int32 = x: int | -0x8000_0000 <= x < 0x8000_0000

  /** The `int` that an unchecked C# addition, subtraction or increment yields when
      its mathematical value is `x`: the one 32-bit value congruent to `x`. */
  function Wrap(x: int): (r: int32)
    ensures (r - x) % TWO_TO_THE_32 == 0
    ensures -TWO_TO_THE_31 <= x < TWO_TO_THE_31 ==> r == x
  {
    (x + TWO_TO_THE_31) % TWO_TO_THE_32 - TWO_TO_THE_31
  }

  /** Two 32-bit values that are congruent modulo 2^32 are equal. */
  lemma CongruentEqual(x: int32, y: int32)
    requires (x - y) % TWO_TO_THE_32 == 0
    ensures x == y
  {
  }

  /** Wrapping an intermediate result does not change the final wrapped sum:
      accumulating with wrap-around equals wrapping the mathematical sum. */
  lemma WrapAddLeft(a: int, b: int)
    ensures Wrap(Wrap(a) + b) == Wrap(a + b)
  {
    var wa := Wrap(a);
    var k := (wa - a) / TWO_TO_THE_32;
    assert wa - a == k * TWO_TO_THE_32;
    var l := (Wrap(wa + b) - (wa + b)) / TWO_TO_THE_32;
    assert Wrap(wa + b) - (wa + b) == l * TWO_TO_THE_32;
    var m := (Wrap(a + b) - (a + b)) / TWO_TO_THE_32;
    assert Wrap(a + b) - (a + b) == m * TWO_TO_THE_32;
    assert Wrap(wa + b) - Wrap(a + b) == (l + k - m) * TWO_TO_THE_32;
    CongruentEqual(Wrap(wa + b), Wrap(a + b));
  }
}
