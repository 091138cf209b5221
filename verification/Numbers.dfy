/** Machine integer limits and the arithmetic and set facts that several components share. */
module Numbers {
  const U16_MAX: nat := 0xFFFF
  const I32_MAX: nat := 0x7FFF_FFFF
  const U32_MAX: nat := 0xFFFF_FFFF
  const I64_MAX: nat := 0x7FFF_FFFF_FFFF_FFFF
  const U64_MAX: nat := 0xFFFF_FFFF_FFFF_FFFF

  function Min(a: int, b: int): int { if a <= b then a else b }

  function SaturatingAdd(a: nat, b: nat, max: nat): nat { Min(a + b, max) }

  function SaturatingMul(a: nat, b: nat, max: nat): nat { Min(a * b, max) }

  lemma SubsetSize<T>(a: set<T>, b: set<T>)
    requires a <= b
    ensures |a| <= |b| && |b - a| == |b| - |a|
    decreases a
  {
    if a != {} {
      var x :| x in a;
      SubsetSize(a - {x}, b - {x});
      assert b - {x} - (a - {x}) == b - a;
    }
  }
}
