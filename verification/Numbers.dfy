/** The smaller and the larger of two numbers. */
module Numbers {
  function Min(a: nat, b: nat): nat
  {
    if a <= b then a else b
  }

  function Max(a: int, b: int): int
  {
    if a >= b then a else b
  }
}
