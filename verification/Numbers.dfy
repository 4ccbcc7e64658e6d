/** C arithmetic that several programs share. */
module Numbers {

  /** One more than the largest unsigned long. */
  const TWO64 := 0x1_0000_0000_0000_0000

  function Min(a: int, b: int): int { if a < b then a else b }
}
