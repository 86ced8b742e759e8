/** Kotlin's `Int`: 32-bit two's complement arithmetic that wraps around. */
module Int32 {

  const Modulus: int := 0x1_0000_0000

  newtype int32 = x: int | -0x8000_0000 <= x < 0x8000_0000

  /** Reduces an unbounded integer to the 32-bit value it wraps to. */
  function Wrap(v: int): (r: int32)
    ensures (v - r as int) % Modulus == 0
    ensures -0x8000_0000 <= v < 0x8000_0000 ==> r as int == v
  {
    ((v + 0x8000_0000) % Modulus - 0x8000_0000) as int32
  }

  /** `35 - x` evaluated on 32-bit `Int`s: exact for ordinary limits, wrapped
      when `x` is within 35 of the smallest `Int`. */
  function ComplementTo35(x: int32): (r: int32)
    ensures -0x8000_0000 + 35 < x as int ==> r as int == 35 - x as int
    ensures x as int <= -0x8000_0000 + 35 ==> r as int == 35 - x as int - Modulus
  {
    Wrap(35 - x as int)
  }

  /** Swapping the limit twice restores it, for every 32-bit value. */
  lemma ComplementTo35Involution(x: int32)
    ensures ComplementTo35(ComplementTo35(x)) == x
  {
  }
}
