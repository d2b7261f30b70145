/** Machine integers of the program: unsigned 32-bit words, 16-bit halves and bytes. */
module Words {
  const WORD_SPAN := 0x1_0000_0000
  const HALF_SPAN := 0x1_0000

  type word = x: int | 0 <= x < 0x1_0000_0000
  type u16 = x: int | 0 <= x < 0x1_0000
  type byte = x: int | 0 <= x < 0x100

  /** A 32-bit counter. */
  function Wrap(x: nat): word { x % WORD_SPAN }

  lemma WrapAdd(x: nat, y: nat)
    ensures Wrap(Wrap(x) + y) == Wrap(x + y)
  {
  }
}
