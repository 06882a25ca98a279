/** The failure policy of a future (mode.go). */
module Modes {

  /** `Mode` is an open integer type: any int is a mode. */
  newtype Mode = int

  /** The default and zero mode: misuse is logged and the call returns. */
  const Einstein: Mode := 0

  /** Misuse panics. */
  const Hawking: Mode := 1

  /** The underlying integer of a mode; converting it back gives the same mode. */
  function Int(m: Mode): (r: int)
    ensures r as Mode == m
    ensures m == Einstein ==> r == 0
    ensures m == Hawking ==> r == 1
  {
    m as int
  }

  /** The zero value of `Mode` is `Einstein`, and the two named modes differ. */
  lemma ZeroModeIsEinstein()
    ensures (0 as Mode) == Einstein
    ensures Einstein != Hawking
  {
  }
}
