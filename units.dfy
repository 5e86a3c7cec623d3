/** Units shared by the clock model: frequencies are natural numbers of Hz. */
module Units {
  /** One megahertz, as the `_MHz` literal suffix produces it. */
  const MHz: nat := 1_000_000

  /** The number of values of a `uint32_t`; arithmetic on one wraps modulo this. */
  const Uint32Modulus: nat := 0x1_0000_0000
}
