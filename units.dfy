/**
 * Unit and width conversions done while compiling a sandbox definition.
 */
module Units {
  import opened Proto

  const NanosPerSecond: nat := 1_000_000_000

  /**
   * Go's conversion `uint32(x)` of an `int`: it keeps the low 32 bits,
   * which is the residue of x modulo 2^32 (also for negative x).
   */
  function ToUint32(x: int): (r: Uint32)
    ensures (x - r) % Uint32Modulus == 0
    ensures 0 <= x < Uint32Modulus ==> r == x
  {
    x % Uint32Modulus
  }

  /** The residue is the only uint32 congruent to x, so ToUint32 is exactly the low 32 bits. */
  lemma ToUint32Unique(x: int, r: Uint32)
    requires (x - r) % Uint32Modulus == 0
    ensures r == ToUint32(x)
  {
  }

  /**
   * `uint32(options.Timeout.Seconds())` for a non-negative duration given in
   * nanoseconds: whole seconds, the sub-second remainder dropped.
   */
  function TimeoutSecs(timeoutNanos: nat): (secs: nat)
    ensures secs * NanosPerSecond <= timeoutNanos < (secs + 1) * NanosPerSecond
  {
    timeoutNanos / NanosPerSecond
  }
}
