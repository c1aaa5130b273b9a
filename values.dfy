/** The scalar types shared by the decision pipeline. */
module Values {

  /** `u32`: an unsigned 32-bit integer; actions have this type. */
  type U32 = n: nat | n < 0x1_0000_0000

  /** A 32-bit `float`, kept opaque: only its bit pattern is carried, and no
      floating-point arithmetic is modelled. */
  datatype Float32 = Float32(bits: bv32)

  /** The literal `0.f`: positive zero, the all-zero bit pattern. */
  const PositiveZero: Float32 := Float32(0)

  /** The `pair<u32, float>` an explorer returns: the chosen action and the
      probability reported with it. */
  datatype Decision = Decision(action: U32, probability: Float32)
}
