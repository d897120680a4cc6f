/** Option values, and the fixed-width unsigned integers the program computes with. */
module Numbers {
  datatype Option<+T> = None | Some(value: T)

  const TWO_8: int := 0x100
  const TWO_16: int := 0x1_0000
  const TWO_24: int := 0x100_0000
  const TWO_32: int := 0x1_0000_0000
  const TWO_64: int := 0x1_0000_0000_0000_0000

  type uint8 = x: int | 0 <= x < 0x100
  type uint16 = x: int | 0 <= x < 0x1_0000
  type uint32 = x: int | 0 <= x < 0x1_0000_0000
  type uint64 = x: int | 0 <= x < 0x1_0000_0000_0000_0000

  type Bytes = seq<uint8>

  // Floats cross the wire and the server unchanged, so they are their bit patterns.
  type Float32 = uint32

  datatype Vec3 = Vec3(x: Float32, y: Float32, z: Float32)

  // Unsigned subtraction, which wraps when the subtrahend is larger.
  function Minus64(a: uint64, b: uint64): (r: uint64)
    ensures b <= a ==> r == a - b
    ensures b > a ==> r == TWO_64 + a - b
  {
    (a - b) % TWO_64
  }
}
