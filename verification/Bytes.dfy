/** Bytes and the four-byte integers the frames are built from (little-endian). */
module Bytes {

  const U32: int := 0x1_0000_0000
  const U64: int := 0x1_0000_0000_0000_0000

  type byte = x: int | 0 <= x < 256
  type u32 = x: int | 0 <= x < U32

  function Put32(x: u32): (b: seq<byte>)
    ensures |b| == 4
  {
    [x % 256, x / 256 % 256, x / 65536 % 256, x / 16777216]
  }

  function Get32(b: seq<byte>): (x: u32)
    requires |b| == 4
  {
    var b0: int, b1: int, b2: int, b3: int := b[0], b[1], b[2], b[3];
    b0 + 256 * b1 + 65536 * b2 + 16777216 * b3
  }

  lemma PutGet(x: u32)
    ensures Get32(Put32(x)) == x
  {
    var a, b, c := x / 256, x / 65536, x / 16777216;
    assert x == 256 * a + x % 256 && a == 256 * b + a % 256 && b == 256 * c + b % 256;
  }

  lemma GetPut(b: seq<byte>)
    requires |b| == 4
    ensures Put32(Get32(b)) == b
  {
    var x := Get32(b);
    var b1: int, b2: int, b3: int := b[1], b[2], b[3];
    assert x / 16777216 == b3;
    assert x / 65536 == b2 + 256 * b3;
    assert x / 256 == b1 + 256 * (b2 + 256 * b3);
    assert Put32(x)[0] == b[0] && Put32(x)[1] == b[1] && Put32(x)[2] == b[2] && Put32(x)[3] == b[3];
  }

  /** The value a size_t takes when it is stored in an unsigned int. */
  function Truncate32(n: nat): (x: u32)
    ensures n < U32 <==> x == n
  {
    n % U32
  }
}
