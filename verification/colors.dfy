/**
 * Android's `Color` accessors on a colour held in a Java `int`: alpha in the top byte, then red,
 * green and blue. The colour is the unsigned reading of the 32 bits, so `>>>` and `>>` followed
 * by `& 0xFF` become division and remainder, and `A << 24 | R << 16 | G << 8 | B` of channels in
 * [0, 255], whose bits do not overlap, becomes a sum.
 */
module Colors {

  type Byte = b: int | 0 <= b < 0x100

  type Argb32 = c: int | 0 <= c < 0x1_0000_0000

  /** A colour as the four channels the accessors read off it. */
  datatype Color = Color(alpha: Byte, red: Byte, green: Byte, blue: Byte)

  /** `Color.alpha`: `color >>> 24`. */
  function Alpha(c: Argb32): Byte { c / 0x100_0000 }

  /** `Color.red`: `(color >> 16) & 0xFF`. */
  function Red(c: Argb32): Byte { (c / 0x1_0000) % 0x100 }

  /** `Color.green`: `(color >> 8) & 0xFF`. */
  function Green(c: Argb32): Byte { (c / 0x100) % 0x100 }

  /** `Color.blue`: `color & 0xFF`. */
  function Blue(c: Argb32): Byte { c % 0x100 }

  /** The four accessors applied to a colour held in an `int`. */
  function Unpack(n: Argb32): Color
  {
    Color(Alpha(n), Red(n), Green(n), Blue(n))
  }

  /** `A << 24 | R << 16 | G << 8 | B`; the accessors read the four channels back. */
  function Pack(c: Color): (n: Argb32)
    ensures Unpack(n) == c
  {
    var n := c.alpha * 0x100_0000 + c.red * 0x1_0000 + c.green * 0x100 + c.blue;
    assert n / 0x100 == c.alpha * 0x1_0000 + c.red * 0x100 + c.green;
    assert n / 0x1_0000 == c.alpha * 0x100 + c.red;
    n
  }

  /** Splitting a colour into channels and packing them again gives the same `int`. */
  lemma PackUnpack(n: Argb32)
    ensures Pack(Unpack(n)) == n
  {
    assert n == (n / 0x100) * 0x100 + n % 0x100;
    assert n / 0x100 == (n / 0x1_0000) * 0x100 + (n / 0x100) % 0x100;
    assert n / 0x1_0000 == (n / 0x100_0000) * 0x100 + (n / 0x1_0000) % 0x100;
  }

  datatype Channel = A | R | G | B

  function ChannelOf(c: Color, k: Channel): Byte
  {
    match k
    case A => c.alpha
    case R => c.red
    case G => c.green
    case B => c.blue
  }
}
