/**
 * The audio converter of `retro_run`: each unsigned 8-bit sound chip sample
 * becomes `(b << 8) - 0x7ff`, stored in a 16-bit `short`.
 */
module Audio {
  import opened Types

  /** 44100 Hz output at 50 frames per second. */
  const SAMPLES_PER_FRAME: int := 882
  const BIAS: int := 0x7ff

  /**
   * Conversion of an `int` to `short`: the value modulo 2^16, read as two's
   * complement (what the C implementations in use do for out-of-range values).
   */
  function ToShort(v: int): (r: int)
    ensures -0x8000 <= r < 0x8000
    ensures (v - r) % 0x10000 == 0
    ensures -0x8000 <= v < 0x8000 ==> r == v
  {
    (v + 0x8000) % 0x10000 - 0x8000
  }

  /**
   * One converted sample. Bytes up to 0x87 give `b * 256 - 0x7ff` as is;
   * from 0x88 on that value exceeds 32767 and wraps to a negative sample.
   */
  function Convert(b: Byte): (s: int)
    ensures -0x8000 <= s < 0x8000
    ensures b < 0x88 ==> s == b * 256 - BIAS
    ensures b >= 0x88 ==> s == b * 256 - BIAS - 0x10000 && s < 0
  {
    ToShort(b * 256 - BIAS)
  }

  /** The converter is strictly increasing on the bytes that do not wrap, and wraps exactly at 0x88. */
  lemma ConvertOrder(a: Byte, b: Byte)
    ensures a < b < 0x88 ==> Convert(a) < Convert(b)
    ensures 0x88 <= a < b ==> Convert(a) < Convert(b)
    ensures Convert(0) == -BIAS && Convert(0x87) == 0x7F01 && Convert(0x88) == -0x7FFF
  {
  }
}
