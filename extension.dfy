/**
 * `ExtensionMethods.ToRgb24`: a linear colour in [0, 1] per channel becomes
 * an 8-bit-per-channel pixel by scaling with 255.999 and casting to `byte`.
 */
module Extension {
  import opened Mathematics
  import opened Structs

  /** C#'s float-to-integer conversion: truncation toward zero. */
  function Truncate(x: real): (n: int)
    ensures x >= 0.0 ==> n == x.Floor
    ensures x >= 0.0 ==> n as real <= x < n as real + 1.0
  {
    if x >= 0.0 then x.Floor else -((-x).Floor)
  }

  /**
   * The `(byte)` cast of a float in an unchecked context: the truncated value
   * modulo 256.  (C# leaves out-of-range conversions unspecified; the model
   * fixes the wrap-around of the integer conversion.)
   */
  function ToByte(x: real): (b: Byte)
    ensures 0.0 <= x < 256.0 ==> b == x.Floor
  {
    Truncate(x) % 256
  }

  /** One channel: `(byte)(c * rgbMultiplier)`. */
  function ChannelByte(c: real): Byte {
    ToByte(c * RgbMultiplier)
  }

  /** `ToRgb24`: each channel converted on its own. */
  function ToRgb24(color: Float3): Color24 {
    Color24(ChannelByte(color.x), ChannelByte(color.y), ChannelByte(color.z))
  }

  /**
   * On [0, 1] a channel is `floor(c * 255.999)` with no wrap-around; black
   * stays 0 and full intensity becomes 255.
   */
  lemma ChannelOnUnitInterval(c: real)
    requires 0.0 <= c <= 1.0
    ensures ChannelByte(c) == (c * RgbMultiplier).Floor
    ensures ChannelByte(0.0) == 0 && ChannelByte(1.0) == 255
  {
    assert c * RgbMultiplier <= 1.0 * RgbMultiplier;
  }

  /** Brighter input never gives a darker byte on [0, 1]. */
  lemma ChannelMonotone(a: real, b: real)
    requires 0.0 <= a <= b <= 1.0
    ensures ChannelByte(a) <= ChannelByte(b)
  {
    ChannelOnUnitInterval(a);
    ChannelOnUnitInterval(b);
    assert a * RgbMultiplier <= b * RgbMultiplier;
  }

  /**
   * A colour in the unit cube converts channel by channel, each byte the
   * floor of the scaled channel.
   */
  lemma ToRgb24OnUnitCube(color: Float3)
    requires 0.0 <= color.x <= 1.0 && 0.0 <= color.y <= 1.0 && 0.0 <= color.z <= 1.0
    ensures ToRgb24(color) == Color24((color.x * RgbMultiplier).Floor, (color.y * RgbMultiplier).Floor, (color.z * RgbMultiplier).Floor)
  {
    ChannelOnUnitInterval(color.x);
    ChannelOnUnitInterval(color.y);
    ChannelOnUnitInterval(color.z);
  }

  /** Outside [0, 1] the cast wraps: an over-bright channel of 1.5 comes out as 127, darker than 1.0. */
  lemma OverBrightWraps()
    ensures ChannelByte(1.5) == 127 && ChannelByte(1.0) == 255
  {
    assert 1.5 * RgbMultiplier == 383.9985;
    assert (383.9985).Floor == 383;
  }
}
