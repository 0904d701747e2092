/**
 * The integer part of the `UIColor` convenience initialisers of
 * Extensions.swift. Swift's `Int` is a 64-bit two's-complement integer; its
 * `x >> k` is floor division by 2^k and `x & (2^k - 1)` is the non-negative
 * remainder modulo 2^k, which are Dafny's `/` and `%` by a positive divisor.
 * Colour components are exact reals here, not `CGFloat` doubles.
 */
module Colors {

  const IntMin: int := -0x8000_0000_0000_0000
  const IntMax: int := 0x7FFF_FFFF_FFFF_FFFF

  /** Swift's `Int`. */
  type Int = x: int | IntMin <= x <= IntMax

  datatype Color = Color(red: real, green: real, blue: real, alpha: real)

  /** What the `assert`s of `init(red:green:blue:)` demand of one component. */
  predicate IsComponent(c: int) {
    0 <= c <= 255
  }

  /** `init(red:green:blue:)`: components are scaled to 0...1 and the colour is opaque. */
  function FromComponents(red: int, green: int, blue: int): (c: Color)
    requires IsComponent(red) && IsComponent(green) && IsComponent(blue)
    ensures 0.0 <= c.red <= 1.0 && 0.0 <= c.green <= 1.0 && 0.0 <= c.blue <= 1.0
    ensures c.red * 255.0 == red as real && c.green * 255.0 == green as real
    ensures c.blue * 255.0 == blue as real
    ensures c.alpha == 1.0
  {
    Color(red as real / 255.0, green as real / 255.0, blue as real / 255.0, 1.0)
  }

  /** `(rgb >> 16) & 0xFF`. */
  function Red(rgb: Int): (r: int)
    ensures IsComponent(r)
  {
    (rgb / 0x1_0000) % 0x100
  }

  /** `(rgb >> 8) & 0xFF`. */
  function Green(rgb: Int): (g: int)
    ensures IsComponent(g)
  {
    (rgb / 0x100) % 0x100
  }

  /** `rgb & 0xFF`. */
  function Blue(rgb: Int): (b: int)
    ensures IsComponent(b)
  {
    rgb % 0x100
  }

  /**
   * `init(rgb:)`: the three bytes below bit 24 become the components; the
   * range assertions of `init(red:green:blue:)` always hold on this path.
   */
  function FromRgb(rgb: Int): (c: Color)
    ensures c.red * 255.0 == Red(rgb) as real && c.green * 255.0 == Green(rgb) as real
    ensures c.blue * 255.0 == Blue(rgb) as real && c.alpha == 1.0
  {
    FromComponents(Red(rgb), Green(rgb), Blue(rgb))
  }

  /** `r << 16 | g << 8 | b` for components, whose bits do not overlap. */
  function Combined(r: int, g: int, b: int): (rgb: Int)
    requires IsComponent(r) && IsComponent(g) && IsComponent(b)
    ensures 0 <= rgb < 0x100_0000
  {
    r * 0x1_0000 + g * 0x100 + b
  }

  /** Floor division by a constant power of two is determined by quotient and remainder. */
  lemma DivModByte(x: int, q: int, r: int)
    requires 0 <= r < 0x100 && x == 0x100 * q + r
    ensures x / 0x100 == q && x % 0x100 == r
  {
  }

  lemma DivModTwoBytes(x: int, q: int, r: int)
    requires 0 <= r < 0x1_0000 && x == 0x1_0000 * q + r
    ensures x / 0x1_0000 == q && x % 0x1_0000 == r
  {
  }

  lemma DivModThreeBytes(x: int, q: int, r: int)
    requires 0 <= r < 0x100_0000 && x == 0x100_0000 * q + r
    ensures x / 0x100_0000 == q && x % 0x100_0000 == r
  {
  }

  /** Recombining the three channels gives back `rgb & 0xFFFFFF`. */
  lemma ChannelsRecombine(rgb: Int)
    ensures Combined(Red(rgb), Green(rgb), Blue(rgb)) == rgb % 0x100_0000
  {
    var q1, b := rgb / 0x100, rgb % 0x100;
    var q2, g := q1 / 0x100, q1 % 0x100;
    var q3, r := q2 / 0x100, q2 % 0x100;
    assert rgb == 0x1_0000 * q2 + (0x100 * g + b);
    DivModTwoBytes(rgb, q2, 0x100 * g + b);
    assert rgb == 0x100_0000 * q3 + (0x1_0000 * r + 0x100 * g + b);
    DivModThreeBytes(rgb, q3, 0x1_0000 * r + 0x100 * g + b);
  }

  /** Splitting a combined colour gives back its components. */
  lemma CombinedSplits(r: int, g: int, b: int)
    requires IsComponent(r) && IsComponent(g) && IsComponent(b)
    ensures Red(Combined(r, g, b)) == r && Green(Combined(r, g, b)) == g && Blue(Combined(r, g, b)) == b
  {
    var rgb := Combined(r, g, b);
    DivModByte(rgb, r * 0x100 + g, b);
    DivModTwoBytes(rgb, r, g * 0x100 + b);
    DivModByte(r * 0x100 + g, r, g);
    DivModByte(r, 0, r);
  }
}
