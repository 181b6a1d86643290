/** Colour utilities: the random colour generator, the hex codec of
    adjustColor (hex2rgb and rgb2hex) and the channel perturbation itself.
    Calls of Math.random() are explicit parameters of type Draw. */
module Colors {

  /** A colour as the program stores it: a string such as "#A0B1C2". */
  type Color = string

  /** A non-negative rational num/den. */
  datatype Fraction = Fraction(num: nat, den: nat)

  /** One value of Math.random(): a rational in the half-open interval [0, 1). */
  type Draw = f: Fraction | f.num < f.den witness Fraction(0, 1)

  /** The alphabet generateRandomColor draws from. */
  const Letters: string := "0123456789ABCDEF"

  /** The digits Number.prototype.toString(16) writes. */
  const LowerDigits: string := "0123456789abcdef"

  datatype Rgb = Rgb(r: int, g: int, b: int)

  predicate IsHexDigit(ch: char) {
    ('0' <= ch <= '9') || ('a' <= ch <= 'f') || ('A' <= ch <= 'F')
  }

  /** The value parseInt gives a single hexadecimal digit, in either case. */
  function DigitValue(ch: char): (v: nat)
    requires IsHexDigit(ch)
    ensures v < 16
  {
    if '0' <= ch <= '9' then ch as int - '0' as int
    else if 'a' <= ch <= 'f' then ch as int - 'a' as int + 10
    else ch as int - 'A' as int + 10
  }

  /** A well-formed colour: '#' followed by six hexadecimal digits of either case. */
  predicate IsHexColor(c: Color) {
    |c| == 7 && c[0] == '#' && forall i :: 1 <= i < 7 ==> IsHexDigit(c[i])
  }

  /** The colours rgb2hex writes: digits and lower-case letters only. */
  predicate IsLowerHexColor(c: Color) {
    |c| == 7 && c[0] == '#' && forall i :: 1 <= i < 7 ==> c[i] in LowerDigits
  }

  /** The colours generateRandomColor writes: digits and upper-case letters only. */
  predicate IsUpperHexColor(c: Color) {
    |c| == 7 && c[0] == '#' && forall i :: 1 <= i < 7 ==> c[i] in Letters
  }

  predicate IsChannel(x: int) { 0 <= x <= 255 }

  predicate IsRgb(c: Rgb) { IsChannel(c.r) && IsChannel(c.g) && IsChannel(c.b) }

  lemma {:induction false} LettersAreDigits(k: nat)
    requires k < 16
    ensures IsHexDigit(Letters[k]) && DigitValue(Letters[k]) == k
  {
    if k < 10 {
      assert Letters[k] == ('0' as int + k) as char;
    } else {
      assert Letters[k] == ('A' as int + k - 10) as char;
    }
  }

  lemma {:induction false} LowerDigitsAreDigits(k: nat)
    requires k < 16
    ensures IsHexDigit(LowerDigits[k]) && DigitValue(LowerDigits[k]) == k
  {
    if k < 10 {
      assert LowerDigits[k] == ('0' as int + k) as char;
    } else {
      assert LowerDigits[k] == ('a' as int + k - 10) as char;
    }
  }

  // ---------------------------------------------------------------------
  // generateRandomColor

  /** Math.floor(u * n) for a draw u = num/den. */
  function Scale(u: Draw, n: nat): (k: nat)
    requires n > 0
    ensures k < n
  {
    ScaleBelow(u, n);
    (u.num * n) / u.den
  }

  lemma ScaleBelow(u: Draw, n: nat)
    requires n > 0
    ensures (u.num * n) / u.den < n
  {
    var q := (u.num * n) / u.den;
    assert u.den * q <= u.num * n;
    MulMonotone(u.num, u.den - 1, n);
    if q >= n {
      MulMonotone(n, q, u.den);
    }
  }

  /** Multiplication by a natural number is monotone. */
  lemma {:induction false} MulMonotone(a: int, b: int, d: nat)
    requires a <= b
    ensures a * d <= b * d
  {
    if d > 0 {
      MulMonotone(a, b, d - 1);
      assert a * d == a * (d - 1) + a;
      assert b * d == b * (d - 1) + b;
    }
  }

  /** The colour generateRandomColor builds from its six draws: '#'
      followed by the letter each draw selects. */
  function RandomColor(u: seq<Draw>): Color
    requires |u| == 6
  {
    "#" + seq(6, i requires 0 <= i < 6 => Letters[Scale(u[i], 16)])
  }

  /** generateRandomColor: appends six letters drawn from Letters to "#". */
  method GenerateRandomColor(u: seq<Draw>) returns (color: Color)
    requires |u| == 6
    ensures color == RandomColor(u)
    ensures |color| == 7 && color[0] == '#'
    ensures forall i :: 1 <= i < 7 ==> color[i] == Letters[Scale(u[i - 1], 16)]
    ensures IsUpperHexColor(color)
  {
    color := "#";
    for i := 0 to 6
      invariant |color| == i + 1 && color[0] == '#'
      invariant forall k :: 0 <= k < i ==> color[k + 1] == Letters[Scale(u[k], 16)]
    {
      color := color + [Letters[Scale(u[i], 16)]];
    }
  }

  /** The generated colour is an upper-case hex colour whose channels are
      the pairs of drawn digits: channel j is 16 * d(2j) + d(2j+1). */
  lemma {:induction false} RandomColorChannels(u: seq<Draw>)
    requires |u| == 6
    ensures IsUpperHexColor(RandomColor(u)) && IsHexColor(RandomColor(u))
    ensures Hex2Rgb(RandomColor(u)) == Rgb(
      16 * Scale(u[0], 16) + Scale(u[1], 16),
      16 * Scale(u[2], 16) + Scale(u[3], 16),
      16 * Scale(u[4], 16) + Scale(u[5], 16))
  {
    var c := RandomColor(u);
    forall i | 1 <= i < 7
      ensures c[i] in Letters && IsHexDigit(c[i]) && DigitValue(c[i]) == Scale(u[i - 1], 16)
    {
      LettersAreDigits(Scale(u[i - 1], 16));
    }
  }

  // ---------------------------------------------------------------------
  // hex2rgb

  /** parseInt of two hexadecimal digits in base 16. */
  function ParseByte(hi: char, lo: char): (v: nat)
    requires IsHexDigit(hi) && IsHexDigit(lo)
    ensures v < 256
  {
    16 * DigitValue(hi) + DigitValue(lo)
  }

  /** hex2rgb: channels from the digit pairs at positions 1-2, 3-4 and 5-6. */
  function Hex2Rgb(c: Color): (rgb: Rgb)
    requires IsHexColor(c)
    ensures IsRgb(rgb)
  {
    Rgb(ParseByte(c[1], c[2]), ParseByte(c[3], c[4]), ParseByte(c[5], c[6]))
  }

  // ---------------------------------------------------------------------
  // rgb2hex

  /** Number.prototype.toString(16) of a non-negative integer: lower-case
      digits, most significant first, no leading zeros. */
  function ToBase16(x: nat): (s: string)
    ensures |s| >= 1
    decreases x
  {
    if x < 16 then [LowerDigits[x]] else ToBase16(x / 16) + [LowerDigits[x % 16]]
  }

  /** One channel of rgb2hex: toString(16), prefixed by "0" when it has a single digit. */
  function ChannelHex(x: nat): string {
    var hex := ToBase16(x);
    if |hex| == 1 then "0" + hex else hex
  }

  /** rgb2hex: '#' followed by the padded hexadecimal of each channel. */
  function Rgb2Hex(c: Rgb): Color
    requires c.r >= 0 && c.g >= 0 && c.b >= 0
  {
    "#" + ChannelHex(c.r) + ChannelHex(c.g) + ChannelHex(c.b)
  }

  /** A channel in [0,255] is written as exactly two lower-case digits, the
      high nibble first. */
  lemma {:induction false} ChannelHexOfByte(x: nat)
    requires x < 256
    ensures ChannelHex(x) == [LowerDigits[x / 16], LowerDigits[x % 16]]
  {
    if x < 16 {
      assert ToBase16(x) == [LowerDigits[x]];
    } else {
      assert ToBase16(x / 16) == [LowerDigits[x / 16]];
    }
  }

  /** One channel in [0,255]: its two written digits parse back to it. */
  lemma {:induction false} ChannelRoundTrip(x: nat)
    requires x < 256
    ensures |ChannelHex(x)| == 2
    ensures ChannelHex(x)[0] in LowerDigits && ChannelHex(x)[1] in LowerDigits
    ensures IsHexDigit(ChannelHex(x)[0]) && IsHexDigit(ChannelHex(x)[1])
    ensures ParseByte(ChannelHex(x)[0], ChannelHex(x)[1]) == x
  {
    ChannelHexOfByte(x);
    LowerDigitsAreDigits(x / 16);
    LowerDigitsAreDigits(x % 16);
  }

  /** Encoding channels in [0,255] gives a lower-case hex colour that
      hex2rgb decodes back to exactly those channels. */
  lemma {:induction false} Rgb2HexRoundTrip(c: Rgb)
    requires IsRgb(c)
    ensures IsLowerHexColor(Rgb2Hex(c)) && IsHexColor(Rgb2Hex(c))
    ensures Hex2Rgb(Rgb2Hex(c)) == c
  {
    var hr, hg, hb := ChannelHex(c.r), ChannelHex(c.g), ChannelHex(c.b);
    ChannelRoundTrip(c.r);
    ChannelRoundTrip(c.g);
    ChannelRoundTrip(c.b);
    SixDigits(hr, hg, hb);
    DecodeSix(hr[0], hr[1], hg[0], hg[1], hb[0], hb[1]);
  }

  /** A '#' and six lower-case digits form a colour hex2rgb reads pairwise. */
  lemma DecodeSix(a: char, b: char, c: char, d: char, e: char, f: char)
    requires a in LowerDigits && b in LowerDigits && c in LowerDigits
    requires d in LowerDigits && e in LowerDigits && f in LowerDigits
    requires IsHexDigit(a) && IsHexDigit(b) && IsHexDigit(c)
    requires IsHexDigit(d) && IsHexDigit(e) && IsHexDigit(f)
    ensures IsLowerHexColor(['#', a, b, c, d, e, f]) && IsHexColor(['#', a, b, c, d, e, f])
    ensures Hex2Rgb(['#', a, b, c, d, e, f]) == Rgb(ParseByte(a, b), ParseByte(c, d), ParseByte(e, f))
  {
    var s := ['#', a, b, c, d, e, f];
    assert forall i :: 1 <= i < 7 ==> s[i] in LowerDigits && IsHexDigit(s[i]);
  }

  /** Gluing three two-digit channels behind '#' puts them at positions 1-6. */
  lemma SixDigits(hr: string, hg: string, hb: string)
    requires |hr| == 2 && |hg| == 2 && |hb| == 2
    ensures "#" + hr + hg + hb == ['#', hr[0], hr[1], hg[0], hg[1], hb[0], hb[1]]
  {
  }

  // ---------------------------------------------------------------------
  // adjustColor

  /** Math.max(0, Math.min(255, x)). */
  function Clamp(x: int): (r: int)
    ensures IsChannel(r)
    ensures IsChannel(x) ==> r == x
    ensures x < 0 ==> r == 0
    ensures x > 255 ==> r == 255
  {
    if x < 0 then 0 else if x > 255 then 255 else x
  }

  /** Math.floor(u * v - v / 2) for a draw u and a variation v, computed
      exactly: u*v - v/2 = (2*u.num*v.num - u.den*v.num) / (2*u.den*v.den). */
  function Offset(u: Draw, v: Fraction): int
    requires v.den > 0
  {
    (2 * u.num * v.num - u.den * v.num) / (2 * u.den * v.den)
  }

  /** adjustColor: decode, shift each channel by its own draw's offset and
      clamp it to [0,255], then encode with rgb2hex. The draws are taken for
      red, green and blue in that order. */
  function AdjustColor(color: Color, v: Fraction, u: seq<Draw>): Color
    requires IsHexColor(color) && v.den > 0 && |u| == 3
  {
    var c := Hex2Rgb(color);
    Rgb2Hex(Rgb(Clamp(c.r + Offset(u[0], v)),
                Clamp(c.g + Offset(u[1], v)),
                Clamp(c.b + Offset(u[2], v))))
  }

  /** The adjusted colour is a lower-case hex colour whose decoded channels
      are the clamped, shifted channels of the input. */
  lemma {:induction false} AdjustColorChannels(color: Color, v: Fraction, u: seq<Draw>)
    requires IsHexColor(color) && v.den > 0 && |u| == 3
    ensures IsLowerHexColor(AdjustColor(color, v, u)) && IsHexColor(AdjustColor(color, v, u))
    ensures Hex2Rgb(AdjustColor(color, v, u)) == Rgb(
      Clamp(Hex2Rgb(color).r + Offset(u[0], v)),
      Clamp(Hex2Rgb(color).g + Offset(u[1], v)),
      Clamp(Hex2Rgb(color).b + Offset(u[2], v)))
  {
    var c := Hex2Rgb(color);
    Rgb2HexRoundTrip(Rgb(Clamp(c.r + Offset(u[0], v)),
                         Clamp(c.g + Offset(u[1], v)),
                         Clamp(c.b + Offset(u[2], v))));
  }

  /** The variation the hard tier passes: colorVariation * 0.25 = 10 / 4 = 2.5. */
  const HardVariation: Fraction := Fraction(10, 4)

  /** With variation 2.5, floor(u * 2.5 - 1.25) lies in {-2, -1, 0, 1}. */
  lemma HardOffsetRange(u: Draw)
    ensures -2 <= Offset(u, HardVariation) <= 1
  {
    var x := 20 * u.num - 10 * u.den;
    var d := 8 * u.den;
    assert Offset(u, HardVariation) == x / d;
    FloorBetween(x, d);
  }

  /** Floor division of a value in [-2d, 2d) by d > 0 lies in [-2, 1]. */
  lemma FloorBetween(x: int, d: int)
    requires d > 0 && -2 * d <= x < 2 * d
    ensures -2 <= x / d <= 1
  {
    var q, m := x / d, x % d;
    assert x == q * d + m && 0 <= m < d;
    if q < -2 {
      MulMonotone(q, -3, d);
    }
    if q > 1 {
      MulMonotone(2, q, d);
    }
  }

  /** Within clamping, a channel moved by a hard-tier offset stays between
      two below and one above where it started. */
  predicate NearChannel(x: int, target: int) { target - 2 <= x <= target + 1 }

  predicate NearColor(c: Rgb, target: Rgb) {
    NearChannel(c.r, target.r) && NearChannel(c.g, target.g) && NearChannel(c.b, target.b)
  }

  /** A hard-tier adjustment of a colour is a lower-case hex colour whose
      every channel is within [-2, +1] of the original's. */
  lemma {:induction false} HardAdjustIsNear(color: Color, u: seq<Draw>)
    requires IsHexColor(color) && |u| == 3
    ensures IsLowerHexColor(AdjustColor(color, HardVariation, u))
    ensures IsHexColor(AdjustColor(color, HardVariation, u))
    ensures NearColor(Hex2Rgb(AdjustColor(color, HardVariation, u)), Hex2Rgb(color))
  {
    AdjustColorChannels(color, HardVariation, u);
    HardOffsetRange(u[0]);
    HardOffsetRange(u[1]);
    HardOffsetRange(u[2]);
  }

  /** Distinctness is string equality, and the generator and rgb2hex use
      different letter cases: a hard-tier distractor with all offsets zero
      has the target's value but is a different string. */
  lemma SameValueDifferentString()
    ensures var u := [Fraction(1, 2), Fraction(1, 2), Fraction(1, 2)];
      AdjustColor("#AB12CD", HardVariation, u) == "#ab12cd" &&
      Hex2Rgb("#ab12cd") == Hex2Rgb("#AB12CD") &&
      "#ab12cd" != "#AB12CD"
  {
    var u: seq<Draw> := [Fraction(1, 2), Fraction(1, 2), Fraction(1, 2)];
    assert Offset(u[0], HardVariation) == 0;
    var c := Hex2Rgb("#AB12CD");
    assert c == Rgb(171, 18, 205);
    ChannelHexOfByte(171);
    ChannelHexOfByte(18);
    ChannelHexOfByte(205);
    assert "#ab12cd"[1] != "#AB12CD"[1];
  }
}
