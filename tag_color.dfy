/**
 * Colours for annotation tags: two fixed palettes, a similarity test, random pastel
 * colours mixed with a seed colour, a bounded search for a pastel colour that differs
 * from the colours already taken, and the `#RRGGBB` encoding.
 *
 * `java.awt.Color` is a triple of components in 0..255 (alpha is always 255 here).
 * The `java.util.Random` that the source seeds with 0 is supplied as an infinite
 * stream `random` of draws in [0, 256): the k-th call of `nextInt(256)` yields `random(k)`.
 */
module TagColor {
  import opened Wrappers
  import opened JavaInt

  type Component = x: int | 0 <= x <= 255

  /** A value of `random.nextInt(256)`. */
  type Draw = x: int | 0 <= x < 256

  datatype Color = Color(red: Component, green: Component, blue: Component)

  datatype IllegalArgumentException = IllegalArgumentException(message: string)

  /** The seed colour that `generateDifferingPastelColor` mixes every candidate with. */
  const White: Color := Color(255, 255, 255)

  /** How many candidates `generateDifferingPastelColor` tries at most. */
  const MaxCandidates: nat := 1000

  const PalettePastel: seq<string> := ["#8dd3c7", "#ffffb3", "#bebada", "#fb8072",
    "#80b1d3", "#fdb462", "#b3de69", "#fccde5", "#d9d9d9", "#bc80bd", "#ccebc5", "#ffed6f"]

  const PaletteNormal: seq<string> := ["#a6cee3", "#1f78b4", "#b2df8a", "#33a02c",
    "#fb9a99", "#e31a1c", "#fdbf6f", "#ff7f00", "#cab2d6", "#6a3d9a", "#ffff99", "#b15928"]

  // ---------------------------------------------------------------------------------
  // Similarity
  // ---------------------------------------------------------------------------------

  function Abs(x: int): nat { if x < 0 then -x else x }

  /** The squared Euclidean distance of two colours in RGB space (exact: integer operands). */
  function SquaredDistance(c: Color, b: Color): nat
  {
    (c.red - b.red) * (c.red - b.red)
      + (c.green - b.green) * (c.green - b.green)
      + (c.blue - b.blue) * (c.blue - b.blue)
  }

  predicate TooSimilar(c: Color, b: Color)
  {
    SquaredDistance(c, b) < 768
  }

  lemma TooSimilarSymmetric(c: Color, b: Color)
    ensures TooSimilar(c, b) <==> TooSimilar(b, c)
  {
  }

  lemma TooSimilarReflexive(c: Color)
    ensures TooSimilar(c, c)
  {
  }

  /** Two colours that are too similar differ by at most 27 in every component (28 * 28 > 768). */
  lemma TooSimilarComponentsClose(c: Color, b: Color)
    requires TooSimilar(c, b)
    ensures Abs(c.red - b.red) <= 27 && Abs(c.green - b.green) <= 27 && Abs(c.blue - b.blue) <= 27
  {
    var dr, dg, db := c.red - b.red, c.green - b.green, c.blue - b.blue;
    assert SquaredDistance(c, b) == dr * dr + dg * dg + db * db;
    SquareAtLeast(dr);
    SquareAtLeast(dg);
    SquareAtLeast(db);
  }

  lemma SquareAtLeast(d: int)
    ensures d * d >= 0
    ensures Abs(d) >= 28 ==> d * d >= 784
  {
    if Abs(d) >= 28 {
      var a := Abs(d);
      assert d * d == a * a;
      assert a * a >= 28 * a >= 28 * 28;
    }
  }

  /** Colours that differ by at most 15 in every component are too similar (3 * 15 * 15 < 768). */
  lemma CloseComponentsTooSimilar(c: Color, b: Color)
    requires Abs(c.red - b.red) <= 15 && Abs(c.green - b.green) <= 15 && Abs(c.blue - b.blue) <= 15
    ensures TooSimilar(c, b)
  {
    var dr, dg, db := c.red - b.red, c.green - b.green, c.blue - b.blue;
    assert SquaredDistance(c, b) == dr * dr + dg * dg + db * db;
    SquareAtMost(c.red - b.red);
    SquareAtMost(c.green - b.green);
    SquareAtMost(c.blue - b.blue);
  }

  lemma SquareAtMost(d: int)
    requires Abs(d) <= 15
    ensures d * d <= 225
  {
    var a := Abs(d);
    assert d * d == a * a;
    assert a * a <= 15 * a <= 15 * 15;
  }

  // ---------------------------------------------------------------------------------
  // Pastel colours
  // ---------------------------------------------------------------------------------

  /** `m` is the midpoint of `x` and `y`, rounded down. */
  predicate IsMidpoint(m: int, x: int, y: int)
  {
    2 * m <= x + y <= 2 * m + 1
  }

  /**
   * `generatePastelColor(mix, random)` with `random` positioned at `position`: three draws
   * for red, green and blue, each halved together with the mix colour when there is one.
   */
  function GeneratePastelColor(mix: Option<Color>, random: nat -> Draw, position: nat): (c: Color)
    ensures mix.None? ==> c == Color(random(position), random(position + 1), random(position + 2))
    ensures mix.Some? ==>
      && IsMidpoint(c.red, random(position), mix.value.red)
      && IsMidpoint(c.green, random(position + 1), mix.value.green)
      && IsMidpoint(c.blue, random(position + 2), mix.value.blue)
  {
    var red, green, blue := random(position), random(position + 1), random(position + 2);
    match mix
    case None => Color(red, green, blue)
    case Some(m) => Color((red + m.red) / 2, (green + m.green) / 2, (blue + m.blue) / 2)
  }

  /** The k-th candidate (counting from 0) of `generateDifferingPastelColor`. */
  function Candidate(random: nat -> Draw, k: nat): Color
  {
    GeneratePastelColor(Some(White), random, 3 * k)
  }

  /** Mixing with white keeps every candidate in the light range 127..255. */
  lemma {:induction false} CandidateIsPastel(random: nat -> Draw, k: nat)
    ensures var c := Candidate(random, k);
      127 <= c.red && 127 <= c.green && 127 <= c.blue
  {
    var c := Candidate(random, k);
    assert IsMidpoint(c.red, random(3 * k), 255);
    assert IsMidpoint(c.green, random(3 * k + 1), 255);
    assert IsMidpoint(c.blue, random(3 * k + 2), 255);
  }

  predicate TooSimilarToAny(c: Color, taken: seq<Color>)
  {
    exists d :: d in taken && TooSimilar(c, d)
  }

  /**
   * Index of the candidate that the search returns when candidates before `k` are
   * already rejected: the first one not too similar to a taken colour, or the last one.
   */
  function ChosenCandidate(taken: seq<Color>, random: nat -> Draw, k: nat): (i: nat)
    requires k < MaxCandidates
    ensures k <= i < MaxCandidates
    decreases MaxCandidates - k
  {
    if !TooSimilarToAny(Candidate(random, k), taken) || k == MaxCandidates - 1 then k
    else ChosenCandidate(taken, random, k + 1)
  }

  /** The search returns the first acceptable candidate, or the 1000th when none is. */
  lemma {:induction false} ChosenCandidateIsFirstAcceptable(taken: seq<Color>, random: nat -> Draw, k: nat)
    requires k < MaxCandidates
    ensures var i := ChosenCandidate(taken, random, k);
      && (forall j :: k <= j < i ==> TooSimilarToAny(Candidate(random, j), taken))
      && (!TooSimilarToAny(Candidate(random, i), taken) || i == MaxCandidates - 1)
    decreases MaxCandidates - k
  {
    if !TooSimilarToAny(Candidate(random, k), taken) || k == MaxCandidates - 1 {
    } else {
      ChosenCandidateIsFirstAcceptable(taken, random, k + 1);
    }
  }

  /** With nothing taken, the first candidate is returned. */
  lemma NothingTakenFirstCandidate(random: nat -> Draw)
    ensures ChosenCandidate([], random, 0) == 0
  {
  }

  /**
   * `generateDifferingPastelColor(taken)`: draw pastel candidates (mixed with white) until
   * one is not too similar to any taken colour; give up with the 1000th candidate.
   */
  method GenerateDifferingPastelColor(taken: seq<Color>, random: nat -> Draw) returns (c: Color)
    ensures c == Candidate(random, ChosenCandidate(taken, random, 0))
  {
    var seedColor := White;
    var position := 0;
    var i := 0;
    while true
      invariant 0 <= i < MaxCandidates
      invariant position == 3 * i
      invariant ChosenCandidate(taken, random, 0) == ChosenCandidate(taken, random, i)
      decreases MaxCandidates - i
    {
      ghost var k := i;
      i := i + 1;
      c := GeneratePastelColor(Some(seedColor), random, position);
      assert c == Candidate(random, k);
      position := position + 3;
      var canAdd := true;
      for j := 0 to |taken|
        invariant forall t :: 0 <= t < j ==> !TooSimilar(c, taken[t])
      {
        if TooSimilar(c, taken[j]) {
          canAdd := false;
          break;
        }
      }
      assert canAdd <==> !TooSimilarToAny(c, taken);
      if canAdd {
        return;
      } else if i == MaxCandidates {
        return;
      }
    }
  }

  // ---------------------------------------------------------------------------------
  // Encoding
  // ---------------------------------------------------------------------------------

  /**
   * `color.getRGB()`: `(255 << 24) | (red << 16) | (green << 8) | blue` as a Java `int`.
   * The four bytes do not overlap, so the bitwise or is their sum; the alpha byte makes it
   * wrap to a negative `int`.
   */
  function GetRGB(c: Color): Int32
  {
    WrapInt(0xFF00_0000 + c.red * 0x1_0000 + c.green * 0x100 + c.blue)
  }

  function LowerHexDigit(d: nat): char
    requires d < 16
  {
    if d < 10 then ('0' as int + d) as char else ('a' as int + d - 10) as char
  }

  function UpperHexDigit(d: nat): char
    requires d < 16
  {
    if d < 10 then ('0' as int + d) as char else ('A' as int + d - 10) as char
  }

  /** The lower-case hexadecimal digits of `u` without leading zeros ("0" for 0). */
  function HexString(u: nat): string
    decreases u
  {
    if u < 16 then [LowerHexDigit(u)] else HexString(u / 16) + [LowerHexDigit(u % 16)]
  }

  /** `Integer.toHexString(i)`: the digits of `i` read as an unsigned 32-bit number. */
  function ToHexString(i: Int32): string
  {
    HexString(if i < 0 then i + TWO_32 else i)
  }

  /** `String.toUpperCase` on the characters that hexadecimal digits use. */
  function ToUpperCase(s: string): (r: string)
    ensures |r| == |s|
  {
    if s == [] then []
    else [if 'a' <= s[0] <= 'z' then (s[0] as int - 32) as char else s[0]] + ToUpperCase(s[1..])
  }

  /** Two upper-case hexadecimal digits for one colour component. */
  function UpperHexByte(x: Component): string
  {
    [UpperHexDigit(x / 16), UpperHexDigit(x % 16)]
  }

  function LowerHexByte(x: Component): string
  {
    [LowerHexDigit(x / 16), LowerHexDigit(x % 16)]
  }

  lemma RGBAsUnsigned(c: Color)
    ensures GetRGB(c) + TWO_32 == 0xFF00_0000 + c.red * 0x1_0000 + c.green * 0x100 + c.blue
  {
    var x := 0xFF00_0000 + c.red * 0x1_0000 + c.green * 0x100 + c.blue;
    assert 0x8000_0000 <= x < TWO_32;
    assert (x + 0x8000_0000) % TWO_32 == x + 0x8000_0000 - TWO_32;
  }

  lemma HexStringStep(a: nat, d: nat)
    requires 1 <= a && d < 16
    ensures HexString(a * 16 + d) == HexString(a) + [LowerHexDigit(d)]
  {
    var u := a * 16 + d;
    assert u / 16 == a && u % 16 == d;
  }

  /** Appending a byte to a number appends its two digits. */
  lemma HexStringByteStep(a: nat, x: Component)
    requires 1 <= a
    ensures HexString(a * 256 + x) == HexString(a) + LowerHexByte(x)
  {
    HexStringStep(a, x / 16);
    HexStringStep(a * 16 + x / 16, x % 16);
    assert (a * 16 + x / 16) * 16 + x % 16 == a * 256 + x;
  }

  /** The hexadecimal digits of an opaque colour: "ff" for alpha, then the three components. */
  lemma {:induction false} HexStringOfRGB(c: Color)
    ensures ToHexString(GetRGB(c)) == "ff" + LowerHexByte(c.red) + LowerHexByte(c.green) + LowerHexByte(c.blue)
  {
    var x2 := 255 * 256 + c.red;
    var x1 := x2 * 256 + c.green;
    var x0 := x1 * 256 + c.blue;
    assert GetRGB(c) + TWO_32 == x0 by { RGBAsUnsigned(c); }
    assert HexString(255) == "ff" by { HexStringStep(15, 15); }
    HexStringByteStep(255, c.red);
    HexStringByteStep(x2, c.green);
    HexStringByteStep(x1, c.blue);
  }

  lemma UpperOfLowerHexDigit(d: nat)
    requires d < 16
    ensures ToUpperCase([LowerHexDigit(d)]) == [UpperHexDigit(d)]
  {
  }

  lemma {:induction false} ToUpperCaseAppend(s: string, t: string)
    ensures ToUpperCase(s + t) == ToUpperCase(s) + ToUpperCase(t)
    decreases |s|
  {
    if s == [] {
      assert s + t == t;
    } else {
      assert (s + t)[1..] == s[1..] + t;
      ToUpperCaseAppend(s[1..], t);
    }
  }

  lemma UpperOfLowerHexByte(x: Component)
    ensures ToUpperCase(LowerHexByte(x)) == UpperHexByte(x)
  {
    ToUpperCaseAppend([LowerHexDigit(x / 16)], [LowerHexDigit(x % 16)]);
    UpperOfLowerHexDigit(x / 16);
    UpperOfLowerHexDigit(x % 16);
  }

  /**
   * `encodeRGB(color)`: `IllegalArgumentException` for null; otherwise '#' and the six
   * upper-case digits RRGGBB (the alpha byte "ff" of `getRGB` is dropped).
   */
  function EncodeRGB(color: Option<Color>): (r: Result<string, IllegalArgumentException>)
    ensures color.None? <==> r.Failure?
    ensures color.Some? ==>
      r.value == "#" + UpperHexByte(color.value.red) + UpperHexByte(color.value.green) + UpperHexByte(color.value.blue)
  {
    match color
    case None => Failure(IllegalArgumentException("NULL_COLOR_PARAMETER_ERROR_2"))
    case Some(c) =>
      var hex := ToHexString(GetRGB(c));
      HexStringOfRGB(c);
      var digits := LowerHexByte(c.red) + LowerHexByte(c.green) + LowerHexByte(c.blue);
      assert hex[2..] == digits;
      ToUpperCaseAppend(LowerHexByte(c.red) + LowerHexByte(c.green), LowerHexByte(c.blue));
      ToUpperCaseAppend(LowerHexByte(c.red), LowerHexByte(c.green));
      UpperOfLowerHexByte(c.red);
      UpperOfLowerHexByte(c.green);
      UpperOfLowerHexByte(c.blue);
      Success("#" + ToUpperCase(hex[2..]))
  }

  // ---------------------------------------------------------------------------------
  // Reading colours back: the inverse of the encoding, also used for the palettes
  // ---------------------------------------------------------------------------------

  predicate IsHexDigit(ch: char)
  {
    '0' <= ch <= '9' || 'a' <= ch <= 'f' || 'A' <= ch <= 'F'
  }

  function HexValue(ch: char): (v: nat)
    requires IsHexDigit(ch)
    ensures v < 16
  {
    if '0' <= ch <= '9' then ch as int - '0' as int
    else if 'a' <= ch <= 'f' then ch as int - 'a' as int + 10
    else ch as int - 'A' as int + 10
  }

  /** Reads "#RRGGBB" (digits of either case) back into a colour. */
  function ParseRGB(s: string): Option<Color>
  {
    if |s| == 7 && s[0] == '#' && forall i :: 1 <= i < 7 ==> IsHexDigit(s[i]) then
      Some(Color(HexValue(s[1]) * 16 + HexValue(s[2]),
                 HexValue(s[3]) * 16 + HexValue(s[4]),
                 HexValue(s[5]) * 16 + HexValue(s[6])))
    else None
  }

  lemma ParseUpperHexByte(x: Component)
    ensures var h := UpperHexByte(x); IsHexDigit(h[0]) && IsHexDigit(h[1]) && HexValue(h[0]) * 16 + HexValue(h[1]) == x
  {
  }

  /** Encoding loses nothing: the encoded string reads back as the same colour. */
  lemma EncodeRGBRoundTrip(c: Color)
    ensures EncodeRGB(Some(c)).Success? && ParseRGB(EncodeRGB(Some(c)).value) == Some(c)
  {
    var s := EncodeRGB(Some(c)).value;
    ParseUpperHexByte(c.red);
    ParseUpperHexByte(c.green);
    ParseUpperHexByte(c.blue);
    assert s[1..3] == UpperHexByte(c.red);
    assert s[3..5] == UpperHexByte(c.green);
    assert s[5..7] == UpperHexByte(c.blue);
  }

  /** '#' followed by six lower-case hexadecimal digits. */
  predicate IsLowerHexColor(s: string)
  {
    |s| == 7 && s[0] == '#' && forall i :: 1 <= i < 7 ==> ('0' <= s[i] <= '9' || 'a' <= s[i] <= 'f')
  }

  /** Six lower-case hexadecimal digits after '#' read back as a colour. */
  lemma LowerHexColorParses(s: string)
    requires IsLowerHexColor(s)
    ensures ParseRGB(s).Some?
  {
  }

  /** The pastel palette holds twelve colours written as '#' and six lower-case hexadecimal digits. */
  lemma PalettePastelWellFormed()
    ensures |PalettePastel| == 12
    ensures forall i :: 0 <= i < |PalettePastel| ==> IsLowerHexColor(PalettePastel[i])
  {
  }

  /** So does the normal palette. */
  lemma PaletteNormalWellFormed()
    ensures |PaletteNormal| == 12
    ensures forall i :: 0 <= i < |PaletteNormal| ==> IsLowerHexColor(PaletteNormal[i])
  {
  }
}
