/**
 * The dither pattern provider and the bit-depth table of the widget
 * (GLWidget::makeDitherPatternTexture and GLWidget::rgbMaxValue).
 *
 * The 8x8 Bayer table is kept exactly as the source writes it, as integer
 * numerators over 64, and is proved equal to an independent closed
 * definition of the ordered-dither matrix, a three-digit base-4 formula over
 * the bits of the cell's coordinates. That definition is a bijection
 * between the 8x8 grid and 0..63, so the table is a permutation of 0..63.
 */
module Dither {
  import opened Wrappers
  import opened Gl

  /** Dithering method chosen in the tools panel; Unrecognized stands for any other enum value. */
  datatype DitheringMethod = NoDithering | BlueNoiseTriangleRemapped | Bayer | Unrecognized(code: int)

  /** Target bit depth chosen in the tools panel; UnrecognizedMode stands for any other enum value. */
  datatype DitheringMode = Color666 | Color565 | Color888 | Color101010 | UnrecognizedMode(code: int)

  /** A per-channel triple of integers (QVector3D holding whole numbers). */
  datatype Rgb = Rgb(r: nat, g: nat, b: nat)

  /** Bits per channel of each recognised mode; the widget treats every other mode as 6/6/6. */
  function ChannelBits(mode: DitheringMode): (bits: Rgb)
    ensures bits.r >= 5 && bits.g >= 6 && bits.b >= 5
  {
    match mode
    case Color565 => Rgb(5, 6, 5)
    case Color888 => Rgb(8, 8, 8)
    case Color101010 => Rgb(10, 10, 10)
    case _ => Rgb(6, 6, 6)
  }

  /** Largest integer value of each channel for the selected bit depth. */
  function RgbMaxValue(mode: DitheringMode): (m: Rgb)
    ensures m.r > 0 && m.g > 0 && m.b > 0
  {
    match mode
    case Color666 => Rgb(63, 63, 63)
    case Color565 => Rgb(31, 63, 31)
    case Color888 => Rgb(255, 255, 255)
    case Color101010 => Rgb(1023, 1023, 1023)
    case UnrecognizedMode(_) => Rgb(63, 63, 63)
  }

  /** Every channel maximum is the all-ones value of that channel's bit depth. */
  lemma RgbMaxValueIsFullScale(mode: DitheringMode)
    ensures var bits := ChannelBits(mode);
            RgbMaxValue(mode) == Rgb(Pow2(bits.r) - 1, Pow2(bits.g) - 1, Pow2(bits.b) - 1)
  {
    assert Pow2(5) == 32 && Pow2(6) == 64 && Pow2(8) == 256 && Pow2(10) == 1024;
  }

  /** An unrecognised mode yields the same triple as 6/6/6. */
  lemma UnrecognizedModeIs666(code: int)
    ensures RgbMaxValue(UnrecognizedMode(code)) == RgbMaxValue(Color666) == Rgb(63, 63, 63)
  {
  }

  // ---------------------------------------------------------------------
  // The Bayer matrix

  /** Side of the Bayer matrix uploaded by the widget, and the denominator of its levels. */
  const BayerSide: nat := 8
  const BayerDenominator: nat := 64

  /** Numerators (over 64) of the 8x8 Bayer table, one row per line, as the widget writes it. */
  const BayerRows: seq<seq<nat>> := [
    [ 0, 32,  8, 40,  2, 34, 10, 42],
    [48, 16, 56, 24, 50, 18, 58, 26],
    [12, 44,  4, 36, 14, 46,  6, 38],
    [60, 28, 52, 20, 62, 30, 54, 22],
    [ 3, 35, 11, 43,  1, 33,  9, 41],
    [51, 19, 59, 27, 49, 17, 57, 25],
    [15, 47,  7, 39, 13, 45,  5, 37],
    [63, 31, 55, 23, 61, 29, 53, 21]
  ]

  /** The rows laid end to end, as a C array of arrays sits in memory. */
  function Flatten<T>(rows: seq<seq<T>>): (flat: seq<T>)
  {
    if rows == [] then [] else rows[0] + Flatten(rows[1..])
  }

  /** All rows have the given width. */
  predicate Rectangular<T>(rows: seq<seq<T>>, width: nat)
  {
    forall y :: 0 <= y < |rows| ==> |rows[y]| == width
  }

  /** In a rectangular table, cell (x, y) sits at index y * width + x of the flattened rows. */
  lemma {:induction false} FlattenAt<T>(rows: seq<seq<T>>, width: nat, x: nat, y: nat)
    requires Rectangular(rows, width) && x < width && y < |rows|
    ensures y * width + x < |Flatten(rows)| && Flatten(rows)[y * width + x] == rows[y][x]
  {
    if y > 0 {
      var j := (y - 1) * width + x;
      assert y * width + x == width + j;
      FlattenAt(rows[1..], width, x, y - 1);
      assert Flatten(rows)[width + j] == Flatten(rows[1..])[j];
    }
  }

  lemma {:induction false} FlattenLength<T>(rows: seq<seq<T>>, width: nat)
    requires Rectangular(rows, width)
    ensures |Flatten(rows)| == |rows| * width
  {
    if rows != [] {
      FlattenLength(rows[1..], width);
    }
  }

  /** The 64 numerators uploaded for the Bayer method, row-major. */
  function BayerPattern(): (p: seq<nat>)
    ensures |p| == BayerSide * BayerSide
  {
    BayerLevelsTable();
    FlattenLength(BayerRows, BayerSide);
    Flatten(BayerRows)
  }

  /** Rank of a cell inside a 2x2 block of the ordered-dither matrix: [[0, 2], [3, 1]]. */
  function CellRank(col: nat, row: nat): (d: nat)
    requires col < 2 && row < 2
    ensures d < 4
  {
    if row == 0 then (if col == 0 then 0 else 2) else (if col == 0 then 3 else 1)
  }

  /** Column and row, inside a 2x2 block, of the cell of rank d. */
  function CellOfRank(d: nat): (cell: (nat, nat))
    requires d < 4
    ensures cell.0 < 2 && cell.1 < 2
  {
    if d == 0 then (0, 0) else if d == 1 then (1, 1) else if d == 2 then (1, 0) else (0, 1)
  }

  /** CellOfRank and CellRank are inverse bijections between the 2x2 block and 0..3. */
  lemma CellRankBijection(col: nat, row: nat, d: nat)
    requires col < 2 && row < 2 && d < 4
    ensures CellOfRank(CellRank(col, row)) == (col, row)
    ensures CellRank(CellOfRank(d).0, CellOfRank(d).1) == d
  {
  }

  /**
   * Threshold level of cell (x, y) of the 8x8 ordered-dither matrix, built by
   * nesting the 2x2 block three times: bit 0 of the coordinates picks the most
   * significant base-4 digit, bit 2 the least significant one.
   */
  function BayerLevel(x: nat, y: nat): (v: nat)
    requires x < 8 && y < 8
    ensures v < 64
  {
    16 * CellRank(x % 2, y % 2) + 4 * CellRank(x / 2 % 2, y / 2 % 2) + CellRank(x / 4, y / 4)
  }

  /** The cell whose three 2x2 ranks are high, mid and low, most significant first. */
  function CellOfDigits(high: nat, mid: nat, low: nat): (cell: (nat, nat))
    requires high < 4 && mid < 4 && low < 4
    ensures cell.0 < 8 && cell.1 < 8
  {
    var h, m, l := CellOfRank(high), CellOfRank(mid), CellOfRank(low);
    (h.0 + 2 * m.0 + 4 * l.0, h.1 + 2 * m.1 + 4 * l.1)
  }

  /** The cell of the 8x8 ordered-dither matrix that holds level v, read digit by digit. */
  function BayerCell(v: nat): (cell: (nat, nat))
    requires v < 64
    ensures cell.0 < 8 && cell.1 < 8
  {
    CellOfDigits(v / 16, v / 4 % 4, v % 4)
  }

  /** The three bits of a coordinate below 8. */
  lemma CoordinateBits(b0: nat, b1: nat, b2: nat)
    requires b0 < 2 && b1 < 2 && b2 < 2
    ensures var c := b0 + 2 * b1 + 4 * b2; c % 2 == b0 && c / 2 % 2 == b1 && c / 4 == b2
  {
  }

  /** The three base-4 digits of a level below 64, in both directions. */
  lemma LevelDigits(v: nat, high: nat, mid: nat, low: nat)
    requires high < 4 && mid < 4 && low < 4
    ensures v == 16 * high + 4 * mid + low <==> v / 16 == high && v / 4 % 4 == mid && v % 4 == low
  {
  }

  /** BayerCell undoes BayerLevel: no two cells share a level. */
  lemma CellOfLevel(x: nat, y: nat)
    requires x < 8 && y < 8
    ensures BayerCell(BayerLevel(x, y)) == (x, y)
  {
    var h, m, l := CellRank(x % 2, y % 2), CellRank(x / 2 % 2, y / 2 % 2), CellRank(x / 4, y / 4);
    LevelDigits(BayerLevel(x, y), h, m, l);
    CellRankBijection(x % 2, y % 2, 0);
    CellRankBijection(x / 2 % 2, y / 2 % 2, 0);
    CellRankBijection(x / 4, y / 4, 0);
  }

  /** The level of the cell whose coordinates have the bits x0 x1 x2 and y0 y1 y2, least significant first. */
  lemma LevelOfBits(x0: nat, x1: nat, x2: nat, y0: nat, y1: nat, y2: nat)
    requires x0 < 2 && x1 < 2 && x2 < 2 && y0 < 2 && y1 < 2 && y2 < 2
    ensures BayerLevel(x0 + 2 * x1 + 4 * x2, y0 + 2 * y1 + 4 * y2) ==
            16 * CellRank(x0, y0) + 4 * CellRank(x1, y1) + CellRank(x2, y2)
  {
    CoordinateBits(x0, x1, x2);
    CoordinateBits(y0, y1, y2);
  }

  /** The level of the cell whose ranks are high, mid and low is the number with those base-4 digits. */
  lemma LevelOfDigits(high: nat, mid: nat, low: nat)
    requires high < 4 && mid < 4 && low < 4
    ensures BayerLevel(CellOfDigits(high, mid, low).0, CellOfDigits(high, mid, low).1) == 16 * high + 4 * mid + low
  {
    var h, m, l := CellOfRank(high), CellOfRank(mid), CellOfRank(low);
    LevelOfBits(h.0, m.0, l.0, h.1, m.1, l.1);
    CellRankBijection(0, 0, high);
    CellRankBijection(0, 0, mid);
    CellRankBijection(0, 0, low);
  }

  /** BayerLevel undoes BayerCell: every level 0..63 occurs. */
  lemma LevelOfCell(v: nat)
    requires v < 64
    ensures BayerLevel(BayerCell(v).0, BayerCell(v).1) == v
  {
    LevelDigits(v, v / 16, v / 4 % 4, v % 4);
    LevelOfDigits(v / 16, v / 4 % 4, v % 4);
  }

  /** The rows of the source are the 8x8 ordered-dither matrix, entry by entry. */
  lemma BayerLevelsTable()
    ensures |BayerRows| == BayerSide && Rectangular(BayerRows, BayerSide)
    ensures forall x, y :: 0 <= x < 8 && 0 <= y < 8 ==> BayerRows[y][x] == BayerLevel(x, y)
  {
    forall x, y | 0 <= x < 8 && 0 <= y < 8 ensures BayerRows[y][x] == BayerLevel(x, y) {
      if y == 0 {} else if y == 1 {} else if y == 2 {} else if y == 3 {}
      else if y == 4 {} else if y == 5 {} else if y == 6 {} else {}
    }
  }

  /** Index, in the uploaded table, of the texel that holds level v. */
  function BayerIndex(v: nat): (i: nat)
    requires v < 64
    ensures i < 64
  {
    8 * BayerCell(v).1 + BayerCell(v).0
  }

  /** Texel i of the uploaded table holds the level of cell (i % 8, i / 8), and that cell is where the level sits. */
  lemma BayerPatternAt(i: nat)
    requires i < 64
    ensures BayerPattern()[i] == BayerLevel(i % 8, i / 8)
    ensures BayerCell(BayerPattern()[i]) == (i % 8, i / 8)
  {
    var x, y := i % 8, i / 8;
    BayerLevelsTable();
    FlattenAt(BayerRows, 8, x, y);
    assert y * 8 + x == i;
    CellOfLevel(x, y);
  }

  /** Every level of the Bayer table is below 64, no level occurs twice and every level 0..63 occurs. */
  lemma BayerPatternIsPermutation()
    ensures |BayerPattern()| == BayerDenominator
    ensures forall i :: 0 <= i < |BayerPattern()| ==> BayerPattern()[i] < BayerDenominator
    ensures forall i, j :: 0 <= i < j < |BayerPattern()| ==> BayerPattern()[i] != BayerPattern()[j]
    ensures forall v :: 0 <= v < BayerDenominator ==> BayerPattern()[BayerIndex(v)] == v
  {
    var p := BayerPattern();
    forall i | 0 <= i < 64 ensures p[i] < 64 {
      BayerPatternAt(i);
    }
    forall i, j | 0 <= i < j < 64 ensures p[i] != p[j] {
      BayerPatternAt(i);
      BayerPatternAt(j);
    }
    forall v | 0 <= v < 64 ensures p[BayerIndex(v)] == v {
      var cell := BayerCell(v);
      BayerPatternAt(BayerIndex(v));
      assert BayerIndex(v) % 8 == cell.0 && BayerIndex(v) / 8 == cell.1;
      LevelOfCell(v);
    }
  }

  // ---------------------------------------------------------------------
  // The dither pattern texture

  /** A texel value: an exact fraction, or a word of the external blue-noise table (its bits, opaque). */
  datatype Texel = Fraction(numerator: nat, denominator: nat) | NoiseSample(bits: uint32)

  /** A single-channel image: width x height texels, row-major, and the internal format it is stored in. */
  datatype Image = Image(width: nat, height: nat, format: Format, texels: seq<Texel>)

  /** The dither pattern texture object: its sampling parameters and the image last uploaded. */
  datatype DitherTexture = DitherTexture(sampling: Sampling, image: Option<Image>)

  /** The precomputed blue-noise table, indexed [i][j], i < number of rows, each row the same length. */
  predicate WellFormedNoise(table: seq<seq<uint32>>)
  {
    |table| > 0 && |table[0]| > 0 && Rectangular(table, |table[0]|)
  }

  function AsFractions(numerators: seq<nat>, denominator: nat): (t: seq<Texel>)
    ensures |t| == |numerators|
    ensures forall i :: 0 <= i < |t| ==> t[i] == Fraction(numerators[i], denominator)
  {
    seq(|numerators|, i requires 0 <= i < |numerators| => Fraction(numerators[i], denominator))
  }

  function AsNoise(words: seq<uint32>): (t: seq<Texel>)
    ensures |t| == |words|
    ensures forall i :: 0 <= i < |t| ==> t[i] == NoiseSample(words[i])
  {
    seq(|words|, i requires 0 <= i < |words| => NoiseSample(words[i]))
  }

  /**
   * The image the widget uploads for a dithering method, or None when the
   * method is not one it knows (the widget then aborts the process).
   * The blue-noise table is uploaded with its outer extent as the width.
   */
  function DitherImage(choice: DitheringMethod, blueNoise: seq<seq<uint32>>): (img: Option<Image>)
    requires WellFormedNoise(blueNoise)
    ensures img.None? <==> choice.Unrecognized?
    ensures img.Some? ==> |img.value.texels| == img.value.width * img.value.height
    ensures img.Some? ==> img.value.format == R16F
  {
    match choice
    case NoDithering => Some(Image(1, 1, R16F, [Fraction(0, 1)]))
    case BlueNoiseTriangleRemapped =>
      FlattenLength(blueNoise, |blueNoise[0]|);
      Some(Image(|blueNoise|, |blueNoise[0]|, R16F, AsNoise(Flatten(blueNoise))))
    case Bayer => Some(Image(BayerSide, BayerSide, R16F, AsFractions(BayerPattern(), BayerDenominator)))
    case Unrecognized(_) => None
  }

  /** Value of an exact texel as a real number. */
  function TexelValue(t: Texel): (v: real)
    requires t.Fraction? && t.denominator > 0
  {
    t.numerator as real / t.denominator as real
  }

  /** Without dithering the pattern is a single texel holding zero. */
  lemma NoDitheringImage(blueNoise: seq<seq<uint32>>)
    requires WellFormedNoise(blueNoise)
    ensures var img := DitherImage(NoDithering, blueNoise).value;
            img.width == 1 && img.height == 1 && img.texels == [Fraction(0, 1)] && TexelValue(img.texels[0]) == 0.0
  {
  }

  /** The value k / d of a fraction with k < d lies in [0, 1). */
  lemma FractionInUnitInterval(k: nat, d: nat)
    requires k < d
    ensures 0.0 <= TexelValue(Fraction(k, d)) < 1.0
  {
  }

  /** Distinct numerators over the same denominator are distinct values. */
  lemma FractionsDistinct(a: nat, b: nat, d: nat)
    requires a != b && d > 0
    ensures TexelValue(Fraction(a, d)) != TexelValue(Fraction(b, d))
  {
    assert TexelValue(Fraction(a, d)) * d as real == a as real;
    assert TexelValue(Fraction(b, d)) * d as real == b as real;
  }

  /**
   * With the Bayer method the pattern is 8x8 texels k / 64, each k in 0..63
   * occurring exactly once.
   */
  lemma BayerImage(blueNoise: seq<seq<uint32>>)
    requires WellFormedNoise(blueNoise)
    ensures var img := DitherImage(Bayer, blueNoise).value;
      img.width == 8 && img.height == 8 && |img.texels| == 64 &&
      (forall i :: 0 <= i < 64 ==> img.texels[i].Fraction? && img.texels[i].denominator == 64 &&
                                   img.texels[i].numerator < 64) &&
      (forall i, j :: 0 <= i < j < 64 ==> img.texels[i] != img.texels[j]) &&
      (forall k :: 0 <= k < 64 ==> img.texels[BayerIndex(k)] == Fraction(k, 64))
  {
    BayerPatternIsPermutation();
  }

  /** Hence every Bayer texel value lies in [0, 1) and no two are equal. */
  lemma BayerTexelValues(blueNoise: seq<seq<uint32>>)
    requires WellFormedNoise(blueNoise)
    ensures var t := DitherImage(Bayer, blueNoise).value.texels;
      |t| == 64 &&
      (forall i :: 0 <= i < 64 ==> t[i].Fraction? && 0.0 <= TexelValue(t[i]) < 1.0) &&
      (forall i, j :: 0 <= i < j < 64 ==> t[i].Fraction? && t[j].Fraction? && TexelValue(t[i]) != TexelValue(t[j]))
  {
    BayerImage(blueNoise);
    var t := DitherImage(Bayer, blueNoise).value.texels;
    forall i | 0 <= i < 64 ensures t[i].Fraction? && 0.0 <= TexelValue(t[i]) < 1.0 {
      FractionInUnitInterval(t[i].numerator, 64);
    }
    forall i, j | 0 <= i < j < 64 ensures t[i].Fraction? && t[j].Fraction? && TexelValue(t[i]) != TexelValue(t[j]) {
      FractionsDistinct(t[i].numerator, t[j].numerator, 64);
    }
  }

  /** Cell [i][j] of the blue-noise table is texel i * w + j of the uploaded image, w being the length of a row. */
  lemma BlueNoiseCell(blueNoise: seq<seq<uint32>>, i: nat, j: nat)
    requires WellFormedNoise(blueNoise) && i < |blueNoise| && j < |blueNoise[0]|
    ensures var img := DitherImage(BlueNoiseTriangleRemapped, blueNoise).value;
      i * |blueNoise[0]| + j < |img.texels| && img.texels[i * |blueNoise[0]| + j] == NoiseSample(blueNoise[i][j])
  {
    var w := |blueNoise[0]|;
    var k := i * w + j;
    FlattenAt(blueNoise, w, j, i);
    var flat := Flatten(blueNoise);
    assert DitherImage(BlueNoiseTriangleRemapped, blueNoise).value.texels == AsNoise(flat);
    assert AsNoise(flat)[k] == NoiseSample(flat[k]);
  }

  /** With blue noise the pattern is the external table at its own extents; BlueNoiseCell places each word. */
  lemma BlueNoiseImage(blueNoise: seq<seq<uint32>>)
    requires WellFormedNoise(blueNoise)
    ensures var img := DitherImage(BlueNoiseTriangleRemapped, blueNoise).value;
      img.width == |blueNoise| && img.height == |blueNoise[0]| &&
      |img.texels| == |blueNoise| * |blueNoise[0]| &&
      forall k :: 0 <= k < |img.texels| ==> img.texels[k].NoiseSample?
  {
  }
}
