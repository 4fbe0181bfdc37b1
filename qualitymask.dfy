/** Decoding of the Landsat Collection-2 `QA_PIXEL` band into mask categories, and the pixel
    statistics derived from a mask. A QA value is a 16-bit unsigned integer; a mask is the
    row-major list of one category per pixel. */
module QualityMask {

  /** Bit k of v, counting from the least significant bit 0. */
  function Bit(v: nat, k: nat): bool
    decreases k
  {
    if k == 0 then v % 2 == 1 else Bit(v / 2, k - 1)
  }

  /** `np.binary_repr(v, width)`: the binary digits of v, most significant first. */
  function BinaryRepr(v: nat, width: nat): (b: string)
    ensures |b| == width
    decreases width
  {
    if width == 0 then "" else BinaryRepr(v / 2, width - 1) + [if v % 2 == 1 then '1' else '0']
  }

  /** `b[-(k+1)]` of the binary representation is bit k. */
  lemma {:induction false} BinaryReprBit(v: nat, width: nat, k: nat)
    requires k < width
    ensures BinaryRepr(v, width)[width - 1 - k] == (if Bit(v, k) then '1' else '0')
    decreases width
  {
    if k > 0 {
      BinaryReprBit(v / 2, width - 1, k - 1);
    }
  }

  // The mask legend: 0 valid, 2 fill (no data), 3 cloud or cirrus, 4 cloud shadow, 5 snow.
  const Valid: int := 0
  const Fill: int := 2
  const Cloud: int := 3
  const Shadow: int := 4
  const Snow: int := 5

  predicate IsCategory(c: int) {
    c == Valid || c == Fill || c == Cloud || c == Shadow || c == Snow
  }

  predicate FillFlag(v: nat) {
    Bit(v, 0)
  }

  /** Dilated cloud (bit 2), cirrus (bit 3), medium or high cloud confidence (bit 9, either value
      of bit 8) or high cirrus confidence (bits 14 and 15). */
  predicate CloudFlag(v: nat) {
    Bit(v, 2) || Bit(v, 3) || (!Bit(v, 8) && Bit(v, 9)) || (Bit(v, 8) && Bit(v, 9)) || (Bit(v, 14) && Bit(v, 15))
  }

  /** Cloud shadow (bit 4) or high shadow confidence (bits 10 and 11). */
  predicate ShadowFlag(v: nat) {
    Bit(v, 4) || (Bit(v, 10) && Bit(v, 11))
  }

  predicate SnowFlag(v: nat) {
    Bit(v, 5)
  }

  /** The category of a QA value as a precedence rule: fill beats cloud beats shadow beats snow. */
  function Category(v: nat): (c: int)
    ensures IsCategory(c)
  {
    if FillFlag(v) then Fill
    else if CloudFlag(v) then Cloud
    else if ShadowFlag(v) then Shadow
    else if SnowFlag(v) then Snow
    else Valid
  }

  /** The category spelled out bit by bit: the cloud rule needs only bit 9, not bit 8. */
  lemma CategoryByBits(v: nat)
    ensures Category(v) == Fill <==> Bit(v, 0)
    ensures Category(v) == Cloud <==> !Bit(v, 0) && (Bit(v, 2) || Bit(v, 3) || Bit(v, 9) || (Bit(v, 14) && Bit(v, 15)))
    ensures Category(v) == Shadow <==> !Bit(v, 0) && !CloudFlag(v) && (Bit(v, 4) || (Bit(v, 10) && Bit(v, 11)))
    ensures Category(v) == Snow <==> !Bit(v, 0) && !CloudFlag(v) && !ShadowFlag(v) && Bit(v, 5)
    ensures Category(v) == Valid <==> !FillFlag(v) && !CloudFlag(v) && !ShadowFlag(v) && !SnowFlag(v)
  {
  }

  /** A value with only the snow bit set is snow; with the fill bit as well it is fill, because
      the fill check runs last. */
  lemma CategorySnowAndFill()
    ensures Category(32) == Snow
    ensures Category(33) == Fill
  {
    assert Bit(32, 5) == Bit(16, 4) == Bit(8, 3) == Bit(4, 2) == Bit(2, 1) == Bit(1, 0);
    assert Bit(32, 4) == Bit(16, 3) == Bit(8, 2) == Bit(4, 1) == Bit(2, 0);
    assert Bit(32, 3) == Bit(16, 2) == Bit(8, 1) == Bit(4, 0);
    assert Bit(32, 2) == Bit(16, 1) == Bit(8, 0);
  }

  /** Bits 14 and 15 together (high cirrus confidence) are cloud. */
  lemma CategoryHighCirrus()
    ensures Category(49152) == Cloud
  {
    assert Bit(49152, 15) == Bit(24576, 14) == Bit(12288, 13) == Bit(6144, 12) == Bit(3072, 11) == Bit(1536, 10) == Bit(768, 9) == Bit(384, 8) == Bit(192, 7) == Bit(96, 6) == Bit(48, 5) == Bit(24, 4) == Bit(12, 3) == Bit(6, 2) == Bit(3, 1) == Bit(1, 0);
    assert Bit(49152, 14) == Bit(24576, 13) == Bit(12288, 12) == Bit(6144, 11) == Bit(3072, 10) == Bit(1536, 9) == Bit(768, 8) == Bit(384, 7) == Bit(192, 6) == Bit(96, 5) == Bit(48, 4) == Bit(24, 3) == Bit(12, 2) == Bit(6, 1) == Bit(3, 0);
  }

  /** Bits 10 and 11 together (high shadow confidence) are shadow. */
  lemma CategoryHighShadow()
    ensures Category(3072) == Shadow
  {
    assert Bit(3072, 11) == Bit(1536, 10) == Bit(768, 9) == Bit(384, 8) == Bit(192, 7) == Bit(96, 6) == Bit(48, 5) == Bit(24, 4) == Bit(12, 3) == Bit(6, 2) == Bit(3, 1) == Bit(1, 0);
    assert Bit(3072, 10) == Bit(1536, 9) == Bit(768, 8) == Bit(384, 7) == Bit(192, 6) == Bit(96, 5) == Bit(48, 4) == Bit(24, 3) == Bit(12, 2) == Bit(6, 1) == Bit(3, 0);
    assert Bit(3072, 9) == Bit(1536, 8) == Bit(768, 7) == Bit(384, 6) == Bit(192, 5) == Bit(96, 4) == Bit(48, 3) == Bit(24, 2) == Bit(12, 1) == Bit(6, 0);
    assert Bit(3072, 4) == Bit(1536, 3) == Bit(768, 2) == Bit(384, 1) == Bit(192, 0);
    assert Bit(3072, 3) == Bit(1536, 2) == Bit(768, 1) == Bit(384, 0);
    assert Bit(3072, 2) == Bit(1536, 1) == Bit(768, 0);
    assert Bit(3072, 15) == Bit(1536, 14) == Bit(768, 13) == Bit(384, 12) == Bit(192, 11) == Bit(96, 10) == Bit(48, 9) == Bit(24, 8) == Bit(12, 7) == Bit(6, 6) == Bit(3, 5) == Bit(1, 4) == Bit(0, 3) == Bit(0, 2) == Bit(0, 1) == Bit(0, 0);
    assert Bit(3072, 14) == Bit(1536, 13) == Bit(768, 12) == Bit(384, 11) == Bit(192, 10) == Bit(96, 9) == Bit(48, 8) == Bit(24, 7) == Bit(12, 6) == Bit(6, 5) == Bit(3, 4) == Bit(1, 3) == Bit(0, 2) == Bit(0, 1) == Bit(0, 0);
  }

  /** Low confidences in every field (bits 6, 8, 12 and 14 alone) leave a pixel valid. */
  lemma CategoryLowConfidence()
    ensures Category(21824) == Valid
  {
    assert Bit(21824, 15) == Bit(10912, 14) == Bit(5456, 13) == Bit(2728, 12) == Bit(1364, 11) == Bit(682, 10) == Bit(341, 9) == Bit(170, 8) == Bit(85, 7) == Bit(42, 6) == Bit(21, 5) == Bit(10, 4) == Bit(5, 3) == Bit(2, 2) == Bit(1, 1) == Bit(0, 0);
    assert Bit(21824, 14) == Bit(10912, 13) == Bit(5456, 12) == Bit(2728, 11) == Bit(1364, 10) == Bit(682, 9) == Bit(341, 8) == Bit(170, 7) == Bit(85, 6) == Bit(42, 5) == Bit(21, 4) == Bit(10, 3) == Bit(5, 2) == Bit(2, 1) == Bit(1, 0);
    assert Bit(21824, 11) == Bit(10912, 10) == Bit(5456, 9) == Bit(2728, 8) == Bit(1364, 7) == Bit(682, 6) == Bit(341, 5) == Bit(170, 4) == Bit(85, 3) == Bit(42, 2) == Bit(21, 1) == Bit(10, 0);
    assert Bit(21824, 10) == Bit(10912, 9) == Bit(5456, 8) == Bit(2728, 7) == Bit(1364, 6) == Bit(682, 5) == Bit(341, 4) == Bit(170, 3) == Bit(85, 2) == Bit(42, 1) == Bit(21, 0);
    assert Bit(21824, 9) == Bit(10912, 8) == Bit(5456, 7) == Bit(2728, 6) == Bit(1364, 5) == Bit(682, 4) == Bit(341, 3) == Bit(170, 2) == Bit(85, 1) == Bit(42, 0);
    assert Bit(21824, 8) == Bit(10912, 7) == Bit(5456, 6) == Bit(2728, 5) == Bit(1364, 4) == Bit(682, 3) == Bit(341, 2) == Bit(170, 1) == Bit(85, 0);
    assert Bit(21824, 5) == Bit(10912, 4) == Bit(5456, 3) == Bit(2728, 2) == Bit(1364, 1) == Bit(682, 0);
    assert Bit(21824, 4) == Bit(10912, 3) == Bit(5456, 2) == Bit(2728, 1) == Bit(1364, 0);
    assert Bit(21824, 3) == Bit(10912, 2) == Bit(5456, 1) == Bit(2728, 0);
    assert Bit(21824, 2) == Bit(10912, 1) == Bit(5456, 0);
  }

  /** The mask of a QA raster: each pixel replaced by its category. */
  function MaskOf(qa: seq<nat>): seq<int> {
    seq(|qa|, p requires 0 <= p < |qa| => Category(qa[p]))
  }

  /** `np.count_nonzero(mask == c)`. */
  function CountEq(s: seq<int>, c: int): (n: nat)
    ensures n <= |s|
    decreases |s|
  {
    if |s| == 0 then 0 else (if s[0] == c then 1 else 0) + CountEq(s[1..], c)
  }

  /** `np.count_nonzero(mask)`. */
  function CountNonZero(s: seq<int>): (n: nat)
    ensures n <= |s|
    decreases |s|
  {
    if |s| == 0 then 0 else (if s[0] != 0 then 1 else 0) + CountNonZero(s[1..])
  }

  /** `np.count_nonzero((mask == a) | (mask == b))`. */
  function CountEither(s: seq<int>, a: int, b: int): (n: nat)
    ensures n <= |s|
    decreases |s|
  {
    if |s| == 0 then 0 else (if s[0] == a || s[0] == b then 1 else 0) + CountEither(s[1..], a, b)
  }

  /** The pixel statistics stored beside the mask. */
  datatype PixelStats = PixelStats(invalid: nat, nan: nat, cloudy: nat, total: nat)

  /** invalid = pixels not valid, nan = fill pixels, cloudy = cloud or shadow, total = height * width. */
  function StatsOf(mask: seq<int>, height: nat, width: nat): PixelStats {
    PixelStats(CountNonZero(mask), CountEq(mask, Fill), CountEither(mask, Cloud, Shadow), height * width)
  }

  /** On a mask of categories the invalid pixels are exactly the fill, cloudy and snow ones. */
  lemma {:induction false} InvalidDecomposes(mask: seq<int>)
    requires forall p :: 0 <= p < |mask| ==> IsCategory(mask[p])
    ensures CountNonZero(mask) == CountEq(mask, Fill) + CountEither(mask, Cloud, Shadow) + CountEq(mask, Snow)
    decreases |mask|
  {
    if |mask| > 0 {
      InvalidDecomposes(mask[1..]);
    }
  }

  /** `nanpixnum + cloudypixnum <= invalidpixnum <= totpixnum == height * width`, and the excess
      of invalid pixels over the other two counts is the snow pixels. */
  lemma StatsConsistent(mask: seq<int>, height: nat, width: nat)
    requires |mask| == height * width
    requires forall p :: 0 <= p < |mask| ==> IsCategory(mask[p])
    ensures var st := StatsOf(mask, height, width);
      st.nan + st.cloudy <= st.invalid <= st.total == height * width &&
      st.invalid - st.nan - st.cloudy == CountEq(mask, Snow)
  {
    InvalidDecomposes(mask);
  }

  /** The statistics of a decoded raster satisfy the same relations. */
  lemma MaskStatsConsistent(qa: seq<nat>, height: nat, width: nat)
    requires |qa| == height * width
    ensures var st := StatsOf(MaskOf(qa), height, width);
      st.nan + st.cloudy <= st.invalid <= st.total == height * width
  {
    StatsConsistent(MaskOf(qa), height, width);
  }
}
