/** The integer part of the GlobalMercator tile algebra: TMS/Google tile flips,
    Bing-style quadkeys, pixel-to-tile and pixel-to-raster index maps.

    JavaScript numbers are modelled as mathematical integers. The quadkey
    encoder and decoder use 32-bit masks `1 << (i - 1)`; for zoom levels up to
    MaxZoom every mask is a positive power of two and every bit they test lies
    below bit 31, so the integer model and the 32-bit code agree there. */
module Mercator {
  import opened Arith

  /** Edge length of a tile, in pixels. */
  const TileSize: int := 512

  /** Largest zoom level whose quadkey masks stay inside 32-bit arithmetic. */
  const MaxZoom: nat := 30

  /** A tile address with its zoom level. */
  datatype Tile = Tile(tx: int, ty: int, zoom: nat)

  /** A tile address whose zoom level is carried by the caller. */
  datatype TileXY = TileXY(tx: int, ty: int)

  /** A pixel position in raster (top-left origin) orientation. */
  datatype RasterPoint = RasterPoint(x: real, y: real)

  /** Moves a row index between bottom-left (TMS) and top-left (Google) origin. */
  function FlipY(ty: int, zoom: nat): int {
    Pow2(zoom) - 1 - ty
  }

  /** TMS tile coordinates to Google tile coordinates: x is kept, y is flipped. */
  function GoogleTile(tx: int, ty: int, zoom: nat): (g: TileXY)
    ensures g.tx == tx
    ensures 0 <= ty < Pow2(zoom) <==> 0 <= g.ty < Pow2(zoom)
    ensures g.ty + ty == Pow2(zoom) - 1
  {
    TileXY(tx, FlipY(ty, zoom))
  }

  /** Flipping twice returns the original tile. */
  lemma GoogleTileInvolution(tx: int, ty: int, zoom: nat)
    ensures var g := GoogleTile(tx, ty, zoom);
            GoogleTile(g.tx, g.ty, zoom) == TileXY(tx, ty)
  {
  }

  // ---------------------------------------------------------------- quadkeys

  /** The character written for a quadkey digit. */
  function DigitChar(d: nat): (c: char)
    requires d <= 3
    ensures '0' <= c <= '3'
    ensures c as int - '0' as int == d
  {
    if d == 0 then '0' else if d == 1 then '1' else if d == 2 then '2' else '3'
  }

  predicate IsQuadDigit(c: char) {
    '0' <= c <= '3'
  }

  predicate IsQuadKey(key: string) {
    forall k :: 0 <= k < |key| ==> IsQuadDigit(key[k])
  }

  /** Digit for bit position `bit`: 1 for an x bit plus 2 for a y bit. */
  function QuadDigit(tx: int, gy: int, bit: nat): (d: nat)
    ensures d <= 3
  {
    Bit(tx, bit) + 2 * Bit(gy, bit)
  }

  /** The character for bit position `bit`. */
  function QuadChar(tx: int, gy: int, bit: nat): (c: char)
    ensures IsQuadDigit(c)
  {
    DigitChar(QuadDigit(tx, gy, bit))
  }

  /** The quadkey of a TMS tile: y is flipped to top-left origin, then one
      digit per bit is emitted from bit zoom - 1 down to bit 0. */
  function QuadKey(tx: int, ty: int, zoom: nat): (key: string)
    requires zoom <= MaxZoom
    ensures |key| == zoom
    ensures IsQuadKey(key)
  {
    var gy := FlipY(ty, zoom);
    var key := seq(zoom, k requires 0 <= k < zoom => QuadChar(tx, gy, zoom - 1 - k));
    assert forall k :: 0 <= k < zoom ==> key[k] == QuadChar(tx, gy, zoom - 1 - k);
    key
  }

  /** Digit k of a quadkey carries bit zoom-1-k of x in its low half and the same
      bit of the Google (flipped) row in its high half: y enters only through
      the flip that GoogleTile performs. */
  lemma QuadKeyDigits(tx: int, ty: int, zoom: nat, k: nat)
    requires zoom <= MaxZoom && k < zoom
    ensures var key := QuadKey(tx, ty, zoom);
            var d := key[k] as int - '0' as int;
            d % 2 == Bit(tx, zoom - 1 - k) &&
            d / 2 == Bit(GoogleTile(tx, ty, zoom).ty, zoom - 1 - k)
  {
    var gy := FlipY(ty, zoom);
    var d := QuadDigit(tx, gy, zoom - 1 - k);
    assert QuadKey(tx, ty, zoom)[k] == QuadChar(tx, gy, zoom - 1 - k);
    DivModUnique(d, 2, Bit(gy, zoom - 1 - k), Bit(tx, zoom - 1 - k));
  }

  /** Which axis a quadkey character contributes to. */
  datatype Axis = X | Y

  /** The bit a decoder takes from one character: '1' sets x, '2' sets y,
      '3' sets both, and every other character sets nothing. */
  function AxisBit(c: char, axis: Axis): (b: nat)
    ensures b <= 1
  {
    match axis
    case X => if c == '1' || c == '3' then 1 else 0
    case Y => if c == '2' || c == '3' then 1 else 0
  }

  /** The number whose binary digits, most significant first, are the axis
      bits of the characters of key. */
  function AxisValue(key: string, axis: Axis): (v: nat)
    ensures v < Pow2(|key|)
  {
    if |key| == 0 then 0
    else 2 * AxisValue(key[..|key| - 1], axis) + AxisBit(key[|key| - 1], axis)
  }

  /** `x |= 2^k`. */
  function SetBit(x: int, k: nat): int {
    if Bit(x, k) == 1 then x else x + Pow2(k)
  }

  /** The decoding loop from index i on, with the x and y accumulators. */
  function DecodeFrom(key: string, i: nat, tx: int, ty: int): (int, int)
    requires i <= |key|
    decreases |key| - i
  {
    if i == |key| then (tx, ty)
    else
      var bit := |key| - 1 - i;
      var c := key[i];
      var tx' := if c == '1' || c == '3' then SetBit(tx, bit) else tx;
      var ty' := if c == '2' || c == '3' then SetBit(ty, bit) else ty;
      DecodeFrom(key, i + 1, tx', ty')
  }

  /** Setting bit m of an even multiple of 2^m adds 2^m. */
  lemma SetClearBit(v: nat, m: nat)
    ensures SetBit(2 * v * Pow2(m), m) == (2 * v + 1) * Pow2(m)
  {
    var p := Pow2(m);
    var x := 2 * v * p;
    assert x == (2 * v) * p + 0;
    DivModUnique(x, p, 2 * v, 0);
    DivModUnique(2 * v, 2, v, 0);
    assert Bit(x, m) == 0;
    assert x + p == (2 * v + 1) * p;
  }

  /** Reading one more character: an accumulator v shifted past bit m becomes
      2v + b shifted to bit m, where b is that character's axis bit. */
  lemma DecodeStep(key: string, i: nat, vx: nat, vy: nat)
    requires i < |key|
    ensures var m := |key| - 1 - i;
            DecodeFrom(key, i, vx * Pow2(m + 1), vy * Pow2(m + 1))
              == DecodeFrom(key, i + 1, (2 * vx + AxisBit(key[i], X)) * Pow2(m),
                                        (2 * vy + AxisBit(key[i], Y)) * Pow2(m))
  {
    var m := |key| - 1 - i;
    assert vx * Pow2(m + 1) == 2 * vx * Pow2(m);
    assert vy * Pow2(m + 1) == 2 * vy * Pow2(m);
    SetClearBit(vx, m);
    SetClearBit(vy, m);
  }

  /** After i characters the accumulators hold the bits read so far, already
      shifted to their final positions. */
  lemma {:induction false} DecodeFromInvariant(key: string, i: nat)
    requires i <= |key|
    ensures var shift := Pow2(|key| - i);
            DecodeFrom(key, i, AxisValue(key[..i], X) * shift, AxisValue(key[..i], Y) * shift)
              == (AxisValue(key, X), AxisValue(key, Y))
    decreases |key| - i
  {
    if i == |key| {
      assert key[..i] == key;
    } else {
      var pre := key[..i + 1];
      assert pre[..i] == key[..i];
      var vx, vy := AxisValue(key[..i], X), AxisValue(key[..i], Y);
      assert AxisValue(pre, X) == 2 * vx + AxisBit(key[i], X);
      assert AxisValue(pre, Y) == 2 * vy + AxisBit(key[i], Y);
      DecodeStep(key, i, vx, vy);
      assert |key| - i == (|key| - 1 - i) + 1;
      DecodeFromInvariant(key, i + 1);
    }
  }

  /** Quadkey to TMS tile: the zoom is the key length, the bits are collected
      most significant first, and the row is flipped back to bottom-left origin. */
  function QuadKeyToTile(key: string): (t: Tile)
    requires |key| <= MaxZoom
    ensures t.zoom == |key|
    ensures t.tx == AxisValue(key, X)
    ensures t.ty == FlipY(AxisValue(key, Y), |key|)
    ensures 0 <= t.tx < Pow2(t.zoom) && 0 <= t.ty < Pow2(t.zoom)
  {
    DecodeFromInvariant(key, 0);
    assert key[..0] == [];
    var (tx, ty) := DecodeFrom(key, 0, 0, 0);
    Tile(tx, FlipY(ty, |key|), |key|)
  }

  /** Bit |key|-1-k of an axis value is the axis bit of character k. */
  lemma {:induction false} AxisValueBit(key: string, axis: Axis, k: nat)
    requires k < |key|
    ensures Bit(AxisValue(key, axis), |key| - 1 - k) == AxisBit(key[k], axis)
  {
    var init := key[..|key| - 1];
    var v := AxisValue(key, axis);
    var v' := AxisValue(init, axis);
    var b := AxisBit(key[|key| - 1], axis);
    assert v == 2 * v' + b;
    DivModUnique(v, 2, v', b);
    if k == |key| - 1 {
      BitZero(v);
    } else {
      BitShift(v, |init| - 1 - k);
      AxisValueBit(init, axis, k);
    }
  }

  lemma AxisBitOfDigit(b0: nat, b1: nat)
    requires b0 <= 1 && b1 <= 1
    ensures AxisBit(DigitChar(b0 + 2 * b1), X) == b0
    ensures AxisBit(DigitChar(b0 + 2 * b1), Y) == b1
  {
  }

  /** The decoder reads back from digit k exactly the bits the encoder put there. */
  lemma QuadKeyAxisBits(tx: int, ty: int, zoom: nat, k: nat)
    requires zoom <= MaxZoom && k < zoom
    ensures AxisBit(QuadKey(tx, ty, zoom)[k], X) == Bit(tx, zoom - 1 - k)
    ensures AxisBit(QuadKey(tx, ty, zoom)[k], Y) == Bit(FlipY(ty, zoom), zoom - 1 - k)
  {
    var gy := FlipY(ty, zoom);
    var b0, b1 := Bit(tx, zoom - 1 - k), Bit(gy, zoom - 1 - k);
    assert QuadKey(tx, ty, zoom)[k] == QuadChar(tx, gy, zoom - 1 - k);
    AxisBitOfDigit(b0, b1);
  }

  /** Decoding a key recovers, on each axis, any number below 2^|key| whose
      bits the key carries. */
  lemma AxisValueOfBits(key: string, axis: Axis, v: int)
    requires 0 <= v < Pow2(|key|)
    requires forall k :: 0 <= k < |key| ==> AxisBit(key[k], axis) == Bit(v, |key| - 1 - k)
    ensures AxisValue(key, axis) == v
  {
    var z := |key|;
    forall j | 0 <= j < z
      ensures Bit(AxisValue(key, axis), j) == Bit(v, j)
    {
      AxisValueBit(key, axis, z - 1 - j);
    }
    BitsDetermine(AxisValue(key, axis), v, z);
  }

  /** Round trip: every tile inside the zoom level's range survives encoding
      and decoding. */
  lemma QuadKeyRoundTrip(tx: int, ty: int, zoom: nat)
    requires zoom <= MaxZoom
    requires 0 <= tx < Pow2(zoom) && 0 <= ty < Pow2(zoom)
    ensures QuadKeyToTile(QuadKey(tx, ty, zoom)) == Tile(tx, ty, zoom)
  {
    var key := QuadKey(tx, ty, zoom);
    var gy := FlipY(ty, zoom);
    forall k | 0 <= k < zoom
      ensures AxisBit(key[k], X) == Bit(tx, zoom - 1 - k)
      ensures AxisBit(key[k], Y) == Bit(gy, zoom - 1 - k)
    {
      QuadKeyAxisBits(tx, ty, zoom, k);
    }
    AxisValueOfBits(key, X, tx);
    AxisValueOfBits(key, Y, gy);
  }

  /** Reverse round trip: every quadkey is the encoding of its own decoding. */
  lemma QuadKeyReverseRoundTrip(key: string)
    requires |key| <= MaxZoom && IsQuadKey(key)
    ensures var t := QuadKeyToTile(key);
            t.zoom == |key| && QuadKey(t.tx, t.ty, t.zoom) == key
  {
    var t := QuadKeyToTile(key);
    var z := |key|;
    var vx, vy := AxisValue(key, X), AxisValue(key, Y);
    assert FlipY(t.ty, z) == vy;
    var enc := QuadKey(t.tx, t.ty, z);
    forall k | 0 <= k < z
      ensures enc[k] == key[k]
    {
      ReverseDigit(key, k);
    }
  }

  /** Digit k of the re-encoded key is digit k of the key. */
  lemma ReverseDigit(key: string, k: nat)
    requires |key| <= MaxZoom && IsQuadKey(key) && k < |key|
    ensures var t := QuadKeyToTile(key);
            QuadKey(t.tx, t.ty, t.zoom)[k] == key[k]
  {
    var t := QuadKeyToTile(key);
    var z := |key|;
    var vx, vy := AxisValue(key, X), AxisValue(key, Y);
    assert FlipY(t.ty, z) == vy;
    assert QuadKey(t.tx, t.ty, z)[k] == QuadChar(vx, vy, z - 1 - k);
    AxisValueBit(key, X, k);
    AxisValueBit(key, Y, k);
    DigitOfAxisBits(key[k]);
  }

  /** A quadkey digit is rebuilt from its two axis bits. */
  lemma DigitOfAxisBits(c: char)
    requires IsQuadDigit(c)
    ensures DigitChar(AxisBit(c, X) + 2 * AxisBit(c, Y)) == c
  {
  }

  /** Replaces every character that is not '1', '2' or '3' by '0'. */
  function Canonical(key: string): (r: string)
    ensures |r| == |key| && IsQuadKey(r)
  {
    seq(|key|, k requires 0 <= k < |key| =>
      if key[k] == '1' || key[k] == '2' || key[k] == '3' then key[k] else '0')
  }

  lemma {:induction false} AxisValueCanonical(key: string, axis: Axis)
    ensures AxisValue(Canonical(key), axis) == AxisValue(key, axis)
  {
    if |key| > 0 {
      var init := key[..|key| - 1];
      assert Canonical(key)[..|key| - 1] == Canonical(init);
      AxisValueCanonical(init, axis);
    }
  }

  /** Characters other than '1', '2' and '3' contribute no bits: the decoder
      treats them all like '0'. The empty key decodes to tile (0, 0) at zoom 0. */
  lemma QuadKeyIgnoresOtherChars(key: string)
    requires |key| <= MaxZoom
    ensures QuadKeyToTile(key) == QuadKeyToTile(Canonical(key))
    ensures QuadKeyToTile([]) == Tile(0, 0, 0)
  {
    AxisValueCanonical(key, X);
    AxisValueCanonical(key, Y);
  }

  // ------------------------------------------------------------------ pixels

  /** The tile containing a pixel: ceil(p / 512) - 1 on each axis (the
      rounding of that integer changes nothing), so tile t holds the pixels
      512 t < p <= 512 (t + 1). */
  function PixelsToTile(px: real, py: real): (t: TileXY)
    ensures TileSize as real * t.tx as real < px <= TileSize as real * (t.tx + 1) as real
    ensures TileSize as real * t.ty as real < py <= TileSize as real * (t.ty + 1) as real
  {
    TileXY(Ceil(px / TileSize as real) - 1, Ceil(py / TileSize as real) - 1)
  }

  /** The tile of a pixel is the unique t with 512 t < p <= 512 (t + 1);
      in particular pixel 0 lies in tile -1. */
  lemma PixelsToTileUnique(px: real, py: real, tx: int, ty: int)
    requires TileSize as real * tx as real < px <= TileSize as real * (tx + 1) as real
    requires TileSize as real * ty as real < py <= TileSize as real * (ty + 1) as real
    ensures PixelsToTile(px, py) == TileXY(tx, ty)
  {
  }

  /** JavaScript's ToInt32: the low 32 bits read as a signed number. */
  function Int32(n: int): (r: int)
    ensures -0x8000_0000 <= r < 0x8000_0000
    ensures (r - n) % 0x1_0000_0000 == 0
  {
    var m := n % 0x1_0000_0000;
    if m >= 0x8000_0000 then m - 0x1_0000_0000 else m
  }

  /** `512 << zoom` as JavaScript evaluates it: the shift count is taken
      modulo 32 and the result is wrapped to a signed 32-bit integer. */
  function MapSizeAsWritten(zoom: nat): (s: int)
    ensures -0x8000_0000 <= s < 0x8000_0000
    ensures (s - MapSize(zoom % 32)) % 0x1_0000_0000 == 0
  {
    Int32(TileSize * Pow2(zoom % 32))
  }

  /** The pixel width of the whole map at a zoom level: 512 * 2^zoom. */
  function MapSize(zoom: nat): (s: nat)
    ensures s >= TileSize && s % TileSize == 0
  {
    TileSize * Pow2(zoom)
  }

  /** The 32-bit shift computes the map size for every zoom up to 21. */
  lemma MapSizeAgreesBelowZoom22(zoom: nat)
    requires zoom <= 21
    ensures MapSizeAsWritten(zoom) == MapSize(zoom)
  {
    DivModUnique(zoom, 32, 0, zoom);
    Pow2Mono(zoom, 21);
    Pow2Values();
    var n := TileSize * Pow2(zoom);
    assert 0 < n <= 0x4000_0000;
    DivModUnique(n, 0x1_0000_0000, 0, n);
    assert MapSizeAsWritten(zoom) == Int32(n);
  }

  /** At zoom 22 the shift reaches the sign bit: the map size comes out as
      -2^31 instead of 2^31, and at zoom 23 it is 0. */
  lemma MapSizeOverflowsAtZoom22()
    ensures MapSizeAsWritten(22) == -0x8000_0000 && MapSize(22) == 0x8000_0000
    ensures MapSizeAsWritten(23) == 0 && MapSize(23) == 0x1_0000_0000
  {
    Pow2Values();
    assert 22 % 32 == 22 && 23 % 32 == 23;
    assert TileSize * Pow2(22) == 0x8000_0000;
    assert TileSize * Pow2(23) == 0x1_0000_0000;
    DivModUnique(0x8000_0000, 0x1_0000_0000, 0, 0x8000_0000);
    DivModUnique(0x1_0000_0000, 0x1_0000_0000, 1, 0);
  }

  /** From zoom 22 to 31 the 32-bit shift never gives the map size: 512 * 2^zoom
      is 2^31 times a power of two, whose low 32 bits read as a signed number
      are -2^31 (zoom 22) or 0 (higher zooms). */
  lemma MapSizeWrongFromZoom22(zoom: nat)
    requires 22 <= zoom < 32
    ensures MapSizeAsWritten(zoom) <= 0 < MapSize(zoom)
  {
    DivModUnique(zoom, 32, 0, zoom);
    Pow2Values();
    Pow2Add(22, zoom - 22);
    var k := Pow2(zoom - 22);
    var n := TileSize * Pow2(zoom);
    assert n == 0x8000_0000 * k;
    if zoom == 22 {
      DivModUnique(n, 0x1_0000_0000, 0, 0x8000_0000);
    } else {
      var h := Pow2(zoom - 23);
      assert k == 2 * h;
      DivModUnique(n, 0x1_0000_0000, h, 0);
    }
  }

  /** PixelsToRaster as written, with the 32-bit map size. */
  function PixelsToRasterAsWritten(px: real, py: real, zoom: nat): (p: RasterPoint)
    ensures p.x == px
    ensures zoom < 22 ==> p == PixelsToRaster(px, py, zoom)
  {
    var y := MapSizeAsWritten(zoom) as real - py;
    if zoom < 22 then MapSizeAgreesBelowZoom22(zoom); RasterPoint(px, y)
    else RasterPoint(px, y)
  }

  /** The raster flip of the y axis at zoom 22 with the 32-bit map size sends
      pixel row 0 to a negative row instead of to the map height. */
  lemma RasterAsWrittenWrongAtZoom22()
    ensures PixelsToRasterAsWritten(0.0, 0.0, 22) == RasterPoint(0.0, -0x8000_0000 as real)
    ensures PixelsToRaster(0.0, 0.0, 22) == RasterPoint(0.0, 0x8000_0000 as real)
  {
    MapSizeOverflowsAtZoom22();
  }

  /** As written, from zoom 22 to 31 every pixel row lands on the wrong raster
      row: the flip uses a map height of -2^31 or 0. */
  lemma RasterAsWrittenWrongFromZoom22(px: real, py: real, zoom: nat)
    requires 22 <= zoom < 32
    ensures PixelsToRasterAsWritten(px, py, zoom).y < PixelsToRaster(px, py, zoom).y
  {
    MapSizeWrongFromZoom22(zoom);
  }

  /** Moves pixel coordinates to a top-left origin: x is kept and y becomes
      the map height minus y, which maps [0, MapSize] onto itself. */
  function PixelsToRaster(px: real, py: real, zoom: nat): (p: RasterPoint)
    ensures p.x == px
    ensures p.y + py == MapSize(zoom) as real
    ensures 0.0 <= py <= MapSize(zoom) as real <==> 0.0 <= p.y <= MapSize(zoom) as real
  {
    RasterPoint(px, MapSize(zoom) as real - py)
  }

  /** The y map of PixelsToRaster is an involution. */
  lemma PixelsToRasterInvolution(px: real, py: real, zoom: nat)
    ensures var p := PixelsToRaster(px, py, zoom);
            PixelsToRaster(p.x, p.y, zoom) == RasterPoint(px, py)
  {
  }
}
