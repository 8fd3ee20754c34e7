/** The character sprite compositor (src/ui/ui_character.cpp). A 160x160 RGB565 bitmap,
    chosen by temperature, is scaled to 180x180 by nearest neighbour and streamed
    pixel by pixel, row-major, into a 180x180 window: unchanged, faded in over eight
    passes, or with an 8-pixel edge band alpha-blended against the gradient background. */
module UiCharacter {
  import opened Display
  import opened UiGlobals
  import opened UiTemperature

  type Word16 = w: int | 0 <= w < 0x1_0000

  const SourceSize: int := 160
  const TargetSize: int := 180
  const FadeWidth: int := 8
  const FadeSteps: int := 8
  const HotThreshold: real := 32.0

  /** The bitmap contents themselves are not part of this model: any 160x160 words. */
  type Bitmap = s: seq<Word16> | |s| == 25600 witness seq(25600, _ => 0)

  datatype CharacterArt = CharacterArt(normal: Bitmap, hot: Bitmap)

  datatype Variant = Normal | Hot

  /** Where the character sits on the dashboard. */
  const CharX: int := 10
  const CharY: int := 40

  function VariantFor(temp: real): Variant
  {
    if temp >= HotThreshold then Hot else Normal
  }

  /** getCharacterImageArray */
  function ImageFor(art: CharacterArt, temp: real): Bitmap
  {
    match VariantFor(temp)
    case Hot => art.hot
    case Normal => art.normal
  }

  // ---------------------------------------------------------------------------------
  // Nearest-neighbour scaling

  /** (float)newSize / originalSize */
  const Scale: real := 180.0 / 160.0

  /** `(int)(i / scale)`, clamped to the last source row or column. */
  function SrcCoord(i: int): (s: int)
    requires 0 <= i
    ensures 0 <= s < SourceSize
  {
    var s := (i as real / Scale).Floor;
    if s >= SourceSize then SourceSize - 1 else s
  }

  function SrcIndex(row: int, col: int): (k: int)
    requires 0 <= row && 0 <= col
    ensures 0 <= k < SourceSize * SourceSize
  {
    SrcCoord(row) * SourceSize + SrcCoord(col)
  }

  /** Inside the target square the clamp never fires: the source coordinate is
      exactly floor(8 i / 9). */
  lemma NearestNeighbour(i: int)
    requires 0 <= i < TargetSize
    ensures SrcCoord(i) == (8 * i) / 9
    ensures (i as real / Scale).Floor < SourceSize
  {
    var q := (8 * i) / 9;
    assert i as real / Scale == (8 * i) as real / 9.0;
    assert q as real <= (8 * i) as real / 9.0 < q as real + 1.0;
  }

  // ---------------------------------------------------------------------------------
  // RGB565 channels and the two effects

  function Red5(w: Word16): int { (w / 2048) % 32 }     // (w >> 11) & 0x1F
  function Green6(w: Word16): int { (w / 32) % 64 }     // (w >> 5) & 0x3F
  function Blue5(w: Word16): int { w % 32 }             // w & 0x1F

  /** Fade-in step `fade` of 0..7 scales a channel by fade / 7 in integer arithmetic. */
  function FadeChannel(c: int, fade: int): int
  {
    c * fade / 7
  }

  function Min(a: int, b: int): int { if a <= b then a else b }

  /** Distance of a target pixel to the nearest edge of the 180x180 square. */
  function EdgeDistance(row: int, col: int): int
  {
    Min(Min(row, TargetSize - row - 1), Min(col, TargetSize - col - 1))
  }

  /** 0.3 at the very edge rising by 0.7 over the fade band. */
  function Alpha(d: int): real
  {
    0.3 + 0.7 * (d as real / FadeWidth as real)
  }

  /** The convex combination of a sprite and a background channel with weight `alpha`. */
  function Mix(sprite: real, background: real, alpha: real): real
  {
    sprite * alpha + background * (1.0 - alpha)
  }

  /** `(uint8_t)(sprite * alpha + background * (1 - alpha))`, before the shift. */
  function Blend(sprite: int, background: int, alpha: real): int
  {
    U8(Mix(sprite as real, background as real, alpha))
  }

  /** How a pass turns a source word into the colour it pushes. */
  datatype Effect =
    | Plain                               // drawCharacterImage
    | FadeStep(fade: int)                 // one pass of drawCharacterImageWithFade
    | EdgeBlend(bgTemp: real, top: int)   // drawCharacterImageWithEdgeFade at window row `top`

  function PixelOf(img: Bitmap, e: Effect, row: int, col: int): Colour
    requires 0 <= row < TargetSize && 0 <= col < TargetSize
  {
    var w := img[SrcIndex(row, col)];
    match e
    case Plain => Word(w)
    case FadeStep(fade) =>
      Rgb565(FadeChannel(Red5(w), fade) * 8, FadeChannel(Green6(w), fade) * 4, FadeChannel(Blue5(w), fade) * 8)
    case EdgeBlend(bgTemp, top) =>
      var d := EdgeDistance(row, col);
      if d < FadeWidth then
        var bg := RowColour(StopsFor(bgTemp), top + row);
        var a := Alpha(d);
        Rgb565(Blend(Red5(w) * 8, bg.r, a) / 8 * 8,
               Blend(Green6(w) * 4, bg.g, a) / 4 * 4,
               Blend(Blue5(w) * 8, bg.b, a) / 8 * 8)
      else
        Word(w)
  }

  /** The pushes of target row `row`, left to right. */
  function RowPushes(img: Bitmap, e: Effect, row: int): seq<Cmd>
    requires 0 <= row < TargetSize
  {
    seq(TargetSize, col requires 0 <= col < TargetSize => Push(PixelOf(img, e, row, col)))
  }

  /** The pushes of the first `rows` target rows, row-major. */
  function Pushes(img: Bitmap, e: Effect, rows: nat): seq<Cmd>
    requires rows <= TargetSize
  {
    if rows == 0 then [] else Pushes(img, e, rows - 1) + RowPushes(img, e, rows - 1)
  }

  /** One complete pass: open the 180x180 window at (x, y), then fill it. */
  function PassCmds(img: Bitmap, e: Effect, x: int, y: int): seq<Cmd>
  {
    [Window(x, y, TargetSize, TargetSize)] + Pushes(img, e, TargetSize)
  }

  /** The first `n` passes of the fade-in. */
  function FadeInCmds(img: Bitmap, x: int, y: int, n: nat): seq<Cmd>
  {
    if n == 0 then [] else FadeInCmds(img, x, y, n - 1) + PassCmds(img, FadeStep(n - 1), x, y)
  }

  function EdgeFadeCmds(img: Bitmap, bgTemp: real, x: int, y: int): seq<Cmd>
  {
    PassCmds(img, EdgeBlend(bgTemp, y), x, y)
  }

  /** What drawCharacter draws: the character square repainted with the gradient, then
      the edge-faded sprite on top. */
  function CharacterCmds(bgTemp: real, img: Bitmap): seq<Cmd>
  {
    GradientAreaCmds(CharX, CharY, TargetSize, TargetSize, bgTemp) + EdgeFadeCmds(img, bgTemp, CharX, CharY)
  }

  // ---------------------------------------------------------------------------------
  // Properties

  /** The hot sprite is chosen exactly from 32 degrees on. */
  lemma SpriteThreshold(art: CharacterArt, temp: real)
    ensures VariantFor(temp) == Hot <==> temp >= 32.0
    ensures ImageFor(art, temp) == if temp >= 32.0 then art.hot else art.normal
    ensures VariantFor(31.9) == Normal && VariantFor(32.0) == Hot
  {
  }

  /** A pass pushes exactly 180 x 180 pixels, target pixel (r, c) at position 180 r + c. */
  lemma {:induction false} PushesAt(img: Bitmap, e: Effect, rows: nat, r: int, c: int)
    requires rows <= TargetSize && 0 <= r < rows && 0 <= c < TargetSize
    ensures |Pushes(img, e, rows)| == TargetSize * rows
    ensures Pushes(img, e, rows)[r * TargetSize + c] == Push(PixelOf(img, e, r, c))
  {
    PushesLength(img, e, rows - 1);
    if r < rows - 1 {
      PushesAt(img, e, rows - 1, r, c);
    } else {
      assert r * TargetSize + c == |Pushes(img, e, rows - 1)| + c;
    }
  }

  lemma {:induction false} PushesLength(img: Bitmap, e: Effect, rows: nat)
    requires rows <= TargetSize
    ensures |Pushes(img, e, rows)| == TargetSize * rows
  {
    if rows > 0 {
      PushesLength(img, e, rows - 1);
    }
  }

  /** The plain draw pushes every mapped source word unchanged. */
  lemma PlainCopiesSource(img: Bitmap, r: int, c: int)
    requires 0 <= r < TargetSize && 0 <= c < TargetSize
    ensures |Pushes(img, Plain, TargetSize)| == TargetSize * TargetSize
    ensures Pushes(img, Plain, TargetSize)[r * TargetSize + c] == Push(Word(img[SrcIndex(r, c)]))
  {
    PushesAt(img, Plain, TargetSize, r, c);
  }

  /** Fade-in: black at step 0, the full channel at step 7, never brighter than the
      source, and non-decreasing from one step to the next. */
  lemma FadeChannelSteps(c: int, fade: int)
    requires 0 <= c && 0 <= fade < 7
    ensures FadeChannel(c, 0) == 0 && FadeChannel(c, 7) == c
    ensures 0 <= FadeChannel(c, fade) <= FadeChannel(c, fade + 1) <= c
  {
    var p := c * fade;
    assert c * (fade + 1) == p + c;
    assert c * 7 == p + c * (7 - fade);
    assert 0 <= p && c * (7 - fade) >= c;
  }

  lemma EdgeDistanceRange(row: int, col: int)
    requires 0 <= row < TargetSize && 0 <= col < TargetSize
    ensures 0 <= EdgeDistance(row, col) <= 89
  {
  }

  lemma AlphaRange(d: int)
    requires 0 <= d < FadeWidth
    ensures 0.3 <= Alpha(d) < 1.0
  {
  }

  /** A convex combination lies between its two ends. */
  lemma BlendBetween(s: real, b: real, alpha: real)
    requires 0.0 <= alpha <= 1.0
    ensures s <= b ==> s <= Mix(s, b, alpha) <= b
    ensures b <= s ==> b <= Mix(s, b, alpha) <= s
  {
    var v := s * alpha + b * (1.0 - alpha);
    if s <= b {
      MulNonneg(b - s, alpha);
      MulNonneg(b - s, 1.0 - alpha);
      assert b - v == (b - s) * alpha;
      assert v - s == (b - s) * (1.0 - alpha);
    } else {
      MulNonneg(s - b, alpha);
      MulNonneg(s - b, 1.0 - alpha);
      assert v - b == (s - b) * alpha;
      assert s - v == (s - b) * (1.0 - alpha);
    }
  }

  /** Away from the fade band the edge draw pushes the source word unchanged. */
  lemma EdgeInteriorUnchanged(img: Bitmap, bgTemp: real, top: int, r: int, c: int)
    requires 0 <= r < TargetSize && 0 <= c < TargetSize && EdgeDistance(r, c) >= FadeWidth
    ensures |Pushes(img, EdgeBlend(bgTemp, top), TargetSize)| == TargetSize * TargetSize
    ensures Pushes(img, EdgeBlend(bgTemp, top), TargetSize)[r * TargetSize + c] == Push(Word(img[SrcIndex(r, c)]))
  {
    PushesAt(img, EdgeBlend(bgTemp, top), TargetSize, r, c);
  }

  /** In the fade band each pushed channel, before its final shift, lies between the
      sprite's channel and the background's: the gradient colour of absolute row
      top + r at the background temperature, the very colour the full painter gives
      that row. */
  lemma EdgeBandBetween(img: Bitmap, bgTemp: real, top: int, r: int, c: int)
    requires 0 <= r < TargetSize && 0 <= c < TargetSize && EdgeDistance(r, c) < FadeWidth
    requires 0 <= top + r < ScreenHeight
    ensures var w, bg, a := img[SrcIndex(r, c)], RowColour(StopsFor(bgTemp), top + r), Alpha(EdgeDistance(r, c));
      GradientBackgroundCmds(bgTemp)[top + r].c == Rgb565(bg.r, bg.g, bg.b) &&
      Min(Red5(w) * 8, bg.r) <= Blend(Red5(w) * 8, bg.r, a) <= Max(Red5(w) * 8, bg.r) &&
      Min(Green6(w) * 4, bg.g) <= Blend(Green6(w) * 4, bg.g, a) <= Max(Green6(w) * 4, bg.g) &&
      Min(Blue5(w) * 8, bg.b) <= Blend(Blue5(w) * 8, bg.b, a) <= Max(Blue5(w) * 8, bg.b)
  {
    var w, bg, a := img[SrcIndex(r, c)], RowColour(StopsFor(bgTemp), top + r), Alpha(EdgeDistance(r, c));
    AlphaRange(EdgeDistance(r, c));
    BlendChannelBetween(Red5(w) * 8, bg.r, a);
    BlendChannelBetween(Green6(w) * 4, bg.g, a);
    BlendChannelBetween(Blue5(w) * 8, bg.b, a);
  }

  function Max(a: int, b: int): int { if a >= b then a else b }

  lemma BlendChannelBetween(s: int, b: int, a: real)
    requires 0.0 <= a <= 1.0
    ensures Min(s, b) <= Blend(s, b, a) <= Max(s, b)
  {
    var sr, br := s as real, b as real;
    var v := Mix(sr, br, a);
    BlendBetween(sr, br, a);
    if s <= b {
      FloorMonotone(sr, v);
      FloorMonotone(v, br);
    } else {
      FloorMonotone(br, v);
      FloorMonotone(v, sr);
    }
  }

  // ---------------------------------------------------------------------------------
  // The drawing operations

  /** The column loop of one target row: push its 180 pixels left to right. */
  method PushRow(tft: Screen, img: Bitmap, e: Effect, row: int)
    requires 0 <= row < TargetSize
    modifies tft
    ensures tft.trace == old(tft.trace) + RowPushes(img, e, row)
  {
    var col := 0;
    while col < TargetSize
      invariant 0 <= col <= TargetSize
      invariant tft.trace == old(tft.trace) + RowPushes(img, e, row)[..col]
    {
      var push := Push(PixelOf(img, e, row, col));
      tft.trace := tft.trace + [push];
      assert RowPushes(img, e, row)[..col + 1] == RowPushes(img, e, row)[..col] + [push];
      AppendAssoc(old(tft.trace), RowPushes(img, e, row)[..col], [push]);
      col := col + 1;
    }
    assert RowPushes(img, e, row)[..col] == RowPushes(img, e, row);
  }

  /** The nested row/column loop the three draw functions share: push every target
      pixel of the 180x180 square, row-major. */
  method PushPixels(tft: Screen, img: Bitmap, e: Effect)
    modifies tft
    ensures tft.trace == old(tft.trace) + Pushes(img, e, TargetSize)
  {
    var row := 0;
    while row < TargetSize
      invariant 0 <= row <= TargetSize
      invariant tft.trace == old(tft.trace) + Pushes(img, e, row)
    {
      PushRow(tft, img, e, row);
      assert Pushes(img, e, row + 1) == Pushes(img, e, row) + RowPushes(img, e, row);
      AppendAssoc(old(tft.trace), Pushes(img, e, row), RowPushes(img, e, row));
      row := row + 1;
    }
  }

  method DrawCharacterImage(tft: Screen, art: CharacterArt, spriteTemp: real, x: int, y: int)
    modifies tft
    ensures tft.trace == old(tft.trace) + PassCmds(ImageFor(art, spriteTemp), Plain, x, y)
  {
    var img := ImageFor(art, spriteTemp);
    tft.trace := tft.trace + [Window(x, y, TargetSize, TargetSize)];
    PushPixels(tft, img, Plain);
  }

  method DrawCharacterImageWithFade(tft: Screen, art: CharacterArt, spriteTemp: real, x: int, y: int)
    modifies tft
    ensures tft.trace == old(tft.trace) + FadeInCmds(ImageFor(art, spriteTemp), x, y, FadeSteps)
  {
    var img := ImageFor(art, spriteTemp);
    var fade := 0;
    while fade <= 7
      invariant 0 <= fade <= FadeSteps
      invariant tft.trace == old(tft.trace) + FadeInCmds(img, x, y, fade)
    {
      tft.trace := tft.trace + [Window(x, y, TargetSize, TargetSize)];
      PushPixels(tft, img, FadeStep(fade));
      fade := fade + 1;
    }
  }

  method DrawCharacterImageWithEdgeFade(tft: Screen, st: RenderState, art: CharacterArt, spriteTemp: real, x: int, y: int)
    modifies tft
    ensures tft.trace == old(tft.trace) + EdgeFadeCmds(ImageFor(art, spriteTemp), st.currentBackgroundTemp, x, y)
  {
    var img := ImageFor(art, spriteTemp);
    tft.trace := tft.trace + [Window(x, y, TargetSize, TargetSize)];
    PushPixels(tft, img, EdgeBlend(st.currentBackgroundTemp, y));
  }

  method ClearCharacterArea(tft: Screen, st: RenderState)
    modifies tft
    ensures tft.trace == old(tft.trace) + GradientAreaCmds(CharX, CharY, TargetSize, TargetSize, st.currentBackgroundTemp)
  {
    DrawTemperatureGradientArea(tft, CharX, CharY, TargetSize, TargetSize, st.currentBackgroundTemp);
  }

  /** drawCharacter: `temp` is the reading it takes itself, `spriteTemp` the one the
      edge-fade draw takes when it picks the bitmap. Both branches of the source
      repaint and redraw alike; only the hot/normal flag depends on them. */
  method DrawCharacter(tft: Screen, st: RenderState, art: CharacterArt, temp: real, spriteTemp: real)
    modifies tft, st`isHotCharacterMode
    ensures st.isHotCharacterMode == (temp >= HotThreshold)
    ensures tft.trace == old(tft.trace) + CharacterCmds(st.currentBackgroundTemp, ImageFor(art, spriteTemp))
  {
    var shouldUseHotCharacter := temp >= HotThreshold;
    if shouldUseHotCharacter != st.isHotCharacterMode {
      st.isHotCharacterMode := shouldUseHotCharacter;
      ClearCharacterArea(tft, st);
      DrawCharacterImageWithEdgeFade(tft, st, art, spriteTemp, CharX, CharY);
    } else {
      ClearCharacterArea(tft, st);
      DrawCharacterImageWithEdgeFade(tft, st, art, spriteTemp, CharX, CharY);
    }
  }
}
