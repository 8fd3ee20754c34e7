/** The temperature colour model and the gradient painters (src/ui/ui_temperature.cpp).
    A temperature picks two RGB stops; each screen row y is coloured by interpolating
    from the top stop to the bottom stop by y / 240, and is drawn as one horizontal line. */
module UiTemperature {
  import opened Display
  import opened UiGlobals

  datatype Rgb = Rgb(r: int, g: int, b: int)

  /** The colours at the top and at the bottom of the vertical gradient. */
  datatype Stops = Stops(top: Rgb, bottom: Rgb)

  const ScreenWidth: int := 320
  const ScreenHeight: int := 240

  const HotStops: Stops := Stops(Rgb(120, 0, 0), Rgb(255, 60, 60))
  const MildStops: Stops := Stops(Rgb(0, 20, 100), Rgb(40, 80, 180))
  const ColdStops: Stops := Stops(Rgb(0, 0, 128), Rgb(64, 128, 255))

  /** A `(uint8_t)` cast of a non-negative float: truncation, which is the floor. */
  function U8(x: real): int
  {
    x.Floor
  }

  predicate IsByte(v: int)
  {
    0 <= v <= 255
  }

  /** Both stops are made of bytes and no channel gets darker from top to bottom. */
  predicate Ordered(s: Stops)
  {
    IsByte(s.top.r) && IsByte(s.top.g) && IsByte(s.top.b) &&
    IsByte(s.bottom.r) && IsByte(s.bottom.g) && IsByte(s.bottom.b) &&
    s.top.r <= s.bottom.r && s.top.g <= s.bottom.g && s.top.b <= s.bottom.b
  }

  /** The 30-32 degree band at interpolation parameter `ratio` (0 at 30, 1 at 32). */
  function BandStops(ratio: real): Stops
  {
    Stops(Rgb(U8(0.0 + 120.0 * ratio), U8(0.0 + 0.0 * ratio), U8(128.0 * (1.0 - ratio))),
          Rgb(U8(64.0 + 191.0 * ratio),
              U8(128.0 * (1.0 - ratio) + 60.0 * ratio),
              U8(255.0 * (1.0 - ratio) + 60.0 * ratio)))
  }

  lemma FloorMonotone(a: real, b: real)
    requires a <= b
    ensures a.Floor <= b.Floor
  {
  }

  /** A product of non-negative reals is non-negative. */
  lemma MulNonneg(a: real, b: real)
    requires 0.0 <= a && 0.0 <= b
    ensures 0.0 <= a * b
  {
  }

  lemma BandOrdered(ratio: real)
    requires 0.0 <= ratio < 1.0
    ensures Ordered(BandStops(ratio))
  {
    var s := BandStops(ratio);
    FloorMonotone(0.0, 120.0 * ratio);
    FloorMonotone(120.0 * ratio, 64.0 + 191.0 * ratio);
    FloorMonotone(128.0 * (1.0 - ratio), 255.0 * (1.0 - ratio) + 60.0 * ratio);
    FloorMonotone(0.0, 128.0 * (1.0 - ratio));
    FloorMonotone(0.0, 128.0 * (1.0 - ratio) + 60.0 * ratio);
    FloorMonotone(64.0 + 191.0 * ratio, 255.0);
    FloorMonotone(128.0 * (1.0 - ratio) + 60.0 * ratio, 128.0);
    FloorMonotone(255.0 * (1.0 - ratio) + 60.0 * ratio, 255.0);
  }

  /** getTemperatureColors: four regimes, each closed below and open above. */
  function StopsFor(temp: real): (s: Stops)
    ensures Ordered(s)
  {
    if temp >= 32.0 then HotStops
    else if temp >= 30.0 then
      var ratio := (temp - 30.0) / 2.0;
      BandOrdered(ratio);
      BandStops(ratio)
    else if temp >= 25.0 then MildStops
    else ColdStops
  }

  /** One channel of row `y`: top + (bottom - top) * (y / 240), truncated to a byte. */
  function Lerp(top: int, bottom: int, y: int): int
  {
    U8(top as real + (bottom - top) as real * (y as real / 240.0))
  }

  function RowColour(s: Stops, y: int): Rgb
  {
    Rgb(Lerp(s.top.r, s.bottom.r, y), Lerp(s.top.g, s.bottom.g, y), Lerp(s.top.b, s.bottom.b, y))
  }

  /** The colour the painters hand to `drawFastHLine` for absolute row `y`. */
  function RowPaint(s: Stops, y: int): Colour
  {
    var c := RowColour(s, y);
    Rgb565(c.r, c.g, c.b)
  }

  /** What drawTemperatureGradientBackground draws: rows 0..239, each 320 wide. */
  function GradientBackgroundCmds(temp: real): seq<Cmd>
  {
    var s := StopsFor(temp);
    seq(ScreenHeight, y => HLine(0, y, ScreenWidth, RowPaint(s, y)))
  }

  /** What drawTemperatureGradientArea draws: rows y..y+height-1, columns x..x+width-1. */
  function GradientAreaCmds(x: int, y: int, width: int, height: int, temp: real): seq<Cmd>
  {
    var s := StopsFor(temp);
    seq(if height > 0 then height else 0, row => HLine(x, y + row, width, RowPaint(s, y + row)))
  }

  // ---------------------------------------------------------------------------------
  // Properties of the colour model

  lemma HotRegime(temp: real)
    requires temp >= 32.0
    ensures StopsFor(temp) == Stops(Rgb(120, 0, 0), Rgb(255, 60, 60))
  {
  }

  lemma FixedBlueRegimes(temp: real)
    ensures 25.0 <= temp < 30.0 ==> StopsFor(temp) == Stops(Rgb(0, 20, 100), Rgb(40, 80, 180))
    ensures temp < 25.0 ==> StopsFor(temp) == Stops(Rgb(0, 0, 128), Rgb(64, 128, 255))
  {
  }

  /** In the 30-32 band the top stop never has green; the bottom green falls from 128
      towards 60 and never reaches zero; red rises and blue falls. */
  lemma BandGreen(temp: real)
    requires 30.0 <= temp < 32.0
    ensures StopsFor(temp).top.g == 0
    ensures 60 <= StopsFor(temp).bottom.g <= 128
    ensures 0 <= StopsFor(temp).top.r < 120 && 64 <= StopsFor(temp).bottom.r < 255
  {
    var ratio := (temp - 30.0) / 2.0;
    assert 0.0 <= ratio < 1.0;
    var v := 128.0 * (1.0 - ratio) + 60.0 * ratio;
    assert 60.0 < v <= 128.0;
    FloorMonotone(60.0, v);
    FloorMonotone(v, 128.0);
  }

  /** Exactly 30 degrees lands in the band at ratio 0, whose stops are the cold
      regime's, not the 25-30 regime's. */
  lemma BandAtThirty()
    ensures StopsFor(30.0) == ColdStops
    ensures StopsFor(30.0) != StopsFor(29.9)
  {
    assert StopsFor(29.9) == MildStops;
  }

  /** Within the screen a row's channel lies between the two stops' channels. */
  lemma LerpBetween(top: int, bottom: int, y: int)
    requires 0 <= top <= bottom <= 255 && 0 <= y < ScreenHeight
    ensures top <= Lerp(top, bottom, y) <= bottom
  {
    var t := y as real / 240.0;
    var d := (bottom - top) as real;
    assert 0.0 <= t <= 1.0;
    MulNonneg(d, t);
    MulNonneg(d, 1.0 - t);
    assert bottom as real - (top as real + d * t) == d * (1.0 - t);
    FloorMonotone(top as real, top as real + d * t);
    FloorMonotone(top as real + d * t, bottom as real);
  }

  lemma LerpMonotone(top: int, bottom: int, y1: int, y2: int)
    requires top <= bottom && y1 <= y2
    ensures Lerp(top, bottom, y1) <= Lerp(top, bottom, y2)
  {
    var d, t1, t2 := (bottom - top) as real, y1 as real / 240.0, y2 as real / 240.0;
    assert t1 <= t2;
    MulNonneg(d, t2 - t1);
    assert d * t2 - d * t1 == d * (t2 - t1);
    FloorMonotone(top as real + d * t1, top as real + d * t2);
  }

  /** Down the screen every channel of the gradient stays a byte and never decreases. */
  lemma {:induction false} RowColourMonotone(temp: real, y1: int, y2: int)
    requires 0 <= y1 <= y2 < ScreenHeight
    ensures var c1, c2 := RowColour(StopsFor(temp), y1), RowColour(StopsFor(temp), y2);
      c1.r <= c2.r && c1.g <= c2.g && c1.b <= c2.b &&
      IsByte(c1.r) && IsByte(c1.g) && IsByte(c1.b) &&
      IsByte(c2.r) && IsByte(c2.g) && IsByte(c2.b)
  {
    var s := StopsFor(temp);
    LerpMonotone(s.top.r, s.bottom.r, y1, y2);
    LerpMonotone(s.top.g, s.bottom.g, y1, y2);
    LerpMonotone(s.top.b, s.bottom.b, y1, y2);
    LerpBetween(s.top.r, s.bottom.r, y1);
    LerpBetween(s.top.g, s.bottom.g, y1);
    LerpBetween(s.top.b, s.bottom.b, y1);
    LerpBetween(s.top.r, s.bottom.r, y2);
    LerpBetween(s.top.g, s.bottom.g, y2);
    LerpBetween(s.top.b, s.bottom.b, y2);
  }

  // ---------------------------------------------------------------------------------
  // Properties of the painters

  /** The full painter covers the whole screen, one 320-wide line per row 0..239. */
  lemma BackgroundCoversScreen(temp: real)
    ensures |GradientBackgroundCmds(temp)| == ScreenHeight
    ensures forall k :: 0 <= k < ScreenHeight ==>
      GradientBackgroundCmds(temp)[k].HLine? &&
      GradientBackgroundCmds(temp)[k].x == 0 && GradientBackgroundCmds(temp)[k].y == k &&
      GradientBackgroundCmds(temp)[k].w == ScreenWidth
  {
  }

  /** The area painter touches only rows y..y+height-1 and columns x..x+width-1. */
  lemma AreaStaysInside(x: int, y: int, width: int, height: int, temp: real)
    ensures |GradientAreaCmds(x, y, width, height, temp)| == (if height > 0 then height else 0)
    ensures forall cmd :: cmd in GradientAreaCmds(x, y, width, height, temp) ==>
      cmd.HLine? && cmd.x == x && cmd.w == width && y <= cmd.y < y + height
  {
  }

  /** Partial repaint is pixel-identical to the full repaint: area row `row` is drawn
      in the colour the full painter gives absolute row y + row. */
  lemma AreaMatchesBackground(x: int, y: int, width: int, height: int, temp: real, row: int)
    requires 0 <= row < height && 0 <= y + row < ScreenHeight
    ensures GradientAreaCmds(x, y, width, height, temp)[row].y == GradientBackgroundCmds(temp)[y + row].y
    ensures GradientAreaCmds(x, y, width, height, temp)[row].c == GradientBackgroundCmds(temp)[y + row].c
  {
  }

  // ---------------------------------------------------------------------------------
  // The painters and the background-temperature accessors

  method DrawTemperatureGradientBackground(tft: Screen, temp: real)
    modifies tft
    ensures tft.trace == old(tft.trace) + GradientBackgroundCmds(temp)
  {
    var s := StopsFor(temp);
    var y := 0;
    while y < ScreenHeight
      invariant 0 <= y <= ScreenHeight
      invariant tft.trace == old(tft.trace) + GradientBackgroundCmds(temp)[..y]
    {
      tft.trace := tft.trace + [HLine(0, y, ScreenWidth, RowPaint(s, y))];
      y := y + 1;
    }
  }

  method DrawTemperatureGradientArea(tft: Screen, x: int, y: int, width: int, height: int, temp: real)
    modifies tft
    ensures tft.trace == old(tft.trace) + GradientAreaCmds(x, y, width, height, temp)
  {
    var s := StopsFor(temp);
    var row := 0;
    while row < height
      invariant 0 <= row && (row <= height || row == 0)
      invariant tft.trace == old(tft.trace) + GradientAreaCmds(x, y, width, height, temp)[..row]
    {
      tft.trace := tft.trace + [HLine(x, y + row, width, RowPaint(s, y + row))];
      row := row + 1;
    }
  }

  method UpdateBackgroundTemperature(st: RenderState, temp: real)
    modifies st`currentBackgroundTemp
    ensures st.currentBackgroundTemp == temp
  {
    st.currentBackgroundTemp := temp;
  }

  method GetCurrentBackgroundTemp(st: RenderState) returns (temp: real)
    ensures temp == st.currentBackgroundTemp
  {
    temp := st.currentBackgroundTemp;
  }

  /** drawGradientBackground: the full painter at the stored background temperature. */
  method DrawGradientBackground(tft: Screen, st: RenderState)
    modifies tft
    ensures tft.trace == old(tft.trace) + GradientBackgroundCmds(st.currentBackgroundTemp)
  {
    DrawTemperatureGradientBackground(tft, st.currentBackgroundTemp);
  }

  /** drawGradientArea: the area painter at the stored background temperature. */
  method DrawGradientArea(tft: Screen, st: RenderState, x: int, y: int, width: int, height: int)
    modifies tft
    ensures tft.trace == old(tft.trace) + GradientAreaCmds(x, y, width, height, st.currentBackgroundTemp)
  {
    DrawTemperatureGradientArea(tft, x, y, width, height, st.currentBackgroundTemp);
  }
}
