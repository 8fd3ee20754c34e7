/** The dashboard screen set-up (src/ui.cpp): the title, the fade-in of the main screen
    and the start-up sequence. The render globals this file declares are in UiGlobals;
    its copies of the four field-drawing functions are the ones in UiData. */
module Ui {
  import opened Display
  import opened UiGlobals
  import opened UiTemperature
  import opened UiCharacter

  function TitleText(c: Colour): Cmd
  {
    Text(Str("CarBuddy"), 25, 8, 2, c)
  }

  /** The three fixed captions, in size 3. */
  function CaptionCmds(c: Colour): seq<Cmd>
  {
    [Text(Str("Temp:"), 200, 10, 3, c), Text(Str("Speed:"), 200, 130, 3, c), Text(Str("km/h"), 240, 180, 3, c)]
  }

  /** What updateCarBuddyTitle draws: the title strip repainted with the gradient at
      the background temperature, then the title. */
  function TitleCmds(bgTemp: real): seq<Cmd>
  {
    GradientAreaCmds(25, 8, 120, 16, bgTemp) + [TitleText(White)]
  }

  /** A grey of the given level on all three channels. */
  function Grey(level: int): Colour
  {
    Rgb565(level, level, level)
  }

  const FadeFrameCount: nat := 8
  /** The overlay's rows y = 0, 4, ..., 236 and columns x = 0, 3, ..., 318. */
  const DotLines: nat := 60
  const DotColumns: nat := 107

  /** Dots of the overlay pattern on row y, for the first n columns x = 0, 3, 6, ... */
  function DotRow(y: int, n: nat, c: Colour): seq<Cmd>
  {
    if n == 0 then []
    else
      var x := 3 * (n - 1);
      DotRow(y, n - 1, c) + (if (x + y) % 6 == 0 then [Pixel(x, y, c)] else [])
  }

  /** The overlay dots of the first n rows y = 0, 4, 8, ..., 107 columns each. */
  function DotRows(n: nat, c: Colour): seq<Cmd>
  {
    if n == 0 then [] else DotRows(n - 1, c) + DotRow(4 * (n - 1), DotColumns, c)
  }

  /** The overlay in closed form: a dot every 6 pixels along every 12th row, row by row. */
  const DottedRows: nat := 20
  const DotsPerRow: nat := 54

  /** The first `count` dots of a dotted row: x = 0, 6, 12, ... */
  function RowDots(y: int, count: nat, c: Colour): seq<Cmd>
  {
    seq(count, m => Pixel(6 * m, y, c))
  }

  function OverlayDot(k: int, c: Colour): Cmd
  {
    Pixel(6 * (k % DotsPerRow), 12 * (k / DotsPerRow), c)
  }

  /** The dots of the first `rows` dotted rows. */
  function OverlayPrefix(rows: nat, c: Colour): seq<Cmd>
  {
    seq(rows * DotsPerRow, k => OverlayDot(k, c))
  }

  function OverlayDots(c: Colour): seq<Cmd>
  {
    OverlayPrefix(DottedRows, c)
  }

  /** One frame of the fade-in animation. */
  function FadeFrame(fade: int): seq<Cmd>
  {
    [FillScreen(Black)] + OverlayPart(fade) + TitlePart(fade) + CaptionCmds(Grey(fade * 32))
  }

  /** The dotted overlay, drawn from frame 2 on. */
  function OverlayPart(fade: int): seq<Cmd>
  {
    if fade >= 2 then OverlayDots(Grey(fade * 8)) else []
  }

  /** The title, drawn from frame 3 on. */
  function TitlePart(fade: int): seq<Cmd>
  {
    if fade >= 3 then [TitleText(Grey(fade * 32))] else []
  }

  function FadeFrames(n: nat): seq<Cmd>
  {
    if n == 0 then [] else FadeFrames(n - 1) + FadeFrame(n - 1)
  }

  /** Helper: one more frame extends the animation so far. */
  lemma FadeFramesAppend(a: seq<Cmd>, n: nat)
    ensures a + FadeFrames(n + 1) == (a + FadeFrames(n)) + FadeFrame(n)
  {
    AppendAssoc(a, FadeFrames(n), FadeFrame(n));
  }

  /** What fadeInMainScreen draws: eight frames, then the gradient at the background
      temperature with the title and captions in white. */
  function FadeInScreenCmds(bgTemp: real): seq<Cmd>
  {
    FadeFrames(FadeFrameCount) + GradientBackgroundCmds(bgTemp) + [TitleText(White)] + CaptionCmds(White)
  }

  /** On the scan grid, x = 3i and y a multiple of 4, x + y is a multiple of 6 exactly
      when i is even and y a multiple of 12. */
  lemma ScanHit(i: nat, y: int)
    requires 0 <= y && y % 4 == 0
    ensures (3 * i + y) % 6 == 0 <==> y % 12 == 0 && i % 2 == 0
  {
    var q, r := y / 12, (y % 12) / 4;
    var t, p := i / 2, i % 2;
    ScanSplit(i, y);
    if p == 0 {
      if r == 0 { Residue(t + 2 * q, 0); }
      else if r == 1 { Residue(t + 2 * q, 4); }
      else { Residue(t + 2 * q + 1, 2); }
    } else {
      if r == 0 { Residue(t + 2 * q, 3); }
      else if r == 1 { Residue(t + 2 * q + 1, 1); }
      else { Residue(t + 2 * q + 1, 5); }
    }
  }

  /** The scan point as whole sixes plus a remainder. */
  lemma ScanSplit(i: nat, y: int)
    requires 0 <= y && y % 4 == 0
    ensures 0 <= (y % 12) / 4 < 3 && y % 12 == 4 * ((y % 12) / 4)
    ensures 3 * i + y == 6 * (i / 2 + 2 * (y / 12)) + 3 * (i % 2) + 4 * ((y % 12) / 4)
  {
    assert y == 12 * (y / 12) + y % 12;
    assert (y % 12) % 4 == 0;
  }

  lemma Residue(k: int, s: int)
    requires 0 <= s < 6
    ensures (6 * k + s) % 6 == s
  {
  }

  /** One more dot on a dotted row. */
  lemma RowDotsGrow(y: int, m: nat, c: Colour)
    ensures RowDots(y, m + 1, c) == RowDots(y, m, c) + [Pixel(6 * m, y, c)]
  {
    var before, after := RowDots(y, m, c), RowDots(y, m + 1, c);
    assert |after| == |before| + 1;
    assert forall k :: 0 <= k < m ==> after[k] == before[k];
  }

  /** Column i of the scan (x = 3i) starts a new dot exactly when i is even. */
  lemma ColumnStep(i: nat)
    ensures i % 2 == 0 ==> (i + 2) / 2 == (i + 1) / 2 + 1 && 3 * i == 6 * ((i + 1) / 2)
    ensures i % 2 != 0 ==> (i + 2) / 2 == (i + 1) / 2
  {
    assert i == 2 * (i / 2) + i % 2;
  }

  /** Along a scan row, the dots are every other column of every third row. */
  lemma {:induction false} DotRowClosed(y: int, n: nat, c: Colour)
    requires 0 <= y && y % 4 == 0
    ensures DotRow(y, n, c) == if y % 12 == 0 then RowDots(y, (n + 1) / 2, c) else []
  {
    if n > 0 {
      var i := n - 1;
      var dot := if (3 * i + y) % 6 == 0 then [Pixel(3 * i, y, c)] else [];
      assert DotRow(y, n, c) == DotRow(y, i, c) + dot;
      DotRowClosed(y, i, c);
      ScanHit(i, y);
      ColumnStep(i);
      if y % 12 == 0 && i % 2 == 0 {
        RowDotsGrow(y, (i + 1) / 2, c);
      }
    }
  }

  /** One more dotted row appends that row's 54 dots to the closed form. */
  lemma OverlayGrows(rows: nat, c: Colour)
    ensures OverlayPrefix(rows + 1, c) == OverlayPrefix(rows, c) + RowDots(12 * rows, DotsPerRow, c)
  {
    var before := OverlayPrefix(rows, c);
    var row := RowDots(12 * rows, DotsPerRow, c);
    var after := OverlayPrefix(rows + 1, c);
    forall k | rows * DotsPerRow <= k < |after|
      ensures after[k] == row[k - rows * DotsPerRow]
    {
      var m := k - rows * DotsPerRow;
      assert k == rows * DotsPerRow + m;
      assert k / DotsPerRow == rows && k % DotsPerRow == m;
    }
    assert after == before + row;
  }

  /** Scan row j (y = 4j) is a dotted row exactly when j is a multiple of 3. */
  lemma ScanRow(j: nat)
    ensures (4 * j) % 4 == 0
    ensures j % 3 == 0 ==> (4 * j) % 12 == 0 && 4 * j == 12 * ((j + 2) / 3) && (j + 3) / 3 == (j + 2) / 3 + 1
    ensures j % 3 != 0 ==> (4 * j) % 12 != 0 && (j + 3) / 3 == (j + 2) / 3
  {
    var a := j / 3;
    assert 4 * j == 12 * a + 4 * (j % 3);
  }

  /** A full scan row: 107 columns hold the 54 dots of a dotted row. */
  lemma FullScanRow(j: nat, c: Colour)
    ensures DotRow(4 * j, DotColumns, c) == if j % 3 == 0 then RowDots(4 * j, DotsPerRow, c) else []
  {
    ScanRow(j);
    DotRowClosed(4 * j, DotColumns, c);
    assert (DotColumns + 1) / 2 == DotsPerRow;
  }

  /** The first n scan rows hold the dots of the (n + 2) / 3 dotted rows among them. */
  lemma {:induction false} DotRowsClosed(n: nat, c: Colour)
    ensures DotRows(n, c) == OverlayPrefix((n + 2) / 3, c)
  {
    if n > 0 {
      var j := n - 1;
      var rows := (j + 2) / 3;
      assert DotRows(n, c) == DotRows(j, c) + DotRow(4 * j, DotColumns, c);
      DotRowsClosed(j, c);
      FullScanRow(j, c);
      ScanRow(j);
      if j % 3 == 0 {
        OverlayGrows(rows, c);
        assert (n + 2) / 3 == rows + 1;
      } else {
        assert (n + 2) / 3 == rows;
      }
    }
  }

  /** The source's scan (rows every 4 pixels, columns every 3, a dot where x + y is a
      multiple of 6) draws exactly the closed-form overlay. */
  lemma OverlayClosedForm(c: Colour)
    ensures DotRows(DotLines, c) == OverlayDots(c)
  {
    DotRowsClosed(DotLines, c);
    assert (DotLines + 2) / 3 == DottedRows;
  }

  /** Every overlay dot lies on screen at a point of the scan where x + y is a multiple of 6. */
  lemma OverlayOnPattern(c: Colour, k: int)
    requires 0 <= k < |OverlayDots(c)|
    ensures OverlayDots(c)[k].Pixel? && OverlayDots(c)[k].c == c
    ensures var p := OverlayDots(c)[k]; 0 <= p.x < ScreenWidth && 0 <= p.y < ScreenHeight
    ensures var p := OverlayDots(c)[k]; p.x % 3 == 0 && p.y % 4 == 0 && (p.x + p.y) % 6 == 0
  {
    var m, q := k % DotsPerRow, k / DotsPerRow;
    assert 6 * m + 12 * q == 6 * (m + 2 * q);
  }

  /** Each frame starts from black; the 1080 overlay dots appear from frame 2, the title
      from frame 3, and the captions close every frame, all in the frame's grey. */
  lemma FadeFrameLayers(fade: int)
    ensures FadeFrame(fade)[0] == FillScreen(Black)
    ensures |OverlayPart(fade)| == if fade >= 2 then DottedRows * DotsPerRow else 0
    ensures TitleText(Grey(fade * 32)) in FadeFrame(fade) <==> fade >= 3
    ensures |FadeFrame(fade)| >= 4 && FadeFrame(fade)[|FadeFrame(fade)| - 3..] == CaptionCmds(Grey(fade * 32))
  {
    var frame := FadeFrame(fade);
    var head := [FillScreen(Black)] + OverlayPart(fade) + TitlePart(fade);
    assert frame == head + CaptionCmds(Grey(fade * 32));
    assert forall k :: 0 <= k < |OverlayPart(fade)| ==> OverlayPart(fade)[k].Pixel?;
    if fade < 3 {
      assert forall k :: 0 <= k < |frame| ==> frame[k] != TitleText(Grey(fade * 32));
    }
  }

  method DrawCarBuddyTitle(tft: Screen)
    modifies tft
    ensures tft.trace == old(tft.trace) + [TitleText(White)]
  {
    tft.trace := tft.trace + [TitleText(White)];
  }

  method UpdateCarBuddyTitle(tft: Screen, st: RenderState)
    modifies tft
    ensures tft.trace == old(tft.trace) + TitleCmds(st.currentBackgroundTemp)
  {
    DrawTemperatureGradientArea(tft, 25, 8, 120, 16, st.currentBackgroundTemp);
    DrawCarBuddyTitle(tft);
  }

  /** One scan row of the overlay: columns x = 0, 3, ..., 318, a dot wherever x + y is a
      multiple of 6. */
  method DrawDotRow(tft: Screen, y: int, overlay: Colour)
    modifies tft
    ensures tft.trace == old(tft.trace) + DotRow(y, DotColumns, overlay)
  {
    var x := 0;
    ghost var columns: nat := 0;
    while x < ScreenWidth
      invariant x == 3 * columns && columns <= DotColumns
      invariant tft.trace == old(tft.trace) + DotRow(y, columns, overlay)
    {
      ghost var dot: seq<Cmd> := [];
      if (x + y) % 6 == 0 {
        dot := [Pixel(x, y, overlay)];
        tft.trace := tft.trace + [Pixel(x, y, overlay)];
      }
      assert DotRow(y, columns + 1, overlay) == DotRow(y, columns, overlay) + dot;
      AppendAssoc(old(tft.trace), DotRow(y, columns, overlay), dot);
      x := x + 3;
      columns := columns + 1;
    }
    assert columns == DotColumns;
  }

  /** The overlay of one fade-in frame: rows y = 0, 4, ..., 236, each scanned by
      DrawDotRow; together exactly the closed-form overlay. */
  method DrawOverlayDots(tft: Screen, overlay: Colour)
    modifies tft
    ensures tft.trace == old(tft.trace) + OverlayDots(overlay)
  {
    var y := 0;
    ghost var rows: nat := 0;
    while y < ScreenHeight
      invariant y == 4 * rows && rows <= DotLines
      invariant tft.trace == old(tft.trace) + DotRows(rows, overlay)
    {
      DrawDotRow(tft, y, overlay);
      assert DotRows(rows + 1, overlay) == DotRows(rows, overlay) + DotRow(y, DotColumns, overlay);
      AppendAssoc(old(tft.trace), DotRows(rows, overlay), DotRow(y, DotColumns, overlay));
      y := y + 4;
      rows := rows + 1;
    }
    assert rows == DotLines;
    OverlayClosedForm(overlay);
  }

  /** One frame of the fade-in: clear to black, the overlay from frame 2 on, the title
      from frame 3 on, the captions, all in greys that brighten with `fade`. */
  method DrawFadeFrame(tft: Screen, fade: int)
    modifies tft
    ensures tft.trace == old(tft.trace) + FadeFrame(fade)
  {
    tft.trace := tft.trace + [FillScreen(Black)];
    ghost var afterClear := tft.trace;
    if fade >= 2 {
      DrawOverlayDots(tft, Grey(fade * 8));
    }
    ghost var afterDots := tft.trace;
    assert afterDots == afterClear + OverlayPart(fade);
    var textColor := Grey(fade * 32);
    if fade >= 3 {
      tft.trace := tft.trace + [TitleText(textColor)];
    }
    assert tft.trace == afterDots + TitlePart(fade);
    tft.trace := tft.trace + CaptionCmds(textColor);
    AppendAssoc4(old(tft.trace), [FillScreen(Black)], OverlayPart(fade), TitlePart(fade), CaptionCmds(textColor));
  }

  method FadeInMainScreen(tft: Screen, st: RenderState)
    modifies tft
    ensures tft.trace == old(tft.trace) + FadeInScreenCmds(st.currentBackgroundTemp)
  {
    var fade := 0;
    while fade <= 7
      invariant 0 <= fade <= FadeFrameCount
      invariant tft.trace == old(tft.trace) + FadeFrames(fade)
    {
      DrawFadeFrame(tft, fade);
      FadeFramesAppend(old(tft.trace), fade);
      fade := fade + 1;
    }
    assert fade == FadeFrameCount;
    ghost var t0 := tft.trace;
    assert t0 == old(tft.trace) + FadeFrames(FadeFrameCount);
    DrawTemperatureGradientBackground(tft, st.currentBackgroundTemp);
    tft.trace := tft.trace + [TitleText(White)] + CaptionCmds(White);
    AppendAssoc4(old(tft.trace), FadeFrames(FadeFrameCount), GradientBackgroundCmds(st.currentBackgroundTemp), [TitleText(White)], CaptionCmds(White));
  }

  /** The temperature drawUI paints the background for before any reading is shown. */
  const StartBackgroundTemp: real := 20.0

  /** What drawUI draws: the fade-in and the character, both over the gradient at the
      start temperature. */
  function StartupCmds(art: CharacterArt, spriteTemp: real): seq<Cmd>
  {
    FadeInScreenCmds(StartBackgroundTemp) + CharacterCmds(StartBackgroundTemp, ImageFor(art, spriteTemp))
  }

  /** drawUI: background temperature 20, the fade-in, the character; the UI is marked
      initialised last. */
  method DrawUI(tft: Screen, st: RenderState, art: CharacterArt, temp: real, spriteTemp: real)
    modifies tft, st`currentBackgroundTemp, st`isHotCharacterMode, st`uiInitialized
    ensures st.currentBackgroundTemp == StartBackgroundTemp && st.uiInitialized
    ensures st.isHotCharacterMode == (temp >= HotThreshold)
    ensures tft.trace == old(tft.trace) + StartupCmds(art, spriteTemp)
  {
    UpdateBackgroundTemperature(st, StartBackgroundTemp);
    FadeInMainScreen(tft, st);
    DrawCharacter(tft, st, art, temp, spriteTemp);
    AppendAssoc(old(tft.trace), FadeInScreenCmds(StartBackgroundTemp), CharacterCmds(StartBackgroundTemp, ImageFor(art, spriteTemp)));
    st.uiInitialized := true;
  }
}
