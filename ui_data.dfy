/** The differential display cache (src/ui/ui_data.cpp; src/ui.cpp:91-148 holds identical
    copies of the four functions). Each field remembers the value last drawn; a new value
    is drawn, and becomes the new baseline, only when it differs enough from that baseline.
    Every repaint uses the stored background temperature, never the value being shown. */
module UiData {
  import opened Display
  import opened UiGlobals
  import opened UiTemperature
  import opened UiCharacter
  import opened Ui

  /** A screen rectangle: left, top, width, height. */
  datatype Rect = Rect(x: int, y: int, w: int, h: int)

  const TemperatureArea: Rect := Rect(195, 30, 130, 35)
  const SpeedArea: Rect := Rect(195, 150, 130, 25)
  const TimeArea: Rect := Rect(5, 215, 80, 25)
  const DateArea: Rect := Rect(90, 215, 130, 25)
  const TitleArea: Rect := Rect(25, 8, 120, 16)

  predicate Disjoint(a: Rect, b: Rect)
  {
    a.x + a.w <= b.x || b.x + b.w <= a.x || a.y + a.h <= b.y || b.y + b.h <= a.y
  }

  /** The gradient repaint of a rectangle at background temperature `bg`. */
  function RepaintCmds(a: Rect, bg: real): seq<Cmd>
  {
    GradientAreaCmds(a.x, a.y, a.w, a.h, bg)
  }

  // ---------------------------------------------------------------------------------
  // The dirty checks and the baselines they leave

  /** The change a numeric field must exceed to be redrawn. */
  const NumberThreshold: real := 0.1

  /** A numeric field is redrawn when the new value leaves the closed band of width 0.1
      around the baseline. */
  predicate NumberRedraw(last: real, v: real)
  {
    Abs(v - last) > NumberThreshold
  }

  lemma NumberRedrawBand(last: real, v: real)
    ensures NumberRedraw(last, v) <==> v < last - 0.1 || v > last + 0.1
  {
  }

  /** The numeric baseline after a draw call. */
  function NumberBaseline(last: real, v: real): (r: real)
    ensures NumberRedraw(last, v) ==> r == v
    ensures !NumberRedraw(last, v) ==> r == last
    ensures !NumberRedraw(r, v)
  {
    if NumberRedraw(last, v) then v else last
  }

  /** A text field is redrawn when the string differs from the one last drawn. */
  predicate TextRedraw(last: string, s: string)
  {
    s != last
  }

  /** The text baseline after a draw call: always the string just offered. */
  function TextBaseline(last: string, s: string): (r: string)
    ensures r == s
    ensures !TextRedraw(r, s)
  {
    if TextRedraw(last, s) then s else last
  }

  // ---------------------------------------------------------------------------------
  // What each field draws when it is redrawn

  /** Yellow as a warning from 32 degrees up, white below. */
  function TemperatureTextColour(temp: real): Colour
  {
    if temp >= HotThreshold then Yellow else White
  }

  /** The temperature box, then the title strip (whose gradient the temperature box
      shares), then the value with one decimal and " C" in size 3. */
  function TemperatureCmds(temp: real, bg: real): seq<Cmd>
  {
    RepaintCmds(TemperatureArea, bg) + TitleCmds(bg)
      + [Text(Fixed1(temp, " C"), 200, 35, 3, TemperatureTextColour(temp))]
  }

  function SpeedCmds(speed: real, bg: real): seq<Cmd>
  {
    RepaintCmds(SpeedArea, bg) + [Text(Fixed1(speed, ""), 200, 155, 3, White)]
  }

  function TimeCmds(timeStr: string, bg: real): seq<Cmd>
  {
    RepaintCmds(TimeArea, bg) + [Text(Str(timeStr), 10, 220, 2, Yellow)]
  }

  function DateCmds(dateStr: string, bg: real): seq<Cmd>
  {
    RepaintCmds(DateArea, bg) + [Text(Str(dateStr), 95, 220, 2, Cyan)]
  }

  /** What one draw call adds to the screen, given the baseline it finds. */
  function TemperatureStep(last: real, temp: real, bg: real): seq<Cmd>
  {
    if NumberRedraw(last, temp) then TemperatureCmds(temp, bg) else []
  }

  function SpeedStep(last: real, speed: real, bg: real): seq<Cmd>
  {
    if NumberRedraw(last, speed) then SpeedCmds(speed, bg) else []
  }

  function TimeStep(last: string, timeStr: string, bg: real): seq<Cmd>
  {
    if TextRedraw(last, timeStr) then TimeCmds(timeStr, bg) else []
  }

  function DateStep(last: string, dateStr: string, bg: real): seq<Cmd>
  {
    if TextRedraw(last, dateStr) then DateCmds(dateStr, bg) else []
  }

  // ---------------------------------------------------------------------------------
  // Properties of the cache

  /** Offering the same value twice: the second call draws nothing, and leaves the
      baseline where the first call put it. */
  lemma SecondCallIsNoOp(last: real, v: real, lastText: string, s: string, bg: real)
    ensures TemperatureStep(NumberBaseline(last, v), v, bg) == []
    ensures SpeedStep(NumberBaseline(last, v), v, bg) == []
    ensures NumberBaseline(NumberBaseline(last, v), v) == NumberBaseline(last, v)
    ensures TimeStep(TextBaseline(lastText, s), s, bg) == []
    ensures DateStep(TextBaseline(lastText, s), s, bg) == []
    ensures TextBaseline(TextBaseline(lastText, s), s) == TextBaseline(lastText, s)
  {
  }

  /** From a baseline of 20.0, a reading of 20.05 is not drawn and keeps the baseline; a
      following 21.0 is drawn and becomes the baseline. */
  lemma SmallChangeThenLargeChange(bg: real)
    ensures TemperatureStep(20.0, 20.05, bg) == [] && NumberBaseline(20.0, 20.05) == 20.0
    ensures TemperatureStep(NumberBaseline(20.0, 20.05), 21.0, bg) == TemperatureCmds(21.0, bg)
    ensures NumberBaseline(NumberBaseline(20.0, 20.05), 21.0) == 21.0
  {
  }

  /** From the power-on baselines, every numeric reading above -998.9 and every non-empty
      string is drawn. */
  lemma FirstDrawFromSentinel(v: real, s: string, bg: real)
    ensures v > Sentinel + NumberThreshold ==> TemperatureStep(Sentinel, v, bg) == TemperatureCmds(v, bg)
    ensures v > Sentinel + NumberThreshold ==> SpeedStep(Sentinel, v, bg) == SpeedCmds(v, bg)
    ensures s != "" ==> TimeStep("", s, bg) == TimeCmds(s, bg) && DateStep("", s, bg) == DateCmds(s, bg)
  {
  }

  /** The temperature text is yellow exactly from 32 degrees up. */
  lemma TemperatureTextWarns(temp: real, bg: real)
    ensures TemperatureCmds(temp, bg)[|TemperatureCmds(temp, bg)| - 1].c == Yellow <==> temp >= HotThreshold
  {
  }

  /** The repaint rectangles of the four fields and the title do not overlap. */
  lemma FieldAreasDisjoint()
    ensures Disjoint(TimeArea, DateArea)
    ensures Disjoint(TemperatureArea, SpeedArea) && Disjoint(TemperatureArea, TimeArea) && Disjoint(TemperatureArea, DateArea)
    ensures Disjoint(SpeedArea, TimeArea) && Disjoint(SpeedArea, DateArea)
    ensures Disjoint(TitleArea, TemperatureArea) && Disjoint(TitleArea, SpeedArea)
    ensures Disjoint(TitleArea, TimeArea) && Disjoint(TitleArea, DateArea)
  {
  }

  /** A repaint draws only lines inside its rectangle. */
  lemma RepaintInside(a: Rect, bg: real, cmd: Cmd)
    requires cmd in RepaintCmds(a, bg)
    ensures cmd.HLine? && cmd.x == a.x && cmd.w == a.w && a.y <= cmd.y < a.y + a.h
  {
    AreaStaysInside(a.x, a.y, a.w, a.h, bg);
  }

  /** Redrawing the time never paints over the date and the other way round: every line
      of the time repaint ends left of where every line of the date repaint begins. */
  lemma TimeAndDateRepaintsApart(timeStr: string, dateStr: string, bg: real, t: Cmd, d: Cmd)
    requires t in TimeCmds(timeStr, bg) && t.HLine?
    requires d in DateCmds(dateStr, bg) && d.HLine?
    ensures t.x + t.w <= d.x
  {
    assert t in RepaintCmds(TimeArea, bg);
    assert d in RepaintCmds(DateArea, bg);
    RepaintInside(TimeArea, bg, t);
    RepaintInside(DateArea, bg, d);
  }

  // ---------------------------------------------------------------------------------
  // The four draw functions

  method DrawTemperature(tft: Screen, st: RenderState, temp: real)
    modifies tft, st`lastTemperature
    ensures st.lastTemperature == NumberBaseline(old(st.lastTemperature), temp)
    ensures tft.trace == old(tft.trace) + TemperatureStep(old(st.lastTemperature), temp, st.currentBackgroundTemp)
  {
    if Abs(temp - st.lastTemperature) > 0.1 {
      DrawTemperatureGradientArea(tft, 195, 30, 130, 35, st.currentBackgroundTemp);
      UpdateCarBuddyTitle(tft, st);
      var tempTextColor := White;
      if temp >= 32.0 {
        tempTextColor := Yellow;
      }
      tft.trace := tft.trace + [Text(Fixed1(temp, " C"), 200, 35, 3, tempTextColor)];
      st.lastTemperature := temp;
    }
  }

  method DrawSpeed(tft: Screen, st: RenderState, speed: real)
    modifies tft, st`lastSpeed
    ensures st.lastSpeed == NumberBaseline(old(st.lastSpeed), speed)
    ensures tft.trace == old(tft.trace) + SpeedStep(old(st.lastSpeed), speed, st.currentBackgroundTemp)
  {
    if Abs(speed - st.lastSpeed) > 0.1 {
      DrawTemperatureGradientArea(tft, 195, 150, 130, 25, st.currentBackgroundTemp);
      tft.trace := tft.trace + [Text(Fixed1(speed, ""), 200, 155, 3, White)];
      st.lastSpeed := speed;
    }
  }

  method DrawTime(tft: Screen, st: RenderState, timeStr: string)
    modifies tft, st`lastTime
    ensures st.lastTime == TextBaseline(old(st.lastTime), timeStr)
    ensures tft.trace == old(tft.trace) + TimeStep(old(st.lastTime), timeStr, st.currentBackgroundTemp)
  {
    if timeStr != st.lastTime {
      DrawTemperatureGradientArea(tft, 5, 215, 80, 25, st.currentBackgroundTemp);
      tft.trace := tft.trace + [Text(Str(timeStr), 10, 220, 2, Yellow)];
      st.lastTime := timeStr;
    }
  }

  method DrawDate(tft: Screen, st: RenderState, dateStr: string)
    modifies tft, st`lastDate
    ensures st.lastDate == TextBaseline(old(st.lastDate), dateStr)
    ensures tft.trace == old(tft.trace) + DateStep(old(st.lastDate), dateStr, st.currentBackgroundTemp)
  {
    if dateStr != st.lastDate {
      DrawTemperatureGradientArea(tft, 90, 215, 130, 25, st.currentBackgroundTemp);
      tft.trace := tft.trace + [Text(Str(dateStr), 95, 220, 2, Cyan)];
      st.lastDate := dateStr;
    }
  }
}
