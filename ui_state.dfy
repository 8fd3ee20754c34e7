/** The display state manager (src/ui/ui_state.cpp): invalidating and writing back the
    field baselines, the full resynchronisation after a large background-temperature
    change, and the accessors of the render state. */
module UiState {
  import opened Display
  import opened UiGlobals
  import opened UiTemperature
  import opened UiCharacter
  import opened Ui
  import opened UiData

  /** The background-temperature change that forces a full redraw. */
  const ResyncThreshold: real := 1.0

  predicate ResyncNeeded(lastBg: real, temp: real)
  {
    Abs(temp - lastBg) > ResyncThreshold
  }

  /** The last-full-redraw temperature after a call with `temp`: moved to `temp` when a
      redraw happens, and then close enough that the same call again does nothing. */
  function ResyncBaseline(lastBg: real, temp: real): (r: real)
    ensures ResyncNeeded(lastBg, temp) ==> r == temp
    ensures !ResyncNeeded(lastBg, temp) ==> r == lastBg
    ensures !ResyncNeeded(r, temp)
  {
    if ResyncNeeded(lastBg, temp) then temp else lastBg
  }

  /** Everything a full redraw puts on the screen: the full gradient at `temp`, the
      title and the captions in white, each field as drawn from the invalidated baselines,
      then the character. Field patches and the character use the stored background
      temperature `bg`. */
  function FullRedrawCmds(temp: real, speed: real, timeStr: string, dateStr: string, bg: real, img: Bitmap): seq<Cmd>
  {
    GradientBackgroundCmds(temp) + [TitleText(White)] + CaptionCmds(White)
      + TemperatureStep(Sentinel, temp, bg) + SpeedStep(Sentinel, speed, bg)
      + TimeStep("", timeStr, bg) + DateStep("", dateStr, bg)
      + CharacterCmds(bg, img)
  }

  /** With readings the power-on baselines cannot hide, the full redraw draws every
      field in full. */
  lemma FullRedrawDrawsEveryField(temp: real, speed: real, timeStr: string, dateStr: string, bg: real, img: Bitmap)
    requires temp > Sentinel + NumberThreshold && speed > Sentinel + NumberThreshold
    requires timeStr != "" && dateStr != ""
    ensures FullRedrawCmds(temp, speed, timeStr, dateStr, bg, img)
         == GradientBackgroundCmds(temp) + [TitleText(White)] + CaptionCmds(White)
            + TemperatureCmds(temp, bg) + SpeedCmds(speed, bg) + TimeCmds(timeStr, bg) + DateCmds(dateStr, bg)
            + CharacterCmds(bg, img)
  {
    FirstDrawFromSentinel(temp, timeStr, bg);
    FirstDrawFromSentinel(speed, dateStr, bg);
  }

  /** The full redraw starts by covering the whole screen with the gradient at `temp`. */
  lemma FullRedrawStartsWithBackground(temp: real, speed: real, timeStr: string, dateStr: string, bg: real, img: Bitmap)
    ensures |FullRedrawCmds(temp, speed, timeStr, dateStr, bg, img)| > ScreenHeight
    ensures FullRedrawCmds(temp, speed, timeStr, dateStr, bg, img)[..ScreenHeight] == GradientBackgroundCmds(temp)
  {
    BackgroundCoversScreen(temp);
  }

  // ---------------------------------------------------------------------------------
  // Baselines

  /** Invalidate every field so that the next draw of each repaints it. */
  method ForceUpdateAllDisplayValues(st: RenderState)
    modifies st`lastTemperature, st`lastSpeed, st`lastTime, st`lastDate, st`characterDisplayed
    ensures st.lastTemperature == Sentinel && st.lastSpeed == Sentinel
    ensures st.lastTime == "" && st.lastDate == ""
    ensures !st.characterDisplayed
  {
    st.lastTemperature := Sentinel;
    st.lastSpeed := Sentinel;
    st.lastTime := "";
    st.lastDate := "";
    st.characterDisplayed := false;
  }

  method SetLastDisplayValues(st: RenderState, temp: real, speed: real, timeStr: string, dateStr: string)
    modifies st`lastTemperature, st`lastSpeed, st`lastTime, st`lastDate, st`characterDisplayed
    ensures st.lastTemperature == temp && st.lastSpeed == speed
    ensures st.lastTime == timeStr && st.lastDate == dateStr
    ensures st.characterDisplayed
  {
    st.lastTemperature := temp;
    st.lastSpeed := speed;
    st.lastTime := timeStr;
    st.lastDate := dateStr;
    st.characterDisplayed := true;
  }

  // ---------------------------------------------------------------------------------
  // The full redraw

  /** forceFullRedraw(temp). The speed, time and date it samples are the parameters
      `speed`, `timeStr` and `dateStr`; the temperature drawCharacter reads for itself is
      `charTemp` and the one its sprite pass reads is `spriteTemp`. */
  method ForceFullRedraw(tft: Screen, st: RenderState, art: CharacterArt, temp: real,
                         speed: real, timeStr: string, dateStr: string, charTemp: real, spriteTemp: real)
    modifies tft, st`lastBackgroundUpdateTemp, st`lastTemperature, st`lastSpeed, st`lastTime, st`lastDate
    modifies st`characterDisplayed, st`isHotCharacterMode
    ensures st.lastBackgroundUpdateTemp == ResyncBaseline(old(st.lastBackgroundUpdateTemp), temp)
    ensures st.currentBackgroundTemp == old(st.currentBackgroundTemp)
    ensures ResyncNeeded(old(st.lastBackgroundUpdateTemp), temp) ==>
      && st.lastTemperature == temp && st.lastSpeed == speed
      && st.lastTime == timeStr && st.lastDate == dateStr
      && st.characterDisplayed
      && st.isHotCharacterMode == (charTemp >= HotThreshold)
      && tft.trace == old(tft.trace) + FullRedrawCmds(temp, speed, timeStr, dateStr, st.currentBackgroundTemp, ImageFor(art, spriteTemp))
    ensures !ResyncNeeded(old(st.lastBackgroundUpdateTemp), temp) ==>
      && st.lastTemperature == old(st.lastTemperature) && st.lastSpeed == old(st.lastSpeed)
      && st.lastTime == old(st.lastTime) && st.lastDate == old(st.lastDate)
      && st.characterDisplayed == old(st.characterDisplayed)
      && st.isHotCharacterMode == old(st.isHotCharacterMode)
      && tft.trace == old(tft.trace)
  {
    if Abs(temp - st.lastBackgroundUpdateTemp) > 1.0 {
      var bg := st.currentBackgroundTemp;
      ghost var start := tft.trace;
      DrawTemperatureGradientBackground(tft, temp);
      st.lastBackgroundUpdateTemp := temp;
      ghost var drawn := GradientBackgroundCmds(temp);
      tft.trace := tft.trace + [TitleText(White)];
      AppendAssoc(start, drawn, [TitleText(White)]);
      drawn := drawn + [TitleText(White)];
      tft.trace := tft.trace + CaptionCmds(White);
      AppendAssoc(start, drawn, CaptionCmds(White));
      drawn := drawn + CaptionCmds(White);
      ForceUpdateAllDisplayValues(st);
      DrawTemperature(tft, st, temp);
      AppendAssoc(start, drawn, TemperatureStep(Sentinel, temp, bg));
      drawn := drawn + TemperatureStep(Sentinel, temp, bg);
      DrawSpeed(tft, st, speed);
      AppendAssoc(start, drawn, SpeedStep(Sentinel, speed, bg));
      drawn := drawn + SpeedStep(Sentinel, speed, bg);
      DrawTime(tft, st, timeStr);
      AppendAssoc(start, drawn, TimeStep("", timeStr, bg));
      drawn := drawn + TimeStep("", timeStr, bg);
      DrawDate(tft, st, dateStr);
      AppendAssoc(start, drawn, DateStep("", dateStr, bg));
      drawn := drawn + DateStep("", dateStr, bg);
      DrawCharacter(tft, st, art, charTemp, spriteTemp);
      AppendAssoc(start, drawn, CharacterCmds(bg, ImageFor(art, spriteTemp)));
      SetLastDisplayValues(st, temp, speed, timeStr, dateStr);
    }
  }

  /** With the same temperature right after a full redraw, forceFullRedraw does nothing. */
  lemma ResyncOnce(lastBg: real, temp: real)
    ensures !ResyncNeeded(ResyncBaseline(lastBg, temp), temp)
  {
  }

  // ---------------------------------------------------------------------------------
  // Accessors

  method IsUIInitialized(st: RenderState) returns (r: bool)
    ensures r == st.uiInitialized
  {
    r := st.uiInitialized;
  }

  method SetUIInitialized(st: RenderState, initialized: bool)
    modifies st`uiInitialized
    ensures st.uiInitialized == initialized
  {
    st.uiInitialized := initialized;
  }

  method GetLastTemperature(st: RenderState) returns (r: real)
    ensures r == st.lastTemperature
  {
    r := st.lastTemperature;
  }

  method GetLastSpeed(st: RenderState) returns (r: real)
    ensures r == st.lastSpeed
  {
    r := st.lastSpeed;
  }

  method GetLastTime(st: RenderState) returns (r: string)
    ensures r == st.lastTime
  {
    r := st.lastTime;
  }

  method GetLastDate(st: RenderState) returns (r: string)
    ensures r == st.lastDate
  {
    r := st.lastDate;
  }

  method IsCharacterDisplayed(st: RenderState) returns (r: bool)
    ensures r == st.characterDisplayed
  {
    r := st.characterDisplayed;
  }
}
