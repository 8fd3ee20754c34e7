/** The render globals shared by every part of the dashboard's user interface
    (declared once, in ui.cpp, and reached from the other files through `extern`). */
module UiGlobals {

  /** Arduino's `abs` applied to a float difference. */
  function Abs(x: real): (r: real)
    ensures r >= 0.0
    ensures r == x || r == -x
  {
    if x >= 0.0 then x else -x
  }

  /** The value both numeric baselines are reset to; no sensor reading comes near it. */
  const Sentinel: real := -999.0

  class RenderState {
    var uiInitialized: bool
    var lastTemperature: real
    var lastSpeed: real
    var lastTime: string
    var lastDate: string
    var characterDisplayed: bool
    var isHotCharacterMode: bool
    /** The temperature the gradient background is painted with. */
    var currentBackgroundTemp: real
    /** The temperature of the last full repaint; written only by the full-resync path. */
    var lastBackgroundUpdateTemp: real

    /** The state at power-on. */
    constructor ()
      ensures !uiInitialized && !characterDisplayed && !isHotCharacterMode
      ensures lastTemperature == Sentinel && lastSpeed == Sentinel
      ensures lastTime == "" && lastDate == ""
      ensures currentBackgroundTemp == 20.0 && lastBackgroundUpdateTemp == Sentinel
    {
      uiInitialized := false;
      lastTemperature := Sentinel;
      lastSpeed := Sentinel;
      lastTime := "";
      lastDate := "";
      characterDisplayed := false;
      isHotCharacterMode := false;
      currentBackgroundTemp := 20.0;
      lastBackgroundUpdateTemp := Sentinel;
    }
  }
}
