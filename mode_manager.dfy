/** The display-mode state machine (src/mode_manager.cpp, include/mode_manager.hpp): a
    rotary encoder's A-phase edges count detents, and the main loop's poller switches the
    character area between the character sprite and the analog clock according to the
    parity of the count. */
module ModeManager {
  import opened Display
  import opened UiGlobals
  import opened UiCharacter
  import opened Clock

  // ---------------------------------------------------------------------------------
  // Machine integers

  /** `unsigned long` on the ESP32: 32 bits. */
  type U32 = x: int | 0 <= x < 0x1_0000_0000

  /** The range of a 32-bit `int` / `long`. */
  const IntMin: int := -0x8000_0000
  const IntMax: int := 0x7FFF_FFFF

  /** `now - since` in unsigned 32-bit arithmetic: the time since `since`, also across a
      wrap of `millis()`. */
  function Elapsed(now: U32, since: U32): (e: U32)
    ensures now >= since ==> e == now - since
    ensures now < since ==> e == now + 0x1_0000_0000 - since
  {
    (now - since) % 0x1_0000_0000
  }

  /** Whatever `d` milliseconds pass, the elapsed time reads exactly `d` once the counter
      has moved on by `d`, wrapped or not. */
  lemma ElapsedRoundTrip(since: U32, d: U32)
    ensures Elapsed(((since + d) % 0x1_0000_0000) as U32, since) == d
  {
  }

  /** Ten milliseconds before the wrap to forty after it is fifty milliseconds. */
  lemma ElapsedAcrossWrap()
    ensures Elapsed(40, 0xFFFF_FFF6) == 50
  {
  }

  function IntAbs(x: int): (r: nat)
    ensures r == x || r == -x
  {
    if x < 0 then -x else x
  }

  // ---------------------------------------------------------------------------------
  // Modes

  /** `DisplayMode`: MODE_CHARACTER = 0, MODE_ANALOG_CLOCK = 1. */
  datatype DisplayMode = CharacterMode | ClockMode

  const ModeCount: int := 2

  function Index(m: DisplayMode): (i: int)
    ensures 0 <= i < ModeCount
  {
    match m
    case CharacterMode => 0
    case ClockMode => 1
  }

  /** The cast `(DisplayMode)i` of an index in range. */
  function FromIndex(i: int): (m: DisplayMode)
    requires 0 <= i < ModeCount
    ensures Index(m) == i
  {
    if i == 0 then CharacterMode else ClockMode
  }

  lemma IndexRoundTrip(m: DisplayMode)
    ensures FromIndex(Index(m)) == m
  {
  }

  /** The mode the poller selects for a counter value: `abs(counter) % MODE_COUNT`. */
  function TargetMode(counter: int): DisplayMode
  {
    FromIndex(IntAbs(counter) % ModeCount)
  }

  /** Odd counters select the clock, even ones the character, whatever the sign. */
  lemma TargetModeParity(counter: int)
    ensures TargetMode(counter) == ClockMode <==> counter % 2 != 0
  {
    if counter < 0 {
      assert IntAbs(counter) == -counter;
      assert (-counter) % 2 == 0 <==> counter % 2 == 0 by {
        var q := counter / 2;
        assert counter == 2 * q + counter % 2;
        assert -counter == 2 * (-q - counter % 2) + counter % 2;
      }
    }
  }

  lemma TargetModeExamples()
    ensures TargetMode(1) == ClockMode && TargetMode(-1) == ClockMode
    ensures TargetMode(0) == CharacterMode && TargetMode(2) == CharacterMode && TargetMode(-2) == CharacterMode
  {
  }

  /** switchToNextMode's choice: the next index, back to 0 after the last. */
  function NextMode(m: DisplayMode): (r: DisplayMode)
  {
    var i := Index(m) + 1;
    FromIndex(if i >= ModeCount then 0 else i)
  }

  /** switchToPreviousMode's choice: the previous index, round to the last below 0. */
  function PrevMode(m: DisplayMode): (r: DisplayMode)
  {
    var i := Index(m) - 1;
    FromIndex(if i < 0 then ModeCount - 1 else i)
  }

  /** Next and previous undo each other, and both always leave the current mode. */
  lemma NextPrevInverse(m: DisplayMode)
    ensures PrevMode(NextMode(m)) == m && NextMode(PrevMode(m)) == m
    ensures NextMode(m) != m && PrevMode(m) != m
    ensures Index(NextMode(m)) == (Index(m) + 1) % ModeCount
    ensures Index(PrevMode(m)) == (Index(m) - 1) % ModeCount
  {
  }

  // ---------------------------------------------------------------------------------
  // The encoder edge and the poll condition

  /** The encoder debounce and the cool-down between mode switches, in milliseconds. */
  const EncoderDebounce: int := 50
  const ModeChangeDelay: int := 300

  /** What a debounced A-phase edge adds to the counters: nothing when A has not changed,
      +1 (clockwise) when A differs from B, -1 otherwise. */
  function EdgeStep(lastA: bool, a: bool, b: bool): (d: int)
    ensures d == 0 <==> a == lastA
    ensures a != lastA ==> (d == 1 <==> a != b) && (d == -1 <==> a == b)
  {
    if a != lastA then (if a != b then 1 else -1) else 0
  }

  /** Every counted detent flips the mode the poller will choose. */
  lemma CountedEdgeFlipsTarget(counter: int, lastA: bool, a: bool, b: bool)
    requires a != lastA
    ensures TargetMode(counter + EdgeStep(lastA, a, b)) != TargetMode(counter)
  {
    TargetModeParity(counter);
    TargetModeParity(counter + EdgeStep(lastA, a, b));
  }

  /** The poller acts on a counter it has not seen once the cool-down has run out. */
  predicate PollActs(counter: int, lastSeen: int, now: U32, lastChange: U32)
  {
    counter != lastSeen && Elapsed(now, lastChange) > ModeChangeDelay
  }

  // ---------------------------------------------------------------------------------
  // What a switch draws

  /** clearDisplayArea's black rectangle over the character area. */
  const ClearArea: Cmd := FillRect(10, 30, 180, 180, Black)

  /** The dial the clock mode sets up: centre (95, 120), radius 80. */
  const ModeDial: Dial := Dial(95, 120, 80)

  /** The black square of the clear covers the whole clock as drawn, including the
      cleared disc of radius r + 2 it starts with. */
  lemma ClearCoversDial()
    ensures ClearArea.x <= ModeDial.cx - (ModeDial.r + 2) && ModeDial.cx + (ModeDial.r + 2) <= ClearArea.x + ClearArea.w
    ensures ClearArea.y <= ModeDial.cy - (ModeDial.r + 2) && ModeDial.cy + (ModeDial.r + 2) <= ClearArea.y + ClearArea.h
  {
  }

  /** What updateDisplay draws in mode `m`: the character with the stored background
      temperature `bg` and sprite `img`, or the clock on `dial` at time `t`. */
  function DisplayCmds(m: DisplayMode, bg: real, img: Bitmap, dial: Dial, t: ClockTime): seq<Cmd>
  {
    match m
    case CharacterMode => CharacterCmds(bg, img)
    case ClockMode => ClockCmds(dial, t)
  }

  /** A switch into `m`: the clear first, then the new mode's picture. */
  function SwitchCmds(m: DisplayMode, bg: real, img: Bitmap, dial: Dial, t: ClockTime): seq<Cmd>
  {
    [ClearArea] + DisplayCmds(m, bg, img, dial, t)
  }

  // ---------------------------------------------------------------------------------
  // The mode manager's state

  /** The file's statics, with updateModeManager's function-local `lastModeChangeCounter`. */
  class ModeState {
    var currentMode: DisplayMode
    var encoderPosition: int
    var modeChangeCounter: int
    var aState: bool
    var bState: bool
    var lastAState: bool
    var lastModeChangeTime: U32
    var lastEncoderTime: U32
    var lastModeChangeCounter: int

    /** The statics at power-on. */
    constructor ()
      ensures currentMode == CharacterMode
      ensures encoderPosition == 0 && modeChangeCounter == 0 && lastModeChangeCounter == 0
      ensures !aState && !bState && !lastAState
      ensures lastModeChangeTime == 0 && lastEncoderTime == 0
    {
      currentMode := CharacterMode;
      encoderPosition := 0;
      modeChangeCounter := 0;
      aState := false;
      bState := false;
      lastAState := false;
      lastModeChangeTime := 0;
      lastEncoderTime := 0;
      lastModeChangeCounter := 0;
    }

    /** handleEncoderA at time `now`, reading `aLevel` on pin A and `bLevel` on pin B. */
    method HandleEncoderA(aLevel: bool, bLevel: bool, now: U32)
      requires IntMin < encoderPosition < IntMax && IntMin < modeChangeCounter < IntMax
      modifies this`aState, this`bState, this`lastAState, this`encoderPosition, this`modeChangeCounter, this`lastEncoderTime
      ensures Elapsed(now, old(lastEncoderTime)) < EncoderDebounce ==>
        && aState == old(aState) && bState == old(bState) && lastAState == old(lastAState)
        && encoderPosition == old(encoderPosition) && modeChangeCounter == old(modeChangeCounter)
        && lastEncoderTime == old(lastEncoderTime)
      ensures Elapsed(now, old(lastEncoderTime)) >= EncoderDebounce ==>
        && aState == aLevel && bState == bLevel && lastAState == aLevel
        && encoderPosition == old(encoderPosition) + EdgeStep(old(lastAState), aLevel, bLevel)
        && modeChangeCounter == old(modeChangeCounter) + EdgeStep(old(lastAState), aLevel, bLevel)
        && lastEncoderTime == (if aLevel != old(lastAState) then now else old(lastEncoderTime))
      ensures encoderPosition - modeChangeCounter == old(encoderPosition - modeChangeCounter)
    {
      var currentTime := now;
      if Elapsed(currentTime, lastEncoderTime) < EncoderDebounce {
        return;
      }
      aState := aLevel;
      bState := bLevel;
      if aState != lastAState {
        if aState != bState {
          encoderPosition := encoderPosition + 1;
          modeChangeCounter := modeChangeCounter + 1;
        } else {
          encoderPosition := encoderPosition - 1;
          modeChangeCounter := modeChangeCounter - 1;
        }
        lastEncoderTime := currentTime;
      }
      lastAState := aState;
    }

    method GetCurrentMode() returns (m: DisplayMode)
      ensures m == currentMode
    {
      m := currentMode;
    }

    /** initModeManager, with pin A reading `aLevel`. */
    method InitModeManager(clock: AnalogClock, aLevel: bool)
      modifies this`lastAState, clock`visible
      ensures lastAState == aLevel && !clock.visible
    {
      lastAState := aLevel;
      clock.InitAnalogClock();
    }

    method ClearDisplayArea(tft: Screen)
      modifies tft
      ensures tft.trace == old(tft.trace) + [ClearArea]
    {
      tft.trace := tft.trace + [FillRect(10, 30, 180, 180, Black)];
    }

    /** updateDisplay. drawCharacter reads the temperature as `charTemp` and its sprite
        pass as `spriteTemp`; drawAnalogClock reads the time string as `timeStr`. */
    method UpdateDisplay(tft: Screen, st: RenderState, clock: AnalogClock, art: CharacterArt,
                         charTemp: real, spriteTemp: real, timeStr: string)
      modifies tft, st`isHotCharacterMode, clock
      ensures currentMode == CharacterMode ==>
        && !clock.visible && clock.CurrentDial() == old(clock.CurrentDial())
        && st.isHotCharacterMode == (charTemp >= HotThreshold)
      ensures currentMode == ClockMode ==>
        && clock.visible && clock.CurrentDial() == ModeDial
        && st.isHotCharacterMode == old(st.isHotCharacterMode)
      ensures tft.trace == old(tft.trace)
        + DisplayCmds(currentMode, st.currentBackgroundTemp, ImageFor(art, spriteTemp), clock.CurrentDial(), ParseClockTime(timeStr))
    {
      match currentMode
      case CharacterMode =>
        clock.SetClockVisible(false);
        DrawCharacter(tft, st, art, charTemp, spriteTemp);
      case ClockMode =>
        clock.SetClockVisible(true);
        clock.SetClockPosition(95, 120);
        clock.SetClockSize(80);
        clock.DrawAnalogClock(tft, timeStr);
    }

    /** switchToMode(mode): nothing when `mode` is already current; otherwise the new
        mode, the clear and the new mode's picture. */
    method SwitchToMode(tft: Screen, st: RenderState, clock: AnalogClock, art: CharacterArt,
                        mode: DisplayMode, charTemp: real, spriteTemp: real, timeStr: string)
      modifies this`currentMode, tft, st`isHotCharacterMode, clock
      ensures mode == old(currentMode) ==>
        && currentMode == old(currentMode) && tft.trace == old(tft.trace)
        && st.isHotCharacterMode == old(st.isHotCharacterMode)
        && clock.visible == old(clock.visible) && clock.CurrentDial() == old(clock.CurrentDial())
      ensures mode != old(currentMode) ==>
        && currentMode == mode
        && clock.visible == (mode == ClockMode)
        && (mode == ClockMode ==> clock.CurrentDial() == ModeDial && st.isHotCharacterMode == old(st.isHotCharacterMode))
        && (mode == CharacterMode ==>
              clock.CurrentDial() == old(clock.CurrentDial()) && st.isHotCharacterMode == (charTemp >= HotThreshold))
        && tft.trace == old(tft.trace)
           + SwitchCmds(mode, st.currentBackgroundTemp, ImageFor(art, spriteTemp), clock.CurrentDial(), ParseClockTime(timeStr))
    {
      if mode == currentMode {
        return;
      }
      currentMode := mode;
      ClearDisplayArea(tft);
      UpdateDisplay(tft, st, clock, art, charTemp, spriteTemp, timeStr);
      AppendAssoc(old(tft.trace), [ClearArea],
        DisplayCmds(mode, st.currentBackgroundTemp, ImageFor(art, spriteTemp), clock.CurrentDial(), ParseClockTime(timeStr)));
    }

    /** switchToNextMode: always a switch, into the next mode round the cycle. */
    method SwitchToNextMode(tft: Screen, st: RenderState, clock: AnalogClock, art: CharacterArt,
                            charTemp: real, spriteTemp: real, timeStr: string)
      modifies this`currentMode, tft, st`isHotCharacterMode, clock
      ensures currentMode == NextMode(old(currentMode))
      ensures clock.visible == (currentMode == ClockMode)
      ensures currentMode == ClockMode ==>
        clock.CurrentDial() == ModeDial && st.isHotCharacterMode == old(st.isHotCharacterMode)
      ensures currentMode == CharacterMode ==>
        clock.CurrentDial() == old(clock.CurrentDial()) && st.isHotCharacterMode == (charTemp >= HotThreshold)
      ensures tft.trace == old(tft.trace)
        + SwitchCmds(currentMode, st.currentBackgroundTemp, ImageFor(art, spriteTemp), clock.CurrentDial(), ParseClockTime(timeStr))
    {
      var nextModeInt := Index(currentMode) + 1;
      if nextModeInt >= ModeCount {
        nextModeInt := 0;
      }
      NextPrevInverse(currentMode);
      SwitchToMode(tft, st, clock, art, FromIndex(nextModeInt), charTemp, spriteTemp, timeStr);
    }

    /** switchToPreviousMode: always a switch, into the previous mode round the cycle. */
    method SwitchToPreviousMode(tft: Screen, st: RenderState, clock: AnalogClock, art: CharacterArt,
                                charTemp: real, spriteTemp: real, timeStr: string)
      modifies this`currentMode, tft, st`isHotCharacterMode, clock
      ensures currentMode == PrevMode(old(currentMode))
      ensures clock.visible == (currentMode == ClockMode)
      ensures currentMode == ClockMode ==>
        clock.CurrentDial() == ModeDial && st.isHotCharacterMode == old(st.isHotCharacterMode)
      ensures currentMode == CharacterMode ==>
        clock.CurrentDial() == old(clock.CurrentDial()) && st.isHotCharacterMode == (charTemp >= HotThreshold)
      ensures tft.trace == old(tft.trace)
        + SwitchCmds(currentMode, st.currentBackgroundTemp, ImageFor(art, spriteTemp), clock.CurrentDial(), ParseClockTime(timeStr))
    {
      var prevModeInt := Index(currentMode) - 1;
      if prevModeInt < 0 {
        prevModeInt := ModeCount - 1;
      }
      NextPrevInverse(currentMode);
      SwitchToMode(tft, st, clock, art, FromIndex(prevModeInt), charTemp, spriteTemp, timeStr);
    }

    /** updateModeManager at time `now`; the readings are those updateDisplay takes. */
    method UpdateModeManager(tft: Screen, st: RenderState, clock: AnalogClock, art: CharacterArt,
                             now: U32, charTemp: real, spriteTemp: real, timeStr: string)
      requires modeChangeCounter > IntMin
      modifies this`currentMode, this`lastModeChangeTime, this`lastModeChangeCounter
      modifies tft, st`isHotCharacterMode, clock
      ensures modeChangeCounter == old(modeChangeCounter)
      ensures !PollActs(modeChangeCounter, old(lastModeChangeCounter), now, old(lastModeChangeTime)) ==>
        && currentMode == old(currentMode) && lastModeChangeTime == old(lastModeChangeTime)
        && lastModeChangeCounter == old(lastModeChangeCounter) && tft.trace == old(tft.trace)
      ensures currentMode == old(currentMode) ==>
        && clock.visible == old(clock.visible) && clock.CurrentDial() == old(clock.CurrentDial())
        && st.isHotCharacterMode == old(st.isHotCharacterMode)
      ensures currentMode != old(currentMode) ==>
        && clock.visible == (currentMode == ClockMode)
        && (currentMode == ClockMode ==> clock.CurrentDial() == ModeDial && st.isHotCharacterMode == old(st.isHotCharacterMode))
        && (currentMode == CharacterMode ==>
              clock.CurrentDial() == old(clock.CurrentDial()) && st.isHotCharacterMode == (charTemp >= HotThreshold))
      ensures PollActs(modeChangeCounter, old(lastModeChangeCounter), now, old(lastModeChangeTime)) ==>
        && currentMode == TargetMode(modeChangeCounter)
        && lastModeChangeCounter == modeChangeCounter
        && lastModeChangeTime == (if currentMode != old(currentMode) then now else old(lastModeChangeTime))
        && tft.trace == old(tft.trace) + (if currentMode != old(currentMode)
             then SwitchCmds(currentMode, st.currentBackgroundTemp, ImageFor(art, spriteTemp), clock.CurrentDial(), ParseClockTime(timeStr))
             else [])
    {
      var currentTime := now;
      if modeChangeCounter != lastModeChangeCounter && Elapsed(currentTime, lastModeChangeTime) > ModeChangeDelay {
        var newModeInt := IntAbs(modeChangeCounter) % ModeCount;
        var newMode := FromIndex(newModeInt);
        if newMode != currentMode {
          SwitchToMode(tft, st, clock, art, newMode, charTemp, spriteTemp, timeStr);
          lastModeChangeTime := currentTime;
        }
        lastModeChangeCounter := modeChangeCounter;
      }
    }
  }
}
