# CarBuddy dashboard: a verified model of the rendering and mode logic

CarBuddy is an ESP32 car dashboard with a 320x240 TFT display. The screen is covered by a vertical
colour gradient chosen by the temperature. Over the gradient it shows:

- the title "CarBuddy" and the captions "Temp:", "Speed:" and "km/h";
- four live fields: temperature, speed, time and date;
- a 180x180 character sprite, which a rotary encoder can swap for an analog clock.

This project models the core of that firmware in Dafny and proves its rules.

The model is organised as follows:

- **The display** (`Display`) is a trace of draw commands: fill, horizontal line, pixel, text,
  address window, pixel push, circle, disc and line. Every drawing operation is a method that
  appends to `Screen.trace`, and is proved to append exactly the sequence a specification
  function describes.
- **`tft.color565`** is left opaque (`Rgb565(r, g, b)`). A raw RGB565 word pushed as it is
  becomes `Word(w)`.
- **`polarToCartesian`** is kept as an uninterpreted position term
  `Polar(cx, cy, radius, degrees, dx, dy)`.
- **The render globals** of `src/ui.cpp` form the class `UiGlobals.RenderState`.
- **The clock's statics** form `Clock.AnalogClock`.
- **The mode manager's statics** form `ModeManager.ModeState`.
- **Temperatures** are `real`, and a `(uint8_t)` cast of a non-negative value is `Floor`.
- **`millis()`** is a 32-bit unsigned value, and elapsed times wrap around.
- **Sensor readings, the time strings and the clock** are parameters of the operations that read
  them. `drawCharacter` reads the temperature twice: once for its hot/normal flag, and once
  inside the edge-fade pass that picks the bitmap. The model therefore has two parameters,
  `temp` and `spriteTemp`.

Modules, in import order:

| module | source | content |
|---|---|---|
| `Display` | (TFT driver) | draw commands, the `Screen` trace |
| `UiGlobals` | `src/ui.cpp` | the shared render state and its initial values |
| `UiTemperature` | `src/ui/ui_temperature.cpp` | the four-regime colour model, the full-screen and area gradient painters |
| `UiCharacter` | `src/ui/ui_character.cpp` | sprite choice, 160 to 180 nearest-neighbour scaling, fade-in, edge blend, `drawCharacter` |
| `Ui` | `src/ui.cpp` | the title, the eight-frame fade-in with its dotted overlay, `drawUI` |
| `UiData` | `src/ui/ui_data.cpp` | the differential field cache: dirty checks, repaint rectangles, baselines |
| `UiState` | `src/ui/ui_state.cpp` | invalidation, write-back and the full resynchronisation |
| `Clock` | `src/clock.cpp` | time-string parsing, hand angles, ticks, draw order, setters |
| `ModeManager` | `src/mode_manager.cpp` | the encoder edge handler, the poller, mode switching |

Details of how the model follows the code:

- In the 30-32 degree band the code interpolates the bottom green from 128 down to 60, and only
  the top stop has no green. The model follows the code (`UiTemperature.BandGreen`).
- At exactly 30 degrees the band gives the stops of the regime below 25 degrees, not those of the
  25-30 regime. `UiTemperature.BandAtThirty` proves this.
- The fade-in overlay is modelled twice. `DrawOverlayDots` follows the code's scan: rows every 4
  pixels, columns every 3, a dot where x + y is a multiple of 6. A closed form (every 6 pixels
  along every 12th row) is proved equal to that scan (`Ui.OverlayClosedForm`).
- `src/ui.cpp:91-148` holds copies of the four field-drawing functions of
  `src/ui/ui_data.cpp`. They draw the same things; the copies in `ui_data.cpp` also log each
  update on the serial port. They are modelled once, in `UiData`, without the logging.
- `forceFullRedraw(temp)` paints the full background with `temp` but never stores it in
  `currentBackgroundTemp`. So the field repaints and the character that follow it use the old
  stored temperature. `UiState.FullRedrawCmds` states this as written.

## Model

| member | source | states |
|---|---|---|
| `UiGlobals.Abs` | src/ui/ui_data.cpp:23 | the absolute value is non-negative and equals x or -x |
| `UiGlobals.RenderState.constructor` | src/ui.cpp:15-25 | power-on values: baselines -999 and "", flags false, background 20, last resync -999 |
| `UiTemperature.BandOrdered` | src/ui/ui_temperature.cpp:19-30 | for every ratio in [0,1) the band's six channels are bytes and bottom >= top per channel |
| `UiTemperature.StopsFor` | src/ui/ui_temperature.cpp:13-40 | in every regime the stops are bytes and no channel decreases from top to bottom |
| `UiTemperature.Lerp` | src/ui/ui_temperature.cpp:52-54 | one channel of row y: the top channel plus (bottom - top) * y/240, truncated as the `uint8_t` cast does; bounded by `LerpBetween`, monotone by `LerpMonotone` |
| `UiTemperature.RowColour` | src/ui/ui_temperature.cpp:49-54 | the three interpolated channels of row y; bytes and non-decreasing by `RowColourMonotone` |
| `UiTemperature.RowPaint` | src/ui/ui_temperature.cpp:57 | the RGB565 colour of that row |
| `UiTemperature.GradientBackgroundCmds` | src/ui/ui_temperature.cpp:43-62 | the 240 full-width lines, top to bottom; shape proved by `BackgroundCoversScreen` |
| `UiTemperature.GradientAreaCmds` | src/ui/ui_temperature.cpp:65-79 | the `height` lines of the rectangle, coloured by absolute screen row; proved by `AreaStaysInside` and `AreaMatchesBackground` |
| `UiTemperature.HotRegime` | src/ui/ui_temperature.cpp:15-18 | from 32 degrees the stops are (120,0,0) / (255,60,60) |
| `UiTemperature.FixedBlueRegimes` | src/ui/ui_temperature.cpp:31-38 | 25..30 gives (0,20,100) / (40,80,180); below 25 gives (0,0,128) / (64,128,255) |
| `UiTemperature.BandGreen` | src/ui/ui_temperature.cpp:19-30 | in [30,32) top green is 0, bottom green stays in 60..128, red rises below its hot value |
| `UiTemperature.BandAtThirty` | src/ui/ui_temperature.cpp:19-38 | exactly 30 degrees yields the cold stops, different from 29.9's |
| `UiTemperature.LerpBetween` | src/ui/ui_temperature.cpp:49-54 | an on-screen row's channel lies between the top and bottom channels |
| `UiTemperature.LerpMonotone` | src/ui/ui_temperature.cpp:70-74 | a channel never decreases with the row |
| `UiTemperature.RowColourMonotone` | src/ui/ui_temperature.cpp:47-54 | down the screen every gradient channel is a byte and non-decreasing, for every temperature |
| `UiTemperature.BackgroundCoversScreen` | src/ui/ui_temperature.cpp:47-61 | the full painter draws 240 lines, line k at row k from x 0, width 320 |
| `UiTemperature.AreaStaysInside` | src/ui/ui_temperature.cpp:69-78 | the area painter draws max(height,0) lines, all at x, width `width`, rows y..y+height-1 |
| `UiTemperature.AreaMatchesBackground` | src/ui/ui_temperature.cpp:65-79 | area row `row` has the row and colour the full painter gives absolute row y+row |
| `UiTemperature.DrawTemperatureGradientBackground` | src/ui/ui_temperature.cpp:43-62 | the row loop appends exactly the full-screen gradient |
| `UiTemperature.DrawTemperatureGradientArea` | src/ui/ui_temperature.cpp:65-79 | the row loop appends exactly the area gradient |
| `UiTemperature.UpdateBackgroundTemperature` | src/ui/ui_temperature.cpp:82-84 | the stored background temperature becomes `temp` |
| `UiTemperature.GetCurrentBackgroundTemp` | src/ui/ui_temperature.cpp:96-98 | returns the stored background temperature |
| `UiTemperature.DrawGradientBackground` | src/ui/ui_temperature.cpp:87-89 | the full painter at the stored temperature |
| `UiTemperature.DrawGradientArea` | src/ui/ui_temperature.cpp:91-93 | the area painter at the stored temperature |
| `UiCharacter.SrcCoord` | src/ui/ui_character.cpp:58-62 | the clamped source coordinate lies in 0..159 |
| `UiCharacter.SrcIndex` | src/ui/ui_character.cpp:64 | the source index lies in [0, 25600) |
| `UiCharacter.VariantFor` | src/ui/ui_character.cpp:33-39 | the sprite variant for a temperature; the 32-degree threshold is proved by `SpriteThreshold` |
| `UiCharacter.ImageFor` | src/ui/ui_character.cpp:33-39 | the bitmap of that variant |
| `UiCharacter.PixelOf` | src/ui/ui_character.cpp:129-168 | the word pushed for target pixel (row, col) by each of the three passes (plain, fade step, edge blend); its values are stated by `PlainCopiesSource`, `FadeChannelSteps`, `EdgeInteriorUnchanged` and `EdgeBandBetween` |
| `UiCharacter.NearestNeighbour` | src/ui/ui_character.cpp:97-101 | inside the 180 square the clamp never fires and the coordinate is floor(8i/9) |
| `UiCharacter.SpriteThreshold` | src/ui/ui_character.cpp:33-39 | the hot sprite is chosen exactly when temp >= 32 |
| `UiCharacter.PushesAt` | src/ui/ui_character.cpp:95-108 | a pass pushes 180 x rows pixels, target pixel (r,c) at position 180r+c |
| `UiCharacter.PushesLength` | src/ui/ui_character.cpp:127-128 | the first `rows` rows push 180 x rows pixels |
| `UiCharacter.PlainCopiesSource` | src/ui/ui_character.cpp:103-106 | the plain draw pushes each mapped source word unchanged |
| `UiCharacter.FadeChannelSteps` | src/ui/ui_character.cpp:68-70 | c*fade/7 is 0 at step 0, c at step 7, non-decreasing and never above c |
| `UiCharacter.EdgeDistanceRange` | src/ui/ui_character.cpp:139 | the distance to the nearest edge lies in 0..89 |
| `UiCharacter.AlphaRange` | src/ui/ui_character.cpp:143 | inside the fade band alpha lies in [0.3, 1) |
| `UiCharacter.BlendChannelBetween` | src/ui/ui_character.cpp:160-162 | the truncated blend lies between the sprite channel and the background channel |
| `UiCharacter.EdgeInteriorUnchanged` | src/ui/ui_character.cpp:166-168 | at distance >= 8 the edge draw pushes the source word unchanged |
| `UiCharacter.EdgeBandBetween` | src/ui/ui_character.cpp:146-162 | in the band the background is the full painter's colour of row y+row, and each blend lies between sprite and background |
| `UiCharacter.PushRow` | src/ui/ui_character.cpp:128-170 | the column loop pushes exactly the 180 pixels of one target row, left to right |
| `UiCharacter.PushPixels` | src/ui/ui_character.cpp:127-171 | the nested row/column loop pushes exactly the 180x180 pixels of the pass, row-major |
| `UiCharacter.DrawCharacterImage` | src/ui/ui_character.cpp:83-111 | the window, then the plain pass of the sprite chosen by temperature |
| `UiCharacter.DrawCharacterImageWithFade` | src/ui/ui_character.cpp:42-80 | eight passes at fade 0..7, each with its window |
| `UiCharacter.DrawCharacterImageWithEdgeFade` | src/ui/ui_character.cpp:114-174 | the window, then the edge-blended pass against the stored background temperature |
| `UiCharacter.ClearCharacterArea` | src/ui/ui_character.cpp:177-180 | repaints (10,40,180,180) with the gradient at the stored temperature |
| `UiCharacter.DrawCharacter` | src/ui/ui_character.cpp:183-221 | the flag becomes temp >= 32; both branches repaint the square and draw the edge-faded sprite |
| `Ui.ScanHit` | src/ui.cpp:47-49 | on the scan grid x+y is a multiple of 6 exactly on even columns of rows that are multiples of 12 |
| `Ui.DotRowClosed` | src/ui.cpp:48-52 | a scanned row holds every other column's dot on rows that are multiples of 12, and nothing otherwise |
| `Ui.DotRowsClosed` | src/ui.cpp:47-53 | the first n scanned rows draw the dots of the first (n+2)/3 dotted rows |
| `Ui.OverlayClosedForm` | src/ui.cpp:45-54 | the whole scan draws exactly 20 rows of 54 dots, every 6 pixels on every 12th row |
| `Ui.OverlayOnPattern` | src/ui.cpp:47-50 | every overlay dot is on screen, on the scan grid, with x+y a multiple of 6 |
| `Ui.FadeFrameLayers` | src/ui.cpp:43-67 | each frame starts black; 1080 dots from frame 2, the title exactly from frame 3, captions last |
| `Ui.DrawCarBuddyTitle` | src/ui.cpp:29-33 | draws the white title at (25,8) |
| `Ui.UpdateCarBuddyTitle` | src/ui.cpp:35-38 | repaints (25,8,120,16) at the stored temperature, then the title |
| `Ui.DrawDotRow` | src/ui.cpp:48-52 | the column loop of one scan row appends exactly that row's dots |
| `Ui.DrawOverlayDots` | src/ui.cpp:47-53 | the nested scan loop appends exactly the closed-form overlay |
| `Ui.DrawFadeFrame` | src/ui.cpp:43-67 | one frame: black, the overlay from fade 2, the title from fade 3, captions in fade*32 grey |
| `Ui.FadeInMainScreen` | src/ui.cpp:41-83 | eight frames, then the full gradient at the stored temperature, title and captions in white |
| `Ui.DrawUI` | src/ui.cpp:152-163 | background 20 first, the fade-in, the character, then initialised |
| `UiData.NumberRedrawBand` | src/ui/ui_data.cpp:23 | a number redraws exactly when it leaves the closed band of 0.1 around the baseline |
| `UiData.TemperatureCmds` | src/ui/ui_data.cpp:25-39 | a temperature redraw: the field's gradient patch, the title strip and title, then the value in size 3 at (200,35) in its warning colour |
| `UiData.TemperatureStep` | src/ui/ui_data.cpp:21-45 | the temperature redraw when the value leaves the 0.1 band, nothing otherwise; tied to the method by `DrawTemperature` |
| `UiData.SpeedStep` | src/ui/ui_data.cpp:48-60 | the speed redraw when the value leaves the 0.1 band, nothing otherwise; tied to the method by `DrawSpeed` |
| `UiData.TimeStep` | src/ui/ui_data.cpp:63-75 | the time redraw when the string differs, nothing otherwise; tied to the method by `DrawTime` |
| `UiData.DateStep` | src/ui/ui_data.cpp:78-90 | the date redraw when the string differs, nothing otherwise; tied to the method by `DrawDate` |
| `UiData.NumberBaseline` | src/ui/ui_data.cpp:21-45 | the baseline moves to the value only on a redraw, and the same value then needs no redraw |
| `UiData.TextBaseline` | src/ui/ui_data.cpp:63-75 | after a call the baseline is the string offered, which then needs no redraw |
| `UiData.SecondCallIsNoOp` | src/ui/ui_data.cpp:21-90 | calling any field draw again with the same value draws nothing and keeps the baseline |
| `UiData.SmallChangeThenLargeChange` | src/ui/ui_data.cpp:23 | from 20.0, 20.05 is not drawn and 21.0 afterwards is drawn and stored |
| `UiData.FirstDrawFromSentinel` | src/ui.cpp:16-19 | from power-on, any number above -998.9 and any non-empty string is drawn |
| `UiData.TemperatureTextWarns` | src/ui/ui_data.cpp:31-34 | the temperature text is yellow exactly from 32 degrees |
| `UiData.FieldAreasDisjoint` | src/ui/ui_data.cpp:25-80 | the temperature, speed, time, date and title rectangles do not overlap |
| `UiData.RepaintInside` | src/ui/ui_temperature.cpp:69-78 | a field repaint draws only lines inside its rectangle |
| `UiData.TimeAndDateRepaintsApart` | src/ui/ui_data.cpp:65-80 | every line of the time repaint ends left of every line of the date repaint |
| `UiData.DrawTemperature` | src/ui/ui_data.cpp:21-45 | redraw iff \|temp - baseline\| > 0.1: box, title strip, coloured text, commit; else nothing |
| `UiData.DrawSpeed` | src/ui/ui_data.cpp:48-60 | redraw iff \|speed - baseline\| > 0.1: box, white text, commit; else nothing |
| `UiData.DrawTime` | src/ui/ui_data.cpp:63-75 | redraw iff the string differs: box, yellow text, commit; else nothing |
| `UiData.DrawDate` | src/ui/ui_data.cpp:78-90 | redraw iff the string differs: box, cyan text, commit; else nothing |
| `UiState.ResyncBaseline` | src/ui/ui_state.cpp:51-59 | the resync temperature moves to temp only on a redraw, after which the same temp triggers none |
| `UiState.ResyncNeeded` | src/ui/ui_state.cpp:51 | a full redraw is due exactly when the temperature moved more than 1.0 since the last one |
| `UiState.FullRedrawCmds` | src/ui/ui_state.cpp:58-77 | everything a full redraw draws, in order: gradient, title, captions, the four fields from invalidated baselines, the character; tied to the method by `ForceFullRedraw` |
| `UiState.FullRedrawDrawsEveryField` | src/ui/ui_state.cpp:71-77 | after invalidation every field is drawn in full, given readings above -998.9 and non-empty strings |
| `UiState.FullRedrawStartsWithBackground` | src/ui/ui_state.cpp:58 | a full redraw starts with the whole-screen gradient at temp |
| `UiState.ResyncOnce` | src/ui/ui_state.cpp:51 | a second full redraw with the same temperature does nothing |
| `UiState.ForceUpdateAllDisplayValues` | src/ui/ui_state.cpp:30-36 | baselines -999 and "", character not displayed, nothing else |
| `UiState.SetLastDisplayValues` | src/ui/ui_state.cpp:39-45 | stores the four arguments and marks the character displayed |
| `UiState.ForceFullRedraw` | src/ui/ui_state.cpp:48-81 | acts iff \|temp - last resync\| > 1: full repaint, fields, character, write-back; else no change |
| `UiState.IsUIInitialized` | src/ui/ui_state.cpp:85-87 | returns the initialised flag |
| `UiState.SetUIInitialized` | src/ui/ui_state.cpp:89-91 | sets the initialised flag |
| `UiState.GetLastTemperature` | src/ui/ui_state.cpp:94-96 | returns the temperature baseline |
| `UiState.GetLastSpeed` | src/ui/ui_state.cpp:98-100 | returns the speed baseline |
| `UiState.GetLastTime` | src/ui/ui_state.cpp:102-104 | returns the time baseline |
| `UiState.GetLastDate` | src/ui/ui_state.cpp:106-108 | returns the date baseline |
| `UiState.IsCharacterDisplayed` | src/ui/ui_state.cpp:110-112 | returns the character-displayed flag |
| `Clock.SkipSpaces` | src/clock.cpp:115 | the leading white space `toInt` skips: a suffix of `s` that does not start with white space; `SkipSpacesDropsOnlySpace` proves that everything dropped is white space |
| `Clock.SkipSpacesDropsOnlySpace` | src/clock.cpp:115 | every character `SkipSpaces` drops from the front is white space, so together with `SkipSpaces`'s own contract the result is exactly `s` without its leading white space |
| `Clock.DigitsValue` | src/clock.cpp:115-117 | the decimal value of a run of leading digits, accumulated left to right as `atol` does |
| `Clock.ToInt` | src/clock.cpp:115-117 | `String::toInt`: skip white space, an optional sign, then the leading digits; two-digit fields proved by `TwoDigits` |
| `Clock.TwoDigits` | src/clock.cpp:115-117 | a two-digit field reads as 10*d0+d1, in 0..99 |
| `Clock.ParseClockTime` | src/clock.cpp:113-123 | a string shorter than 19 characters gives 12:00:00 |
| `Clock.ParseFixedWidth` | src/clock.cpp:114-117 | with digits at 11-12, 14-15, 17-18 the fields are those two-digit numbers |
| `Clock.ParseAfternoon` | src/clock.cpp:114 | a clock part "14:30:25" gives 14, 30, 25 |
| `Clock.ParseEpoch` | src/time.cpp:48 | the unsynchronised "1970-01-01 00:00:00" is long enough and gives midnight, not 12:00:00 |
| `Clock.CRem` | src/clock.cpp:70 | C's truncating `%`: `a % b` for non-negative `a`, and in (-b, 0] for negative `a`; `CRemTruncates` gives the value |
| `Clock.CRemTruncates` | src/clock.cpp:70 | for a negative dividend, `CRem(a, b)` is `a - b * trunc(a / b)`, with the quotient truncated toward zero as in C |
| `Clock.HourAngle` | src/clock.cpp:70 | (hour % 12) * 30 + minute * 0.5 degrees, with C's remainder; range proved by `HourAngleRange` |
| `Clock.MinuteAngle` | src/clock.cpp:84 | minute * 6 degrees; range proved by `MinuteSecondAngleRange` |
| `Clock.SecondAngle` | src/clock.cpp:96 | second * 6 degrees; range proved by `MinuteSecondAngleRange` |
| `Clock.HourAngleRange` | src/clock.cpp:70 | twice the hour angle is 60(h mod 12)+m, and the angle lies in [0,360) |
| `Clock.MinuteSecondAngleRange` | src/clock.cpp:84-96 | minute and second angles each lie in [0,354] and recover v when divided by 6 |
| `Clock.ClearSquare` | src/clock.cpp:151-152 | the clear is a black square of side 2(r+5) centred on the dial |
| `Clock.MajorTicks` | src/clock.cpp:35-47 | two lines per hour 1..n at 30-degree steps between radii r-3 and r-12; counted by `MajorTicksCount` |
| `Clock.MinorTicks` | src/clock.cpp:50-60 | one grey line per minute 1..n not a multiple of 5; characterised by `MinorTicksExactly` |
| `Clock.FaceCmds` | src/clock.cpp:29-65 | the two rings, the hour ticks, the minute ticks, then the centre dot and its black outline; counted by `FaceCounts` |
| `Clock.ClockCmds` | src/clock.cpp:126-137 | the whole clock: cleared disc, face, hour, minute and second hands, cap; order proved by `ClockDrawOrder` |
| `Clock.MajorTicksCount` | src/clock.cpp:35-47 | n hour ticks are 2n lines |
| `Clock.MinorTicksCount` | src/clock.cpp:50-60 | minutes 1..n give n - n/5 minor ticks |
| `Clock.MinorTicksExactly` | src/clock.cpp:50-60 | minute m has a minor tick exactly when 1 <= m <= n and m is not a multiple of 5 |
| `Clock.FaceCounts` | src/clock.cpp:29-65 | the face is 76 commands: 24 hour-tick lines and 48 minor ticks |
| `Clock.MinorTicksMissHours` | src/clock.cpp:36-52 | no minor tick lies at an hour tick's angle |
| `Clock.HandLengthsOrdered` | src/clock.cpp:73-99 | the hour hand is shorter than the minute hand, which is shorter than the second hand |
| `Clock.ClockDrawOrder` | src/clock.cpp:125-137 | 85 commands: clear, face, hour, minute, second hands, cap on top |
| `Clock.AnalogClock.constructor` | src/clock.cpp:10-13 | centre (95,120), radius 80, hidden |
| `Clock.AnalogClock.InitAnalogClock` | src/clock.cpp:16-19 | hides the clock |
| `Clock.AnalogClock.DrawClockFace` | src/clock.cpp:29-65 | the two tick loops append exactly the face |
| `Clock.AnalogClock.DrawHourHand` | src/clock.cpp:68-80 | four white lines at the hour angle, length r-25 |
| `Clock.AnalogClock.DrawMinuteHand` | src/clock.cpp:83-92 | two yellow lines at 6m degrees, length r-15 |
| `Clock.AnalogClock.DrawSecondHand` | src/clock.cpp:95-103 | one red line at 6s degrees, length r-10 |
| `Clock.AnalogClock.DrawAnalogClock` | src/clock.cpp:106-146 | hidden: nothing; visible: the full clock for the parsed time |
| `Clock.AnalogClock.DrawClockAt` | src/clock.cpp:125-137 | draws the clock for a parsed time: appends exactly `ClockCmds` of the current dial, in the source's layer order (the clear disc, the face, the hour, minute and second hands, then the cap) |
| `Clock.AnalogClock.ClearClockArea` | src/clock.cpp:149-153 | appends the black square around the dial |
| `Clock.AnalogClock.SetClockPosition` | src/clock.cpp:156-159 | moves the centre, keeps the radius |
| `Clock.AnalogClock.SetClockSize` | src/clock.cpp:162-164 | changes the radius, keeps the centre |
| `Clock.AnalogClock.IsClockVisible` | src/clock.cpp:167-169 | returns the visibility |
| `Clock.AnalogClock.SetClockVisible` | src/clock.cpp:171-175 | sets the visibility |
| `ModeManager.Elapsed` | src/mode_manager.cpp:28 | unsigned 32-bit now - since: the plain difference, or the difference across one wrap |
| `ModeManager.ElapsedRoundTrip` | src/mode_manager.cpp:28 | d milliseconds after `since`, wrapped or not, the elapsed time is d |
| `ModeManager.ElapsedAcrossWrap` | src/mode_manager.cpp:28-30 | 10 ms before the wrap to 40 ms after it is 50 ms, enough to pass the debounce |
| `ModeManager.IntAbs` | src/mode_manager.cpp:82 | a non-negative value equal to x or -x |
| `ModeManager.Index` | include/mode_manager.hpp:7-11 | every mode's index lies in [0, MODE_COUNT) |
| `ModeManager.FromIndex` | src/mode_manager.cpp:83 | the cast of an index in range is the mode with that index |
| `ModeManager.TargetMode` | src/mode_manager.cpp:82-83 | the mode the poller picks for a counter, abs(counter) % 2 cast back; characterised by `TargetModeParity` |
| `ModeManager.NextMode` | src/mode_manager.cpp:118-122 | the next mode round the cycle; inverse of `PrevMode` by `NextPrevInverse` |
| `ModeManager.PrevMode` | src/mode_manager.cpp:126-130 | the previous mode round the cycle; inverse of `NextMode` by `NextPrevInverse` |
| `ModeManager.PollActs` | src/mode_manager.cpp:78-79 | the poller acts on an unseen counter once more than 300 ms (mod 2^32) have passed since the last switch |
| `ModeManager.IndexRoundTrip` | include/mode_manager.hpp:7-11 | casting a mode's index back gives the mode |
| `ModeManager.TargetModeParity` | src/mode_manager.cpp:82-83 | the poller picks the clock exactly for odd counters, of either sign |
| `ModeManager.TargetModeExamples` | src/mode_manager.cpp:82 | counters 1 and -1 pick the clock; 0, 2 and -2 the character |
| `ModeManager.NextPrevInverse` | src/mode_manager.cpp:117-131 | next and previous wrap in [0,2), undo each other and always leave the current mode |
| `ModeManager.EdgeStep` | src/mode_manager.cpp:36-43 | no step unless A changed; then +1 exactly when A differs from B, -1 exactly when they agree |
| `ModeManager.CountedEdgeFlipsTarget` | src/mode_manager.cpp:36-43 | every counted detent flips the mode the poller will pick |
| `ModeManager.ClearCoversDial` | src/mode_manager.cpp:155 | the black clear covers the clock's cleared disc at (95,120), radius 82 |
| `ModeManager.SwitchCmds` | src/mode_manager.cpp:148-149 | definition: the clear, then `DisplayCmds` of the new mode; its properties are stated by `ModeState.SwitchToMode` and `ClearCoversDial` |
| `ModeManager.DisplayCmds` | src/mode_manager.cpp:160-182 | what updateDisplay draws in each mode: the character, or the clock on the given dial |
| `ModeManager.ModeState.constructor` | src/mode_manager.cpp:10-23 | character mode, counters 0, phase states false, timestamps 0 |
| `ModeManager.ModeState.HandleEncoderA` | src/mode_manager.cpp:26-47 | within 50 ms nothing changes; else both counters move by the same step, A is latched, the time only on a counted edge |
| `ModeManager.ModeState.GetCurrentMode` | src/mode_manager.cpp:101-103 | returns the current mode |
| `ModeManager.ModeState.InitModeManager` | src/mode_manager.cpp:50-70 | latches pin A and hides the clock |
| `ModeManager.ModeState.ClearDisplayArea` | src/mode_manager.cpp:153-157 | appends the black (10,30,180,180) rectangle |
| `ModeManager.ModeState.UpdateDisplay` | src/mode_manager.cpp:160-182 | character: hide the clock, draw the character; clock: show it at (95,120) radius 80 and draw it |
| `ModeManager.ModeState.SwitchToMode` | src/mode_manager.cpp:133-150 | to the current mode: nothing changes, clock and hot flag included; otherwise set the mode, clear, draw the new mode, with the clock shown at (95,120) radius 80 exactly in clock mode, the hot flag set from the temperature in character mode and kept in clock mode |
| `ModeManager.ModeState.SwitchToNextMode` | src/mode_manager.cpp:117-123 | always switches, into the next mode, with the same clock and hot-flag outcome as a switch into that mode |
| `ModeManager.ModeState.SwitchToPreviousMode` | src/mode_manager.cpp:125-131 | always switches, into the previous mode, with the same clock and hot-flag outcome as a switch into that mode |
| `ModeManager.ModeState.UpdateModeManager` | src/mode_manager.cpp:73-98 | idle unless the poll acts; then mode = target, time stamped only on a real switch, counter seen; without a switch the clock and the hot flag are unchanged, with one they are those of a switch into the target |

## Left out

- Serial logging and `delay` are left out, and so are the debug helpers `debugCharacterState`,
  `getCurrentModeString` and `printEncoderDebugInfo`. They draw nothing and change no modelled
  state.
- `tft.startWrite`/`endWrite` and `setTextSize`/`setTextColor` are left out as separate steps. Text
  size and colour are folded into each `Text` command.
- `color565` packing and the RGB565 encoding of named colours are opaque. The bitmap contents are
  any 160x160 words.
- The trigonometry of `polarToCartesian` is not interpreted. Claims about the clock's geometry are
  about radii and angles, not pixels.
- Float behaviour is modelled over the reals: rounding, NaN and infinities are not modelled. The
  `(uint8_t)` casts are modelled as `Floor`, which matches C++ only for values in 0..255, and
  `RowColourMonotone` shows that every gradient channel stays in that range.
- Text rendering is a single `Text(label, x, y, size, colour)` command. `String(v, 1)` is the
  label `Fixed1(v, suffix)`, and its decimal formatting is not modelled.
- The encoder interrupt is modelled as a sequential method with no `volatile` or interrupt
  concurrency. `pinMode`, `attachInterrupt` and `digitalRead` are left out, and the pin levels
  are parameters.
- `ModeManager.ModeState.HandleEncoderA` requires both counters to lie strictly inside the 32-bit
  range, because the source's ++/-- would overflow at the ends.
- `ModeManager.ModeState.UpdateModeManager` requires the counter to be above INT_MIN, where
  `abs` is defined.
- `Clock.ToInt` does not model 32-bit overflow of `String::toInt`. The clock only ever reads
  two-character fields.
- Time, network and persistence (`src/time.cpp`, EEPROM) are not part of this model. Their
  strings are parameters, and the unsynchronised fallback "1970-01-01 00:00:00" appears in
  `Clock.ParseEpoch`.
- `UiData.DrawTemperature`, `UiData.DrawSpeed`, `UiData.DrawTime`, `UiData.DrawDate`: each commits
  its field's baseline only after repainting it. On a trace with no
  failure or interruption this order is not observable. The model keeps the source's order in
  the method bodies, but no contract states it.
