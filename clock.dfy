/** The analog clock (src/clock.cpp): parsing the time string, the hand angles, the
    tick marks of the dial and the order in which the clock is drawn. Points on the dial
    are `Polar` positions: `polarToCartesian` (cos/sin and a float-to-int cast) is not
    interpreted. */
module Clock {
  import opened Display

  // ---------------------------------------------------------------------------------
  // Reading the time string

  datatype ClockTime = ClockTime(hour: int, minute: int, second: int)

  predicate IsDigit(ch: char)
  {
    '0' <= ch <= '9'
  }

  predicate IsSpace(ch: char)
  {
    ch == ' ' || ch == '\t' || ch == '\n' || ch == '\r' || ch == '\U{B}' || ch == '\U{C}'
  }

  predicate AllSpace(p: string)
  {
    forall i :: 0 <= i < |p| ==> IsSpace(p[i])
  }

  /** What is left of `s` once its leading white space is dropped. */
  function SkipSpaces(s: string): (t: string)
    ensures |t| <= |s| && t == s[|s| - |t|..]
    ensures |t| > 0 ==> !IsSpace(t[0])
  {
    if |s| > 0 && IsSpace(s[0]) then SkipSpaces(s[1..]) else s
  }

  /** Everything `SkipSpaces` drops is white space. */
  lemma {:induction false} SkipSpacesDropsOnlySpace(s: string)
    ensures AllSpace(s[..|s| - |SkipSpaces(s)|])
  {
    if |s| > 0 && IsSpace(s[0]) {
      var u := s[1..];
      SkipSpacesDropsOnlySpace(u);
      var n := |u| - |SkipSpaces(u)|;
      assert |s| - |SkipSpaces(s)| == n + 1;
      SpaceInFront(s, n);
    }
  }

  /** Helper: a white-space character in front of a white-space prefix. */
  lemma SpaceInFront(s: string, n: nat)
    requires n < |s| && IsSpace(s[0]) && AllSpace(s[1..][..n])
    ensures AllSpace(s[..n + 1])
  {
    var p, q := s[..n + 1], s[1..][..n];
    forall i | 0 <= i < |p|
      ensures IsSpace(p[i])
    {
      if i > 0 {
        assert p[i] == q[i - 1];
      }
    }
  }

  function DigitValue(ch: char): int
  {
    ch as int - '0' as int
  }

  /** The value of the digits at the front of `s`, appended to `acc`. */
  function DigitsValue(s: string, acc: int): int
  {
    if |s| > 0 && IsDigit(s[0]) then DigitsValue(s[1..], acc * 10 + DigitValue(s[0])) else acc
  }

  /** `String::toInt`: leading white space, an optional sign, then as many decimal
      digits as follow; 0 when there are none. */
  function ToInt(s: string): int
  {
    var t := SkipSpaces(s);
    if |t| > 0 && t[0] == '-' then -DigitsValue(t[1..], 0)
    else if |t| > 0 && t[0] == '+' then DigitsValue(t[1..], 0)
    else DigitsValue(t, 0)
  }

  /** Two decimal digits read as a number from 0 to 99. */
  lemma TwoDigits(s: string)
    requires |s| == 2 && IsDigit(s[0]) && IsDigit(s[1])
    ensures ToInt(s) == 10 * DigitValue(s[0]) + DigitValue(s[1])
    ensures 0 <= ToInt(s) <= 99
  {
    assert SkipSpaces(s) == s;
    var rest := s[1..];
    assert |rest| == 1 && rest[0] == s[1];
    assert DigitsValue(s, 0) == DigitsValue(rest, DigitValue(s[0]));
    assert DigitsValue(rest, DigitValue(s[0])) == DigitsValue(rest[1..], DigitValue(s[0]) * 10 + DigitValue(s[1]));
  }

  /** The clock reads hour, minute and second at [11,13), [14,16) and [17,19) of a
      string of at least 19 characters, and shows 12:00:00 otherwise. */
  function ParseClockTime(ts: string): (t: ClockTime)
    ensures |ts| < 19 ==> t == ClockTime(12, 0, 0)
  {
    if |ts| >= 19 then ClockTime(ToInt(ts[11..13]), ToInt(ts[14..16]), ToInt(ts[17..19]))
    else ClockTime(12, 0, 0)
  }

  /** A "YYYY-MM-DD hh:mm:ss" string yields its three two-digit fields. */
  lemma ParseFixedWidth(ts: string)
    requires |ts| >= 19
    requires IsDigit(ts[11]) && IsDigit(ts[12]) && IsDigit(ts[14]) && IsDigit(ts[15])
    requires IsDigit(ts[17]) && IsDigit(ts[18])
    ensures ParseClockTime(ts).hour == 10 * DigitValue(ts[11]) + DigitValue(ts[12])
    ensures ParseClockTime(ts).minute == 10 * DigitValue(ts[14]) + DigitValue(ts[15])
    ensures ParseClockTime(ts).second == 10 * DigitValue(ts[17]) + DigitValue(ts[18])
  {
    TwoDigits(ts[11..13]);
    TwoDigits(ts[14..16]);
    TwoDigits(ts[17..19]);
  }

  /** A string whose clock part reads "14:30:25" shows 14:30:25. */
  lemma ParseAfternoon(ts: string)
    requires |ts| >= 19
    requires ts[11] == '1' && ts[12] == '4' && ts[14] == '3' && ts[15] == '0' && ts[17] == '2' && ts[18] == '5'
    ensures ParseClockTime(ts) == ClockTime(14, 30, 25)
  {
    ParseFixedWidth(ts);
  }

  /** The string of the unsynchronised clock, whose clock part reads "00:00:00", shows
      midnight rather than the 12:00:00 of a short string. */
  lemma ParseEpoch(ts: string)
    requires |ts| >= 19
    requires ts[11] == '0' && ts[12] == '0' && ts[14] == '0' && ts[15] == '0' && ts[17] == '0' && ts[18] == '0'
    ensures ParseClockTime(ts) == ClockTime(0, 0, 0)
  {
    ParseFixedWidth(ts);
  }

  // ---------------------------------------------------------------------------------
  // Hand angles (degrees clockwise from twelve o'clock)

  /** C's `%`, which truncates toward zero. */
  function CRem(a: int, b: int): (r: int)
    requires b > 0
    ensures a >= 0 ==> r == a % b
    ensures a < 0 ==> -b < r <= 0
  {
    if a >= 0 then a % b else -((-a) % b)
  }

  /** For a negative dividend `CRem` is C's value: `a` minus `b` times the quotient
      truncated toward zero, which is `-((-a) / b)`. */
  lemma CRemTruncates(a: int, b: int)
    requires b > 0 && a < 0
    ensures CRem(a, b) == a + b * ((-a) / b)
  {
  }

  function HourAngle(hour: int, minute: int): real
  {
    CRem(hour, 12) as real * 30.0 + minute as real * 0.5
  }

  function MinuteAngle(minute: int): real
  {
    minute as real * 6.0
  }

  function SecondAngle(second: int): real
  {
    second as real * 6.0
  }

  /** The hour hand moves in half degrees and stays within one turn. */
  lemma HourAngleRange(hour: int, minute: int)
    requires hour >= 0 && 0 <= minute <= 59
    ensures 2.0 * HourAngle(hour, minute) == (60 * (hour % 12) + minute) as real
    ensures 0.0 <= HourAngle(hour, minute) < 360.0
  {
  }

  /** Minute and second angles step by 6 degrees, stay within [0, 354] and recover
      their input. */
  lemma MinuteSecondAngleRange(v: int)
    requires 0 <= v <= 59
    ensures 0.0 <= MinuteAngle(v) <= 354.0 && (MinuteAngle(v) / 6.0).Floor == v
    ensures 0.0 <= SecondAngle(v) <= 354.0 && (SecondAngle(v) / 6.0).Floor == v
  {
  }

  // ---------------------------------------------------------------------------------
  // What the clock draws

  /** The dial: centre and radius. */
  datatype Dial = Dial(cx: int, cy: int, r: int)

  /** Major tick `hour` (1..12) at 30 * hour degrees: two lines from r - 3 in to r - 12,
      the second one pixel to the right. */
  function MajorTick(d: Dial, hour: int): seq<Cmd>
  {
    var a := hour as real * 30.0;
    [Line(Polar(d.cx, d.cy, d.r - 3, a, 0, 0), Polar(d.cx, d.cy, d.r - 12, a, 0, 0), White),
     Line(Polar(d.cx, d.cy, d.r - 3, a, 1, 0), Polar(d.cx, d.cy, d.r - 12, a, 1, 0), White)]
  }

  /** Minor tick `minute` at 6 * minute degrees, from r - 3 in to r - 8. */
  function MinorTick(d: Dial, minute: int): Cmd
  {
    var a := minute as real * 6.0;
    Line(Polar(d.cx, d.cy, d.r - 3, a, 0, 0), Polar(d.cx, d.cy, d.r - 8, a, 0, 0), LightGrey)
  }

  /** The major ticks of hours 1..n. */
  function MajorTicks(d: Dial, n: nat): seq<Cmd>
  {
    if n == 0 then [] else MajorTicks(d, n - 1) + MajorTick(d, n)
  }

  /** The minor ticks of minutes 1..n, skipping every fifth. */
  function MinorTicks(d: Dial, n: nat): seq<Cmd>
  {
    if n == 0 then [] else MinorTicks(d, n - 1) + (if n % 5 != 0 then [MinorTick(d, n)] else [])
  }

  function FaceCmds(d: Dial): seq<Cmd>
  {
    [Circle(d.cx, d.cy, d.r, White), Circle(d.cx, d.cy, d.r - 1, White)]
      + MajorTicks(d, 12) + MinorTicks(d, 60)
      + [Disc(d.cx, d.cy, 4, White), Circle(d.cx, d.cy, 4, Black)]
  }

  /** A hand: one line from the centre to the point at `length` and `angle` per offset,
      both ends shifted by the offset. */
  function HandLine(d: Dial, length: int, angle: real, dx: int, dy: int, c: Colour): Cmd
  {
    Line(At(d.cx + dx, d.cy + dy), Polar(d.cx, d.cy, length, angle, dx, dy), c)
  }

  const HourHandInset: int := 25
  const MinuteHandInset: int := 15
  const SecondHandInset: int := 10

  function HourHandCmds(d: Dial, hour: int, minute: int): seq<Cmd>
  {
    var a := HourAngle(hour, minute);
    [HandLine(d, d.r - HourHandInset, a, 0, 0, White), HandLine(d, d.r - HourHandInset, a, 1, 0, White),
     HandLine(d, d.r - HourHandInset, a, 0, 1, White), HandLine(d, d.r - HourHandInset, a, 1, 1, White)]
  }

  function MinuteHandCmds(d: Dial, minute: int): seq<Cmd>
  {
    var a := MinuteAngle(minute);
    [HandLine(d, d.r - MinuteHandInset, a, 0, 0, Yellow), HandLine(d, d.r - MinuteHandInset, a, 1, 0, Yellow)]
  }

  function SecondHandCmds(d: Dial, second: int): seq<Cmd>
  {
    [HandLine(d, d.r - SecondHandInset, SecondAngle(second), 0, 0, Red)]
  }

  /** A full clock: cleared disc of radius r + 2, face, hour, minute and second hands,
      then the centre cap on top. */
  function ClockCmds(d: Dial, t: ClockTime): seq<Cmd>
  {
    [Disc(d.cx, d.cy, d.r + 2, Black)] + FaceCmds(d)
      + HourHandCmds(d, t.hour, t.minute) + MinuteHandCmds(d, t.minute) + SecondHandCmds(d, t.second)
      + [Disc(d.cx, d.cy, 3, White)]
  }

  /** The black square clearClockArea fills. */
  function ClearSquare(d: Dial): (c: Cmd)
    ensures c.FillRect? && c.w == c.h == 2 * (d.r + 5) && c.c == Black
    ensures c.x + (d.r + 5) == d.cx && c.y + (d.r + 5) == d.cy
  {
    FillRect(d.cx - d.r - 5, d.cy - d.r - 5, (d.r + 5) * 2, (d.r + 5) * 2, Black)
  }

  // ---------------------------------------------------------------------------------
  // Properties of the dial

  lemma {:induction false} MajorTicksCount(d: Dial, n: nat)
    ensures |MajorTicks(d, n)| == 2 * n
  {
    if n > 0 {
      MajorTicksCount(d, n - 1);
    }
  }

  /** Among minutes 1..n, all but the multiples of 5 get a minor tick. */
  lemma {:induction false} MinorTicksCount(d: Dial, n: nat)
    ensures |MinorTicks(d, n)| == n - n / 5
  {
    if n > 0 {
      MinorTicksCount(d, n - 1);
    }
  }

  /** The minor ticks are exactly those of minutes 1..n that are not multiples of 5. */
  lemma {:induction false} MinorTicksExactly(d: Dial, n: nat, m: int)
    ensures MinorTick(d, m) in MinorTicks(d, n) <==> 1 <= m <= n && m % 5 != 0
  {
    if n > 0 {
      MinorTicksExactly(d, n - 1, m);
      if MinorTick(d, m) == MinorTick(d, n) {
        assert m as real * 6.0 == n as real * 6.0;
      }
    }
  }

  /** The dial has 12 major ticks of two lines each and 48 minor ticks. */
  lemma FaceCounts(d: Dial)
    ensures |MajorTicks(d, 12)| == 24 && |MinorTicks(d, 60)| == 48
    ensures |FaceCmds(d)| == 76
  {
    MajorTicksCount(d, 12);
    MinorTicksCount(d, 60);
  }

  /** No minor tick falls on an hour: 6 * m is a multiple of 30 only when m is a multiple
      of 5. */
  lemma MinorTicksMissHours(m: int, hour: int)
    requires m % 5 != 0
    ensures m as real * 6.0 != hour as real * 30.0
  {
  }

  /** The hour hand is the shortest and the second hand the longest. */
  lemma HandLengthsOrdered(d: Dial, t: ClockTime)
    ensures forall h :: h in HourHandCmds(d, t.hour, t.minute) ==>
      forall k :: k in MinuteHandCmds(d, t.minute) ==> h.to.radius < k.to.radius
    ensures forall k :: k in MinuteHandCmds(d, t.minute) ==>
      forall s :: s in SecondHandCmds(d, t.second) ==> k.to.radius < s.to.radius
  {
  }

  /** Draw order of a full clock: the clear comes first, the face next, then the hour,
      minute and second hands, and the centre cap last, on top of the hands. */
  lemma ClockDrawOrder(d: Dial, t: ClockTime)
    ensures |ClockCmds(d, t)| == 85
    ensures ClockCmds(d, t)[0] == Disc(d.cx, d.cy, d.r + 2, Black)
    ensures ClockCmds(d, t)[1..77] == FaceCmds(d)
    ensures ClockCmds(d, t)[77..81] == HourHandCmds(d, t.hour, t.minute)
    ensures ClockCmds(d, t)[81..83] == MinuteHandCmds(d, t.minute)
    ensures ClockCmds(d, t)[83..84] == SecondHandCmds(d, t.second)
    ensures ClockCmds(d, t)[84] == Disc(d.cx, d.cy, 3, White)
  {
    FaceCounts(d);
    var clear := [Disc(d.cx, d.cy, d.r + 2, Black)];
    var hour, minute, second := HourHandCmds(d, t.hour, t.minute), MinuteHandCmds(d, t.minute), SecondHandCmds(d, t.second);
    var c := ClockCmds(d, t);
    assert c == clear + FaceCmds(d) + hour + minute + second + [Disc(d.cx, d.cy, 3, White)];
    assert |FaceCmds(d)| == 76 && |hour| == 4 && |minute| == 2 && |second| == 1;
  }

  // ---------------------------------------------------------------------------------
  // The clock's state and drawing

  class AnalogClock {
    var centerX: int
    var centerY: int
    var radius: int
    var visible: bool

    /** The statics at power-on. */
    constructor ()
      ensures centerX == 95 && centerY == 120 && radius == 80 && !visible
    {
      centerX := 95;
      centerY := 120;
      radius := 80;
      visible := false;
    }

    function CurrentDial(): Dial
      reads this
    {
      Dial(centerX, centerY, radius)
    }

    method InitAnalogClock()
      modifies this`visible
      ensures !visible
    {
      visible := false;
    }

    method DrawClockFace(tft: Screen)
      modifies tft
      ensures tft.trace == old(tft.trace) + FaceCmds(CurrentDial())
    {
      var d := CurrentDial();
      tft.trace := tft.trace + [Circle(centerX, centerY, radius, White), Circle(centerX, centerY, radius - 1, White)];
      ghost var afterRim := tft.trace;
      var hour := 1;
      while hour <= 12
        invariant 1 <= hour <= 13
        invariant tft.trace == afterRim + MajorTicks(d, hour - 1)
      {
        var angle := hour as real * 30.0;
        tft.trace := tft.trace + [Line(Polar(centerX, centerY, radius - 3, angle, 0, 0), Polar(centerX, centerY, radius - 12, angle, 0, 0), White)];
        tft.trace := tft.trace + [Line(Polar(centerX, centerY, radius - 3, angle, 1, 0), Polar(centerX, centerY, radius - 12, angle, 1, 0), White)];
        hour := hour + 1;
      }
      ghost var afterMajor := tft.trace;
      var minute := 1;
      while minute <= 60
        invariant 1 <= minute <= 61
        invariant tft.trace == afterMajor + MinorTicks(d, minute - 1)
      {
        if minute % 5 != 0 {
          var angle := minute as real * 6.0;
          tft.trace := tft.trace + [Line(Polar(centerX, centerY, radius - 3, angle, 0, 0), Polar(centerX, centerY, radius - 8, angle, 0, 0), LightGrey)];
        }
        minute := minute + 1;
      }
      tft.trace := tft.trace + [Disc(centerX, centerY, 4, White), Circle(centerX, centerY, 4, Black)];
    }

    method DrawHourHand(tft: Screen, hour: int, minute: int)
      modifies tft
      ensures tft.trace == old(tft.trace) + HourHandCmds(CurrentDial(), hour, minute)
    {
      var hourAngle := CRem(hour, 12) as real * 30.0 + minute as real * 0.5;
      var hand := Polar(centerX, centerY, radius - 25, hourAngle, 0, 0);
      tft.trace := tft.trace + [Line(At(centerX, centerY), hand, White)];
      tft.trace := tft.trace + [Line(At(centerX + 1, centerY), hand.(dx := 1), White)];
      tft.trace := tft.trace + [Line(At(centerX, centerY + 1), hand.(dy := 1), White)];
      tft.trace := tft.trace + [Line(At(centerX + 1, centerY + 1), hand.(dx := 1, dy := 1), White)];
    }

    method DrawMinuteHand(tft: Screen, minute: int)
      modifies tft
      ensures tft.trace == old(tft.trace) + MinuteHandCmds(CurrentDial(), minute)
    {
      var hand := Polar(centerX, centerY, radius - 15, minute as real * 6.0, 0, 0);
      tft.trace := tft.trace + [Line(At(centerX, centerY), hand, Yellow)];
      tft.trace := tft.trace + [Line(At(centerX + 1, centerY), hand.(dx := 1), Yellow)];
    }

    method DrawSecondHand(tft: Screen, second: int)
      modifies tft
      ensures tft.trace == old(tft.trace) + SecondHandCmds(CurrentDial(), second)
    {
      var hand := Polar(centerX, centerY, radius - 10, second as real * 6.0, 0, 0);
      tft.trace := tft.trace + [Line(At(centerX, centerY), hand, Red)];
    }

    /** drawAnalogClock, with the string getCurrentTimeString returned as `timeStr`. */
    method DrawAnalogClock(tft: Screen, timeStr: string)
      modifies tft
      ensures visible ==> tft.trace == old(tft.trace) + ClockCmds(CurrentDial(), ParseClockTime(timeStr))
      ensures !visible ==> tft.trace == old(tft.trace)
    {
      if !visible {
        return;
      }
      var t := ParseClockTime(timeStr);
      DrawClockAt(tft, t);
    }

    /** Helper: the drawing part of drawAnalogClock, once the time is parsed. */
    method DrawClockAt(tft: Screen, t: ClockTime)
      modifies tft
      ensures tft.trace == old(tft.trace) + ClockCmds(CurrentDial(), t)
    {
      var hour, minute, second := t.hour, t.minute, t.second;
      var d := CurrentDial();
      ghost var start := tft.trace;
      ghost var drawn := [Disc(d.cx, d.cy, d.r + 2, Black)];
      tft.trace := tft.trace + [Disc(centerX, centerY, radius + 2, Black)];
      DrawClockFace(tft);
      AppendAssoc(start, drawn, FaceCmds(d));
      drawn := drawn + FaceCmds(d);
      assert tft.trace == start + drawn;
      DrawHourHand(tft, hour, minute);
      AppendAssoc(start, drawn, HourHandCmds(d, hour, minute));
      drawn := drawn + HourHandCmds(d, hour, minute);
      assert tft.trace == start + drawn;
      DrawMinuteHand(tft, minute);
      AppendAssoc(start, drawn, MinuteHandCmds(d, minute));
      drawn := drawn + MinuteHandCmds(d, minute);
      assert tft.trace == start + drawn;
      DrawSecondHand(tft, second);
      AppendAssoc(start, drawn, SecondHandCmds(d, second));
      drawn := drawn + SecondHandCmds(d, second);
      assert tft.trace == start + drawn;
      tft.trace := tft.trace + [Disc(centerX, centerY, 3, White)];
      AppendAssoc(start, drawn, [Disc(d.cx, d.cy, 3, White)]);
      drawn := drawn + [Disc(d.cx, d.cy, 3, White)];
      assert drawn == ClockCmds(d, t);
    }

    method ClearClockArea(tft: Screen)
      modifies tft
      ensures tft.trace == old(tft.trace) + [ClearSquare(CurrentDial())]
    {
      tft.trace := tft.trace + [FillRect(centerX - radius - 5, centerY - radius - 5, (radius + 5) * 2, (radius + 5) * 2, Black)];
    }

    method SetClockPosition(x: int, y: int)
      modifies this`centerX, this`centerY
      ensures CurrentDial() == old(CurrentDial()).(cx := x, cy := y)
    {
      centerX := x;
      centerY := y;
    }

    method SetClockSize(r: int)
      modifies this`radius
      ensures CurrentDial() == old(CurrentDial()).(r := r)
    {
      radius := r;
    }

    method IsClockVisible() returns (v: bool)
      ensures v == visible
    {
      v := visible;
    }

    method SetClockVisible(v: bool)
      modifies this`visible
      ensures visible == v
    {
      visible := v;
    }
  }
}
