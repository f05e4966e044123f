/** The scrolling recording timeline: a ruler that moves left by a fixed
    step on every timer tick, a newest-first list of amplitude samples,
    the elapsed time under the centre line, and the time formatters that
    label the ruler and the recorded time. */
module RecordView {
  import opened JavaNumbers
  import opened Decimal

  // ---------------------------------------------------------------------
  // Time formatters. A "time" here counts tenths of a second.
  // ---------------------------------------------------------------------

  /** Two-digit field: "0" before 0..9, plain decimal (Java's `"" + i`) otherwise. */
  function UnitFormat(i: int): (r: string)
    ensures i >= 0 ==> AllDigits(r) && ValueOf(r) == i && |r| >= 2
    ensures i >= 0 ==> (r[0] == '0' <==> i < 10)
    ensures 0 <= i < 100 ==> |r| == 2
    ensures i < 0 ==> r == IntToString(i)
  {
    if i >= 0 && i < 10 then
      var s := "0" + IntToString(i);
      assert s[..|s| - 1] == "0" && ValueOf("0") == 0;
      s
    else
      assert "" + IntToString(i) == IntToString(i);
      "" + IntToString(i)
  }

  /** "MM:SS", or "HH:MM:SS" from one hour on, of `time / 10` seconds. */
  function SecToTime(time: int): string
  {
    if time <= 0 then "00:00"
    else
      var second := time / 10;
      var minute := second / 60;
      if second < 60 then "00:" + UnitFormat(second)
      else if minute < 60 then UnitFormat(minute) + ":" + UnitFormat(second % 60)
      else
        var hour := minute / 60;
        var minute' := minute % 60;
        var second' := second - hour * 3600 - minute' * 60;
        UnitFormat(hour) + ":" + UnitFormat(minute') + ":" + UnitFormat(second')
  }

  /** "HH:MM:SS" of `time / 10` seconds, the hour field always present. */
  function ToTime(time: int): string
  {
    if time <= 0 then "00:00:00"
    else
      var second := time / 10;
      var minute := second / 60;
      if second < 60 then "00:00:" + UnitFormat(second)
      else if minute < 60 then "00:" + UnitFormat(minute) + ":" + UnitFormat(second % 60)
      else
        var hour := minute / 60;
        var minute' := minute % 60;
        var second' := second - hour * 3600 - minute' * 60;
        UnitFormat(hour) + ":" + UnitFormat(minute') + ":" + UnitFormat(second')
  }

  /** For a positive time, `SecToTime` prints hour, minute and second fields
      with h * 3600 + m * 60 + s == time / 10 and m, s below 60; the hour
      field is printed exactly when there is at least one hour. */
  lemma SecToTimeFields(time: int) returns (h: int, m: int, s: int)
    requires time > 0
    ensures h * 3600 + m * 60 + s == time / 10
    ensures h >= 0 && 0 <= m < 60 && 0 <= s < 60
    ensures h == 0 <==> time / 10 < 3600
    ensures time / 10 < 360000 ==> h < 100
    ensures h == 0 ==> SecToTime(time) == UnitFormat(m) + ":" + UnitFormat(s)
    ensures h > 0 ==> SecToTime(time) == UnitFormat(h) + ":" + UnitFormat(m) + ":" + UnitFormat(s)
  {
    var second := time / 10;
    var minute := second / 60;
    if second < 60 {
      h, m, s := 0, 0, second;
      assert UnitFormat(0) == "00";
    } else if minute < 60 {
      h, m, s := 0, minute, second % 60;
    } else {
      h := minute / 60;
      m := minute % 60;
      s := second - h * 3600 - m * 60;
      assert second == minute * 60 + second % 60;
      assert minute == h * 60 + m;
      assert s == second % 60;
    }
  }

  /** `SecToTime` has two ':' when it prints an hour field and one otherwise. */
  lemma SecToTimeColons(time: int)
    ensures Count(SecToTime(time), ':') == if time > 0 && time / 10 >= 3600 then 2 else 1
  {
    if time <= 0 {
      TwoFieldColons("00:00", "00", "00");
    } else {
      var h, m, s := SecToTimeFields(time);
      if h == 0 {
        TwoFieldColons(SecToTime(time), UnitFormat(m), UnitFormat(s));
      } else {
        ThreeFieldColons(SecToTime(time), UnitFormat(h), UnitFormat(m), UnitFormat(s));
      }
    }
  }

  /** Below 100 hours `SecToTime` reads back as `time / 10` seconds
      (zero for a non-positive time). */
  lemma SecToTimeRoundTrip(time: int)
    requires time / 10 < 360000
    ensures ParseClock(SecToTime(time)) == Some(if time <= 0 then 0 else time / 10)
  {
    if time <= 0 {
      ParseTwoFields("00:00", 0, 0);
    } else {
      SecToTimeRoundTripPositive(time);
    }
  }

  lemma SecToTimeRoundTripPositive(time: int)
    requires 0 < time && time / 10 < 360000
    ensures ParseClock(SecToTime(time)) == Some(time / 10)
  {
    var text := SecToTime(time);
    var h, m, s := SecToTimeFields(time);
    if h == 0 {
      ParseTwoFields(text, m, s);
    } else {
      ParseThreeFields(text, h, m, s);
    }
  }

  /** "MM:SS" of two fields below 100 reads back as their value. */
  lemma ParseTwoFields(text: string, m: nat, s: nat)
    requires m < 100 && s < 100 && text == UnitFormat(m) + ":" + UnitFormat(s)
    ensures ParseClock(text) == Some(m * 60 + s)
  {
    ParseMinSec(UnitFormat(m), UnitFormat(s));
  }

  /** "HH:MM:SS" of three fields below 100 reads back as their value. */
  lemma ParseThreeFields(text: string, h: nat, m: nat, s: nat)
    requires h < 100 && m < 100 && s < 100
    requires text == UnitFormat(h) + ":" + UnitFormat(m) + ":" + UnitFormat(s)
    ensures |text| == 8
    ensures ParseClock(text) == Some(h * 3600 + m * 60 + s)
  {
    ParseHourMinSec(UnitFormat(h), UnitFormat(m), UnitFormat(s));
  }

  /** `ToTime` is `SecToTime` with an hour field of "00" added when the
      latter prints none. */
  lemma ToTimeExtendsSecToTime(time: int)
    ensures time > 0 && time / 10 >= 3600 ==> ToTime(time) == SecToTime(time)
    ensures !(time > 0 && time / 10 >= 3600) ==> ToTime(time) == "00:" + SecToTime(time)
  {
    if time > 0 {
      var second := time / 10;
      var minute := second / 60;
      if second < 60 {
        assert "00:00:" + UnitFormat(second) == "00:" + ("00:" + UnitFormat(second));
      } else if minute < 60 {
        assert "00:" + UnitFormat(minute) + ":" + UnitFormat(second % 60)
            == "00:" + (UnitFormat(minute) + ":" + UnitFormat(second % 60));
      }
    }
  }

  /** Below 100 hours `ToTime` has eight characters and reads back as
      `time / 10` seconds (zero for a non-positive time). */
  lemma ToTimeRoundTrip(time: int)
    requires time / 10 < 360000
    ensures |ToTime(time)| == 8
    ensures ParseClock(ToTime(time)) == Some(if time <= 0 then 0 else time / 10)
  {
    if time <= 0 {
      ParseThreeFields("00:00:00", 0, 0, 0);
    } else {
      ToTimeRoundTripPositive(time);
    }
  }

  lemma ToTimeRoundTripPositive(time: int)
    requires 0 < time && time / 10 < 360000
    ensures |ToTime(time)| == 8
    ensures ParseClock(ToTime(time)) == Some(time / 10)
  {
    var text := ToTime(time);
    var h, m, s := SecToTimeFields(time);
    ToTimeFields(time, h, m, s);
    ParseThreeFields(text, h, m, s);
  }

  lemma ToTimeFields(time: int, h: int, m: int, s: int)
    requires time > 0 && h >= 0
    requires h == 0 ==> SecToTime(time) == UnitFormat(m) + ":" + UnitFormat(s)
    requires h > 0 ==> SecToTime(time) == UnitFormat(h) + ":" + UnitFormat(m) + ":" + UnitFormat(s)
    requires h == 0 <==> time / 10 < 3600
    ensures ToTime(time) == UnitFormat(h) + ":" + UnitFormat(m) + ":" + UnitFormat(s)
  {
    ToTimeExtendsSecToTime(time);
    if h == 0 {
      HourPrefix(UnitFormat(m), UnitFormat(s));
    }
  }

  lemma HourPrefix(mm: string, ss: string)
    ensures "00:" + (mm + ":" + ss) == UnitFormat(0) + ":" + mm + ":" + ss
  {
    assert UnitFormat(0) == "00";
  }

  lemma SecToTimeZeroExample()
    ensures SecToTime(0) == "00:00"
  {
  }

  lemma SecToTimeMinuteExample()
    ensures SecToTime(650) == "01:05"
  {
    var h, m, s := SecToTimeFields(650);
    assert h == 0 && m == 1 && s == 5;
    assert UnitFormat(1) == "01" && UnitFormat(5) == "05";
  }

  lemma SecToTimeHourExample(time: int)
    requires time == 36610
    ensures SecToTime(time) == "01:01:01"
  {
    var h, m, s := SecToTimeFields(time);
    OneHourFields(h, m, s);
    OneHourText(SecToTime(time));
  }

  /** 3661 seconds split into fields below 60 give one of each. */
  lemma OneHourFields(h: int, m: int, s: int)
    requires h * 3600 + m * 60 + s == 3661 && h >= 0 && 0 <= m < 60 && 0 <= s < 60
    ensures h == 1 && m == 1 && s == 1
  {
  }

  lemma OneHourText(text: string)
    requires text == UnitFormat(1) + ":" + UnitFormat(1) + ":" + UnitFormat(1)
    ensures text == "01:01:01"
  {
    assert UnitFormat(1) == "01";
  }

  lemma ToTimeExample()
    ensures ToTime(650) == "00:01:05"
  {
    ToTimeExtendsSecToTime(650);
    SecToTimeMinuteExample();
  }

  // ---------------------------------------------------------------------
  // Amplitude of one sample.
  // ---------------------------------------------------------------------

  /** The quadratic stand-in curve applied to a decibel value above -15. */
  function WaveCurve(decibel: real): real
  {
    3.5 * (decibel / 10.0) * (decibel / 10.0) - 32.0
  }

  /** Bar height of one sample: the curve for decibels above -15, a random
      0 or 1 (`jitter`) otherwise, then raised to 1 and capped at `cap`
      (130 dp in pixels). */
  function GetValue(decibel: real, jitter: int, cap: real): (y: real)
    requires 0 <= jitter < 2
    ensures y <= cap
    ensures cap >= 1.0 ==> 1.0 <= y
    ensures cap >= 1.0 && decibel <= -15.0 ==> y == 1.0
    ensures decibel > -15.0 && 1.0 <= WaveCurve(decibel) <= cap ==> y == WaveCurve(decibel)
    ensures decibel > -15.0 && WaveCurve(decibel) > cap ==> y == cap
    ensures decibel > -15.0 && WaveCurve(decibel) < 1.0 ==> y == Min(1.0, cap)
  {
    var y0 := if decibel <= -15.0 then jitter as real else WaveCurve(decibel);
    var y1 := if y0 < 1.0 then 1.0 else y0;
    if y1 > cap then cap else y1
  }

  /** Every decibel value at or below 0 gives the floor height 1. */
  lemma QuietSamplesAreFlat(decibel: real, jitter: int, cap: real)
    requires 0 <= jitter < 2 && cap >= 1.0 && decibel <= 0.0
    ensures GetValue(decibel, jitter, cap) == 1.0
  {
    if decibel > -15.0 {
      var d := decibel / 10.0;
      assert -1.5 < d <= 0.0;
      assert d * d <= 2.25 by {
        assert d * d == (-d) * (-d);
        assert (-d) * (-d) <= 1.5 * (-d) <= 2.25;
      }
    }
  }

  /** A louder sample is never drawn lower. */
  lemma GetValueMonotone(d1: real, j1: int, d2: real, j2: int, cap: real)
    requires 0 <= j1 < 2 && 0 <= j2 < 2 && cap >= 1.0
    requires d1 <= d2
    ensures GetValue(d1, j1, cap) <= GetValue(d2, j2, cap)
  {
    if d1 <= 0.0 {
      QuietSamplesAreFlat(d1, j1, cap);
    } else {
      var a, b := d1 / 10.0, d2 / 10.0;
      assert 0.0 < a <= b;
      assert a * a <= a * b <= b * b;
      assert WaveCurve(d1) <= WaveCurve(d2);
    }
  }

  // ---------------------------------------------------------------------
  // Ruler arithmetic.
  // ---------------------------------------------------------------------

  /** Width in whole pixels of one ruler item: `(int) (rulerWidth + rulerSpace)`. */
  function ItemWidth(rulerWidth: real, rulerSpace: int): int
  {
    JavaIntCast(rulerWidth + rulerSpace as real)
  }

  /** Distance the ruler moves left on every timer tick. */
  function TickStep(rulerWidth: real, rulerSpace: int): (step: real)
    requires ItemWidth(rulerWidth, rulerSpace) >= 1
    ensures step > 0.0
    ensures step * 2.0 == rulerWidth + rulerSpace as real
  {
    (rulerWidth + rulerSpace as real) / 2.0
  }

  lemma FloorShift(n: int, x: real)
    ensures (n as real + x).Floor == n + x.Floor
  {
  }

  /** Number of ruler marks drawn: one per item across the view, plus,
      once the ruler has scrolled left, `(int)` of a tenth of the scrolled
      distance (Java's `count += -offset / 10` on an `int`). */
  function TickCount(viewWidth: int, itemWidth: int, offset: real): (count: int)
    requires 0 <= viewWidth <= IntMax && itemWidth > 0
    ensures count >= viewWidth / itemWidth >= 0
    ensures offset >= 0.0 ==> count == viewWidth / itemWidth
    ensures offset < 0.0 && viewWidth / itemWidth + (-offset / 10.0).Floor <= IntMax
            ==> count == viewWidth / itemWidth + (-offset / 10.0).Floor
  {
    var count := viewWidth / itemWidth;
    if offset < 0.0 then
      var c := JavaIntCast(count as real + -offset / 10.0);
      FloorShift(count, -offset / 10.0);
      JavaIntCastMonotone(count as real, count as real + -offset / 10.0);
      c
    else count
  }

  /** The centre-line time as `drawTextAndRuler` computes it from the position
      `rightX` of mark 0, one branch per sign of `rightX`. */
  function CenterTimeAsWritten(viewWidth: int, pixSecond: real, rightX: real): real
  {
    if rightX < 0.0 then viewWidth as real * pixSecond / 2.0 + Abs(rightX * pixSecond)
    else viewWidth as real * pixSecond / 2.0 - rightX * pixSecond
  }

  /** The time under the centre line, in the ruler's units (ten per item):
      the distance from mark 0 to the middle of the view. */
  function CenterTime(viewWidth: int, itemWidth: int, offset: real): real
    requires itemWidth > 0
  {
    (viewWidth as real / 2.0 - offset) * 10.0 / itemWidth as real
  }

  /** Both branches in `drawTextAndRuler` compute the same closed form. */
  lemma CenterBranchesAgree(viewWidth: int, itemWidth: int, offset: real)
    requires itemWidth > 0
    ensures CenterTimeAsWritten(viewWidth, 10.0 / itemWidth as real, offset) == CenterTime(viewWidth, itemWidth, offset)
  {
    var ps := 10.0 / itemWidth as real;
    assert ps > 0.0;
    if offset < 0.0 {
      assert offset * ps < 0.0;
      assert Abs(offset * ps) == -(offset * ps);
    }
    assert (viewWidth as real / 2.0 - offset) * ps == viewWidth as real * ps / 2.0 - offset * ps;
  }

  /** At the initial offset (half the view, in whole pixels) the centre time
      is 0 for an even width and never negative. */
  lemma CenterTimeAtStart(viewWidth: int, itemWidth: int)
    requires viewWidth >= 0 && itemWidth > 0
    ensures CenterTime(viewWidth, itemWidth, (viewWidth / 2) as real) >= 0.0
    ensures viewWidth % 2 == 0 ==> CenterTime(viewWidth, itemWidth, (viewWidth / 2) as real) == 0.0
  {
    assert viewWidth as real / 2.0 - (viewWidth / 2) as real == (viewWidth % 2) as real / 2.0;
  }

  /** The centre time is never negative while the ruler has not moved right
      of its initial offset. */
  lemma CenterTimeNonNegative(viewWidth: int, itemWidth: int, offset: real)
    requires viewWidth >= 0 && itemWidth > 0 && offset <= (viewWidth / 2) as real
    ensures CenterTime(viewWidth, itemWidth, offset) >= 0.0
  {
    assert viewWidth as real / 2.0 - (viewWidth / 2) as real == (viewWidth % 2) as real / 2.0;
    assert viewWidth as real / 2.0 - offset >= 0.0;
  }

  /** Moving the ruler left by `step` advances the centre time by
      `step * 10 / itemWidth`, so every tick strictly increases it. */
  lemma CenterTimeAdvances(viewWidth: int, itemWidth: int, offset: real, step: real)
    requires itemWidth > 0 && step > 0.0
    ensures CenterTime(viewWidth, itemWidth, offset - step)
            == CenterTime(viewWidth, itemWidth, offset) + step * 10.0 / itemWidth as real
    ensures CenterTime(viewWidth, itemWidth, offset - step) > CenterTime(viewWidth, itemWidth, offset)
  {
    var w, k := viewWidth as real / 2.0, 10.0 / itemWidth as real;
    assert (w - (offset - step)) * 10.0 / itemWidth as real == (w - (offset - step)) * k;
    assert (w - offset) * 10.0 / itemWidth as real == (w - offset) * k;
    assert step * 10.0 / itemWidth as real == step * k;
    assert (w - (offset - step)) * k == (w - offset) * k + step * k;
  }

  /** The label sent to the listener: `toTime((int) currentSecond / 10)`. */
  function RecordedLabel(currentSecond: real): string
  {
    ToTime(Quot(JavaIntCast(currentSecond), 10))
  }

  /** One ruler mark at position `x`; every tenth carries a time label. */
  datatype RulerMark = Major(x: real, text: string) | Minor(x: real)

  /** Mark `i` of a ruler whose items are `itemWidth` wide and whose mark 0
      is at `offset`. */
  predicate MarkAt(m: RulerMark, i: int, itemWidth: int, offset: real)
  {
    && m.x == (i * itemWidth) as real + offset
    && (m.Major? <==> i % 10 == 0)
    && (m.Major? ==> m.text == SecToTime(i))
  }

  /** Every mark of `marks` is the mark of its own index. */
  predicate MarksInOrder(marks: seq<RulerMark>, itemWidth: int, offset: real)
  {
    forall i :: 0 <= i < |marks| ==> MarkAt(marks[i], i, itemWidth, offset)
  }

  lemma MarksInOrderExtend(marks: seq<RulerMark>, mark: RulerMark, itemWidth: int, offset: real)
    requires MarksInOrder(marks, itemWidth, offset) && MarkAt(mark, |marks|, itemWidth, offset)
    ensures MarksInOrder(marks + [mark], itemWidth, offset)
  {
    var next := marks + [mark];
    forall i | 0 <= i < |next|
      ensures MarkAt(next[i], i, itemWidth, offset)
    {
      if i < |marks| {
        assert next[i] == marks[i];
      }
    }
  }

  // ---------------------------------------------------------------------
  // The view's state.
  // ---------------------------------------------------------------------

  class AudioRecordView {
    /** Ruler line width and spacing in pixels (0.8 dp and (int) 6 dp). */
    const rulerWidth: real
    const rulerSpace: int
    /** Highest bar height in pixels (130 dp). */
    const heightCap: real
    /** The tick's random sample lies in [sampleMin, sampleMax] ((int) 10 dp, (int) 20 dp). */
    const sampleMin: int
    const sampleMax: int

    /** The view width in pixels, known once the surface is available. */
    var width: int
    var initPix: real
    var pixOffset: real
    var pixSecond: real
    var currentSecond: real
    var decibel: int
    /** Amplitude samples, newest first. */
    var waveData: seq<int>
    /** Labels reported to the listener, oldest first. */
    ghost var recordedTimes: seq<string>

    ghost predicate Valid()
      reads this
    {
      && ItemWidth(rulerWidth, rulerSpace) >= 1
      && heightCap >= 1.0
      && 0 <= sampleMin <= sampleMax && 1 <= sampleMax
      && 0 <= width <= IntMax
      && initPix == (width / 2) as real
      && pixOffset <= initPix
      && currentSecond >= 0.0
    }

    /** What one pass of the ruler drawing leaves behind: the marks across
        the view and, when at least one mark is drawn, the centre time. */
    ghost predicate RulerDrawn(marks: seq<RulerMark>, prevSecond: real)
      reads this
      requires Valid()
    {
      var item := ItemWidth(rulerWidth, rulerSpace);
      var count := TickCount(width, item, pixOffset);
      && pixSecond == 10.0 / item as real
      && |marks| == count
      && MarksInOrder(marks, item, pixOffset)
      && currentSecond == (if count > 0 then CenterTime(width, item, pixOffset) else prevSecond)
    }

    constructor (rulerWidth: real, rulerSpace: int, heightCap: real, sampleMin: int, sampleMax: int)
      requires ItemWidth(rulerWidth, rulerSpace) >= 1 && heightCap >= 1.0
      requires 0 <= sampleMin <= sampleMax && 1 <= sampleMax
      ensures Valid()
      ensures this.rulerWidth == rulerWidth && this.rulerSpace == rulerSpace && this.heightCap == heightCap
      ensures this.sampleMin == sampleMin && this.sampleMax == sampleMax
      ensures width == 0 && initPix == 0.0 && pixOffset == 0.0 && pixSecond == 0.0 && currentSecond == 0.0
      ensures decibel == 0 && waveData == [] && recordedTimes == []
    {
      this.rulerWidth, this.rulerSpace, this.heightCap := rulerWidth, rulerSpace, heightCap;
      this.sampleMin, this.sampleMax := sampleMin, sampleMax;
      width, initPix, pixOffset, pixSecond, currentSecond := 0, 0.0, 0.0, 0.0, 0.0;
      decibel, waveData := 0, [];
      recordedTimes := [];
    }

    /** Records one amplitude sample at the front of the list. */
    method SetDecibel(db: real, jitter: int)
      requires Valid() && 0 <= jitter < 2
      modifies this`decibel, this`waveData
      ensures Valid()
      ensures decibel == JavaIntCast(GetValue(db, jitter, heightCap))
      ensures 1 <= decibel && decibel as real <= heightCap
      ensures waveData == [decibel] + old(waveData)
    {
      var y := GetValue(db, jitter, heightCap);
      decibel := JavaIntCast(y);
      JavaIntCastMonotone(1.0, y);
      JavaIntCastMonotone(y, heightCap);
      waveData := [decibel] + waveData;
    }

    /** Enumerates the ruler marks across the view and sets the centre time
        while handling mark 0. */
    method DrawTextAndRuler() returns (marks: seq<RulerMark>)
      requires Valid()
      modifies this`pixSecond, this`currentSecond
      ensures Valid()
      ensures RulerDrawn(marks, old(currentSecond))
    {
      var viewWidth := width;
      var itemWidth := ItemWidth(rulerWidth, rulerSpace);
      pixSecond := 10.0 / itemWidth as real;
      var count := viewWidth / itemWidth;
      if pixOffset < 0.0 {
        count := JavaIntCast(count as real + -pixOffset / 10.0);
      }
      assert count == TickCount(viewWidth, itemWidth, pixOffset);
      marks := [];
      var index := 0;
      while index < count
        invariant 0 <= index <= count
        invariant pixSecond == 10.0 / itemWidth as real
        invariant |marks| == index
        invariant MarksInOrder(marks, itemWidth, pixOffset)
        invariant currentSecond == (if index > 0 then CenterTime(viewWidth, itemWidth, pixOffset) else old(currentSecond))
        invariant currentSecond >= 0.0
      {
        var rightX := (index * itemWidth) as real + pixOffset;
        if index == 0 {
          currentSecond := CenterTimeAsWritten(viewWidth, pixSecond, rightX);
          CenterBranchesAgree(viewWidth, itemWidth, pixOffset);
          CenterTimeNonNegative(viewWidth, itemWidth, pixOffset);
        }
        var divisor := 10;
        var mark := if index % divisor == 0 then Major(rightX, SecToTime(index)) else Minor(rightX);
        assert MarkAt(mark, index, itemWidth, pixOffset);
        MarksInOrderExtend(marks, mark, itemWidth, pixOffset);
        marks := marks + [mark];
        index := index + 1;
      }
    }

    /** Redraws (when a canvas could be locked) and reports the recorded time. */
    method RefreshCanvas(canvasLocked: bool) returns (marks: seq<RulerMark>)
      requires Valid()
      modifies this`pixSecond, this`currentSecond, this`recordedTimes
      ensures Valid()
      ensures canvasLocked ==> RulerDrawn(marks, old(currentSecond))
      ensures !canvasLocked ==> marks == [] && pixSecond == old(pixSecond) && currentSecond == old(currentSecond)
      ensures recordedTimes == old(recordedTimes) + [RecordedLabel(currentSecond)]
    {
      marks := [];
      if canvasLocked {
        marks := DrawTextAndRuler();
      }
      recordedTimes := recordedTimes + [RecordedLabel(currentSecond)];
    }

    /** The surface became available: the ruler starts half a view in. */
    method SurfaceTextureAvailable(viewWidth: int, canvasLocked: bool) returns (marks: seq<RulerMark>)
      requires Valid() && 0 <= viewWidth <= IntMax
      modifies this`width, this`initPix, this`pixOffset, this`pixSecond, this`currentSecond, this`recordedTimes
      ensures Valid()
      ensures width == viewWidth && initPix == (viewWidth / 2) as real && pixOffset == initPix
      ensures canvasLocked ==> RulerDrawn(marks, old(currentSecond))
      ensures !canvasLocked ==> marks == [] && pixSecond == old(pixSecond) && currentSecond == old(currentSecond)
      ensures recordedTimes == old(recordedTimes) + [RecordedLabel(currentSecond)]
    {
      width := viewWidth;
      initPix := (viewWidth / 2) as real;
      pixOffset := initPix;
      marks := RefreshCanvas(canvasLocked);
    }

    /** One timer tick: the ruler moves left by half an item, a sample drawn
        from `draw` (the random `nextInt(sampleMax)`) is recorded, and the
        view is refreshed. */
    method Tick(draw: int, canvasLocked: bool) returns (marks: seq<RulerMark>)
      requires Valid() && 0 <= draw < sampleMax
      modifies this`pixOffset, this`decibel, this`waveData, this`pixSecond, this`currentSecond, this`recordedTimes
      ensures Valid()
      ensures pixOffset == old(pixOffset) - TickStep(rulerWidth, rulerSpace)
      ensures var sample := draw % (sampleMax - sampleMin + 1) + sampleMin;
              && sampleMin <= sample <= sampleMax
              && decibel == JavaIntCast(GetValue(sample as real, 0, heightCap))
      ensures 1 <= decibel && decibel as real <= heightCap
      ensures waveData == [decibel] + old(waveData)
      ensures canvasLocked ==> RulerDrawn(marks, old(currentSecond))
      ensures !canvasLocked ==> marks == [] && pixSecond == old(pixSecond) && currentSecond == old(currentSecond)
      ensures recordedTimes == old(recordedTimes) + [RecordedLabel(currentSecond)]
    {
      pixOffset := pixOffset - (rulerWidth + rulerSpace as real) / 2.0;
      var max, min := sampleMax, sampleMin;
      var s := draw % (max - min + 1) + min;
      SetDecibel(s as real, 0);
      marks := RefreshCanvas(canvasLocked);
    }

    /** Clears the samples and puts the ruler back at its initial offset. */
    method Reset(canvasLocked: bool) returns (marks: seq<RulerMark>)
      requires Valid()
      modifies this`waveData, this`pixOffset, this`pixSecond, this`currentSecond, this`recordedTimes
      ensures Valid()
      ensures waveData == [] && pixOffset == initPix
      ensures canvasLocked ==> RulerDrawn(marks, old(currentSecond))
      ensures !canvasLocked ==> marks == [] && pixSecond == old(pixSecond) && currentSecond == old(currentSecond)
      ensures recordedTimes == old(recordedTimes) + [RecordedLabel(currentSecond)]
    {
      waveData := [];
      pixOffset := initPix;
      marks := RefreshCanvas(canvasLocked);
    }
  }
}
