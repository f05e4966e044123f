# RecordAudio view logic in Dafny

This project models the logic of the RecordAudio Android demo: its two
custom views and one formatter. Drawing and Android plumbing are left out.

- **Clip range selector** (`AudioClipView`, module `ClipView`). A class with
  the left thumb, right thumb and cursor rectangles and the selected band
  (`mRectF`). It also holds the gesture state, the last pointer X, the
  minimum and maximum durations, and the pixel gaps they map to. The model
  covers:
  - the touch state machine: the down hit test, thumb and cursor drags with
    the minimum-gap rules, and clamping the cursor between the thumbs;
  - placing the cursor from a playback time, and the delayed snap-back;
  - the duration setters and the delayed width-dependent setup (`initPx`);
  - the time <-> pixel formulas reported to the scroll listener.

  The quirks of the code are kept as written:
  - an accepted left drag sets the right edge from the *right* thumb's width;
  - a rejected drag moves only one edge of the thumb;
  - the cursor hit interval starts at the left thumb plus the right thumb's
    width.
- **Recording timeline** (`AudioRecordView`, module `RecordView`). A class
  with the ruler offset, the time per pixel (`mPixSecond`, ten ruler units
  per item), the centre time and the
  newest-first list of amplitude samples. It has the timer tick, `reset`,
  `setDecibel`, the surface-available setup, and the ruler pass of
  `drawTextAndRuler`. The ruler pass yields its marks: positions,
  major/minor, labels. The pure parts are functions:
  - the amplitude curve `getValue`;
  - the ruler arithmetic (item width, tick step, mark count, centre time);
  - the formatters `unitFormat`, `secToTime` and `toTime`.
- **`ClipActivity.intToTime`** (module `ClipActivity`), the "MM:SS" formatter.

Two helper modules are shared:
- `JavaNumbers` models Java's `(int)` cast of a float: truncation toward
  zero, saturation at the 32-bit bounds, and a float division by zero
  giving an infinity or NaN. It also models Java's truncating integer `/`.
- `Decimal` models Java's `"" + i`. It also has `ParseClock`, which reads
  "MM:SS" and "HH:MM:SS" texts back. It is the independent reference for
  the formatter round trips.

Pixels and floating-point values are exact `real`s. The listener
notifications are ghost sequences of events. The delayed runnables are
methods the caller invokes: `InitPx`, `SnapBack`, and `Tick` for the
`Handler` message. Counters record how many are posted. Random draws are
parameters: the tick's sample, and `getValue`'s 0-or-1 `jitter`. The
Android display constants are also parameters: the bitmap and cursor
widths, the ruler sizes, the 130 dp cap, and the sample range.

Two behaviours differ from a natural reading of the API; the model follows the code:
- `setMinInterval` and `setMaxInterval` ignore an out-of-range value. They
  do not clamp it.
- A left drag past the right thumb puts the left edge at
  `right.right - 2 * rightW`. With equal thumb widths the band width is
  then 0, not the minimum gap (`ClipView.LeftOvershootCollapsesBand`).

## Model

| member | source | states |
|---|---|---|
| JavaNumbers.JavaIntCast | app/src/main/java/com/demo/recordaudio/AudioRecordView.java:200 | Java's `(int)` of a float: within the int range, truncation toward zero; saturates at the bounds |
| JavaNumbers.CastQuotient | app/src/main/java/com/demo/recordaudio/AudioClipView.java:172 | `(int) (num / den)` is always a 32-bit `int`; for `num >= 0` and `den > 0` it is non-negative and, below `Integer.MAX_VALUE`, its whole part; dividing by zero gives a result with the sign of `num` (0 for 0/0) |
| JavaNumbers.Quot | app/src/main/java/com/demo/recordaudio/AudioRecordView.java:268 | Java int `/` truncates toward zero: agrees with floor division on non-negative operands; for a positive divisor, the remainder has the dividend's sign and is smaller than the divisor |
| JavaNumbers.Trunc | app/src/main/java/com/demo/recordaudio/AudioRecordView.java:268 | the integer toward zero within distance 1 of `x` |
| JavaNumbers.JavaIntCastMonotone | app/src/main/java/com/demo/recordaudio/AudioRecordView.java:200 | the cast never reverses order |
| JavaNumbers.TruncMonotone | app/src/main/java/com/demo/recordaudio/AudioRecordView.java:268 | truncation toward zero never reverses order |
| Decimal.NatToString | app/src/main/java/com/demo/recordaudio/AudioRecordView.java:326 | decimal digits of `n`, no leading zero, reading back as `n`; one digit iff `n < 10`, two for 10..99 |
| Decimal.IntToString | app/src/main/java/com/demo/recordaudio/AudioRecordView.java:326 | `"" + i`: decimal digits without a leading zero that read back as `i`; for a negative `i` a '-' followed by digits reading back as `-i` |
| ClipActivity.IntToTime | app/src/main/java/com/demo/recordaudio/ClipActivity.java:49-51 | "00:00" for every non-positive input |
| ClipActivity.Padded | app/src/main/java/com/demo/recordaudio/ClipActivity.java:54-64 | a field reads back as its value, is at least two wide, and starts with '0' exactly when the value is below ten |
| ClipActivity.IntToTimeFields | app/src/main/java/com/demo/recordaudio/ClipActivity.java:53-64 | a positive input prints as minutes field ':' seconds field, with minutes * 60 + seconds == input and seconds < 60; minutes is `input / 60`; each field starts with '0' exactly when below ten |
| ClipActivity.IntToTimeOneColon | app/src/main/java/com/demo/recordaudio/ClipActivity.java:53-65 | exactly one ':' for every input, so minutes are never folded into hours |
| ClipActivity.IntToTimeRoundTrip | app/src/main/java/com/demo/recordaudio/ClipActivity.java:53-65 | for 0 < s < 6000: five characters, and `ParseClock` gives back `s` |
| ClipActivity.IntToTimeExample | app/src/main/java/com/demo/recordaudio/ClipActivity.java:48-66 | 65 seconds print as "01:05" |
| ClipActivity.IntToTimeHourExample | app/src/main/java/com/demo/recordaudio/ClipActivity.java:48-66 | 3600 seconds print as "60:00": minutes are not carried into hours |
| ClipActivity.IntToTimeWideExample | app/src/main/java/com/demo/recordaudio/ClipActivity.java:48-66 | 6000 seconds print as "100:00": the minutes field widens past two digits |
| RecordView.UnitFormat | app/src/main/java/com/demo/recordaudio/AudioRecordView.java:322-328 | for i >= 0 the digits of `i`, at least two wide, with a leading '0' exactly when i < 10; two wide for 0..99; a negative `i` prints as `"" + i` |
| RecordView.SecToTime | app/src/main/java/com/demo/recordaudio/AudioRecordView.java:337-357 | the text of `secToTime`, branch by branch; its meaning is proved by `SecToTimeFields`, `SecToTimeRoundTrip` and `SecToTimeColons` |
| RecordView.ToTime | app/src/main/java/com/demo/recordaudio/AudioRecordView.java:359-379 | the text of `toTime`, branch by branch; its meaning is proved by `ToTimeExtendsSecToTime` and `ToTimeRoundTrip` |
| RecordView.SecToTimeFields | app/src/main/java/com/demo/recordaudio/AudioRecordView.java:337-357 | for t > 0 the fields satisfy h * 3600 + m * 60 + s == t / 10 with m, s < 60; the hour field is printed exactly when t / 10 >= 3600 |
| RecordView.SecToTimeColons | app/src/main/java/com/demo/recordaudio/AudioRecordView.java:337-357 | two ':' with an hour field, one otherwise, including "00:00" for t <= 0 |
| RecordView.SecToTimeRoundTrip | app/src/main/java/com/demo/recordaudio/AudioRecordView.java:337-357 | below 100 hours the text reads back as t / 10 seconds, or 0 for t <= 0 |
| RecordView.ToTimeExtendsSecToTime | app/src/main/java/com/demo/recordaudio/AudioRecordView.java:359-379 | `toTime` == `secToTime` from one hour on, and "00:" + `secToTime` otherwise, including "00:00:00" for t <= 0 |
| RecordView.ToTimeRoundTrip | app/src/main/java/com/demo/recordaudio/AudioRecordView.java:359-379 | below 100 hours: eight characters, reading back as t / 10 seconds, or 0 for t <= 0 |
| RecordView.SecToTimeZeroExample | app/src/main/java/com/demo/recordaudio/AudioRecordView.java:337-356 | time 0 prints as "00:00" |
| RecordView.SecToTimeMinuteExample | app/src/main/java/com/demo/recordaudio/AudioRecordView.java:337-356 | time 650 (65 s) prints as "01:05" |
| RecordView.SecToTimeHourExample | app/src/main/java/com/demo/recordaudio/AudioRecordView.java:349-354 | time 36610 (3661 s) prints as "01:01:01": from one hour on an hour field is added |
| RecordView.ToTimeExample | app/src/main/java/com/demo/recordaudio/AudioRecordView.java:358-379 | toTime(650) prints as "00:01:05": the hour field is always present |
| RecordView.WaveCurve | app/src/main/java/com/demo/recordaudio/AudioRecordView.java:177-178 | the quadratic `3.5 * (db / 10)^2 - 32` applied above -15 dB; its effect on the bar is stated by `GetValue`, `QuietSamplesAreFlat` and `GetValueMonotone` |
| RecordView.GetValue | app/src/main/java/com/demo/recordaudio/AudioRecordView.java:172-191 | result in [1, cap]; 1 at or below -15 dB; above -15 dB the curve 3.5 (d/10)^2 - 32 raised to 1 and capped |
| RecordView.QuietSamplesAreFlat | app/src/main/java/com/demo/recordaudio/AudioRecordView.java:174-183 | every decibel value <= 0 gives height 1 |
| RecordView.GetValueMonotone | app/src/main/java/com/demo/recordaudio/AudioRecordView.java:172-191 | a louder sample is never drawn lower |
| RecordView.ItemWidth | app/src/main/java/com/demo/recordaudio/AudioRecordView.java:291 | the `(int)` cast of ruler width plus spacing: the pixels per ruler item; used by `TickCount`, `CenterTime` and `DrawTextAndRuler` |
| RecordView.TickStep | app/src/main/java/com/demo/recordaudio/AudioRecordView.java:120 | the per-tick step is positive and exactly half of ruler width plus spacing |
| RecordView.TickCount | app/src/main/java/com/demo/recordaudio/AudioRecordView.java:293-296 | `viewWidth / itemWidth` marks, plus the floor of a tenth of the scrolled distance once the offset is negative |
| RecordView.CenterTimeAsWritten | app/src/main/java/com/demo/recordaudio/AudioRecordView.java:302-307 | the centre time from mark 0's position, one branch per sign of `rightX`; `CenterBranchesAgree` proves both equal the closed form `CenterTime` |
| RecordView.CenterBranchesAgree | app/src/main/java/com/demo/recordaudio/AudioRecordView.java:292-307 | both sign branches of the centre-time formula equal (viewWidth / 2 - offset) * 10 / itemWidth |
| RecordView.CenterTimeAtStart | app/src/main/java/com/demo/recordaudio/AudioRecordView.java:435-436 | at the initial offset the centre time is never negative, and it is 0 for an even width |
| RecordView.CenterTimeNonNegative | app/src/main/java/com/demo/recordaudio/AudioRecordView.java:301-307 | the centre time is non-negative while the offset is at most its initial value |
| RecordView.CenterTimeAdvances | app/src/main/java/com/demo/recordaudio/AudioRecordView.java:120 | moving the ruler left by `step` adds step * 10 / itemWidth to the centre time, so it strictly increases |
| RecordView.RecordedLabel | app/src/main/java/com/demo/recordaudio/AudioRecordView.java:268 | the label reported after each redraw, `toTime((int) mCurrentSecond / 10)`; `RefreshCanvas` appends it and `ToTimeRoundTrip` fixes its meaning |
| RecordView.AudioRecordView.constructor | app/src/main/java/com/demo/recordaudio/AudioRecordView.java:79-102 | zero offset, zero centre time, no samples |
| RecordView.AudioRecordView.SetDecibel | app/src/main/java/com/demo/recordaudio/AudioRecordView.java:199-207 | stores `(int) getValue(db)`, which lies in [1, cap], and prepends it to the sample list |
| RecordView.AudioRecordView.DrawTextAndRuler | app/src/main/java/com/demo/recordaudio/AudioRecordView.java:289-320 | `TickCount` marks; mark i at i * itemWidth + offset, major exactly when i % 10 == 0 and labelled `secToTime(i)`; the centre time set from mark 0 |
| RecordView.AudioRecordView.RefreshCanvas | app/src/main/java/com/demo/recordaudio/AudioRecordView.java:257-270 | draws the ruler only when a canvas is available, then reports `toTime((int) currentSecond / 10)` |
| RecordView.AudioRecordView.SurfaceTextureAvailable | app/src/main/java/com/demo/recordaudio/AudioRecordView.java:434-438 | initial offset = offset = width / 2 in whole pixels, then a refresh |
| RecordView.AudioRecordView.Tick | app/src/main/java/com/demo/recordaudio/AudioRecordView.java:119-126 | offset decreases by exactly (rulerWidth + rulerSpace) / 2; exactly one sample in [min, max] is prepended with the earlier ones behind it in order; then a refresh |
| RecordView.AudioRecordView.Reset | app/src/main/java/com/demo/recordaudio/AudioRecordView.java:160-164 | the sample list is empty, the offset is back at its initial value, then a refresh |
| ClipView.PxToTime | app/src/main/java/com/demo/recordaudio/AudioClipView.java:157-172 | the reported time of a position, `(int) ((px - origin) * maxMs / maxIntervalPx)`; its meaning is proved by `PxToTimeMonotone`, `PxToTimeEnds` and `TimePxRoundTrip` |
| ClipView.TimeToPx | app/src/main/java/com/demo/recordaudio/AudioClipView.java:252 | the track position of a time, `time * maxIntervalPx / maxMs + origin`; `TimePxRoundTrip` and `PxTimeRoundTrip` relate it to `PxToTime` |
| ClipView.TimePxRoundTrip | app/src/main/java/com/demo/recordaudio/AudioClipView.java:252 | a time placed on the track by the cursor formula reads back through the report formula as `(int)` of that time |
| ClipView.PxTimeRoundTrip | app/src/main/java/com/demo/recordaudio/AudioClipView.java:172 | the exact pixel -> time -> pixel mapping is the identity |
| ClipView.PxToTimeMonotone | app/src/main/java/com/demo/recordaudio/AudioClipView.java:157 | a position further right never reports an earlier time |
| ClipView.PxToTimeEnds | app/src/main/java/com/demo/recordaudio/AudioClipView.java:157-161 | the origin reports 0 ms; a full gap of `maxIntervalPx` reports `maxMs` |
| ClipView.MinIntervalPx | app/src/main/java/com/demo/recordaudio/AudioClipView.java:187 | the minimum gap is the maximum gap scaled by min / max, so it lies between 0 and the maximum gap when min <= max |
| ClipView.LeftThumbDrag | app/src/main/java/com/demo/recordaudio/AudioClipView.java:395-407 | proposed left edge `max(left + dx, 0)`, never negative; accepted exactly when the band would stay wider than the minimum gap (for a non-negative minimum gap), and then the band is strictly wider; accepted right edge = edge + right thumb width; a gap rejection leaves the band exactly the minimum gap; an overshoot sets the left edge to `right.right - 2 * rightW`; a rejection moves only the left edge |
| ClipView.RightThumbDrag | app/src/main/java/com/demo/recordaudio/AudioClipView.java:410-422 | proposed right edge `min(right + dx, width)`, never beyond the view; accepted exactly when the band would stay wider than the minimum gap (for a non-negative minimum gap); a gap rejection leaves the band exactly the minimum gap; an overshoot sets the right edge to `left.left + 2 * leftW`; a rejection moves only the right edge |
| ClipView.AcceptedLeftDragKeepsThumbsApart | app/src/main/java/com/demo/recordaudio/AudioClipView.java:397-399 | with equal thumb widths, an accepted left drag keeps the left thumb before the right one |
| ClipView.LeftOvershootCollapsesBand | app/src/main/java/com/demo/recordaudio/AudioClipView.java:405-407 | on a 1000 px track with 50 px thumbs, a +2000 px left drag gives edge 900 and band width 0 |
| ClipView.ClampCentre | app/src/main/java/com/demo/recordaudio/AudioClipView.java:435-442 | the clamped centre never passes the right bound; it lies in [lo, hi] when that is non-empty, and is unchanged inside it |
| ClipView.AudioClipView.constructor | app/src/main/java/com/demo/recordaudio/AudioClipView.java:193-217 | left thumb at [0, leftW], band starting at leftW, cursor centred on the left thumb's right edge, defaults 5000 / 120000 ms and 200 px, `initPx` posted |
| ClipView.AudioClipView.OnSizeChanged | app/src/main/java/com/demo/recordaudio/AudioClipView.java:292-302 | the right thumb ends at the new width, and the band ends at its left edge |
| ClipView.AudioClipView.SetEnabled | app/src/main/java/com/demo/recordaudio/AudioClipView.java:366 | the enabled flag that `onTouchEvent` reads through `isEnabled()` is set to the given value; nothing else changes and the view's invariant is kept |
| ClipView.AudioClipView.SetMinInterval | app/src/main/java/com/demo/recordaudio/AudioClipView.java:225-230 | stores the value only if it lies in [5000, 120000], otherwise keeps the old one; posts `initPx` |
| ClipView.AudioClipView.SetMaxInterval | app/src/main/java/com/demo/recordaudio/AudioClipView.java:237-242 | the same rule for the maximum duration |
| ClipView.AudioClipView.InitPx | app/src/main/java/com/demo/recordaudio/AudioClipView.java:185-188 | with a width, max gap = width - leftW - rightW and min gap = max gap * min / max, so 0 <= min gap <= max gap when min <= max; with width 0 nothing changes |
| ClipView.AudioClipView.MoveCursorToStart | app/src/main/java/com/demo/recordaudio/AudioClipView.java:460-467 | cursor centre on the left thumb's right edge; a no-op before layout |
| ClipView.AudioClipView.UpdateCursorCallback | app/src/main/java/com/demo/recordaudio/AudioClipView.java:169-178 | reports the cursor centre and `(int) ((centre - leftW) * maxMs / maxIntervalPx)` |
| ClipView.AudioClipView.UpdateThumbCallback | app/src/main/java/com/demo/recordaudio/AudioClipView.java:151-167 | reports the left thumb's right edge measured from leftW, or the right thumb's left edge measured from rightW |
| ClipView.AudioClipView.UpdateCursor | app/src/main/java/com/demo/recordaudio/AudioClipView.java:248-273 | a no-op before layout; otherwise centre = t * maxIntervalPx / maxMs + leftW capped at the right thumb; reported; an uncapped centre reports `(int) t`; reaching the right thumb posts a snap-back |
| ClipView.AudioClipView.SnapBack | app/src/main/java/com/demo/recordaudio/AudioClipView.java:264-271 | the posted snap-back puts the cursor on the left thumb's right edge and reports it |
| ClipView.AudioClipView.OnDown | app/src/main/java/com/demo/recordaudio/AudioClipView.java:372-389 | three strict open intervals tested in order give LEFT, RIGHT or CURSOR, else NONE and not consumed; the last X is set in every case; nothing else changes |
| ClipView.AudioClipView.DragLeftThumb | app/src/main/java/com/demo/recordaudio/AudioClipView.java:394-408 | the left thumb becomes `LeftThumbDrag`'s rectangle; an accepted drag puts the cursor on the left thumb and reports the thumb |
| ClipView.AudioClipView.DragRightThumb | app/src/main/java/com/demo/recordaudio/AudioClipView.java:409-423 | the right thumb becomes `RightThumbDrag`'s rectangle; an accepted drag puts the cursor on the left thumb and reports the thumb |
| ClipView.AudioClipView.ClampCursor | app/src/main/java/com/demo/recordaudio/AudioClipView.java:435-442 | the cursor centre becomes `ClampCentre` of the old centre between the thumbs, and its width is kept |
| ClipView.AudioClipView.MoveDraggedPart | app/src/main/java/com/demo/recordaudio/AudioClipView.java:392-430 | the dragged thumb moves, or the cursor moves under the pointer; NONE is not consumed and changes nothing |
| ClipView.AudioClipView.FinishMove | app/src/main/java/com/demo/recordaudio/AudioClipView.java:431-444 | last X = move X; band = [left.left + leftW, right.right - rightW]; cursor clamped and reported |
| ClipView.AudioClipView.OnMove | app/src/main/java/com/demo/recordaudio/AudioClipView.java:391-446 | consumed exactly when a drag is in progress; the dragged thumb takes the drag function's rectangle; band = [left.left + leftW, right.right - rightW]; the cursor centre is the clamp of its dragged position and lies between the thumbs whenever that interval is non-empty; reports: the accepted thumb, then the cursor; last X = move X; a move in NONE changes nothing |
| ClipView.AudioClipView.OnTouchEvent | app/src/main/java/com/demo/recordaudio/AudioClipView.java:364-455 | a disabled view returns false and changes nothing; down and move as above; up and cancel return true and reset to NONE; other actions are ignored |

## Left out

- Rendering is left out. This covers `onDraw` with its random waveform bars, `drawRecodeArea`, `draText`, `drawCenterLine`, `drawDecibel` and the canvas calls in `drawTextAndRuler`. They only paint. The ruler pass returns its marks instead of drawing them.
- Attribute and bitmap loading (`getAttr`, `BitmapFactory`), `onMeasure`, paints and colours are left out. They are Android resources. Their results enter as constructor parameters.
- `DisplayKit` is not part of this model. Its dp/sp conversions depend on the device, so their values are parameters.
- `start`, `stop` and the `Handler` re-posting are left out, and so is `postDelayed`'s timing. They are scheduling. The posted work is the `Tick`, `InitPx` and `SnapBack` methods, and counters record what is pending.
- `java.util.Random` is replaced by parameters. The unused draw `s` in `setDecibel` is dropped, and so is the level-meter draw.
- `Log` calls, `MainActivity`, `ClipActivity.onCreate` and the listener registration are left out. They are logging and activity wiring. The listeners are taken as registered, so every report is recorded.
- `lockCanvas` and `unlockCanvasAndPost` are replaced by a `canvasLocked` flag. Posting a null canvas is not modelled. The empty `onSurfaceTextureSizeChanged`, `onSurfaceTextureDestroyed` and `onSurfaceTextureUpdated` are left out.
- `getStart` and `getEnd` are left out. They are private getters of the band that nothing calls. The `ScrollInfo` class is the `ScrollEvent` datatype.
- IEEE float rounding is not modelled. Pixel values are exact reals, so the equality test `index == mRightRectF.left` in `updateCursor` is exact here.
- The rectangles' top and bottom, and the whole `mWaveRectF`, are left out. They only matter for drawing.
- The view's width is the value last given to `onSizeChanged` or `onSurfaceTextureAvailable`. Any other change of `getWidth()` is not modelled.
- ClipView.AudioClipView.UpdateThumbCallback: the cursor time it computes and never uses is not modelled.
- RecordView.AudioRecordView.DrawTextAndRuler: the 32-bit `int` product `index * itemWidth` is taken as exact. It would need more than 10^7 marks to overflow.
- RecordView.TickCount: the closed form is stated only while the count fits in an `int`. Past that the cast saturates, and the contract only says the count is at least `viewWidth / itemWidth`.
- RecordView.GetValue: the random 0-or-1 height at or below -15 dB is the `jitter` parameter.
