/** The seconds-to-"MM:SS" formatter of the clip screen, which labels the
    times that the clip view reports. */
module ClipActivity {
  import opened Decimal

  /** A whole number of seconds as minutes and seconds, each padded with one
      leading "0" when below ten. Minutes are never carried into hours. */
  function IntToTime(seconds: int): (time: string)
    ensures seconds <= 0 ==> time == "00:00"
  {
    if seconds <= 0 then "00:00"
    else
      var min := seconds / 60;
      var head := if min < 10 then "0" + IntToString(min) + ":" else IntToString(min) + ":";
      var sec := seconds - min * 60;
      if sec < 10 then head + "0" + IntToString(sec) else head + IntToString(sec)
  }

  /** One field of `IntToTime`, as it pads a non-negative value. */
  function Padded(n: nat): (s: string)
    ensures AllDigits(s) && ValueOf(s) == n && |s| >= 2
    ensures s[0] == '0' <==> n < 10
    ensures n < 100 ==> |s| == 2
  {
    if n < 10 then
      var d := NatToString(n);
      var s := "0" + d;
      assert s[..|s| - 1] == "0" && ValueOf("0") == 0;
      s
    else NatToString(n)
  }

  lemma IntToTimeIsPadded(seconds: int)
    requires seconds > 0
    ensures IntToTime(seconds) == Padded(seconds / 60) + ":" + Padded(seconds % 60)
  {
    var min := seconds / 60;
    var sec := seconds - min * 60;
    assert sec == seconds % 60;
    var head := if min < 10 then "0" + IntToString(min) + ":" else IntToString(min) + ":";
    assert head == Padded(min) + ":";
    if sec < 10 {
      assert head + "0" + IntToString(sec) == head + ("0" + IntToString(sec));
    }
  }

  /** The text is a minutes field, one ':', and a seconds field; the fields
      read back as `seconds / 60` and the remainder below 60, and each starts
      with '0' exactly when its value is below ten. */
  lemma IntToTimeFields(seconds: int) returns (mm: string, ss: string)
    requires seconds > 0
    ensures IntToTime(seconds) == mm + ":" + ss
    ensures AllDigits(mm) && AllDigits(ss) && |mm| >= 2 && |ss| == 2
    ensures ValueOf(mm) * 60 + ValueOf(ss) == seconds && ValueOf(ss) < 60
    ensures ValueOf(mm) == seconds / 60
    ensures seconds / 60 < 100 ==> |mm| == 2
    ensures mm[0] == '0' <==> seconds / 60 < 10
    ensures ss[0] == '0' <==> seconds % 60 < 10
  {
    IntToTimeIsPadded(seconds);
    mm, ss := Padded(seconds / 60), Padded(seconds % 60);
  }

  /** Exactly one ':' whatever the input: 3600 seconds print as "60:00". */
  lemma IntToTimeOneColon(seconds: int)
    ensures Count(IntToTime(seconds), ':') == 1
  {
    if seconds <= 0 {
      TwoFieldColons("00:00", "00", "00");
    } else {
      var mm, ss := IntToTimeFields(seconds);
      TwoFieldColons(IntToTime(seconds), mm, ss);
    }
  }

  /** Below 100 minutes the text has five characters and reads back as the
      input. */
  lemma IntToTimeRoundTrip(seconds: int)
    requires 0 < seconds < 6000
    ensures |IntToTime(seconds)| == 5
    ensures ParseClock(IntToTime(seconds)) == Some(seconds)
  {
    var mm, ss := IntToTimeFields(seconds);
    ParseMinSec(mm, ss);
  }

  lemma IntToTimeExample()
    ensures IntToTime(65) == "01:05"
  {
  }

  /** Minutes are not carried into hours. */
  lemma IntToTimeHourExample()
    ensures IntToTime(3600) == "60:00"
  {
  }

  lemma IntToTimeWideExample()
    ensures IntToTime(6000) == "100:00"
  {
  }
}
