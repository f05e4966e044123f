/** Decimal text of integers, as Java's string concatenation `"" + i`
    produces it, and the reading back of clock texts ("MM:SS",
    "HH:MM:SS") that serves as the reference for the time formatters. */
module Decimal {

  datatype Option<T> = None | Some(value: T)

  predicate IsDigit(c: char) { '0' <= c <= '9' }

  predicate AllDigits(s: string) { forall k :: 0 <= k < |s| ==> IsDigit(s[k]) }

  function DigitChar(d: int): (c: char)
    requires 0 <= d < 10
    ensures IsDigit(c) && c as int - '0' as int == d
  {
    (d + '0' as int) as char
  }

  function DigitValue(c: char): (d: nat)
    requires IsDigit(c)
    ensures d < 10
  {
    c as int - '0' as int
  }

  /** The number a string of decimal digits denotes (most significant first). */
  function ValueOf(s: string): nat
    requires AllDigits(s)
  {
    if s == [] then 0 else ValueOf(s[..|s| - 1]) * 10 + DigitValue(s[|s| - 1])
  }

  /** Decimal digits of a non-negative number, without leading zeros. */
  function NatToString(n: nat): (s: string)
    ensures AllDigits(s) && ValueOf(s) == n
    ensures |s| >= 1 && (|s| > 1 ==> s[0] != '0')
    ensures n < 10 <==> |s| == 1
    ensures 10 <= n < 100 ==> |s| == 2
    ensures n >= 100 ==> |s| >= 3
    decreases n
  {
    if n < 10 then [DigitChar(n)]
    else
      var init := NatToString(n / 10);
      var s := init + [DigitChar(n % 10)];
      assert s[..|s| - 1] == init;
      s
  }

  /** Java's `"" + i` for an `int`. */
  function IntToString(i: int): (s: string)
    ensures i >= 0 ==> |s| >= 1 && AllDigits(s) && ValueOf(s) == i && (|s| > 1 ==> s[0] != '0')
    ensures i < 0 ==> |s| >= 2 && s[0] == '-' && AllDigits(s[1..]) && ValueOf(s[1..]) == -i && s[1] != '0'
  {
    if i < 0 then "-" + NatToString(-i) else NatToString(i)
  }

  /** Number of occurrences of `c` in `s`. */
  function Count(s: string, c: char): nat
  {
    if s == [] then 0 else Count(s[1..], c) + (if s[0] == c then 1 else 0)
  }

  lemma {:induction false} CountAppend(a: string, b: string, c: char)
    ensures Count(a + b, c) == Count(a, c) + Count(b, c)
  {
    if a != [] {
      assert (a + b)[1..] == a[1..] + b;
      CountAppend(a[1..], b, c);
    } else {
      assert a + b == b;
    }
  }

  lemma {:induction false} DigitsHaveNoColon(s: string)
    requires AllDigits(s)
    ensures Count(s, ':') == 0
  {
    if s != [] {
      DigitsHaveNoColon(s[1..]);
    }
  }

  /** Two digit fields joined by ':' hold one colon. */
  lemma TwoFieldColons(text: string, a: string, b: string)
    requires AllDigits(a) && AllDigits(b) && text == a + ":" + b
    ensures Count(text, ':') == 1
  {
    CountAppend(a + ":", b, ':');
    CountAppend(a, ":", ':');
    DigitsHaveNoColon(a);
    DigitsHaveNoColon(b);
  }

  /** Three digit fields joined by ':' hold two colons. */
  lemma ThreeFieldColons(text: string, a: string, b: string, c: string)
    requires AllDigits(a) && AllDigits(b) && AllDigits(c) && text == a + ":" + b + ":" + c
    ensures Count(text, ':') == 2
  {
    TwoFieldColons(a + ":" + b, a, b);
    CountAppend(a + ":" + b + ":", c, ':');
    CountAppend(a + ":" + b, ":", ':');
    DigitsHaveNoColon(c);
  }

  /** Two decimal digits read as a number. */
  function TwoDigits(s: string): (r: Option<nat>)
    ensures r.Some? <==> |s| == 2 && IsDigit(s[0]) && IsDigit(s[1])
    ensures r.Some? ==> r.value < 100
  {
    if |s| == 2 && IsDigit(s[0]) && IsDigit(s[1]) then Some(DigitValue(s[0]) * 10 + DigitValue(s[1])) else None
  }

  lemma TwoDigitsOfValue(s: string)
    requires |s| == 2 && AllDigits(s)
    ensures TwoDigits(s) == Some(ValueOf(s))
  {
    var head := s[..1];
    assert head[..0] == [] && head[0] == s[0];
    assert ValueOf(head) == DigitValue(s[0]);
    assert s[..|s| - 1] == head;
  }

  /** Reads a clock text back into a number of seconds: "MM:SS" as
      MM * 60 + SS and "HH:MM:SS" as HH * 3600 + MM * 60 + SS, each field
      two decimal digits; anything else is `None`. */
  function ParseClock(s: string): Option<nat>
  {
    if |s| == 5 && s[2] == ':' && TwoDigits(s[..2]).Some? && TwoDigits(s[3..]).Some? then
      Some(TwoDigits(s[..2]).value * 60 + TwoDigits(s[3..]).value)
    else if |s| == 8 && s[2] == ':' && s[5] == ':'
            && TwoDigits(s[..2]).Some? && TwoDigits(s[3..5]).Some? && TwoDigits(s[6..]).Some? then
      Some(TwoDigits(s[..2]).value * 3600 + TwoDigits(s[3..5]).value * 60 + TwoDigits(s[6..]).value)
    else None
  }

  /** Where the fields of "MM:SS" sit. */
  lemma Slices5(mm: string, ss: string)
    requires |mm| == 2 && |ss| == 2
    ensures var s := mm + ":" + ss;
            |s| == 5 && s[2] == ':' && s[..2] == mm && s[3..] == ss
  {
    var s := mm + ":" + ss;
    assert s[..2] == mm;
    assert s[3..] == ss;
  }

  /** Where the fields of "HH:MM:SS" sit. */
  lemma Slices8(hh: string, mm: string, ss: string)
    requires |hh| == 2 && |mm| == 2 && |ss| == 2
    ensures var s := hh + ":" + mm + ":" + ss;
            |s| == 8 && s[2] == ':' && s[5] == ':' && s[..2] == hh && s[3..5] == mm && s[6..] == ss
  {
    var s := hh + ":" + mm + ":" + ss;
    assert s[..2] == hh;
    assert s[3..5] == mm;
    assert s[6..] == ss;
  }

  /** A clock text built from two-digit fields reads back as its value. */
  lemma ParseMinSec(mm: string, ss: string)
    requires |mm| == 2 && AllDigits(mm) && |ss| == 2 && AllDigits(ss)
    ensures ParseClock(mm + ":" + ss) == Some(ValueOf(mm) * 60 + ValueOf(ss))
  {
    Slices5(mm, ss);
    TwoDigitsOfValue(mm);
    TwoDigitsOfValue(ss);
    ParseFive(mm + ":" + ss, ValueOf(mm), ValueOf(ss));
  }

  lemma ParseFive(s: string, m: nat, sec: nat)
    requires |s| == 5 && s[2] == ':' && TwoDigits(s[..2]) == Some(m) && TwoDigits(s[3..]) == Some(sec)
    ensures ParseClock(s) == Some(m * 60 + sec)
  {
  }

  lemma ParseHourMinSec(hh: string, mm: string, ss: string)
    requires |hh| == 2 && AllDigits(hh) && |mm| == 2 && AllDigits(mm) && |ss| == 2 && AllDigits(ss)
    ensures ParseClock(hh + ":" + mm + ":" + ss) == Some(ValueOf(hh) * 3600 + ValueOf(mm) * 60 + ValueOf(ss))
  {
    Slices8(hh, mm, ss);
    TwoDigitsOfValue(hh);
    TwoDigitsOfValue(mm);
    TwoDigitsOfValue(ss);
    ParseEight(hh + ":" + mm + ":" + ss, ValueOf(hh), ValueOf(mm), ValueOf(ss));
  }

  lemma ParseEight(s: string, h: nat, m: nat, sec: nat)
    requires |s| == 8 && s[2] == ':' && s[5] == ':'
    requires TwoDigits(s[..2]) == Some(h) && TwoDigits(s[3..5]) == Some(m) && TwoDigits(s[6..]) == Some(sec)
    ensures ParseClock(s) == Some(h * 3600 + m * 60 + sec)
  {
  }
}
