/**
  `formatDuration` (bot.js:265-269): whole seconds as minutes, a colon and two-digit seconds.
  Minutes are not folded into hours, so an hour prints as "60:00".
*/
module Duration {

  import Decimal

  /** JavaScript's `String.prototype.padStart(width, fill)` with a one-character fill. */
  function PadStart(s: string, width: nat, fill: char): (r: string)
    ensures |r| == if |s| >= width then |s| else width
    ensures r[|r| - |s|..] == s
    ensures forall i :: 0 <= i < |r| - |s| ==> r[i] == fill
  {
    if |s| >= width then s
    else
      var pad := seq(width - |s|, _ => fill);
      assert (pad + s)[|pad|..] == s;
      pad + s
  }

  /** The texts `FormatDuration` can produce: canonical minutes, ':', two digits worth less than 60. */
  predicate IsMinutesSeconds(text: string) {
    && |text| >= 4
    && text[|text| - 3] == ':'
    && Decimal.Canonical(text[..|text| - 3])
    && Decimal.AllDigits(text[|text| - 2..])
    && Decimal.Value(text[|text| - 2..]) < 60
  }

  /** The number of seconds an `m:ss` text stands for. */
  function Seconds(text: string): nat
    requires IsMinutesSeconds(text)
  {
    Decimal.Value(text[..|text| - 3]) * 60 + Decimal.Value(text[|text| - 2..])
  }

  function FormatDuration(seconds: nat): (r: string)
    ensures IsMinutesSeconds(r) && Seconds(r) == seconds
  {
    var mins := Decimal.Show(seconds / 60);
    var padded := PadStart(Decimal.Show(seconds % 60), 2, '0');
    Decimal.ValueOfShow(seconds / 60);
    PaddedSeconds(seconds % 60);
    Joined(mins, padded, seconds / 60, seconds % 60);
    mins + ":" + padded
  }

  /** Canonical minutes, a colon and two digits for `sec < 60` make a well-formed text worth `m * 60 + sec`. */
  lemma Joined(mins: string, padded: string, m: nat, sec: nat)
    requires Decimal.Canonical(mins) && Decimal.Value(mins) == m
    requires |padded| == 2 && Decimal.AllDigits(padded) && Decimal.Value(padded) == sec && sec < 60
    ensures var r := mins + ":" + padded; IsMinutesSeconds(r) && Seconds(r) == m * 60 + sec
  {
    Split(mins, padded);
  }

  /** The two-digit seconds field for `sec < 60`. */
  lemma PaddedSeconds(sec: nat)
    requires sec < 60
    ensures var padded := PadStart(Decimal.Show(sec), 2, '0');
      |padded| == 2 && Decimal.AllDigits(padded) && Decimal.Value(padded) == sec
  {
    Decimal.ValueOfShow(sec);
    var secs := Decimal.Show(sec);
    assert |secs| <= 2 by {
      if sec >= 10 { assert sec / 10 < 10; }
    }
    PaddedValue(secs);
  }

  /** Padding a one- or two-digit text to two places keeps its value. */
  lemma PaddedValue(secs: string)
    requires 1 <= |secs| <= 2 && Decimal.AllDigits(secs)
    ensures Decimal.AllDigits(PadStart(secs, 2, '0'))
    ensures Decimal.Value(PadStart(secs, 2, '0')) == Decimal.Value(secs)
  {
    if |secs| == 1 {
      assert PadStart(secs, 2, '0') == "0" + secs;
      Decimal.ValueLeadingZero(secs);
    }
  }

  lemma Split(mins: string, padded: string)
    requires |mins| >= 1 && |padded| == 2
    ensures var r := mins + ":" + padded;
      |r| >= 4 && r[..|r| - 3] == mins && r[|r| - 3] == ':' && r[|r| - 2..] == padded
  {
    var r := mins + ":" + padded;
    assert r[..|r| - 3] == mins;
    assert r[|r| - 2..] == padded;
  }

  lemma DivMod60(m: nat, sec: nat)
    requires sec < 60
    ensures (m * 60 + sec) / 60 == m && (m * 60 + sec) % 60 == sec
  {
  }

  /** Every well-formed `m:ss` text is printed by `FormatDuration` for exactly its own number of seconds. */
  lemma {:induction false} FormatSeconds(text: string)
    requires IsMinutesSeconds(text)
    ensures FormatDuration(Seconds(text)) == text
  {
    var m := text[..|text| - 3];
    var ss := text[|text| - 2..];
    Fields(text);
    Unfold(Seconds(text), m, ss);
  }

  /** The fields of a well-formed text are the printed fields of its number of seconds. */
  lemma Fields(text: string)
    requires IsMinutesSeconds(text)
    ensures var m, ss, n := text[..|text| - 3], text[|text| - 2..], Seconds(text);
      Decimal.Show(n / 60) == m && PadStart(Decimal.Show(n % 60), 2, '0') == ss && text == m + ":" + ss
  {
    var m := text[..|text| - 3];
    var ss := text[|text| - 2..];
    var n, sec := Seconds(text), Decimal.Value(ss);
    DivMod60(Decimal.Value(m), sec);
    assert n % 60 == sec;
    Decimal.ShowOfValue(m);
    TwoDigits(ss);
    assert PadStart(Decimal.Show(sec), 2, '0') == ss;
    Rejoin(text);
  }

  lemma Unfold(n: nat, m: string, ss: string)
    requires Decimal.Show(n / 60) == m && PadStart(Decimal.Show(n % 60), 2, '0') == ss
    ensures FormatDuration(n) == m + ":" + ss
  {
  }

  lemma Rejoin(text: string)
    requires |text| >= 4 && text[|text| - 3] == ':'
    ensures text == text[..|text| - 3] + ":" + text[|text| - 2..]
  {
  }

  /** Two digits worth less than 60 are what padding the seconds' decimal text produces. */
  lemma TwoDigits(ss: string)
    requires |ss| == 2 && Decimal.AllDigits(ss) && Decimal.Value(ss) < 60
    ensures PadStart(Decimal.Show(Decimal.Value(ss)), 2, '0') == ss
  {
    var last := ss[1..];
    assert ss[..1] == [ss[0]] && ss == [ss[0]] + last;
    if ss[0] == '0' {
      assert Decimal.Value(ss) == Decimal.Value(last);
      Decimal.ShowOfValue(last);
      assert PadStart(last, 2, '0') == "0" + last;
    } else {
      Decimal.ShowOfValue(ss);
    }
  }

  /** Distinct numbers of seconds never print alike. */
  lemma FormatDurationInjective(a: nat, b: nat)
    requires FormatDuration(a) == FormatDuration(b)
    ensures a == b
  {
  }

  /** 125 seconds print as "2:05". */
  lemma TwoMinutesFive()
    ensures FormatDuration(125) == "2:05"
  {
    assert Decimal.Show(2) == "2" && Decimal.Show(5) == "5";
    PaddedDigit('5');
    Unfold(125, "2", "05");
  }

  /** An unknown duration (0, the source's fallback) prints as "0:00". */
  lemma ZeroSeconds()
    ensures FormatDuration(0) == "0:00"
  {
    assert Decimal.Show(0) == "0";
    PaddedDigit('0');
    Unfold(0, "0", "00");
  }

  /** Minutes are not folded into hours: an hour prints as "60:00". */
  lemma OneHour()
    ensures FormatDuration(3600) == "60:00"
  {
    assert Decimal.Show(60) == "60" by {
      assert Decimal.Show(6) == "6";
    }
    assert Decimal.Show(0) == "0";
    PaddedDigit('0');
    Unfold(3600, "60", "00");
  }

  /** A single digit is padded with one '0'. */
  lemma PaddedDigit(d: char)
    ensures PadStart([d], 2, '0') == ['0', d]
  {
    var padded := PadStart([d], 2, '0');
    assert padded[1..] == [d];
  }
}
