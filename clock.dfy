/**
 * The `mm:ss` rendering of a number of seconds shared by the rest clock of a
 * session and the stand-alone timer: whole minutes and the remaining seconds,
 * each written in decimal and left-padded with zeros to at least two digits.
 */
module Clock {
  import opened Wrappers

  predicate IsDigit(c: char) {
    '0' <= c <= '9'
  }

  predicate AllDigits(s: string) {
    forall i :: 0 <= i < |s| ==> IsDigit(s[i])
  }

  function DigitChar(d: int): (c: char)
    requires 0 <= d <= 9
    ensures IsDigit(c) && c as int - '0' as int == d
  {
    (d + '0' as int) as char
  }

  /** `n.toString()` for a whole number. */
  function Digits(n: nat): (s: string)
    ensures |s| >= 1 && AllDigits(s)
    decreases n
  {
    if n < 10 then [DigitChar(n)] else Digits(n / 10) + [DigitChar(n % 10)]
  }

  /** One digit below 10, two from 10 to 99. */
  lemma DigitsLength(n: nat)
    ensures n < 10 ==> |Digits(n)| == 1
    ensures 10 <= n < 100 ==> |Digits(n)| == 2
  {
    if 10 <= n < 100 {
      assert n / 10 < 10;
      assert |Digits(n / 10)| == 1;
    }
  }

  /** The number a string of decimal digits denotes. */
  function Value(s: string): nat
    requires AllDigits(s)
  {
    if s == [] then 0 else Value(s[..|s| - 1]) * 10 + (s[|s| - 1] as int - '0' as int)
  }

  /** Reading back a rendered number gives the number. */
  lemma {:induction false} ValueOfDigits(n: nat)
    ensures Value(Digits(n)) == n
    decreases n
  {
    if n >= 10 {
      var init := Digits(n / 10);
      ValueOfDigits(n / 10);
      assert (init + [DigitChar(n % 10)])[..|init|] == init;
    }
  }

  /** A leading zero does not change the value. */
  lemma {:induction false} ValueOfLeadingZero(s: string)
    requires AllDigits(s)
    ensures Value(['0'] + s) == Value(s)
    decreases |s|
  {
    if s != [] {
      var init := s[..|s| - 1];
      ValueOfLeadingZero(init);
      assert (['0'] + s)[..|s|] == ['0'] + init;
    }
  }

  /** `padStart(2, '0')`. */
  function PadStart2(s: string): (r: string)
    ensures |r| == if |s| < 2 then 2 else |s|
    ensures r[|r| - |s|..] == s
    ensures forall i :: 0 <= i < |r| - |s| ==> r[i] == '0'
  {
    if |s| == 0 then "00" else if |s| == 1 then ['0'] + s else s
  }

  /** Padding digits gives digits. */
  lemma PadDigits(s: string)
    requires AllDigits(s)
    ensures AllDigits(PadStart2(s))
  {
    if |s| == 1 {
      assert PadStart2(s) == ['0', s[0]];
    }
  }

  /** The two padded parts of the clock text of `sec`: the minutes are at least two digits, exactly two below
      100 minutes, and the seconds exactly two. */
  lemma Parts(sec: nat)
    ensures var m := PadStart2(Digits(sec / 60));
            |m| >= 2 && AllDigits(m) && (sec < 6000 ==> |m| == 2)
    ensures var s := PadStart2(Digits(sec % 60));
            |s| == 2 && AllDigits(s)
  {
    var q, r := sec / 60, sec % 60;
    assert sec < 6000 ==> q < 100;
    DigitsLength(q);
    DigitsLength(r);
    PadDigits(Digits(q));
    PadDigits(Digits(r));
  }

  /** The clock text of `sec` seconds. */
  function Format(sec: nat): (r: string)
    ensures |r| >= 5 && r[|r| - 3] == ':'
    ensures sec < 6000 ==> |r| == 5
    ensures AllDigits(r[..|r| - 3]) && AllDigits(r[|r| - 2..])
  {
    var m := PadStart2(Digits(sec / 60));
    var s := PadStart2(Digits(sec % 60));
    Parts(sec);
    JoinParts(m, s);
    m + ":" + s
  }

  /** Where the two parts of a clock text sit. */
  lemma JoinParts(m: string, s: string)
    requires |s| == 2
    ensures var r := m + ":" + s; |r| == |m| + 3 && r[..|r| - 3] == m && r[|r| - 2..] == s && r[|r| - 3] == ':'
  {
  }

  /** Reads a clock text back: digits, a colon, and exactly two digits of seconds. */
  function ParseClock(s: string): (r: Option<nat>)
    ensures r.Some? ==> |s| >= 4 && s[|s| - 3] == ':'
  {
    if |s| >= 4 && s[|s| - 3] == ':' && AllDigits(s[..|s| - 3]) && AllDigits(s[|s| - 2..])
    then Some(Value(s[..|s| - 3]) * 60 + Value(s[|s| - 2..]))
    else None
  }

  /** The minutes and the seconds both read back, so the clock text loses nothing. */
  lemma FormatRoundTrip(sec: nat)
    ensures ParseClock(Format(sec)) == Some(sec)
  {
    var q, m := sec / 60, sec % 60;
    var pm, pr := PadStart2(Digits(q)), PadStart2(Digits(m));
    Parts(sec);
    JoinParts(pm, pr);
    MinutesAndSeconds(q);
    MinutesAndSeconds(m);
    assert q * 60 + m == sec;
  }

  /** A padded rendering reads back as the number it renders. */
  lemma MinutesAndSeconds(n: nat)
    ensures AllDigits(PadStart2(Digits(n))) && Value(PadStart2(Digits(n))) == n
  {
    var d := Digits(n);
    ValueOfDigits(n);
    PadDigits(d);
    if |d| == 1 {
      ValueOfLeadingZero(d);
    }
  }
}
