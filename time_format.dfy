/**
 * The player's time formatter: a position in milliseconds rendered as
 * "HH:MM:SS", the H+:MM:SS form that AVTransport uses for its duration and
 * time state variables.
 *
 * The formatter works on a Kotlin `Int`, whose `/` and `%` truncate toward
 * zero (Dafny's are Euclidean), and prints each field with Java's "%02d"
 * conversion (ASCII digits assumed). Both are written out below, so the
 * model is total on every integer, negative positions included.
 */
module TimeFormat {
  import opened Options

  /** Kotlin's `Int`. */
  type Int32 = x: int | -0x8000_0000 <= x < 0x8000_0000

  /** Kotlin's `a / b` for a positive divisor: the quotient rounded toward zero. */
  function Quot(a: int, b: int): (q: int)
    requires 0 < b
    ensures 0 <= a ==> q * b <= a < q * b + b
    ensures a < 0 ==> q * b - b < a <= q * b
  {
    if a >= 0 then a / b else -((-a) / b)
  }

  /** Kotlin's `a % b` for a positive divisor: the remainder has the sign of `a`. */
  function Rem(a: int, b: int): (r: int)
    requires 0 < b
    ensures a == Quot(a, b) * b + r
    ensures 0 <= a ==> 0 <= r < b
    ensures a < 0 ==> -b < r <= 0
  {
    if a >= 0 then a % b else -((-a) % b)
  }

  /** The three fields formatTime prints. */
  datatype Clock = Clock(hours: int, minutes: int, seconds: int)

  /** Taking seconds modulo 60 of the remainder modulo 3600 is the same as taking them directly. */
  lemma SecondsOfRemainder(t: nat)
    ensures (t % 3600) % 60 == t % 60
  {
  }

  /**
   * The fields of formatTime: whole seconds are `position / 1000`, then
   * hours, minutes of the hour and seconds of the minute, all with Kotlin's
   * truncating division. They recompose to the whole seconds for every
   * input; for a non-negative input minutes and seconds are below 60, for a
   * negative one every field is zero or negative.
   */
  function Fields(position: int): (c: Clock)
    ensures c.hours * 3600 + c.minutes * 60 + c.seconds == Quot(position, 1000)
    ensures 0 <= position ==> 0 <= c.hours && 0 <= c.minutes < 60 && 0 <= c.seconds < 60
    ensures position < 0 ==> c.hours <= 0 && -60 < c.minutes <= 0 && -60 < c.seconds <= 0
  {
    var totalSeconds := Quot(position, 1000);
    var magnitude: nat := if totalSeconds >= 0 then totalSeconds else -totalSeconds;
    SecondsOfRemainder(magnitude);
    Clock(Quot(totalSeconds, 3600), Quot(Rem(totalSeconds, 3600), 60), Rem(totalSeconds, 60))
  }

  predicate IsDigit(c: char) { '0' <= c <= '9' }

  predicate AllDigits(s: string) { forall i :: 0 <= i < |s| ==> IsDigit(s[i]) }

  function DigitChar(d: nat): (c: char)
    requires d < 10
    ensures IsDigit(c)
  {
    (48 + d) as char
  }

  function DigitValue(c: char): (d: nat)
    requires IsDigit(c)
    ensures d < 10 && DigitChar(d) == c
  {
    c as int - 48
  }

  /** The shortest decimal rendering of `n`: no leading zero unless `n` is 0. */
  function Decimal(n: nat): (s: string)
    ensures 1 <= |s| && AllDigits(s)
    ensures s[0] == '0' <==> n == 0
  {
    if n < 10 then [DigitChar(n)] else Decimal(n / 10) + [DigitChar(n % 10)]
  }

  /** The value of a string of decimal digits; the empty string reads as 0. */
  function ReadDecimal(s: string): nat
    requires AllDigits(s)
  {
    if s == [] then 0 else ReadDecimal(s[..|s| - 1]) * 10 + DigitValue(s[|s| - 1])
  }

  lemma {:induction false} ReadDecimalOfDecimal(n: nat)
    ensures ReadDecimal(Decimal(n)) == n
  {
    var s := Decimal(n);
    if n < 10 {
      assert s[..0] == [];
    } else {
      assert s[..|s| - 1] == Decimal(n / 10);
      ReadDecimalOfDecimal(n / 10);
    }
  }

  function Pow10(k: nat): (p: nat)
    ensures 1 <= p
  {
    if k == 0 then 1 else 10 * Pow10(k - 1)
  }

  /** A number below 10^k has at most k decimal digits. */
  lemma {:induction false} DecimalLength(n: nat, k: nat)
    requires 1 <= k && n < Pow10(k)
    ensures |Decimal(n)| <= k
  {
    if n >= 10 {
      assert k >= 2;
      DecimalLength(n / 10, k - 1);
    }
  }

  /**
   * Java's "%02d": at least two characters, zero-padded after the sign. A
   * field in 0..9 gets a leading zero; a negative field is "-" followed by
   * its magnitude, which already fills the width.
   */
  function Pad2(n: int): (s: string)
    ensures 0 <= n ==> 2 <= |s| && AllDigits(s) && ReadDecimal(s) == n
    ensures 0 <= n < 100 ==> |s| == 2
    ensures n < 0 ==> 2 <= |s| && s == "-" + Decimal(-n)
    ensures 10 <= n ==> s[0] != '0'
  {
    if n < 0 then "-" + Decimal(-n)
    else if n < 10 then
      assert ReadDecimal(['0']) == 0 by { assert ['0'][..0] == []; }
      assert ['0', DigitChar(n)][..1] == ['0'];
      "0" + [DigitChar(n)]
    else
      ReadDecimalOfDecimal(n);
      assert n < 100 ==> |Decimal(n)| <= 2 by {
        if n < 100 {
          assert Pow10(2) == 100;
          DecimalLength(n, 2);
        }
      }
      Decimal(n)
  }

  /** The shape of a formatted time: digits, with a colon before the last two pairs. */
  predicate IsTimeShape(s: string)
  {
    && 8 <= |s|
    && s[|s| - 3] == ':' && s[|s| - 6] == ':'
    && forall i :: 0 <= i < |s| && i != |s| - 3 && i != |s| - 6 ==> IsDigit(s[i])
  }

  /**
   * formatTime (Utils.kt): three colon-separated fields, each at least two
   * characters. For a non-negative position it is a well-formed H+:MM:SS
   * string, exactly eight characters below 100 hours.
   */
  function FormatTime(position: int): (s: string)
    ensures 0 <= position ==> IsTimeShape(s)
    ensures 0 <= position < 360_000_000 ==> |s| == 8
  {
    var c := Fields(position);
    Pad2(c.hours) + ":" + Pad2(c.minutes) + ":" + Pad2(c.seconds)
  }

  /**
   * Reads an H+:MM:SS string back into whole seconds: one or more digits of
   * hours, then exactly two digits each of minutes and seconds, both below 60.
   */
  function ParseTime(s: string): Option<nat>
  {
    if |s| < 7 || s[|s| - 3] != ':' || s[|s| - 6] != ':' then None
    else
      var hh, mm, ss := s[..|s| - 6], s[|s| - 5..|s| - 3], s[|s| - 2..];
      if !AllDigits(hh) || !AllDigits(mm) || !AllDigits(ss) then None
      else
        var h, m, sec := ReadDecimal(hh), ReadDecimal(mm), ReadDecimal(ss);
        if 60 <= m || 60 <= sec then None else Some(h * 3600 + m * 60 + sec)
  }

  /** Reading back a formatted non-negative position gives its whole seconds. */
  lemma FormatTimeRoundTrip(position: int)
    requires 0 <= position
    ensures ParseTime(FormatTime(position)) == Some(position / 1000)
  {
    var c := Fields(position);
    var h, m, sec := Pad2(c.hours), Pad2(c.minutes), Pad2(c.seconds);
    var s := FormatTime(position);
    assert s == h + ":" + m + ":" + sec;
    assert s[..|s| - 6] == h;
    assert s[|s| - 5..|s| - 3] == m;
    assert s[|s| - 2..] == sec;
  }

  /** Two non-negative positions format alike exactly when they fall in the same second. */
  lemma FormatTimeSameSecond(p: int, q: int)
    requires 0 <= p && 0 <= q
    ensures FormatTime(p) == FormatTime(q) <==> p / 1000 == q / 1000
  {
    FormatTimeRoundTrip(p);
    FormatTimeRoundTrip(q);
  }

  /**
   * Anything strictly between -1000 and 1000 truncates to zero seconds and
   * formats to "00:00:00", the default of the renderer's time variables
   * (the player's stubbed position and duration of -1 land here too).
   */
  lemma FormatTimeBelowOneSecond(position: int)
    requires -1000 < position < 1000
    ensures FormatTime(position) == "00:00:00"
  {
  }

  /** A non-negative Kotlin `Int` position (under about 596 hours) formats to at most nine characters. */
  lemma FormatTimeWidth(position: Int32)
    requires 0 <= position
    ensures 8 <= |FormatTime(position)| <= 9
  {
    var c := Fields(position);
    assert c.hours < 1000;
    if c.hours >= 10 {
      DecimalLength(c.hours, 3);
    }
  }

  /** A minus sign anywhere makes a string unreadable as a time. */
  lemma MinusUnreadable(s: string, i: nat)
    requires i < |s| && s[i] == '-'
    ensures ParseTime(s) == None
  {
  }

  /**
   * A position of -1000 or less prints a negative field ("00:00:-5" for
   * -5000), which is not of the H+:MM:SS form: the formatter's output reads
   * back only for positions above -1000.
   */
  lemma NegativePositionUnreadable(position: int)
    requires position <= -1000
    ensures ParseTime(FormatTime(position)) == None
  {
    var c := Fields(position);
    var h, m, sec := Pad2(c.hours), Pad2(c.minutes), Pad2(c.seconds);
    var s := FormatTime(position);
    assert s == h + ":" + m + ":" + sec;
    var i := if c.hours < 0 then 0 else if c.minutes < 0 then |h| + 1 else |h| + |m| + 2;
    assert s[i] == '-';
    MinusUnreadable(s, i);
  }
}
