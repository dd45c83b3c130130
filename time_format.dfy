/**
 * `formatTime`: seconds shown as `HH:MM:SS`, split with Swift's truncating
 * integer division and remainder and padded as `String(format: "%02d")` pads.
 */
module TimeFormat {
  import opened Wrappers
  import opened Decimal

  /** Swift's `/` on `Int`: the quotient rounded toward zero. */
  function Quot(a: int, b: int): (q: int)
    requires b > 0
    ensures q * b + Rem(a, b) == a
  {
    if a >= 0 then a / b else -((-a) / b)
  }

  /** Swift's `%` on `Int`: the remainder takes the sign of the dividend. */
  function Rem(a: int, b: int): (r: int)
    requires b > 0
    ensures a >= 0 ==> 0 <= r < b
    ensures a < 0 ==> -b < r <= 0
  {
    if a >= 0 then a % b else -((-a) % b)
  }

  /** Taking the remainder by an hour first does not change the remainder by a minute. */
  lemma RemHourThenMinute(total: int)
    ensures Rem(Rem(total, 3600), 60) == Rem(total, 60)
  {
    var t := if total >= 0 then total else -total;
    var q, r := t / 3600, t % 3600;
    assert t == 60 * (60 * q + r / 60) + r % 60;
  }

  datatype Clock = Clock(hours: int, minutes: int, seconds: int)

  /** The three fields of `formatTime`: `s / 3600`, `(s % 3600) / 60` and `s % 60`. */
  function Split(total: int): (c: Clock)
    ensures c.hours * 3600 + c.minutes * 60 + c.seconds == total
    ensures total >= 0 ==> c.hours >= 0 && 0 <= c.minutes < 60 && 0 <= c.seconds < 60
    ensures total < 0 ==> c.hours <= 0 && -60 < c.minutes <= 0 && -60 < c.seconds <= 0
  {
    RemHourThenMinute(total);
    Clock(Quot(total, 3600), Quot(Rem(total, 3600), 60), Rem(total, 60))
  }

  /** `%02d`: at least two characters, zero-padded; a negative value already has two. */
  function Pad2(n: int): (s: string)
    ensures 0 <= n < 100 ==> |s| == 2 && AllDigits(s) && ParseDigits(s) == n
    ensures n < 0 || n >= 100 ==> |s| > 2 || (|s| == 2 && s[0] == '-')
  {
    if 0 <= n < 10 then
      ParseLeadingZero(Dec(n));
      "0" + Dec(n)
    else
      Dec(n)
  }

  /** `formatTime(seconds)` */
  function FormatTime(total: int): (r: string)
    ensures 0 <= total < 360000 ==>
      |r| == 8 && r[2] == ':' && r[5] == ':'
      && AllDigits(r[..2]) && AllDigits(r[3..5]) && AllDigits(r[6..])
    ensures 0 <= total < 360000 ==>
      && ParseDigits(r[..2]) == Split(total).hours
      && ParseDigits(r[3..5]) == Split(total).minutes < 60
      && ParseDigits(r[6..]) == Split(total).seconds < 60
  {
    var c := Split(total);
    var r := Pad2(c.hours) + ":" + Pad2(c.minutes) + ":" + Pad2(c.seconds);
    assert 0 <= total < 360000 ==> r[..2] == Pad2(c.hours) && r[3..5] == Pad2(c.minutes) && r[6..] == Pad2(c.seconds);
    r
  }

  /** Reads a clock `HH:MM:SS` back into seconds; anything else is `None`. */
  function ParseClock(t: string): Option<int> {
    if |t| == 8 && t[2] == ':' && t[5] == ':'
       && AllDigits(t[..2]) && AllDigits(t[3..5]) && AllDigits(t[6..])
    then Some(ParseDigits(t[..2]) * 3600 + ParseDigits(t[3..5]) * 60 + ParseDigits(t[6..]))
    else None
  }

  /** Every duration below 100 hours, the full countdown included, is shown as a clock that reads back as itself. */
  lemma FormatTimeRoundTrip(total: int)
    requires 0 <= total < 360000
    ensures ParseClock(FormatTime(total)) == Some(total)
  {
    var c := Split(total);
    var h, m, s := Pad2(c.hours), Pad2(c.minutes), Pad2(c.seconds);
    var r := FormatTime(total);
    assert r == h + ":" + m + ":" + s;
    assert r[..2] == h && r[3..5] == m && r[6..] == s;
  }

  /** Two durations below 100 hours never show the same clock. */
  lemma FormatTimeInjective(a: int, b: int)
    requires 0 <= a < 360000 && 0 <= b < 360000
    requires FormatTime(a) == FormatTime(b)
    ensures a == b
  {
    FormatTimeRoundTrip(a);
    FormatTimeRoundTrip(b);
  }
}
