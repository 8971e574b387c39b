/**
 * `_format_hms`: a duration in seconds rendered as `H:MM:SS` with every field
 * zero-padded to at least two digits (`f"{h:02d}:{m:02d}:{s:02d}"`), plus the
 * truncation `int(...)` used by the CSV export.
 */
module Format {
  import opened Options

  /** `int(max(0, seconds))`: whole seconds, negative input clamped to zero. */
  function WholeSeconds(seconds: real): (n: nat)
    ensures seconds <= 0.0 ==> n == 0
    ensures seconds >= 0.0 ==> n as real <= seconds < n as real + 1.0
  {
    if seconds <= 0.0 then 0 else seconds.Floor
  }

  /** Python's `int(x)` on a float: truncation toward zero. */
  function TruncateToInt(x: real): (i: int)
    ensures x >= 0.0 ==> 0 <= i && i as real <= x < i as real + 1.0
    ensures x < 0.0 ==> i <= 0 && i as real - 1.0 < x <= i as real
  {
    if x >= 0.0 then x.Floor else -((-x).Floor)
  }

  predicate IsDigit(c: char) {
    '0' <= c <= '9'
  }

  predicate AllDigits(s: string) {
    forall i :: 0 <= i < |s| ==> IsDigit(s[i])
  }

  function DigitChar(d: nat): (c: char)
    requires d < 10
    ensures IsDigit(c) && (c as int) - ('0' as int) == d
  {
    ('0' as int + d) as char
  }

  /** The number a string of decimal digits denotes (leading zeros allowed). */
  function ValueOf(s: string): nat
    requires AllDigits(s)
  {
    if s == [] then 0
    else ValueOf(s[..|s| - 1]) * 10 + ((s[|s| - 1] as int) - ('0' as int))
  }

  /** The shortest decimal numeral of `n` (`str(n)`). */
  function Decimal(n: nat): (s: string)
    ensures AllDigits(s) && ValueOf(s) == n
    ensures 1 <= |s|
    ensures n > 0 ==> s[0] != '0'
    ensures (n < 10) == (|s| == 1)
    ensures (n < 100) == (|s| <= 2)
  {
    if n < 10 then [DigitChar(n)]
    else
      var s := Decimal(n / 10) + [DigitChar(n % 10)];
      assert s[..|s| - 1] == Decimal(n / 10);
      s
  }

  /** `f"{n:02d}"`: the decimal numeral, left-padded with zeros to two digits. */
  function Pad2(n: nat): (s: string)
    ensures AllDigits(s) && ValueOf(s) == n
    ensures 2 <= |s|
    ensures n < 100 <==> |s| == 2
    ensures n >= 10 ==> s == Decimal(n)
  {
    if n < 10 then
      var s := ['0', DigitChar(n)];
      assert s[..1] == ['0'] && s[..1][..0] == [];
      assert ValueOf(s[..1]) == 0;
      s
    else Decimal(n)
  }

  /** A duration split into hours, minutes and seconds. */
  datatype Hms = Hms(hours: nat, minutes: nat, seconds: nat)

  /** `h = n // 3600; m = (n % 3600) // 60; s = n % 60` */
  function Split(n: nat): (t: Hms)
    ensures t.minutes < 60 && t.seconds < 60
    ensures t.hours * 3600 + t.minutes * 60 + t.seconds == n
  {
    Hms(n / 3600, (n % 3600) / 60, n % 60)
  }

  /** `_format_hms(seconds)` */
  function FormatHms(seconds: real): (r: string)
    ensures seconds < 1.0 ==> r == "00:00:00"
    ensures 8 <= |r|
  {
    var t := Split(WholeSeconds(seconds));
    Pad2(t.hours) + ":" + Pad2(t.minutes) + ":" + Pad2(t.seconds)
  }

  /**
   * Reads back an `H:MM:SS` string: at least two hour digits, two minute digits
   * below 60 and two second digits below 60.
   */
  function ParseHms(text: string): Option<Hms> {
    if |text| < 8 || text[|text| - 3] != ':' || text[|text| - 6] != ':' then None
    else
      var h, m, s := text[..|text| - 6], text[|text| - 5..|text| - 3], text[|text| - 2..];
      if AllDigits(h) && AllDigits(m) && AllDigits(s) && ValueOf(m) < 60 && ValueOf(s) < 60
      then Some(Hms(ValueOf(h), ValueOf(m), ValueOf(s)))
      else None
  }

  /** Hours, minutes and seconds with minutes and seconds below 60 are determined by the total. */
  lemma {:induction false} SplitUnique(n: nat, t: Hms)
    requires t.minutes < 60 && t.seconds < 60
    requires t.hours * 3600 + t.minutes * 60 + t.seconds == n
    ensures Split(n) == t
  {
    var rest := t.minutes * 60 + t.seconds;
    assert 0 <= rest < 3600;
    assert n / 3600 == t.hours && n % 3600 == rest;
    assert rest / 60 == t.minutes;
    assert n % 60 == t.seconds by {
      assert n == (t.hours * 60 + t.minutes) * 60 + t.seconds;
    }
  }

  /** Reading back what `_format_hms` printed gives the clamped, truncated duration split up. */
  lemma {:induction false} FormatHmsRoundTrip(seconds: real)
    ensures ParseHms(FormatHms(seconds)) == Some(Split(WholeSeconds(seconds)))
  {
    var t := Split(WholeSeconds(seconds));
    ParseFields(Pad2(t.hours), Pad2(t.minutes), Pad2(t.seconds));
  }

  /** Three digit fields joined by colons read back as their values. */
  lemma {:induction false} ParseFields(h: string, m: string, s: string)
    requires AllDigits(h) && AllDigits(m) && AllDigits(s)
    requires 2 <= |h| && |m| == 2 && |s| == 2
    requires ValueOf(m) < 60 && ValueOf(s) < 60
    ensures ParseHms(h + ":" + m + ":" + s) == Some(Hms(ValueOf(h), ValueOf(m), ValueOf(s)))
  {
    FieldsAt(h, m, s);
  }

  lemma {:induction false} FieldsAt(h: string, m: string, s: string)
    requires |m| == 2 && |s| == 2
    ensures var text := h + ":" + m + ":" + s;
      && |text| == |h| + 6
      && text[|text| - 3] == ':' && text[|text| - 6] == ':'
      && text[..|text| - 6] == h
      && text[|text| - 5..|text| - 3] == m
      && text[|text| - 2..] == s
  {
  }
}
