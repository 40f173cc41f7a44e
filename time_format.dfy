/**
 * The `m:ss` rendering of a countdown on the round page: whole minutes in
 * decimal, a colon, and the remaining seconds padded to two digits.
 */
module TimeFormat {

  predicate IsDigit(c: char) {
    '0' <= c <= '9'
  }

  predicate AllDigits(s: string) {
    forall i :: 0 <= i < |s| ==> IsDigit(s[i])
  }

  function DigitChar(d: nat): (c: char)
    requires d < 10
    ensures IsDigit(c)
  {
    (48 + d) as char
  }

  function DigitValue(c: char): (d: nat)
    requires IsDigit(c)
    ensures d < 10
  {
    c as int - 48
  }

  /** The number a string of decimal digits denotes (the reading of a rendered number). */
  function DecimalValue(s: string): nat
    requires AllDigits(s)
  {
    if s == [] then 0 else DecimalValue(s[..|s| - 1]) * 10 + DigitValue(s[|s| - 1])
  }

  /**
   * `n.toString()` for a non-negative integer: the canonical decimal
   * numeral of `n`, which reads back as `n` and has no leading zero.
   */
  function Decimal(n: nat): (s: string)
    ensures |s| >= 1 && AllDigits(s)
    ensures DecimalValue(s) == n
    ensures s[0] == '0' ==> s == "0"
    ensures n < 100 ==> |s| <= 2
  {
    if n < 10 then
      [DigitChar(n)]
    else
      var q, d := n / 10, n % 10;
      assert n == q * 10 + d && 1 <= q;
      var prefix := Decimal(q);
      var s := prefix + [DigitChar(d)];
      assert s[..|s| - 1] == prefix;
      assert AllDigits(s) by {
        forall i | 0 <= i < |s| ensures IsDigit(s[i]) {
          if i < |prefix| { assert s[i] == prefix[i]; }
        }
      }
      assert DecimalValue(s) == DecimalValue(prefix) * 10 + d;
      s
  }

  /** A leading `'0'` does not change the value of a numeral. */
  lemma {:induction false} LeadingZero(s: string)
    requires AllDigits(s)
    ensures AllDigits("0" + s) && DecimalValue("0" + s) == DecimalValue(s)
  {
    var z := "0" + s;
    assert AllDigits(z) by {
      forall i | 0 <= i < |z| ensures IsDigit(z[i]) {
        if i > 0 { assert z[i] == s[i - 1]; }
      }
    }
    if s != [] {
      var init := s[..|s| - 1];
      assert z[..|z| - 1] == "0" + init;
      LeadingZero(init);
    }
  }

  /** `s.padStart(2, "0")`: a string shorter than two characters gets leading zeros. */
  function PadStart2(s: string): (r: string)
    requires AllDigits(s)
    ensures |r| == if |s| >= 2 then |s| else 2
    ensures r[|r| - |s|..] == s
    ensures forall i :: 0 <= i < |r| - |s| ==> r[i] == '0'
    ensures AllDigits(r) && DecimalValue(r) == DecimalValue(s)
  {
    if |s| >= 2 then
      s
    else if |s| == 1 then
      LeadingZero(s);
      "0" + s
    else
      LeadingZero(s);
      LeadingZero("0" + s);
      "00" + s
  }

  /** A string of the shape `digits:dd`. */
  predicate IsClock(r: string) {
    |r| >= 4 && r[|r| - 3] == ':' && AllDigits(r[..|r| - 3]) && AllDigits(r[|r| - 2..])
  }

  /** The number of seconds a `m:ss` text stands for (how a player reads it). */
  function ReadClock(r: string): nat
    requires IsClock(r)
  {
    DecimalValue(r[..|r| - 3]) * 60 + DecimalValue(r[|r| - 2..])
  }

  /**
   * `formatTime(seconds)`: minutes, a colon and exactly two digits of
   * seconds below sixty; the minutes have no leading zero, and the text
   * reads back as `seconds`.
   */
  function FormatTime(seconds: nat): (r: string)
    ensures IsClock(r)
    ensures r[0] == '0' ==> r[..|r| - 3] == "0"
    ensures DecimalValue(r[|r| - 2..]) < 60
    ensures ReadClock(r) == seconds
  {
    var mins := Decimal(seconds / 60);
    var secs := PadStart2(Decimal(seconds % 60));
    var r := mins + ":" + secs;
    assert r[..|r| - 3] == mins;
    assert r[|r| - 2..] == secs;
    assert seconds == (seconds / 60) * 60 + seconds % 60;
    r
  }

  /** Different countdown values are never rendered alike. */
  lemma FormatTimeInjective(a: nat, b: nat)
    requires FormatTime(a) == FormatTime(b)
    ensures a == b
  {
    assert ReadClock(FormatTime(a)) == a;
    assert ReadClock(FormatTime(b)) == b;
  }
}
