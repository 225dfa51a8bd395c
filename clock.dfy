/**
 * Clock readings and their rendering with the custom format
 * "yyyyMMddHHmmssfff", used for the suffix of a renamed duplicate.
 */
module Clock {

  /** The fields of a DateTimeOffset reading in UTC, to the millisecond. */
  datatype DateTime = DateTime(
    year: int, month: int, day: int,
    hour: int, minute: int, second: int, millisecond: int)
  {
    /** The ranges DateTimeOffset gives its fields. */
    predicate Valid() {
      && 1 <= year <= 9999
      && 1 <= month <= 12
      && 1 <= day <= 31
      && 0 <= hour < 24
      && 0 <= minute < 60
      && 0 <= second < 60
      && 0 <= millisecond < 1000
    }
  }

  /** A reading of DateTimeOffset.UtcNow, passed in by the caller. */
  type Timestamp = t: DateTime | t.Valid() witness DateTime(1, 1, 1, 0, 0, 0, 0)

  function Pow10(n: nat): nat {
    if n == 0 then 1 else 10 * Pow10(n - 1)
  }

  predicate IsDigit(c: char) {
    '0' <= c <= '9'
  }

  function DigitChar(d: nat): (c: char)
    requires d < 10
    ensures IsDigit(c)
  {
    ('0' as int + d) as char
  }

  /**
   * The field n written with exactly `width` decimal digits, zero-padded on
   * the left (the "yyyy", "MM" and "fff" specifiers): the last `width`
   * digits of n, most significant first.
   */
  function Digits(n: nat, width: nat): (s: string)
    ensures |s| == width
    ensures forall i :: 0 <= i < |s| ==> IsDigit(s[i])
  {
    if width == 0 then "" else Digits(n / 10, width - 1) + [DigitChar(n % 10)]
  }

  /** The number a string of decimal digits denotes. */
  function DigitsValue(s: string): int {
    if s == [] then 0 else 10 * DigitsValue(s[..|s| - 1]) + (s[|s| - 1] as int - '0' as int)
  }

  /** A field that fits its width is written without loss. */
  lemma {:induction false} DigitsRoundTrip(n: nat, width: nat)
    requires n < Pow10(width)
    ensures DigitsValue(Digits(n, width)) == n
  {
    if width > 0 {
      var s := Digits(n, width);
      assert s[..|s| - 1] == Digits(n / 10, width - 1);
      DigitsRoundTrip(n / 10, width - 1);
    }
  }

  /** t.ToString("yyyyMMddHHmmssfff"). */
  function Format(t: Timestamp): (s: string)
    ensures |s| == 17
    ensures forall i :: 0 <= i < |s| ==> IsDigit(s[i])
  {
    Digits(t.year, 4) + (Digits(t.month, 2) + (Digits(t.day, 2)
    + (Digits(t.hour, 2) + (Digits(t.minute, 2) + (Digits(t.second, 2)
    + Digits(t.millisecond, 3))))))
  }

  /** Two concatenations with equal-length heads are equal only head by head and tail by tail. */
  lemma ConcatInjective(a1: string, b1: string, a2: string, b2: string)
    requires |a1| == |a2| && a1 + b1 == a2 + b2
    ensures a1 == a2 && b1 == b2
  {
    assert a1 == (a1 + b1)[..|a1|] && a2 == (a2 + b2)[..|a2|];
    assert b1 == (a1 + b1)[|a1|..] && b2 == (a2 + b2)[|a2|..];
  }

  /** Every field of a reading fits the width its specifier gives it. */
  lemma FieldsRoundTrip(t: Timestamp)
    ensures DigitsValue(Digits(t.year, 4)) == t.year
    ensures DigitsValue(Digits(t.month, 2)) == t.month
    ensures DigitsValue(Digits(t.day, 2)) == t.day
    ensures DigitsValue(Digits(t.hour, 2)) == t.hour
    ensures DigitsValue(Digits(t.minute, 2)) == t.minute
    ensures DigitsValue(Digits(t.second, 2)) == t.second
    ensures DigitsValue(Digits(t.millisecond, 3)) == t.millisecond
  {
    assert Pow10(2) == 100 && Pow10(3) == 1000 && Pow10(4) == 10000;
    DigitsRoundTrip(t.year, 4);
    DigitsRoundTrip(t.month, 2);
    DigitsRoundTrip(t.day, 2);
    DigitsRoundTrip(t.hour, 2);
    DigitsRoundTrip(t.minute, 2);
    DigitsRoundTrip(t.second, 2);
    DigitsRoundTrip(t.millisecond, 3);
  }

  /**
   * Two readings give the same suffix only when they are the same
   * millisecond: a renamed duplicate can collide with an earlier one only
   * when both were renamed within one clock tick.
   */
  lemma FormatInjective(a: Timestamp, b: Timestamp)
    requires Format(a) == Format(b)
    ensures a == b
  {
    var rest5a := Digits(a.second, 2) + Digits(a.millisecond, 3);
    var rest5b := Digits(b.second, 2) + Digits(b.millisecond, 3);
    var rest4a := Digits(a.minute, 2) + rest5a;
    var rest4b := Digits(b.minute, 2) + rest5b;
    var rest3a := Digits(a.hour, 2) + rest4a;
    var rest3b := Digits(b.hour, 2) + rest4b;
    var rest2a := Digits(a.day, 2) + rest3a;
    var rest2b := Digits(b.day, 2) + rest3b;
    var rest1a := Digits(a.month, 2) + rest2a;
    var rest1b := Digits(b.month, 2) + rest2b;
    ConcatInjective(Digits(a.year, 4), rest1a, Digits(b.year, 4), rest1b);
    ConcatInjective(Digits(a.month, 2), rest2a, Digits(b.month, 2), rest2b);
    ConcatInjective(Digits(a.day, 2), rest3a, Digits(b.day, 2), rest3b);
    ConcatInjective(Digits(a.hour, 2), rest4a, Digits(b.hour, 2), rest4b);
    ConcatInjective(Digits(a.minute, 2), rest5a, Digits(b.minute, 2), rest5b);
    ConcatInjective(Digits(a.second, 2), Digits(a.millisecond, 3), Digits(b.second, 2), Digits(b.millisecond, 3));
    FieldsRoundTrip(a);
    FieldsRoundTrip(b);
  }
}
