/**
 * What the layout recognisers guarantee: every accepted string denotes valid
 * calendar fields that match its literal digits, each layout is inverted by a
 * formatter, at most one layout accepts a given string, and a fallback chain
 * returns the first layout that accepts.
 */
module TimestampFacts {
  import opened Wrappers
  import opened Decimal
  import opened Timestamps

  // ---------------------------------------------------------------- formatters

  function Pad2(n: nat): (s: string)
    requires n < 100
    ensures |s| == 2
  {
    [DigitChar(n / 10), DigitChar(n % 10)]
  }

  function Pad4(n: nat): (s: string)
    requires n < 10000
    ensures |s| == 4
  {
    Pad2(n / 100) + Pad2(n % 100)
  }

  /** "YYYY-MM-DD". */
  function FormatDate(c: Civil): (s: string)
    requires ValidCivil(c)
    ensures |s| == 10
  {
    Pad4(c.year) + "-" + Pad2(c.month) + "-" + Pad2(c.day)
  }

  /** "YYYY-MM-DDTHH:MM". */
  function FormatLocalNaive(c: Civil): (s: string)
    requires ValidCivil(c)
    ensures |s| == 16
  {
    FormatDate(c) + "T" + Pad2(c.hour) + ":" + Pad2(c.minute)
  }

  /** "YYYY-MM-DDTHH:MM:SS". */
  function FormatDateTime(c: Civil): (s: string)
    requires ValidCivil(c)
    ensures |s| == 19
  {
    FormatLocalNaive(c) + ":" + Pad2(c.second)
  }

  /** An offset Go writes with the "Z07:00" element: whole minutes, under a day. */
  predicate ValidOffset(east: int) {
    east % 60 == 0 && -86400 < east < 86400
  }

  /** "Z" for UTC, otherwise a sign and "hh:mm". */
  function ZoneSuffix(east: int): (z: string)
    requires ValidOffset(east)
  {
    if east == 0 then "Z"
    else
      var mag := if east < 0 then -east else east;
      [if east < 0 then '-' else '+'] + Pad2(mag / 3600) + ":" + Pad2(mag / 60 % 60)
  }

  /** "YYYY-MM-DDTHH:MM:SS" followed by the zone suffix (no fraction). */
  function FormatRFC3339(c: Civil, east: int): string
    requires ValidCivil(c) && ValidOffset(east)
  {
    FormatDateTime(c) + ZoneSuffix(east)
  }

  // ---------------------------------------------------------------- digit lemmas

  lemma TwoReadsPad2(s: string, i: nat, n: nat)
    requires n < 100 && i + 2 <= |s|
    requires s[i] == Pad2(n)[0] && s[i + 1] == Pad2(n)[1]
    ensures DigitsAt(s, i, 2) && Two(s, i) == n
  {
  }

  lemma FourReadsPad4(s: string, i: nat, n: nat)
    requires n < 10000 && i + 4 <= |s|
    requires forall k :: 0 <= k < 4 ==> s[i + k] == Pad4(n)[k]
    ensures DigitsAt(s, i, 4) && Four(s, i) == n
  {
    var p := Pad4(n);
    assert s[i] == p[0] && s[i + 1] == p[1] && s[i + 2] == p[2] && s[i + 3] == p[3];
    TwoReadsPad2(s, i, n / 100);
    TwoReadsPad2(s, i + 2, n % 100);
  }

  lemma Pad2OfTwo(s: string, i: nat)
    requires DigitsAt(s, i, 2)
    ensures Two(s, i) < 100 && Pad2(Two(s, i)) == s[i..i + 2]
  {
    var a, b := DigitValue(s[i]), DigitValue(s[i + 1]);
    assert (a * 10 + b) / 10 == a && (a * 10 + b) % 10 == b;
    assert DigitChar(a) == s[i] && DigitChar(b) == s[i + 1];
  }

  lemma Pad4OfFour(s: string, i: nat)
    requires DigitsAt(s, i, 4)
    ensures Four(s, i) < 10000 && Pad4(Four(s, i)) == s[i..i + 4]
  {
    Pad2OfTwo(s, i);
    Pad2OfTwo(s, i + 2);
    var hi, lo := Two(s, i), Two(s, i + 2);
    assert (hi * 100 + lo) / 100 == hi && (hi * 100 + lo) % 100 == lo;
    assert s[i..i + 4] == s[i..i + 2] + s[i + 2..i + 4];
  }

  lemma {:induction false} DigitsValueBound(s: string)
    requires AllDigits(s)
    ensures DigitsValue(s) < Pow10(|s|)
    decreases |s|
  {
    if s != [] {
      DigitsValueBound(s[..|s| - 1]);
    }
  }

  lemma FractionNanosBound(ds: string)
    requires |ds| >= 1 && AllDigits(ds)
    ensures FractionNanos(ds) < 1_000_000_000
  {
    var k := if |ds| < 9 then |ds| else 9;
    assert AllDigits(ds[..k]);
    DigitsValueBound(ds[..k]);
    Pow10Split(k, 9 - k);
    assert Pow10(9) == 1_000_000_000;
    var v := DigitsValue(ds[..k]);
    assert v + 1 <= Pow10(k);
    MulMono(v + 1, Pow10(k), Pow10(9 - k));
  }

  lemma {:induction false} Pow10Split(a: nat, b: nat)
    ensures Pow10(a) * Pow10(b) == Pow10(a + b)
    decreases a
  {
    if a > 0 {
      Pow10Split(a - 1, b);
    }
  }

  lemma MulMono(x: nat, y: nat, z: nat)
    requires x <= y
    ensures x * z <= y * z
  {
  }

  // ---------------------------------------------------------------- acceptance implies shape

  /** A bare date is exactly ten characters and reads the written fields at midnight in the given location. */
  lemma DateAccepted(s: string, loc: Location)
    requires ParseDate(s, loc).Some?
    ensures var t := ParseDate(s, loc).value;
      && |s| == 10 && ValidCivil(t.civil) && t.place == In(loc)
      && t.civil.hour == 0 && t.civil.minute == 0 && t.civil.second == 0 && t.civil.nanosecond == 0
      && FormatDate(t.civil) == s
  {
    var t := ParseDate(s, loc).value;
    Pad4OfFour(s, 0);
    Pad2OfTwo(s, 5);
    Pad2OfTwo(s, 8);
    assert s == s[0..4] + [s[4]] + s[5..7] + [s[7]] + s[8..10];
  }

  /**
   * A local-naive time reads the written fields in the given location. With a
   * two-digit hour the string is exactly the formatted fields; Go's
   * variable-width hour also admits a one-digit hour, the same text without
   * the hour's leading zero.
   */
  lemma LocalNaiveAccepted(s: string, loc: Location)
    requires ParseLocalNaive(s, loc).Some?
    ensures var t := ParseLocalNaive(s, loc).value;
      && ValidCivil(t.civil) && t.place == In(loc)
      && t.civil.second == 0 && t.civil.nanosecond == 0
      && (|s| == 16 || |s| == 15)
      && (|s| == 16 ==> FormatLocalNaive(t.civil) == s)
      && (|s| == 15 ==> t.civil.hour < 10 && FormatLocalNaive(t.civil) == s[..11] + "0" + s[11..])
  {
    var t := ParseLocalNaive(s, loc).value;
    Pad4OfFour(s, 0);
    Pad2OfTwo(s, 5);
    Pad2OfTwo(s, 8);
    var f := FormatLocalNaive(t.civil);
    if IsDigit(s[12]) {
      Pad2OfTwo(s, 11);
      Pad2OfTwo(s, 14);
      assert s == s[0..4] + [s[4]] + s[5..7] + [s[7]] + s[8..10] + [s[10]] + s[11..13] + [s[13]] + s[14..16];
    } else {
      Pad2OfTwo(s, 13);
      var h := DigitValue(s[11]);
      assert Pad2(h) == ['0', s[11]];
      var u := s[..11] + "0" + s[11..];
      assert u == s[0..4] + [s[4]] + s[5..7] + [s[7]] + s[8..10] + [s[10]] + ['0', s[11]] + [s[12]] + s[13..15];
    }
  }

  /** An RFC 3339 time reads its first nineteen characters as valid fields; the zone is UTC or a fixed offset under a day. */
  lemma RFC3339Accepted(s: string)
    requires ParseRFC3339(s).Some?
    ensures var t := ParseRFC3339(s).value;
      && |s| >= 20 && ValidCivil(t.civil) && FormatDateTime(t.civil) == s[..19]
      && (t.place == In(UTC) || (t.place.Offset? && -86400 < t.place.seconds < 86400))
  {
    var t := ParseRFC3339(s).value;
    var rest := s[19..];
    var n := FractionLength(rest);
    if n > 0 {
      FractionNanosBound(rest[1..n]);
    }
    Pad4OfFour(s, 0);
    Pad2OfTwo(s, 5);
    Pad2OfTwo(s, 8);
    Pad2OfTwo(s, 11);
    Pad2OfTwo(s, 14);
    Pad2OfTwo(s, 17);
    assert s[..19] == s[0..4] + [s[4]] + s[5..7] + [s[7]] + s[8..10] + [s[10]] + s[11..13] + [s[13]] + s[14..16]
      + [s[16]] + s[17..19];
    assert |rest[n..]| >= 1;
  }

  // ---------------------------------------------------------------- formatters are inverted

  lemma DateRoundTrip(c: Civil, loc: Location)
    requires ValidCivil(c)
    ensures ParseDate(FormatDate(c), loc) == Some(Time(Civil(c.year, c.month, c.day, 0, 0, 0, 0), In(loc)))
  {
    var s := FormatDate(c);
    FourReadsPad4(s, 0, c.year);
    TwoReadsPad2(s, 5, c.month);
    TwoReadsPad2(s, 8, c.day);
  }

  lemma LocalNaiveRoundTrip(c: Civil, loc: Location)
    requires ValidCivil(c) && c.second == 0 && c.nanosecond == 0
    ensures ParseLocalNaive(FormatLocalNaive(c), loc) == Some(Time(c, In(loc)))
  {
    var s := FormatLocalNaive(c);
    FourReadsPad4(s, 0, c.year);
    TwoReadsPad2(s, 5, c.month);
    TwoReadsPad2(s, 8, c.day);
    TwoReadsPad2(s, 11, c.hour);
    TwoReadsPad2(s, 14, c.minute);
  }

  lemma ZoneSuffixRoundTrip(east: int)
    requires ValidOffset(east)
    ensures ParseZoneSuffix(ZoneSuffix(east)) == Some(if east == 0 then In(UTC) else Offset(east))
  {
    if east != 0 {
      var z := ZoneSuffix(east);
      var mag := if east < 0 then -east else east;
      TwoReadsPad2(z, 1, mag / 3600);
      TwoReadsPad2(z, 4, mag / 60 % 60);
      assert (mag / 3600 * 60 + mag / 60 % 60) * 60 == mag;
    }
  }

  /** Any string that starts with the formatted date and time reads those fields back. */
  lemma DateTimePrefixReads(s: string, c: Civil)
    requires ValidCivil(c) && |s| >= 19 && s[..19] == FormatDateTime(c)
    ensures DateTimeShape(s)
    ensures Four(s, 0) == c.year && Two(s, 5) == c.month && Two(s, 8) == c.day
    ensures Two(s, 11) == c.hour && Two(s, 14) == c.minute && Two(s, 17) == c.second
  {
    var f := FormatDateTime(c);
    assert forall k :: 0 <= k < 19 ==> s[k] == f[k];
    FourReadsPad4(s, 0, c.year);
    TwoReadsPad2(s, 5, c.month);
    TwoReadsPad2(s, 8, c.day);
    TwoReadsPad2(s, 11, c.hour);
    TwoReadsPad2(s, 14, c.minute);
    TwoReadsPad2(s, 17, c.second);
  }

  lemma RFC3339RoundTrip(c: Civil, east: int)
    requires ValidCivil(c) && c.nanosecond == 0 && ValidOffset(east)
    ensures ParseRFC3339(FormatRFC3339(c, east)) == Some(Time(c, if east == 0 then In(UTC) else Offset(east)))
  {
    var s := FormatRFC3339(c, east);
    var z := ZoneSuffix(east);
    assert s[..19] == FormatDateTime(c) && s[19..] == z;
    DateTimePrefixReads(s, c);
    ZoneSuffixRoundTrip(east);
    assert z[0] != '.';
    assert FractionLength(s[19..]) == 0;
  }

  // ---------------------------------------------------------------- the fallback chain

  /** The three layouts accept strings of different lengths, so at most one accepts any string. */
  lemma LayoutsDisjoint(s: string, loc: Location)
    ensures !(ParseLocalNaive(s, loc).Some? && ParseRFC3339(s).Some?)
    ensures !(ParseLocalNaive(s, loc).Some? && ParseDate(s, loc).Some?)
    ensures !(ParseRFC3339(s).Some? && ParseDate(s, loc).Some?)
  {
    if ParseLocalNaive(s, loc).Some? {
      LocalNaiveAccepted(s, loc);
    }
    if ParseRFC3339(s).Some? {
      RFC3339Accepted(s);
    }
  }

  /** A chain yields the result of its first accepting layout, and nothing when none accepts. */
  lemma {:induction false} FirstParseIsFirstSuccess(layouts: seq<Layout>, s: string, loc: Location)
    ensures FirstParse(layouts, s, loc).None? <==> forall k :: 0 <= k < |layouts| ==> ParseWith(layouts[k], s, loc).None?
    ensures FirstParse(layouts, s, loc).Some? ==>
      exists k :: 0 <= k < |layouts| && FirstParse(layouts, s, loc) == ParseWith(layouts[k], s, loc)
        && forall j :: 0 <= j < k ==> ParseWith(layouts[j], s, loc).None?
    decreases |layouts|
  {
    if layouts != [] {
      FirstParseIsFirstSuccess(layouts[1..], s, loc);
      if ParseWith(layouts[0], s, loc).None? {
        if FirstParse(layouts, s, loc).Some? {
          var k :| 0 <= k < |layouts[1..]| && FirstParse(layouts[1..], s, loc) == ParseWith(layouts[1..][k], s, loc)
            && forall j :: 0 <= j < k ==> ParseWith(layouts[1..][j], s, loc).None?;
          assert FirstParse(layouts, s, loc) == ParseWith(layouts[k + 1], s, loc);
          forall j | 0 <= j < k + 1
            ensures ParseWith(layouts[j], s, loc).None?
          {
            if j > 0 {
              assert layouts[j] == layouts[1..][j - 1];
            }
          }
        }
        forall k | 0 <= k < |layouts| && k > 0
          ensures ParseWith(layouts[k], s, loc) == ParseWith(layouts[1..][k - 1], s, loc)
        {
        }
      }
    }
  }

  /**
   * A timestamp is read local-naive first and as RFC 3339 only when that fails;
   * since no string has both forms, the order of the two makes no difference.
   */
  lemma ParseTimestampFallback(s: string, loc: Location)
    ensures ParseTimestamp(s, loc) == if ParseLocalNaive(s, loc).Some? then ParseLocalNaive(s, loc) else ParseRFC3339(s)
    ensures ParseTimestamp(s, loc) == FirstParse([RFC3339, LocalNaive], s, loc)
  {
    LayoutsDisjoint(s, loc);
  }

  /** An accepted timestamp has valid fields; it lies in `loc` when local-naive, at UTC or an offset under a day otherwise. */
  lemma ParseTimestampAccepted(s: string, loc: Location)
    requires ParseTimestamp(s, loc).Some?
    ensures ValidCivil(ParseTimestamp(s, loc).value.civil)
    ensures var p := ParseTimestamp(s, loc).value.place;
      p == In(loc) || p == In(UTC) || (p.Offset? && -86400 < p.seconds < 86400)
    ensures ParseLocalNaive(s, loc).None? ==> ParseTimestamp(s, loc) == ParseRFC3339(s)
  {
    ParseTimestampFallback(s, loc);
    if ParseLocalNaive(s, loc).Some? {
      LocalNaiveAccepted(s, loc);
    } else {
      RFC3339Accepted(s);
    }
  }
}
