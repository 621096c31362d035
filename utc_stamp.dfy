/** `DateFormatUtils.formatUTC(date, "yyyy-MM-dd'T'HH:mm'Z'")`: the start
    time stamp of a unit of work, to the minute, in UTC, and a reader for it
    that shows the format loses nothing but the seconds. */
module UtcStamp {
  import opened Wrappers

  /** A moment as its calendar fields in UTC. */
  datatype UtcTime = UtcTime(year: nat, month: nat, day: nat, hour: nat, minute: nat, second: nat)

  /** What the stamp keeps of a moment. */
  datatype Minute = Minute(year: nat, month: nat, day: nat, hour: nat, minute: nat)

  predicate ValidTime(t: UtcTime)
  {
    1 <= t.month <= 12 && 1 <= t.day <= 31 && t.hour < 24 && t.minute < 60 && t.second < 60
  }

  function MinuteOf(t: UtcTime): Minute
  {
    Minute(t.year, t.month, t.day, t.hour, t.minute)
  }

  function Digit(d: nat): char
    requires d < 10
  {
    ('0' as int + d) as char
  }

  predicate IsDigit(c: char)
  {
    '0' <= c <= '9'
  }

  predicate AllDigits(s: string)
  {
    forall i :: 0 <= i < |s| ==> IsDigit(s[i])
  }

  function Pow10(w: nat): nat
  {
    if w == 0 then 1 else 10 * Pow10(w - 1)
  }

  /** `n` in exactly `width` decimal digits, zero-padded on the left (the
      lowest `width` digits when `n` has more). */
  function Fixed(n: nat, width: nat): (s: string)
    ensures |s| == width && AllDigits(s)
    decreases width
  {
    if width == 0 then "" else Fixed(n / 10, width - 1) + [Digit(n % 10)]
  }

  /** `n` in as many decimal digits as it needs. */
  function Decimal(n: nat): (s: string)
    ensures |s| > 0 && AllDigits(s)
    decreases n
  {
    if n < 10 then [Digit(n)] else Decimal(n / 10) + [Digit(n % 10)]
  }

  /** The `yyyy` field: at least four digits, more for a larger year. */
  function YearField(y: nat): string
  {
    if y < 10000 then Fixed(y, 4) else Decimal(y)
  }

  /** The `started` stamp, `yyyy-MM-dd'T'HH:mm'Z'`; seconds are dropped. */
  function Started(t: UtcTime): string
  {
    YearField(t.year) + "-" + Fixed(t.month, 2) + "-" + Fixed(t.day, 2)
      + "T" + Fixed(t.hour, 2) + ":" + Fixed(t.minute, 2) + "Z"
  }

  /** The number a string of decimal digits denotes. */
  function Value(s: string): nat
    requires AllDigits(s)
    decreases |s|
  {
    if s == [] then 0 else 10 * Value(s[..|s| - 1]) + (s[|s| - 1] as int - '0' as int)
  }

  /** Reads a stamp with a four-digit year back into its fields. */
  function ParseStarted(s: string): Option<Minute>
  {
    if |s| == 17 && s[4] == '-' && s[7] == '-' && s[10] == 'T' && s[13] == ':' && s[16] == 'Z'
       && AllDigits(s[0..4]) && AllDigits(s[5..7]) && AllDigits(s[8..10])
       && AllDigits(s[11..13]) && AllDigits(s[14..16])
    then Some(Minute(Value(s[0..4]), Value(s[5..7]), Value(s[8..10]), Value(s[11..13]), Value(s[14..16])))
    else None
  }

  /** A number below 10^width is read back from its fixed-width digits. */
  lemma {:induction false} ValueOfFixed(n: nat, width: nat)
    requires n < Pow10(width)
    ensures Value(Fixed(n, width)) == n
    decreases width
  {
    if width > 0 {
      var s := Fixed(n, width);
      assert s[..|s| - 1] == Fixed(n / 10, width - 1);
      ValueOfFixed(n / 10, width - 1);
    }
  }

  /** For a four-digit year the stamp is 17 characters: the date, `T` at
      index 10, the time to the minute and `Z` last. */
  lemma StartedShape(t: UtcTime)
    requires ValidTime(t) && t.year < 10000
    ensures var s := Started(t);
      && |s| == 17 && s[4] == '-' && s[7] == '-' && s[10] == 'T' && s[13] == ':' && s[16] == 'Z'
  {
  }

  /** The stamp of a valid moment with a four-digit year reads back as that
      moment to the minute. */
  lemma ParseStartedInverts(t: UtcTime)
    requires ValidTime(t) && t.year < 10000
    ensures ParseStarted(Started(t)) == Some(MinuteOf(t))
  {
    var s := Started(t);
    StartedShape(t);
    assert s[0..4] == Fixed(t.year, 4);
    assert s[5..7] == Fixed(t.month, 2);
    assert s[8..10] == Fixed(t.day, 2);
    assert s[11..13] == Fixed(t.hour, 2);
    assert s[14..16] == Fixed(t.minute, 2);
    ValueOfFixed(t.year, 4);
    ValueOfFixed(t.month, 2);
    ValueOfFixed(t.day, 2);
    ValueOfFixed(t.hour, 2);
    ValueOfFixed(t.minute, 2);
  }

  /** A number is read back from its decimal digits. */
  lemma {:induction false} ValueOfDecimal(n: nat)
    ensures Value(Decimal(n)) == n
    decreases n
  {
    if n >= 10 {
      var s := Decimal(n);
      assert s[..|s| - 1] == Decimal(n / 10);
      ValueOfDecimal(n / 10);
    }
  }

  /** A number of at least 10^k needs more than k digits. */
  lemma {:induction false} DecimalLength(n: nat, k: nat)
    requires n >= Pow10(k)
    ensures |Decimal(n)| >= k + 1
    decreases k
  {
    if k > 0 {
      assert n / 10 >= Pow10(k - 1);
      DecimalLength(n / 10, k - 1);
    }
  }

  /** The year field of any year has at least four digits and reads back
      as that year. */
  lemma ValueOfYearField(y: nat)
    ensures AllDigits(YearField(y)) && |YearField(y)| >= 4 && Value(YearField(y)) == y
  {
    assert Pow10(4) == 10000;
    if y < 10000 {
      ValueOfFixed(y, 4);
    } else {
      ValueOfDecimal(y);
      DecimalLength(y, 4);
    }
  }

  /** What follows the year: `-MM-dd'T'HH:mm'Z'`, always 13 characters. */
  function StampTail(t: UtcTime): (s: string)
    ensures |s| == 13
  {
    "-" + Fixed(t.month, 2) + "-" + Fixed(t.day, 2) + "T" + Fixed(t.hour, 2) + ":" + Fixed(t.minute, 2) + "Z"
  }

  /** The stamp is the year field followed by the tail. */
  lemma StartedSplits(t: UtcTime)
    ensures Started(t) == YearField(t.year) + StampTail(t)
  {
  }

  /** Two field values below 10^width with the same digits are equal. */
  lemma FixedInjective(a: nat, b: nat, width: nat)
    requires a < Pow10(width) && b < Pow10(width) && Fixed(a, width) == Fixed(b, width)
    ensures a == b
  {
    ValueOfFixed(a, width);
    ValueOfFixed(b, width);
  }

  /** Two valid moments with the same tail agree on month, day, hour and
      minute. */
  lemma StampTailInjective(t: UtcTime, u: UtcTime)
    requires ValidTime(t) && ValidTime(u) && StampTail(t) == StampTail(u)
    ensures t.month == u.month && t.day == u.day && t.hour == u.hour && t.minute == u.minute
  {
    var rt, ru := StampTail(t), StampTail(u);
    assert rt[1..3] == Fixed(t.month, 2) && ru[1..3] == Fixed(u.month, 2);
    assert rt[4..6] == Fixed(t.day, 2) && ru[4..6] == Fixed(u.day, 2);
    assert rt[7..9] == Fixed(t.hour, 2) && ru[7..9] == Fixed(u.hour, 2);
    assert rt[10..12] == Fixed(t.minute, 2) && ru[10..12] == Fixed(u.minute, 2);
    assert Pow10(2) == 100;
    FixedInjective(t.month, u.month, 2);
    FixedInjective(t.day, u.day, 2);
    FixedInjective(t.hour, u.hour, 2);
    FixedInjective(t.minute, u.minute, 2);
  }

  /** Equal stamps have equal year fields and equal tails. */
  lemma SameStampSameParts(t: UtcTime, u: UtcTime)
    requires Started(t) == Started(u)
    ensures YearField(t.year) == YearField(u.year) && StampTail(t) == StampTail(u)
  {
    StartedSplits(t);
    StartedSplits(u);
    var s, yt := Started(t), YearField(t.year);
    assert |yt| == |YearField(u.year)|;
    assert yt == s[..|yt|] == YearField(u.year);
    assert StampTail(t) == s[|yt|..] == StampTail(u);
  }

  /** Minute precision, both ways: two valid moments get the same stamp
      exactly when they fall in the same minute, whatever their years. */
  lemma SameStampSameMinute(t: UtcTime, u: UtcTime)
    requires ValidTime(t) && ValidTime(u)
    ensures Started(t) == Started(u) <==> MinuteOf(t) == MinuteOf(u)
  {
    if Started(t) == Started(u) {
      SameStampSameParts(t, u);
      ValueOfYearField(t.year);
      ValueOfYearField(u.year);
      StampTailInjective(t, u);
    }
  }
}
