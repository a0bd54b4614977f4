/**
 * Wall-clock instants, as `datetime.now()` returns them, and their
 * `strftime('%Y-%m-%d %H:%M:%S')` text.  The clock itself is not modelled:
 * every operation that reads it takes the instant as a parameter.
 */
module Clock {
  import opened Numerals

  datatype Instant = Instant(year: nat, month: nat, day: nat, hour: nat, minute: nat, second: nat)

  /** The field ranges of a `datetime` (day-of-month is bounded by 31 only). */
  predicate Valid(t: Instant) {
    1 <= t.year <= 9999 && 1 <= t.month <= 12 && 1 <= t.day <= 31
    && t.hour < 24 && t.minute < 60 && t.second < 60
  }

  /** `t.strftime('%Y-%m-%d %H:%M:%S')`, the year zero-padded to four digits. */
  function Stamp(t: Instant): (r: string)
    ensures 19 <= |r|
  {
    Joined(Padded(t.year, 4), '-', Padded(t.month, 2), Padded(t.day, 2)) + " "
    + Joined(Padded(t.hour, 2), ':', Padded(t.minute, 2), Padded(t.second, 2))
  }

  /** Three fields with a separator between each two, as in `%Y-%m-%d` or `%H:%M:%S`. */
  function Joined(a: string, sep: char, b: string, c: string): string {
    a + [sep] + b + [sep] + c
  }

  /** Each field of a joined text is found again at its offset. */
  lemma JoinedShape(a: string, sep: char, b: string, c: string)
    ensures var j := Joined(a, sep, b, c);
      && |j| == |a| + |b| + |c| + 2
      && j[|a|] == sep && j[|a| + |b| + 1] == sep
      && j[..|a|] == a && j[|a| + 1..|a| + |b| + 1] == b && j[|a| + |b| + 2..] == c
  {
  }

  /** A valid instant formats to 19 characters. */
  lemma StampLength(t: Instant)
    requires Valid(t)
    ensures |Stamp(t)| == 19
  {
    assert Pow(10, 2) == 100 && Pow(10, 4) == 10000;
    PaddedLength(t.year, 4);
    PaddedLength(t.month, 2);
    PaddedLength(t.day, 2);
    PaddedLength(t.hour, 2);
    PaddedLength(t.minute, 2);
    PaddedLength(t.second, 2);
  }

  /** A valid instant always formats as `YYYY-MM-DD HH:MM:SS`: the fields sit at fixed offsets. */
  lemma StampLayout(t: Instant)
    requires Valid(t)
    ensures var s := Stamp(t);
      && |s| == 19
      && s[4] == '-' && s[7] == '-' && s[10] == ' ' && s[13] == ':' && s[16] == ':'
      && s[..4] == Padded(t.year, 4) && s[5..7] == Padded(t.month, 2) && s[17..] == Padded(t.second, 2)
  {
    assert Pow(10, 2) == 100 && Pow(10, 4) == 10000;
    PaddedLength(t.year, 4);
    PaddedLength(t.month, 2);
    PaddedLength(t.day, 2);
    PaddedLength(t.hour, 2);
    PaddedLength(t.minute, 2);
    PaddedLength(t.second, 2);
    FieldsLayout(Padded(t.year, 4), Padded(t.month, 2), Padded(t.day, 2),
                 Padded(t.hour, 2), Padded(t.minute, 2), Padded(t.second, 2));
  }

  /** Six fields of the widths `%Y-%m-%d %H:%M:%S` gives them land at fixed offsets. */
  lemma FieldsLayout(y: string, mo: string, d: string, h: string, mi: string, se: string)
    requires |y| == 4 && |mo| == 2 && |d| == 2 && |h| == 2 && |mi| == 2 && |se| == 2
    ensures var s := Joined(y, '-', mo, d) + " " + Joined(h, ':', mi, se);
      && |s| == 19
      && s[4] == '-' && s[7] == '-' && s[10] == ' ' && s[13] == ':' && s[16] == ':'
      && s[..4] == y && s[5..7] == mo && s[17..] == se
  {
    var date := Joined(y, '-', mo, d);
    var time := Joined(h, ':', mi, se);
    JoinedShape(y, '-', mo, d);
    JoinedShape(h, ':', mi, se);
    var s := date + " " + time;
    assert s[..4] == date[..4];
    assert s[5..7] == date[5..7];
    assert s[17..] == time[6..];
  }

  /** The year, month and second read back from the formatted text. */
  lemma StampShape(t: Instant)
    requires Valid(t)
    ensures |Stamp(t)| == 19
    ensures Stamp(t)[4] == '-' && Stamp(t)[7] == '-' && Stamp(t)[10] == ' '
    ensures Stamp(t)[13] == ':' && Stamp(t)[16] == ':'
    ensures AllDigits(Stamp(t)[..4]) && DecimalValue(Stamp(t)[..4]) == t.year
    ensures AllDigits(Stamp(t)[5..7]) && DecimalValue(Stamp(t)[5..7]) == t.month
    ensures AllDigits(Stamp(t)[17..]) && DecimalValue(Stamp(t)[17..]) == t.second
  {
    StampLayout(t);
    PaddedShape(t.year, 4);
    PaddedShape(t.month, 2);
    PaddedShape(t.second, 2);
  }
}
