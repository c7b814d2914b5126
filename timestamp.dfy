/** The local time, at second resolution, at which a conversation is saved,
    and its rendering by `strftime("%Y-%m-%d %H:%M:%S")`. The clock itself is
    not modelled: callers pass the time in. */
module Timestamp {
  import opened Text

  datatype Stamp = Stamp(year: nat, month: nat, day: nat, hour: nat, minute: nat, second: nat)

  /** The readings the clock gives. Years stay at four digits, the width
      `%Y` renders without padding. */
  predicate Valid(s: Stamp) {
    1000 <= s.year <= 9999 && 1 <= s.month <= 12 && 1 <= s.day <= 31 &&
    s.hour < 24 && s.minute < 60 && s.second < 60
  }

  /** The order of two clock readings, field by field from the year down. */
  predicate Earlier(s: Stamp, t: Stamp) {
    s.year < t.year || (s.year == t.year &&
    (s.month < t.month || (s.month == t.month &&
    (s.day < t.day || (s.day == t.day &&
    (s.hour < t.hour || (s.hour == t.hour &&
    (s.minute < t.minute || (s.minute == t.minute && s.second < t.second)))))))))
  }

  function Digit(n: nat): (c: char)
    requires n < 10
    ensures '0' <= c <= '9' && c as int - '0' as int == n
  {
    (48 + n) as char
  }

  /** `%m`, `%d`, `%H`, `%M`, `%S`: two digits, zero-padded. */
  function TwoDigits(n: nat): (r: string)
    requires n < 100
    ensures |r| == 2 && ' ' !in r
  {
    [Digit(n / 10), Digit(n % 10)]
  }

  /** `%Y` */
  function FourDigits(n: nat): (r: string)
    requires n < 10000
    ensures |r| == 4 && ' ' !in r
  {
    TwoDigits(n / 100) + TwoDigits(n % 100)
  }

  /** A separator followed by a two-digit field. */
  function Field(sep: char, n: nat): (r: string)
    requires n < 100 && sep != ' '
    ensures |r| == 3 && ' ' !in r
  {
    [sep] + TwoDigits(n)
  }

  /** `YYYY-MM-DD` */
  function DatePart(s: Stamp): (r: string)
    requires Valid(s)
    ensures |r| == 10 && ' ' !in r
  {
    FourDigits(s.year) + (Field('-', s.month) + Field('-', s.day))
  }

  /** `HH:MM:SS` */
  function TimePart(s: Stamp): (r: string)
    requires Valid(s)
    ensures |r| == 8 && ' ' !in r
  {
    TwoDigits(s.hour) + (Field(':', s.minute) + Field(':', s.second))
  }

  /** The date and the time joined by `sep`. */
  function Layout(s: Stamp, sep: char): (r: string)
    requires Valid(s)
    ensures |r| == 19 && r[10] == sep
    ensures forall i :: 0 <= i < 19 && i != 10 ==> r[i] != ' '
  {
    var r := DatePart(s) + ([sep] + TimePart(s));
    assert forall i :: 0 <= i < 10 ==> r[i] == DatePart(s)[i];
    assert forall i :: 11 <= i < 19 ==> r[i] == TimePart(s)[i - 11];
    r
  }

  /** `strftime("%Y-%m-%d %H:%M:%S")`: nineteen characters whose only space
      separates the date from the time. */
  function Format(s: Stamp): (r: string)
    requires Valid(s)
    ensures |r| == 19 && r[10] == ' '
    ensures forall i :: 0 <= i < 19 && i != 10 ==> r[i] != ' '
    ensures r[4] == '-' && r[7] == '-' && r[13] == ':' && r[16] == ':'
  {
    Layout(s, ' ')
  }

  lemma TwoDigitsCompare(x: nat, y: nat)
    requires x < 100 && y < 100
    ensures TwoDigits(x) == TwoDigits(y) <==> x == y
    ensures Precedes(TwoDigits(x), TwoDigits(y)) <==> x < y
  {
    assert x == 10 * (x / 10) + x % 10;
    assert y == 10 * (y / 10) + y % 10;
    var a, b := TwoDigits(x), TwoDigits(y);
    assert a[1..] == [Digit(x % 10)] && b[1..] == [Digit(y % 10)];
    assert a[1..][1..] == [] && b[1..][1..] == [];
    assert Precedes(a[1..], b[1..]) <==> x % 10 < y % 10;
    assert Precedes(a, b) <==> x / 10 < y / 10 || (x / 10 == y / 10 && Precedes(a[1..], b[1..]));
  }

  lemma FourDigitsCompare(x: nat, y: nat)
    requires x < 10000 && y < 10000
    ensures FourDigits(x) == FourDigits(y) <==> x == y
    ensures Precedes(FourDigits(x), FourDigits(y)) <==> x < y
  {
    assert x == 100 * (x / 100) + x % 100;
    assert y == 100 * (y / 100) + y % 100;
    TwoDigitsCompare(x / 100, y / 100);
    TwoDigitsCompare(x % 100, y % 100);
    CompareConcat(TwoDigits(x / 100), TwoDigits(y / 100), TwoDigits(x % 100), TwoDigits(y % 100));
  }

  lemma FieldCompare(sep: char, x: nat, y: nat)
    requires x < 100 && y < 100 && sep != ' '
    ensures Field(sep, x) == Field(sep, y) <==> x == y
    ensures Precedes(Field(sep, x), Field(sep, y)) <==> x < y
  {
    TwoDigitsCompare(x, y);
    PrecedesIrreflexive([sep]);
    CompareConcat([sep], [sep], TwoDigits(x), TwoDigits(y));
  }

  /** Whatever separator joins date and time, the rendering tells readings
      apart exactly, and string order is the order of the readings. */
  lemma LayoutCompare(s: Stamp, t: Stamp, sep: char)
    requires Valid(s) && Valid(t)
    ensures Layout(s, sep) == Layout(t, sep) <==> s == t
    ensures Precedes(Layout(s, sep), Layout(t, sep)) <==> Earlier(s, t)
  {
    // the date
    FourDigitsCompare(s.year, t.year);
    FieldCompare('-', s.month, t.month);
    FieldCompare('-', s.day, t.day);
    CompareConcat(Field('-', s.month), Field('-', t.month), Field('-', s.day), Field('-', t.day));
    CompareConcat(FourDigits(s.year), FourDigits(t.year),
                  Field('-', s.month) + Field('-', s.day), Field('-', t.month) + Field('-', t.day));
    // the time
    TwoDigitsCompare(s.hour, t.hour);
    FieldCompare(':', s.minute, t.minute);
    FieldCompare(':', s.second, t.second);
    CompareConcat(Field(':', s.minute), Field(':', t.minute), Field(':', s.second), Field(':', t.second));
    CompareConcat(TwoDigits(s.hour), TwoDigits(t.hour),
                  Field(':', s.minute) + Field(':', s.second), Field(':', t.minute) + Field(':', t.second));
    // joined
    PrecedesIrreflexive([sep]);
    CompareConcat([sep], [sep], TimePart(s), TimePart(t));
    CompareConcat(DatePart(s), DatePart(t), [sep] + TimePart(s), [sep] + TimePart(t));
  }
}
