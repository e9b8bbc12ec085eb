/**
 * The batch identity: a wall-clock moment to the second, written as the fixed-width
 * key `YYYY-MM-DD_HH-MM-SS`.  The pipeline treats the largest key in Python's string
 * order as the most recent batch; this module proves that this is sound.
 */
module Keys {
  import opened Common

  /** A naive Python `datetime` without microseconds. */
  datatype DateTime = DateTime(year: nat, month: nat, day: nat, hour: nat, minute: nat, second: nat)

  /** A Python `date` (the value of the date stamp column). */
  datatype Date = Date(year: nat, month: nat, day: nat)

  predicate IsLeap(y: nat)
  {
    y % 4 == 0 && (y % 100 != 0 || y % 400 == 0)
  }

  function DaysInMonth(y: nat, m: nat): (d: nat)
    requires 1 <= m <= 12
    ensures 28 <= d <= 31
  {
    if m == 2 then (if IsLeap(y) then 29 else 28)
    else if m == 4 || m == 6 || m == 9 || m == 11 then 30
    else 31
  }

  /** The values `datetime(...)` accepts (so the values `strptime` can return). */
  predicate ValidDateTime(dt: DateTime)
  {
    && 1 <= dt.year <= 9999
    && 1 <= dt.month <= 12
    && 1 <= dt.day <= DaysInMonth(dt.year, dt.month)
    && dt.hour < 24 && dt.minute < 60 && dt.second < 60
  }

  function DateOf(dt: DateTime): Date
  {
    Date(dt.year, dt.month, dt.day)
  }

  /** Chronological order: `a` is not later than `b`. */
  predicate NotAfter(a: DateTime, b: DateTime)
  {
    || a.year < b.year
    || (a.year == b.year && a.month < b.month)
    || (a.year == b.year && a.month == b.month && a.day < b.day)
    || (a.year == b.year && a.month == b.month && a.day == b.day && a.hour < b.hour)
    || (a.year == b.year && a.month == b.month && a.day == b.day && a.hour == b.hour && a.minute < b.minute)
    || (a.year == b.year && a.month == b.month && a.day == b.day && a.hour == b.hour && a.minute == b.minute
        && a.second <= b.second)
  }

  // ---------------------------------------------------------------------------
  // Decimal digits and zero padding (`strftime` and the regex's `\d`)
  // ---------------------------------------------------------------------------

  predicate IsDigit(c: char)
  {
    '0' <= c <= '9'
  }

  predicate AllDigits(s: string)
  {
    forall i :: 0 <= i < |s| ==> IsDigit(s[i])
  }

  function Digit(d: nat): (c: char)
    requires d < 10
    ensures IsDigit(c)
  {
    (d + 48) as char
  }

  /** The number a string of decimal digits denotes (`int(s)`). */
  function Value(s: string): nat
    requires AllDigits(s)
  {
    if s == [] then 0 else 10 * Value(s[..|s| - 1]) + (s[|s| - 1] as int - 48)
  }

  /** `%m`, `%d`, `%H`, `%M`, `%S`: two digits, zero padded. */
  function Pad2(n: nat): (s: string)
    requires n < 100
    ensures |s| == 2 && AllDigits(s)
  {
    [Digit(n / 10), Digit(n % 10)]
  }

  /** `%Y`: four digits, zero padded. */
  function Pad4(n: nat): (s: string)
    requires n < 10000
    ensures |s| == 4 && AllDigits(s)
  {
    Pad2(n / 100) + Pad2(n % 100)
  }

  lemma ValueOfTwo(s: string)
    requires |s| == 2 && AllDigits(s)
    ensures Value(s) == 10 * (s[0] as int - 48) + (s[1] as int - 48)
  {
    var h := s[..1];
    assert h[..|h| - 1] == [] && h[|h| - 1] == s[0];
    assert Value(h) == s[0] as int - 48;
    assert s[..|s| - 1] == h;
  }

  lemma ValueAppendTwo(x: string, y: string)
    requires AllDigits(x) && |y| == 2 && AllDigits(y)
    ensures AllDigits(x + y) && Value(x + y) == 100 * Value(x) + Value(y)
  {
    var xy := x + y;
    assert xy[..|xy| - 1] == x + [y[0]];
    assert (x + [y[0]])[..|x|] == x;
    ValueOfTwo(y);
  }

  lemma {:induction false} Pad2RoundTrip(n: nat)
    requires n < 100
    ensures Value(Pad2(n)) == n
  {
    ValueOfTwo(Pad2(n));
  }

  lemma {:induction false} Pad4RoundTrip(n: nat)
    requires n < 10000
    ensures Value(Pad4(n)) == n
  {
    ValueAppendTwo(Pad2(n / 100), Pad2(n % 100));
    Pad2RoundTrip(n / 100);
    Pad2RoundTrip(n % 100);
  }

  lemma {:induction false} Value2RoundTrip(s: string)
    requires |s| == 2 && AllDigits(s)
    ensures Value(s) < 100 && Pad2(Value(s)) == s
  {
    ValueOfTwo(s);
  }

  lemma {:induction false} Value4RoundTrip(s: string)
    requires |s| == 4 && AllDigits(s)
    ensures Value(s) < 10000 && Pad4(Value(s)) == s
  {
    var hi, lo := s[..2], s[2..];
    assert s == hi + lo;
    ValueAppendTwo(hi, lo);
    Value2RoundTrip(hi);
    Value2RoundTrip(lo);
    HundredsSplit(Value(hi), Value(lo));
  }

  /** The quotient and remainder by 100 of a two-part number give back its parts. */
  lemma HundredsSplit(q: nat, r: nat)
    requires r < 100
    ensures (100 * q + r) / 100 == q && (100 * q + r) % 100 == r
  {
  }

  // ---------------------------------------------------------------------------
  // The batch key
  // ---------------------------------------------------------------------------

  /** The shape `\d{4}-\d{2}-\d{2}` of the regex's date group. */
  predicate DatePattern(s: string)
  {
    |s| == 10 && AllDigits(s[..4]) && s[4] == '-' && AllDigits(s[5..7]) && s[7] == '-' && AllDigits(s[8..])
  }

  /** The shape `\d{2}-\d{2}-\d{2}` of the regex's time group. */
  predicate TimePattern(s: string)
  {
    |s| == 8 && AllDigits(s[..2]) && s[2] == '-' && AllDigits(s[3..5]) && s[5] == '-' && AllDigits(s[6..])
  }

  /** `strftime('%Y-%m-%d')` */
  function DateString(dt: DateTime): (s: string)
    requires ValidDateTime(dt)
    ensures DatePattern(s)
  {
    Pad4(dt.year) + "-" + Pad2(dt.month) + "-" + Pad2(dt.day)
  }

  /** `strftime('%H-%M-%S')` */
  function TimeString(dt: DateTime): (s: string)
    requires ValidDateTime(dt)
    ensures TimePattern(s)
  {
    Pad2(dt.hour) + "-" + Pad2(dt.minute) + "-" + Pad2(dt.second)
  }

  /** The batch identity key `YYYY-MM-DD_HH-MM-SS`. */
  function BatchKey(dt: DateTime): (k: string)
    requires ValidDateTime(dt)
    ensures |k| == 19
  {
    DateString(dt) + "_" + TimeString(dt)
  }

  /** `strftime('%H:%M:%S')`: the time of the key with colons in place of its dashes. */
  function ClockString(dt: DateTime): (s: string)
    requires ValidDateTime(dt)
    ensures s == ReplaceChar(TimeString(dt), '-', ':')
  {
    var r := Pad2(dt.hour) + ":" + Pad2(dt.minute) + ":" + Pad2(dt.second);
    assert forall i :: 0 <= i < 8 ==> r[i] == if TimeString(dt)[i] == '-' then ':' else TimeString(dt)[i];
    r
  }

  /** The numbers written in a date group and a time group, before any calendar check. */
  function FieldsOf(date: string, time: string): DateTime
    requires DatePattern(date) && TimePattern(time)
  {
    DateTime(Value(date[..4]), Value(date[5..7]), Value(date[8..]),
             Value(time[..2]), Value(time[3..5]), Value(time[6..]))
  }

  /** Formatting a moment and reading it back gives the same moment. */
  lemma {:induction false} FieldsOfFormatted(dt: DateTime)
    requires ValidDateTime(dt)
    ensures FieldsOf(DateString(dt), TimeString(dt)) == dt
  {
    var d, t := DateString(dt), TimeString(dt);
    assert d[..4] == Pad4(dt.year);
    assert d[5..7] == Pad2(dt.month);
    assert d[8..] == Pad2(dt.day);
    assert t[..2] == Pad2(dt.hour);
    assert t[3..5] == Pad2(dt.minute);
    assert t[6..] == Pad2(dt.second);
    Pad4RoundTrip(dt.year);
    Pad2RoundTrip(dt.month);
    Pad2RoundTrip(dt.day);
    Pad2RoundTrip(dt.hour);
    Pad2RoundTrip(dt.minute);
    Pad2RoundTrip(dt.second);
  }

  /** Reading a well-shaped date and time and formatting the moment again gives back the same text. */
  lemma {:induction false} FormattedFieldsOf(date: string, time: string)
    requires DatePattern(date) && TimePattern(time) && ValidDateTime(FieldsOf(date, time))
    ensures DateString(FieldsOf(date, time)) == date
    ensures TimeString(FieldsOf(date, time)) == time
  {
    Value4RoundTrip(date[..4]);
    Value2RoundTrip(date[5..7]);
    Value2RoundTrip(date[8..]);
    Value2RoundTrip(time[..2]);
    Value2RoundTrip(time[3..5]);
    Value2RoundTrip(time[6..]);
    assert date == date[..4] + "-" + date[5..7] + "-" + date[8..];
    assert time == time[..2] + "-" + time[3..5] + "-" + time[6..];
  }

  // ---------------------------------------------------------------------------
  // Python's string order
  // ---------------------------------------------------------------------------

  /** `a <= b` on Python strings: lexicographic by code point, a prefix sorts first. */
  predicate LexLe(a: string, b: string)
  {
    |a| == 0 || (|b| > 0 && (a[0] < b[0] || (a[0] == b[0] && LexLe(a[1..], b[1..]))))
  }

  lemma {:induction false} LexLeRefl(a: string)
    ensures LexLe(a, a)
  {
    if |a| > 0 { LexLeRefl(a[1..]); }
  }

  lemma {:induction false} LexLeTotal(a: string, b: string)
    ensures LexLe(a, b) || LexLe(b, a)
  {
    if |a| > 0 && |b| > 0 && a[0] == b[0] { LexLeTotal(a[1..], b[1..]); }
  }

  lemma {:induction false} LexLeAntisymmetric(a: string, b: string)
    requires LexLe(a, b) && LexLe(b, a)
    ensures a == b
  {
    if |a| > 0 {
      LexLeAntisymmetric(a[1..], b[1..]);
      assert a == [a[0]] + a[1..] && b == [b[0]] + b[1..];
    }
  }

  lemma {:induction false} LexLeTransitive(a: string, b: string, c: string)
    requires LexLe(a, b) && LexLe(b, c)
    ensures LexLe(a, c)
  {
    if |a| > 0 && a[0] == b[0] && b[0] == c[0] { LexLeTransitive(a[1..], b[1..], c[1..]); }
  }

  /** Comparing two strings whose first parts have the same width compares those parts first. */
  lemma {:induction false} LexLeConcat(p: string, x: string, q: string, y: string)
    requires |p| == |q|
    ensures LexLe(p + x, q + y) <==> (LexLe(p, q) && p != q) || (p == q && LexLe(x, y))
  {
    if |p| > 0 {
      assert (p + x)[1..] == p[1..] + x && (q + y)[1..] == q[1..] + y;
      LexLeConcat(p[1..], x, q[1..], y);
      assert p == [p[0]] + p[1..] && q == [q[0]] + q[1..];
    } else {
      assert p + x == x && q + y == y;
    }
  }

  lemma {:induction false} Pad2Order(n: nat, m: nat, x: string, y: string)
    requires n < 100 && m < 100
    ensures LexLe(Pad2(n) + x, Pad2(m) + y) <==> n < m || (n == m && LexLe(x, y))
  {
    LexLeConcat(Pad2(n), x, Pad2(m), y);
    Pad2RoundTrip(n);
    Pad2RoundTrip(m);
    var a, b := Pad2(n), Pad2(m);
    assert LexLe(a, b) <==> a[0] < b[0] || (a[0] == b[0] && LexLe(a[1..], b[1..]));
    assert LexLe(a[1..], b[1..]) <==> a[1] <= b[1] by {
      assert a[1..][1..] == [] && b[1..][1..] == [];
    }
  }

  lemma {:induction false} Pad4Order(n: nat, m: nat, x: string, y: string)
    requires n < 10000 && m < 10000
    ensures LexLe(Pad4(n) + x, Pad4(m) + y) <==> n < m || (n == m && LexLe(x, y))
  {
    assert Pad4(n) + x == Pad2(n / 100) + (Pad2(n % 100) + x);
    assert Pad4(m) + y == Pad2(m / 100) + (Pad2(m % 100) + y);
    Pad2Order(n / 100, m / 100, Pad2(n % 100) + x, Pad2(m % 100) + y);
    Pad2Order(n % 100, m % 100, x, y);
  }

  lemma SeparatorOrder(c: char, x: string, y: string)
    ensures LexLe([c] + x, [c] + y) <==> LexLe(x, y)
  {
    assert ([c] + x)[1..] == x && ([c] + y)[1..] == y;
  }

  /**
   * The design's central invariant: on batch keys, Python's string order is the
   * chronological order of the moments they name.
   */
  lemma {:induction false} KeyOrderIsChronological(a: DateTime, b: DateTime)
    requires ValidDateTime(a) && ValidDateTime(b)
    ensures LexLe(BatchKey(a), BatchKey(b)) <==> NotAfter(a, b)
  {
    var s5a, s5b := "-" + Pad2(a.second), "-" + Pad2(b.second);
    var r4a, r4b := Pad2(a.minute) + s5a, Pad2(b.minute) + s5b;
    var s4a, s4b := "-" + r4a, "-" + r4b;
    var r3a, r3b := Pad2(a.hour) + s4a, Pad2(b.hour) + s4b;
    var s3a, s3b := "_" + r3a, "_" + r3b;
    var r2a, r2b := Pad2(a.day) + s3a, Pad2(b.day) + s3b;
    var s2a, s2b := "-" + r2a, "-" + r2b;
    var r1a, r1b := Pad2(a.month) + s2a, Pad2(b.month) + s2b;
    var s1a, s1b := "-" + r1a, "-" + r1b;
    assert BatchKey(a) == Pad4(a.year) + s1a;
    assert BatchKey(b) == Pad4(b.year) + s1b;
    Pad4Order(a.year, b.year, s1a, s1b);
    SeparatorOrder('-', r1a, r1b);
    Pad2Order(a.month, b.month, s2a, s2b);
    SeparatorOrder('-', r2a, r2b);
    Pad2Order(a.day, b.day, s3a, s3b);
    SeparatorOrder('_', r3a, r3b);
    Pad2Order(a.hour, b.hour, s4a, s4b);
    SeparatorOrder('-', r4a, r4b);
    Pad2Order(a.minute, b.minute, s5a, s5b);
    SeparatorOrder('-', Pad2(a.second), Pad2(b.second));
    Pad2Order(a.second, b.second, [], []);
    assert Pad2(a.second) + [] == Pad2(a.second) && Pad2(b.second) + [] == Pad2(b.second);
    LexLeRefl([]);
  }

  /** Distinct moments have distinct keys, so a key names exactly one batch. */
  lemma {:induction false} BatchKeyInjective(a: DateTime, b: DateTime)
    requires ValidDateTime(a) && ValidDateTime(b) && BatchKey(a) == BatchKey(b)
    ensures a == b
  {
    assert DateString(a) == BatchKey(a)[..10] == BatchKey(b)[..10] == DateString(b);
    assert TimeString(a) == BatchKey(a)[11..] == BatchKey(b)[11..] == TimeString(b);
    FieldsOfFormatted(a);
    FieldsOfFormatted(b);
  }

  // ---------------------------------------------------------------------------
  // `sorted(keys, reverse=True)[0]`
  // ---------------------------------------------------------------------------

  lemma UpperBoundTransitive(ks: seq<string>, m: string, r: string)
    requires forall k :: k in ks ==> LexLe(k, m)
    requires LexLe(m, r)
    ensures forall k :: k in ks ==> LexLe(k, r)
  {
    forall k | k in ks ensures LexLe(k, r) { LexLeTransitive(k, m, r); }
  }

  /** The first element of the keys sorted in descending order: the greatest key. */
  function MaxOf(keys: seq<string>): (r: string)
    requires |keys| > 0
    ensures r in keys
    ensures forall k :: k in keys ==> LexLe(k, r)
  {
    if |keys| == 1 then
      LexLeRefl(keys[0]);
      keys[0]
    else
      var m := MaxOf(keys[1..]);
      assert keys == [keys[0]] + keys[1..];
      LexLeTotal(keys[0], m);
      LexLeRefl(keys[0]);
      if LexLe(m, keys[0]) then
        UpperBoundTransitive(keys[1..], m, keys[0]);
        keys[0]
      else
        m
  }

  // ---------------------------------------------------------------------------
  // The object name layout shared by the downloader and the loader
  // ---------------------------------------------------------------------------

  /** The part of an object name before `__<date>_<time>.<ext>`. */
  function StorageBody(raw: string, year: string, month: string, source: string): string
  {
    raw + "/" + year + "-" + month + "/" + source
  }

  /** The name of an object stored as `<raw>/<year>-<month>/<source>__<date>_<time>.<ext>`. */
  function StorageName(raw: string, year: string, month: string, source: string, date: string, time: string,
                       ext: string): string
  {
    StorageBody(raw, year, month, source) + "__" + date + "_" + time + "." + ext
  }
}
