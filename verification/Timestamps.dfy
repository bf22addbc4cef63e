/** Second-precision ISO timestamps as the sync code compares them: as strings
    for the watermark (packages/acip_sync/reconcile.py) and as epoch seconds for
    the document version (packages/acip_sync/ingest.py). */
module Timestamps {
  import opened Wrappers

  datatype Stamp = Stamp(year: nat, month: nat, day: nat, hour: nat, minute: nat, second: nat)

  // ---- calendar ------------------------------------------------------------------

  predicate IsLeap(y: nat) {
    y % 4 == 0 && (y % 100 != 0 || y % 400 == 0)
  }

  function DaysInMonth(y: nat, m: nat): nat {
    if m == 2 then (if IsLeap(y) then 29 else 28)
    else if m == 4 || m == 6 || m == 9 || m == 11 then 30
    else 31
  }

  function DaysInYear(y: nat): nat {
    if IsLeap(y) then 366 else 365
  }

  /** The datetime library's closed form, counting from year 1. */
  function DaysBeforeYear(y: nat): nat
    requires y >= 1
  {
    var p := y - 1;
    p * 365 + p / 4 - p / 100 + p / 400
  }

  function DaysBeforeMonth(y: nat, m: nat): nat {
    if m <= 1 then 0 else DaysBeforeMonth(y, m - 1) + DaysInMonth(y, m - 1)
  }

  predicate Valid(t: Stamp) {
    && 1 <= t.year <= 9999 && 1 <= t.month <= 12 && 1 <= t.day <= DaysInMonth(t.year, t.month)
    && t.hour < 24 && t.minute < 60 && t.second < 60
  }

  const EPOCH_ORDINAL := 719163

  function EpochSeconds(t: Stamp): int
    requires Valid(t)
  {
    var ordinal := DaysBeforeYear(t.year) + DaysBeforeMonth(t.year, t.month) + t.day;
    (ordinal - EPOCH_ORDINAL) * 86400 + t.hour * 3600 + t.minute * 60 + t.second
  }

  lemma LeapSteps(p: nat)
    ensures (p + 1) / 4 == p / 4 + if (p + 1) % 4 == 0 then 1 else 0
    ensures (p + 1) / 100 == p / 100 + if (p + 1) % 100 == 0 then 1 else 0
    ensures (p + 1) / 400 == p / 400 + if (p + 1) % 400 == 0 then 1 else 0
  {
  }

  lemma NoRestOfFour(z: int, r: int)
    requires 0 <= r < 4 && r == 4 * z
    ensures r == 0
  {
  }

  lemma NoRestOfHundred(z: int, r: int)
    requires 0 <= r < 100 && r == 100 * z
    ensures r == 0
  {
  }

  lemma LeapCases(y: nat)
    ensures y % 400 == 0 ==> y % 100 == 0
    ensures y % 100 == 0 ==> y % 4 == 0
  {
    if y % 100 == 0 {
      NoRestOfFour(25 * (y / 100) - y / 4, y % 4);
    }
    if y % 400 == 0 {
      NoRestOfHundred(4 * (y / 400) - y / 100, y % 100);
    }
  }

  /** The closed form advances by exactly the length of each year. */
  lemma YearLength(y: nat)
    requires y >= 1
    ensures DaysBeforeYear(y + 1) == DaysBeforeYear(y) + DaysInYear(y)
  {
    LeapSteps(y - 1);
    LeapCases(y);
  }

  lemma {:induction false} YearsOrdered(y: nat, z: nat)
    requires 1 <= y < z
    ensures DaysBeforeYear(y) + DaysInYear(y) <= DaysBeforeYear(z)
  {
    YearLength(z - 1);
    if y < z - 1 {
      YearsOrdered(y, z - 1);
    }
  }

  lemma {:induction false} MonthsOrdered(y: nat, m: nat, n: nat)
    requires 1 <= m < n
    ensures DaysBeforeMonth(y, m) + DaysInMonth(y, m) <= DaysBeforeMonth(y, n)
  {
    if m < n - 1 {
      MonthsOrdered(y, m, n - 1);
    }
  }

  lemma MonthsFillYear(y: nat)
    ensures DaysBeforeMonth(y, 12) + 31 == DaysInYear(y)
  {
    assert DaysBeforeMonth(y, 2) == 31;
    assert DaysBeforeMonth(y, 5) == DaysBeforeMonth(y, 3) + 61;
    assert DaysBeforeMonth(y, 7) == DaysBeforeMonth(y, 5) + 61;
    assert DaysBeforeMonth(y, 9) == DaysBeforeMonth(y, 7) + 62;
    assert DaysBeforeMonth(y, 11) == DaysBeforeMonth(y, 9) + 61;
  }

  /** Field-by-field order, most significant first. */
  predicate Earlier(a: Stamp, b: Stamp) {
    if a.year != b.year then a.year < b.year
    else if a.month != b.month then a.month < b.month
    else if a.day != b.day then a.day < b.day
    else if a.hour != b.hour then a.hour < b.hour
    else if a.minute != b.minute then a.minute < b.minute
    else a.second < b.second
  }

  function DayOrdinal(t: Stamp): nat
    requires Valid(t)
  {
    DaysBeforeYear(t.year) + DaysBeforeMonth(t.year, t.month) + t.day
  }

  lemma EarlierDay(a: Stamp, b: Stamp)
    requires Valid(a) && Valid(b)
    requires a.year < b.year || (a.year == b.year && (a.month < b.month || (a.month == b.month && a.day < b.day)))
    ensures DayOrdinal(a) < DayOrdinal(b)
  {
    if a.year < b.year {
      YearsOrdered(a.year, b.year);
      MonthsFillYear(a.year);
      if a.month < 12 {
        MonthsOrdered(a.year, a.month, 12);
      }
    } else if a.month < b.month {
      MonthsOrdered(a.year, a.month, b.month);
    }
  }

  lemma EarlierIsSmaller(a: Stamp, b: Stamp)
    requires Valid(a) && Valid(b)
    ensures Earlier(a, b) <==> EpochSeconds(a) < EpochSeconds(b)
  {
    if (a.year, a.month, a.day) != (b.year, b.month, b.day) {
      if Earlier(a, b) {
        EarlierDay(a, b);
      } else {
        EarlierDay(b, a);
      }
    }
  }

  // ---- text ------------------------------------------------------------------------

  /** Python's `<` on strings. */
  predicate StrLess(s: string, t: string) {
    if t == [] then false
    else if s == [] then true
    else if s[0] != t[0] then s[0] < t[0]
    else StrLess(s[1..], t[1..])
  }

  lemma {:induction false} StrLessConcat(a: string, b: string, c: string, d: string)
    requires |a| == |b|
    ensures StrLess(a + c, b + d) <==> StrLess(a, b) || (a == b && StrLess(c, d))
  {
    if a == [] {
      assert a + c == c && b + d == d;
    } else {
      assert (a + c)[1..] == a[1..] + c && (b + d)[1..] == b[1..] + d;
      StrLessConcat(a[1..], b[1..], c, d);
      assert a == [a[0]] + a[1..] && b == [b[0]] + b[1..];
    }
  }

  lemma {:induction false} StrLessIrreflexive(s: string)
    ensures !StrLess(s, s)
  {
    if s != [] {
      StrLessIrreflexive(s[1..]);
    }
  }

  function Digit(n: nat): char
    requires n < 10
  {
    '0' + n as char
  }

  function Num2(n: nat): string
    requires n < 100
  {
    [Digit(n / 10), Digit(n % 10)]
  }

  type Field = n: nat | n < 100

  /** Two-digit fields, each followed by its separator. */
  function RenderFields(f: seq<Field>, seps: seq<string>): string
    requires |f| == |seps|
  {
    if f == [] then "" else Num2(f[0]) + (seps[0] + RenderFields(f[1..], seps[1..]))
  }

  const DATE := ["", "-", "-", ""]
  const TIME := [":", ":", ""]

  function DateFields(t: Stamp): seq<Field>
    requires Valid(t)
  {
    [t.year / 100, t.year % 100, t.month, t.day]
  }

  function TimeFields(t: Stamp): seq<Field>
    requires Valid(t)
  {
    [t.hour, t.minute, t.second]
  }

  /** "YYYY-MM-DD", the separator, "HH:MM:SS". */
  function Render(t: Stamp, sep: char): string
    requires Valid(t)
  {
    RenderFields(DateFields(t), DATE) + ([sep] + RenderFields(TimeFields(t), TIME))
  }

  predicate FieldsLess(f: seq<Field>, g: seq<Field>) {
    f != [] && g != [] && (f[0] < g[0] || (f[0] == g[0] && FieldsLess(f[1..], g[1..])))
  }

  lemma FieldOrder(m: Field, n: Field, sep: string, x: string, y: string)
    ensures StrLess(Num2(m) + (sep + x), Num2(n) + (sep + y)) <==> m < n || (m == n && StrLess(x, y))
  {
    var a, b, c, d := Digit(m / 10), Digit(m % 10), Digit(n / 10), Digit(n % 10);
    StrLessConcat(Num2(m), Num2(n), sep + x, sep + y);
    StrLessConcat(sep, sep, x, y);
    StrLessIrreflexive(sep);
    assert Num2(m) == [a] + [b] && Num2(n) == [c] + [d];
    StrLessConcat([a], [c], [b], [d]);
    assert Num2(m)[0] == a && Num2(m)[1] == b && Num2(n)[0] == c && Num2(n)[1] == d;
  }

  lemma {:induction false} RenderOrder(f: seq<Field>, g: seq<Field>, seps: seq<string>)
    requires |f| == |g| == |seps|
    ensures StrLess(RenderFields(f, seps), RenderFields(g, seps)) <==> FieldsLess(f, g)
    ensures |RenderFields(f, seps)| == |RenderFields(g, seps)|
  {
    if f != [] {
      FieldOrder(f[0], g[0], seps[0], RenderFields(f[1..], seps[1..]), RenderFields(g[1..], seps[1..]));
      RenderOrder(f[1..], g[1..], seps[1..]);
    }
  }

  // ---- parsing ---------------------------------------------------------------------

  predicate IsDigit(c: char) {
    '0' <= c <= '9'
  }

  function DigitValue(c: char): nat
    requires IsDigit(c)
  {
    c as int - '0' as int
  }

  function TwoDigits(a: char, b: char): Field
    requires IsDigit(a) && IsDigit(b)
  {
    DigitValue(a) * 10 + DigitValue(b)
  }

  function ParseFields(s: string, seps: seq<string>): (r: Option<seq<Field>>)
    ensures r.Some? ==> |r.value| == |seps|
  {
    if seps == [] then (if s == "" then Some([]) else None)
    else if |s| < 2 + |seps[0]| || !IsDigit(s[0]) || !IsDigit(s[1]) || s[2..2 + |seps[0]|] != seps[0] then None
    else
      var rest := ParseFields(s[2 + |seps[0]|..], seps[1..]);
      if rest.None? then None else Some([TwoDigits(s[0], s[1])] + rest.value)
  }

  function YearOf(century: nat, year: nat): nat {
    century * 100 + year
  }

  /** The fields of "YYYY-MM-DD?HH:MM:SS"; the library takes any one character
      between date and time. */
  function ParseStamp(s: string): Option<Stamp> {
    if |s| <= 10 then None
    else
      var date, time := ParseFields(s[..10], DATE), ParseFields(s[11..], TIME);
      if date.None? || time.None? then None
      else
        var d, c := date.value, time.value;
        var t := Stamp(YearOf(d[0], d[1]), d[2], d[3], c[0], c[1], c[2]);
        if Valid(t) then Some(t) else None
  }

  /** The UTC offset in seconds of "", "+HH:MM" or "-HH:MM"; a stamp without one
      is read in the process's own zone. */
  function ParseZone(z: string, local: int): Option<int> {
    if z == "" then Some(local)
    else if z[0] != '+' && z[0] != '-' then None
    else
      var f := ParseFields(z[1..], [":", ""]);
      if f.None? || f.value[0] >= 24 || f.value[1] >= 60 then None
      else
        var seconds: int := f.value[0] as int * 3600 + f.value[1] as int * 60;
        Some(if z[0] == '+' then seconds else -seconds)
  }

  /** `text.replace("Z", "+00:00")`. */
  function ReplaceZ(s: string): string {
    if s == "" then "" else (if s[0] == 'Z' then "+00:00" else [s[0]]) + ReplaceZ(s[1..])
  }

  /** `_version_from`: epoch seconds of an ISO timestamp, if it is one. */
  function VersionFrom(text: string, local: int): Option<int> {
    var s := ReplaceZ(text);
    if |s| < 19 then None
    else
      var t, z := ParseStamp(s[..19]), ParseZone(s[19..], local);
      if t.None? || z.None? then None else Some(EpochSeconds(t.value) - z.value)
  }

  lemma DigitsOfNum2(a: char, b: char)
    requires IsDigit(a) && IsDigit(b)
    ensures Num2(TwoDigits(a, b)) == [a, b]
  {
  }

  lemma Num2OfDigits(n: Field)
    ensures IsDigit(Num2(n)[0]) && IsDigit(Num2(n)[1]) && TwoDigits(Num2(n)[0], Num2(n)[1]) == n
  {
  }

  lemma {:induction false} ParseThenRender(s: string, seps: seq<string>)
    requires ParseFields(s, seps).Some?
    ensures RenderFields(ParseFields(s, seps).value, seps) == s
  {
    if seps != [] {
      var n := 2 + |seps[0]|;
      var f := ParseFields(s, seps).value;
      ParseThenRender(s[n..], seps[1..]);
      DigitsOfNum2(s[0], s[1]);
      assert f[1..] == ParseFields(s[n..], seps[1..]).value;
      assert s == s[..2] + (s[2..n] + s[n..]);
      assert s[..2] == [s[0], s[1]];
    }
  }

  lemma {:induction false} RenderThenParse(f: seq<Field>, seps: seq<string>)
    requires |f| == |seps|
    ensures ParseFields(RenderFields(f, seps), seps) == Some(f)
  {
    if f != [] {
      var s, rest := RenderFields(f, seps), RenderFields(f[1..], seps[1..]);
      RenderThenParse(f[1..], seps[1..]);
      Num2OfDigits(f[0]);
      assert s[0] == Num2(f[0])[0] && s[1] == Num2(f[0])[1];
      assert s[2..2 + |seps[0]|] == seps[0] && s[2 + |seps[0]|..] == rest;
      assert f == [f[0]] + f[1..];
    }
  }

  /** A character of rendered fields is a digit or comes from a separator. */
  lemma {:induction false} RenderedCharacters(f: seq<Field>, seps: seq<string>, c: char)
    requires |f| == |seps| && c in RenderFields(f, seps) && forall s :: s in seps ==> c !in s
    ensures IsDigit(c)
  {
    if f != [] {
      Num2OfDigits(f[0]);
      if c !in Num2(f[0]) {
        assert c !in seps[0];
        assert c in RenderFields(f[1..], seps[1..]);
        RenderedCharacters(f[1..], seps[1..], c);
      }
    }
  }

  function TotalLength(seps: seq<string>): nat {
    if seps == [] then 0 else |seps[0]| + TotalLength(seps[1..])
  }

  lemma {:induction false} FieldsLength(f: seq<Field>, seps: seq<string>)
    requires |f| == |seps|
    ensures |RenderFields(f, seps)| == 2 * |f| + TotalLength(seps)
  {
    if f != [] {
      FieldsLength(f[1..], seps[1..]);
    }
  }

  lemma RenderedLength(t: Stamp)
    requires Valid(t)
    ensures |RenderFields(DateFields(t), DATE)| == 10 && |RenderFields(TimeFields(t), TIME)| == 8
  {
    FieldsLength(DateFields(t), DATE);
    FieldsLength(TimeFields(t), TIME);
    assert DATE[1..] == ["-", "-", ""] && ["-", "-", ""][1..] == ["-", ""] && ["-", ""][1..] == [""];
    assert TIME[1..] == [":", ""] && [":", ""][1..] == [""];
    assert TotalLength(DATE) == 2 && TotalLength(TIME) == 2;
  }

  lemma RenderParse(t: Stamp, sep: char)
    requires Valid(t)
    ensures |Render(t, sep)| == 19
    ensures ParseStamp(Render(t, sep)) == Some(t)
  {
    var s := Render(t, sep);
    RenderedLength(t);
    assert s[..10] == RenderFields(DateFields(t), DATE) && s[11..] == RenderFields(TimeFields(t), TIME);
    RenderThenParse(DateFields(t), DATE);
    RenderThenParse(TimeFields(t), TIME);
    assert YearOf(t.year / 100, t.year % 100) == t.year;
  }

  lemma YearSplits(century: Field, year: Field)
    ensures YearOf(century, year) / 100 == century && YearOf(century, year) % 100 == year
  {
  }

  lemma ParsedFields(s: string)
    requires ParseStamp(s).Some?
    ensures ParseFields(s[..10], DATE) == Some(DateFields(ParseStamp(s).value))
    ensures ParseFields(s[11..], TIME) == Some(TimeFields(ParseStamp(s).value))
  {
    var d := ParseFields(s[..10], DATE).value;
    var c := ParseFields(s[11..], TIME).value;
    YearSplits(d[0], d[1]);
    assert |d| == 4 && |c| == 3;
    assert DateFields(ParseStamp(s).value) == d && TimeFields(ParseStamp(s).value) == c;
  }

  /** Parsing loses nothing: rendering the fields gives the text back. */
  lemma ParseRender(s: string)
    requires ParseStamp(s).Some?
    ensures |s| == 19 && Render(ParseStamp(s).value, s[10]) == s
  {
    ParsedFields(s);
    ParseThenRender(s[..10], DATE);
    ParseThenRender(s[11..], TIME);
    assert s == s[..10] + ([s[10]] + s[11..]);
    RenderedLength(ParseStamp(s).value);
  }

  lemma StampOrder(a: Stamp, b: Stamp, sep: char)
    requires Valid(a) && Valid(b)
    ensures StrLess(Render(a, sep), Render(b, sep)) <==> Earlier(a, b)
  {
    var ca, cb := RenderFields(TimeFields(a), TIME), RenderFields(TimeFields(b), TIME);
    RenderOrder(DateFields(a), DateFields(b), DATE);
    RenderOrder(TimeFields(a), TimeFields(b), TIME);
    StrLessConcat(RenderFields(DateFields(a), DATE), RenderFields(DateFields(b), DATE), [sep] + ca, [sep] + cb);
    StrLessConcat([sep], [sep], ca, cb);
    StrLessIrreflexive([sep]);
    RenderThenParse(DateFields(a), DATE);
    RenderThenParse(DateFields(b), DATE);
    DateOrder(a, b);
    TimeOrder(a, b);
  }

  lemma DateOrder(a: Stamp, b: Stamp)
    requires Valid(a) && Valid(b)
    ensures FieldsLess(DateFields(a), DateFields(b))
       <==> a.year < b.year || (a.year == b.year && (a.month < b.month || (a.month == b.month && a.day < b.day)))
    ensures DateFields(a) == DateFields(b) <==> a.year == b.year && a.month == b.month && a.day == b.day
  {
    var f, g := DateFields(a), DateFields(b);
    assert f[1..][1..] == f[2..] && g[1..][1..] == g[2..] && f[2..][1..] == f[3..] && g[2..][1..] == g[3..];
    assert FieldsLess(f[3..], g[3..]) <==> f[3] < g[3];
    assert FieldsLess(f[2..], g[2..]) <==> f[2] < g[2] || (f[2] == g[2] && FieldsLess(f[3..], g[3..]));
    assert FieldsLess(f[1..], g[1..]) <==> f[1] < g[1] || (f[1] == g[1] && FieldsLess(f[2..], g[2..]));
    assert f[0] == a.year / 100 && f[1] == a.year % 100 && f[2] == a.month && f[3] == a.day;
    assert g[0] == b.year / 100 && g[1] == b.year % 100 && g[2] == b.month && g[3] == b.day;
  }

  lemma TimeOrder(a: Stamp, b: Stamp)
    requires Valid(a) && Valid(b)
    ensures FieldsLess(TimeFields(a), TimeFields(b))
       <==> a.hour < b.hour
            || (a.hour == b.hour && (a.minute < b.minute || (a.minute == b.minute && a.second < b.second)))
  {
    var f, g := TimeFields(a), TimeFields(b);
    assert f[1..][1..] == f[2..] && g[1..][1..] == g[2..];
    assert FieldsLess(f[2..], g[2..]) <==> f[2] < g[2];
    assert FieldsLess(f[1..], g[1..]) <==> f[1] < g[1] || (f[1] == g[1] && FieldsLess(f[2..], g[2..]));
  }

  // ---- string order is version order -------------------------------------------------

  /** A timestamp in the layout this module covers, with the given separator and
      the given text after the seconds. */
  predicate Stamped(s: string, sep: char, zone: string, local: int) {
    && |s| == 19 + |zone| && s[19..] == zone && s[10] == sep
    && sep != 'Z' && ParseStamp(s[..19]).Some? && ParseZone(ReplaceZ(zone), local).Some?
  }

  lemma {:induction false} ReplaceZConcat(a: string, b: string)
    requires 'Z' !in a
    ensures ReplaceZ(a + b) == a + ReplaceZ(b)
  {
    if a == "" {
      assert a + b == b;
    } else {
      assert (a + b)[1..] == a[1..] + b;
      ReplaceZConcat(a[1..], b);
      assert a == [a[0]] + a[1..];
    }
  }

  lemma StampText(s: string, c: char)
    requires ParseStamp(s).Some? && c in s && c != s[10] && c != '-' && c != ':'
    ensures IsDigit(c)
  {
    var t := ParseStamp(s).value;
    ParseRender(s);
    if c in RenderFields(DateFields(t), DATE) {
      RenderedCharacters(DateFields(t), DATE, c);
    } else {
      assert c in RenderFields(TimeFields(t), TIME);
      RenderedCharacters(TimeFields(t), TIME, c);
    }
  }

  lemma VersionOfStamped(s: string, sep: char, zone: string, local: int)
    requires Stamped(s, sep, zone, local)
    ensures VersionFrom(s, local)
         == Some(EpochSeconds(ParseStamp(s[..19]).value) - ParseZone(ReplaceZ(zone), local).value)
  {
    var head := s[..19];
    if 'Z' in head {
      StampText(head, 'Z');
    }
    ReplaceZConcat(head, zone);
    assert s == head + zone;
    assert ReplaceZ(s)[..19] == head && ReplaceZ(s)[19..] == ReplaceZ(zone);
  }

  /** Comparing two timestamps of one zone as strings is comparing their versions. */
  lemma StringOrderIsVersionOrder(s: string, t: string, sep: char, zone: string, local: int)
    requires Stamped(s, sep, zone, local) && Stamped(t, sep, zone, local)
    ensures VersionFrom(s, local).Some? && VersionFrom(t, local).Some?
    ensures StrLess(s, t) <==> VersionFrom(s, local).value < VersionFrom(t, local).value
    ensures s == t <==> VersionFrom(s, local) == VersionFrom(t, local)
  {
    var a, b := ParseStamp(s[..19]).value, ParseStamp(t[..19]).value;
    VersionOfStamped(s, sep, zone, local);
    VersionOfStamped(t, sep, zone, local);
    ParseRender(s[..19]);
    ParseRender(t[..19]);
    assert s == s[..19] + zone && t == t[..19] + zone;
    StrLessConcat(s[..19], t[..19], zone, zone);
    StrLessIrreflexive(zone);
    StampOrder(a, b, sep);
    EarlierIsSmaller(a, b);
    EarlierIsSmaller(b, a);
    assert a != b ==> Earlier(a, b) || Earlier(b, a);
  }

  /** With two different zones the orders can part. As text the earlier clock time comes
      first, and at equal clock times the zone suffixes decide; as versions the second is
      later exactly when its clock is ahead by more than the zones differ. */
  lemma MixedZonesDisagree(a: Stamp, b: Stamp, y: string, z: string)
    requires Valid(a) && Valid(b)
    requires ParseZone(ReplaceZ(y), 0).Some? && ParseZone(ReplaceZ(z), 0).Some?
    ensures var s, t := Render(a, 'T') + y, Render(b, 'T') + z;
            var ahead := ParseZone(ReplaceZ(z), 0).value - ParseZone(ReplaceZ(y), 0).value;
            && VersionFrom(s, 0).Some? && VersionFrom(t, 0).Some?
            && (StrLess(s, t) <==> Earlier(a, b) || (a == b && StrLess(y, z)))
            && (VersionFrom(s, 0).value < VersionFrom(t, 0).value <==> EpochSeconds(b) - EpochSeconds(a) > ahead)
  {
    var ra, rb := Render(a, 'T'), Render(b, 'T');
    RenderParse(a, 'T');
    RenderParse(b, 'T');
    StampOrder(a, b, 'T');
    StrLessConcat(ra, rb, y, z);
    RenderedLength(a);
    RenderedLength(b);
    assert (ra + y)[..19] == ra && (rb + z)[..19] == rb && (ra + y)[19..] == y && (rb + z)[19..] == z;
    VersionOfStamped(ra + y, 'T', y, 0);
    VersionOfStamped(rb + z, 'T', z, 0);
  }

  /** "+HH:MM" or "-HH:MM", and its offset. */
  function ZoneText(west: bool, h: Field, m: Field): string {
    [if west then '-' else '+'] + RenderFields([h, m], [":", ""])
  }

  function Offset(west: bool, h: Field, m: Field): int {
    if west then -(h * 3600 + m * 60) else h * 3600 + m * 60
  }

  lemma ZoneTextParses(west: bool, h: Field, m: Field)
    requires h < 24 && m < 60
    ensures ParseZone(ReplaceZ(ZoneText(west, h, m)), 0) == Some(Offset(west, h, m))
  {
    var z, fields := ZoneText(west, h, m), RenderFields([h, m], [":", ""]);
    RenderThenParse([h, m], [":", ""]);
    if 'Z' in fields {
      RenderedCharacters([h, m], [":", ""], 'Z');
    }
    NoZ(z);
    assert z[1..] == fields;
  }

  lemma ZoneTextOrder(west: bool, h: Field, m: Field, west': bool, h': Field, m': Field)
    ensures StrLess(ZoneText(west, h, m), ZoneText(west', h', m'))
       <==> (!west && west') || (west == west' && (h < h' || (h == h' && m < m')))
  {
    var f, g: seq<Field>, seps := [h, m], [h', m'], [":", ""];
    var x, y := ZoneText(west, h, m), ZoneText(west', h', m');
    assert x[1..] == RenderFields(f, seps) && y[1..] == RenderFields(g, seps);
    RenderOrder(f, g, seps);
    assert f[1..] == [m] && g[1..] == [m'] && f[1..][1..] == [] && g[1..][1..] == [];
    assert FieldsLess(f[1..], g[1..]) <==> m < m';
  }

  /** At equal clock times the smaller text is the earlier version exactly when the
      larger one's zone is west and they are not both at offset 0: "+03:00" against
      "-03:00" agrees with the versions, "+03:00" against "+05:00" does not. */
  lemma EqualClocksAgreeIff(a: Stamp, west: bool, h: Field, m: Field, west': bool, h': Field, m': Field)
    requires Valid(a) && h < 24 && m < 60 && h' < 24 && m' < 60
    requires StrLess(ZoneText(west, h, m), ZoneText(west', h', m'))
    ensures var s, t := Render(a, 'T') + ZoneText(west, h, m), Render(a, 'T') + ZoneText(west', h', m');
            && VersionFrom(s, 0).Some? && VersionFrom(t, 0).Some? && StrLess(s, t)
            && (VersionFrom(s, 0).value < VersionFrom(t, 0).value
                <==> west' && Offset(west, h, m) != Offset(west', h', m'))
  {
    ZoneTextParses(west, h, m);
    ZoneTextParses(west', h', m');
    ZoneTextOrder(west, h, m, west', h', m');
    MixedZonesDisagree(a, a, ZoneText(west, h, m), ZoneText(west', h', m'));
  }

  lemma {:induction false} NoZ(s: string)
    requires 'Z' !in s
    ensures ReplaceZ(s) == s
  {
    if s != "" {
      NoZ(s[1..]);
    }
  }

  // ---- the watermark's way back to the store -------------------------------------------

  /** `wm.isoformat()` of a watermark read back in UTC. */
  function IsoFormat(t: Stamp): string
    requires Valid(t)
  {
    Render(t, 'T') + "+00:00"
  }

  /** `text.split(stop)[0]`. */
  function Before(s: string, stop: char): string {
    if s == "" || s[0] == stop then "" else [s[0]] + Before(s[1..], stop)
  }

  /** `text.replace("T", " ")`. */
  function SpaceForT(s: string): string {
    if s == "" then "" else [if s[0] == 'T' then ' ' else s[0]] + SpaceForT(s[1..])
  }

  /** The wall-clock text the OpenCart fetcher sends as `since`. */
  function OpenCartSince(iso: string): string {
    Before(Before(SpaceForT(iso), '+'), '.')
  }

  lemma {:induction false} BeforeStops(a: string, b: string, stop: char)
    requires stop !in a && (b == "" || b[0] == stop)
    ensures Before(a + b, stop) == a
  {
    if a == "" {
      assert a + b == b;
    } else {
      assert (a + b)[1..] == a[1..] + b && a == [a[0]] + a[1..];
      BeforeStops(a[1..], b, stop);
    }
  }

  lemma {:induction false} SpaceForTConcat(a: string, b: string)
    requires 'T' !in a
    ensures SpaceForT(a + b) == a + SpaceForT(b)
  {
    if a == "" {
      assert a + b == b;
    } else {
      assert (a + b)[1..] == a[1..] + b && a == [a[0]] + a[1..];
      SpaceForTConcat(a[1..], b);
    }
  }

  lemma SpacedRender(t: Stamp, zone: string)
    requires Valid(t) && 'T' !in zone
    ensures SpaceForT(Render(t, 'T') + zone) == Render(t, ' ') + zone
  {
    var date, time := RenderFields(DateFields(t), DATE), RenderFields(TimeFields(t), TIME);
    if 'T' in date { RenderedCharacters(DateFields(t), DATE, 'T'); }
    if 'T' in time { RenderedCharacters(TimeFields(t), TIME, 'T'); }
    assert Render(t, 'T') + zone == date + (['T'] + (time + zone));
    assert Render(t, ' ') + zone == date + ([' '] + (time + zone));
    SpaceForTConcat(date, ['T'] + (time + zone));
    assert (['T'] + (time + zone))[1..] == time + zone;
    assert (time + zone) + "" == time + zone;
    SpaceForTConcat(time + zone, "");
  }

  /** A zoneless stamp survives the trip through the stored UTC watermark: the
      store is asked for changes after exactly the text it reported. */
  lemma WatermarkRoundTrip(w: string)
    requires ParseStamp(w).Some? && (w[10] == 'T' || w[10] == ' ')
    ensures w[10] == 'T' ==> Before(IsoFormat(ParseStamp(w).value), '+') == w
    ensures w[10] == ' ' ==> OpenCartSince(IsoFormat(ParseStamp(w).value)) == w
  {
    var t := ParseStamp(w).value;
    ParseRender(w);
    if '+' in w { StampText(w, '+'); }
    if '.' in w { StampText(w, '.'); }
    BeforeStops(w, "+00:00", '+');
    BeforeStops(w, "", '.');
    assert w + "" == w;
    SpacedRender(t, "+00:00");
  }
}
