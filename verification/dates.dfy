/** Calendar dates as `datetime.strptime` reads them and `strftime` writes
    them, and `parse_date`: try an ordered list of formats, first match wins.

    A format of the source is one of `%d<s>%m<s>%Y`, `%d<s>%m<s>%y` or
    `%Y<s>%m<s>%d` for a separator `<s>` in `.`, `/`, `-`. Under `strptime`
    `%d` reads `3[01]|[12]d|0[1-9]|[1-9]| [1-9]`, `%m` reads
    `1[0-2]|0[1-9]|[1-9]`, `%Y` exactly four digits and `%y` exactly two
    (00..68 in the 2000s, 69..99 in the 1900s); the whole string must be
    consumed, and the result must be a real calendar date. */
module Dates {
  import opened Wrappers
  import opened Decimal
  import Text

  datatype Date = Date(year: int, month: int, day: int)

  function DaysInMonth(year: int, month: int): int
  {
    if month == 2 then (if year % 4 == 0 && (year % 100 != 0 || year % 400 == 0) then 29 else 28)
    else if month == 4 || month == 6 || month == 9 || month == 11 then 30
    else 31
  }

  /** A date `datetime.date` accepts: years 1..9999. */
  predicate ValidDate(d: Date)
  {
    1 <= d.year <= 9999 && 1 <= d.month <= 12 && 1 <= d.day <= DaysInMonth(d.year, d.month)
  }

  datatype FieldOrder = DayFirst | YearFirst
  datatype YearWidth = FourDigits | TwoDigits

  /** One `strptime` format: field order, separator and year directive. */
  datatype Format = Format(order: FieldOrder, sep: char, width: YearWidth)

  /** `%d`: one or two digits denoting 1..31, or a space and a digit 1..9. */
  function DayField(f: string): (r: Option<int>)
    ensures r.Some? ==> 1 <= r.value <= 31
  {
    if |f| == 2 && f[0] == ' ' && '1' <= f[1] <= '9' then Some(DigitValue(f[1]))
    else if 1 <= |f| <= 2 && AllDigits(f) && 1 <= Value(f) <= 31 then Some(Value(f))
    else None
  }

  /** `%m`: one or two digits denoting 1..12. */
  function MonthField(f: string): (r: Option<int>)
    ensures r.Some? ==> 1 <= r.value <= 12
  {
    if 1 <= |f| <= 2 && AllDigits(f) && 1 <= Value(f) <= 12 then Some(Value(f)) else None
  }

  /** `%Y` (exactly four digits) or `%y` (exactly two, pivoting at 68). */
  function YearField(f: string, w: YearWidth): (r: Option<int>)
    ensures r.Some? && w == TwoDigits ==> 1969 <= r.value <= 2068
  {
    match w
    case FourDigits => if |f| == 4 && AllDigits(f) then Some(Value(f)) else None
    case TwoDigits =>
      if |f| == 2 && AllDigits(f) then
        (ValueBound(f); Some(if Value(f) <= 68 then 2000 + Value(f) else 1900 + Value(f)))
      else None
  }

  /** `datetime.strptime(s, f).date()`, or None where it raises. */
  function ParseWith(f: Format, s: string): (r: Option<Date>)
    ensures r.Some? ==> ValidDate(r.value)
  {
    var parts := Text.Split(s, f.sep);
    if |parts| != 3 then None
    else
      var (yf, df) := if f.order == DayFirst then (parts[2], parts[0]) else (parts[0], parts[2]);
      match (YearField(yf, f.width), MonthField(parts[1]), DayField(df))
      case (Some(y), Some(m), Some(d)) => if ValidDate(Date(y, m, d)) then Some(Date(y, m, d)) else None
      case _ => None
  }

  /** The first format in the list that parses `s`. */
  function FirstMatch(formats: seq<Format>, s: string): (r: Option<Date>)
    ensures r.Some? ==> ValidDate(r.value)
  {
    if |formats| == 0 then None
    else match ParseWith(formats[0], s)
      case Some(d) => Some(d)
      case None => FirstMatch(formats[1..], s)
  }

  /** The first match is a parse by one of the formats, and there is none
      exactly when every format fails. */
  lemma {:induction false} FirstMatchSpec(formats: seq<Format>, s: string)
    ensures FirstMatch(formats, s).Some? ==>
      exists i :: 0 <= i < |formats| && ParseWith(formats[i], s) == FirstMatch(formats, s)
        && forall j :: 0 <= j < i ==> ParseWith(formats[j], s).None?
    ensures FirstMatch(formats, s).None? <==> forall i :: 0 <= i < |formats| ==> ParseWith(formats[i], s).None?
    decreases |formats|
  {
    if |formats| > 0 && ParseWith(formats[0], s).None? {
      FirstMatchSpec(formats[1..], s);
      assert forall i :: 1 <= i < |formats| ==> formats[i] == formats[1..][i - 1];
      if FirstMatch(formats, s).Some? {
        var j :| 0 <= j < |formats[1..]| && ParseWith(formats[1..][j], s) == FirstMatch(formats, s)
          && forall q :: 0 <= q < j ==> ParseWith(formats[1..][q], s).None?;
        assert ParseWith(formats[j + 1], s) == FirstMatch(formats, s);
        assert forall q :: 0 <= q < j + 1 ==> ParseWith(formats[q], s).None? by {
          forall q | 0 <= q < j + 1 ensures ParseWith(formats[q], s).None? {
            if q > 0 { assert formats[q] == formats[1..][q - 1]; }
          }
        }
      }
    }
  }

  /** The first match is the parse of the first format that succeeds. */
  lemma {:induction false} FirstMatchAt(formats: seq<Format>, s: string, k: nat)
    requires k < |formats| && ParseWith(formats[k], s).Some?
    requires forall i :: 0 <= i < k ==> ParseWith(formats[i], s).None?
    ensures FirstMatch(formats, s) == ParseWith(formats[k], s)
    decreases k
  {
    if k > 0 {
      FirstMatchAt(formats[1..], s, k - 1);
    }
  }

  /** The result of `parse_date`: None for a missing or empty value,
      otherwise the first format that parses the stripped text. */
  function ParseDateSpec(formats: seq<Format>, value: Option<string>): Option<Date>
  {
    if value.None? || value.value == "" then None else FirstMatch(formats, Text.Strip(value.value))
  }

  /** `parse_date` (bot.py:365-385, bot3.py:567-586): the loop over the
      candidate formats, returning at the first one that succeeds. */
  method ParseDate(formats: seq<Format>, value: Option<string>) returns (r: Option<Date>)
    ensures r == ParseDateSpec(formats, value)
    ensures r.Some? ==> ValidDate(r.value)
  {
    if value.None? || value.value == "" {
      return None;
    }
    var s := Text.Strip(value.value);
    var i := 0;
    while i < |formats|
      invariant 0 <= i <= |formats|
      invariant FirstMatch(formats, s) == FirstMatch(formats[i..], s)
    {
      var attempt := ParseWith(formats[i], s);
      if attempt.Some? {
        return attempt;
      }
      assert formats[i..][1..] == formats[i + 1..];
      i := i + 1;
    }
    return None;
  }

  /** The formats bot.py tries, day-first formats before year-first ones. */
  const BotFormats: seq<Format> := [
    Format(DayFirst, '.', FourDigits), Format(DayFirst, '/', FourDigits), Format(DayFirst, '-', FourDigits),
    Format(YearFirst, '-', FourDigits), Format(YearFirst, '.', FourDigits), Format(YearFirst, '/', FourDigits),
    Format(DayFirst, '.', TwoDigits), Format(DayFirst, '/', TwoDigits), Format(DayFirst, '-', TwoDigits)]

  /** The formats bot3.py tries: `%d.%m.%Y` twice and no `-` separator. */
  const Bot3Formats: seq<Format> := [
    Format(DayFirst, '.', FourDigits), Format(DayFirst, '.', FourDigits), Format(DayFirst, '/', FourDigits),
    Format(YearFirst, '.', FourDigits), Format(YearFirst, '/', FourDigits), Format(DayFirst, '.', TwoDigits)]

  /** The formats the plan-entry handler tries for a due date (bot.py:1712). */
  const DueDateFormats: seq<Format> := [
    Format(YearFirst, '-', FourDigits), Format(DayFirst, '.', FourDigits),
    Format(DayFirst, '/', FourDigits), Format(DayFirst, '-', FourDigits)]

  /** `strftime` for a day-first (`%d<s>%m<s>%Y`) or year-first
      (`%Y<s>%m<s>%d`) pattern. */
  function Render(d: Date, order: FieldOrder, sep: char): (s: string)
    requires ValidDate(d)
  {
    var fields := [Pad(d.day, 2), Pad(d.month, 2), Pad(d.year, 4)];
    Text.Join(if order == DayFirst then fields else [fields[2], fields[1], fields[0]], sep)
  }

  /** `%Y-%m-%d`, the canonical form of bot.py. */
  function RenderIso(d: Date): string
    requires ValidDate(d)
  {
    Render(d, YearFirst, '-')
  }

  /** `%d.%m.%Y`, the canonical form of bot3.py. */
  function RenderDotted(d: Date): string
    requires ValidDate(d)
  {
    Render(d, DayFirst, '.')
  }

  /** A separator the formats use: never a digit nor a space. */
  predicate IsSeparator(c: char)
  {
    c == '.' || c == '/' || c == '-'
  }

  lemma DigitsAvoidSeparator(p: string, sep: char)
    requires AllDigits(p) && IsSeparator(sep)
    ensures sep !in p
  {
  }

  lemma RenderFields(d: Date, order: FieldOrder, sep: char)
    requires ValidDate(d) && IsSeparator(sep)
    ensures Text.Split(Render(d, order, sep), sep)
      == (if order == DayFirst then [Pad(d.day, 2), Pad(d.month, 2), Pad(d.year, 4)]
          else [Pad(d.year, 4), Pad(d.month, 2), Pad(d.day, 2)])
  {
    var dd, mm, yy := Pad(d.day, 2), Pad(d.month, 2), Pad(d.year, 4);
    DigitsAvoidSeparator(dd, sep);
    DigitsAvoidSeparator(mm, sep);
    DigitsAvoidSeparator(yy, sep);
    var parts := if order == DayFirst then [dd, mm, yy] else [yy, mm, dd];
    Text.SplitJoin(parts, sep);
  }

  lemma PaddedFields(d: Date)
    requires ValidDate(d)
    ensures DayField(Pad(d.day, 2)) == Some(d.day)
    ensures MonthField(Pad(d.month, 2)) == Some(d.month)
    ensures YearField(Pad(d.year, 4), FourDigits) == Some(d.year)
  {
    ValuePad(d.day, 2);
    ValuePad(d.month, 2);
    ValuePad(d.year, 4);
    assert IsDigit(Pad(d.day, 2)[0]);
  }

  /** Writing a valid date with a four-digit-year pattern and reading it back
      with the same pattern gives the date. */
  lemma RenderParse(d: Date, f: Format)
    requires ValidDate(d) && IsSeparator(f.sep) && f.width == FourDigits
    ensures ParseWith(f, Render(d, f.order, f.sep)) == Some(d)
  {
    RenderFields(d, f.order, f.sep);
    PaddedFields(d);
  }

  lemma NoSeparatorNoMatch(f: Format, s: string)
    requires f.sep !in s
    ensures ParseWith(f, s).None?
  {
    assert Text.Find(s, f.sep).None?;
  }

  lemma RenderShape(d: Date, order: FieldOrder, sep: char)
    requires ValidDate(d) && IsSeparator(sep)
    ensures var s := Render(d, order, sep);
      |s| > 0 && IsDigit(s[0]) && IsDigit(s[|s| - 1])
      && forall i :: 0 <= i < |s| ==> s[i] == sep || IsDigit(s[i])
  {
    var dd, mm, yy := Pad(d.day, 2), Pad(d.month, 2), Pad(d.year, 4);
    var parts := if order == DayFirst then [dd, mm, yy] else [yy, mm, dd];
    Text.Join3(parts[0], parts[1], parts[2], sep);
  }

  lemma StripRendered(d: Date, order: FieldOrder, sep: char)
    requires ValidDate(d) && IsSeparator(sep)
    ensures Text.Strip(Render(d, order, sep)) == Render(d, order, sep)
  {
    RenderShape(d, order, sep);
    Text.StripNoop(Render(d, order, sep));
  }

  /** A string with neither `.` nor `/` is rejected by bot3.py's formats. */
  lemma Bot3NeedsDotOrSlash(s: string)
    requires '.' !in s && '/' !in s
    ensures FirstMatch(Bot3Formats, s) == None
  {
    forall i | 0 <= i < |Bot3Formats| ensures ParseWith(Bot3Formats[i], s).None? {
      NoSeparatorNoMatch(Bot3Formats[i], s);
    }
    FirstMatchSpec(Bot3Formats, s);
  }

  lemma IsoHasNoDotOrSlash(d: Date)
    requires ValidDate(d)
    ensures '.' !in RenderIso(d) && '/' !in RenderIso(d)
    ensures Text.Strip(RenderIso(d)) == RenderIso(d)
  {
    IsoHas2(d);
    IsoStrip(d);
  }
  lemma IsoStrip(d: Date)
    requires ValidDate(d)
    ensures Text.Strip(RenderIso(d)) == RenderIso(d)
  {
    var s := RenderIso(d);
    RenderShape(d, YearFirst, '-');
    Text.StripNoop(s);
  }
  lemma IsoHas2(d: Date)
    requires ValidDate(d)
    ensures '.' !in RenderIso(d) && '/' !in RenderIso(d)
  {
    RenderShape(d, YearFirst, '-');
    var s := RenderIso(d);
    assert forall i :: 0 <= i < |s| ==> s[i] != '.' && s[i] != '/';
  }

  lemma IsoDayFirstDashFails(d: Date)
    requires ValidDate(d)
    ensures ParseWith(Format(DayFirst, '-', FourDigits), RenderIso(d)).None?
  {
    RenderFields(d, YearFirst, '-');
  }

  /** bot.py stores due dates as `%Y-%m-%d` and its `parse_date` reads that
      form back to the same date: the three day-first formats before `%Y-%m-%d`
      all fail on it. */
  lemma BotParsesIso(d: Date)
    requires ValidDate(d)
    ensures ParseDateSpec(BotFormats, Some(RenderIso(d))) == Some(d)
  {
    var s := RenderIso(d);
    IsoHasNoDotOrSlash(d);
    BotIsoFirstThree(d);
    IsoParses(d);
    FirstMatchAt(BotFormats, s, 3);
  }

  lemma BotIsoFirstThree(d: Date)
    requires ValidDate(d)
    ensures forall i :: 0 <= i < 3 ==> ParseWith(BotFormats[i], RenderIso(d)).None?
  {
    IsoDot(d);
    IsoSlash(d);
    IsoDayFirstDashFails(d);
  }

  lemma IsoDot(d: Date)
    requires ValidDate(d)
    ensures ParseWith(Format(DayFirst, '.', FourDigits), RenderIso(d)).None?
  {
    IsoHasNoDotOrSlash(d);
    NoSeparatorNoMatch(Format(DayFirst, '.', FourDigits), RenderIso(d));
  }

  lemma IsoSlash(d: Date)
    requires ValidDate(d)
    ensures ParseWith(Format(DayFirst, '/', FourDigits), RenderIso(d)).None?
  {
    IsoHasNoDotOrSlash(d);
    NoSeparatorNoMatch(Format(DayFirst, '/', FourDigits), RenderIso(d));
  }

  lemma IsoParses(d: Date)
    requires ValidDate(d)
    ensures ParseWith(BotFormats[3], RenderIso(d)) == Some(d)
  {
    RenderParse(d, BotFormats[3]);
  }

  /** bot3.py has no `-` format, so no ISO `YYYY-MM-DD` string parses there. */
  lemma Bot3RejectsIso(d: Date)
    requires ValidDate(d)
    ensures ParseDateSpec(Bot3Formats, Some(RenderIso(d))) == None
  {
    IsoHasNoDotOrSlash(d);
    Bot3NeedsDotOrSlash(RenderIso(d));
  }

  /** bot3.py stores problem deadlines as `%d.%m.%Y`; its `parse_date` reads
      that form back to the same date. */
  lemma Bot3ParsesDotted(d: Date)
    requires ValidDate(d)
    ensures ParseDateSpec(Bot3Formats, Some(RenderDotted(d))) == Some(d)
  {
    StripRendered(d, DayFirst, '.');
    RenderParse(d, Bot3Formats[0]);
    FirstMatchAt(Bot3Formats, RenderDotted(d), 0);
  }

  /** A rendered date holds only digits and its own separator. */
  lemma RenderAvoids(d: Date, order: FieldOrder, sep: char, c: char)
    requires ValidDate(d) && IsSeparator(sep) && c != sep && !IsDigit(c)
    ensures c !in Render(d, order, sep)
  {
    RenderShape(d, order, sep);
  }

  lemma SlashedDot(d: Date)
    requires ValidDate(d)
    ensures ParseWith(Format(DayFirst, '.', FourDigits), Render(d, DayFirst, '/')).None?
  {
    RenderAvoids(d, DayFirst, '/', '.');
    NoSeparatorNoMatch(Format(DayFirst, '.', FourDigits), Render(d, DayFirst, '/'));
  }

  lemma SlashedFirstFails(d: Date)
    requires ValidDate(d)
    ensures forall i :: 0 <= i < 1 ==> ParseWith(BotFormats[i], Render(d, DayFirst, '/')).None?
  {
    SlashedDot(d);
  }

  /** bot.py reads a `%d/%m/%Y` string day first, whatever its two leading
      numbers are. */
  lemma BotReadsSlashedDayFirst(d: Date)
    requires ValidDate(d)
    ensures ParseDateSpec(BotFormats, Some(Render(d, DayFirst, '/'))) == Some(d)
  {
    var s := Render(d, DayFirst, '/');
    StripRendered(d, DayFirst, '/');
    SlashedFirstFails(d);
    SlashedParses(d);
    FirstMatchAt(BotFormats, s, 1);
  }

  lemma SlashedParses(d: Date)
    requires ValidDate(d)
    ensures ParseWith(BotFormats[1], Render(d, DayFirst, '/')) == Some(d)
  {
    RenderParse(d, BotFormats[1]);
  }

  /** For instance bot.py reads `01/02/2024` as the 1st of February. */
  lemma BotReadsDayFirst()
    ensures ParseDateSpec(BotFormats, Some("01/02/2024")) == Some(Date(2024, 2, 1))
  {
    var d := Date(2024, 2, 1);
    assert Render(d, DayFirst, '/') == "01/02/2024" by {
      assert Pad(2024, 4) == "2024" && Pad(2, 2) == "02" && Pad(1, 2) == "01";
      Text.Join3("01", "02", "2024", '/');
    }
    BotReadsSlashedDayFirst(d);
  }

  /** A format that repeats an earlier one in the list is never the first
      match: dropping it leaves `parse_date` unchanged (bot3.py lists
      `%d.%m.%Y` twice). */
  lemma {:induction false} RepeatedFormatIrrelevant(formats: seq<Format>, i: nat, j: nat, s: string)
    requires j < i < |formats| && formats[i] == formats[j]
    ensures FirstMatch(formats[..i] + formats[i + 1..], s) == FirstMatch(formats, s)
    decreases j
  {
    var fs := formats[..i] + formats[i + 1..];
    assert fs[0] == formats[0];
    if ParseWith(formats[0], s).None? {
      assert fs[1..] == formats[1..][..i - 1] + formats[1..][i..];
      if j == 0 {
        DropFailing(formats[1..], i - 1, s);
      } else {
        RepeatedFormatIrrelevant(formats[1..], i - 1, j - 1, s);
      }
    }
  }

  lemma {:induction false} DropFailing(formats: seq<Format>, i: nat, s: string)
    requires i < |formats| && ParseWith(formats[i], s).None?
    ensures FirstMatch(formats[..i] + formats[i + 1..], s) == FirstMatch(formats, s)
    decreases i
  {
    var fs := formats[..i] + formats[i + 1..];
    if i == 0 {
      assert fs == formats[1..];
    } else {
      assert fs[0] == formats[0];
      if ParseWith(formats[0], s).None? {
        assert fs[1..] == formats[1..][..i - 1] + formats[1..][i..];
        DropFailing(formats[1..], i - 1, s);
      }
    }
  }

  /** Hence bot3.py's list behaves as the list without the repeated entry. */
  lemma Bot3DuplicateHarmless(s: string)
    ensures FirstMatch(Bot3Formats, s) == FirstMatch(Bot3Formats[1..], s)
  {
    RepeatedFormatIrrelevant(Bot3Formats, 1, 0, s);
    assert Bot3Formats[..1] + Bot3Formats[2..] == Bot3Formats[1..];
  }

  /** `is_valid_date(date_str)` (bot.py:387-393): `strptime` with
      `%Y-%m-%d` succeeds. */
  predicate IsValidDate(s: string)
  {
    ParseWith(Format(YearFirst, '-', FourDigits), s).Some?
  }

  /** Exactly the `yyyy-mm-dd` renderings of calendar dates pass, and a
      `dd.mm.yyyy` one does not. */
  lemma IsValidDateSpec(d: Date)
    requires ValidDate(d)
    ensures IsValidDate(RenderIso(d))
    ensures !IsValidDate(RenderDotted(d))
  {
    RenderParse(d, Format(YearFirst, '-', FourDigits));
    RenderAvoids(d, DayFirst, '.', '-');
    NoSeparatorNoMatch(Format(YearFirst, '-', FourDigits), RenderDotted(d));
  }
}
