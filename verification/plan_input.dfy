/** Reading a new daily plan typed by the user (bot.py:1689-1739): the
    message is stripped and must keep at least 3 characters; text after the
    first `|` is a due date, tried against `%Y-%m-%d`, `%d.%m.%Y`,
    `%d/%m/%Y` and `%d-%m-%Y` in that order and stored as `%Y-%m-%d`; the
    text before it, stripped, is the plan. */
module PlanInput {
  import opened Wrappers
  import Text
  import opened Dates

  /** What the handler does with a message: add a plan, or reply that the
      text is too short or the date unreadable. */
  datatype PlanEntry = Entry(text: string, due: Option<string>) | TooShort | BadDate

  /** The handler's decision for the raw message. */
  function PlanEntrySpec(raw: string): (r: PlanEntry)
    ensures r == TooShort <==> |Text.Strip(raw)| < 3
    ensures r.Entry? && r.due.None? ==> r.text == Text.Strip(raw) && '|' !in r.text
    ensures r.Entry? && r.due.Some? ==> '|' in Text.Strip(raw) && '|' !in r.text
    ensures var s := Text.Strip(raw); |s| >= 3 && '|' !in s ==> r == Entry(s, None)
    ensures var s := Text.Strip(raw); |s| >= 3 && '|' in s ==> r == BarEntry(s, Text.Find(s, '|').value)
  {
    var s := Text.Strip(raw);
    if |s| < 3 then TooShort
    else match Text.Find(s, '|')
      case None => Entry(s, None)
      case Some(i) => BarEntry(s, i)
  }

  /** The decision for the stripped message `s` whose first bar is at `i`:
      the date is refused exactly when no due-date format reads the stripped
      tail; otherwise the stripped head is the plan, dated by the first
      format that reads the tail. */
  function BarEntry(s: string, i: nat): (r: PlanEntry)
    requires i < |s| && '|' !in s[..i]
    ensures r.Entry? ==> r.due.Some? && '|' !in r.text
    ensures var tail := Text.Strip(s[i + 1..]);
      (r == BadDate <==> forall k :: 0 <= k < |DueDateFormats| ==> ParseWith(DueDateFormats[k], tail).None?)
      && (r != BadDate ==>
            exists k :: 0 <= k < |DueDateFormats| && ParseWith(DueDateFormats[k], tail).Some?
              && (forall j :: 0 <= j < k ==> ParseWith(DueDateFormats[j], tail).None?)
              && r == Entry(Text.Strip(s[..i]), Some(RenderIso(ParseWith(DueDateFormats[k], tail).value))))
  {
    var tail := Text.Strip(s[i + 1..]);
    FirstMatchSpec(DueDateFormats, tail);
    match FirstMatch(DueDateFormats, tail)
    case None => BadDate
    case Some(d) =>
      assert '|' !in Text.Strip(s[..i]) by { Text.StripAvoids(s[..i], '|'); }
      Entry(Text.Strip(s[..i]), Some(RenderIso(d)))
  }

  lemma EmptyNoMatch(formats: seq<Format>)
    ensures FirstMatch(formats, "") == None
  {
    forall i | 0 <= i < |formats| ensures ParseWith(formats[i], "").None? {
      NoSeparatorNoMatch(formats[i], "");
    }
    FirstMatchSpec(formats, "");
  }

  /** `parse_date`'s loop on the stripped date text is the first match. */
  lemma DueParse(tail: string)
    ensures ParseDateSpec(DueDateFormats, Some(Text.Strip(tail))) == FirstMatch(DueDateFormats, Text.Strip(tail))
  {
    Text.StripIdempotent(tail);
    if Text.Strip(tail) == "" {
      EmptyNoMatch(DueDateFormats);
    }
  }

  /** The handler (bot.py:1689-1739), its date loop being `parse_date`'s. */
  method ReadPlanInput(raw: string) returns (r: PlanEntry)
    ensures r == PlanEntrySpec(raw)
  {
    var s := Text.Strip(raw);
    if |s| < 3 {
      return TooShort;
    }
    var text := s;
    var due: Option<string> := None;
    var bar := Text.Find(s, '|');
    if bar.Some? {
      text := Text.Strip(s[..bar.value]);
      var dueText := Text.Strip(s[bar.value + 1..]);
      DueParse(s[bar.value + 1..]);
      var parsed := ParseDate(DueDateFormats, Some(dueText));
      if parsed.None? {
        return BadDate;
      }
      due := Some(RenderIso(parsed.value));
    }
    return Entry(text, due);
  }

  /** The decision for a message with a bar and a readable date. */
  lemma EntryOfBar(raw: string, i: nat, d: Date)
    requires |Text.Strip(raw)| >= 3 && Text.Find(Text.Strip(raw), '|') == Some(i)
    requires FirstMatch(DueDateFormats, Text.Strip(Text.Strip(raw)[i + 1..])) == Some(d)
    ensures PlanEntrySpec(raw) == Entry(Text.Strip(Text.Strip(raw)[..i]), Some(RenderIso(d)))
  {
  }

  /** The message `text|date` is already stripped. */
  lemma BarredStripped(t: string, tail: string)
    requires |t| > 0 && !Text.IsSpace(t[0])
    requires |tail| > 0 && !Text.IsSpace(tail[|tail| - 1])
    ensures Text.Strip(t + "|" + tail) == t + "|" + tail
  {
    Text.StripNoop(t + "|" + tail);
  }

  /** The message `text|date` splits at its only bar. */
  lemma SplitsAtBar(t: string, tail: string)
    requires '|' !in t
    ensures Text.Find(t + "|" + tail, '|') == Some(|t|)
    ensures (t + "|" + tail)[..|t|] == t && (t + "|" + tail)[|t| + 1..] == tail
  {
    var s := t + "|" + tail;
    assert s[..|t|] == t;
    Text.FindAt(s, '|', |t|);
    assert s[|t| + 1..] == tail;
  }

  lemma RenderedEnds(d: Date, order: FieldOrder, sep: char)
    requires ValidDate(d) && IsSeparator(sep)
    ensures |Render(d, order, sep)| >= 3
    ensures !Text.IsSpace(Render(d, order, sep)[|Render(d, order, sep)| - 1])
  {
    RenderShape(d, order, sep);
    var s := Render(d, order, sep);
    assert s[|s| - 1] == sep || Decimal.IsDigit(s[|s| - 1]);
    RenderFields(d, order, sep);
  }

  lemma IsoDueFirst(d: Date)
    requires ValidDate(d)
    ensures FirstMatch(DueDateFormats, RenderIso(d)) == Some(d)
  {
    RenderParse(d, DueDateFormats[0]);
    FirstMatchAt(DueDateFormats, RenderIso(d), 0);
  }

  /** A plan typed with an ISO due date is stored with that date. */
  lemma IsoEntryRoundTrip(t: string, d: Date)
    requires ValidDate(d)
    requires '|' !in t && Text.Strip(t) == t && |t| > 0
    ensures PlanEntrySpec(t + "|" + RenderIso(d)) == Entry(t, Some(RenderIso(d)))
  {
    var iso := RenderIso(d);
    var s := t + "|" + iso;
    TypedStripped(t, d, YearFirst, '-');
    SplitsAtBar(t, iso);
    TypedDate(t, d, YearFirst, '-');
    assert Text.Strip(Text.Strip(s)[..|t|]) == t;
    assert Text.Strip(Text.Strip(s)[|t| + 1..]) == iso;
    IsoDueFirst(d);
    EntryOfBar(s, |t|, d);
  }

  /** The message `text|date` for a rendered date is already stripped... */
  lemma TypedStripped(t: string, d: Date, order: FieldOrder, sep: char)
    requires ValidDate(d) && IsSeparator(sep)
    requires |t| > 0 && !Text.IsSpace(t[0])
    ensures Text.Strip(t + "|" + Render(d, order, sep)) == t + "|" + Render(d, order, sep)
    ensures |t + "|" + Render(d, order, sep)| >= 3
  {
    RenderedEnds(d, order, sep);
    BarredStripped(t, Render(d, order, sep));
  }

  /** ... and its date part, stripped, is the rendered date. */
  lemma TypedDate(t: string, d: Date, order: FieldOrder, sep: char)
    requires ValidDate(d) && IsSeparator(sep) && '|' !in t
    ensures Text.Strip((t + "|" + Render(d, order, sep))[|t| + 1..]) == Render(d, order, sep)
  {
    SplitsAtBar(t, Render(d, order, sep));
    StripRendered(d, order, sep);
  }

  lemma DottedFirstFails(d: Date)
    requires ValidDate(d)
    ensures forall i :: 0 <= i < 1 ==> ParseWith(DueDateFormats[i], RenderDotted(d)).None?
  {
    RenderAvoids(d, DayFirst, '.', '-');
    NoSeparatorNoMatch(Format(YearFirst, '-', FourDigits), RenderDotted(d));
  }

  lemma DottedDue(d: Date)
    requires ValidDate(d)
    ensures FirstMatch(DueDateFormats, RenderDotted(d)) == Some(d)
  {
    DottedFirstFails(d);
    RenderParse(d, DueDateFormats[1]);
    FirstMatchAt(DueDateFormats, RenderDotted(d), 1);
  }

  /** A plan typed with a `dd.mm.yyyy` due date is stored with the same date
      written `yyyy-mm-dd`. */
  lemma DottedEntryStoredIso(t: string, d: Date)
    requires ValidDate(d)
    requires '|' !in t && Text.Strip(t) == t && |t| > 0
    ensures PlanEntrySpec(t + "|" + RenderDotted(d)) == Entry(t, Some(RenderIso(d)))
  {
    var dotted := RenderDotted(d);
    var s := t + "|" + dotted;
    TypedStripped(t, d, DayFirst, '.');
    SplitsAtBar(t, dotted);
    TypedDate(t, d, DayFirst, '.');
    assert Text.Strip(Text.Strip(s)[..|t|]) == t;
    assert Text.Strip(Text.Strip(s)[|t| + 1..]) == dotted;
    DottedDue(d);
    EntryOfBar(s, |t|, d);
  }

  /** The three-character minimum applies to the whole message, not to the
      plan text: a message made of a bar and a date adds a plan with empty
      text. */
  lemma EmptyTextAccepted(d: Date)
    requires ValidDate(d)
    ensures PlanEntrySpec("|" + RenderIso(d)) == Entry("", Some(RenderIso(d)))
  {
    var iso := RenderIso(d);
    var s := "|" + iso;
    RenderedEnds(d, YearFirst, '-');
    Text.StripNoop(s);
    Text.FindAt(s, '|', 0);
    assert s[1..] == iso;
    assert Text.Strip(s[..0]) == "";
    StripRendered(d, YearFirst, '-');
    IsoDueFirst(d);
    assert Text.Strip(s) == s && |s| >= 3;
    assert FirstMatch(DueDateFormats, Text.Strip(Text.Strip(s)[1..])) == Some(d);
    EntryOfBar(s, 0, d);
  }
}
