/** The spreadsheet-to-SQLite sync of both bots: every row of the project
    sheet is normalised into one `projects` record and the table is replaced
    by the records. The sheet is the list of its rows, each a list of cells;
    the table is the list of its records. bot.py (bot.py:444-510) writes all
    rows or none; bot3.py (bot3.py:592-659) skips the rows it cannot read,
    cuts every text to a per-column cap, keeps the table when no row
    survives, and runs inside the result cache. */
module Sync {
  import opened Wrappers
  import Text
  import Dates
  import Helpers
  import Memo
  import Sorting

  // `COLUMN_INDEXES`, the same in both files (bot.py:29-45, bot3.py:44-60).
  const ProjectNameCol: nat := 1
  const KorxonaCol: nat := 2
  const LoyihaTuriCol: nat := 3
  const TumanCol: nat := 5
  const ZonaCol: nat := 6
  const HamkorCol: nat := 11
  const HamkorMamlakatCol: nat := 12
  const TotalValueCol: nat := 13
  const SizeTypeCol: nat := 14
  const YearlyValueCol: nat := 16
  const HolatCol: nat := 27
  const MuammoCol: nat := 28
  const BoshqarmaMasulCol: nat := 29
  const ViloyatMasulCol: nat := 30
  const MuammoMuddatiCol: nat := 32

  /** The text stored for a missing cell ("unknown"). */
  const Unknown: string := "Nomalum"
  /** The text stored for a missing problem cell ("none"). */
  const NoProblem: string := "Yuq"

  /** One spreadsheet cell: missing (`pd.notna` is false) or present, with
      the text `str()` gives for it. */
  datatype Cell = Missing | Present(text: string)

  type Row = seq<Cell>

  /** The cell as the optional text `parse_date` and `get_size_type_simple`
      receive. */
  function CellText(c: Cell): Option<string>
  {
    match c
    case Missing => None
    case Present(t) => Some(t)
  }

  /** One record of the `projects` table, in its column order. The two
      amounts keep their raw cell: `convert_to_float` is not part of this
      model. */
  datatype Project = Project(
    projectName: string, korxonaTuri: string, loyihaTuri: string, tuman: string, zona: string,
    totalValue: Cell, yearlyValue: Cell, sizeType: Option<Helpers.SizeType>,
    hamkor: string, hamkorMamlakat: string, holat: string, muammo: string,
    boshqarmaMasul: string, viloyatMasul: string, muammoMuddati: Option<string>)

  /** `s[:n]`. */
  function Take(s: string, n: nat): (r: string)
    ensures |r| == if |s| <= n then |s| else n
    ensures r == s[..|r|]
  {
    if |s| <= n then s else s[..n]
  }

  /** A text column of bot.py: `str(v).strip()`, or the sentinel when the
      cell is missing. */
  function Plain(c: Cell, sentinel: string): string
  {
    match c
    case Missing => sentinel
    case Present(t) => Text.Strip(t)
  }

  /** A text column of bot3.py: `str(v).strip()[:cap]`, or the sentinel when
      the cell is missing. */
  function Capped(c: Cell, cap: nat, sentinel: string): string
  {
    match c
    case Missing => sentinel
    case Present(t) => Take(Text.Strip(t), cap)
  }

  /** bot3.py's text is bot.py's text cut to the cap, so it never exceeds the
      cap, and a text within the cap is stored whole. */
  lemma CappedIsPlainCut(c: Cell, cap: nat, sentinel: string)
    requires |sentinel| <= cap
    ensures Capped(c, cap, sentinel) == Take(Plain(c, sentinel), cap)
    ensures |Capped(c, cap, sentinel)| <= cap
    ensures |Plain(c, sentinel)| <= cap ==> Capped(c, cap, sentinel) == Plain(c, sentinel)
  {
  }

  /** The row is long enough for every column: `row.iloc[i]` raises
      `IndexError` past the end, and the due-date column, the highest index,
      is read first. */
  predicate Readable(row: Row)
  {
    |row| > MuammoMuddatiCol
  }

  /** The stored due date of bot.py: parsed with bot.py's formats and
      written as `%Y-%m-%d`. */
  function BotDue(c: Cell): Option<string>
  {
    match Dates.ParseDateSpec(Dates.BotFormats, CellText(c))
    case Some(d) => Some(Dates.RenderIso(d))
    case None => None
  }

  /** The stored due date of bot3.py: parsed with bot3.py's formats and
      written as `%d.%m.%Y`. */
  function Bot3Due(c: Cell): Option<string>
  {
    match Dates.ParseDateSpec(Dates.Bot3Formats, CellText(c))
    case Some(d) => Some(Dates.RenderDotted(d))
    case None => None
  }

  /** A due date bot.py stores reads back, with bot.py's formats, as the
      date that was parsed from the cell. */
  lemma BotDueRoundTrip(c: Cell)
    requires BotDue(c).Some?
    ensures Dates.ParseDateSpec(Dates.BotFormats, BotDue(c)) == Dates.ParseDateSpec(Dates.BotFormats, CellText(c))
  {
    var d := Dates.ParseDateSpec(Dates.BotFormats, CellText(c)).value;
    assert BotDue(c) == Some(Dates.RenderIso(d));
    Dates.BotParsesIso(d);
  }

  /** A due date bot3.py stores reads back, with bot3.py's formats, as the
      date that was parsed from the cell. */
  lemma Bot3DueRoundTrip(c: Cell)
    requires Bot3Due(c).Some?
    ensures Dates.ParseDateSpec(Dates.Bot3Formats, Bot3Due(c)) == Dates.ParseDateSpec(Dates.Bot3Formats, CellText(c))
  {
    var d := Dates.ParseDateSpec(Dates.Bot3Formats, CellText(c)).value;
    assert Bot3Due(c) == Some(Dates.RenderDotted(d));
    Dates.Bot3ParsesDotted(d);
  }

  /** bot.py's record for one row (bot.py:459-482), or the `IndexError` of a
      short row. */
  function BotRecord(row: Row): (r: Result<Project>)
    ensures r.Ok? <==> Readable(row)
  {
    if !Readable(row) then Err("single positional indexer is out-of-bounds")
    else Ok(Project(
      Plain(row[ProjectNameCol], Unknown), Plain(row[KorxonaCol], Unknown),
      Plain(row[LoyihaTuriCol], Unknown), Plain(row[TumanCol], Unknown), Plain(row[ZonaCol], Unknown),
      row[TotalValueCol], row[YearlyValueCol], Helpers.SizeTypeSimple(CellText(row[SizeTypeCol])),
      Plain(row[HamkorCol], Unknown), Plain(row[HamkorMamlakatCol], Unknown),
      Plain(row[HolatCol], Unknown), Plain(row[MuammoCol], NoProblem),
      Plain(row[BoshqarmaMasulCol], Unknown), Plain(row[ViloyatMasulCol], Unknown),
      BotDue(row[MuammoMuddatiCol])))
  }

  /** bot3.py's record for one row (bot3.py:606-630), or the `IndexError` of
      a short row. */
  function Bot3Record(row: Row): (r: Result<Project>)
    ensures r.Ok? <==> Readable(row)
  {
    if !Readable(row) then Err("single positional indexer is out-of-bounds")
    else Ok(Project(
      Capped(row[ProjectNameCol], 500, Unknown), Capped(row[KorxonaCol], 200, Unknown),
      Capped(row[LoyihaTuriCol], 200, Unknown), Capped(row[TumanCol], 100, Unknown),
      Capped(row[ZonaCol], 100, Unknown),
      row[TotalValueCol], row[YearlyValueCol], Helpers.SizeTypeSimple(CellText(row[SizeTypeCol])),
      Capped(row[HamkorCol], 200, Unknown), Capped(row[HamkorMamlakatCol], 100, Unknown),
      Capped(row[HolatCol], 500, Unknown), Capped(row[MuammoCol], 1000, NoProblem),
      Capped(row[BoshqarmaMasulCol], 200, Unknown), Capped(row[ViloyatMasulCol], 200, Unknown),
      Bot3Due(row[MuammoMuddatiCol])))
  }

  /** Every text of a bot3.py record is within its column's cap. */
  predicate WithinCaps(p: Project)
  {
    |p.projectName| <= 500 && |p.korxonaTuri| <= 200 && |p.loyihaTuri| <= 200
    && |p.tuman| <= 100 && |p.zona| <= 100 && |p.hamkor| <= 200 && |p.hamkorMamlakat| <= 100
    && |p.holat| <= 500 && |p.muammo| <= 1000 && |p.boshqarmaMasul| <= 200 && |p.viloyatMasul| <= 200
  }

  /** Both bots fail on the same rows; on the others bot3.py stores bot.py's
      texts cut to their caps, which keeps it within the caps, and the same
      size class. */
  lemma Bot3RecordCutsBotRecord(row: Row)
    ensures Bot3Record(row).Ok? <==> BotRecord(row).Ok?
    ensures Bot3Record(row).Ok? ==>
      var p, q := Bot3Record(row).value, BotRecord(row).value;
      WithinCaps(p)
      && p.projectName == Take(q.projectName, 500) && p.korxonaTuri == Take(q.korxonaTuri, 200)
      && p.loyihaTuri == Take(q.loyihaTuri, 200) && p.tuman == Take(q.tuman, 100)
      && p.zona == Take(q.zona, 100) && p.hamkor == Take(q.hamkor, 200)
      && p.hamkorMamlakat == Take(q.hamkorMamlakat, 100) && p.holat == Take(q.holat, 500)
      && p.muammo == Take(q.muammo, 1000) && p.boshqarmaMasul == Take(q.boshqarmaMasul, 200)
      && p.viloyatMasul == Take(q.viloyatMasul, 200)
      && p.sizeType == q.sizeType && p.totalValue == q.totalValue && p.yearlyValue == q.yearlyValue
  {
    if Readable(row) {
      CappedIsPlainCut(row[ProjectNameCol], 500, Unknown);
      CappedIsPlainCut(row[KorxonaCol], 200, Unknown);
      CappedIsPlainCut(row[LoyihaTuriCol], 200, Unknown);
      CappedIsPlainCut(row[TumanCol], 100, Unknown);
      CappedIsPlainCut(row[ZonaCol], 100, Unknown);
      CappedIsPlainCut(row[HamkorCol], 200, Unknown);
      CappedIsPlainCut(row[HamkorMamlakatCol], 100, Unknown);
      CappedIsPlainCut(row[HolatCol], 500, Unknown);
      CappedIsPlainCut(row[MuammoCol], 1000, NoProblem);
      CappedIsPlainCut(row[BoshqarmaMasulCol], 200, Unknown);
      CappedIsPlainCut(row[ViloyatMasulCol], 200, Unknown);
    }
  }

  /** The text columns in record order: the sheet column, bot3.py's cap
      for it, and the text stored when the cell is missing. */
  const TextColumns: seq<(nat, nat, string)> := [
    (ProjectNameCol, 500, Unknown), (KorxonaCol, 200, Unknown), (LoyihaTuriCol, 200, Unknown),
    (TumanCol, 100, Unknown), (ZonaCol, 100, Unknown), (HamkorCol, 200, Unknown),
    (HamkorMamlakatCol, 100, Unknown), (HolatCol, 500, Unknown), (MuammoCol, 1000, NoProblem),
    (BoshqarmaMasulCol, 200, Unknown), (ViloyatMasulCol, 200, Unknown)]

  /** The `k`-th text of a record, in `TextColumns` order. */
  function TextField(p: Project, k: nat): string
  {
    match k
    case 0 => p.projectName
    case 1 => p.korxonaTuri
    case 2 => p.loyihaTuri
    case 3 => p.tuman
    case 4 => p.zona
    case 5 => p.hamkor
    case 6 => p.hamkorMamlakat
    case 7 => p.holat
    case 8 => p.muammo
    case 9 => p.boshqarmaMasul
    case _ => p.viloyatMasul
  }

  /** A missing text cell is stored as "Nomalum", a missing problem cell as
      "Yuq", by both bots, in every text column; a missing due-date cell is
      stored as no date. */
  lemma MissingCellsGetSentinels(row: Row)
    requires Readable(row)
    ensures forall k :: 0 <= k < |TextColumns| && row[TextColumns[k].0] == Missing ==>
      TextField(BotRecord(row).value, k) == TextColumns[k].2
      && TextField(Bot3Record(row).value, k) == TextColumns[k].2
    ensures row[MuammoCol] == Missing ==>
      BotRecord(row).value.muammo == NoProblem && Bot3Record(row).value.muammo == NoProblem
    ensures row[MuammoMuddatiCol] == Missing ==>
      BotRecord(row).value.muammoMuddati == None && Bot3Record(row).value.muammoMuddati == None
  {
    forall k | 0 <= k < |TextColumns|
      ensures TextField(BotRecord(row).value, k) == Plain(row[TextColumns[k].0], TextColumns[k].2)
      ensures TextField(Bot3Record(row).value, k) == Capped(row[TextColumns[k].0], TextColumns[k].1, TextColumns[k].2)
    {
      RecordTextField(row, k);
    }
  }

  /** A present text cell is stored stripped by bot.py, and stripped and
      cut to the column's cap by bot3.py, in every text column. */
  lemma PresentCellsStripped(row: Row)
    requires Readable(row)
    ensures forall k :: 0 <= k < |TextColumns| && row[TextColumns[k].0].Present? ==>
      var t := Text.Strip(row[TextColumns[k].0].text);
      TextField(BotRecord(row).value, k) == t
      && TextField(Bot3Record(row).value, k) == Take(t, TextColumns[k].1)
  {
    forall k | 0 <= k < |TextColumns|
      ensures TextField(BotRecord(row).value, k) == Plain(row[TextColumns[k].0], TextColumns[k].2)
      ensures TextField(Bot3Record(row).value, k) == Capped(row[TextColumns[k].0], TextColumns[k].1, TextColumns[k].2)
    {
      RecordTextField(row, k);
    }
  }

  /** The `k`-th text of either bot's record is its column's cell as that
      bot stores it. */
  lemma RecordTextField(row: Row, k: nat)
    requires Readable(row) && k < |TextColumns|
    ensures TextField(BotRecord(row).value, k) == Plain(row[TextColumns[k].0], TextColumns[k].2)
    ensures TextField(Bot3Record(row).value, k) == Capped(row[TextColumns[k].0], TextColumns[k].1, TextColumns[k].2)
  {
    BotTextField(row, k);
    Bot3TextField(row, k);
  }

  lemma BotTextField(row: Row, k: nat)
    requires Readable(row) && k < |TextColumns|
    ensures TextField(BotRecord(row).value, k) == Plain(row[TextColumns[k].0], TextColumns[k].2)
  {
    match k
    case 0 => case 1 => case 2 => case 3 => case 4 => case 5 =>
    case 6 => case 7 => case 8 => case 9 => case 10 =>
  }

  lemma Bot3TextField(row: Row, k: nat)
    requires Readable(row) && k < |TextColumns|
    ensures TextField(Bot3Record(row).value, k) == Capped(row[TextColumns[k].0], TextColumns[k].1, TextColumns[k].2)
  {
    match k
    case 0 => case 1 => case 2 => case 3 => case 4 => case 5 =>
    case 6 => case 7 => case 8 => case 9 => case 10 =>
  }

  /** The records the `projects` table holds. */
  class ProjectsTable {
    var rows: seq<Project>

    constructor(initial: seq<Project>)
      ensures rows == initial
    {
      rows := initial;
    }
  }

  // ---------------------------------------------------------------------
  // bot3.py: skip unreadable rows; replace the table only when some row
  // survives.
  // ---------------------------------------------------------------------

  /** The records of the rows bot3.py can read, in sheet order. */
  function Survivors(rows: seq<Row>): seq<Project>
  {
    if |rows| == 0 then []
    else
      var last := match Bot3Record(rows[|rows| - 1]) case Ok(p) => [p] case Err(_) => [];
      Survivors(rows[..|rows| - 1]) + last
  }

  /** Every surviving record is the record of a readable row, and so within
      the caps. */
  lemma {:induction false} SurvivorsSound(rows: seq<Row>)
    ensures forall p :: p in Survivors(rows) ==>
      WithinCaps(p) && exists k :: 0 <= k < |rows| && Bot3Record(rows[k]) == Ok(p)
  {
    if |rows| > 0 {
      var n := |rows| - 1;
      SurvivorsSound(rows[..n]);
      Bot3RecordCutsBotRecord(rows[n]);
      forall p | p in Survivors(rows)
        ensures exists k :: 0 <= k < |rows| && Bot3Record(rows[k]) == Ok(p)
      {
        if p in Survivors(rows[..n]) {
          var k :| 0 <= k < n && Bot3Record(rows[..n][k]) == Ok(p);
          assert rows[..n][k] == rows[k];
        } else {
          assert Bot3Record(rows[n]) == Ok(p);
        }
      }
    }
  }

  /** The record of every readable row survives. */
  lemma {:induction false} SurvivorsComplete(rows: seq<Row>, k: nat)
    requires k < |rows| && Readable(rows[k])
    ensures Bot3Record(rows[k]).value in Survivors(rows)
  {
    var n := |rows| - 1;
    if k < n {
      assert rows[..n][k] == rows[k];
      SurvivorsComplete(rows[..n], k);
    }
  }

  /** No record survives exactly when no row is readable. */
  lemma SurvivorsEmpty(rows: seq<Row>)
    ensures Survivors(rows) == [] <==> forall k :: 0 <= k < |rows| ==> !Readable(rows[k])
  {
    SurvivorsSound(rows);
    if exists k :: 0 <= k < |rows| && Readable(rows[k]) {
      var k :| 0 <= k < |rows| && Readable(rows[k]);
      SurvivorsComplete(rows, k);
    }
  }

  /** The loop over `df.iterrows()` of bot3.py: a row that raises is logged
      and skipped. */
  method Bot3Normalise(rows: seq<Row>) returns (records: seq<Project>)
    ensures records == Survivors(rows)
  {
    records := [];
    for i := 0 to |rows|
      invariant records == Survivors(rows[..i])
    {
      assert rows[..i + 1][..i] == rows[..i];
      var r := Bot3Record(rows[i]);
      if r.Ok? {
        records := records + [r.value];
      }
    }
    assert rows[..|rows|] == rows;
  }

  /** The body of bot3.py's `sync_sheets_to_db` on a sheet (None when it
      could not be fetched): the table afterwards, and whether the cache was
      cleared. The DELETE commits on its own before the INSERT runs, so
      `deleteOk` and `insertOk` say whether each statement succeeds; a
      failure is caught by the outer handler. */
  function Bot3SyncSpec(sheet: Option<seq<Row>>, table: seq<Project>, deleteOk: bool, insertOk: bool): (seq<Project>, bool)
  {
    match sheet
    case None => (table, false)
    case Some(rows) =>
      var records := Survivors(rows);
      if |rows| == 0 || |records| == 0 then (table, false)
      else if !deleteOk then (table, false)
      else if !insertOk then ([], false)
      else (records, true)
  }

  /** When some row is readable and both statements succeed, the table holds
      exactly the readable rows' records, all within the caps, and the cache
      is cleared; when no row is readable, table and cache are untouched. */
  lemma Bot3SyncReplacesIffSurvivors(rows: seq<Row>, table: seq<Project>)
    ensures (exists k :: 0 <= k < |rows| && Readable(rows[k])) ==>
      Bot3SyncSpec(Some(rows), table, true, true) == (Survivors(rows), true)
    ensures (forall k :: 0 <= k < |rows| ==> !Readable(rows[k])) ==>
      forall d, i :: Bot3SyncSpec(Some(rows), table, d, i) == (table, false)
    ensures forall p :: p in Bot3SyncSpec(Some(rows), table, true, true).0 && p !in table ==> WithinCaps(p)
  {
    SurvivorsEmpty(rows);
    SurvivorsSound(rows);
  }

  /** A failed INSERT after the committed DELETE leaves the table empty and
      the cache as it was. */
  lemma Bot3InsertFailureEmptiesTable(rows: seq<Row>, table: seq<Project>)
    requires Survivors(rows) != []
    ensures Bot3SyncSpec(Some(rows), table, true, false) == ([], false)
  {
  }

  /** The body of bot3.py's `sync_sheets_to_db`. */
  method Bot3SyncBody<V>(sheet: Option<seq<Row>>, table: ProjectsTable, cache: Memo.TtlCache<V>, deleteOk: bool, insertOk: bool)
    modifies table, cache
    ensures table.rows == Bot3SyncSpec(sheet, old(table.rows), deleteOk, insertOk).0
    ensures cache.entries == if Bot3SyncSpec(sheet, old(table.rows), deleteOk, insertOk).1 then map[] else old(cache.entries)
  {
    if sheet.None? || |sheet.value| == 0 {
      return;
    }
    var records := Bot3Normalise(sheet.value);
    if |records| > 0 {
      if !deleteOk {
        return;
      }
      table.rows := [];
      if !insertOk {
        return;
      }
      table.rows := records;
      cache.Clear();
    }
  }

  /** The name `sync_sheets_to_db` is memoised under. */
  const SyncName: string := "sync_sheets_to_db"

  /** A call without arguments is keyed by the bare name. */
  lemma SyncKeyIsName()
    ensures Memo.CacheKey(SyncName, [], []) == SyncName
  {
    var none: seq<Memo.Kwarg> := [];
    assert Memo.KwargTexts(Sorting.SortBy(none, Memo.NameKey)) == [];
    assert [SyncName] + [] + [] == [SyncName];
  }

  /** bot3.py's `sync_sheets_to_db` as called, inside its cache wrapper at
      time `now`: the table afterwards, the cache entries afterwards, and
      whether the body ran. The body returns None (`nothing`), which the
      wrapper stores after the body may have cleared the cache. */
  function MemoisedSyncSpec<V>(entries: map<string, Memo.Entry<V>>, table: seq<Project>, sheet: Option<seq<Row>>,
                               deleteOk: bool, insertOk: bool, now: int, nothing: V)
    : (seq<Project>, map<string, Memo.Entry<V>>, bool)
  {
    match Memo.Lookup(entries, SyncName, now)
    case Some(_) => (table, entries, false)
    case None =>
      var (t, cleared) := Bot3SyncSpec(sheet, table, deleteOk, insertOk);
      (t, Memo.Stored(if cleared then map[] else entries, SyncName, nothing, now), true)
  }

  /** A sync that ran leaves its own entry in the cache, and after a sync
      that replaced the table that entry is all the cache holds; so for
      `CACHE_TTL` seconds a further call does nothing at all. */
  lemma SyncMemoisedWithinTtl<V>(entries: map<string, Memo.Entry<V>>, table: seq<Project>, sheet: Option<seq<Row>>,
                                 deleteOk: bool, insertOk: bool, now: int, nothing: V,
                                 sheet2: Option<seq<Row>>, deleteOk2: bool, insertOk2: bool, later: int)
    requires MemoisedSyncSpec(entries, table, sheet, deleteOk, insertOk, now, nothing).2
    requires now <= later < now + Memo.CacheTtl
    ensures var (t1, e1, _) := MemoisedSyncSpec(entries, table, sheet, deleteOk, insertOk, now, nothing);
      MemoisedSyncSpec(e1, t1, sheet2, deleteOk2, insertOk2, later, nothing) == (t1, e1, false)
    ensures Bot3SyncSpec(sheet, table, deleteOk, insertOk).1 ==>
      MemoisedSyncSpec(entries, table, sheet, deleteOk, insertOk, now, nothing).1
        == map[SyncName := Memo.Entry(nothing, now + Memo.CacheTtl)]
  {
    var (t, cleared) := Bot3SyncSpec(sheet, table, deleteOk, insertOk);
    Memo.LookupStored(if cleared then map[] else entries, SyncName, nothing, now, SyncName, later);
  }

  /** bot3.py's `sync_sheets_to_db()` through `cache_decorator(ttl=300)` at
      time `now`. */
  method SyncSheetsToDb<V>(sheet: Option<seq<Row>>, table: ProjectsTable, cache: Memo.TtlCache<V>,
                           deleteOk: bool, insertOk: bool, now: int, nothing: V) returns (ran: bool)
    modifies table, cache
    ensures (table.rows, cache.entries, ran)
      == MemoisedSyncSpec(old(cache.entries), old(table.rows), sheet, deleteOk, insertOk, now, nothing)
  {
    SyncKeyIsName();
    var hit := cache.Get(Memo.CacheKey(SyncName, [], []), now);
    if hit.Some? {
      return false;
    }
    Bot3SyncBody(sheet, table, cache, deleteOk, insertOk);
    cache.Put(SyncName, nothing, now);
    ran := true;
  }

  // ---------------------------------------------------------------------
  // bot.py: all rows or none, committed together.
  // ---------------------------------------------------------------------

  /** The records of bot.py's loop, or None when some row raises. */
  function BotRecords(rows: seq<Row>): Option<seq<Project>>
  {
    if |rows| == 0 then Some([])
    else match BotRecords(rows[..|rows| - 1])
      case None => None
      case Some(rs) =>
        match BotRecord(rows[|rows| - 1])
        case Ok(p) => Some(rs + [p])
        case Err(_) => None
  }

  /** bot.py reads every row or aborts: the records exist exactly when every
      row is readable. */
  lemma {:induction false} BotRecordsIffReadable(rows: seq<Row>)
    ensures BotRecords(rows).Some? <==> forall k :: 0 <= k < |rows| ==> Readable(rows[k])
  {
    if |rows| > 0 {
      var n := |rows| - 1;
      BotRecordsIffReadable(rows[..n]);
      assert forall k :: 0 <= k < n ==> rows[..n][k] == rows[k];
    }
  }

  /** When bot.py reads every row there is one record per row, in sheet
      order. */
  lemma {:induction false} BotRecordsInOrder(rows: seq<Row>)
    requires BotRecords(rows).Some?
    ensures |BotRecords(rows).value| == |rows|
    ensures forall k :: 0 <= k < |rows| ==> BotRecord(rows[k]) == Ok(BotRecords(rows).value[k])
  {
    if |rows| > 0 {
      var n := |rows| - 1;
      var rs := BotRecords(rows[..n]).value;
      BotRecordsInOrder(rows[..n]);
      assert BotRecords(rows) == Some(rs + [BotRecord(rows[n]).value]);
      assert forall k :: 0 <= k < n ==> rows[..n][k] == rows[k];
    }
  }

  /** bot.py's `sync_sheets_to_db` (bot.py:444-510). The DELETE and the
      INSERT are one transaction committed at bot.py:495; `writeOk` says
      whether it commits. Any exception (no sheet, an unreadable row, a
      failed statement) leaves the committed table as it was. */
  function BotSyncSpec(sheet: Option<seq<Row>>, table: seq<Project>, writeOk: bool): seq<Project>
  {
    match sheet
    case None => table
    case Some(rows) =>
      match BotRecords(rows)
      case None => table
      case Some(records) => if writeOk then records else table
  }

  /** bot.py has no emptiness guard: an empty sheet empties the table, which
      bot3.py leaves as it was. */
  lemma EmptySheet(table: seq<Project>, deleteOk: bool, insertOk: bool)
    ensures BotSyncSpec(Some([]), table, true) == []
    ensures Bot3SyncSpec(Some([]), table, deleteOk, insertOk) == (table, false)
  {
  }

  /** One unreadable row keeps bot.py's whole cycle from changing the table,
      where bot3.py would skip just that row. */
  lemma BotRowFailureAborts(rows: seq<Row>, table: seq<Project>, writeOk: bool, k: nat)
    requires k < |rows| && !Readable(rows[k])
    ensures BotSyncSpec(Some(rows), table, writeOk) == table
  {
    BotRecordsIffReadable(rows);
  }

  /** bot.py's `sync_sheets_to_db`. */
  method BotSync(sheet: Option<seq<Row>>, table: ProjectsTable, writeOk: bool)
    modifies table
    ensures table.rows == BotSyncSpec(sheet, old(table.rows), writeOk)
  {
    if sheet.None? {
      return;
    }
    var rows := sheet.value;
    var records: seq<Project> := [];
    for i := 0 to |rows|
      invariant BotRecords(rows[..i]) == Some(records)
    {
      assert rows[..i + 1][..i] == rows[..i];
      var r := BotRecord(rows[i]);
      if r.Err? {
        assert BotRecords(rows[..i + 1]).None?;
        BotPrefixFails(rows, i + 1);
        return;
      }
      records := records + [r.value];
    }
    assert rows[..|rows|] == rows;
    if writeOk {
      table.rows := records;
    }
  }

  /** Once a prefix of the sheet fails, the whole sheet fails. */
  lemma {:induction false} BotPrefixFails(rows: seq<Row>, i: nat)
    requires i <= |rows| && BotRecords(rows[..i]).None?
    ensures BotRecords(rows).None?
    decreases |rows| - i
  {
    if i < |rows| {
      assert rows[..i + 1][..i] == rows[..i];
      BotPrefixFails(rows, i + 1);
    } else {
      assert rows[..i] == rows;
    }
  }
}
