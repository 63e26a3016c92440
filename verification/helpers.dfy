/** Two small pure helpers shared by both bots: the pagination row under a
    paged list (`pager`, bot.py:554-561, bot3.py:984-991) and the project
    size class read from a free-text spreadsheet cell
    (`get_size_type_simple`, bot.py:341-353, bot3.py:534-546). */
module Helpers {
  import opened Wrappers
  import Text

  /** `PAGE_SIZE`: projects per page. */
  const PageSize: nat := 5

  /** A pagination button, by the page it leads to (its label and the
      caller's callback prefix are presentation). */
  datatype PageButton = Prev(target: int) | Next(target: int)

  /** The buttons of a keyboard given as rows. */
  function Buttons(rows: seq<seq<PageButton>>): seq<PageButton>
  {
    if |rows| == 0 then [] else rows[0] + Buttons(rows[1..])
  }

  /** `pager(prefix, page, total)`: one row holding "previous" when there is
      a page before this one and "next" when items remain after it, in that
      order; no row at all when neither applies. */
  function Pager(page: int, total: int): (rows: seq<seq<PageButton>>)
    ensures |rows| <= 1 && (|rows| == 1 ==> |rows[0]| > 0)
    ensures Prev(page - 1) in Buttons(rows) <==> page > 0
    ensures Next(page + 1) in Buttons(rows) <==> (page + 1) * PageSize < total
    ensures forall b :: b in Buttons(rows) ==> b == Prev(page - 1) || b == Next(page + 1)
    ensures |Buttons(rows)| == 2 ==> Buttons(rows)[0].Prev?
  {
    var btns := (if page > 0 then [Prev(page - 1)] else [])
      + (if (page + 1) * PageSize < total then [Next(page + 1)] else []);
    assert Buttons([btns]) == btns + Buttons([]);
    if |btns| > 0 then [btns] else []
  }

  /** The last page of a list of `total` items (page 0 for an empty list). */
  function LastPage(total: nat): nat
  {
    if total == 0 then 0 else (total - 1) / PageSize
  }

  /** Item `i` (counting from 0) is shown on page `i / PAGE_SIZE`. "Next" is
      offered exactly on the pages before the last one, so following it from
      page 0 reaches every item and stops on the last page. */
  lemma PagerNextUntilLastPage(page: nat, total: nat)
    ensures Next(page + 1) in Buttons(Pager(page, total)) <==> page < LastPage(total)
  {
    if total > 0 {
      var q := (total - 1) / PageSize;
      assert total - 1 == q * PageSize + (total - 1) % PageSize;
      if page < q {
        assert (page + 1) * PageSize <= q * PageSize;
      } else {
        assert (page + 1) * PageSize >= (q + 1) * PageSize;
      }
    }
  }

  /** Project size classes recognised in the spreadsheet. */
  datatype SizeType = Kichik | Orta | Yirik

  /** `get_size_type_simple(value)`: None for a missing cell; otherwise the
      lower-cased text is searched for "кичик" (small), then for "ўрта" or
      "орта" (medium), then for "йирик" (large), the first hit deciding. */
  function SizeTypeSimple(value: Option<string>): (r: Option<SizeType>)
    ensures value.None? ==> r.None?
    ensures value.Some? ==>
      var small := Text.Contains(Text.Lower(value.value), "кичик");
      var medium := Text.Contains(Text.Lower(value.value), "ўрта") || Text.Contains(Text.Lower(value.value), "орта");
      var large := Text.Contains(Text.Lower(value.value), "йирик");
      (r == Some(Kichik) <==> small)
      && (r == Some(Orta) <==> !small && medium)
      && (r == Some(Yirik) <==> !small && !medium && large)
      && (r.None? <==> !small && !medium && !large)
  {
    match value
    case None => None
    case Some(v) =>
      var lowered := Text.Lower(v);
      if Text.Contains(lowered, "кичик") then Some(Kichik)
      else if Text.Contains(lowered, "ўрта") || Text.Contains(lowered, "орта") then Some(Orta)
      else if Text.Contains(lowered, "йирик") then Some(Yirik)
      else None
  }

  /** The class does not depend on letter case. */
  lemma SizeTypeIgnoresCase(v: string)
    ensures SizeTypeSimple(Some(Text.Lower(v))) == SizeTypeSimple(Some(v))
  {
    Text.LowerIdempotent(v);
  }

  /** The keywords are tried in a fixed order: a cell that mentions "йирик"
      is large only when it mentions neither a small nor a medium keyword. */
  lemma SizeTypeSmallFirst(v: string)
    requires Text.Contains(Text.Lower(v), "йирик")
    ensures SizeTypeSimple(Some(v)) == Some(Yirik) <==>
      (!Text.Contains(Text.Lower(v), "кичик")
       && !Text.Contains(Text.Lower(v), "ўрта") && !Text.Contains(Text.Lower(v), "орта"))
  {
  }

  /** Capitalised Cyrillic is recognised: "Ўрта" is medium. */
  lemma SizeTypeCapitalised()
    ensures SizeTypeSimple(Some("Ўрта")) == Some(Orta)
  {
    assert Text.Lower("Ўрта") == "ўрта";
    assert !Text.Contains("ўрта", "кичик");
  }
}
