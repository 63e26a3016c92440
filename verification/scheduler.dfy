/** The background report loops of both bots, one tick at a time. Each tick
    reads the Tashkent wall clock as "HH:MM" (`strftime('%H:%M')`); here that
    string is the tick's input, and the reports themselves are only named. */
module Scheduler {
  import opened Wrappers
  import Decimal
  import Memo

  /** `s.endswith(suffix)`. */
  predicate EndsWith(s: string, suffix: string)
  {
    |suffix| <= |s| && s[|s| - |suffix|..] == suffix
  }

  /** `strftime('%H:%M')` of hour `h` and minute `m`. */
  function Clock(h: nat, m: nat): string
    requires h < 24 && m < 60
  {
    Decimal.Pad(h, 2) + ":" + Decimal.Pad(m, 2)
  }

  // ---------------------------------------------------------------------
  // bot.py: one job per tick, chosen by an if/elif chain.
  // ---------------------------------------------------------------------

  /** What one pass of bot.py's loop runs. */
  datatype Job = RunProblemReport | RunDailyReport | RunDueSweep | Idle

  /** The dispatch of bot.py's `schedule_reports`: "17:00" runs the problem
      report, "19:00" the daily plans report, any other time ending in ":00"
      the due-date sweep, and every other minute nothing. */
  function Dispatch(current: string): Job
  {
    if current == "17:00" then RunProblemReport
    else if current == "19:00" then RunDailyReport
    else if EndsWith(current, ":00") then RunDueSweep
    else Idle
  }

  lemma PadTwoDigits(n: nat)
    requires n < 100
    ensures Decimal.Value(Decimal.Pad(n, 2)) == n
  {
    assert Decimal.Pow10(2) == 100 by {
      assert Decimal.Pow10(1) == 10;
    }
    Decimal.ValuePad(n, 2);
  }

  /** Two clock readings are equal only for the same hour and minute. */
  lemma ClockInjective(h1: nat, m1: nat, h2: nat, m2: nat)
    requires h1 < 24 && m1 < 60 && h2 < 24 && m2 < 60
    requires Clock(h1, m1) == Clock(h2, m2)
    ensures h1 == h2 && m1 == m2
  {
    var s1, s2 := Clock(h1, m1), Clock(h2, m2);
    assert s1[..2] == Decimal.Pad(h1, 2) && s2[..2] == Decimal.Pad(h2, 2);
    assert s1[3..] == Decimal.Pad(m1, 2) && s2[3..] == Decimal.Pad(m2, 2);
    PadTwoDigits(h1);
    PadTwoDigits(h2);
    PadTwoDigits(m1);
    PadTwoDigits(m2);
  }

  /** A clock reading ends in ":00" exactly on the hour. */
  lemma ClockOnTheHour(h: nat, m: nat)
    requires h < 24 && m < 60
    ensures EndsWith(Clock(h, m), ":00") <==> m == 0
  {
    var s := Clock(h, m);
    assert s[|s| - 3..] == ":" + Decimal.Pad(m, 2);
    assert Decimal.Pad(0, 2) == "00";
    if EndsWith(s, ":00") {
      assert Decimal.Pad(m, 2) == (":" + Decimal.Pad(m, 2))[1..] == ":00"[1..] == "00";
      PadTwoDigits(m);
      PadTwoDigits(0);
    }
  }

  /** On a real clock reading the dispatch is: nothing unless the minute is
      0; then the problem report at 17, the daily report at 19, and the due
      sweep at every other hour, so the sweep is skipped at 17:00 and
      19:00. */
  lemma ClockDispatch(h: nat, m: nat)
    requires h < 24 && m < 60
    ensures Dispatch(Clock(h, m))
      == if m != 0 then Idle
         else if h == 17 then RunProblemReport
         else if h == 19 then RunDailyReport
         else RunDueSweep
  {
    assert Clock(17, 0) == "17:00" && Clock(19, 0) == "19:00";
    ClockOnTheHour(h, m);
    if Clock(h, m) == "17:00" {
      ClockInjective(h, m, 17, 0);
    }
    if Clock(h, m) == "19:00" {
      ClockInjective(h, m, 19, 0);
    }
  }

  /** bot.py's `while True` loop over the clock readings it observes: each
      reading runs at most one job. */
  method RunBotSchedule(ticks: seq<string>) returns (jobs: seq<Job>)
    ensures |jobs| == |ticks|
    ensures forall i :: 0 <= i < |ticks| ==> jobs[i] == Dispatch(ticks[i])
  {
    jobs := [];
    var i := 0;
    while i < |ticks|
      invariant 0 <= i <= |ticks| && |jobs| == i
      invariant forall k :: 0 <= k < i ==> jobs[k] == Dispatch(ticks[k])
    {
      var job: Job;
      if ticks[i] == "17:00" {
        job := RunProblemReport;
      } else if ticks[i] == "19:00" {
        job := RunDailyReport;
      } else if EndsWith(ticks[i], ":00") {
        job := RunDueSweep;
      } else {
        job := Idle;
      }
      jobs := jobs + [job];
      i := i + 1;
    }
  }

  // ---------------------------------------------------------------------
  // bot3.py: a slot table deduplicated by `last_check_time`.
  // ---------------------------------------------------------------------

  /** The reports of bot3.py's `report_times` table. */
  datatype Report = ProblemReport | WorksReport | DailyReport

  /** `report_times`, in its insertion order. */
  const ReportTimes: seq<(string, Report)> :=
    [("19:16", ProblemReport), ("19:17", WorksReport), ("19:18", DailyReport)]

  /** The report of the last slot in `times` whose time is `current`. */
  function SlotIn(times: seq<(string, Report)>, current: string): (r: Option<Report>)
    ensures r.Some? ==> exists k :: 0 <= k < |times| && times[k] == (current, r.value)
    ensures r.None? ==> forall k :: 0 <= k < |times| ==> times[k].0 != current
  {
    if |times| == 0 then None
    else if times[|times| - 1].0 == current then Some(times[|times| - 1].1)
    else SlotIn(times[..|times| - 1], current)
  }

  /** The report whose slot is `current`, if any. */
  function Slot(current: string): Option<Report>
  {
    SlotIn(ReportTimes, current)
  }

  /** The three slots are distinct minutes, one report each. */
  lemma SlotTable(current: string)
    ensures Slot(current)
      == if current == "19:16" then Some(ProblemReport)
         else if current == "19:17" then Some(WorksReport)
         else if current == "19:18" then Some(DailyReport)
         else None
  {
    var t3 := ReportTimes;
    var t2 := [("19:16", ProblemReport), ("19:17", WorksReport)];
    var t1 := [("19:16", ProblemReport)];
    assert t3[..2] == t2 && t2[..1] == t1 && t1[..0] == [];
    assert SlotIn(t1, current) == if current == "19:16" then Some(ProblemReport) else None;
    assert SlotIn(t2, current) == if current == "19:17" then Some(WorksReport) else SlotIn(t1, current);
    assert SlotIn(t3, current) == if current == "19:18" then Some(DailyReport) else SlotIn(t2, current);
  }

  /** `current_time.endswith(":00") or current_time.endswith(":30")`. */
  predicate ClearsCache(current: string)
  {
    EndsWith(current, ":00") || EndsWith(current, ":30")
  }

  /** One tick of bot3.py's loop on `last_check_time`: the report fired, if
      any, and the new `last_check_time`. `ok` says whether the report
      returned normally; `last_check_time` is only set when it did. */
  function TickSpec(last: Option<string>, current: string, ok: bool): (Option<Report>, Option<string>)
  {
    var fired := if last != Some(current) then Slot(current) else None;
    (fired, if fired.Some? && ok then Some(current) else last)
  }

  /** A report fires exactly when the tick is at its slot and the previous
      successful report was not at this same minute. */
  lemma TickFiresIff(last: Option<string>, current: string, ok: bool, r: Report)
    ensures TickSpec(last, current, ok).0 == Some(r) <==> Slot(current) == Some(r) && last != Some(current)
  {
  }

  /** After a report returns, further ticks in the same minute fire
      nothing. */
  lemma SuccessDedupes(last: Option<string>, current: string, ok2: bool)
    requires TickSpec(last, current, true).0.Some?
    ensures TickSpec(TickSpec(last, current, true).1, current, ok2) == (None, Some(current))
  {
  }

  /** After a report raises, the next tick in the same minute fires it
      again. */
  lemma FailureRetries(last: Option<string>, current: string, ok2: bool)
    requires TickSpec(last, current, false).0.Some?
    ensures TickSpec(TickSpec(last, current, false).1, current, ok2).0 == TickSpec(last, current, false).0
  {
  }

  /** A run of ticks: what each tick fired, and `last_check_time` after the
      run. */
  function Run(last: Option<string>, ticks: seq<string>, oks: seq<bool>): (Option<string>, seq<Option<Report>>)
    requires |oks| == |ticks|
  {
    if |ticks| == 0 then (last, [])
    else
      var (before, fired) := Run(last, ticks[..|ticks| - 1], oks[..|ticks| - 1]);
      var (f, after) := TickSpec(before, ticks[|ticks| - 1], oks[|ticks| - 1]);
      (after, fired + [f])
  }

  lemma RunLength(last: Option<string>, ticks: seq<string>, oks: seq<bool>)
    requires |oks| == |ticks|
    ensures |Run(last, ticks, oks).1| == |ticks|
  {
  }

  /** Ticks that all read the same slot minute fire the report on every tick
      up to and including the first one on which it returns, and on none
      after it. */
  lemma {:induction false} RunWithinMinute(last: Option<string>, current: string, ticks: seq<string>, oks: seq<bool>)
    requires |oks| == |ticks| && Slot(current).Some? && last != Some(current)
    requires forall k :: 0 <= k < |ticks| ==> ticks[k] == current
    ensures |Run(last, ticks, oks).1| == |ticks|
    ensures forall i :: 0 <= i < |ticks| ==>
      (Run(last, ticks, oks).1[i] == Slot(current) <==> forall j :: 0 <= j < i ==> !oks[j])
    ensures forall i :: 0 <= i < |ticks| ==> Run(last, ticks, oks).1[i] in {None, Slot(current)}
    ensures Run(last, ticks, oks).0 == if true in oks then Some(current) else last
  {
    RunLength(last, ticks, oks);
    if |ticks| > 0 {
      var n := |ticks| - 1;
      RunWithinMinute(last, current, ticks[..n], oks[..n]);
      var (before, fired) := Run(last, ticks[..n], oks[..n]);
      assert oks == oks[..n] + [oks[n]];
      assert before == if true in oks[..n] then Some(current) else last;
      assert true in oks[..n] <==> exists j :: 0 <= j < n && oks[j];
    }
  }

  /** bot3.py's scheduler: the single variable its loop carries between
      ticks. */
  class ReportScheduler {
    var lastCheck: Option<string>

    constructor()
      ensures lastCheck == None
    {
      lastCheck := None;
    }

    /** One pass of bot3.py's `schedule_reports` loop at clock reading
        `current`: clear the shared cache on ":00" and ":30" minutes, then
        walk the slot table. `ok` says whether the report that fires, if
        any, returns normally. */
    method Tick<V>(current: string, cache: Memo.TtlCache<V>, ok: bool) returns (fired: Option<Report>)
      modifies this, cache
      ensures (fired, lastCheck) == TickSpec(old(lastCheck), current, ok)
      ensures cache.entries == if ClearsCache(current) then map[] else old(cache.entries)
    {
      if EndsWith(current, ":00") || EndsWith(current, ":30") {
        cache.Clear();
      }
      fired := None;
      ghost var entries := cache.entries;
      for i := 0 to |ReportTimes|
        invariant cache.entries == entries
        invariant fired == if old(lastCheck) != Some(current) then SlotIn(ReportTimes[..i], current) else None
        invariant lastCheck == if fired.Some? && ok then Some(current) else old(lastCheck)
      {
        var (time, report) := ReportTimes[i];
        assert ReportTimes[..i + 1] == ReportTimes[..i] + [(time, report)];
        if current == time && lastCheck != Some(current) {
          fired := Some(report);
          if ok {
            lastCheck := Some(current);
          }
        }
      }
      assert ReportTimes[..|ReportTimes|] == ReportTimes;
    }
  }

  /** bot3.py's `while True` loop over the clock readings it observes;
      `oks[i]` says whether the report fired on tick `i`, if any, returns
      normally. */
  method RunBot3Schedule<V>(scheduler: ReportScheduler, cache: Memo.TtlCache<V>, ticks: seq<string>, oks: seq<bool>)
    returns (fired: seq<Option<Report>>)
    requires |oks| == |ticks|
    modifies scheduler, cache
    ensures (scheduler.lastCheck, fired) == Run(old(scheduler.lastCheck), ticks, oks)
  {
    fired := [];
    var i := 0;
    while i < |ticks|
      invariant 0 <= i <= |ticks|
      invariant (scheduler.lastCheck, fired) == Run(old(scheduler.lastCheck), ticks[..i], oks[..i])
    {
      assert ticks[..i + 1][..i] == ticks[..i] && oks[..i + 1][..i] == oks[..i];
      var f := scheduler.Tick(ticks[i], cache, oks[i]);
      fired := fired + [f];
      i := i + 1;
    }
    assert ticks[..i] == ticks && oks[..i] == oks;
  }
}
