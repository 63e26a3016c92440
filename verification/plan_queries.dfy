/** The read-only queries of `DailyPlans` that walk the whole store: the
    plans due today (the reminder sweep's input), the upcoming plans with a
    due date, and today's bucket. Each is a function of the store; the class
    in `daily_plans.dfy` computes them with loops. */
module PlanQueries {
  import opened Wrappers
  import opened Assoc
  import opened PlanStore
  import Sorting
  import Dates
  import Decimal

  /** Where a plan sits: date position, owner position, plan position. The
      source hands out references to the stored dicts; a position names the
      same record. */
  datatype Loc = Loc(di: nat, oi: nat, pi: nat)

  predicate ValidLoc(store: Store, l: Loc)
  {
    l.di < |store| && l.oi < |store[l.di].1| && l.pi < |store[l.di].1[l.oi].1|
  }

  function At(store: Store, l: Loc): Plan
    requires ValidLoc(store, l)
  {
    store[l.di].1[l.oi].1[l.pi]
  }

  // ----- get_today_plans_with_due_date -----

  /** One entry of `get_today_plans_with_due_date`: the owner, the date key,
      the plan, and where it sits. */
  datatype DueEntry = DueEntry(userId: int, date: string, plan: Plan, at: Loc)

  /** `plan.get('due_date') == today and not plan.get('completed')`. */
  predicate DueOn(p: Plan, today: string)
  {
    p.due == Some(today) && !p.completed
  }

  /** The entry the source builds for the plan at `l`. */
  function EntryAt(store: Store, l: Loc): DueEntry
    requires ValidLoc(store, l)
  {
    DueEntry(store[l.di].1[l.oi].0, store[l.di].0, At(store, l), l)
  }

  /** The due entries among the first `k` plans of owner `oi` on date `di`. */
  function DueInPlans(store: Store, today: string, di: nat, oi: nat, k: nat): seq<DueEntry>
    requires di < |store| && oi < |store[di].1| && k <= |store[di].1[oi].1|
  {
    if k == 0 then []
    else
      var l := Loc(di, oi, k - 1);
      DueInPlans(store, today, di, oi, k - 1) + (if DueOn(At(store, l), today) then [EntryAt(store, l)] else [])
  }

  /** The due entries among the first `j` owners of date `di`. */
  function DueInOwners(store: Store, today: string, di: nat, j: nat): seq<DueEntry>
    requires di < |store| && j <= |store[di].1|
  {
    if j == 0 then []
    else DueInOwners(store, today, di, j - 1) + DueInPlans(store, today, di, j - 1, |store[di].1[j - 1].1|)
  }

  /** The due entries among the first `i` dates. */
  function DueInDates(store: Store, today: string, i: nat): seq<DueEntry>
    requires i <= |store|
  {
    if i == 0 then []
    else DueInDates(store, today, i - 1) + DueInOwners(store, today, i - 1, |store[i - 1].1|)
  }

  /** `get_today_plans_with_due_date()` (bot.py:182-197, bot3.py:342-357):
      every date, owner and plan in order, keeping incomplete plans due
      `today`, whatever the viewer. */
  function DueToday(store: Store, today: string): seq<DueEntry>
  {
    DueInDates(store, today, |store|)
  }

  /** An entry describes the plan at its position, which is due today. */
  predicate EntryOk(store: Store, today: string, e: DueEntry)
  {
    ValidLoc(store, e.at) && e == EntryAt(store, e.at) && DueOn(e.plan, today)
  }

  /** No two entries name the same plan. */
  predicate LocsDistinct(es: seq<DueEntry>)
  {
    forall a, b :: 0 <= a < b < |es| ==> es[a].at != es[b].at
  }

  lemma DistinctAppend(x: seq<DueEntry>, y: seq<DueEntry>)
    requires LocsDistinct(x) && LocsDistinct(y)
    requires forall a, b :: 0 <= a < |x| && 0 <= b < |y| ==> x[a].at != y[b].at
    ensures LocsDistinct(x + y)
  {
  }

  lemma {:induction false} DueInPlansFacts(store: Store, today: string, di: nat, oi: nat, k: nat)
    requires di < |store| && oi < |store[di].1| && k <= |store[di].1[oi].1|
    ensures forall e :: e in DueInPlans(store, today, di, oi, k) ==>
      EntryOk(store, today, e) && e.at.di == di && e.at.oi == oi && e.at.pi < k
    ensures LocsDistinct(DueInPlans(store, today, di, oi, k))
    decreases k
  {
    if k > 0 {
      DueInPlansFacts(store, today, di, oi, k - 1);
    }
  }

  lemma {:induction false} DueInOwnersFacts(store: Store, today: string, di: nat, j: nat)
    requires di < |store| && j <= |store[di].1|
    ensures forall e :: e in DueInOwners(store, today, di, j) ==>
      EntryOk(store, today, e) && e.at.di == di && e.at.oi < j
    ensures LocsDistinct(DueInOwners(store, today, di, j))
    decreases j
  {
    if j > 0 {
      DueInOwnersFacts(store, today, di, j - 1);
      DueInPlansFacts(store, today, di, j - 1, |store[di].1[j - 1].1|);
      var x := DueInOwners(store, today, di, j - 1);
      var y := DueInPlans(store, today, di, j - 1, |store[di].1[j - 1].1|);
      assert forall a :: 0 <= a < |x| ==> x[a] in x;
      assert forall b :: 0 <= b < |y| ==> y[b] in y;
      DistinctAppend(x, y);
    }
  }

  lemma {:induction false} DueInDatesFacts(store: Store, today: string, i: nat)
    requires i <= |store|
    ensures forall e :: e in DueInDates(store, today, i) ==> EntryOk(store, today, e) && e.at.di < i
    ensures LocsDistinct(DueInDates(store, today, i))
    decreases i
  {
    if i > 0 {
      DueInDatesFacts(store, today, i - 1);
      DueInOwnersFacts(store, today, i - 1, |store[i - 1].1|);
      var x := DueInDates(store, today, i - 1);
      var y := DueInOwners(store, today, i - 1, |store[i - 1].1|);
      assert forall a :: 0 <= a < |x| ==> x[a] in x;
      assert forall b :: 0 <= b < |y| ==> y[b] in y;
      DistinctAppend(x, y);
    }
  }

  /** Every entry is an incomplete plan due today, reported with its owner
      and date key, and no plan is reported twice. */
  lemma DueTodaySound(store: Store, today: string)
    ensures forall e :: e in DueToday(store, today) ==> EntryOk(store, today, e)
    ensures LocsDistinct(DueToday(store, today))
  {
    DueInDatesFacts(store, today, |store|);
  }

  lemma {:induction false} DueInPlansHas(store: Store, today: string, l: Loc, k: nat)
    requires ValidLoc(store, l) && DueOn(At(store, l), today)
    requires l.pi < k <= |store[l.di].1[l.oi].1|
    ensures EntryAt(store, l) in DueInPlans(store, today, l.di, l.oi, k)
    decreases k
  {
    if l.pi < k - 1 {
      DueInPlansHas(store, today, l, k - 1);
    }
  }

  lemma {:induction false} DueInOwnersHas(store: Store, today: string, l: Loc, j: nat)
    requires ValidLoc(store, l) && DueOn(At(store, l), today)
    requires l.oi < j <= |store[l.di].1|
    ensures EntryAt(store, l) in DueInOwners(store, today, l.di, j)
    decreases j
  {
    if l.oi < j - 1 {
      DueInOwnersHas(store, today, l, j - 1);
    } else {
      DueInPlansHas(store, today, l, |store[l.di].1[l.oi].1|);
    }
  }

  lemma {:induction false} DueInDatesHas(store: Store, today: string, l: Loc, i: nat)
    requires ValidLoc(store, l) && DueOn(At(store, l), today)
    requires l.di < i <= |store|
    ensures EntryAt(store, l) in DueInDates(store, today, i)
    decreases i
  {
    if l.di < i - 1 {
      DueInDatesHas(store, today, l, i - 1);
    } else {
      DueInOwnersHas(store, today, l, |store[l.di].1|);
    }
  }

  /** Every incomplete plan due today, under any date and owner, is
      reported. */
  lemma DueTodayComplete(store: Store, today: string, l: Loc)
    requires ValidLoc(store, l) && DueOn(At(store, l), today)
    ensures EntryAt(store, l) in DueToday(store, today)
  {
    DueInDatesHas(store, today, l, |store|);
  }

  // ----- get_upcoming_plans (bot.py) -----

  /** One entry of `get_upcoming_plans`: the date key, the plan, its owner. */
  datatype UpEntry = UpEntry(date: string, plan: Plan, owner: int)

  /** `plan.get('due_date') and not plan.get('completed')`: a due date that
      is present and not empty. */
  predicate Pending(p: Plan)
  {
    p.due.Some? && p.due.value != "" && !p.completed
  }

  /** The pending plans among the first `k` of `plans`, as entries. */
  function UpInPlans(date: string, owner: int, plans: seq<Plan>, k: nat): seq<UpEntry>
    requires k <= |plans|
  {
    if k == 0 then []
    else UpInPlans(date, owner, plans, k - 1) + (if Pending(plans[k - 1]) then [UpEntry(date, plans[k - 1], owner)] else [])
  }

  /** The pending plans of the first `j` owners of one date. */
  function UpInOwners(date: string, owners: Owners, j: nat): seq<UpEntry>
    requires j <= |owners|
  {
    if j == 0 then []
    else UpInOwners(date, owners, j - 1) + UpInPlans(date, owners[j - 1].0, owners[j - 1].1, |owners[j - 1].1|)
  }

  /** What one date contributes: every owner's pending plans for an admin,
      the user's own otherwise. */
  function UpForDate(date: string, owners: Owners, user: int, admin: bool): seq<UpEntry>
  {
    if admin then UpInOwners(date, owners, |owners|)
    else
      var plans := Get(owners, user, []);
      UpInPlans(date, user, plans, |plans|)
  }

  /** The entries of the first `i` dates, before sorting. */
  function UpCollected(store: Store, user: int, admin: bool, i: nat): seq<UpEntry>
    requires i <= |store|
  {
    if i == 0 then []
    else UpCollected(store, user, admin, i - 1) + UpForDate(store[i - 1].0, store[i - 1].1, user, admin)
  }

  /** The sort key: the due date string, or "9999-99-99" when it is empty. */
  function DueKey(e: UpEntry): seq<int>
  {
    Sorting.Codes(if e.plan.due.Some? && e.plan.due.value != "" then e.plan.due.value else "9999-99-99")
  }

  /** `get_upcoming_plans(user_id, viewer_id)` (bot.py:151-180): the
      collected entries, stably sorted by due date string. */
  function UpcomingSpec(store: Store, user: int, viewer: Option<int>, admins: set<int>): seq<UpEntry>
  {
    Sorting.SortBy(UpCollected(store, user, IsAdmin(viewer, admins), |store|), DueKey)
  }

  /** The list is ordered by due date string, holds exactly the collected
      entries, and keeps entries with the same due date in store order. */
  lemma UpcomingOrdered(store: Store, user: int, viewer: Option<int>, admins: set<int>)
    ensures var r := UpcomingSpec(store, user, viewer, admins);
      var c := UpCollected(store, user, IsAdmin(viewer, admins), |store|);
      Sorting.Sorted(r, DueKey) && multiset(r) == multiset(c)
      && forall k :: Sorting.WithKey(r, DueKey, k) == Sorting.WithKey(c, DueKey, k)
  {
    Sorting.SortByCorrect(UpCollected(store, user, IsAdmin(viewer, admins), |store|), DueKey);
  }

  /** Where a collected entry comes from: the plan is one of its owner's
      plans under its date, and it is pending. */
  predicate UpFrom(store: Store, e: UpEntry)
  {
    Pending(e.plan) && HasKey(store, e.date) && HasKey(Get(store, e.date, []), e.owner)
    && e.plan in UserPlans(store, e.date, e.owner)
  }

  lemma {:induction false} UpInPlansFacts(date: string, owner: int, plans: seq<Plan>, k: nat, e: UpEntry)
    requires k <= |plans| && e in UpInPlans(date, owner, plans, k)
    ensures Pending(e.plan) && e.date == date && e.owner == owner && e.plan in plans
    decreases k
  {
    if e in UpInPlans(date, owner, plans, k - 1) {
      UpInPlansFacts(date, owner, plans, k - 1, e);
    }
  }

  lemma {:induction false} UpInOwnersFacts(date: string, owners: Owners, j: nat, e: UpEntry)
    requires NoDupKeys(owners) && j <= |owners| && e in UpInOwners(date, owners, j)
    ensures Pending(e.plan) && e.date == date && HasKey(owners, e.owner) && e.plan in Get(owners, e.owner, [])
    decreases j
  {
    if e in UpInOwners(date, owners, j - 1) {
      UpInOwnersFacts(date, owners, j - 1, e);
    } else {
      UpInPlansFacts(date, owners[j - 1].0, owners[j - 1].1, |owners[j - 1].1|, e);
      IndexOfUnique(owners, j - 1);
    }
  }

  lemma {:induction false} UpCollectedFacts(store: Store, user: int, admin: bool, i: nat, e: UpEntry)
    requires WellFormed(store) && i <= |store| && e in UpCollected(store, user, admin, i)
    ensures UpFrom(store, e) && (!admin ==> e.owner == user)
    decreases i
  {
    if e in UpCollected(store, user, admin, i - 1) {
      UpCollectedFacts(store, user, admin, i - 1, e);
    } else {
      var date, owners := store[i - 1].0, store[i - 1].1;
      assert e in UpForDate(date, owners, user, admin);
      IndexOfUnique(store, i - 1);
      assert Get(store, date, []) == owners;
      if admin {
        UpInOwnersFacts(date, owners, |owners|, e);
      } else {
        var plans := Get(owners, user, []);
        UpInPlansFacts(date, user, plans, |plans|, e);
      }
    }
  }

  /** Every listed entry is a pending plan of its owner under its date; an
      ordinary user sees only their own. */
  lemma UpcomingSound(store: Store, user: int, viewer: Option<int>, admins: set<int>, e: UpEntry)
    requires WellFormed(store) && e in UpcomingSpec(store, user, viewer, admins)
    ensures UpFrom(store, e) && (!IsAdmin(viewer, admins) ==> e.owner == user)
  {
    UpcomingOrdered(store, user, viewer, admins);
    assert e in multiset(UpcomingSpec(store, user, viewer, admins));
    UpCollectedFacts(store, user, IsAdmin(viewer, admins), |store|, e);
  }

  lemma {:induction false} UpInPlansHas(date: string, owner: int, plans: seq<Plan>, k: nat, p: nat)
    requires p < k <= |plans| && Pending(plans[p])
    ensures UpEntry(date, plans[p], owner) in UpInPlans(date, owner, plans, k)
    decreases k
  {
    if p < k - 1 {
      UpInPlansHas(date, owner, plans, k - 1, p);
    }
  }

  lemma {:induction false} UpInOwnersHas(date: string, owners: Owners, j: nat, oi: nat, p: nat)
    requires oi < j <= |owners| && p < |owners[oi].1| && Pending(owners[oi].1[p])
    ensures UpEntry(date, owners[oi].1[p], owners[oi].0) in UpInOwners(date, owners, j)
    decreases j
  {
    if oi < j - 1 {
      UpInOwnersHas(date, owners, j - 1, oi, p);
    } else {
      UpInPlansHas(date, owners[oi].0, owners[oi].1, |owners[oi].1|, p);
    }
  }

  lemma {:induction false} UpCollectedHas(store: Store, user: int, admin: bool, i: nat, di: nat, e: UpEntry)
    requires di < i <= |store| && e in UpForDate(store[di].0, store[di].1, user, admin)
    ensures e in UpCollected(store, user, admin, i)
    decreases i
  {
    if di < i - 1 {
      UpCollectedHas(store, user, admin, i - 1, di, e);
    }
  }

  /** Every pending plan the viewer may see is listed: for an admin any
      owner's, for anyone else their own. */
  lemma UpcomingComplete(store: Store, user: int, viewer: Option<int>, admins: set<int>, date: string, owner: int, p: nat)
    requires WellFormed(store) && HasKey(store, date) && HasKey(Get(store, date, []), owner)
    requires p < |UserPlans(store, date, owner)| && Pending(UserPlans(store, date, owner)[p])
    requires IsAdmin(viewer, admins) || owner == user
    ensures UpEntry(date, UserPlans(store, date, owner)[p], owner) in UpcomingSpec(store, user, viewer, admins)
  {
    var admin := IsAdmin(viewer, admins);
    var di := IndexOf(store, date).value;
    var owners := store[di].1;
    var oi := IndexOf(owners, owner).value;
    var e := UpEntry(date, owners[oi].1[p], owner);
    if admin {
      UpInOwnersHas(date, owners, |owners|, oi, p);
    } else {
      UpInPlansHas(date, owner, owners[oi].1, |owners[oi].1|, p);
    }
    UpCollectedHas(store, user, admin, |store|, di, e);
    UpcomingOrdered(store, user, viewer, admins);
    assert e in multiset(UpCollected(store, user, admin, |store|));
  }

  // ----- get_upcoming_plans (bot3.py) -----

  /** One entry of bot3.py's `get_upcoming_plans`, with the parsed date. */
  datatype UpEntry3 = UpEntry3(date: string, plan: Plan, owner: int, dueDate: Dates.Date)

  /** `%d.%m.%Y`, the one format bot3.py reads due dates with. */
  const DottedFormat: Dates.Format := Dates.Format(Dates.DayFirst, '.', Dates.FourDigits)

  /** The entries among the first `k` plans: pending plans whose due date
      `strptime` accepts; the rest are dropped by the bare `except`. */
  function Up3InPlans(date: string, owner: int, plans: seq<Plan>, k: nat): (r: seq<UpEntry3>)
    requires k <= |plans|
  {
    if k == 0 then []
    else
      var p := plans[k - 1];
      var rest := Up3InPlans(date, owner, plans, k - 1);
      if Pending(p) then
        match Dates.ParseWith(DottedFormat, p.due.value)
        case Some(d) => rest + [UpEntry3(date, p, owner, d)]
        case None => rest
      else rest
  }

  function Up3Collected(store: Store, user: int, i: nat): seq<UpEntry3>
    requires i <= |store|
  {
    if i == 0 then []
    else
      var plans := Get(store[i - 1].1, user, []);
      Up3Collected(store, user, i - 1) + Up3InPlans(store[i - 1].0, user, plans, |plans|)
  }

  /** Calendar order: (year, month, day). */
  function DateKey(e: UpEntry3): seq<int>
  {
    [e.dueDate.year, e.dueDate.month, e.dueDate.day]
  }

  /** `get_upcoming_plans(user_id)` (bot3.py:316-340): the user's own
      pending plans with a readable `dd.mm.yyyy` due date, stably sorted by
      that date. */
  function Upcoming3Spec(store: Store, user: int): seq<UpEntry3>
  {
    Sorting.SortBy(Up3Collected(store, user, |store|), DateKey)
  }

  lemma {:induction false} Up3InPlansFacts(date: string, owner: int, plans: seq<Plan>, k: nat, e: UpEntry3)
    requires k <= |plans| && e in Up3InPlans(date, owner, plans, k)
    ensures Pending(e.plan) && Dates.ParseWith(DottedFormat, e.plan.due.value) == Some(e.dueDate)
    ensures e.date == date && e.owner == owner && e.plan in plans
    decreases k
  {
    if e in Up3InPlans(date, owner, plans, k - 1) {
      Up3InPlansFacts(date, owner, plans, k - 1, e);
    }
  }

  lemma {:induction false} Up3CollectedFacts(store: Store, user: int, i: nat, e: UpEntry3)
    requires WellFormed(store) && i <= |store| && e in Up3Collected(store, user, i)
    ensures Pending(e.plan) && Dates.ParseWith(DottedFormat, e.plan.due.value) == Some(e.dueDate)
    ensures e.owner == user && HasKey(store, e.date) && e.plan in UserPlans(store, e.date, user)
    decreases i
  {
    if e in Up3Collected(store, user, i - 1) {
      Up3CollectedFacts(store, user, i - 1, e);
    } else {
      var plans := Get(store[i - 1].1, user, []);
      IndexOfUnique(store, i - 1);
      Up3InPlansFacts(store[i - 1].0, user, plans, |plans|, e);
    }
  }

  /** bot3.py lists only the user's own pending plans, each with the date
      its due text reads as, in calendar order (stable among equal dates). */
  lemma Upcoming3Sound(store: Store, user: int)
    requires WellFormed(store)
    ensures var r := Upcoming3Spec(store, user);
      Sorting.Sorted(r, DateKey)
      && multiset(r) == multiset(Up3Collected(store, user, |store|))
      && forall e :: e in r ==>
        Pending(e.plan) && Dates.ParseWith(DottedFormat, e.plan.due.value) == Some(e.dueDate)
        && e.owner == user && HasKey(store, e.date) && e.plan in UserPlans(store, e.date, user)
  {
    var c := Up3Collected(store, user, |store|);
    Sorting.SortByCorrect(c, DateKey);
    forall e | e in Upcoming3Spec(store, user)
      ensures Pending(e.plan) && Dates.ParseWith(DottedFormat, e.plan.due.value) == Some(e.dueDate)
      ensures e.owner == user && HasKey(store, e.date) && e.plan in UserPlans(store, e.date, user)
    {
      assert e in multiset(Upcoming3Spec(store, user));
      Up3CollectedFacts(store, user, |store|, e);
    }
  }

  lemma {:induction false} Up3InPlansHas(date: string, owner: int, plans: seq<Plan>, k: nat, p: nat, d: Dates.Date)
    requires p < k <= |plans| && Pending(plans[p]) && Dates.ParseWith(DottedFormat, plans[p].due.value) == Some(d)
    ensures UpEntry3(date, plans[p], owner, d) in Up3InPlans(date, owner, plans, k)
    decreases k
  {
    if p < k - 1 {
      Up3InPlansHas(date, owner, plans, k - 1, p, d);
    }
  }

  lemma {:induction false} Up3CollectedHas(store: Store, user: int, i: nat, di: nat, e: UpEntry3)
    requires di < i <= |store|
    requires e in Up3InPlans(store[di].0, user, Get(store[di].1, user, []), |Get(store[di].1, user, [])|)
    ensures e in Up3Collected(store, user, i)
    decreases i
  {
    var plans := Get(store[i - 1].1, user, []);
    var before, here := Up3Collected(store, user, i - 1), Up3InPlans(store[i - 1].0, user, plans, |plans|);
    assert Up3Collected(store, user, i) == before + here;
    if di < i - 1 {
      Up3CollectedHas(store, user, i - 1, di, e);
      assert e in before;
    } else {
      assert e in here;
    }
  }

  /** bot3.py lists every pending plan of the user whose due text reads as
      `dd.mm.yyyy`, under whichever date it was filed. */
  lemma Upcoming3Complete(store: Store, user: int, date: string, p: nat, d: Dates.Date)
    requires WellFormed(store) && HasKey(store, date)
    requires p < |UserPlans(store, date, user)| && Pending(UserPlans(store, date, user)[p])
    requires Dates.ParseWith(DottedFormat, UserPlans(store, date, user)[p].due.value) == Some(d)
    ensures UpEntry3(date, UserPlans(store, date, user)[p], user, d) in Upcoming3Spec(store, user)
  {
    var di := IndexOf(store, date).value;
    var plans := Get(store[di].1, user, []);
    assert plans == UserPlans(store, date, user);
    var e := UpEntry3(date, plans[p], user, d);
    Up3InPlansHas(date, user, plans, |plans|, p, d);
    Up3CollectedHas(store, user, |store|, di, e);
    Upcoming3Sound(store, user);
    assert e in multiset(Up3Collected(store, user, |store|));
  }

  /** A plan whose due date is written `yyyy-mm-dd` (bot.py's form) never
      reaches bot3.py's upcoming list. */
  lemma Upcoming3DropsIso(d: Dates.Date)
    requires Dates.ValidDate(d)
    ensures Dates.ParseWith(DottedFormat, Dates.RenderIso(d)).None?
  {
    Dates.RenderAvoids(d, Dates.YearFirst, '-', '.');
    Dates.NoSeparatorNoMatch(DottedFormat, Dates.RenderIso(d));
  }

  // ----- get_all_plans_today -----

  /** `get_all_plans_today(viewer_id)` (bot.py:199-211): the owners of the
      `today` bucket; the admin branch copies the same mapping. */
  function AllPlansTodaySpec(store: Store, today: string, viewer: Option<int>, admins: set<int>): Owners
  {
    if IsAdmin(viewer, admins) then
      var bucket := Get(store, today, []);
      seq(|bucket|, i requires 0 <= i < |bucket| => bucket[i])
    else Get(store, today, [])
  }

  /** The viewer makes no difference: everyone receives today's whole
      bucket, every owner's plans included. */
  lemma AllPlansTodayIgnoresViewer(store: Store, today: string, viewer: Option<int>, admins: set<int>)
    ensures AllPlansTodaySpec(store, today, viewer, admins) == AllPlansTodaySpec(store, today, None, admins)
    ensures AllPlansTodaySpec(store, today, viewer, admins) == Get(store, today, [])
  {
  }

  /** The key bot3.py looks today up under (bot3.py:361): `%d-%m-%d`, the
      day, the month and the day again, dash-separated. */
  function Bot3TodayKeyAsWritten(today: Dates.Date): (k: string)
    requires Dates.ValidDate(today)
    ensures '.' !in k
  {
    var day := Decimal.Pad(today.day, 2);
    var month := Decimal.Pad(today.month, 2);
    Dates.DigitsAvoidSeparator(day, '.');
    Dates.DigitsAvoidSeparator(month, '.');
    day + "-" + month + "-" + day
  }

  /** The key bot3.py stores today's plans under (`%d.%m.%Y`). */
  function Bot3TodayKey(today: Dates.Date): (k: string)
    requires Dates.ValidDate(today)
    ensures '.' in k
  {
    Dates.RenderShape(today, Dates.DayFirst, '.');
    Dates.RenderDotted(today)
  }

  /** bot3.py's `get_all_plans_today` as written: the lookup under the
      mistyped key. */
  function Bot3AllPlansTodayAsWritten(store: Store, today: Dates.Date, viewer: Option<int>, admins: set<int>): Owners
    requires Dates.ValidDate(today)
  {
    AllPlansTodaySpec(store, Bot3TodayKeyAsWritten(today), viewer, admins)
  }

  /** bot3.py's `get_all_plans_today` as intended: today's bucket. */
  function Bot3AllPlansToday(store: Store, today: Dates.Date, viewer: Option<int>, admins: set<int>): Owners
    requires Dates.ValidDate(today)
  {
    AllPlansTodaySpec(store, Bot3TodayKey(today), viewer, admins)
  }

  /** The mistyped key never names a bucket of bot3.py: right after a plan
      is added for today, the as-written lookup still answers nothing while
      the intended one returns the new plan's owner. */
  lemma Bot3AllPlansTodayMissesToday(store: Store, today: Dates.Date, owner: int, text: string, createdAt: string,
                                     viewer: Option<int>, admins: set<int>)
    requires Dates.ValidDate(today) && WellFormed(store)
    requires forall i :: 0 <= i < |store| ==> '.' in store[i].0
    ensures var s := AddSpec(store, owner, text, None, Bot3TodayKey(today), createdAt).0;
      Bot3AllPlansTodayAsWritten(s, today, viewer, admins) == []
      && HasKey(Bot3AllPlansToday(s, today, viewer, admins), owner)
  {
    var key := Bot3TodayKey(today);
    var bad := Bot3TodayKeyAsWritten(today);
    var s := AddSpec(store, owner, text, None, key, createdAt).0;
    var owners := Get(store, key, []);
    var plans := Get(owners, owner, []);
    var np := NewPlan(|plans| + 1, text, None, createdAt, owner);
    OwnersNoDup(store, key);
    GetPut(store, key, Put(owners, owner, plans + [np]), key, []);
    PutHasKey(owners, owner, plans + [np]);
    AllPlansTodayIgnoresViewer(s, key, viewer, admins);
    assert Get(s, key, []) == Put(owners, owner, plans + [np]);
    assert forall i :: 0 <= i < |s| ==> s[i].0 != bad;
  }
}
