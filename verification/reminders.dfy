/** The due-date reminder sweep (`check_due_dates`, bot.py:1788-1832 and
    bot3.py:2192-2242): every incomplete plan due today whose reminder has
    not gone out yet is sent one, and a plan is marked `notified` only once
    its message was delivered, so a failed send is retried on the next sweep
    and a delivered one never repeats.

    The Telegram call is an oracle: `outcome[n]` says whether the `n`-th
    attempted send went through (a missing answer counts as a failure). The
    plan dicts the source reaches through the entries are the stored ones;
    here an entry names its plan by position. */
module Reminders {
  import opened Wrappers
  import opened Assoc
  import opened PlanStore
  import opened PlanQueries
  import Plans

  // ----- marking plans as notified -----

  function NotifyPlans(plans: seq<Plan>, di: nat, oi: nat, marks: set<Loc>): (r: seq<Plan>)
    ensures |r| == |plans|
  {
    seq(|plans|, pi requires 0 <= pi < |plans| =>
      if Loc(di, oi, pi) in marks then plans[pi].(notified := true) else plans[pi])
  }

  function NotifyOwners(owners: Owners, di: nat, marks: set<Loc>): (r: Owners)
    ensures |r| == |owners|
  {
    seq(|owners|, oi requires 0 <= oi < |owners| => (owners[oi].0, NotifyPlans(owners[oi].1, di, oi, marks)))
  }

  /** The store with `notified` set on the plans at `marks`. */
  function Notify(store: Store, marks: set<Loc>): (r: Store)
    ensures |r| == |store|
  {
    seq(|store|, di requires 0 <= di < |store| => (store[di].0, NotifyOwners(store[di].1, di, marks)))
  }

  /** Same keys and list lengths at every level. */
  predicate SameShape(a: Store, b: Store)
  {
    |a| == |b|
    && forall di :: 0 <= di < |a| ==>
      a[di].0 == b[di].0 && |a[di].1| == |b[di].1|
      && forall oi :: 0 <= oi < |a[di].1| ==>
        a[di].1[oi].0 == b[di].1[oi].0 && |a[di].1[oi].1| == |b[di].1[oi].1|
  }

  /** Two stores of the same shape holding the same plan everywhere are
      equal. */
  lemma StoreExt(a: Store, b: Store)
    requires SameShape(a, b)
    requires forall l :: ValidLoc(a, l) ==> At(a, l) == At(b, l)
    ensures a == b
  {
    forall di | 0 <= di < |a| ensures a[di] == b[di] {
      forall oi | 0 <= oi < |a[di].1| ensures a[di].1[oi] == b[di].1[oi] {
        forall pi | 0 <= pi < |a[di].1[oi].1| ensures a[di].1[oi].1[pi] == b[di].1[oi].1[pi] {
          assert At(a, Loc(di, oi, pi)) == At(b, Loc(di, oi, pi));
        }
        assert a[di].1[oi].1 == b[di].1[oi].1;
      }
      assert a[di].1 == b[di].1;
    }
  }

  /** Marking changes `notified` at the marked positions and nothing else. */
  lemma NotifyAt(store: Store, marks: set<Loc>)
    ensures SameShape(store, Notify(store, marks))
    ensures forall l :: ValidLoc(store, l) ==>
      At(Notify(store, marks), l) == if l in marks then At(store, l).(notified := true) else At(store, l)
  {
  }

  /** Marking nothing changes nothing. */
  lemma NotifyNothing(store: Store)
    ensures Notify(store, {}) == store
  {
    NotifyAt(store, {});
    StoreExt(Notify(store, {}), store);
  }

  /** `plan['notified'] = True` for the plan at `l`. */
  function MarkNotified(store: Store, l: Loc): Store
    requires ValidLoc(store, l)
  {
    var plans := store[l.di].1[l.oi].1;
    SetPlans(store, l.di, l.oi, plans[l.pi := plans[l.pi].(notified := true)])
  }

  /** Marking one more position extends the marked set by it. */
  lemma MarkNotifiedStep(store: Store, marks: set<Loc>, l: Loc)
    requires ValidLoc(store, l)
    ensures ValidLoc(Notify(store, marks), l)
    ensures MarkNotified(Notify(store, marks), l) == Notify(store, marks + {l})
  {
    NotifyAt(store, marks);
    NotifyAt(store, marks + {l});
    var a := MarkNotified(Notify(store, marks), l);
    var b := Notify(store, marks + {l});
    assert SameShape(a, b);
    forall l2 | ValidLoc(a, l2) ensures At(a, l2) == At(b, l2) {
      assert ValidLoc(store, l2);
    }
    StoreExt(a, b);
  }

  // ----- the sweep -----

  /** The entries among the first `i` whose plan is not yet notified: the
      sends the sweep attempts. */
  function Unnotified(es: seq<DueEntry>, i: nat): seq<DueEntry>
    requires i <= |es|
  {
    if i == 0 then []
    else Unnotified(es, i - 1) + (if !es[i - 1].plan.notified then [es[i - 1]] else [])
  }

  /** The reminders one sweep tries to send, in order. */
  function Attempts(store: Store, today: string): seq<DueEntry>
  {
    var es := DueToday(store, today);
    Unnotified(es, |es|)
  }

  /** The positions whose send went through. */
  function Delivered(attempts: seq<DueEntry>, outcome: seq<bool>): set<Loc>
  {
    set n | 0 <= n < |attempts| && n < |outcome| && outcome[n] :: attempts[n].at
  }

  /** The store after a sweep. */
  function SweepSpec(store: Store, today: string, outcome: seq<bool>): Store
  {
    Notify(store, Delivered(Attempts(store, today), outcome))
  }

  function LocsOf(es: seq<DueEntry>): set<Loc>
  {
    set e | e in es :: e.at
  }

  lemma {:induction false} UnnotifiedFrom(es: seq<DueEntry>, i: nat)
    requires i <= |es|
    ensures forall e :: e in Unnotified(es, i) ==> e in es[..i] && !e.plan.notified
    decreases i
  {
    if i > 0 {
      UnnotifiedFrom(es, i - 1);
      assert forall e :: e in es[..i - 1] ==> e in es[..i];
    }
  }

  /** `check_due_dates` of bot.py (1788-1832): walk the due list, send to
      each unnotified plan, mark it on success. Returns the attempted
      sends. */
  method CheckDueDates(book: Plans.DailyPlans, today: string, outcome: seq<bool>) returns (attempted: seq<DueEntry>)
    modifies book
    ensures attempted == Attempts(old(book.data), today)
    ensures book.data == SweepSpec(old(book.data), today, outcome)
  {
    ghost var s0 := book.data;
    var entries := book.GetTodayPlansWithDueDate(today);
    NotifyNothing(s0);
    attempted := [];
    assert Delivered(attempted, outcome) == {};
    var i := 0;
    while i < |entries|
      invariant 0 <= i <= |entries|
      invariant entries == DueToday(s0, today)
      invariant attempted == Unnotified(entries, i)
      invariant book.data == Notify(s0, Delivered(attempted, outcome))
      invariant Delivered(attempted, outcome) <= LocsOf(entries[..i])
    {
      attempted := SweepEntry(book, s0, today, entries, attempted, outcome, i);
      i := i + 1;
    }
  }

  /** The loop body of `check_due_dates` for the `i`-th entry: skip a plan
      already notified, otherwise send to it and mark it when delivered. */
  method SweepEntry(book: Plans.DailyPlans, ghost s0: Store, today: string, entries: seq<DueEntry>,
                    attempted: seq<DueEntry>, outcome: seq<bool>, i: nat) returns (next: seq<DueEntry>)
    requires i < |entries| && entries == DueToday(s0, today)
    requires attempted == Unnotified(entries, i)
    requires book.data == Notify(s0, Delivered(attempted, outcome))
    requires Delivered(attempted, outcome) <= LocsOf(entries[..i])
    modifies book
    ensures next == Unnotified(entries, i + 1)
    ensures book.data == Notify(s0, Delivered(next, outcome))
    ensures Delivered(next, outcome) <= LocsOf(entries[..i + 1])
  {
    var e := entries[i];
    SweepAdvance(s0, today, entries, attempted, outcome, i);
    next := attempted;
    if !At(book.data, e.at).notified {
      var n := |attempted|;
      if n < |outcome| && outcome[n] {
        book.data := MarkNotified(book.data, e.at);
      }
      next := attempted + [e];
    }
  }

  /** One step of the sweep keeps its invariant: the next entry's plan reads
      as stored, and attempting it (when unnotified) and marking it (when
      delivered) gives the state the specification names for one entry
      more. */
  lemma SweepAdvance(s0: Store, today: string, entries: seq<DueEntry>, attempted: seq<DueEntry>, outcome: seq<bool>, i: nat)
    requires i < |entries| && entries == DueToday(s0, today)
    requires attempted == Unnotified(entries, i)
    requires Delivered(attempted, outcome) <= LocsOf(entries[..i])
    ensures ValidLoc(Notify(s0, Delivered(attempted, outcome)), entries[i].at)
    ensures At(Notify(s0, Delivered(attempted, outcome)), entries[i].at).notified == entries[i].plan.notified
    ensures Unnotified(entries, i + 1) == if entries[i].plan.notified then attempted else attempted + [entries[i]]
    ensures Delivered(Unnotified(entries, i + 1), outcome) <= LocsOf(entries[..i + 1])
    ensures Notify(s0, Delivered(Unnotified(entries, i + 1), outcome))
      == if !entries[i].plan.notified && |attempted| < |outcome| && outcome[|attempted|]
         then MarkNotified(Notify(s0, Delivered(attempted, outcome)), entries[i].at)
         else Notify(s0, Delivered(attempted, outcome))
  {
    var e := entries[i];
    var before := Delivered(attempted, outcome);
    SweepStep(s0, today, entries, attempted, outcome, i);
    NotifyAt(s0, before);
    if !e.plan.notified {
      DeliveredAppend(attempted, e, outcome);
      if |attempted| < |outcome| && outcome[|attempted|] {
        MarkNotifiedStep(s0, before, e.at);
      }
    }
  }

  /** At the `i`-th entry of the sweep the plan still reads as stored, as
      only earlier entries' plans can have been marked. */
  lemma SweepStep(s0: Store, today: string, entries: seq<DueEntry>, attempted: seq<DueEntry>, outcome: seq<bool>, i: nat)
    requires i < |entries| && entries == DueToday(s0, today)
    requires Delivered(attempted, outcome) <= LocsOf(entries[..i])
    ensures ValidLoc(s0, entries[i].at)
    ensures At(Notify(s0, Delivered(attempted, outcome)), entries[i].at).notified == entries[i].plan.notified
    ensures LocsOf(entries[..i + 1]) == LocsOf(entries[..i]) + {entries[i].at}
  {
    DueTodaySound(s0, today);
    var e := entries[i];
    assert e in entries;
    NotifyAt(s0, Delivered(attempted, outcome));
    assert e.at !in LocsOf(entries[..i]) by {
      forall q | 0 <= q < i ensures entries[q].at != e.at { }
    }
    assert entries[..i + 1] == entries[..i] + [e];
  }

  /** One more attempt adds its plan to the delivered set exactly when its
      send went through. */
  lemma DeliveredAppend(attempted: seq<DueEntry>, e: DueEntry, outcome: seq<bool>)
    ensures |attempted| < |outcome| && outcome[|attempted|] ==>
      Delivered(attempted + [e], outcome) == Delivered(attempted, outcome) + {e.at}
    ensures !(|attempted| < |outcome| && outcome[|attempted|]) ==>
      Delivered(attempted + [e], outcome) == Delivered(attempted, outcome)
  {
    var a := attempted + [e];
    assert forall n :: 0 <= n < |attempted| ==> a[n] == attempted[n];
  }

  /** `check_due_dates` of bot3.py (2192-2242): first the list of sends for
      the unnotified plans, then all of them at once (`asyncio.gather`),
      each marking its plan on success. The sends are taken one after the
      other; their order does not matter, as each marks only its own
      plan. */
  method CheckDueDatesGathered(book: Plans.DailyPlans, today: string, outcome: seq<bool>) returns (tasks: seq<DueEntry>)
    modifies book
    ensures tasks == Attempts(old(book.data), today)
    ensures book.data == SweepSpec(old(book.data), today, outcome)
  {
    var entries := book.GetTodayPlansWithDueDate(today);
    DueTodaySound(book.data, today);
    tasks := Unsent(book.data, today, entries);
    UnnotifiedFrom(entries, |entries|);
    assert entries[..|entries|] == entries;
    Gather(book, tasks, outcome);
  }

  /** The sends to make: the entries whose plan is not yet notified. */
  method Unsent(store: Store, today: string, entries: seq<DueEntry>) returns (tasks: seq<DueEntry>)
    requires forall e :: e in entries ==> EntryOk(store, today, e)
    ensures tasks == Unnotified(entries, |entries|)
  {
    tasks := [];
    var i := 0;
    while i < |entries|
      invariant 0 <= i <= |entries|
      invariant tasks == Unnotified(entries, i)
    {
      assert entries[i] in entries;
      if !At(store, entries[i].at).notified {
        tasks := tasks + [entries[i]];
      }
      i := i + 1;
    }
  }

  /** `asyncio.gather` over the sends: each delivered one marks its plan. */
  method Gather(book: Plans.DailyPlans, tasks: seq<DueEntry>, outcome: seq<bool>)
    requires forall t :: t in tasks ==> ValidLoc(book.data, t.at)
    modifies book
    ensures book.data == Notify(old(book.data), Delivered(tasks, outcome))
  {
    ghost var s0 := book.data;
    NotifyNothing(s0);
    var n := 0;
    assert Delivered(tasks[..0], outcome) == {};
    while n < |tasks|
      invariant 0 <= n <= |tasks|
      invariant book.data == Notify(s0, Delivered(tasks[..n], outcome))
    {
      var t := tasks[n];
      assert t in tasks;
      assert tasks[..n + 1] == tasks[..n] + [t];
      ghost var before := Delivered(tasks[..n], outcome);
      if n < |outcome| && outcome[n] {
        MarkNotifiedStep(s0, before, t.at);
        book.data := MarkNotified(book.data, t.at);
        assert Delivered(tasks[..n + 1], outcome) == before + {t.at};
      } else {
        assert Delivered(tasks[..n + 1], outcome) == before;
      }
      n := n + 1;
    }
    assert tasks[..n] == tasks;
  }

  // ----- what the sweep promises -----

  /** The positions one sweep attempts are exactly the incomplete plans due
      today that are not yet notified. */
  predicate Attemptable(store: Store, today: string, l: Loc)
  {
    ValidLoc(store, l) && DueOn(At(store, l), today) && !At(store, l).notified
  }

  lemma {:induction false} UnnotifiedHas(es: seq<DueEntry>, i: nat, q: nat)
    requires q < i <= |es| && !es[q].plan.notified
    ensures es[q] in Unnotified(es, i)
    decreases i
  {
    if q < i - 1 {
      UnnotifiedHas(es, i - 1, q);
    }
  }

  lemma AttemptsExactly(store: Store, today: string, l: Loc)
    ensures l in LocsOf(Attempts(store, today)) <==> Attemptable(store, today, l)
  {
    var es := DueToday(store, today);
    DueTodaySound(store, today);
    UnnotifiedFrom(es, |es|);
    assert es[..|es|] == es;
    if Attemptable(store, today, l) {
      DueTodayComplete(store, today, l);
      var e := EntryAt(store, l);
      var q :| 0 <= q < |es| && es[q] == e;
      UnnotifiedHas(es, |es|, q);
    }
  }

  /** After a sweep a plan is notified exactly when it was before, or it
      was attempted and delivered; nothing else about any plan changes. */
  lemma SweepEffect(store: Store, today: string, outcome: seq<bool>, l: Loc)
    requires ValidLoc(store, l)
    ensures var s := SweepSpec(store, today, outcome);
      SameShape(store, s)
      && ValidLoc(s, l)
      && At(s, l) == At(store, l).(notified := At(s, l).notified)
      && (At(s, l).notified <==> At(store, l).notified || l in Delivered(Attempts(store, today), outcome))
  {
    NotifyAt(store, Delivered(Attempts(store, today), outcome));
  }

  /** Every delivered position was attempted. */
  lemma DeliveredAttempted(attempts: seq<DueEntry>, outcome: seq<bool>)
    ensures Delivered(attempts, outcome) <= LocsOf(attempts)
  {
  }

  /** A reminder goes out once: the next sweep attempts exactly the plans
      the first sweep attempted without delivering. */
  lemma NotifyOnce(store: Store, today: string, outcome: seq<bool>, l: Loc)
    requires ValidLoc(store, l)
    ensures var s := SweepSpec(store, today, outcome);
      var first := Attempts(store, today);
      l in LocsOf(Attempts(s, today)) <==> l in LocsOf(first) && l !in Delivered(first, outcome)
  {
    var s := SweepSpec(store, today, outcome);
    var first := Attempts(store, today);
    SweepEffect(store, today, outcome, l);
    AttemptsExactly(store, today, l);
    AttemptsExactly(s, today, l);
    DeliveredAttempted(first, outcome);
  }

  /** The sweep keeps the store well formed. */
  lemma SweepPreservesWellFormed(store: Store, today: string, outcome: seq<bool>)
    requires WellFormed(store)
    ensures WellFormed(SweepSpec(store, today, outcome))
  {
    var s := SweepSpec(store, today, outcome);
    NotifyAt(store, Delivered(Attempts(store, today), outcome));
    assert forall i :: 0 <= i < |s| ==> s[i].0 == store[i].0;
    forall di | 0 <= di < |s|
      ensures |s[di].1| > 0 && NoDupKeys(s[di].1)
      ensures forall oi :: 0 <= oi < |s[di].1| ==> DenseIds(s[di].1[oi].1)
    {
      assert forall j :: 0 <= j < |s[di].1| ==> s[di].1[j].0 == store[di].1[j].0;
      forall oi | 0 <= oi < |s[di].1| ensures DenseIds(s[di].1[oi].1) {
        assert forall pi :: 0 <= pi < |s[di].1[oi].1| ==> At(s, Loc(di, oi, pi)).id == At(store, Loc(di, oi, pi)).id;
      }
    }
  }

}
