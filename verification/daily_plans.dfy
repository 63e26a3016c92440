/** The `DailyPlans` object of both bots (bot.py:55-313, bot3.py:227-463):
    one mutable field, `data`, updated in place by the operations. Every
    method is proved to compute the function of `plan_store.dfy` or
    `plan_queries.dfy` that states what the operation means, and every
    updating method keeps the store well formed. Saving to the JSON file
    (synchronously in bot.py, on a background thread in bot3.py) is not
    part of the model. */
module Plans {
  import opened Wrappers
  import opened Assoc
  import opened PlanStore
  import opened PlanQueries
  import Sorting
  import Dates

  /** Renumbers the plans 1..n by position:
      `for j, p in enumerate(user_plans, 1): p['id'] = j`. */
  method RenumberPlans(plans: seq<Plan>) returns (r: seq<Plan>)
    ensures r == Renumber(plans)
  {
    r := plans;
    var j := 0;
    while j < |r|
      invariant 0 <= j <= |r| == |plans|
      invariant forall q :: 0 <= q < j ==> r[q] == plans[q].(id := q + 1)
      invariant forall q :: j <= q < |r| ==> r[q] == plans[q]
    {
      r := r[j := r[j].(id := j + 1)];
      j := j + 1;
    }
  }

  /** `len([p for p in plans if p['completed']])`. */
  method CountDone(plans: seq<Plan>) returns (n: nat)
    ensures n == CountCompleted(plans)
  {
    n := 0;
    var k := 0;
    while k < |plans|
      invariant 0 <= k <= |plans|
      invariant n == CountCompleted(plans[..k])
    {
      assert plans[..k + 1][..k] == plans[..k];
      if plans[k].completed {
        n := n + 1;
      }
      k := k + 1;
    }
    assert plans[..k] == plans;
  }

  /** One date's contribution to `get_today_plans_with_due_date`, owner by
      owner and plan by plan. */
  method DueOfDate(store: Store, today: string, i: nat) returns (r: seq<DueEntry>)
    requires i < |store|
    ensures r == DueInOwners(store, today, i, |store[i].1|)
  {
    var owners := store[i].1;
    r := [];
    var j := 0;
    while j < |owners|
      invariant 0 <= j <= |owners|
      invariant r == DueInOwners(store, today, i, j)
    {
      var plans := owners[j].1;
      ghost var before := r;
      var k := 0;
      while k < |plans|
        invariant 0 <= k <= |plans|
        invariant r == before + DueInPlans(store, today, i, j, k)
      {
        if DueOn(plans[k], today) {
          r := r + [DueEntry(owners[j].0, store[i].0, plans[k], Loc(i, j, k))];
        }
        k := k + 1;
      }
      j := j + 1;
    }
  }

  /** One owner's pending plans of one date, as `get_upcoming_plans`
      collects them. */
  method PendingOf(date: string, owner: int, plans: seq<Plan>) returns (r: seq<UpEntry>)
    ensures r == UpInPlans(date, owner, plans, |plans|)
  {
    r := [];
    var k := 0;
    while k < |plans|
      invariant 0 <= k <= |plans|
      invariant r == UpInPlans(date, owner, plans, k)
    {
      if Pending(plans[k]) {
        r := r + [UpEntry(date, plans[k], owner)];
      }
      k := k + 1;
    }
  }

  /** One owner's plans of one date with a readable `dd.mm.yyyy` due date,
      as bot3.py's `get_upcoming_plans` collects them. */
  method DatedPendingOf(date: string, owner: int, plans: seq<Plan>) returns (r: seq<UpEntry3>)
    ensures r == Up3InPlans(date, owner, plans, |plans|)
  {
    r := [];
    var k := 0;
    while k < |plans|
      invariant 0 <= k <= |plans|
      invariant r == Up3InPlans(date, owner, plans, k)
    {
      var p := plans[k];
      if Pending(p) {
        var parsed := Dates.ParseWith(DottedFormat, p.due.value);
        if parsed.Some? {
          r := r + [UpEntry3(date, p, owner, parsed.value)];
        }
      }
      k := k + 1;
    }
  }

  class DailyPlans {
    /** `self.data`: date key -> owner -> plans. */
    var data: Store

    /** `__init__` with `_load_data`: the file's content when it exists and
        parses, an empty store otherwise. */
    constructor(loaded: Option<Store>)
      ensures data == GetOr(loaded, [])
    {
      data := GetOr(loaded, []);
    }

    /** `add_plan` (bot.py:80-104, bot3.py:264-292). */
    method AddPlan(owner: int, text: string, due: Option<string>, date: string, createdAt: string) returns (id: int)
      modifies this
      ensures (data, id) == AddSpec(old(data), owner, text, due, date, createdAt)
      ensures old(WellFormed(data)) ==> WellFormed(data)
    {
      ghost var before := data;
      var store := data;
      if !HasKey(store, date) {
        store := Put(store, date, []);
      }
      var owners := Get(store, date, []);
      if !HasKey(owners, owner) {
        owners := Put(owners, owner, []);
        store := Put(store, date, owners);
      }
      var plans := Get(owners, owner, []);
      id := |plans| + 1;
      store := Put(store, date, Put(owners, owner, plans + [NewPlan(id, text, due, createdAt, owner)]));
      AddSteps(before, owner, text, due, date, createdAt);
      data := store;
      if WellFormed(before) {
        AddPreservesWellFormed(before, owner, text, due, date, createdAt);
      }
    }

    /** `get_user_plans` (bot.py:125-133, bot3.py:294-299). */
    method GetUserPlans(owner: int, date: string) returns (plans: seq<Plan>)
      ensures plans == UserPlans(data, date, owner)
    {
      plans := Get(Get(data, date, []), owner, []);
    }

    /** `get_plans` (bot.py:106-123). */
    method GetPlans(owner: int, date: string, viewer: Option<int>, admins: set<int>) returns (plans: seq<Plan>)
      ensures plans == GetPlansSpec(data, owner, date, viewer, admins)
    {
      var at := IndexOf(data, date);
      if at.None? {
        return [];
      }
      var owners := data[at.value].1;
      if IsAdmin(viewer, admins) {
        plans := [];
        var j := 0;
        while j < |owners|
          invariant 0 <= j <= |owners|
          invariant plans == AllPlansOf(owners[..j])
        {
          assert owners[..j + 1][..j] == owners[..j];
          plans := plans + owners[j].1;
          j := j + 1;
        }
        assert owners[..j] == owners;
      } else {
        plans := Get(owners, owner, []);
      }
    }

    /** `get_all_plans_for_admin` (bot.py:135-149, bot3.py:301-314): writes
        the owner into every plan of the date and returns them all. */
    method GetAllPlansForAdmin(date: string) returns (all: seq<Plan>)
      modifies this
      ensures (data, all) == TagSpec(old(data), date)
      ensures old(WellFormed(data)) ==> WellFormed(data)
    {
      ghost var before := data;
      var at := IndexOf(data, date);
      if at.None? {
        return [];
      }
      var di := at.value;
      var owners := data[di].1;
      ghost var tagged := TagOwners(owners);
      all := [];
      var j := 0;
      while j < |owners|
        invariant 0 <= j <= |owners| == |tagged|
        invariant forall q :: 0 <= q < j ==> owners[q] == tagged[q]
        invariant forall q :: j <= q < |owners| ==> owners[q] == data[di].1[q]
        invariant all == AllPlansOf(tagged[..j])
      {
        var key := owners[j].0;
        var plans := owners[j].1;
        var k := 0;
        while k < |plans|
          invariant 0 <= k <= |plans| == |tagged[j].1|
          invariant forall q :: 0 <= q < k ==> plans[q] == tagged[j].1[q]
          invariant forall q :: k <= q < |plans| ==> plans[q] == data[di].1[j].1[q]
          invariant all == AllPlansOf(tagged[..j]) + plans[..k]
        {
          plans := plans[k := plans[k].(ownerTag := Some(key))];
          all := all + [plans[k]];
          assert plans[..k + 1] == plans[..k] + [plans[k]];
          k := k + 1;
        }
        assert plans == tagged[j].1;
        assert tagged[..j + 1][..j] == tagged[..j];
        owners := owners[j := (key, plans)];
        j := j + 1;
      }
      assert owners == tagged;
      assert tagged[..j] == tagged;
      data := data[di := (date, owners)];
      if WellFormed(before) {
        TagEffect(before, date, date, 0);
      }
    }

    /** `get_upcoming_plans` of bot.py (151-180). */
    method GetUpcomingPlans(user: int, viewer: Option<int>, admins: set<int>) returns (upcoming: seq<UpEntry>)
      ensures upcoming == UpcomingSpec(data, user, viewer, admins)
    {
      var admin := IsAdmin(viewer, admins);
      var collected: seq<UpEntry> := [];
      var i := 0;
      while i < |data|
        invariant 0 <= i <= |data|
        invariant collected == UpCollected(data, user, admin, i)
      {
        var date := data[i].0;
        var owners := data[i].1;
        var part: seq<UpEntry> := [];
        if admin {
          var j := 0;
          while j < |owners|
            invariant 0 <= j <= |owners|
            invariant part == UpInOwners(date, owners, j)
          {
            var mine := PendingOf(date, owners[j].0, owners[j].1);
            part := part + mine;
            j := j + 1;
          }
        } else {
          var hit := IndexOf(owners, user);
          if hit.Some? {
            part := PendingOf(date, user, owners[hit.value].1);
          }
        }
        collected := collected + part;
        i := i + 1;
      }
      upcoming := Sorting.SortBy(collected, DueKey);
    }

    /** `get_upcoming_plans` of bot3.py (316-340). */
    method GetUpcomingPlans3(user: int) returns (upcoming: seq<UpEntry3>)
      ensures upcoming == Upcoming3Spec(data, user)
    {
      var store, collected: seq<UpEntry3> := data, [];
      var i := 0;
      while i < |store|
        invariant 0 <= i <= |store|
        invariant collected == Up3Collected(store, user, i)
      {
        var plans := Get(store[i].1, user, []);
        var part := DatedPendingOf(store[i].0, user, plans);
        assert Up3Collected(store, user, i + 1) == collected + part;
        collected := collected + part;
        i := i + 1;
      }
      upcoming := Sorting.SortBy(collected, DateKey);
    }

    /** `get_today_plans_with_due_date` (bot.py:182-197, bot3.py:342-357). */
    method GetTodayPlansWithDueDate(today: string) returns (due: seq<DueEntry>)
      ensures due == DueToday(data, today)
    {
      due := [];
      var i := 0;
      while i < |data|
        invariant 0 <= i <= |data|
        invariant due == DueInDates(data, today, i)
      {
        var part := DueOfDate(data, today, i);
        due := due + part;
        i := i + 1;
      }
    }

    /** `get_all_plans_today` (bot.py:199-211, bot3.py:359-369 with the
        lookup key as a parameter). */
    method GetAllPlansToday(today: string, viewer: Option<int>, admins: set<int>) returns (bucket: Owners)
      ensures bucket == AllPlansTodaySpec(data, today, viewer, admins)
    {
      var owners := Get(data, today, []);
      if IsAdmin(viewer, admins) {
        bucket := [];
        var j := 0;
        while j < |owners|
          invariant 0 <= j <= |owners|
          invariant bucket == owners[..j]
        {
          bucket := bucket + [owners[j]];
          j := j + 1;
        }
        assert owners[..j] == owners;
      } else {
        bucket := owners;
      }
    }

    /** `toggle_plan` (bot.py:213-242, bot3.py:371-395). */
    method TogglePlan(owner: int, date: string, id: int, viewer: Option<int>, admins: set<int>, now: string) returns (ok: bool)
      modifies this
      ensures (data, ok) == ToggleSpec(old(data), owner, date, id, viewer, admins, now)
      ensures old(WellFormed(data)) ==> WellFormed(data)
    {
      ghost var before := data;
      if WellFormed(data) {
        TogglePreservesWellFormed(data, owner, date, id, viewer, admins, now);
      }
      var at := IndexOf(data, date);
      if at.None? {
        return false;
      }
      var di := at.value;
      var owners := data[di].1;
      if IsAdmin(viewer, admins) {
        var j := 0;
        while j < |owners|
          invariant 0 <= j <= |owners|
          invariant forall q :: 0 <= q < j ==> FindId(owners[q].1, id).None?
        {
          var plans := owners[j].1;
          var k := 0;
          while k < |plans|
            invariant 0 <= k <= |plans|
            invariant forall q :: 0 <= q < k ==> plans[q].id != id
          {
            if plans[k].id == id {
              FindIdAt(plans, id, k);
              FirstOwnerWithAt(owners, id, j, k);
              data := SetPlans(data, di, j, plans[k := ToggleAt(plans[k], viewer.value, now)]);
              return true;
            }
            k := k + 1;
          }
          j := j + 1;
        }
      }
      var hit := IndexOf(owners, owner);
      if hit.None? {
        return false;
      }
      var plans := owners[hit.value].1;
      var k := 0;
      while k < |plans|
        invariant 0 <= k <= |plans|
        invariant forall q :: 0 <= q < k ==> plans[q].id != id
      {
        if plans[k].id == id {
          FindIdAt(plans, id, k);
          data := SetPlans(data, di, hit.value, plans[k := ToggleAt(plans[k], owner, now)]);
          return true;
        }
        k := k + 1;
      }
      return false;
    }

    /** `delete_plan` of bot.py (244-275); bot3.py's version (397-430) has
        the same effect (`DeleteVersionsAgree`). */
    method DeletePlan(owner: int, date: string, id: int, viewer: Option<int>, admins: set<int>) returns (ok: bool)
      modifies this
      ensures (data, ok) == DeleteSpec(old(data), owner, date, id, viewer, admins)
      ensures old(WellFormed(data)) ==> WellFormed(data)
    {
      if WellFormed(data) {
        DeletePreservesWellFormed(data, owner, date, id, viewer, admins);
      }
      var at := IndexOf(data, date);
      if at.None? {
        return false;
      }
      var di := at.value;
      var owners := data[di].1;
      if IsAdmin(viewer, admins) {
        var j := 0;
        while j < |owners|
          invariant 0 <= j <= |owners|
          invariant forall q :: 0 <= q < j ==> FindId(owners[q].1, id).None?
        {
          var plans := owners[j].1;
          var k := 0;
          while k < |plans|
            invariant 0 <= k <= |plans|
            invariant forall q :: 0 <= q < k ==> plans[q].id != id
          {
            if plans[k].id == id {
              FindIdAt(plans, id, k);
              FirstOwnerWithAt(owners, id, j, k);
              var rest := RenumberPlans(RemoveAt(plans, k));
              data := SetPlans(data, di, j, rest);
              return true;
            }
            k := k + 1;
          }
          j := j + 1;
        }
      }
      var hit := IndexOf(owners, owner);
      if hit.None? {
        return false;
      }
      var plans := owners[hit.value].1;
      var k := 0;
      while k < |plans|
        invariant 0 <= k <= |plans|
        invariant forall q :: 0 <= q < k ==> plans[q].id != id
      {
        if plans[k].id == id {
          FindIdAt(plans, id, k);
          var rest := RenumberPlans(RemoveAt(plans, k));
          data := SetPlans(data, di, hit.value, rest);
          return true;
        }
        k := k + 1;
      }
      return false;
    }

    /** `clear_plans` (bot.py:277-300, bot3.py:432-452). */
    method ClearPlans(owner: int, date: string, viewer: Option<int>, admins: set<int>) returns (ok: bool)
      modifies this
      ensures (data, ok) == ClearSpec(old(data), owner, date, viewer, admins)
      ensures old(WellFormed(data)) ==> WellFormed(data)
    {
      if WellFormed(data) {
        ClearPreservesWellFormed(data, owner, date, viewer, admins);
      }
      if HasKey(data, date) && HasKey(Get(data, date, []), owner) {
        var owners := Remove(Get(data, date, []), owner);
        if |owners| == 0 {
          data := Remove(data, date);
        } else {
          data := Put(data, date, owners);
        }
        return true;
      }
      return false;
    }

    /** `get_stats` (bot.py:302-313, bot3.py:454-463): for an admin it goes
        through `get_all_plans_for_admin` and so tags the date's plans. */
    method GetStats(owner: int, date: string, viewer: Option<int>, admins: set<int>) returns (total: nat, completed: nat)
      modifies this
      ensures (data, total, completed) == StatsSpec(old(data), owner, date, viewer, admins)
      ensures old(WellFormed(data)) ==> WellFormed(data)
    {
      var plans: seq<Plan>;
      if IsAdmin(viewer, admins) {
        plans := GetAllPlansForAdmin(date);
      } else {
        plans := GetUserPlans(owner, date);
      }
      total := |plans|;
      completed := CountDone(plans);
    }
  }

  /** The steps of `add_plan` (create the date, create the owner, append)
      end in the store `AddSpec` describes. */
  lemma AddSteps(store: Store, owner: int, text: string, due: Option<string>, date: string, createdAt: string)
    ensures var s1 := if HasKey(store, date) then store else Put(store, date, []);
      var o1 := Get(s1, date, []);
      var o2 := if HasKey(o1, owner) then o1 else Put(o1, owner, []);
      var s2 := if HasKey(o1, owner) then s1 else Put(s1, date, o2);
      var plans := Get(o2, owner, []);
      o1 == Get(store, date, [])
      && plans == Get(Get(store, date, []), owner, [])
      && Put(s2, date, Put(o2, owner, plans + [NewPlan(|plans| + 1, text, due, createdAt, owner)]))
        == AddSpec(store, owner, text, due, date, createdAt).0
  {
    var s1 := if HasKey(store, date) then store else Put(store, date, []);
    var o := Get(store, date, []);
    SetDefault(store, date, [], []);
    var o2 := if HasKey(o, owner) then o else Put(o, owner, []);
    var plans := Get(o, owner, []);
    SetDefault(o, owner, [], []);
    var s2 := if HasKey(o, owner) then s1 else Put(s1, date, o2);
    var np := NewPlan(|plans| + 1, text, due, createdAt, owner);
    var o3 := Put(o, owner, plans + [np]);
    SetDefault(o, owner, [], plans + [np]);
    PutPut(s1, date, o2, o3);
    SetDefault(store, date, [], o3);
  }
}
