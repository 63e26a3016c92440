/** The daily plan store of both bots (`DailyPlans`, bot.py:55-313,
    bot3.py:227-463) as values: a mapping from a date key to a mapping from
    an owner (the user id, stored as `str(user_id)`) to that owner's list of
    plan records, both levels insertion-ordered. Each operation is a function
    from the old store to the new store and its result; the class in
    `daily_plans.dfy` performs them step by step and is proved to compute
    these functions.

    The clock, the role table and the JSON file are not part of the model:
    the date key, the "now" time stamp, the viewer and the set of admin ids
    are parameters. */
module PlanStore {
  import opened Wrappers
  import opened Assoc

  /** One plan record. `completedAt`, `completedBy` and `ownerTag` are the
      keys `completed_at`, `completed_by` and `owner_user_id` that later
      operations add (None while absent). */
  datatype Plan = Plan(
    id: int, text: string, due: Option<string>, createdAt: string, userId: int,
    completed: bool, notified: bool,
    completedAt: Option<string>, completedBy: Option<int>, ownerTag: Option<int>)

  /** owner id -> plans, in insertion order. */
  type Owners = seq<(int, seq<Plan>)>

  /** date key -> owners, in insertion order. */
  type Store = seq<(string, Owners)>

  /** `viewer_id and viewer_id in USERS and USERS[viewer_id]['role'] ==
      'admin'`: a missing viewer and the id 0 (falsy) are never admins. */
  predicate IsAdmin(viewer: Option<int>, admins: set<int>)
  {
    viewer.Some? && viewer.value != 0 && viewer.value in admins
  }

  /** Plan ids are positions: 1, 2, ..., n. */
  predicate DenseIds(plans: seq<Plan>)
  {
    forall i :: 0 <= i < |plans| ==> plans[i].id == i + 1
  }

  /** The invariant every operation keeps: no repeated keys at either
      level, no date without owners, and dense ids in every list. */
  predicate WellFormed(store: Store)
  {
    NoDupKeys(store)
    && forall di :: 0 <= di < |store| ==>
      |store[di].1| > 0 && NoDupKeys(store[di].1)
      && forall oi :: 0 <= oi < |store[di].1| ==> DenseIds(store[di].1[oi].1)
  }

  /** `get_user_plans(user_id, plan_date)`: the owner's list, or [] when the
      date or the owner is missing (bot.py:125-133, bot3.py:294-299). */
  function UserPlans(store: Store, date: string, owner: int): seq<Plan>
  {
    Get(Get(store, date, []), owner, [])
  }

  // ----- add_plan -----

  function NewPlan(id: int, text: string, due: Option<string>, createdAt: string, owner: int): Plan
  {
    Plan(id, text, due, createdAt, owner, false, false, None, None, None)
  }

  /** `add_plan(user_id, plan_text, due_date, plan_date)` (bot.py:80-104):
      the new store and the new plan's id. */
  function AddSpec(store: Store, owner: int, text: string, due: Option<string>, date: string, createdAt: string): (Store, int)
  {
    var owners := Get(store, date, []);
    var plans := Get(owners, owner, []);
    var id := |plans| + 1;
    (Put(store, date, Put(owners, owner, plans + [NewPlan(id, text, due, createdAt, owner)])), id)
  }

  /** Adding appends one incomplete, unnotified plan numbered one past the
      owner's list to that list, creating the date and owner keys when
      missing, and leaves every other list as it was. */
  lemma AddEffect(store: Store, owner: int, text: string, due: Option<string>, date: string, createdAt: string,
                  d: string, o: int)
    requires WellFormed(store)
    ensures var (s, id) := AddSpec(store, owner, text, due, date, createdAt);
      id == |UserPlans(store, date, owner)| + 1
      && UserPlans(s, date, owner) == UserPlans(store, date, owner) + [NewPlan(id, text, due, createdAt, owner)]
      && (d != date || o != owner ==> UserPlans(s, d, o) == UserPlans(store, d, o))
  {
    var owners := Get(store, date, []);
    var plans := Get(owners, owner, []);
    var np := NewPlan(|plans| + 1, text, due, createdAt, owner);
    OwnersNoDup(store, date);
    GetPut(store, date, Put(owners, owner, plans + [np]), d, []);
    GetPut(owners, owner, plans + [np], o, []);
    GetPut(store, date, Put(owners, owner, plans + [np]), date, []);
    GetPut(owners, owner, plans + [np], owner, []);
  }

  lemma OwnersNoDup(store: Store, date: string)
    requires WellFormed(store)
    ensures NoDupKeys(Get(store, date, []))
  {
  }

  lemma OwnerListDense(store: Store, date: string, owner: int)
    requires WellFormed(store)
    ensures DenseIds(UserPlans(store, date, owner))
  {
  }

  /** Adding keeps the store well formed. */
  lemma AddPreservesWellFormed(store: Store, owner: int, text: string, due: Option<string>, date: string, createdAt: string)
    requires WellFormed(store)
    ensures WellFormed(AddSpec(store, owner, text, due, date, createdAt).0)
  {
    var owners := Get(store, date, []);
    var plans := Get(owners, owner, []);
    var np := NewPlan(|plans| + 1, text, due, createdAt, owner);
    OwnersNoDup(store, date);
    OwnerListDense(store, date, owner);
    var owners2 := Put(owners, owner, plans + [np]);
    PutNoDup(owners, owner, plans + [np]);
    PutNoDup(store, date, owners2);
    assert DenseIds(plans + [np]);
    forall oi | 0 <= oi < |owners2| ensures DenseIds(owners2[oi].1) {
      match IndexOf(owners, owner)
      case Some(i) =>
        if oi != i { assert owners2[oi] == owners[oi]; }
      case None =>
        if oi < |owners| { assert owners2[oi] == owners[oi]; }
    }
    var s := Put(store, date, owners2);
    forall di | 0 <= di < |s|
      ensures |s[di].1| > 0 && NoDupKeys(s[di].1)
      ensures forall oi :: 0 <= oi < |s[di].1| ==> DenseIds(s[di].1[oi].1)
    {
      match IndexOf(store, date)
      case Some(i) =>
        if di != i { assert s[di] == store[di]; }
      case None =>
        if di < |store| { assert s[di] == store[di]; }
    }
  }

  // ----- locating a plan -----

  /** The first position in `plans` holding id `id`. */
  function FindId(plans: seq<Plan>, id: int): (r: Option<nat>)
    ensures r.Some? ==> r.value < |plans| && plans[r.value].id == id
    ensures r.Some? ==> forall j :: 0 <= j < r.value ==> plans[j].id != id
    ensures r.None? ==> forall j :: 0 <= j < |plans| ==> plans[j].id != id
  {
    if |plans| == 0 then None
    else if plans[0].id == id then Some(0)
    else match FindId(plans[1..], id)
      case None => None
      case Some(j) => Some(j + 1)
  }

  /** The admin search: the first owner, in insertion order, whose list
      holds id `id`, with the position of the first such plan. */
  function FirstOwnerWith(owners: Owners, id: int): (r: Option<(nat, nat)>)
    ensures r.Some? ==> r.value.0 < |owners| && FindId(owners[r.value.0].1, id) == Some(r.value.1)
    ensures r.Some? ==> forall k :: 0 <= k < r.value.0 ==> FindId(owners[k].1, id).None?
    ensures r.None? ==> forall k :: 0 <= k < |owners| ==> FindId(owners[k].1, id).None?
  {
    if |owners| == 0 then None
    else match FindId(owners[0].1, id)
      case Some(j) => Some((0, j))
      case None =>
        match FirstOwnerWith(owners[1..], id)
        case None => None
        case Some((k, j)) => Some((k + 1, j))
  }

  /** The owner search: the owner's position and the first position of id
      `id` in the owner's list. */
  function OwnerHit(owners: Owners, owner: int, id: int): (r: Option<(nat, nat)>)
    ensures r.Some? ==>
      r.value.0 < |owners| && owners[r.value.0].0 == owner && FindId(owners[r.value.0].1, id) == Some(r.value.1)
  {
    match IndexOf(owners, owner)
    case None => None
    case Some(oi) =>
      match FindId(owners[oi].1, id)
      case None => None
      case Some(pi) => Some((oi, pi))
  }

  /** A scan that stops at the first plan with id `id` finds what `FindId`
      finds. */
  lemma FindIdAt(plans: seq<Plan>, id: int, k: nat)
    requires k < |plans| && plans[k].id == id
    requires forall q :: 0 <= q < k ==> plans[q].id != id
    ensures FindId(plans, id) == Some(k)
  {
  }

  /** A scan over the owners that stops at the first hit finds what
      `FirstOwnerWith` finds. */
  lemma {:induction false} FirstOwnerWithAt(owners: Owners, id: int, j: nat, k: nat)
    requires j < |owners| && FindId(owners[j].1, id) == Some(k)
    requires forall q :: 0 <= q < j ==> FindId(owners[q].1, id).None?
    ensures FirstOwnerWith(owners, id) == Some((j, k))
    decreases j
  {
    if j > 0 {
      assert FindId(owners[0].1, id).None?;
      FirstOwnerWithAt(owners[1..], id, j - 1, k);
    }
  }

  /** When the admin search finds nothing, neither does the owner search: it
      looks in one of the lists the admin search has already looked in. */
  lemma AdminMissImpliesOwnerMiss(owners: Owners, owner: int, id: int)
    requires FirstOwnerWith(owners, id).None?
    ensures OwnerHit(owners, owner, id).None?
  {
  }

  /** The list of owner `oi` on date `di` replaced by `plans`. */
  function SetPlans(store: Store, di: nat, oi: nat, plans: seq<Plan>): Store
    requires di < |store| && oi < |store[di].1|
  {
    store[di := (store[di].0, store[di].1[oi := (store[di].1[oi].0, plans)])]
  }

  /** Replacing one list changes that list only. */
  lemma SetPlansFrame(store: Store, di: nat, oi: nat, plans: seq<Plan>, d: string, o: int)
    requires WellFormed(store) && di < |store| && oi < |store[di].1|
    ensures UserPlans(SetPlans(store, di, oi, plans), d, o)
      == if d == store[di].0 && o == store[di].1[oi].0 then plans else UserPlans(store, d, o)
  {
    var s := SetPlans(store, di, oi, plans);
    IndexOfSameKeys(s, store, d);
    if d == store[di].0 {
      IndexOfUnique(store, di);
      IndexOfSameKeys(s[di].1, store[di].1, o);
      if o == store[di].1[oi].0 {
        IndexOfUnique(store[di].1, oi);
      }
    }
  }

  /** Replacing one list by a densely numbered list keeps the store well
      formed. */
  lemma SetPlansWellFormed(store: Store, di: nat, oi: nat, plans: seq<Plan>)
    requires WellFormed(store) && di < |store| && oi < |store[di].1| && DenseIds(plans)
    ensures WellFormed(SetPlans(store, di, oi, plans))
  {
    var s := SetPlans(store, di, oi, plans);
    assert forall i :: 0 <= i < |s| ==> s[i].0 == store[i].0;
    assert forall j :: 0 <= j < |s[di].1| ==> s[di].1[j].0 == store[di].1[j].0;
  }

  // ----- toggle_plan -----

  /** Flipping one plan: `completed` negated, `completed_at` the time stamp
      when it becomes complete and None otherwise, `completed_by` the actor. */
  function ToggleAt(p: Plan, actor: int, now: string): Plan
  {
    var c := !p.completed;
    p.(completed := c, completedAt := if c then Some(now) else None, completedBy := Some(actor))
  }

  /** `toggle_plan(user_id, plan_date, plan_id, viewer_id)` (bot.py:213-242):
      an admin viewer flips the first plan with that id among the date's
      owners in insertion order, recording the viewer; failing that (and for
      everyone else) the owner's own first plan with that id is flipped,
      recording the owner. */
  function ToggleSpec(store: Store, owner: int, date: string, id: int, viewer: Option<int>, admins: set<int>, now: string): (Store, bool)
  {
    match IndexOf(store, date)
    case None => (store, false)
    case Some(di) =>
      var owners := store[di].1;
      var adminHit := if IsAdmin(viewer, admins) then FirstOwnerWith(owners, id) else None;
      if adminHit.Some? then
        var (oi, pi) := adminHit.value;
        (SetPlans(store, di, oi, owners[oi].1[pi := ToggleAt(owners[oi].1[pi], viewer.value, now)]), true)
      else
        match OwnerHit(owners, owner, id)
        case None => (store, false)
        case Some((oi, pi)) =>
          (SetPlans(store, di, oi, owners[oi].1[pi := ToggleAt(owners[oi].1[pi], owner, now)]), true)
  }

  /** Toggling twice restores `completed`; `completed_at` is None again when
      the plan started incomplete. Nothing but the audit fields differs. */
  lemma ToggleTwice(p: Plan, a: int, b: int, now1: string, now2: string)
    ensures ToggleAt(ToggleAt(p, a, now1), b, now2).completed == p.completed
    ensures ToggleAt(ToggleAt(p, a, now1), b, now2)
      == p.(completedAt := if p.completed then Some(now2) else None, completedBy := Some(b))
  {
  }

  /** For an ordinary viewer, toggling flips exactly the owner's first plan
      with that id, answers whether there was one, and leaves every other
      list as it was; with no such plan nothing changes. */
  lemma ToggleOwnerEffect(store: Store, owner: int, date: string, id: int, viewer: Option<int>, admins: set<int>,
                          now: string, d: string, o: int)
    requires WellFormed(store) && !IsAdmin(viewer, admins)
    ensures var (s, ok) := ToggleSpec(store, owner, date, id, viewer, admins, now);
      var old_ := UserPlans(store, date, owner);
      (ok <==> FindId(old_, id).Some?)
      && (!ok ==> s == store)
      && (ok ==> UserPlans(s, date, owner) == old_[FindId(old_, id).value := ToggleAt(old_[FindId(old_, id).value], owner, now)])
      && (d != date || o != owner ==> UserPlans(s, d, o) == UserPlans(store, d, o))
  {
    match IndexOf(store, date)
    case None =>
    case Some(di) =>
      match OwnerHit(store[di].1, owner, id)
      case None =>
      case Some((oi, pi)) =>
        var plans := store[di].1[oi].1;
        SetPlansFrame(store, di, oi, plans[pi := ToggleAt(plans[pi], owner, now)], d, o);
        SetPlansFrame(store, di, oi, plans[pi := ToggleAt(plans[pi], owner, now)], date, owner);
  }

  /** For an admin viewer, toggling acts on the first owner of the date
      holding that id, whoever `user_id` names: it answers true, flips that
      one plan recording the viewer, and leaves every other plan and every
      other list as it was. */
  lemma ToggleAdminIgnoresOwner(store: Store, owner1: int, owner2: int, date: string, id: int, viewer: Option<int>,
                                admins: set<int>, now: string, d: string, o: int)
    requires WellFormed(store) && IsAdmin(viewer, admins) && HasKey(store, date)
    requires FirstOwnerWith(Get(store, date, []), id).Some?
    ensures ToggleSpec(store, owner1, date, id, viewer, admins, now) == ToggleSpec(store, owner2, date, id, viewer, admins, now)
    ensures var (oi, pi) := FirstOwnerWith(Get(store, date, []), id).value;
      var di := IndexOf(store, date).value;
      ToggleSpec(store, owner1, date, id, viewer, admins, now).0[di].1[oi].1[pi]
        == ToggleAt(store[di].1[oi].1[pi], viewer.value, now)
    ensures var (oi, pi) := FirstOwnerWith(Get(store, date, []), id).value;
      var victim := Get(store, date, [])[oi].0;
      var old_ := UserPlans(store, date, victim);
      var (s, ok) := ToggleSpec(store, owner1, date, id, viewer, admins, now);
      ok && UserPlans(s, date, victim) == old_[pi := ToggleAt(old_[pi], viewer.value, now)]
      && (d != date || o != victim ==> UserPlans(s, d, o) == UserPlans(store, d, o))
  {
    var di := IndexOf(store, date).value;
    var (oi, pi) := FirstOwnerWith(store[di].1, id).value;
    var plans := store[di].1[oi].1;
    var flipped := plans[pi := ToggleAt(plans[pi], viewer.value, now)];
    IndexOfUnique(store, di);
    IndexOfUnique(store[di].1, oi);
    assert UserPlans(store, date, store[di].1[oi].0) == plans;
    SetPlansFrame(store, di, oi, flipped, d, o);
    SetPlansFrame(store, di, oi, flipped, date, store[di].1[oi].0);
  }

  /** Toggling keeps the store well formed. */
  lemma TogglePreservesWellFormed(store: Store, owner: int, date: string, id: int, viewer: Option<int>,
                                  admins: set<int>, now: string)
    requires WellFormed(store)
    ensures WellFormed(ToggleSpec(store, owner, date, id, viewer, admins, now).0)
  {
    match IndexOf(store, date)
    case None =>
    case Some(di) =>
      var owners := store[di].1;
      var adminHit := if IsAdmin(viewer, admins) then FirstOwnerWith(owners, id) else None;
      if adminHit.Some? {
        var (oi, pi) := adminHit.value;
        SetPlansWellFormed(store, di, oi, owners[oi].1[pi := ToggleAt(owners[oi].1[pi], viewer.value, now)]);
      } else {
        match OwnerHit(owners, owner, id)
        case None =>
        case Some((oi, pi)) =>
          SetPlansWellFormed(store, di, oi, owners[oi].1[pi := ToggleAt(owners[oi].1[pi], owner, now)]);
      }
  }

  // ----- delete_plan -----

  /** `for j, p in enumerate(plans, 1): p['id'] = j`. */
  function Renumber(plans: seq<Plan>): (r: seq<Plan>)
    ensures |r| == |plans| && DenseIds(r)
  {
    seq(|plans|, i requires 0 <= i < |plans| => plans[i].(id := i + 1))
  }

  /** `del plans[i]`. */
  function RemoveAt(plans: seq<Plan>, i: nat): seq<Plan>
    requires i < |plans|
  {
    plans[..i] + plans[i + 1..]
  }

  /** The list of owner `oi` on date `di` without its plan `pi`, the rest
      renumbered. */
  function DeleteAt(store: Store, di: nat, oi: nat, pi: nat): Store
    requires di < |store| && oi < |store[di].1| && pi < |store[di].1[oi].1|
  {
    SetPlans(store, di, oi, Renumber(RemoveAt(store[di].1[oi].1, pi)))
  }

  /** `delete_plan(user_id, plan_date, plan_id, viewer_id)` of bot.py
      (244-275): an admin viewer deletes from the first owner holding the
      id; failing that (and for everyone else) the owner's own plan is
      deleted. */
  function DeleteSpec(store: Store, owner: int, date: string, id: int, viewer: Option<int>, admins: set<int>): (Store, bool)
  {
    match IndexOf(store, date)
    case None => (store, false)
    case Some(di) =>
      var owners := store[di].1;
      var adminHit := if IsAdmin(viewer, admins) then FirstOwnerWith(owners, id) else None;
      if adminHit.Some? then (DeleteAt(store, di, adminHit.value.0, adminHit.value.1), true)
      else
        match OwnerHit(owners, owner, id)
        case None => (store, false)
        case Some((oi, pi)) => (DeleteAt(store, di, oi, pi), true)
  }

  /** `delete_plan` of bot3.py (397-430): the admin branch and the owner
      branch exclude each other. */
  function DeleteExclusiveSpec(store: Store, owner: int, date: string, id: int, viewer: Option<int>, admins: set<int>): (Store, bool)
  {
    match IndexOf(store, date)
    case None => (store, false)
    case Some(di) =>
      var owners := store[di].1;
      if IsAdmin(viewer, admins) then
        match FirstOwnerWith(owners, id)
        case None => (store, false)
        case Some((oi, pi)) => (DeleteAt(store, di, oi, pi), true)
      else
        match OwnerHit(owners, owner, id)
        case None => (store, false)
        case Some((oi, pi)) => (DeleteAt(store, di, oi, pi), true)
  }

  /** The two versions agree: bot.py's fall-through from the admin branch to
      the owner branch never finds anything. */
  lemma DeleteVersionsAgree(store: Store, owner: int, date: string, id: int, viewer: Option<int>, admins: set<int>)
    ensures DeleteSpec(store, owner, date, id, viewer, admins) == DeleteExclusiveSpec(store, owner, date, id, viewer, admins)
  {
    match IndexOf(store, date)
    case None =>
    case Some(di) =>
      if IsAdmin(viewer, admins) && FirstOwnerWith(store[di].1, id).None? {
        AdminMissImpliesOwnerMiss(store[di].1, owner, id);
      }
  }

  /** In a densely numbered list the plan with id `id` sits at `id - 1`. */
  lemma FindIdDense(plans: seq<Plan>, id: int)
    requires DenseIds(plans)
    ensures FindId(plans, id).Some? <==> 1 <= id <= |plans|
    ensures FindId(plans, id).Some? ==> FindId(plans, id).value == id - 1
  {
    if 1 <= id <= |plans| {
      assert plans[id - 1].id == id;
    }
  }

  /** Removing position `i` and renumbering keeps the other plans in their
      old order, each numbered by its new position. */
  lemma RenumberRemoveAt(plans: seq<Plan>, i: nat)
    requires i < |plans|
    ensures var r := Renumber(RemoveAt(plans, i));
      |r| == |plans| - 1
      && forall k :: 0 <= k < |r| ==> r[k] == (if k < i then plans[k] else plans[k + 1]).(id := k + 1)
  {
    var rest := RemoveAt(plans, i);
    assert forall k :: 0 <= k < |rest| ==> rest[k] == if k < i then plans[k] else plans[k + 1];
  }

  /** For an ordinary viewer, deleting plan `id` of a densely numbered list
      removes the plan at `id - 1` and renumbers the rest; other lists are
      untouched. With no such date, owner or id it answers false and changes
      nothing. */
  lemma DeleteOwnerEffect(store: Store, owner: int, date: string, id: int, viewer: Option<int>, admins: set<int>,
                          d: string, o: int)
    requires WellFormed(store) && !IsAdmin(viewer, admins)
    ensures var (s, ok) := DeleteSpec(store, owner, date, id, viewer, admins);
      var old_ := UserPlans(store, date, owner);
      (ok <==> 1 <= id <= |old_|)
      && (!ok ==> s == store)
      && (ok ==> UserPlans(s, date, owner) == Renumber(RemoveAt(old_, id - 1)))
      && (d != date || o != owner ==> UserPlans(s, d, o) == UserPlans(store, d, o))
  {
    OwnerListDense(store, date, owner);
    FindIdDense(UserPlans(store, date, owner), id);
    match IndexOf(store, date)
    case None =>
    case Some(di) =>
      match OwnerHit(store[di].1, owner, id)
      case None =>
      case Some((oi, pi)) =>
        var plans := store[di].1[oi].1;
        assert UserPlans(store, date, owner) == plans;
        var rest := Renumber(RemoveAt(plans, pi));
        SetPlansFrame(store, di, oi, rest, d, o);
        SetPlansFrame(store, di, oi, rest, date, owner);
  }

  /** For an admin viewer, deleting acts on the first owner of the date
      holding that id, whoever `user_id` names: that plan is removed from the
      owner's list, the rest renumbered, and every other list kept. */
  lemma DeleteAdminEffect(store: Store, owner1: int, owner2: int, date: string, id: int, viewer: Option<int>,
                          admins: set<int>, d: string, o: int)
    requires WellFormed(store) && IsAdmin(viewer, admins) && HasKey(store, date)
    requires FirstOwnerWith(Get(store, date, []), id).Some?
    ensures DeleteSpec(store, owner1, date, id, viewer, admins) == DeleteSpec(store, owner2, date, id, viewer, admins)
    ensures var (oi, pi) := FirstOwnerWith(Get(store, date, []), id).value;
      var victim := Get(store, date, [])[oi].0;
      var (s, ok) := DeleteSpec(store, owner1, date, id, viewer, admins);
      ok
      && UserPlans(s, date, victim) == Renumber(RemoveAt(UserPlans(store, date, victim), pi))
      && (d != date || o != victim ==> UserPlans(s, d, o) == UserPlans(store, d, o))
  {
    var di := IndexOf(store, date).value;
    var (oi, pi) := FirstOwnerWith(store[di].1, id).value;
    var rest := Renumber(RemoveAt(store[di].1[oi].1, pi));
    IndexOfUnique(store, di);
    IndexOfUnique(store[di].1, oi);
    assert UserPlans(store, date, store[di].1[oi].0) == store[di].1[oi].1;
    SetPlansFrame(store, di, oi, rest, d, o);
    SetPlansFrame(store, di, oi, rest, date, store[di].1[oi].0);
  }

  /** Deleting keeps the store well formed. */
  lemma DeletePreservesWellFormed(store: Store, owner: int, date: string, id: int, viewer: Option<int>, admins: set<int>)
    requires WellFormed(store)
    ensures WellFormed(DeleteSpec(store, owner, date, id, viewer, admins).0)
  {
    match IndexOf(store, date)
    case None =>
    case Some(di) =>
      var owners := store[di].1;
      var adminHit := if IsAdmin(viewer, admins) then FirstOwnerWith(owners, id) else None;
      if adminHit.Some? {
        var (oi, pi) := adminHit.value;
        SetPlansWellFormed(store, di, oi, Renumber(RemoveAt(owners[oi].1, pi)));
      } else {
        match OwnerHit(owners, owner, id)
        case None =>
        case Some((oi, pi)) =>
          SetPlansWellFormed(store, di, oi, Renumber(RemoveAt(owners[oi].1, pi)));
      }
  }

  // ----- clear_plans -----

  /** `del data[date][owner]`, then `del data[date]` if that emptied it. */
  function DropOwner(store: Store, date: string, owner: int): Store
  {
    var owners := Remove(Get(store, date, []), owner);
    if |owners| == 0 then Remove(store, date) else Put(store, date, owners)
  }

  /** `clear_plans(user_id, plan_date, viewer_id)` (bot.py:277-300): an admin
      clearing their own plans and an ordinary user take separate branches
      with the same effect. */
  function ClearSpec(store: Store, owner: int, date: string, viewer: Option<int>, admins: set<int>): (Store, bool)
  {
    var present := HasKey(store, date) && HasKey(Get(store, date, []), owner);
    if IsAdmin(viewer, admins) && viewer.value == owner && present then (DropOwner(store, date, owner), true)
    else if present then (DropOwner(store, date, owner), true)
    else (store, false)
  }

  /** Clearing removes the owner's list for the date, removes the date when
      no other owner remains, and leaves every other list as it was; with
      nothing to remove it answers false and changes nothing. */
  lemma ClearEffect(store: Store, owner: int, date: string, viewer: Option<int>, admins: set<int>, d: string, o: int)
    requires WellFormed(store)
    ensures var (s, ok) := ClearSpec(store, owner, date, viewer, admins);
      (ok <==> HasKey(store, date) && HasKey(Get(store, date, []), owner))
      && (!ok ==> s == store)
      && (ok ==>
            !HasKey(Get(s, date, []), owner) && (HasKey(s, date) <==> |Get(store, date, [])| > 1))
      && (d != date || o != owner ==> UserPlans(s, d, o) == UserPlans(store, d, o))
  {
    var owners := Get(store, date, []);
    if HasKey(store, date) && HasKey(owners, owner) {
      OwnersNoDup(store, date);
      var rest := Remove(owners, owner);
      GetRemove(owners, owner, o, []);
      RemoveLength(owners, owner);
      if |rest| == 0 {
        GetRemove(store, date, d, []);
        GetRemove(store, date, date, []);
      } else {
        GetPut(store, date, rest, d, []);
        GetPut(store, date, rest, date, []);
        PutHasKey(store, date, rest);
      }
    }
  }

  lemma RemoveLength<K, V>(m: seq<(K, V)>, k: K)
    requires HasKey(m, k)
    ensures |Remove(m, k)| == |m| - 1
  {
  }

  lemma PutHasKey<K, V>(m: seq<(K, V)>, k: K, v: V)
    ensures HasKey(Put(m, k, v), k)
  {
    var r := Put(m, k, v);
    var i := if HasKey(m, k) then IndexOf(m, k).value else |m|;
    assert r[i].0 == k;
  }

  /** The admin's own-plans branch has exactly the effect of the ordinary
      branch. */
  lemma ClearAdminSameAsOwner(store: Store, owner: int, date: string, viewer: Option<int>, admins: set<int>)
    ensures ClearSpec(store, owner, date, viewer, admins) == ClearSpec(store, owner, date, None, admins)
  {
  }

  /** Clearing keeps the store well formed. */
  lemma ClearPreservesWellFormed(store: Store, owner: int, date: string, viewer: Option<int>, admins: set<int>)
    requires WellFormed(store)
    ensures WellFormed(ClearSpec(store, owner, date, viewer, admins).0)
  {
    var owners := Get(store, date, []);
    if HasKey(store, date) && HasKey(owners, owner) {
      var di := IndexOf(store, date).value;
      var oi := IndexOf(owners, owner).value;
      var rest := owners[..oi] + owners[oi + 1..];
      assert forall a :: 0 <= a < |rest| ==> rest[a] == if a < oi then owners[a] else owners[a + 1];
      RemoveNoDup(owners, owner);
      if |rest| == 0 {
        RemoveNoDup(store, date);
        var s := store[..di] + store[di + 1..];
        assert forall a :: 0 <= a < |s| ==> s[a] == if a < di then store[a] else store[a + 1];
      } else {
        PutNoDup(store, date, rest);
        var s := Put(store, date, rest);
        assert forall a :: 0 <= a < |s| && a != di ==> s[a] == store[a];
      }
    }
  }

  // ----- reads -----

  /** All owners' lists of one date, concatenated in insertion order. */
  function AllPlansOf(owners: Owners): seq<Plan>
  {
    if |owners| == 0 then [] else AllPlansOf(owners[..|owners| - 1]) + owners[|owners| - 1].1
  }

  /** `get_plans(user_id, plan_date, viewer_id)` (bot.py:106-123): every
      owner's plans of the date for an admin viewer, the user's own plans
      otherwise. */
  function GetPlansSpec(store: Store, owner: int, date: string, viewer: Option<int>, admins: set<int>): seq<Plan>
  {
    if !HasKey(store, date) then []
    else if IsAdmin(viewer, admins) then AllPlansOf(Get(store, date, []))
    else UserPlans(store, date, owner)
  }

  /** An admin sees every owner's list, and so in particular their own. */
  lemma {:induction false} AdminSeesOwnerPlans(owners: Owners, k: nat)
    requires k < |owners|
    ensures multiset(owners[k].1) <= multiset(AllPlansOf(owners))
    decreases |owners|
  {
    var n := |owners| - 1;
    assert multiset(AllPlansOf(owners)) == multiset(AllPlansOf(owners[..n])) + multiset(owners[n].1);
    if k < n {
      assert owners[..n][k] == owners[k];
      AdminSeesOwnerPlans(owners[..n], k);
    }
  }

  /** The plans of one owner with `owner_user_id` written in. */
  function TagPlans(plans: seq<Plan>, owner: int): (r: seq<Plan>)
    ensures |r| == |plans|
  {
    seq(|plans|, i requires 0 <= i < |plans| => plans[i].(ownerTag := Some(owner)))
  }

  function TagOwners(owners: Owners): (r: Owners)
    ensures |r| == |owners|
  {
    seq(|owners|, i requires 0 <= i < |owners| => (owners[i].0, TagPlans(owners[i].1, owners[i].0)))
  }

  /** `get_all_plans_for_admin(plan_date)` (bot.py:135-149,
      bot3.py:301-314): writes `owner_user_id` into every plan of the date
      and returns them all; the new store and the list. */
  function TagSpec(store: Store, date: string): (Store, seq<Plan>)
  {
    match IndexOf(store, date)
    case None => (store, [])
    case Some(di) =>
      var tagged := TagOwners(store[di].1);
      (store[di := (date, tagged)], AllPlansOf(tagged))
  }

  /** Tagging changes nothing but `owner_user_id`, which becomes each plan's
      owner; the store stays well formed. */
  lemma TagEffect(store: Store, date: string, d: string, o: int)
    requires WellFormed(store)
    ensures var s := TagSpec(store, date).0;
      WellFormed(s)
      && |UserPlans(s, d, o)| == |UserPlans(store, d, o)|
      && forall k :: 0 <= k < |UserPlans(s, d, o)| ==>
        UserPlans(s, d, o)[k] == (if d == date then UserPlans(store, d, o)[k].(ownerTag := Some(o)) else UserPlans(store, d, o)[k])
  {
    match IndexOf(store, date)
    case None =>
    case Some(di) =>
      var tagged := TagOwners(store[di].1);
      var s := store[di := (date, tagged)];
      IndexOfSameKeys(s, store, d);
      IndexOfSameKeys(tagged, store[di].1, o);
      assert forall i :: 0 <= i < |tagged| ==> tagged[i].0 == store[di].1[i].0;
      assert forall i :: 0 <= i < |s| ==> s[i].0 == store[i].0;
  }

  /** Tagging leaves the completion flags as they were, so the counts of
      `get_stats` do not depend on it. */
  lemma {:induction false} TagKeepsCompletion(owners: Owners)
    ensures |AllPlansOf(TagOwners(owners))| == |AllPlansOf(owners)|
    ensures CountCompleted(AllPlansOf(TagOwners(owners))) == CountCompleted(AllPlansOf(owners))
    decreases |owners|
  {
    if |owners| > 0 {
      var n := |owners| - 1;
      assert TagOwners(owners)[..n] == TagOwners(owners[..n]);
      TagKeepsCompletion(owners[..n]);
      CountAppend(AllPlansOf(TagOwners(owners[..n])), TagPlans(owners[n].1, owners[n].0));
      CountAppend(AllPlansOf(owners[..n]), owners[n].1);
      TagPlansCount(owners[n].1, owners[n].0);
    }
  }

  // ----- get_stats -----

  /** The number of completed plans in a list. */
  function CountCompleted(plans: seq<Plan>): (n: nat)
    ensures n <= |plans|
  {
    if |plans| == 0 then 0
    else CountCompleted(plans[..|plans| - 1]) + (if plans[|plans| - 1].completed then 1 else 0)
  }

  lemma {:induction false} CountAppend(a: seq<Plan>, b: seq<Plan>)
    ensures CountCompleted(a + b) == CountCompleted(a) + CountCompleted(b)
    decreases |b|
  {
    if |b| > 0 {
      assert (a + b)[..|a + b| - 1] == a + b[..|b| - 1];
      CountAppend(a, b[..|b| - 1]);
    } else {
      assert a + b == a;
    }
  }

  lemma {:induction false} TagPlansCount(plans: seq<Plan>, owner: int)
    ensures CountCompleted(TagPlans(plans, owner)) == CountCompleted(plans)
    decreases |plans|
  {
    if |plans| > 0 {
      assert TagPlans(plans, owner)[..|plans| - 1] == TagPlans(plans[..|plans| - 1], owner);
      TagPlansCount(plans[..|plans| - 1], owner);
    }
  }

  /** `get_stats(user_id, plan_date, viewer_id)` (bot.py:302-313): the total
      and completed counts of the plans the viewer sees; for an admin this
      goes through `get_all_plans_for_admin` and so tags the store. */
  function StatsSpec(store: Store, owner: int, date: string, viewer: Option<int>, admins: set<int>): (Store, nat, nat)
  {
    if IsAdmin(viewer, admins) then
      var (s, plans) := TagSpec(store, date);
      (s, |plans|, CountCompleted(plans))
    else
      var plans := UserPlans(store, date, owner);
      (store, |plans|, CountCompleted(plans))
  }

  /** The counts are those of the plans `get_plans` shows the same viewer,
      and never more are completed than exist. */
  lemma StatsMatchGetPlans(store: Store, owner: int, date: string, viewer: Option<int>, admins: set<int>)
    ensures var (_, total, done) := StatsSpec(store, owner, date, viewer, admins);
      total == |GetPlansSpec(store, owner, date, viewer, admins)|
      && done == CountCompleted(GetPlansSpec(store, owner, date, viewer, admins))
      && done <= total
  {
    match IndexOf(store, date)
    case None =>
    case Some(di) =>
      if IsAdmin(viewer, admins) {
        TagKeepsCompletion(store[di].1);
      }
  }
}
