/** bot3.py's `DatabaseManager` (bot3.py:74-137): a list of idle SQLite
    connections with a size cap. Connections are abstract handles numbered in
    the order they are created; opening, committing, rolling back and closing
    are recorded as events. The lock is left out: every call runs alone. */
module Pool {

  /** `DATABASE_POOL_SIZE`: the most idle connections kept open. */
  const DatabasePoolSize: nat := 5

  /** What happened to a connection. */
  datatype Event = Commit(handle: nat) | Rollback(handle: nat) | Close(handle: nat)

  /** How a query ended: it committed, or it raised after a rollback. */
  datatype Outcome = Committed | Raised

  /** The manager's state: the idle list (`self.pool`, last element returned
      first), how many connections were ever created, and the events so far. */
  datatype PoolState = PoolState(idle: seq<nat>, created: nat, events: seq<Event>)

  /** The idle list respects the cap, holds only created handles, and never
      holds a handle twice. */
  predicate Valid(s: PoolState)
  {
    |s.idle| <= DatabasePoolSize
    && (forall i :: 0 <= i < |s.idle| ==> s.idle[i] < s.created)
    && (forall i, j :: 0 <= i < j < |s.idle| ==> s.idle[i] != s.idle[j])
  }

  /** `get_connection()`: the last idle handle when there is one, otherwise a
      newly created one. */
  function Acquire(s: PoolState): (PoolState, nat)
  {
    if |s.idle| > 0 then (s.(idle := s.idle[..|s.idle| - 1]), s.idle[|s.idle| - 1])
    else (s.(created := s.created + 1), s.created)
  }

  /** `return_connection(h)`: back to the idle list while it has room,
      otherwise closed. */
  function Release(s: PoolState, h: nat): PoolState
  {
    if |s.idle| < DatabasePoolSize then s.(idle := s.idle + [h])
    else s.(events := s.events + [Close(h)])
  }

  /** A handle taken from the manager is not idle and was created. */
  lemma AcquireValid(s: PoolState)
    requires Valid(s)
    ensures Valid(Acquire(s).0)
    ensures Acquire(s).1 < Acquire(s).0.created && Acquire(s).1 !in Acquire(s).0.idle
    ensures Acquire(s).0.events == s.events
  {
  }

  /** Giving back a handle that is not idle keeps the idle list within the
      cap and free of repeats. */
  lemma ReleaseValid(s: PoolState, h: nat)
    requires Valid(s) && h < s.created && h !in s.idle
    ensures Valid(Release(s, h))
  {
  }

  /** The connection returned last is the one handed out next. */
  lemma ReturnedIsReused(s: PoolState, h: nat)
    requires |s.idle| < DatabasePoolSize
    ensures Acquire(Release(s, h)) == (s, h)
  {
    assert (s.idle + [h])[..|s.idle|] == s.idle;
  }

  /** A connection returned to a full pool is closed and nothing else
      changes. */
  lemma FullPoolCloses(s: PoolState, h: nat)
    requires |s.idle| >= DatabasePoolSize
    ensures Release(s, h) == s.(events := s.events + [Close(h)])
  {
  }

  /** `execute_query` and `execute_many`: take a connection, commit on
      success or roll back on an exception, and give the connection back in
      both cases. `ok` says whether the statement succeeds. */
  function ExecuteSpec(s: PoolState, ok: bool): (PoolState, Outcome)
  {
    var (t, h) := Acquire(s);
    var t' := t.(events := t.events + [if ok then Commit(h) else Rollback(h)]);
    (Release(t', h), if ok then Committed else Raised)
  }

  /** A statement leaves the idle list as it found it, or holding the one
      connection it had to open, whether it committed or raised; it opens a
      connection only when none was idle, and nothing is closed. */
  lemma ExecuteReturnsConnection(s: PoolState, ok: bool)
    requires Valid(s)
    ensures Valid(ExecuteSpec(s, ok).0)
    ensures ExecuteSpec(s, ok).0.idle == if |s.idle| > 0 then s.idle else [s.created]
    ensures ExecuteSpec(s, ok).0.created == if |s.idle| > 0 then s.created else s.created + 1
    ensures ExecuteSpec(s, ok).0.events
      == s.events + [if ok then Commit(Acquire(s).1) else Rollback(Acquire(s).1)]
  {
    AcquireValid(s);
    var (t, h) := Acquire(s);
    if |s.idle| > 0 {
      assert t.idle + [h] == s.idle;
    }
  }

  /** The connection manager. */
  class DatabaseManager {
    var idle: seq<nat>
    var created: nat
    var events: seq<Event>

    function State(): PoolState
      reads this
    {
      PoolState(idle, created, events)
    }

    /** `__init__` starts with an empty pool and then runs `init_db`, one
        statement through the pool that commits: the new manager keeps that
        first connection idle, so the next `get_connection()` reuses it. */
    constructor()
      ensures State() == ExecuteSpec(PoolState([], 0, []), true).0
      ensures State() == PoolState([0], 1, [Commit(0)])
      ensures Valid(State())
    {
      idle, created, events := [], 0, [];
      new;
      var outcome := Execute(true);
    }

    /** `get_connection()`: the handle handed out was created and is no
        longer idle. */
    method GetConnection() returns (h: nat)
      requires Valid(State())
      modifies this
      ensures (State(), h) == Acquire(old(State()))
      ensures Valid(State()) && h < created && h !in idle
    {
      AcquireValid(State());
      if |idle| > 0 {
        h := idle[|idle| - 1];
        idle := idle[..|idle| - 1];
      } else {
        h := created;
        created := created + 1;
      }
    }

    /** `return_connection(h)`, for a handle taken from this manager and
        not yet given back. */
    method ReturnConnection(h: nat)
      requires Valid(State()) && h < created && h !in idle
      modifies this
      ensures State() == Release(old(State()), h)
      ensures Valid(State())
    {
      ReleaseValid(State(), h);
      if |idle| < DatabasePoolSize {
        idle := idle + [h];
      } else {
        events := events + [Close(h)];
      }
    }

    /** The body shared by `execute_query` and `execute_many`: the
        `try`/`except`/`finally` around one statement. */
    method Execute(ok: bool) returns (r: Outcome)
      requires Valid(State())
      modifies this
      ensures (State(), r) == ExecuteSpec(old(State()), ok)
      ensures Valid(State())
    {
      var h := GetConnection();
      if ok {
        events := events + [Commit(h)];
        r := Committed;
      } else {
        events := events + [Rollback(h)];
        r := Raised;
      }
      ReturnConnection(h);
    }

    /** `execute_query(query, ...)`; the rows fetched are left out. */
    method ExecuteQuery(ok: bool) returns (r: Outcome)
      requires Valid(State())
      modifies this
      ensures (State(), r) == ExecuteSpec(old(State()), ok)
      ensures Valid(State())
    {
      r := Execute(ok);
    }

    /** `execute_many(query, params_list)`. */
    method ExecuteMany(ok: bool) returns (r: Outcome)
      requires Valid(State())
      modifies this
      ensures (State(), r) == ExecuteSpec(old(State()), ok)
      ensures Valid(State())
    {
      r := Execute(ok);
    }
  }
}
