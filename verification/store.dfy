/**
 * The two tables of the bot's embedded database, held in memory.
 *
 * `users` is keyed by the user id (its primary key), so a `REPLACE INTO` is a
 * map update.  `tasks` is the table in rowid order; the AUTOINCREMENT counter
 * is `nextId`, the next id the table hands out.  Timestamps are opaque clock
 * values supplied by the caller.
 */
module TaskStore {
  import opened Wrappers

  type Uid = string

  /** A `datetime.now()` reading. */
  type Clock = int

  datatype Status = Pending | Completed

  datatype User = User(name: string, username: string, registeredOn: Clock)

  datatype Task = Task(id: nat, owner: Uid, text: string, createdAt: Clock, updatedAt: Clock, status: Status)

  /**
   * The text stored in the `status` column: distinct for the two statuses, and
   * free of the newline and bracket characters the task listing is built with.
   */
  function StatusText(s: Status): (r: string)
    ensures r == "completed" <==> s == Completed
    ensures r == "pending" <==> s == Pending
    ensures '\n' !in r && '[' !in r && ']' !in r
  {
    match s
    case Pending => "pending"
    case Completed => "completed"
  }

  /** Ids strictly increase along the table: rowid order is id order. */
  predicate IdsIncreasing(ts: seq<Task>)
  {
    forall i, j :: 0 <= i < j < |ts| ==> ts[i].id < ts[j].id
  }

  predicate IdsBelow(ts: seq<Task>, bound: nat)
  {
    forall i :: 0 <= i < |ts| ==> ts[i].id < bound
  }

  /**
   * `after` is `before` with rows possibly added at the end: no row is lost,
   * renumbered or moved back from completed to pending.
   */
  predicate TasksKept(before: seq<Task>, after: seq<Task>)
  {
    && |before| <= |after|
    && forall i :: 0 <= i < |before| ==>
      after[i].id == before[i].id && (before[i].status == Completed ==> after[i].status == Completed)
  }

  /** `SELECT ... FROM tasks WHERE user_id = ?`, in table order. */
  function OwnedBy(ts: seq<Task>, uid: Uid): (r: seq<Task>)
    ensures forall t :: t in r <==> t in ts && t.owner == uid
    ensures |r| <= |ts|
    decreases |ts|
  {
    if ts == [] then []
    else if ts[0].owner == uid then [ts[0]] + OwnedBy(ts[1..], uid)
    else OwnedBy(ts[1..], uid)
  }

  /** Inserting a row extends its owner's listing by that row and no other listing. */
  lemma {:induction false} OwnedByAppend(ts: seq<Task>, t: Task, uid: Uid)
    ensures OwnedBy(ts + [t], uid) == OwnedBy(ts, uid) + (if t.owner == uid then [t] else [])
    decreases |ts|
  {
    if ts != [] {
      OwnedByAppend(ts[1..], t, uid);
      assert (ts + [t])[1..] == ts[1..] + [t];
    }
  }

  /** The row as the completion `UPDATE` leaves it: status and `updated_at` set, the rest kept. */
  function CompletedRow(t: Task, now: Clock): (r: Task)
    ensures r.status == Completed && r.updatedAt == now
    ensures r.id == t.id && r.owner == t.owner && r.text == t.text && r.createdAt == t.createdAt
  {
    t.(status := Completed, updatedAt := now)
  }

  /** `UPDATE tasks SET status='completed', updated_at=? WHERE id=?`. */
  function MarkCompleted(ts: seq<Task>, tid: int, now: Clock): (r: seq<Task>)
    ensures |r| == |ts|
    ensures forall i :: 0 <= i < |ts| ==>
      r[i].id == ts[i].id && r[i].owner == ts[i].owner && r[i].text == ts[i].text && r[i].createdAt == ts[i].createdAt
    decreases |ts|
  {
    if ts == [] then []
    else [if ts[0].id == tid then CompletedRow(ts[0], now) else ts[0]] + MarkCompleted(ts[1..], tid, now)
  }

  lemma {:induction false} MarkCompletedAt(ts: seq<Task>, tid: int, now: Clock, i: nat)
    requires i < |ts|
    ensures MarkCompleted(ts, tid, now)[i] == if ts[i].id == tid then CompletedRow(ts[i], now) else ts[i]
    decreases |ts|
  {
    if i > 0 {
      MarkCompletedAt(ts[1..], tid, now, i - 1);
    }
  }

  /** Only the row with the given id changes, and it becomes completed. */
  lemma MarkCompletedOnlyTarget(ts: seq<Task>, tid: int, now: Clock)
    ensures forall i :: 0 <= i < |ts| && ts[i].id != tid ==> MarkCompleted(ts, tid, now)[i] == ts[i]
    ensures forall i :: 0 <= i < |ts| && ts[i].id == tid ==>
      MarkCompleted(ts, tid, now)[i].status == Completed && MarkCompleted(ts, tid, now)[i].updatedAt == now
  {
    forall i | 0 <= i < |ts| {
      MarkCompletedAt(ts, tid, now, i);
    }
  }

  /** An id that no row carries leaves the table as it was. */
  lemma MarkCompletedAbsent(ts: seq<Task>, tid: int, now: Clock)
    requires forall i :: 0 <= i < |ts| ==> ts[i].id != tid
    ensures MarkCompleted(ts, tid, now) == ts
  {
    MarkCompletedOnlyTarget(ts, tid, now);
  }

  /** Completing twice is completing once, at the later time. */
  lemma MarkCompletedIdempotent(ts: seq<Task>, tid: int, first: Clock, second: Clock)
    ensures MarkCompleted(MarkCompleted(ts, tid, first), tid, second) == MarkCompleted(ts, tid, second)
  {
    var once := MarkCompleted(ts, tid, first);
    forall i | 0 <= i < |ts|
      ensures MarkCompleted(once, tid, second)[i] == MarkCompleted(ts, tid, second)[i]
    {
      MarkCompletedAt(ts, tid, first, i);
      MarkCompletedAt(once, tid, second, i);
      MarkCompletedAt(ts, tid, second, i);
    }
  }

  /** A completed row stays completed; a row is completed afterwards exactly when it was before or was the target. */
  lemma MarkCompletedNeverReopens(ts: seq<Task>, tid: int, now: Clock)
    ensures forall i :: 0 <= i < |ts| ==>
      (MarkCompleted(ts, tid, now)[i].status == Completed <==> ts[i].status == Completed || ts[i].id == tid)
  {
    forall i | 0 <= i < |ts| {
      MarkCompletedAt(ts, tid, now, i);
    }
  }

  /** Listing one owner's rows and completing commute. */
  lemma {:induction false} OwnedByMarkCompleted(ts: seq<Task>, tid: int, now: Clock, uid: Uid)
    ensures OwnedBy(MarkCompleted(ts, tid, now), uid) == MarkCompleted(OwnedBy(ts, uid), tid, now)
    decreases |ts|
  {
    if ts != [] {
      OwnedByMarkCompleted(ts[1..], tid, now, uid);
      var r := MarkCompleted(ts, tid, now);
      assert r[1..] == MarkCompleted(ts[1..], tid, now);
      if ts[0].owner == uid {
        assert OwnedBy(ts, uid)[1..] == OwnedBy(ts[1..], uid);
      }
    }
  }

  lemma IdsIncreasingUnique(ts: seq<Task>, s: Task, t: Task)
    requires IdsIncreasing(ts) && s in ts && t in ts && s.id == t.id
    ensures s == t
  {
    var i :| 0 <= i < |ts| && ts[i] == s;
    var j :| 0 <= j < |ts| && ts[j] == t;
    assert i == j;
  }

  lemma {:induction false} OwnedByIncreasing(ts: seq<Task>, uid: Uid)
    requires IdsIncreasing(ts)
    ensures IdsIncreasing(OwnedBy(ts, uid))
    decreases |ts|
  {
    if ts != [] {
      OwnedByIncreasing(ts[1..], uid);
      var rest := OwnedBy(ts[1..], uid);
      forall k | 0 <= k < |rest| ensures ts[0].id < rest[k].id {
        assert rest[k] in ts[1..];
      }
    }
  }

  lemma HeadBelowTail(a: seq<Task>, t: Task)
    requires IdsIncreasing(a) && a != [] && t in a[1..]
    ensures a[0].id < t.id
  {
    var k :| 0 <= k < |a[1..]| && a[1..][k] == t;
    assert a[k + 1] == t;
  }

  lemma SameHead(a: seq<Task>, b: seq<Task>)
    requires IdsIncreasing(a) && IdsIncreasing(b) && a != [] && b != []
    requires forall t :: t in a <==> t in b
    ensures a[0] == b[0]
  {
    assert a[0] in b;
    assert b[0] in a;
    var j :| 0 <= j < |b| && b[j] == a[0];
    var i :| 0 <= i < |a| && a[i] == b[0];
    assert a[0].id <= a[i].id;
    assert b[0].id <= b[j].id;
  }

  /**
   * Two id-ordered sequences with the same elements are equal: the listing is
   * fully determined by "exactly these rows, in ascending id order".
   */
  lemma {:induction false} SameMembersIncreasing(a: seq<Task>, b: seq<Task>)
    requires IdsIncreasing(a) && IdsIncreasing(b)
    requires forall t :: t in a <==> t in b
    ensures a == b
    decreases |a|
  {
    assert a != [] ==> a[0] in b;
    assert b != [] ==> b[0] in a;
    if a != [] && b != [] {
      SameHead(a, b);
      forall t ensures t in a[1..] <==> t in b[1..] {
        if t in a[1..] {
          HeadBelowTail(a, t);
          assert t in b && t != b[0];
          assert b == [b[0]] + b[1..];
        }
        if t in b[1..] {
          HeadBelowTail(b, t);
          assert t in a && t != a[0];
          assert a == [a[0]] + a[1..];
        }
      }
      SameMembersIncreasing(a[1..], b[1..]);
      assert a == [a[0]] + a[1..];
      assert b == [b[0]] + b[1..];
    }
  }

  /** Any id-ordered sequence holding exactly one owner's rows is that owner's listing. */
  lemma OwnedByCharacterized(ts: seq<Task>, uid: Uid, r: seq<Task>)
    requires IdsIncreasing(ts) && IdsIncreasing(r)
    requires forall t :: t in r <==> t in ts && t.owner == uid
    ensures r == OwnedBy(ts, uid)
  {
    OwnedByIncreasing(ts, uid);
    SameMembersIncreasing(r, OwnedBy(ts, uid));
  }

  /** In an id-unique listing, completing one row's id replaces exactly that row. */
  lemma MarkCompletedUniqueAt(ts: seq<Task>, k: nat, now: Clock)
    requires IdsIncreasing(ts) && k < |ts|
    ensures MarkCompleted(ts, ts[k].id, now) == ts[k := CompletedRow(ts[k], now)]
  {
    forall i | 0 <= i < |ts|
      ensures MarkCompleted(ts, ts[k].id, now)[i] == ts[k := CompletedRow(ts[k], now)][i]
    {
      MarkCompletedAt(ts, ts[k].id, now, i);
    }
  }

  /** Completing a row that one user owns leaves every other user's listing unchanged. */
  lemma MarkCompletedOtherOwner(ts: seq<Task>, t: Task, now: Clock, v: Uid)
    requires IdsIncreasing(ts) && t in ts && t.owner != v
    ensures OwnedBy(MarkCompleted(ts, t.id, now), v) == OwnedBy(ts, v)
  {
    var mine := OwnedBy(ts, v);
    forall i | 0 <= i < |mine| ensures mine[i].id != t.id {
      if mine[i].id == t.id {
        IdsIncreasingUnique(ts, mine[i], t);
      }
    }
    OwnedByMarkCompleted(ts, t.id, now, v);
    MarkCompletedAbsent(mine, t.id, now);
  }

  class Store {
    var users: map<Uid, User>
    var tasks: seq<Task>
    /** The AUTOINCREMENT sequence: the id the next inserted row receives. */
    var nextId: nat

    ghost predicate Valid()
      reads this
    {
      1 <= nextId && IdsIncreasing(tasks) && IdsBelow(tasks, nextId)
    }

    /** `setup_db` on a fresh database file: both tables exist and are empty. */
    constructor ()
      ensures Valid()
      ensures users == map[] && tasks == [] && nextId == 1
    {
      users := map[];
      tasks := [];
      nextId := 1;
    }

    /** `get_user`: the row for `uid`, or nothing. */
    function GetUser(uid: Uid): (r: Option<User>)
      reads this
      ensures r.Some? <==> uid in users
      ensures r.Some? ==> r.value == users[uid]
    {
      if uid in users then Some(users[uid]) else None
    }

    /** `register_user`: `REPLACE INTO users`, an upsert on the primary key. */
    method RegisterUser(uid: Uid, name: string, username: string, now: Clock)
      requires Valid()
      modifies this
      ensures Valid()
      ensures users == old(users)[uid := User(name, username, now)]
      ensures tasks == old(tasks) && nextId == old(nextId)
    {
      users := users[uid := User(name, username, now)];
    }

    /** `add_task`: one new pending row with a fresh id; the old rows are untouched. */
    method AddTask(uid: Uid, text: string, now: Clock)
      requires Valid()
      modifies this
      ensures Valid()
      ensures tasks == old(tasks) + [Task(old(nextId), uid, text, now, now, Pending)]
      ensures forall i :: 0 <= i < |old(tasks)| ==> old(tasks)[i].id < tasks[|tasks| - 1].id
      ensures TasksKept(old(tasks), tasks)
      ensures users == old(users) && nextId == old(nextId) + 1
      ensures GetTasks(uid) == old(GetTasks(uid)) + [tasks[|tasks| - 1]]
      ensures forall v :: v != uid ==> GetTasks(v) == old(GetTasks(v))
    {
      OwnedByAppend(tasks, Task(nextId, uid, text, now, now, Pending), uid);
      forall v | v != uid {
        OwnedByAppend(tasks, Task(nextId, uid, text, now, now, Pending), v);
      }
      tasks := tasks + [Task(nextId, uid, text, now, now, Pending)];
      nextId := nextId + 1;
    }

    /** `get_tasks`: exactly the rows `uid` owns, in ascending id order. */
    function GetTasks(uid: Uid): (r: seq<Task>)
      reads this
      ensures forall t :: t in r <==> t in tasks && t.owner == uid
      ensures Valid() ==> IdsIncreasing(r)
    {
      assert Valid() ==> IdsIncreasing(OwnedBy(tasks, uid)) by {
        if Valid() { OwnedByIncreasing(tasks, uid); }
      }
      OwnedBy(tasks, uid)
    }

    /** `complete_task`: the row with id `tid`, if any, becomes completed. */
    method CompleteTask(tid: int, now: Clock)
      requires Valid()
      modifies this
      ensures Valid()
      ensures tasks == MarkCompleted(old(tasks), tid, now)
      ensures users == old(users) && nextId == old(nextId)
      ensures TasksKept(old(tasks), tasks)
    {
      MarkCompletedNeverReopens(tasks, tid, now);
      tasks := MarkCompleted(tasks, tid, now);
    }
  }
}
