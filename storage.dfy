/**
 * The in-memory store: two JavaScript `Map`s of users and tasks keyed by id,
 * each with a post-incremented id counter. The store is seeded with three
 * family members.
 */
module Storage {
  import opened Wrappers
  import opened Schema
  import Text

  /** A user as the store keeps it: `{ id, ...insertUser }`. */
  datatype StoredUser = StoredUser(id: int, fields: InsertUser)

  /** A task as the store keeps it: `{ id, ...insertTask }`. */
  datatype StoredTask = StoredTask(id: int, fields: InsertTask)

  /** `Partial<InsertTask>`: each field is `Some` exactly when the update supplies it. */
  datatype TaskPatch = TaskPatch(
    title: Option<string>,
    description: Option<Option<string>>,
    assignedTo: Option<Option<int>>,
    completed: Option<Option<bool>>,
    priority: Option<Priority>,
    dueDate: Option<Option<Timestamp>>,
    reminderTime: Option<Option<Timestamp>>,
    recurrencePattern: Option<Option<RecurrencePattern>>,
    recurrenceEndDate: Option<Option<Timestamp>>,
    isRecurring: Option<Option<bool>>)

  const NoChanges := TaskPatch(None, None, None, None, None, None, None, None, None, None)

  /** The supplied value if there is one, else the existing one. */
  function Pick<T>(supplied: Option<T>, existing: T): T {
    match supplied
    case Some(v) => v
    case None => existing
  }

  /** `{ ...existing, ...updates }` */
  function Merge(t: InsertTask, p: TaskPatch): (r: InsertTask)
    ensures p == NoChanges ==> r == t
    // a supplied field replaces the existing one
    ensures p.title.Some? ==> r.title == p.title.value
    ensures p.description.Some? ==> r.description == p.description.value
    ensures p.assignedTo.Some? ==> r.assignedTo == p.assignedTo.value
    ensures p.completed.Some? ==> r.completed == p.completed.value
    ensures p.priority.Some? ==> r.priority == p.priority.value
    ensures p.dueDate.Some? ==> r.dueDate == p.dueDate.value
    ensures p.reminderTime.Some? ==> r.reminderTime == p.reminderTime.value
    ensures p.recurrencePattern.Some? ==> r.recurrencePattern == p.recurrencePattern.value
    ensures p.recurrenceEndDate.Some? ==> r.recurrenceEndDate == p.recurrenceEndDate.value
    ensures p.isRecurring.Some? ==> r.isRecurring == p.isRecurring.value
    // a field the update does not supply is kept
    ensures p.title.None? ==> r.title == t.title
    ensures p.description.None? ==> r.description == t.description
    ensures p.assignedTo.None? ==> r.assignedTo == t.assignedTo
    ensures p.completed.None? ==> r.completed == t.completed
    ensures p.priority.None? ==> r.priority == t.priority
    ensures p.dueDate.None? ==> r.dueDate == t.dueDate
    ensures p.reminderTime.None? ==> r.reminderTime == t.reminderTime
    ensures p.recurrencePattern.None? ==> r.recurrencePattern == t.recurrencePattern
    ensures p.recurrenceEndDate.None? ==> r.recurrenceEndDate == t.recurrenceEndDate
    ensures p.isRecurring.None? ==> r.isRecurring == t.isRecurring
  {
    InsertTask(
      Pick(p.title, t.title),
      Pick(p.description, t.description),
      Pick(p.assignedTo, t.assignedTo),
      Pick(p.completed, t.completed),
      Pick(p.priority, t.priority),
      Pick(p.dueDate, t.dueDate),
      Pick(p.reminderTime, t.reminderTime),
      Pick(p.recurrencePattern, t.recurrencePattern),
      Pick(p.recurrenceEndDate, t.recurrenceEndDate),
      Pick(p.isRecurring, t.isRecurring))
  }

  /** A patch that supplies every field of `u`. */
  function Everything(u: InsertTask): TaskPatch {
    TaskPatch(Some(u.title), Some(u.description), Some(u.assignedTo), Some(u.completed),
              Some(u.priority), Some(u.dueDate), Some(u.reminderTime), Some(u.recurrencePattern),
              Some(u.recurrenceEndDate), Some(u.isRecurring))
  }

  /** Applying `p` and then `q` is applying one patch in which `q`'s fields win. */
  function Then(p: TaskPatch, q: TaskPatch): TaskPatch {
    TaskPatch(
      if q.title.Some? then q.title else p.title,
      if q.description.Some? then q.description else p.description,
      if q.assignedTo.Some? then q.assignedTo else p.assignedTo,
      if q.completed.Some? then q.completed else p.completed,
      if q.priority.Some? then q.priority else p.priority,
      if q.dueDate.Some? then q.dueDate else p.dueDate,
      if q.reminderTime.Some? then q.reminderTime else p.reminderTime,
      if q.recurrencePattern.Some? then q.recurrencePattern else p.recurrencePattern,
      if q.recurrenceEndDate.Some? then q.recurrenceEndDate else p.recurrenceEndDate,
      if q.isRecurring.Some? then q.isRecurring else p.isRecurring)
  }

  /**
   * Merging overwrites exactly the supplied fields: an empty patch changes
   * nothing, a complete patch replaces everything, re-applying a patch changes
   * nothing more, and two patches in a row act as their combination.
   */
  lemma MergeLaws(t: InsertTask, u: InsertTask, p: TaskPatch, q: TaskPatch)
    ensures Merge(t, NoChanges) == t
    ensures Merge(t, Everything(u)) == u
    ensures Merge(Merge(t, p), p) == Merge(t, p)
    ensures Merge(Merge(t, p), q) == Merge(t, Then(p, q))
  {
  }

  /** Strictly increasing, so free of duplicates. */
  predicate Ascending(s: seq<int>) {
    forall i, j :: 0 <= i < j < |s| ==> s[i] < s[j]
  }

  /**
   * `order` is the iteration order of a `Map` with key set `keys` whose keys
   * are ids below `next` inserted in increasing order.
   */
  ghost predicate Indexed(keys: set<int>, order: seq<int>, next: int) {
    Ascending(order) &&
    (forall k :: k in keys <==> k in order) &&
    (forall i :: 0 <= i < |order| ==> 1 <= order[i] < next)
  }

  /** `order` without `x`: where `Map.delete(x)` leaves the iteration order. */
  function Without(order: seq<int>, x: int): (r: seq<int>)
    ensures forall k :: k in r <==> k in order && k != x
    ensures Ascending(order) ==> Ascending(r)
  {
    if order == [] then []
    else if order[0] == x then Without(order[1..], x)
    else
      var rest := Without(order[1..], x);
      assert Ascending(order) ==> Ascending([order[0]] + rest) by {
        if Ascending(order) {
          forall j | 0 <= j < |rest| ensures order[0] < rest[j] {
            assert rest[j] in order[1..];
          }
        }
      }
      [order[0]] + rest
  }

  lemma WithoutIndexed(keys: set<int>, order: seq<int>, next: int, x: int)
    requires Indexed(keys, order, next)
    ensures Indexed(keys - {x}, Without(order, x), next)
  {
    var r := Without(order, x);
    forall i | 0 <= i < |r| ensures 1 <= r[i] < next {
      assert r[i] in order;
    }
  }

  lemma AppendFresh(keys: set<int>, order: seq<int>, next: int)
    requires Indexed(keys, order, next) && next >= 1
    ensures Indexed(keys + {next}, order + [next], next + 1)
  {
  }

  const TaskNotFoundPrefix := "Task "
  const TaskNotFoundSuffix := " not found"

  function TaskNotFound(id: int): string {
    TaskNotFoundPrefix + Text.IntToString(id) + TaskNotFoundSuffix
  }

  /** The three seeded family members. */
  const Mom := InsertUser("Mom", "#FF69B4", None, None, None)
  const Dad := InsertUser("Dad", "#4169E1", None, None, None)
  const Kid := InsertUser("Kid", "#32CD32", None, None, None)

  class MemStorage {
    var users: map<int, StoredUser>
    var userOrder: seq<int>
    var tasks: map<int, StoredTask>
    var taskOrder: seq<int>
    var userCurrentId: int
    var taskCurrentId: int
    /** Every id the store has ever handed out, deleted or not. */
    ghost var userIdsIssued: set<int>
    ghost var taskIdsIssued: set<int>

    ghost predicate Valid()
      reads this
    {
      1 <= userCurrentId && 1 <= taskCurrentId &&
      Indexed(users.Keys, userOrder, userCurrentId) &&
      Indexed(tasks.Keys, taskOrder, taskCurrentId) &&
      (forall id :: id in users ==> users[id].id == id) &&
      (forall id :: id in tasks ==> tasks[id].id == id) &&
      users.Keys <= userIdsIssued && tasks.Keys <= taskIdsIssued &&
      (forall id :: id in userIdsIssued ==> id < userCurrentId) &&
      (forall id :: id in taskIdsIssued ==> id < taskCurrentId)
    }

    /** `new MemStorage()`: empty maps, counters at 1, then Mom, Dad and Kid as users 1, 2 and 3. */
    constructor ()
      ensures Valid()
      ensures users == map[1 := StoredUser(1, Mom), 2 := StoredUser(2, Dad), 3 := StoredUser(3, Kid)]
      ensures userOrder == [1, 2, 3] && userCurrentId == 4
      ensures tasks == map[] && taskOrder == [] && taskCurrentId == 1
    {
      users, userOrder, userCurrentId := map[], [], 1;
      tasks, taskOrder, taskCurrentId := map[], [], 1;
      userIdsIssued, taskIdsIssued := {}, {};
      new;
      var mom := CreateUser(Mom);
      assert mom.id == 1 && userCurrentId == 2;
      var dad := CreateUser(Dad);
      assert dad.id == 2 && userCurrentId == 3;
      var kid := CreateUser(Kid);
      assert kid.id == 3;
    }

    /** `Array.from(this.users.values())`: the stored users in insertion (= id) order. */
    method GetUsers() returns (r: seq<StoredUser>)
      requires Valid()
      ensures |r| == |userOrder| && forall i :: 0 <= i < |r| ==> r[i] == users[userOrder[i]]
      ensures forall id :: id in users ==> users[id] in r
      ensures forall u :: u in r ==> u.id in users && users[u.id] == u
      ensures forall i, j :: 0 <= i < j < |r| ==> r[i].id < r[j].id
    {
      r := [];
      var i := 0;
      while i < |userOrder|
        invariant 0 <= i <= |userOrder|
        invariant |r| == i && forall k :: 0 <= k < i ==> r[k] == users[userOrder[k]]
      {
        r := r + [users[userOrder[i]]];
        i := i + 1;
      }
      forall id | id in users ensures users[id] in r {
        var k :| 0 <= k < |userOrder| && userOrder[k] == id;
        assert r[k] == users[id];
      }
    }

    /** `createUser`: the current counter is the id, then the counter is incremented. */
    method CreateUser(ins: InsertUser) returns (u: StoredUser)
      requires Valid()
      modifies this
      ensures Valid()
      ensures u == StoredUser(old(userCurrentId), ins)
      ensures u.id !in old(userIdsIssued) && userIdsIssued == old(userIdsIssued) + {u.id}
      ensures users == old(users)[u.id := u] && userOrder == old(userOrder) + [u.id]
      ensures userCurrentId == old(userCurrentId) + 1
      ensures tasks == old(tasks) && taskOrder == old(taskOrder) && taskCurrentId == old(taskCurrentId)
      ensures taskIdsIssued == old(taskIdsIssued)
    {
      var id := userCurrentId;
      userCurrentId := userCurrentId + 1;
      u := StoredUser(id, ins);
      AppendFresh(users.Keys, userOrder, id);
      users := users[id := u];
      userOrder := userOrder + [id];
      userIdsIssued := userIdsIssued + {id};
    }

    /** `Array.from(this.tasks.values())`: the stored tasks in insertion (= id) order. */
    method GetTasks() returns (r: seq<StoredTask>)
      requires Valid()
      ensures |r| == |taskOrder| && forall i :: 0 <= i < |r| ==> r[i] == tasks[taskOrder[i]]
      ensures forall id :: id in tasks ==> tasks[id] in r
      ensures forall t :: t in r ==> t.id in tasks && tasks[t.id] == t
      ensures forall i, j :: 0 <= i < j < |r| ==> r[i].id < r[j].id
    {
      r := [];
      var i := 0;
      while i < |taskOrder|
        invariant 0 <= i <= |taskOrder|
        invariant |r| == i && forall k :: 0 <= k < i ==> r[k] == tasks[taskOrder[k]]
      {
        r := r + [tasks[taskOrder[i]]];
        i := i + 1;
      }
      forall id | id in tasks ensures tasks[id] in r {
        var k :| 0 <= k < |taskOrder| && taskOrder[k] == id;
        assert r[k] == tasks[id];
      }
    }

    /** `createTask`: stores and returns `{ id, ...insertTask }` under a never-used id. */
    method CreateTask(ins: InsertTask) returns (t: StoredTask)
      requires Valid()
      modifies this
      ensures Valid()
      ensures t == StoredTask(old(taskCurrentId), ins)
      ensures t.id !in old(taskIdsIssued) && taskIdsIssued == old(taskIdsIssued) + {t.id}
      ensures tasks == old(tasks)[t.id := t] && taskOrder == old(taskOrder) + [t.id]
      ensures taskCurrentId == old(taskCurrentId) + 1
      ensures users == old(users) && userOrder == old(userOrder) && userCurrentId == old(userCurrentId)
      ensures userIdsIssued == old(userIdsIssued)
    {
      var id := taskCurrentId;
      taskCurrentId := taskCurrentId + 1;
      t := StoredTask(id, ins);
      AppendFresh(tasks.Keys, taskOrder, id);
      tasks := tasks[id := t];
      taskOrder := taskOrder + [id];
      taskIdsIssued := taskIdsIssued + {id};
    }

    /**
     * `updateTask`: a missing id throws "Task <id> not found" and changes
     * nothing; otherwise the supplied fields overwrite the stored ones, the
     * task keeps its id and its place, and the stored result is returned.
     */
    method UpdateTask(id: int, updates: TaskPatch) returns (r: Result<StoredTask, string>)
      requires Valid()
      modifies this
      ensures Valid()
      ensures id !in old(tasks) ==> r == Err(TaskNotFound(id)) && tasks == old(tasks)
      ensures id in old(tasks) ==>
        r == Ok(StoredTask(id, Merge(old(tasks)[id].fields, updates))) && tasks == old(tasks)[id := r.value]
      ensures taskOrder == old(taskOrder) && taskCurrentId == old(taskCurrentId)
      ensures taskIdsIssued == old(taskIdsIssued)
      ensures users == old(users) && userOrder == old(userOrder) && userCurrentId == old(userCurrentId)
      ensures userIdsIssued == old(userIdsIssued)
    {
      if id !in tasks {
        return Err(TaskNotFound(id));
      }
      var existing := tasks[id];
      var updated := StoredTask(existing.id, Merge(existing.fields, updates));
      tasks := tasks[id := updated];
      r := Ok(updated);
    }

    /** `deleteTask`: removes that id only (a no-op for an absent id); the counter is untouched. */
    method DeleteTask(id: int)
      requires Valid()
      modifies this
      ensures Valid()
      ensures tasks == old(tasks) - {id} && taskOrder == Without(old(taskOrder), id)
      ensures taskCurrentId == old(taskCurrentId) && taskIdsIssued == old(taskIdsIssued)
      ensures users == old(users) && userOrder == old(userOrder) && userCurrentId == old(userCurrentId)
      ensures userIdsIssued == old(userIdsIssued)
    {
      WithoutIndexed(tasks.Keys, taskOrder, taskCurrentId, id);
      tasks := tasks - {id};
      taskOrder := Without(taskOrder, id);
    }
  }

  /**
   * Create, update and delete keep the store's invariant and never hand out
   * an id twice: after deleting a task, the next task gets a new id.
   */
  method CreateAfterDeleteGetsFreshId(s: MemStorage, a: InsertTask, b: InsertTask) returns (first: StoredTask, second: StoredTask)
    requires s.Valid()
    modifies s
    ensures s.Valid()
    ensures first.id != second.id && first.id !in s.tasks && second.id in s.tasks
    ensures second.fields == b
  {
    first := s.CreateTask(a);
    s.DeleteTask(first.id);
    second := s.CreateTask(b);
  }
}
