/**
 * One pass of the reminder poller: select the tasks whose reminder is due and
 * not yet sent, and for each one resolve the assignee, send the reminder
 * through the SMS module, and only after a successful send mark the task's
 * reminder as sent and create a notification. One task's failure never stops
 * the pass, and a failing task query is swallowed.
 *
 * The SMS gateway and the user lookup are outside the model: the gateway is a
 * function telling whether it accepts a message, the lookup a function from
 * user id to its answer. The task table is a sequence of rows in the order the
 * query returns them.
 */
module Reminder {
  import opened Wrappers
  import opened Schema
  import Text

  /** How the SMS module's `sendTaskReminder(task, user)` ends. */
  datatype SmsOutcome =
    | NoPhone    // the user has no phone number: it returns without calling the gateway
    | SmsSent    // the gateway accepted the message
    | SmsFailed  // the gateway failed: it throws 'Failed to send SMS reminder'

  /** The SMS module's `sendTaskReminder`, given whether the gateway accepts the message. */
  function SmsSend(task: Task, user: User, gatewayAccepts: (Task, User) -> bool): (o: SmsOutcome)
    ensures o == NoPhone <==> !Text.Truthy(user.phoneNumber)
    ensures o == SmsFailed <==> Text.Truthy(user.phoneNumber) && !gatewayAccepts(task, user)
  {
    if !Text.Truthy(user.phoneNumber) then NoPhone
    else if gatewayAccepts(task, user) then SmsSent
    else SmsFailed
  }

  /** What `storage.getUser(id)` gives: the user, nothing, or an exception. */
  datatype UserLookup = Found(user: User) | NotFound | LookupThrew

  /** The externally visible steps of a pass, in the order they happen. */
  datatype Effect =
    | GatewaySend(taskId: int, userId: int)       // the SMS module calls the gateway
    | MarkReminderSent(taskId: int)               // UPDATE tasks SET smsReminderSent = true WHERE id = taskId
    | CreateNotification(notification: InsertNotification)

  /** The query's four conditions; `lt` on a null reminder time is not true. There is no lower bound. */
  predicate Due(t: Task, now: Timestamp) {
    !t.smsReminderSent &&
    t.reminderTime.Some? && t.reminderTime.value < now &&
    !t.completed &&
    t.assignedTo.Some?
  }

  /** The rows the query returns, in table order. */
  function SelectPending(rows: seq<Task>, now: Timestamp): (r: seq<Task>)
    ensures forall t :: t in r <==> t in rows && Due(t, now)
    ensures |r| <= |rows|
  {
    if rows == [] then []
    else if Due(rows[0], now) then [rows[0]] + SelectPending(rows[1..], now)
    else SelectPending(rows[1..], now)
  }

  /** A reminder that became due any time in the past is still selected. */
  lemma OverdueRemindersSelected(t: Task, now: Timestamp, age: nat)
    requires !t.smsReminderSent && !t.completed && t.assignedTo.Some? && age > 0
    ensures t.(reminderTime := Some(now - age)) in SelectPending([t.(reminderTime := Some(now - age))], now)
  {
  }

  /** `!task.assignedTo` is false: an assignee id of 0 counts as none. */
  predicate HasAssignee(t: Task) {
    t.assignedTo.Some? && t.assignedTo.value != 0
  }

  function ReminderMessage(title: string): string {
    "Reminder: Task \"" + title + "\" is due soon."
  }

  /** The notification created for a reminded task. */
  function ReminderNotification(t: Task, u: User): InsertNotification {
    InsertNotification(t.id, u.id, ReminderMessage(t.title), None)
  }

  /** The task gets its reminder: it has an assignee, the assignee is found and the send did not throw. */
  predicate Reminded(t: Task, lookup: int -> UserLookup, gatewayAccepts: (Task, User) -> bool) {
    HasAssignee(t) && lookup(t.assignedTo.value).Found? &&
    SmsSend(t, lookup(t.assignedTo.value).user, gatewayAccepts) != SmsFailed
  }

  /** The effects of the loop body for one task. */
  function TaskEffects(t: Task, lookup: int -> UserLookup, gatewayAccepts: (Task, User) -> bool): (r: seq<Effect>)
    ensures |r| <= 3
    ensures !HasAssignee(t) || !lookup(t.assignedTo.value).Found? ==> r == []
    ensures MarkReminderSent(t.id) in r <==> Reminded(t, lookup, gatewayAccepts)
  {
    if !HasAssignee(t) then []
    else match lookup(t.assignedTo.value)
      case NotFound => []
      case LookupThrew => []
      case Found(u) =>
        var send := if Text.Truthy(u.phoneNumber) then [GatewaySend(t.id, u.id)] else [];
        if SmsSend(t, u, gatewayAccepts) == SmsFailed then send
        else send + [MarkReminderSent(t.id), CreateNotification(ReminderNotification(t, u))]
  }

  /**
   * The loop body for one task does one of four things: nothing (no assignee,
   * or the lookup failed), only the send (the send threw), or marks the task
   * and creates its notification, after the send when the user has a phone
   * number. Marking and the notification happen exactly when the task is
   * reminded; the notification is for the task and its assignee and says
   * that the task is due soon.
   */
  lemma TaskEffectsShape(t: Task, lookup: int -> UserLookup, gatewayAccepts: (Task, User) -> bool)
    ensures var e := TaskEffects(t, lookup, gatewayAccepts);
      (!Reminded(t, lookup, gatewayAccepts) ==> e == [] || (|e| == 1 && e[0].GatewaySend?)) &&
      (Reminded(t, lookup, gatewayAccepts) ==>
         var u := lookup(t.assignedTo.value).user;
         e == (if Text.Truthy(u.phoneNumber) then [GatewaySend(t.id, u.id)] else []) +
              [MarkReminderSent(t.id), CreateNotification(InsertNotification(t.id, u.id, ReminderMessage(t.title), None))])
    ensures !HasAssignee(t) || !lookup(t.assignedTo.value).Found? ==> TaskEffects(t, lookup, gatewayAccepts) == []
  {
  }

  /** The effects of the whole loop over `pending`, defined by its last iteration. */
  function PassEffects(pending: seq<Task>, lookup: int -> UserLookup, gatewayAccepts: (Task, User) -> bool): (r: seq<Effect>)
    ensures |r| <= 3 * |pending|
  {
    if pending == [] then []
    else PassEffects(pending[..|pending| - 1], lookup, gatewayAccepts) +
         TaskEffects(pending[|pending| - 1], lookup, gatewayAccepts)
  }

  /** `db.update(tasks).set({ smsReminderSent: true }).where(eq(tasks.id, id))` */
  function MarkRow(rows: seq<Task>, id: int): (r: seq<Task>)
    ensures |r| == |rows|
    ensures forall k :: 0 <= k < |rows| ==>
      r[k].smsReminderSent == (rows[k].smsReminderSent || rows[k].id == id) &&
      r[k].(smsReminderSent := rows[k].smsReminderSent) == rows[k]
  {
    seq(|rows|, k requires 0 <= k < |rows| =>
      if rows[k].id == id then rows[k].(smsReminderSent := true) else rows[k])
  }

  /** The table after the loop over `pending`. */
  function PassRows(rows: seq<Task>, pending: seq<Task>, lookup: int -> UserLookup,
                    gatewayAccepts: (Task, User) -> bool): (r: seq<Task>)
    ensures |r| == |rows|
    ensures forall k :: 0 <= k < |rows| ==> r[k].id == rows[k].id
  {
    if pending == [] then rows
    else
      var before := PassRows(rows, pending[..|pending| - 1], lookup, gatewayAccepts);
      var t := pending[|pending| - 1];
      if Reminded(t, lookup, gatewayAccepts) then MarkRow(before, t.id) else before
  }

  /** Some task of `pending` with id `id` got its reminder. */
  predicate SomeReminded(pending: seq<Task>, id: int, lookup: int -> UserLookup,
                         gatewayAccepts: (Task, User) -> bool) {
    exists t :: t in pending && t.id == id && Reminded(t, lookup, gatewayAccepts)
  }

  /**
   * Nothing else changes: a row of the table is changed by the pass only if
   * a task with its id was reminded, and then only its smsReminderSent flag,
   * which becomes true. A task whose send threw, whose assignee is missing or
   * could not be found keeps its flag.
   */
  lemma {:induction false} PassChangesOnlyReminded(rows: seq<Task>, pending: seq<Task>,
                                                   lookup: int -> UserLookup, gatewayAccepts: (Task, User) -> bool)
    ensures var after := PassRows(rows, pending, lookup, gatewayAccepts);
      |after| == |rows| &&
      forall k :: 0 <= k < |rows| ==>
        after[k] == if SomeReminded(pending, rows[k].id, lookup, gatewayAccepts)
                    then rows[k].(smsReminderSent := true) else rows[k]
  {
    if pending != [] {
      var init := pending[..|pending| - 1];
      var t := pending[|pending| - 1];
      PassChangesOnlyReminded(rows, init, lookup, gatewayAccepts);
      assert pending == init + [t];
      var after := PassRows(rows, pending, lookup, gatewayAccepts);
      forall k | 0 <= k < |rows|
        ensures after[k] == if SomeReminded(pending, rows[k].id, lookup, gatewayAccepts)
                            then rows[k].(smsReminderSent := true) else rows[k]
      {
        if SomeReminded(init, rows[k].id, lookup, gatewayAccepts) {
          var w :| w in init && w.id == rows[k].id && Reminded(w, lookup, gatewayAccepts);
          assert w in pending;
        }
        if SomeReminded(pending, rows[k].id, lookup, gatewayAccepts) && !SomeReminded(init, rows[k].id, lookup, gatewayAccepts) {
          var w :| w in pending && w.id == rows[k].id && Reminded(w, lookup, gatewayAccepts);
          assert w == t;
        }
      }
    }
  }

  /**
   * Isolation: the loop's effects over two runs of tasks are those of the
   * first followed by those of the second, whatever happened in the first;
   * a failing task does not stop the tasks after it.
   */
  lemma {:induction false} PassEffectsAppend(p: seq<Task>, q: seq<Task>,
                                             lookup: int -> UserLookup, gatewayAccepts: (Task, User) -> bool)
    ensures PassEffects(p + q, lookup, gatewayAccepts) ==
            PassEffects(p, lookup, gatewayAccepts) + PassEffects(q, lookup, gatewayAccepts)
  {
    if q != [] {
      var q' := q[..|q| - 1];
      assert (p + q)[..|p + q| - 1] == p + q';
      assert (p + q)[|p + q| - 1] == q[|q| - 1];
      PassEffectsAppend(p, q', lookup, gatewayAccepts);
    } else {
      assert p + q == p;
    }
  }

  /** The number of notifications `effects` creates for task `id`. */
  function NotificationsFor(effects: seq<Effect>, id: int): nat {
    if effects == [] then 0
    else (if effects[0].CreateNotification? && effects[0].notification.taskId == id then 1 else 0)
         + NotificationsFor(effects[1..], id)
  }

  /** The number of tasks of `pending` with id `id` that got their reminder. */
  function RemindedCount(pending: seq<Task>, id: int, lookup: int -> UserLookup,
                         gatewayAccepts: (Task, User) -> bool): nat {
    if pending == [] then 0
    else RemindedCount(pending[..|pending| - 1], id, lookup, gatewayAccepts) +
         (if pending[|pending| - 1].id == id && Reminded(pending[|pending| - 1], lookup, gatewayAccepts) then 1 else 0)
  }

  lemma {:induction false} NotificationsForAppend(a: seq<Effect>, b: seq<Effect>, id: int)
    ensures NotificationsFor(a + b, id) == NotificationsFor(a, id) + NotificationsFor(b, id)
  {
    if a != [] {
      assert (a + b)[1..] == a[1..] + b;
      NotificationsForAppend(a[1..], b, id);
    } else {
      assert a + b == b;
    }
  }

  /**
   * Exactly one notification per reminder: the pass creates, for each task
   * id, as many notifications as tasks with that id were reminded, so one
   * for a reminded task whose id occurs once and none for any other.
   */
  lemma {:induction false} OneNotificationPerReminder(pending: seq<Task>, id: int,
                                                      lookup: int -> UserLookup, gatewayAccepts: (Task, User) -> bool)
    ensures NotificationsFor(PassEffects(pending, lookup, gatewayAccepts), id) ==
            RemindedCount(pending, id, lookup, gatewayAccepts)
  {
    if pending != [] {
      var t := pending[|pending| - 1];
      OneNotificationPerReminder(pending[..|pending| - 1], id, lookup, gatewayAccepts);
      NotificationsForAppend(PassEffects(pending[..|pending| - 1], lookup, gatewayAccepts),
                             TaskEffects(t, lookup, gatewayAccepts), id);
      var e := TaskEffects(t, lookup, gatewayAccepts);
      if Reminded(t, lookup, gatewayAccepts) {
        var u := lookup(t.assignedTo.value).user;
        var send: seq<Effect> := if Text.Truthy(u.phoneNumber) then [GatewaySend(t.id, u.id)] else [];
        var tail := [MarkReminderSent(t.id), CreateNotification(ReminderNotification(t, u))];
        assert e == send + tail;
        NotificationsForAppend(send, tail, id);
        assert NotificationsFor(send, id) == 0;
        assert tail[1..][1..] == [];
      } else {
        assert NotificationsFor(e, id) == 0 by {
          if e != [] { assert e[1..] == []; }
        }
      }
    }
  }

  /** The task an effect is about. */
  function EffectTaskId(e: Effect): int {
    match e
    case GatewaySend(id, _) => id
    case MarkReminderSent(id) => id
    case CreateNotification(n) => n.taskId
  }

  /**
   * A pass only acts on the tasks it processes: every effect is about one of
   * them, and marking or notifying only about a reminded one.
   */
  lemma {:induction false} PassEffectsAbout(pending: seq<Task>, lookup: int -> UserLookup,
                                            gatewayAccepts: (Task, User) -> bool)
    ensures forall e :: e in PassEffects(pending, lookup, gatewayAccepts) ==>
      exists t :: t in pending && t.id == EffectTaskId(e) && (e.GatewaySend? || Reminded(t, lookup, gatewayAccepts))
  {
    if pending != [] {
      var init := pending[..|pending| - 1];
      var t := pending[|pending| - 1];
      PassEffectsAbout(init, lookup, gatewayAccepts);
      forall e | e in PassEffects(pending, lookup, gatewayAccepts)
        ensures exists w :: w in pending && w.id == EffectTaskId(e) && (e.GatewaySend? || Reminded(w, lookup, gatewayAccepts))
      {
        if e in PassEffects(init, lookup, gatewayAccepts) {
          var w :| w in init && w.id == EffectTaskId(e) && (e.GatewaySend? || Reminded(w, lookup, gatewayAccepts));
          assert w in pending;
        } else {
          assert e in TaskEffects(t, lookup, gatewayAccepts);
          assert t.id == EffectTaskId(e);
        }
      }
    }
  }

  /**
   * Idempotence: after a pass, a later pass over the updated table (at any
   * time) selects no task that the first pass reminded, so it sends nothing
   * for them, marks nothing and creates no notification for them.
   */
  lemma SecondPassSkipsReminded(rows: seq<Task>, now: Timestamp, later: Timestamp,
                                lookup: int -> UserLookup, gatewayAccepts: (Task, User) -> bool)
    ensures var first := SelectPending(rows, now);
      var second := SelectPending(PassRows(rows, first, lookup, gatewayAccepts), later);
      (forall t :: t in second ==> !SomeReminded(first, t.id, lookup, gatewayAccepts)) &&
      (forall e :: e in PassEffects(second, lookup, gatewayAccepts) ==>
         !SomeReminded(first, EffectTaskId(e), lookup, gatewayAccepts))
  {
    var first := SelectPending(rows, now);
    var after := PassRows(rows, first, lookup, gatewayAccepts);
    var second := SelectPending(after, later);
    PassChangesOnlyReminded(rows, first, lookup, gatewayAccepts);
    forall t | t in second ensures !SomeReminded(first, t.id, lookup, gatewayAccepts) {
      var k :| 0 <= k < |after| && after[k] == t;
      assert t.id == rows[k].id;
    }
    PassEffectsAbout(second, lookup, gatewayAccepts);
  }

  /** One more iteration of the loop: the effects and the table after task `t`, processed after `done`. */
  lemma PassSnoc(rows: seq<Task>, done: seq<Task>, t: Task, lookup: int -> UserLookup,
                 gatewayAccepts: (Task, User) -> bool)
    ensures PassEffects(done + [t], lookup, gatewayAccepts) ==
            PassEffects(done, lookup, gatewayAccepts) + TaskEffects(t, lookup, gatewayAccepts)
    ensures var before := PassRows(rows, done, lookup, gatewayAccepts);
      PassRows(rows, done + [t], lookup, gatewayAccepts) ==
        if Reminded(t, lookup, gatewayAccepts) then MarkRow(before, t.id) else before
  {
    assert (done + [t])[..|done + [t]| - 1] == done;
  }

  /** The loop invariant of RemindEach is kept by one more call of RemindTask. */
  lemma PassStep(rows0: seq<Task>, log0: seq<Effect>, done: seq<Task>, t: Task,
                 rows: seq<Task>, log: seq<Effect>, rows': seq<Task>, log': seq<Effect>,
                 lookup: int -> UserLookup, gatewayAccepts: (Task, User) -> bool)
    requires rows == PassRows(rows0, done, lookup, gatewayAccepts)
    requires log == log0 + PassEffects(done, lookup, gatewayAccepts)
    requires rows' == if Reminded(t, lookup, gatewayAccepts) then MarkRow(rows, t.id) else rows
    requires log' == log + TaskEffects(t, lookup, gatewayAccepts)
    ensures rows' == PassRows(rows0, done + [t], lookup, gatewayAccepts)
    ensures log' == log0 + PassEffects(done + [t], lookup, gatewayAccepts)
  {
    PassSnoc(rows0, done, t, lookup, gatewayAccepts);
    ConcatAssociative(log0, PassEffects(done, lookup, gatewayAccepts), TaskEffects(t, lookup, gatewayAccepts));
  }

  /**
   * The task table and the log of what the pass did: the state
   * `checkAndSendReminders` reads and changes.
   */
  class TaskTable {
    /** The rows of `tasks`, in the order the query returns them. */
    var rows: seq<Task>
    /** Gateway sends, flag updates and notification inserts, oldest first. */
    var log: seq<Effect>

    constructor (rows: seq<Task>)
      ensures this.rows == rows && log == []
    {
      this.rows := rows;
      log := [];
    }

    /**
     * The body of the loop for one task, inside its try block: a missing
     * assignee skips the task, a lookup that finds no user or throws ends the
     * iteration, and a send that throws ends it before the flag is set.
     */
    method RemindTask(task: Task, lookup: int -> UserLookup, gatewayAccepts: (Task, User) -> bool)
      modifies this
      ensures rows == if Reminded(task, lookup, gatewayAccepts) then MarkRow(old(rows), task.id) else old(rows)
      ensures log == old(log) + TaskEffects(task, lookup, gatewayAccepts)
    {
      if !HasAssignee(task) {
        return;
      }
      var user := lookup(task.assignedTo.value);
      if user.Found? {
        var u := user.user;
        ghost var send: seq<Effect> := if Text.Truthy(u.phoneNumber) then [GatewaySend(task.id, u.id)] else [];
        if Text.Truthy(u.phoneNumber) {
          log := log + [GatewaySend(task.id, u.id)];
        }
        assert log == old(log) + send;
        var sent := SmsSend(task, u, gatewayAccepts);
        if sent != SmsFailed {
          rows := MarkRow(rows, task.id);
          log := log + [MarkReminderSent(task.id)];
          log := log + [CreateNotification(ReminderNotification(task, u))];
        }
      }
    }

    /**
     * `checkAndSendReminders()` run at `now`. When the task query fails the
     * error is swallowed and nothing changes; otherwise every selected task
     * is processed in turn, a throwing lookup or send ending only that task's
     * iteration.
     */
    method CheckAndSendReminders(now: Timestamp, queryFails: bool,
                                 lookup: int -> UserLookup, gatewayAccepts: (Task, User) -> bool)
      modifies this
      ensures queryFails ==> rows == old(rows) && log == old(log)
      ensures !queryFails ==>
        var pending := SelectPending(old(rows), now);
        rows == PassRows(old(rows), pending, lookup, gatewayAccepts) &&
        log == old(log) + PassEffects(pending, lookup, gatewayAccepts)
    {
      if queryFails {
        return;
      }
      var pendingReminders := SelectPending(rows, now);
      RemindEach(pendingReminders, lookup, gatewayAccepts);
    }

    /** The `for` loop over the selected tasks, each processed by RemindTask in turn. */
    method RemindEach(pendingReminders: seq<Task>, lookup: int -> UserLookup, gatewayAccepts: (Task, User) -> bool)
      modifies this
      ensures rows == PassRows(old(rows), pendingReminders, lookup, gatewayAccepts)
      ensures log == old(log) + PassEffects(pendingReminders, lookup, gatewayAccepts)
    {
      ghost var rows0, log0 := rows, log;
      ghost var processed: seq<Task> := [];
      var i := 0;
      while i < |pendingReminders|
        invariant 0 <= i <= |pendingReminders| && processed == pendingReminders[..i]
        invariant rows == PassRows(rows0, processed, lookup, gatewayAccepts)
        invariant log == log0 + PassEffects(processed, lookup, gatewayAccepts)
      {
        var task := pendingReminders[i];
        ghost var rows1, log1 := rows, log;
        RemindTask(task, lookup, gatewayAccepts);
        PassStep(rows0, log0, processed, task, rows1, log1, rows, log, lookup, gatewayAccepts);
        assert pendingReminders[..i + 1] == processed + [task];
        processed := processed + [task];
        i := i + 1;
      }
      assert pendingReminders[..i] == pendingReminders;
    }
  }
}
