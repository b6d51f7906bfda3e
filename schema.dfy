/**
 * The shared data model: the users, tasks and notifications tables, their
 * column defaults, the enumerations, the insert schemas (which validate the
 * enumerations, apply their defaults and strip the columns a client may not
 * set) and the foreign-key delete rules.
 */
module Schema {
  import opened Wrappers

  /** A point in time; only its order matters to the model. */
  type Timestamp = int

  // ---------------------------------------------------------------- enums

  datatype Priority = Low | Medium | High

  const taskPriorities: seq<string> := ["low", "medium", "high"]

  function PriorityName(p: Priority): string {
    match p
    case Low => "low"
    case Medium => "medium"
    case High => "high"
  }

  /** `z.enum(taskPriorities)` */
  function ParsePriority(s: string): (r: Option<Priority>)
    ensures r.Some? <==> s in taskPriorities
    ensures r.Some? ==> PriorityName(r.value) == s
  {
    if s == "low" then Some(Low)
    else if s == "medium" then Some(Medium)
    else if s == "high" then Some(High)
    else None
  }

  lemma PriorityRoundTrip(p: Priority)
    ensures ParsePriority(PriorityName(p)) == Some(p)
  {
  }

  datatype RecurrencePattern = Daily | Weekly | Monthly

  const recurrencePatterns: seq<string> := ["daily", "weekly", "monthly"]

  function PatternName(p: RecurrencePattern): string {
    match p
    case Daily => "daily"
    case Weekly => "weekly"
    case Monthly => "monthly"
  }

  /** `z.enum(recurrencePatterns)` */
  function ParsePattern(s: string): (r: Option<RecurrencePattern>)
    ensures r.Some? <==> s in recurrencePatterns
    ensures r.Some? ==> PatternName(r.value) == s
  {
    if s == "daily" then Some(Daily)
    else if s == "weekly" then Some(Weekly)
    else if s == "monthly" then Some(Monthly)
    else None
  }

  lemma PatternRoundTrip(p: RecurrencePattern)
    ensures ParsePattern(PatternName(p)) == Some(p)
  {
  }

  datatype DeliveryStatus = Pending | Sent | Delivered | Failed

  const deliveryStatuses: seq<string> := ["pending", "sent", "delivered", "failed"]

  function StatusName(d: DeliveryStatus): (s: string)
    ensures s in deliveryStatuses
  {
    match d
    case Pending => "pending"
    case Sent => "sent"
    case Delivered => "delivered"
    case Failed => "failed"
  }

  /** The delivery statuses are exactly the names of the four DeliveryStatus values, each once. */
  lemma DeliveryStatusesExact(s: string)
    ensures s in deliveryStatuses <==> exists d :: StatusName(d) == s
    ensures forall d, e :: StatusName(d) == StatusName(e) ==> d == e
  {
    if s in deliveryStatuses {
      if s == "pending" { assert StatusName(Pending) == s; }
      else if s == "sent" { assert StatusName(Sent) == s; }
      else if s == "delivered" { assert StatusName(Delivered) == s; }
      else { assert StatusName(Failed) == s; }
    }
  }

  const preferences: seq<string> := ["sms", "whatsapp"]

  // --------------------------------------------------------------- tables

  /** A row of `users`. */
  datatype User = User(
    id: int,
    name: string,
    color: string,
    phoneNumber: Option<string>,
    notificationPreference: string,
    twoFactorSecret: Option<string>)

  /** A row of `tasks`. Text columns stay strings as stored. */
  datatype Task = Task(
    id: int,
    title: string,
    description: Option<string>,
    assignedTo: Option<int>,
    completed: bool,
    priority: string,
    dueDate: Option<Timestamp>,
    reminderTime: Option<Timestamp>,
    smsReminderSent: bool,
    recurrencePattern: Option<string>,
    recurrenceEndDate: Option<Timestamp>,
    parentTaskId: Option<int>,
    isRecurring: bool)

  /** A row of `notifications`. */
  datatype Notification = Notification(
    id: int,
    taskId: int,
    userId: int,
    message: string,
    createdAt: Timestamp,
    read: bool,
    deliveryStatus: string,
    messageSid: Option<string>,
    deliveryError: Option<string>,
    deliveryAttempts: int,
    lastAttemptAt: Option<Timestamp>)

  // -------------------------------------------------------- insert schemas

  /** A validated user insert (`InsertUser`); an absent field is `None`. */
  datatype InsertUser = InsertUser(
    name: string,
    color: string,
    phoneNumber: Option<string>,
    notificationPreference: Option<string>,
    twoFactorSecret: Option<string>)

  /**
   * `insertUserSchema.parse`: the preference must be "sms" or "whatsapp" and
   * defaults to "sms" when absent.
   */
  function ParseInsertUser(input: InsertUser): (r: Result<InsertUser, string>)
    ensures r.Ok? <==> (input.notificationPreference.None? || input.notificationPreference.value in preferences)
    ensures r.Ok? ==> r.value == input.(notificationPreference := Some(input.notificationPreference.GetOr("sms")))
  {
    match input.notificationPreference
    case None => Ok(input.(notificationPreference := Some("sms")))
    case Some(p) =>
      if p == "sms" || p == "whatsapp" then Ok(input) else Err("Invalid enum value")
  }

  /** The row the database stores for a user insert: the preference column defaults to "sms". */
  function UserRow(id: int, ins: InsertUser): (u: User)
    ensures u.id == id && u.name == ins.name && u.color == ins.color
    ensures u.phoneNumber == ins.phoneNumber && u.twoFactorSecret == ins.twoFactorSecret
    ensures ins.notificationPreference.None? ==> u.notificationPreference == "sms"
    ensures ins.notificationPreference.Some? ==> u.notificationPreference == ins.notificationPreference.value
  {
    User(id, ins.name, ins.color, ins.phoneNumber, ins.notificationPreference.GetOr("sms"), ins.twoFactorSecret)
  }

  /** Every user that passed the insert schema is stored with a preference of "sms" or "whatsapp". */
  lemma ParsedUserPreference(id: int, input: InsertUser)
    requires ParseInsertUser(input).Ok?
    ensures UserRow(id, ParseInsertUser(input).value).notificationPreference in preferences
  {
  }

  /**
   * What a client submits to create a task, before validation. It may carry
   * `id`, `smsReminderSent` and `parentTaskId`, which the schema strips.
   */
  datatype TaskInput = TaskInput(
    id: Option<int>,
    title: string,
    description: Option<string>,
    assignedTo: Option<int>,
    completed: Option<bool>,
    priority: Option<string>,
    dueDate: Option<Timestamp>,
    reminderTime: Option<Timestamp>,
    smsReminderSent: Option<bool>,
    recurrencePattern: Option<string>,
    recurrenceEndDate: Option<Timestamp>,
    parentTaskId: Option<int>,
    isRecurring: Option<bool>)

  /** A validated task insert (`InsertTask`): it has no id, smsReminderSent or parentTaskId. */
  datatype InsertTask = InsertTask(
    title: string,
    description: Option<string>,
    assignedTo: Option<int>,
    completed: Option<bool>,
    priority: Priority,
    dueDate: Option<Timestamp>,
    reminderTime: Option<Timestamp>,
    recurrencePattern: Option<RecurrencePattern>,
    recurrenceEndDate: Option<Timestamp>,
    isRecurring: Option<bool>)

  /**
   * `insertTaskSchema.parse`: priority must be low/medium/high and defaults to
   * medium; a recurrence pattern, when given, must be daily/weekly/monthly.
   */
  function ParseInsertTask(input: TaskInput): (r: Result<InsertTask, string>)
    ensures r.Ok? <==>
      (input.priority.None? || input.priority.value in taskPriorities) &&
      (input.recurrencePattern.None? || input.recurrencePattern.value in recurrencePatterns)
    ensures r.Ok? && input.priority.None? ==> r.value.priority == Medium
    ensures r.Ok? && input.priority.Some? ==> PriorityName(r.value.priority) == input.priority.value
    ensures r.Ok? ==> (r.value.recurrencePattern.Some? <==> input.recurrencePattern.Some?)
    ensures r.Ok? && input.recurrencePattern.Some? ==>
      PatternName(r.value.recurrencePattern.value) == input.recurrencePattern.value
    ensures r.Ok? ==>
      r.value.title == input.title && r.value.description == input.description &&
      r.value.assignedTo == input.assignedTo && r.value.completed == input.completed &&
      r.value.dueDate == input.dueDate && r.value.reminderTime == input.reminderTime &&
      r.value.recurrenceEndDate == input.recurrenceEndDate && r.value.isRecurring == input.isRecurring
  {
    var priority := match input.priority
      case None => Some(Medium)
      case Some(p) => ParsePriority(p);
    var pattern := match input.recurrencePattern
      case None => Some(None)
      case Some(p) => (match ParsePattern(p) case None => None case Some(q) => Some(Some(q)));
    if priority.None? || pattern.None? then Err("Invalid enum value")
    else Ok(InsertTask(input.title, input.description, input.assignedTo, input.completed,
                       priority.value, input.dueDate, input.reminderTime, pattern.value,
                       input.recurrenceEndDate, input.isRecurring))
  }

  /** The omitted columns are stripped: whatever a client puts in them is ignored. */
  lemma InsertTaskIgnoresOmitted(input: TaskInput, id: Option<int>, sent: Option<bool>, parent: Option<int>)
    ensures ParseInsertTask(input.(id := id, smsReminderSent := sent, parentTaskId := parent)) == ParseInsertTask(input)
  {
  }

  /**
   * The row the database stores for a task insert: `completed` and
   * `isRecurring` default to false, `smsReminderSent` is always false and
   * `parentTaskId` is always null, the priority is stored by name.
   */
  function TaskRow(id: int, ins: InsertTask): (t: Task)
    ensures t.id == id && t.title == ins.title && t.assignedTo == ins.assignedTo
    ensures t.completed == ins.completed.GetOr(false) && t.isRecurring == ins.isRecurring.GetOr(false)
    ensures !t.smsReminderSent && t.parentTaskId.None?
    ensures ParsePriority(t.priority) == Some(ins.priority)
    ensures t.reminderTime == ins.reminderTime && t.dueDate == ins.dueDate
    ensures t.description == ins.description && t.recurrenceEndDate == ins.recurrenceEndDate
    ensures t.recurrencePattern.Some? <==> ins.recurrencePattern.Some?
    ensures ins.recurrencePattern.Some? ==> ParsePattern(t.recurrencePattern.value) == ins.recurrencePattern
  {
    Task(id, ins.title, ins.description, ins.assignedTo, ins.completed.GetOr(false),
         PriorityName(ins.priority), ins.dueDate, ins.reminderTime, false,
         match ins.recurrencePattern case None => None case Some(p) => Some(PatternName(p)),
         ins.recurrenceEndDate, None, ins.isRecurring.GetOr(false))
  }

  /**
   * A task created from an input that sets nothing but its title gets the
   * documented defaults: not completed, medium priority, reminder not sent,
   * not recurring.
   */
  lemma NewTaskDefaults(id: int, title: string, input: TaskInput)
    requires input.title == title && input.completed.None? && input.priority.None?
    requires input.isRecurring.None?
    ensures ParseInsertTask(input).Ok? <==>
      (input.recurrencePattern.None? || input.recurrencePattern.value in recurrencePatterns)
    ensures ParseInsertTask(input).Ok? ==>
      var t := TaskRow(id, ParseInsertTask(input).value);
      !t.completed && t.priority == "medium" && !t.smsReminderSent && !t.isRecurring && t.parentTaskId.None?
  {
  }

  /** What a client submits to create a notification, before validation. */
  datatype NotificationInput = NotificationInput(
    id: Option<int>,
    taskId: int,
    userId: int,
    message: string,
    createdAt: Option<Timestamp>,
    read: Option<bool>,
    deliveryStatus: Option<string>,
    messageSid: Option<string>,
    deliveryError: Option<string>,
    deliveryAttempts: Option<int>,
    lastAttemptAt: Option<Timestamp>)

  /** A validated notification insert: only the task, the user, the message and the read flag. */
  datatype InsertNotification = InsertNotification(taskId: int, userId: int, message: string, read: Option<bool>)

  /** `insertNotificationSchema.parse`: strips id, createdAt and every delivery-tracking column. */
  function ParseInsertNotification(input: NotificationInput): (r: InsertNotification)
    ensures r.taskId == input.taskId && r.userId == input.userId
    ensures r.message == input.message && r.read == input.read
  {
    InsertNotification(input.taskId, input.userId, input.message, input.read)
  }

  /**
   * The row stored for a notification insert: status "pending", zero
   * attempts, unread unless the client said otherwise, created at `now`.
   */
  function NotificationRow(id: int, ins: InsertNotification, now: Timestamp): (n: Notification)
    ensures n.id == id && n.taskId == ins.taskId && n.userId == ins.userId && n.message == ins.message
    ensures n.deliveryStatus == StatusName(Pending) && n.deliveryAttempts == 0
    ensures n.read == ins.read.GetOr(false) && n.createdAt == now
    ensures n.messageSid.None? && n.deliveryError.None? && n.lastAttemptAt.None?
  {
    Notification(id, ins.taskId, ins.userId, ins.message, now, ins.read.GetOr(false),
                 "pending", None, None, 0, None)
  }

  /** A client cannot seed the delivery-tracking columns of a new notification. */
  lemma NewNotificationIgnoresTracking(id: int, input: NotificationInput, now: Timestamp)
    ensures var n := NotificationRow(id, ParseInsertNotification(input), now);
      n.deliveryStatus == "pending" && n.deliveryAttempts == 0 && n.createdAt == now &&
      n.messageSid.None? && n.deliveryError.None? && n.lastAttemptAt.None? && n.id == id &&
      (input.read.None? ==> !n.read)
  {
  }

  // ------------------------------------------------------- delete rules

  /** The rows of the tasks and notifications tables. */
  datatype Database = Database(tasks: seq<Task>, notifications: seq<Notification>)

  /** A task as it is left by deleting task `id`: a child of `id` loses its parent. */
  function Detached(t: Task, id: int): Task {
    if t.parentTaskId == Some(id) then t.(parentTaskId := None) else t
  }

  /** The tasks other than `id`, with every reference to `id` as parent set to null. */
  function DetachAndRemove(tasks: seq<Task>, id: int): (r: seq<Task>)
    ensures forall t :: t in r ==> t.id != id && t.parentTaskId != Some(id)
    ensures forall t :: t in r ==> exists u :: u in tasks && u.id != id && t == Detached(u, id)
    ensures forall t :: t in tasks && t.id != id && t.parentTaskId != Some(id) ==> t in r
    ensures forall t :: t in tasks && t.id != id && t.parentTaskId == Some(id) ==> t.(parentTaskId := None) in r
    ensures |r| <= |tasks|
  {
    if tasks == [] then []
    else
      var rest := DetachAndRemove(tasks[1..], id);
      var t := tasks[0];
      if t.id == id then rest
      else if t.parentTaskId == Some(id) then [t.(parentTaskId := None)] + rest
      else [t] + rest
  }

  /** The notifications that do not belong to task `id`. */
  function RemoveNotificationsOf(ns: seq<Notification>, id: int): (r: seq<Notification>)
    ensures forall n :: n in r <==> n in ns && n.taskId != id
    ensures |r| <= |ns|
  {
    if ns == [] then []
    else if ns[0].taskId == id then RemoveNotificationsOf(ns[1..], id)
    else [ns[0]] + RemoveNotificationsOf(ns[1..], id)
  }

  /**
   * `DELETE FROM tasks WHERE id = …` under the declared foreign keys: the
   * task's notifications are deleted (`onDelete: 'cascade'`) and its child
   * tasks keep existing with `parentTaskId` set to null (`onDelete: 'set null'`).
   */
  function DeleteTaskRow(db: Database, id: int): (r: Database)
    ensures forall n :: n in r.notifications <==> n in db.notifications && n.taskId != id
    ensures forall t :: t in r.tasks ==> t.id != id && t.parentTaskId != Some(id)
    ensures forall t :: t in db.tasks && t.id != id ==> Detached(t, id) in r.tasks
    ensures forall t :: t in r.tasks ==> exists u :: u in db.tasks && u.id != id && t == Detached(u, id)
  {
    Database(DetachAndRemove(db.tasks, id), RemoveNotificationsOf(db.notifications, id))
  }
}
