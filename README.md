# FamilyTaskSync core, modelled in Dafny

FamilyTaskSync is a family task board. A task can carry a reminder time, and
when that time passes the assignee gets a text message. The service sends it
over WhatsApp when the user prefers WhatsApp and the gateway has it, and over
SMS otherwise. Sign-in uses a phone number and an authenticator-app code.

This project models the server-side core and proves properties of it:

- the notification dispatcher (`NotificationService`);
- the polling pass that sends due reminders (`Reminder`);
- the in-memory store (`Storage`);
- the error taxonomy (`Errors`);
- the data model (`Schema`);
- the configuration loader (`Config`);
- the sign-in routes (`AuthRoutes`);
- the access-control middlewares (`AuthMiddleware`);
- the login page's phone formatter and step machine (`LoginPage`).

`Wrappers` (Option and Result) and `Text` (prefix tests, decimal rendering of
integers, the digit filter) are shared helpers.

Each module keeps the form of its source file:

- Code that changes state is a class whose methods update its fields:
  - `Storage.MemStorage` holds the maps and id counters;
  - `Reminder.TaskTable` holds the task table and the log of effects;
  - `NotificationService.Service` holds the logs of gateway requests and delivery-status updates;
  - `AuthMiddleware.Session` is the session;
  - `AuthRoutes.SecretStore` logs the user-secret writes;
  - `LoginPage.Login` holds the page's state.
- The methods of `NotificationService.Service`, `Reminder.TaskTable` and the route handlers of `AuthRoutes` are proved equal to reference functions: `Send` and `TryDeliver`, `PassRows`/`PassEffects`, `WebhookUpdates`, `PhoneRoute` and `VerifyRoute`. The lemmas about those functions carry the properties.
- The methods of `Storage.MemStorage` and `LoginPage.Login`, and the constructors of `AuthMiddleware.Session` and `AuthRoutes.SecretStore`, state their new state directly in their `ensures`; `Storage.MemStorage` also keeps the invariant `Valid()`.
- Pure code (schemas, errors, configuration, middleware decisions, formatters) is written as functions and lemmas.

External services are parameters of the model:

- the message gateway, a function from the request, and the number of requests sent before it, to its reply;
- the WhatsApp availability probe;
- the user lookup;
- TOTP secret generation and checking, and QR rendering;
- session saving, a flag saying whether it fails;
- the database query failure, and the user lookup of the reminder pass, which may throw;
- URL validation;
- date formatting;
- the clock, as `now`.

The code has three quirks, and the model keeps all three as written:

- `validatePhoneNumber` throws `new ValidationError(...)`, but `ValidationError` is not imported into `NotificationService.ts`. A missing phone number therefore raises a ReferenceError ("ValidationError is not defined"), which has no code. The catch block records that message as the failure, with no SMS retry (`NotificationService.MissingPhoneError`, `SendWithoutPhone`).
- The reminder query has no lower bound on the reminder time, so a reminder that fell due arbitrarily long ago is still selected (`Reminder.OverdueRemindersSelected`).
- In the login page's formatter, the `startsWith('+')` test runs after all non-digits are stripped, so it is never true (`LoginPage.CleanedNeverStartsWithPlus`).

## Model

| member | source | states |
|---|---|---|
| NotificationService.ValidatePhoneNumber | server/services/NotificationService.ts:57-62 | A missing or empty number throws, and only then. The error is the ReferenceError that surfaces because ValidationError is not imported. Otherwise the result starts with '+'. It is the input unchanged if the input already starts with '+', else '+' before the input. |
| NotificationService.ValidatePhoneNumberIdempotent | server/services/NotificationService.ts:61 | Validating a validated number gives the same number. |
| NotificationService.Available | server/services/NotificationService.ts:31-41 | WhatsApp counts as available only when the probe found at least one service. A probe that throws, or finds none, means unavailable. |
| NotificationService.Address | server/services/NotificationService.ts:98-99 | For a number that starts with '+', the address starts with "whatsapp:" exactly when the channel is WhatsApp. |
| NotificationService.FormatMessageContents | server/services/NotificationService.ts:24-29 | `formatMessage` (the function `FormatMessage`) gives the head "Reminder for <name>: Task \"<title>\" is due ", then the due clause followed by ". ", then the description. The due clause is "on " and the formatted due date when there is one, and "soon" exactly when there is none. A missing or empty description adds nothing. |
| NotificationService.TryDeliver | server/services/NotificationService.ts:75-119 | The try block sends a request exactly when the phone number is truthy and sends at most one. Without a number it throws the ReferenceError. It succeeds exactly when the gateway queues the request. Then its last ledger update is the mapped status with the message id, and the result's channel is WhatsApp exactly when WhatsApp is preferred and available, which is exactly when the request's `to` starts with "whatsapp:". A rejection is thrown unchanged. At most two ledger updates are made, and at most one before a throw. Without the WhatsApp preference there is one update on success and none before a throw. |
| NotificationService.Send | server/services/NotificationService.ts:64-139 | A whole call sends a request exactly when the phone number is truthy. It sends at most two requests and makes one or two ledger updates; exactly one without the WhatsApp preference. |
| NotificationService.SendWithoutPhone | server/services/NotificationService.ts:57-137 | Without a truthy phone number no gateway request is made. The call fails with exactly one ledger update: 'failed', carrying the ReferenceError's message. |
| NotificationService.SendWithoutWhatsAppPreference | server/services/NotificationService.ts:77-121 | With a preference other than WhatsApp there is at most one request and exactly one ledger update, which is not the fallback note. The request goes over SMS and an outcome reports the SMS channel. |
| NotificationService.SendRetriesAtMostOnce | server/services/NotificationService.ts:120-128 | The gateway is called at most twice. There is a second call exactly when the number is present, the preference is WhatsApp and the first request was rejected with code 63007. The retry goes out over SMS with the same message, and the result is that of the SMS attempt. |
| NotificationService.SendChoosesChannel | server/services/NotificationService.ts:77-101 | The first request uses WhatsApp exactly when WhatsApp is preferred and the probe finds at least one service; a probe that throws counts as none. WhatsApp prefixes both `to` and `from` with "whatsapp:", SMS leaves them bare. The request carries the formatted message and `<baseUrl>/api/notifications/webhook` as status callback. |
| NotificationService.SendRecordsFallback | server/services/NotificationService.ts:80-93 | The first ledger update is 'pending' with 'WhatsApp not configured, falling back to SMS' exactly when WhatsApp is preferred and unavailable. A result over WhatsApp implies that WhatsApp was preferred and available. |
| NotificationService.SendSuccessRecorded | server/services/NotificationService.ts:109-128 | On success the request sent last is the one the gateway queued, and its reply gives the result's message id and raw status. The last ledger update is 'sent' for 'queued', or else the raw status, with that message id. The result reports WhatsApp exactly when that request went out over WhatsApp. This holds after an SMS retry too. |
| NotificationService.RetryKeepsSuccessRecorded | server/services/NotificationService.ts:121-127 | A call that retries has the success property whenever its SMS retry has it, because the retry's requests and updates come last. |
| NotificationService.DirectSuccessRecorded | server/services/NotificationService.ts:96-119 | A call that does not retry and succeeds has made one request, the one queued, and ends with the matching ledger update. |
| NotificationService.SendFailureRecorded | server/services/NotificationService.ts:130-137 | On failure the last ledger update is 'failed' with the message of the NotificationError thrown, and that error is fromTwilioError of some thrown error. |
| NotificationService.SendFailureIsLastRejection | server/services/NotificationService.ts:120-137 | When a failing call sent a request, the gateway rejected the request sent last, and the error thrown is fromTwilioError of that rejection. |
| NotificationService.RetryKeepsFailureIsLastRejection | server/services/NotificationService.ts:121-127 | A call that retries has the failure property whenever its SMS retry has it, because the retry's requests come last and its error is the one thrown. |
| NotificationService.DirectFailureIsLastRejection | server/services/NotificationService.ts:96-137 | A call that does not retry and fails after sending has made one request, the one rejected, and throws fromTwilioError of that rejection. |
| NotificationService.WebhookUpdates | server/services/NotificationService.ts:141-156 | An unknown message id gives no update. A known one gives one update, for the first notification found, with the new status and the id. It carries an error exactly when the code is truthy, formatted "<code>: <message>". |
| NotificationService.Service.constructor | server/services/NotificationService.ts:19-22 | The service takes the sender number, base URL and time zone from the configuration and starts with empty logs. |
| NotificationService.Service.SendTaskReminder | server/services/NotificationService.ts:64-139 | The imperative dispatcher, with validation, probe, request, catch and the recursive SMS retry, appends to the outbox and ledger exactly what `Send` describes and returns its outcome. |
| NotificationService.CatchCompletesSend | server/services/NotificationService.ts:120-138 | After an attempt that throws, appending either the SMS retry's logs or the one 'failed' record gives exactly the logs and the outcome that `Send` describes for the whole call. |
| NotificationService.Service.Deliver | server/services/NotificationService.ts:75-119 | The try block appends to the outbox and the ledger exactly the requests and updates of `TryDeliver`, and returns its outcome. |
| NotificationService.Service.Recover | server/services/NotificationService.ts:120-138 | The catch block retries over SMS for a 63007 error under the WhatsApp preference, appending exactly what that `Send` describes. Otherwise it appends one 'failed' update, sends nothing and fails with fromTwilioError of the error. Both logs only grow. |
| NotificationService.Service.ProcessWebhook | server/services/NotificationService.ts:141-156 | The ledger is extended by exactly `WebhookUpdates`; no message is sent. |
| Reminder.SmsSend | server/services/sms.ts:10-29 | With no truthy phone number the send returns without calling the gateway. Otherwise it fails exactly when the gateway rejects the message, and succeeds when it accepts. |
| Reminder.SelectPending | server/services/reminder.ts:17-27 | A task is selected exactly when it is in the table, has its reminder not yet sent, has a reminder time earlier than now, is not completed and has a non-null assignee. |
| Reminder.TaskEffects | server/services/reminder.ts:32-61 | One task causes at most three effects. There are none without an assignee or when the lookup finds no user. The task is marked as sent exactly when it is reminded. |
| Reminder.PassEffects | server/services/reminder.ts:31-62 | A pass causes at most three effects per selected task. |
| Reminder.PassRows | server/services/reminder.ts:31-62 | The pass keeps the table's length and every row's id. |
| Reminder.OverdueRemindersSelected | server/services/reminder.ts:23 | There is no lower bound: a reminder that fell due any time in the past is selected. |
| Reminder.TaskEffectsShape | server/services/reminder.ts:32-61 | A task whose assignee is missing, 0 or not found causes no effect. The send comes first, and only when the user has a phone number. The mark and the notification follow, in that order, exactly when the task is reminded, which means the send did not throw. The notification is for the task and its user and says `Reminder: Task "<title>" is due soon.` |
| Reminder.MarkRow | server/services/reminder.ts:46-49 | The update keeps the table's length. A row's flag ends up set exactly when it was set before or the row has that id, and every other field stays. |
| Reminder.PassChangesOnlyReminded | server/services/reminder.ts:31-62 | After the pass, each row is unchanged unless a task with its id was reminded; then only its flag is set. |
| Reminder.PassEffectsAppend | server/services/reminder.ts:31-62 | Isolation: the effects of a pass over p + q are those over p followed by those over q, so a failing task does not stop the rest. |
| Reminder.NotificationsForAppend | server/services/reminder.ts:52-56 | Notification counts add up over concatenated effect logs. |
| Reminder.OneNotificationPerReminder | server/services/reminder.ts:43-56 | For each task id, the pass creates as many notifications as tasks with that id were reminded, and none for a task that was skipped or whose send threw. |
| Reminder.PassEffectsAbout | server/services/reminder.ts:31-62 | Every effect concerns a processed task. Marks and notifications concern only reminded tasks. |
| Reminder.SecondPassSkipsReminded | server/services/reminder.ts:22-49 | A later pass over the updated table, at any time, selects no task that the first pass reminded. |
| Reminder.TaskTable.constructor | server/services/reminder.ts:17-19 | The table starts with the given rows and an empty effect log. |
| Reminder.TaskTable.CheckAndSendReminders | server/services/reminder.ts:10-66 | A failing query is swallowed and leaves everything unchanged. Otherwise the loop leaves exactly `PassRows` as the table and appends exactly `PassEffects` of the selected tasks to the log. |
| Reminder.TaskTable.RemindTask | server/services/reminder.ts:32-61 | One iteration of the loop leaves the table marked for the task exactly when it is reminded, and appends exactly `TaskEffects` to the log. |
| Reminder.TaskTable.RemindEach | server/services/reminder.ts:31-62 | The loop over the selected tasks leaves exactly `PassRows` as the table and appends exactly `PassEffects` to the log. |
| Reminder.PassStep | server/services/reminder.ts:31-62 | One more task extends the pass: its effects follow the earlier ones, and the table is marked for it exactly when it is reminded. |
| Storage.MergeLaws | server/storage.ts:60 | An empty patch changes nothing and a complete patch replaces everything. Merging is idempotent, and two merges in a row equal one with the combined patch. |
| Storage.Merge | server/storage.ts:60 | Every field the update supplies replaces the existing one, and every field it does not supply is kept. An update with no fields leaves the task as it was. |
| Storage.Without | server/storage.ts:66 | Deleting a key from the iteration order removes that key only, and the order stays ascending. |
| Storage.WithoutIndexed | server/storage.ts:65-67 | Deleting a key keeps the store's order invariant. |
| Storage.AppendFresh | server/storage.ts:37-53 | Inserting the current counter and incrementing it keeps the order invariant. |
| Storage.MemStorage.constructor | server/storage.ts:21-31 | Users Mom (#FF69B4), Dad (#4169E1) and Kid (#32CD32) have ids 1, 2 and 3, there are no tasks, and the counters are 4 and 1. |
| Storage.MemStorage.GetUsers | server/storage.ts:33-35 | The result is exactly the stored users, in insertion order, which is ascending id order. |
| Storage.MemStorage.CreateUser | server/storage.ts:37-42 | The id is the old counter and has never been issued before. The counter goes up by one, the user `{id, ...insert}` is stored and returned, and tasks are unchanged. |
| Storage.MemStorage.GetTasks | server/storage.ts:44-46 | The result is exactly the stored tasks, in insertion order, which is ascending id order. |
| Storage.MemStorage.CreateTask | server/storage.ts:48-53 | The id is the old counter and has never been issued before. The counter goes up by one, `{id, ...insert}` is stored and returned, and users are unchanged. |
| Storage.MemStorage.UpdateTask | server/storage.ts:55-63 | A missing id gives the error "Task <id> not found" and changes nothing. Otherwise the stored task becomes the merge with the supplied fields and is returned. Nothing else changes. |
| Storage.MemStorage.DeleteTask | server/storage.ts:65-67 | Only that id is removed, which is a no-op when the id is absent. The counter and the users are unchanged. |
| Storage.CreateAfterDeleteGetsFreshId | server/storage.ts:48-67 | Ids are never reused: a task created after a delete gets a new id. |
| Errors.NewNotificationError | server/services/errors.ts:1-10 | The error has the name 'NotificationError' and keeps the message, code, status and details it is given. |
| Errors.CodeString | server/services/errors.ts:15 | `code?.toString()`: a string code is kept as it is, and a numeric code becomes its decimal rendering. |
| Errors.FromTwilioError | server/services/errors.ts:12-19 | The provider's message and status are kept. A numeric code becomes its decimal string, a string code is passed through unchanged, and an absent code stays absent. The provider error is kept as details. |
| Errors.FromTwilioErrorKeepsCode | server/services/errors.ts:15 | For a numeric provider code, the code string is a decimal numeral (with '-' for a negative number) and reads back as the provider's number. |
| Errors.FromTwilioErrorDistinguishesCodes | server/services/errors.ts:15 | Different numeric provider codes give different code strings. |
| Errors.DeliveryError | server/services/errors.ts:22-27 | The code is 'DELIVERY_ERROR' and the status 400. |
| Errors.ConfigurationError | server/services/errors.ts:29-34 | The code is 'CONFIG_ERROR' and the status 500. |
| Errors.ValidationError | server/services/errors.ts:36-41 | The code is 'VALIDATION_ERROR' and the status 400. |
| Errors.SubclassCodesIdentifyClass | server/services/errors.ts:12-41 | The three subclass codes identify their subclass. A provider error with a numeric code or none is never taken for one; a string code is classified as that string is. |
| Text.IntToString | server/services/errors.ts:15 | `Number.prototype.toString()` gives a non-empty string. It starts with '-' exactly for a negative number, and the rest is all digits with no leading '0'; zero is "0". |
| Text.IntToStringRoundTrip | server/services/errors.ts:15 | Parsing the decimal rendering gives back the number. |
| Text.IntToStringInjective | server/storage.ts:58 | Different ids give different renderings, so different "Task <id> not found" messages. |
| Text.Digits | client/src/pages/login.tsx:14 | `replace(/\D/g, '')` keeps only digits and never makes the string longer. A character occurs in the result exactly when it is a digit that occurs in the input. |
| Schema.ParsePriority | shared/schema.ts:51-60 | The parse succeeds exactly for low, medium and high, and the result's name is the input. |
| Schema.PriorityRoundTrip | shared/schema.ts:51 | Parsing a priority's name gives back that priority. |
| Schema.ParsePattern | shared/schema.ts:50-57 | The parse succeeds exactly for daily, weekly and monthly, and the result's name is the input. |
| Schema.PatternRoundTrip | shared/schema.ts:50 | Parsing a pattern's name gives back that pattern. |
| Schema.StatusName | shared/schema.ts:73 | Every DeliveryStatus has a name in `deliveryStatuses`. |
| Schema.DeliveryStatusesExact | shared/schema.ts:73 | The delivery statuses are exactly pending, sent, delivered and failed, each named once. |
| Schema.ParseInsertUser | shared/schema.ts:46-48 | The preference must be 'sms' or 'whatsapp', otherwise the parse fails. An absent preference defaults to 'sms', and every other field is kept. |
| Schema.UserRow | shared/schema.ts:5-12 | The stored user keeps the id, name, color, phone number and secret it is given. A supplied preference is kept, and an absent one becomes 'sms'. |
| Schema.ParsedUserPreference | shared/schema.ts:10-47 | Every stored user from a valid insert has the preference 'sms' or 'whatsapp'. |
| Schema.ParseInsertTask | shared/schema.ts:54-61 | The parse succeeds exactly when the priority is absent or in low/medium/high and the pattern is absent or in daily/weekly/monthly. The priority defaults to medium, and a given priority or pattern is stored as the value with that name. Title, description, assignee, completed, due and reminder times, recurrence end and isRecurring are the input's. |
| Schema.InsertTaskIgnoresOmitted | shared/schema.ts:61 | A client's id, smsReminderSent and parentTaskId have no effect on the parsed insert. |
| Schema.TaskRow | shared/schema.ts:14-29 | `completed` and `isRecurring` default to false. `smsReminderSent` is false and `parentTaskId` is null. Title, description, assignee, due and reminder times and recurrence end are kept, and the priority and pattern are stored by name. |
| Schema.NewTaskDefaults | shared/schema.ts:19-28 | A task that sets only its title gets completed=false, priority 'medium', smsReminderSent=false and isRecurring=false. |
| Schema.ParseInsertNotification | shared/schema.ts:63-64 | Only the task, user, message and read flag pass the insert schema. |
| Schema.NotificationRow | shared/schema.ts:31-43 | A new notification is 'pending' with 0 attempts, read=false by default, created now, and has no message id, error or last attempt. |
| Schema.NewNotificationIgnoresTracking | shared/schema.ts:63-64 | A client cannot seed id, createdAt or any delivery-tracking column. |
| Schema.DetachAndRemove | shared/schema.ts:27 | The deleted task is gone and no row refers to it. Every other task stays, a child of the deleted task with `parentTaskId` set to null. Every remaining row is such a task of the old table, so nothing else appears. |
| Schema.RemoveNotificationsOf | shared/schema.ts:33 | Exactly the notifications of the deleted task are removed. |
| Schema.DeleteTaskRow | shared/schema.ts:27-33 | Deleting a task removes exactly its notifications. Every other task stays, its children with the parent set to null, and every task row left comes from the old table in that way. |
| Config.BaseUrl | server/config.ts:30 | The base URL is `https://<REPL_SLUG>.<REPL_OWNER>.repl.co` and starts with "https://". |
| Config.Raw | server/config.ts:22-33 | The object to validate has the time zone 'Asia/Jerusalem' and the built base URL. |
| Config.Validate | server/config.ts:4-15 | Validation succeeds exactly when the SID is present and starts with 'AC', the token is present, the phone number is present and starts with '+', and the base URL passes the URL check. The WhatsApp number is optional and the fields are copied. |
| Config.LoadConfig | server/config.ts:21-44 | Loading succeeds exactly under those rules on the environment. A failure is the error 'Invalid configuration'. A success has the environment's values and the time zone 'Asia/Jerusalem'. |
| Config.LoadedConfigWellFormed | server/config.ts:6-30 | A loaded configuration has an 'AC' SID, a '+' number and an https URL that passed the URL check. |
| AuthRoutes.FormatPhone | server/routes/auth.ts:18 | The result starts with '+'. It is the input when that already starts with '+', otherwise '+' before the input. |
| AuthRoutes.FormatPhoneIdempotent | server/routes/auth.ts:18 | Formatting twice equals formatting once. |
| AuthRoutes.ChooseSecret | server/routes/auth.ts:95-100 | A secret exists exactly when the permanent or the temporary one is truthy. The permanent one wins. |
| AuthRoutes.PhoneRoute | server/routes/auth.ts:8-71 | `/phone` never changes the authenticated flag and answers 200, 400, 404 or 500. |
| AuthRoutes.VerifyRoute | server/routes/auth.ts:73-138 | `/verify` writes at most one secret and answers 200, 400, 401, 404 or 500. |
| AuthRoutes.PhoneRouteProperties | server/routes/auth.ts:8-71 | A missing number gets 400 "Phone number is required" and an unknown user 404 "User not found", both with the session untouched. A lookup or QR rendering that throws gets 500 with the session untouched, and so does a failed save. `/phone` answers 200 exactly when the number is given, the user is found, the QR code rendered when needed and the session saved. On 200 the session's user is set. `requiresSetup` is true exactly for a user without a secret, and then the issued secret is stored in the session; otherwise the temporary secret is untouched. |
| AuthRoutes.VerifyRouteProperties | server/routes/auth.ts:73-138 | `/verify` succeeds exactly when the code checks (both fields given, the user found, a secret available and the code valid for it) and the session saves. Once the code checks, the session is authenticated as that user, and a failed save gets 500. The temporary secret is written to the user and dropped from the session exactly when there is no permanent one. When the code does not check, the session is left as it was, so it is not authenticated, and nothing is written. The replies are 400 "Phone number and code are required" for a missing field, 404 for an unknown user, 500 for a lookup that throws, 400 "2FA not set up" without a secret and 401 "Invalid code" for a wrong code. |
| AuthRoutes.SetupThenVerify | server/routes/auth.ts:30-133 | Take a user without a secret. `/phone`, then `/verify` with a code valid for the issued secret, authenticates the session and stores exactly that secret. |
| AuthRoutes.SecretStore.constructor | server/routes/auth.ts:116-118 | The log of secret writes starts empty. |
| AuthRoutes.HandlePhone | server/routes/auth.ts:8-71 | The handler changes the session and replies exactly as `PhoneRoute` says. |
| AuthRoutes.HandleVerify | server/routes/auth.ts:73-138 | The handler changes the session, appends the secret writes and replies exactly as `VerifyRoute` says. |
| AuthMiddleware.Session.constructor | server/middleware/auth.ts:3-9 | A new session has no user, no flag and no temporary secret. |
| AuthMiddleware.RequireAuth | server/middleware/auth.ts:11-28 | A JSON answer is a 401 and only for an API path. A redirect goes to '/login' and only for a page. |
| AuthMiddleware.RedirectIfAuthenticated | server/middleware/auth.ts:30-44 | A JSON answer is a 200 and only for an API path. A redirect goes to '/' and only for a page. |
| AuthMiddleware.RequireAuthDecision | server/middleware/auth.ts:11-28 | The request goes on exactly when the session is authenticated. Otherwise an API path gets 401 with "Authentication required" and redirect '/login', and a page is redirected to '/login'. |
| AuthMiddleware.RedirectIfAuthenticatedDecision | server/middleware/auth.ts:30-44 | The middleware acts exactly when both the flag and the user id are truthy, and a user id of 0 does not count. Then it answers an API path with 200 `{authenticated: true, redirect: '/'}` and redirects a page to '/'. |
| AuthMiddleware.MiddlewaresComplementary | server/middleware/auth.ts:11-44 | No session is stopped by both middlewares. |
| LoginPage.DigitsOfDigits | client/src/pages/login.tsx:14 | Stripping non-digits from a digit string changes nothing. |
| LoginPage.DigitsOfChar | client/src/pages/login.tsx:14 | On one character the filter keeps a digit and removes anything else, '+' included. |
| LoginPage.DigitsAppend | client/src/pages/login.tsx:14 | The digit filter distributes over concatenation. |
| LoginPage.CleanedNeverStartsWithPlus | client/src/pages/login.tsx:14-16 | The stripped string never starts with '+', so that test is dead. |
| LoginPage.FormatPhoneNumber | client/src/pages/login.tsx:12-17 | The formatted number starts with '+'. |
| LoginPage.FormatPhoneNumberShape | client/src/pages/login.tsx:12-17 | The result is '+' followed by the input's digits in order. It starts with '+', its length is the digit count plus one, and a character follows the '+' exactly when it is a digit of the input. |
| LoginPage.FormatPhoneNumberIdempotent | client/src/pages/login.tsx:12-17 | Formatting a formatted number changes nothing. |
| LoginPage.Login.constructor | client/src/pages/login.tsx:24-29 | The page starts on the phone step with empty fields and is not loading. |
| LoginPage.Login.HandlePhoneSubmit | client/src/pages/login.tsx:31-59 | The request uses the formatted number. A successful reply moves to 'setup' and keeps the QR code and secret when setup is required, and moves to 'verify' otherwise. An error reply or a failed request shows a toast, using the server's message or the fallback, and leaves the step unchanged. Loading ends false. |
| LoginPage.Login.HandleVerifySubmit | client/src/pages/login.tsx:61-85 | Success navigates to '/'. An error shows a toast and changes neither the location nor the step. |
| LoginPage.Login.HandleSetupComplete | client/src/pages/login.tsx:87-89 | The step becomes 'verify'. |

## Left out

- Timers: the one-minute `setInterval` and the start-up call of the reminder pass (server/services/reminder.ts:68-72). One pass is modelled.
- Gateway client construction and credentials are left out. The gateway is a function of the request and of the number of requests sent before it, so a retry can get a different reply from the same request.
- The availability probe's listing call is reduced to its outcome: a count of services found, or an exception.
- Time zones and date formatting: `now` is an input and timestamps are integers. A due date is rendered by a caller-supplied function, standing for `format(toZonedTime(...), 'MMM d')`.
- The insert schemas' date strings are modelled as timestamps. Nullable and absent fields are both `None`.
- Config.Validate: zod's URL check is a parameter (`isUrl`), not a URL grammar.
- The database behind the reminder pass: the query is modelled over the table in table order. A failure of the mark-as-sent update or of `createNotification` is not modelled. In the loop body only the user lookup and the send can throw.
- `storage.getUser`, `getUserByPhone`, `updateUser`, `updateNotificationDeliveryStatus` and `getNotificationByMessageSid` are not part of the shown storage. They are lookups passed in, or append-only logs of the calls made. The delivery-attempt counter is not modelled, since nothing shown increments it.
- Persistence failures of the ledger updates themselves are not modelled.
- Sign-in libraries: TOTP secret generation and checking, QR rendering, and session saving are parameters. An exception from `updateUser` during `/verify` is not modelled.
- AuthRoutes.HandlePhone, AuthRoutes.HandleVerify: a request body field that is not a string, which would make `startsWith` throw, is not modelled; fields are optional strings.
- LoginPage.Login.HandlePhoneSubmit, LoginPage.Login.HandleVerifySubmit: the client's request helper is a function from the request to a reply or an error message. Translated fallback texts are parameters.
- HTTP plumbing (controllers, routers, JSON encoding) and every UI component other than the login page's handlers are left out. The controllers read a `result.fallback` that `DeliveryResult` does not have.
- Recurring-task expansion: the schema has its fields, but no code expands a series.
- The test files that expect other behaviour are not modelled: a three-argument SMS send with ledger writes, and an 'Invalid phone number format' check. The model follows the code.
- Logging (`console.log`, `console.error`) is left out.
- Storage.MemStorage.CreateUser: an `id` carried in the insert is not modelled. The user insert schema does not omit `id`, so `{ id, ...insertUser }` (server/storage.ts:39) would let it override the counter's id.
- Storage.MemStorage.UpdateTask: the update is a typed `TaskPatch`. The caller passes the raw request body, whose extra fields (an `id`, say) the spread would also copy.
- NotificationService.Service.SendTaskReminder: the gateway requests and the ledger updates are two separate logs, so the model does not state their interleaving: that the 'pending' fallback note is recorded before the request is sent, and that 'failed' is recorded after the rejected request.
- Text.IntToString: integers are unbounded. JavaScript numbers are doubles, so `toString` switches to exponent notation from 1e21 and the id counters' `++` stops changing at 2^53. Neither is modelled.
