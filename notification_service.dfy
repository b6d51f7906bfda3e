/**
 * The notification dispatcher: it validates the phone number, picks a channel
 * (WhatsApp only when preferred and available, SMS otherwise), sends through
 * the messaging gateway, records every outcome in the delivery ledger, retries
 * once over SMS when the gateway reports that WhatsApp cannot reach the
 * recipient, and reconciles the gateway's asynchronous status callbacks.
 *
 * The gateway, its availability probe and the ledger store are outside the
 * model: the gateway is a function from request to reply, the probe is its
 * answer, and the ledger is the log of update calls the service makes.
 */
module NotificationService {
  import opened Wrappers
  import opened Schema
  import opened Errors
  import Text
  import Config

  datatype Channel = Sms | WhatsApp

  /** The arguments of `client.messages.create`. */
  datatype MessageRequest = MessageRequest(body: string, to: string, from: string, statusCallback: string)

  /** What the gateway answers: a message id and status, or an exception. */
  datatype GatewayReply = Queued(sid: string, status: string) | Rejected(error: Thrown)

  /**
   * The gateway: its answer to a request, given how many requests the service
   * sent before it. A retried request can therefore be answered differently.
   */
  type Gateway = (nat, MessageRequest) -> GatewayReply

  /** What listing the gateway's services named 'WhatsApp' gives: a count, or an exception. */
  datatype ProbeResult = ServicesFound(count: nat) | ProbeThrew

  /** One call of `updateNotificationDeliveryStatus(id, status, messageSid, error)`. */
  datatype LedgerUpdate = LedgerUpdate(notificationId: int, status: string, messageSid: Option<string>,
                                       error: Option<string>)

  /** `DeliveryResult`: the raw gateway status and the channel actually used. */
  datatype DeliveryResult = DeliveryResult(messageSid: string, status: string, channel: Channel)

  /** The configuration the dispatcher reads, and the 'MMM d' rendering of a due date in its time zone. */
  datatype ServiceConfig = ServiceConfig(phoneNumber: string, baseUrl: string, formatDate: Timestamp -> string)

  const FallbackNote := "WhatsApp not configured, falling back to SMS"
  const WhatsAppUnreachable := 63007
  const WebhookPath := "/api/notifications/webhook"
  const WhatsAppPrefix := "whatsapp:"

  /**
   * What `validatePhoneNumber` throws for a missing number. It means to throw a
   * ValidationError, but that class is not imported, so evaluating
   * `new ValidationError(...)` throws a ReferenceError instead; it has no code.
   */
  const MissingPhoneError := Thrown("ValidationError is not defined", None, None)

  /** `validatePhoneNumber`: throws for a missing or empty number, else ensures a leading '+'. */
  function ValidatePhoneNumber(phone: Option<string>): (r: Result<string, Thrown>)
    ensures r.Err? <==> !Text.Truthy(phone)
    ensures r.Err? ==> r.error == MissingPhoneError
    ensures r.Ok? ==> Text.StartsWith(r.value, "+")
    ensures r.Ok? && Text.StartsWith(phone.value, "+") ==> r.value == phone.value
    ensures r.Ok? && !Text.StartsWith(phone.value, "+") ==> r.value == "+" + phone.value
  {
    if !Text.Truthy(phone) then Err(MissingPhoneError)
    else if Text.StartsWith(phone.value, "+") then Ok(phone.value)
    else Ok("+" + phone.value)
  }

  /** Validating an already validated number changes nothing. */
  lemma ValidatePhoneNumberIdempotent(phone: Option<string>)
    requires ValidatePhoneNumber(phone).Ok?
    ensures ValidatePhoneNumber(Some(ValidatePhoneNumber(phone).value)) == ValidatePhoneNumber(phone)
  {
  }

  /** `checkWhatsAppAvailability`: at least one service found; a probe that throws means unavailable. */
  function Available(probe: ProbeResult): (r: bool)
    ensures r ==> probe.ServicesFound? && probe.count >= 1
    ensures probe == ProbeThrew || probe == ServicesFound(0) ==> !r
  {
    probe.ServicesFound? && probe.count > 0
  }

  /** The channel-qualified address: "whatsapp:" before the number for WhatsApp, the bare number for SMS. */
  function Address(channel: Channel, number: string): (r: string)
    ensures Text.StartsWith(number, "+") ==> (channel == WhatsApp <==> Text.StartsWith(r, WhatsAppPrefix))
  {
    if channel == WhatsApp then
      assert (WhatsAppPrefix + number)[..|WhatsAppPrefix|] == WhatsAppPrefix;
      WhatsAppPrefix + number
    else
      assert Text.StartsWith(number, WhatsAppPrefix) ==> number[0] == 'w';
      number
  }

  /** "on <MMM d>" for a task with a due date, "soon" without one. */
  function DueClause(task: Task, formatDate: Timestamp -> string): string {
    match task.dueDate
    case Some(d) => "on " + formatDate(d)
    case None => "soon"
  }

  /** `task.description || ''` */
  function DescriptionText(task: Task): string {
    if Text.Truthy(task.description) then task.description.value else ""
  }

  /** `formatMessage`: "Reminder for <name>: Task "<title>" is due <on date | soon>. <description>" */
  function FormatMessage(task: Task, user: User, formatDate: Timestamp -> string): string {
    MessageHead(task, user) + DueClause(task, formatDate) + ". " + DescriptionText(task)
  }

  function MessageHead(task: Task, user: User): string {
    "Reminder for " + user.name + ": Task \"" + task.title + "\" is due "
  }

  /**
   * The message is the head naming the user and the task, then the due
   * clause and ". ", then the description (nothing for an empty or missing
   * one). The due clause is "on " and the formatted due date when there is
   * one, and "soon" exactly when there is none.
   */
  lemma FormatMessageContents(task: Task, user: User, formatDate: Timestamp -> string)
    ensures var m := FormatMessage(task, user, formatDate);
      var head := MessageHead(task, user);
      var tail := DescriptionText(task);
      head == "Reminder for " + user.name + ": Task \"" + task.title + "\" is due " &&
      |head| + |tail| <= |m| && m[..|head|] == head && m[|m| - |tail|..] == tail &&
      m[|head|..|m| - |tail|] == DueClause(task, formatDate) + ". "
    ensures task.dueDate.Some? ==> DueClause(task, formatDate) == "on " + formatDate(task.dueDate.value)
    ensures (DueClause(task, formatDate) == "soon") <==> task.dueDate.None?
    ensures Text.Truthy(task.description) ==> DescriptionText(task) == task.description.value
    ensures !Text.Truthy(task.description) ==> DescriptionText(task) == ""
  {
    if task.dueDate.Some? {
      assert DueClause(task, formatDate)[0] == 'o';
    }
    var m := FormatMessage(task, user, formatDate);
    var head := MessageHead(task, user);
    var mid := DueClause(task, formatDate) + ". ";
    var tail := DescriptionText(task);
    assert m == head + mid + tail;
    assert m[..|head|] == head;
    assert m[|m| - |tail|..] == tail;
    assert m[|head|..|m| - |tail|] == mid;
  }

  /** The ledger status for a gateway status: "queued" is recorded as "sent", anything else verbatim. */
  function LedgerStatus(gatewayStatus: string): string {
    if gatewayStatus == "queued" then "sent" else gatewayStatus
  }

  /** What one call of `sendTaskReminder` does: the gateway requests, the ledger updates, the outcome. */
  datatype Dispatch = Dispatch(requests: seq<MessageRequest>, updates: seq<LedgerUpdate>,
                               result: Result<DeliveryResult, NotificationError>)

  function Request(cfg: ServiceConfig, task: Task, user: User, channel: Channel, phone: string): MessageRequest {
    MessageRequest(FormatMessage(task, user, cfg.formatDate), Address(channel, phone),
                   Address(channel, cfg.phoneNumber), cfg.baseUrl + WebhookPath)
  }

  /** What the 'try' block of one `sendTaskReminder` call does: the requests, the ledger updates, and the result or what it throws. */
  datatype Attempt = Attempt(requests: seq<MessageRequest>, updates: seq<LedgerUpdate>,
                             outcome: Result<DeliveryResult, Thrown>)

  /**
   * The 'try' block: validate the phone number, pick the channel (recording
   * the fallback when WhatsApp is preferred but unavailable), send one
   * request and record the gateway status. It sends a request exactly when
   * the number is present, and a request it sends and the gateway rejects is
   * what it throws.
   */
  function TryDeliver(cfg: ServiceConfig, task: Task, user: User, notificationId: int,
                      probe: ProbeResult, gateway: Gateway, sent: nat): (a: Attempt)
    ensures |a.requests| <= 1 && (a.requests == [] <==> !Text.Truthy(user.phoneNumber))
    ensures a.requests == [] ==> a.outcome == Err(MissingPhoneError)
    ensures a.requests != [] ==>
      (a.outcome.Ok? <==> gateway(sent, a.requests[0]).Queued?) &&
      (a.outcome.Err? ==> a.outcome.error == gateway(sent, a.requests[0]).error)
    ensures a.outcome.Ok? ==>
      |a.requests| == 1 && gateway(sent, a.requests[0]) == Queued(a.outcome.value.messageSid, a.outcome.value.status) &&
      |a.updates| >= 1 &&
      a.updates[|a.updates| - 1] ==
        LedgerUpdate(notificationId, LedgerStatus(a.outcome.value.status), Some(a.outcome.value.messageSid), None)
    ensures a.outcome.Ok? ==>
      a.outcome.value.channel == (if user.notificationPreference == "whatsapp" && Available(probe) then WhatsApp else Sms) &&
      (a.outcome.value.channel == WhatsApp <==> Text.StartsWith(a.requests[0].to, WhatsAppPrefix))
    ensures |a.updates| <= 2 && (a.outcome.Err? ==> |a.updates| <= 1)
    ensures user.notificationPreference != "whatsapp" ==> |a.updates| == if a.outcome.Ok? then 1 else 0
  {
    match ValidatePhoneNumber(user.phoneNumber)
    case Err(error) => Attempt([], [], Err(error))
    case Ok(phone) =>
      var whatsapp := user.notificationPreference == "whatsapp";
      var channel := if whatsapp && Available(probe) then WhatsApp else Sms;
      var interim := if whatsapp && !Available(probe)
                     then [LedgerUpdate(notificationId, "pending", None, Some(FallbackNote))] else [];
      var request := Request(cfg, task, user, channel, phone);
      match gateway(sent, request)
      case Queued(sid, status) =>
        Attempt([request], interim + [LedgerUpdate(notificationId, LedgerStatus(status), Some(sid), None)],
                Ok(DeliveryResult(sid, status, channel)))
      case Rejected(error) => Attempt([request], interim, Err(error))
  }

  /** The 'catch' block for an error that does not trigger the SMS retry. */
  function Failure(notificationId: int, error: Thrown): (f: (LedgerUpdate, NotificationError)) {
    var e := FromTwilioError(error);
    (LedgerUpdate(notificationId, "failed", None, Some(e.message)), e)
  }

  /**
   * `sendTaskReminder(task, user, notificationId)` as a function of the
   * gateway's answers, when `sent` requests were sent before: the reference
   * the Service method is proved against. The recursive call is the SMS
   * retry; it is made with the preference "sms", which cannot trigger
   * another one. A request goes out exactly when the phone number is
   * present, and every call leaves at least one ledger update.
   */
  function Send(cfg: ServiceConfig, task: Task, user: User, notificationId: int,
                probe: ProbeResult, gateway: Gateway, sent: nat): (d: Dispatch)
    decreases if user.notificationPreference == "whatsapp" then 1 else 0
    ensures d.requests == [] <==> !Text.Truthy(user.phoneNumber)
    ensures |d.requests| <= 2 && 1 <= |d.updates| <= 2
    ensures user.notificationPreference != "whatsapp" ==> |d.updates| == 1
  {
    var a := TryDeliver(cfg, task, user, notificationId, probe, gateway, sent);
    match a.outcome
    case Ok(result) => Dispatch(a.requests, a.updates, Ok(result))
    case Err(error) =>
      if error.code == Some(NumericCode(WhatsAppUnreachable)) && user.notificationPreference == "whatsapp" then
        var retry := Send(cfg, task, user.(notificationPreference := "sms"), notificationId, probe, gateway, sent + 1);
        Dispatch(a.requests + retry.requests, a.updates + retry.updates, retry.result)
      else
        var (update, e) := Failure(notificationId, error);
        Dispatch(a.requests, a.updates + [update], Err(e))
  }

  /**
   * A missing or empty phone number fails before any gateway call: nothing is
   * sent and the ledger gets exactly one 'failed' update carrying the message
   * of the error that surfaced.
   */
  lemma SendWithoutPhone(cfg: ServiceConfig, task: Task, user: User, id: int,
                         probe: ProbeResult, gateway: Gateway, sent: nat)
    requires !Text.Truthy(user.phoneNumber)
    ensures var d := Send(cfg, task, user, id, probe, gateway, sent);
      d.requests == [] &&
      d.updates == [LedgerUpdate(id, "failed", None, Some(MissingPhoneError.message))] &&
      d.result == Err(FromTwilioError(MissingPhoneError)) &&
      d.result.error.code.None?
  {
  }

  /** Without the WhatsApp preference there is no retry: at most one request and no interim update. */
  lemma SendWithoutWhatsAppPreference(cfg: ServiceConfig, task: Task, user: User, id: int,
                                      probe: ProbeResult, gateway: Gateway, sent: nat)
    requires user.notificationPreference != "whatsapp"
    ensures var d := Send(cfg, task, user, id, probe, gateway, sent);
      |d.requests| <= 1 && |d.updates| == 1 &&
      d.updates[0] != LedgerUpdate(id, "pending", None, Some(FallbackNote)) &&
      (Text.Truthy(user.phoneNumber) ==>
         |d.requests| == 1 &&
         d.requests[0] == Request(cfg, task, user, Sms, ValidatePhoneNumber(user.phoneNumber).value)) &&
      (d.result.Ok? ==> d.result.value.channel == Sms)
  {
  }

  /**
   * Exactly one retry when it is due, and never more: the gateway is called
   * at most twice. A second call happens exactly when the preference is
   * WhatsApp and the first call was rejected with code 63007; it goes out
   * over SMS, and the outcome is that of the SMS attempt.
   */
  lemma {:induction false} SendRetriesAtMostOnce(cfg: ServiceConfig, task: Task, user: User, id: int,
                                                 probe: ProbeResult, gateway: Gateway, sent: nat)
    ensures var d := Send(cfg, task, user, id, probe, gateway, sent);
      |d.requests| <= 2 &&
      (|d.requests| == 2 ==>
         user.notificationPreference == "whatsapp" &&
         gateway(sent, d.requests[0]).Rejected? &&
         gateway(sent, d.requests[0]).error.code == Some(NumericCode(WhatsAppUnreachable)) &&
         d.requests[1] == Request(cfg, task, user, Sms, ValidatePhoneNumber(user.phoneNumber).value))
    ensures Text.Truthy(user.phoneNumber) && user.notificationPreference == "whatsapp" ==>
      var phone := ValidatePhoneNumber(user.phoneNumber).value;
      var first := Request(cfg, task, user, if Available(probe) then WhatsApp else Sms, phone);
      var d := Send(cfg, task, user, id, probe, gateway, sent);
      var retry := Send(cfg, task, user.(notificationPreference := "sms"), id, probe, gateway, sent + 1);
      gateway(sent, first).Rejected? && gateway(sent, first).error.code == Some(NumericCode(WhatsAppUnreachable)) ==>
        |d.requests| == 2 && d.requests[0] == first &&
        d.requests[1] == Request(cfg, task, user, Sms, phone) && d.result == retry.result
  {
    if user.notificationPreference == "whatsapp" {
      var sms := user.(notificationPreference := "sms");
      SendWithoutWhatsAppPreference(cfg, task, sms, id, probe, gateway, sent + 1);
      assert FormatMessage(task, sms, cfg.formatDate) == FormatMessage(task, user, cfg.formatDate);
    }
  }

  /**
   * Channel choice: the first request goes over WhatsApp (both addresses
   * prefixed with "whatsapp:") exactly when WhatsApp is preferred and the
   * probe found it, and over SMS (bare numbers) otherwise. It carries the
   * formatted message and the webhook as status callback.
   */
  lemma SendChoosesChannel(cfg: ServiceConfig, task: Task, user: User, id: int,
                           probe: ProbeResult, gateway: Gateway, sent: nat)
    requires Text.Truthy(user.phoneNumber)
    ensures var d := Send(cfg, task, user, id, probe, gateway, sent);
      var phone := ValidatePhoneNumber(user.phoneNumber).value;
      var whatsapp := user.notificationPreference == "whatsapp" && Available(probe);
      |d.requests| >= 1 &&
      (whatsapp ==>
         d.requests[0].to == WhatsAppPrefix + phone && d.requests[0].from == WhatsAppPrefix + cfg.phoneNumber) &&
      (!whatsapp ==> d.requests[0].to == phone && d.requests[0].from == cfg.phoneNumber) &&
      d.requests[0].statusCallback == cfg.baseUrl + WebhookPath &&
      d.requests[0].body == FormatMessage(task, user, cfg.formatDate)
  {
    var d := Send(cfg, task, user, id, probe, gateway, sent);
    var phone := ValidatePhoneNumber(user.phoneNumber).value;
    var whatsapp := user.notificationPreference == "whatsapp";
    var channel := if whatsapp && Available(probe) then WhatsApp else Sms;
    var request := Request(cfg, task, user, channel, phone);
    assert d.requests[0] == request by {
      match gateway(sent, request)
      case Queued(_, _) =>
      case Rejected(error) =>
    }
  }

  /**
   * When WhatsApp is preferred but the probe does not find it, and only then,
   * the first ledger update is 'pending' with the fallback note; a delivery
   * reported over WhatsApp implies that WhatsApp was preferred and found.
   */
  lemma SendRecordsFallback(cfg: ServiceConfig, task: Task, user: User, id: int,
                            probe: ProbeResult, gateway: Gateway, sent: nat)
    requires Text.Truthy(user.phoneNumber)
    ensures var d := Send(cfg, task, user, id, probe, gateway, sent);
      var preferred := user.notificationPreference == "whatsapp";
      |d.updates| >= 1 &&
      ((preferred && !Available(probe)) <==> d.updates[0] == LedgerUpdate(id, "pending", None, Some(FallbackNote))) &&
      (d.result.Ok? && d.result.value.channel == WhatsApp ==> preferred && Available(probe))
  {
    if user.notificationPreference == "whatsapp" {
      var sms := user.(notificationPreference := "sms");
      SendWithoutWhatsAppPreference(cfg, task, sms, id, probe, gateway, sent + 1);
    } else {
      SendWithoutWhatsAppPreference(cfg, task, user, id, probe, gateway, sent);
    }
  }

  /** The 'catch' block retries over SMS: the error is 63007 and WhatsApp is preferred. */
  predicate Retries(a: Attempt, user: User) {
    a.outcome.Err? && a.outcome.error.code == Some(NumericCode(WhatsAppUnreachable)) &&
    user.notificationPreference == "whatsapp"
  }

  /**
   * The 'catch' block of Send, on logs: after the attempt appended its
   * request and updates to `o0` and `l0`, the SMS retry or the 'failed'
   * record gives the logs `o2` and `l2` and the outcome `r` that Send
   * describes.
   */
  lemma CatchCompletesSend(cfg: ServiceConfig, task: Task, user: User, id: int, probe: ProbeResult, gateway: Gateway,
                           o0: seq<MessageRequest>, l0: seq<LedgerUpdate>, o1: seq<MessageRequest>, l1: seq<LedgerUpdate>,
                           o2: seq<MessageRequest>, l2: seq<LedgerUpdate>, r: Result<DeliveryResult, NotificationError>)
    requires TryDeliver(cfg, task, user, id, probe, gateway, |o0|).outcome.Err?
    requires var a := TryDeliver(cfg, task, user, id, probe, gateway, |o0|);
      o1 == o0 + a.requests && l1 == l0 + a.updates
    requires var a := TryDeliver(cfg, task, user, id, probe, gateway, |o0|);
      Retries(a, user) ==>
        var retry := Send(cfg, task, user.(notificationPreference := "sms"), id, probe, gateway, |o1|);
        o2 == o1 + retry.requests && l2 == l1 + retry.updates && r == retry.result
    requires var a := TryDeliver(cfg, task, user, id, probe, gateway, |o0|);
      !Retries(a, user) ==>
        o2 == o1 && l2 == l1 + [Failure(id, a.outcome.error).0] && r == Err(FromTwilioError(a.outcome.error))
    ensures var d := Send(cfg, task, user, id, probe, gateway, |o0|);
      o2 == o0 + d.requests && l2 == l0 + d.updates && r == d.result
  {
    var a := TryDeliver(cfg, task, user, id, probe, gateway, |o0|);
    if Retries(a, user) {
      var retry := Send(cfg, task, user.(notificationPreference := "sms"), id, probe, gateway, |o0| + 1);
      assert |a.requests| == 1 && |o1| == |o0| + 1;
      assert Send(cfg, task, user, id, probe, gateway, |o0|) ==
        Dispatch(a.requests + retry.requests, a.updates + retry.updates, retry.result);
      ConcatAssociative(o0, a.requests, retry.requests);
      ConcatAssociative(l0, a.updates, retry.updates);
    } else {
      assert Send(cfg, task, user, id, probe, gateway, |o0|) ==
        Dispatch(a.requests, a.updates + [Failure(id, a.outcome.error).0], Err(FromTwilioError(a.outcome.error)));
      ConcatAssociative(l0, a.updates, [Failure(id, a.outcome.error).0]);
    }
  }

  /** The property of SendSuccessRecorded, for the dispatch `d` of one call. */
  ghost predicate SuccessRecorded(d: Dispatch, gateway: Gateway, sent: nat, id: int) {
    d.result.Ok? ==>
      |d.requests| >= 1 &&
      gateway(sent + |d.requests| - 1, d.requests[|d.requests| - 1]) ==
        Queued(d.result.value.messageSid, d.result.value.status) &&
      |d.updates| >= 1 &&
      d.updates[|d.updates| - 1] ==
        LedgerUpdate(id, LedgerStatus(d.result.value.status), Some(d.result.value.messageSid), None) &&
      (d.result.value.channel == WhatsApp <==> Text.StartsWith(d.requests[|d.requests| - 1].to, WhatsAppPrefix))
  }

  /** The retry step of SendSuccessRecorded: a call that retries passes on the SMS call's property. */
  lemma RetryKeepsSuccessRecorded(cfg: ServiceConfig, task: Task, user: User, id: int,
                                  probe: ProbeResult, gateway: Gateway, sent: nat)
    requires Retries(TryDeliver(cfg, task, user, id, probe, gateway, sent), user)
    requires SuccessRecorded(Send(cfg, task, user.(notificationPreference := "sms"), id, probe, gateway, sent + 1),
                             gateway, sent + 1, id)
    ensures SuccessRecorded(Send(cfg, task, user, id, probe, gateway, sent), gateway, sent, id)
  {
    var a := TryDeliver(cfg, task, user, id, probe, gateway, sent);
    var d := Send(cfg, task, user, id, probe, gateway, sent);
    var retry := Send(cfg, task, user.(notificationPreference := "sms"), id, probe, gateway, sent + 1);
    assert |a.requests| == 1 && |retry.requests| >= 1;
    assert d.requests == a.requests + retry.requests && d.updates == a.updates + retry.updates;
    assert d.requests[|d.requests| - 1] == retry.requests[|retry.requests| - 1];
  }

  /** The case of SendSuccessRecorded without a retry: the one request sent is the one accepted. */
  lemma DirectSuccessRecorded(cfg: ServiceConfig, task: Task, user: User, id: int,
                              probe: ProbeResult, gateway: Gateway, sent: nat)
    requires !Retries(TryDeliver(cfg, task, user, id, probe, gateway, sent), user)
    ensures SuccessRecorded(Send(cfg, task, user, id, probe, gateway, sent), gateway, sent, id)
  {
    var a := TryDeliver(cfg, task, user, id, probe, gateway, sent);
    var d := Send(cfg, task, user, id, probe, gateway, sent);
    if a.outcome.Ok? {
      assert d == Dispatch(a.requests, a.updates, Ok(a.outcome.value));
      assert sent + |d.requests| - 1 == sent && d.requests[|d.requests| - 1] == a.requests[0];
    } else {
      assert d.result.Err?;
    }
  }

  /**
   * A call that succeeds leaves as its last ledger update the mapped gateway
   * status and the message id of the accepted request, which is the last
   * request sent; the result carries the raw status, and reports WhatsApp
   * exactly when that request went out over WhatsApp.
   */
  lemma {:induction false} SendSuccessRecorded(cfg: ServiceConfig, task: Task, user: User, id: int,
                                               probe: ProbeResult, gateway: Gateway, sent: nat)
    decreases if user.notificationPreference == "whatsapp" then 1 else 0
    ensures SuccessRecorded(Send(cfg, task, user, id, probe, gateway, sent), gateway, sent, id)
  {
    if Retries(TryDeliver(cfg, task, user, id, probe, gateway, sent), user) {
      SendSuccessRecorded(cfg, task, user.(notificationPreference := "sms"), id, probe, gateway, sent + 1);
      RetryKeepsSuccessRecorded(cfg, task, user, id, probe, gateway, sent);
    } else {
      DirectSuccessRecorded(cfg, task, user, id, probe, gateway, sent);
    }
  }

  /**
   * A call that fails leaves 'failed' as its last ledger update, with the
   * message of the NotificationError that is thrown; that error is a provider
   * error converted by fromTwilioError.
   */
  lemma {:induction false} SendFailureRecorded(cfg: ServiceConfig, task: Task, user: User, id: int,
                                               probe: ProbeResult, gateway: Gateway, sent: nat)
    decreases if user.notificationPreference == "whatsapp" then 1 else 0
    ensures var d := Send(cfg, task, user, id, probe, gateway, sent);
      d.result.Err? ==>
        d.updates[|d.updates| - 1] == LedgerUpdate(id, "failed", None, Some(d.result.error.message)) &&
        exists t :: d.result.error == FromTwilioError(t)
  {
    var a := TryDeliver(cfg, task, user, id, probe, gateway, sent);
    if Retries(a, user) {
      var sms := user.(notificationPreference := "sms");
      var d := Send(cfg, task, user, id, probe, gateway, sent);
      var retry := Send(cfg, task, sms, id, probe, gateway, sent + 1);
      SendFailureRecorded(cfg, task, sms, id, probe, gateway, sent + 1);
      assert d.updates == a.updates + retry.updates && d.result == retry.result;
    } else if a.outcome.Err? {
      var d := Send(cfg, task, user, id, probe, gateway, sent);
      assert d.result.error == FromTwilioError(a.outcome.error);
    }
  }

  /** The property of SendFailureIsLastRejection, for the dispatch `d` of one call. */
  ghost predicate FailureIsLastRejection(d: Dispatch, gateway: Gateway, sent: nat) {
    d.result.Err? && |d.requests| >= 1 ==>
      gateway(sent + |d.requests| - 1, d.requests[|d.requests| - 1]).Rejected? &&
      d.result.error == FromTwilioError(gateway(sent + |d.requests| - 1, d.requests[|d.requests| - 1]).error)
  }

  /** The retry step of SendFailureIsLastRejection: a call that retries passes on the SMS call's property. */
  lemma RetryKeepsFailureIsLastRejection(cfg: ServiceConfig, task: Task, user: User, id: int,
                                         probe: ProbeResult, gateway: Gateway, sent: nat)
    requires Retries(TryDeliver(cfg, task, user, id, probe, gateway, sent), user)
    requires FailureIsLastRejection(Send(cfg, task, user.(notificationPreference := "sms"), id, probe, gateway, sent + 1),
                                    gateway, sent + 1)
    ensures FailureIsLastRejection(Send(cfg, task, user, id, probe, gateway, sent), gateway, sent)
  {
    var a := TryDeliver(cfg, task, user, id, probe, gateway, sent);
    var d := Send(cfg, task, user, id, probe, gateway, sent);
    var retry := Send(cfg, task, user.(notificationPreference := "sms"), id, probe, gateway, sent + 1);
    assert |a.requests| == 1 && |retry.requests| >= 1;
    assert d.requests == a.requests + retry.requests && d.result == retry.result;
    assert d.requests[|d.requests| - 1] == retry.requests[|retry.requests| - 1];
    assert sent + |d.requests| - 1 == sent + 1 + |retry.requests| - 1;
  }

  /** The case of SendFailureIsLastRejection without a retry: the one request sent is the one rejected. */
  lemma DirectFailureIsLastRejection(cfg: ServiceConfig, task: Task, user: User, id: int,
                                     probe: ProbeResult, gateway: Gateway, sent: nat)
    requires !Retries(TryDeliver(cfg, task, user, id, probe, gateway, sent), user)
    ensures FailureIsLastRejection(Send(cfg, task, user, id, probe, gateway, sent), gateway, sent)
  {
    var a := TryDeliver(cfg, task, user, id, probe, gateway, sent);
    var d := Send(cfg, task, user, id, probe, gateway, sent);
    if a.outcome.Err? && a.requests != [] {
      assert d == Dispatch(a.requests, a.updates + [Failure(id, a.outcome.error).0], Err(FromTwilioError(a.outcome.error)));
      assert sent + |d.requests| - 1 == sent && d.requests[|d.requests| - 1] == a.requests[0];
    }
  }

  /**
   * When a failing call sent a request, its error is the gateway's rejection
   * of the last request sent, converted by fromTwilioError.
   */
  lemma {:induction false} SendFailureIsLastRejection(cfg: ServiceConfig, task: Task, user: User, id: int,
                                                      probe: ProbeResult, gateway: Gateway, sent: nat)
    decreases if user.notificationPreference == "whatsapp" then 1 else 0
    ensures FailureIsLastRejection(Send(cfg, task, user, id, probe, gateway, sent), gateway, sent)
  {
    if Retries(TryDeliver(cfg, task, user, id, probe, gateway, sent), user) {
      SendFailureIsLastRejection(cfg, task, user.(notificationPreference := "sms"), id, probe, gateway, sent + 1);
      RetryKeepsFailureIsLastRejection(cfg, task, user, id, probe, gateway, sent);
    } else {
      DirectFailureIsLastRejection(cfg, task, user, id, probe, gateway, sent);
    }
  }

  /** `processWebhook`: the ledger updates one callback causes, given the notifications found by message id. */
  function WebhookUpdates(found: seq<Notification>, messageSid: string, messageStatus: string,
                          errorCode: Option<string>, errorMessage: Option<string>): (r: seq<LedgerUpdate>)
    ensures found == [] <==> r == []
    ensures r != [] ==>
      |r| == 1 && r[0].notificationId == found[0].id &&
      r[0].status == messageStatus && r[0].messageSid == Some(messageSid)
    ensures r != [] ==> (r[0].error.Some? <==> Text.Truthy(errorCode))
    ensures r != [] && Text.Truthy(errorCode) ==>
      r[0].error == Some(errorCode.value + ": " + Config.Interpolate(errorMessage))
  {
    if found == [] then []
    else
      var error := if Text.Truthy(errorCode) then Some(errorCode.value + ": " + Config.Interpolate(errorMessage)) else None;
      [LedgerUpdate(found[0].id, messageStatus, Some(messageSid), error)]
  }

  /** The notification service object: its configuration and the logs of what it asked the gateway and the ledger to do. */
  class Service {
    const phoneNumber: string
    const baseUrl: string
    const timeZone: string
    const formatDate: Timestamp -> string
    /** Every `updateNotificationDeliveryStatus` call, oldest first. */
    var ledger: seq<LedgerUpdate>
    /** Every `client.messages.create` call, oldest first. */
    var outbox: seq<MessageRequest>

    /** `new NotificationService()` from the loaded configuration. */
    constructor (config: Config.Config, formatDate: Timestamp -> string)
      ensures phoneNumber == config.twilio.phoneNumber && baseUrl == config.app.baseUrl
      ensures timeZone == config.app.timeZone && this.formatDate == formatDate
      ensures ledger == [] && outbox == []
    {
      phoneNumber := config.twilio.phoneNumber;
      baseUrl := config.app.baseUrl;
      timeZone := config.app.timeZone;
      this.formatDate := formatDate;
      ledger, outbox := [], [];
    }

    function Cfg(): ServiceConfig {
      ServiceConfig(phoneNumber, baseUrl, formatDate)
    }

    /** The 'try' block of `sendTaskReminder`: it returns the delivery result, or what it throws. */
    method Deliver(task: Task, user: User, notificationId: int, probe: ProbeResult, gateway: Gateway)
      returns (outcome: Result<DeliveryResult, Thrown>)
      modifies this
      ensures var a := TryDeliver(Cfg(), task, user, notificationId, probe, gateway, |old(outbox)|);
        outbox == old(outbox) + a.requests && ledger == old(ledger) + a.updates && outcome == a.outcome
    {
      var validated := ValidatePhoneNumber(user.phoneNumber);
      if validated.Err? {
        return Err(validated.error);
      }
      var formattedPhone := validated.value;
      var deliveryChannel := Sms;
      if user.notificationPreference == "whatsapp" {
        var whatsAppAvailable := Available(probe);
        if !whatsAppAvailable {
          ledger := ledger + [LedgerUpdate(notificationId, "pending", None, Some(FallbackNote))];
          deliveryChannel := Sms;
        } else {
          deliveryChannel := WhatsApp;
        }
      }
      var request := MessageRequest(
        FormatMessage(task, user, formatDate),
        if deliveryChannel == WhatsApp then WhatsAppPrefix + formattedPhone else formattedPhone,
        if deliveryChannel == WhatsApp then WhatsAppPrefix + phoneNumber else phoneNumber,
        baseUrl + WebhookPath);
      var message := gateway(|outbox|, request);
      outbox := outbox + [request];
      if message.Queued? {
        ledger := ledger + [LedgerUpdate(notificationId, LedgerStatus(message.status), Some(message.sid), None)];
        return Ok(DeliveryResult(message.sid, message.status, deliveryChannel));
      }
      return Err(message.error);
    }

    /**
     * `sendTaskReminder`: the requests it sends and the ledger updates it
     * makes are appended to the logs; the outcome is the DeliveryResult or
     * the NotificationError it throws. Both are those of `Send`.
     */
    method SendTaskReminder(task: Task, user: User, notificationId: int,
                            probe: ProbeResult, gateway: Gateway)
      returns (r: Result<DeliveryResult, NotificationError>)
      modifies this
      decreases if user.notificationPreference == "whatsapp" then 1 else 0, 1
      ensures var d := Send(Cfg(), task, user, notificationId, probe, gateway, |old(outbox)|);
        outbox == old(outbox) + d.requests && ledger == old(ledger) + d.updates && r == d.result
    {
      // try
      var attempt := Deliver(task, user, notificationId, probe, gateway);
      if attempt.Ok? {
        return Ok(attempt.value);
      }
      // catch
      ghost var outbox1, ledger1 := outbox, ledger;
      r := Recover(task, user, notificationId, probe, gateway, attempt.error);
      CatchCompletesSend(Cfg(), task, user, notificationId, probe, gateway,
                         old(outbox), old(ledger), outbox1, ledger1, outbox, ledger, r);
    }

    /**
     * The 'catch' block of `sendTaskReminder` for the error `thrown`: the SMS
     * retry for code 63007 with the WhatsApp preference, otherwise a 'failed'
     * record and the NotificationError. What it appends is what `Send` adds
     * after the 'try' block.
     */
    method Recover(task: Task, user: User, notificationId: int, probe: ProbeResult, gateway: Gateway,
                   thrown: Thrown)
      returns (r: Result<DeliveryResult, NotificationError>)
      modifies this
      decreases if user.notificationPreference == "whatsapp" then 1 else 0, 0
      ensures |outbox| >= |old(outbox)| && |ledger| >= |old(ledger)|
      ensures outbox[..|old(outbox)|] == old(outbox) && ledger[..|old(ledger)|] == old(ledger)
      ensures thrown.code == Some(NumericCode(WhatsAppUnreachable)) && user.notificationPreference == "whatsapp" ==>
        var retry := Send(Cfg(), task, user.(notificationPreference := "sms"), notificationId, probe, gateway, |old(outbox)|);
        outbox == old(outbox) + retry.requests && ledger == old(ledger) + retry.updates && r == retry.result
      ensures !(thrown.code == Some(NumericCode(WhatsAppUnreachable)) && user.notificationPreference == "whatsapp") ==>
        outbox == old(outbox) && ledger == old(ledger) + [Failure(notificationId, thrown).0] &&
        r == Err(FromTwilioError(thrown))
    {
      if thrown.code == Some(NumericCode(WhatsAppUnreachable)) && user.notificationPreference == "whatsapp" {
        r := SendTaskReminder(task, user.(notificationPreference := "sms"), notificationId, probe, gateway);
        return;
      }
      var notificationError := FromTwilioError(thrown);
      ledger := ledger + [LedgerUpdate(notificationId, "failed", None, Some(notificationError.message))];
      r := Err(notificationError);
    }

    /** `processWebhook`: an unknown message id changes nothing; a known one gets one ledger update. */
    method ProcessWebhook(messageSid: string, messageStatus: string, errorCode: Option<string>,
                          errorMessage: Option<string>, found: seq<Notification>)
      modifies this
      ensures ledger == old(ledger) + WebhookUpdates(found, messageSid, messageStatus, errorCode, errorMessage)
      ensures outbox == old(outbox)
    {
      if found != [] {
        var notification := found[0];
        ledger := ledger + [LedgerUpdate(notification.id, messageStatus, Some(messageSid),
          if Text.Truthy(errorCode) then Some(errorCode.value + ": " + Config.Interpolate(errorMessage)) else None)];
      }
    }
  }
}
