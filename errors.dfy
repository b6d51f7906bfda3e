/**
 * The error taxonomy of the notification service: a base `NotificationError`
 * carrying an optional machine-readable code, an HTTP-like status and details,
 * and three subclasses that fix code and status.
 */
module Errors {
  import opened Wrappers
  import Text

  /**
   * The `code` property of a thrown value: the messaging provider sets a
   * number, the Node runtime a string such as "ECONNRESET".
   */
  datatype ErrorCode = NumericCode(number: int) | TextCode(text: string)

  /**
   * A value thrown inside the service: a JavaScript `Error` (or a provider
   * exception) with its message and, when it was set, an error code and an
   * HTTP status.
   */
  datatype Thrown = Thrown(message: string, code: Option<ErrorCode>, status: Option<int>)

  /** `code?.toString()`: a number in decimal, a string unchanged. */
  function CodeString(code: ErrorCode): (s: string)
    ensures code.TextCode? ==> s == code.text
    ensures code.NumericCode? ==> s == Text.IntToString(code.number)
  {
    match code
    case NumericCode(n) => Text.IntToString(n)
    case TextCode(t) => t
  }

  /** The optional `details` record of an error. */
  datatype Details =
    | TwilioErrorDetails(twilioError: Thrown)      // `{ twilioError: error }`
    | CallerDetails(entries: map<string, string>)  // anything a caller passes

  /**
   * One error object. JavaScript subclasses are distinguished by `name`;
   * every value of this type is an `instanceof NotificationError`.
   */
  datatype NotificationError = NotificationError(
    name: string,
    message: string,
    code: Option<string>,
    status: Option<int>,
    details: Option<Details>)

  const DeliveryCode := "DELIVERY_ERROR"
  const ConfigCode := "CONFIG_ERROR"
  const ValidationCode := "VALIDATION_ERROR"

  /** `new NotificationError(message, code, status, details)` */
  function NewNotificationError(message: string, code: Option<string>, status: Option<int>,
                                details: Option<Details>): (e: NotificationError)
    ensures e.name == "NotificationError" && e.message == message
    ensures e.code == code && e.status == status && e.details == details
  {
    NotificationError("NotificationError", message, code, status, details)
  }

  /**
   * `NotificationError.fromTwilioError(error)`: the provider's message is kept,
   * a numeric code is rendered as a decimal string and a string code is kept
   * as it is (an absent code stays absent), the status is copied, and the
   * provider error is kept as details.
   */
  function FromTwilioError(error: Thrown): (e: NotificationError)
    ensures e.name == "NotificationError"
    ensures e.message == error.message
    ensures e.code.Some? <==> error.code.Some?
    ensures error.code.Some? && error.code.value.NumericCode? ==>
      e.code == Some(Text.IntToString(error.code.value.number))
    ensures error.code.Some? && error.code.value.TextCode? ==> e.code == Some(error.code.value.text)
    ensures e.status == error.status
    ensures e.details == Some(TwilioErrorDetails(error))
  {
    NewNotificationError(
      error.message,
      match error.code
        case None => None
        case Some(c) => Some(CodeString(c)),
      error.status,
      Some(TwilioErrorDetails(error)))
  }

  /** The code string of FromTwilioError reads back as the provider's numeric code. */
  lemma FromTwilioErrorKeepsCode(error: Thrown)
    requires error.code.Some? && error.code.value.NumericCode?
    ensures var c := FromTwilioError(error).code.value;
      ((c[0] == '-' && Text.AllDigits(c[1..])) || Text.AllDigits(c)) &&
      Text.ParseInt(c) == error.code.value.number
  {
    Text.IntToStringRoundTrip(error.code.value.number);
  }

  /** Two provider errors with different numeric codes give different error codes. */
  lemma FromTwilioErrorDistinguishesCodes(a: Thrown, b: Thrown)
    requires a.code.Some? && b.code.Some? && a.code.value.NumericCode? && b.code.value.NumericCode?
    requires a.code != b.code
    ensures FromTwilioError(a).code != FromTwilioError(b).code
  {
    if FromTwilioError(a).code == FromTwilioError(b).code {
      Text.IntToStringInjective(a.code.value.number, b.code.value.number);
    }
  }

  /** `new DeliveryError(message, details)` */
  function DeliveryError(message: string, details: Option<Details>): (e: NotificationError)
    ensures e.name == "DeliveryError" && e.message == message && e.details == details
    ensures e.code == Some(DeliveryCode) && e.status == Some(400)
  {
    NotificationError("DeliveryError", message, Some(DeliveryCode), Some(400), details)
  }

  /** `new ConfigurationError(message, details)` */
  function ConfigurationError(message: string, details: Option<Details>): (e: NotificationError)
    ensures e.name == "ConfigurationError" && e.message == message && e.details == details
    ensures e.code == Some(ConfigCode) && e.status == Some(500)
  {
    NotificationError("ConfigurationError", message, Some(ConfigCode), Some(500), details)
  }

  /** `new ValidationError(message, details)` */
  function ValidationError(message: string, details: Option<Details>): (e: NotificationError)
    ensures e.name == "ValidationError" && e.message == message && e.details == details
    ensures e.code == Some(ValidationCode) && e.status == Some(400)
  {
    NotificationError("ValidationError", message, Some(ValidationCode), Some(400), details)
  }

  /** The subclass a code belongs to, if it is one of the three fixed codes. */
  function SubclassOfCode(code: Option<string>): (name: Option<string>)
  {
    if code == Some(DeliveryCode) then Some("DeliveryError")
    else if code == Some(ConfigCode) then Some("ConfigurationError")
    else if code == Some(ValidationCode) then Some("ValidationError")
    else None
  }

  /**
   * The three subclasses use three distinct codes, so the code of an error
   * built by any of them identifies the subclass. A provider error with a
   * numeric code (or none) is not confused with any of them, since its code is
   * a decimal number; a string code is passed through, so a provider that
   * used one of the three names would be.
   */
  lemma SubclassCodesIdentifyClass(message: string, details: Option<Details>, provider: Thrown)
    ensures SubclassOfCode(DeliveryError(message, details).code) == Some("DeliveryError")
    ensures SubclassOfCode(ConfigurationError(message, details).code) == Some("ConfigurationError")
    ensures SubclassOfCode(ValidationError(message, details).code) == Some("ValidationError")
    ensures provider.code.None? || provider.code.value.NumericCode? ==>
      SubclassOfCode(FromTwilioError(provider).code) == None
    ensures provider.code.Some? && provider.code.value.TextCode? ==>
      SubclassOfCode(FromTwilioError(provider).code) == SubclassOfCode(Some(provider.code.value.text))
  {
    var c := FromTwilioError(provider).code;
    if provider.code.Some? && provider.code.value.NumericCode? {
      var s := c.value;
      assert s == Text.IntToString(provider.code.value.number);
      assert s[0] == '-' || Text.IsDigit(s[0]);
      assert s[0] != 'D' && s[0] != 'C' && s[0] != 'V';
      assert DeliveryCode[0] == 'D' && ConfigCode[0] == 'C' && ValidationCode[0] == 'V';
    }
  }
}
