/**
 * Start-up configuration: an object built from environment variables and
 * validated against a schema (account SID starting with "AC", an auth token,
 * a sender number starting with "+", an optional WhatsApp number, a base URL
 * and the time zone).
 */
module Config {
  import opened Wrappers
  import Text

  /** The environment variables the configuration reads; `None` when unset. */
  datatype Env = Env(
    accountSid: Option<string>,    // TWILIO_ACCOUNT_SID
    authToken: Option<string>,     // TWILIO_AUTH_TOKEN
    phoneNumber: Option<string>,   // TWILIO_PHONE_NUMBER
    whatsappNumber: Option<string>, // TWILIO_WHATSAPP_NUMBER
    replSlug: Option<string>,      // REPL_SLUG
    replOwner: Option<string>)     // REPL_OWNER

  /** The object handed to the schema, before validation. */
  datatype RawConfig = RawConfig(
    accountSid: Option<string>,
    authToken: Option<string>,
    phoneNumber: Option<string>,
    whatsappNumber: Option<string>,
    baseUrl: Option<string>,
    timeZone: Option<string>)

  datatype TwilioConfig = TwilioConfig(accountSid: string, authToken: string, phoneNumber: string,
                                       whatsappNumber: Option<string>)
  datatype AppConfig = AppConfig(baseUrl: string, timeZone: string)
  datatype Config = Config(twilio: TwilioConfig, app: AppConfig)

  const DefaultTimeZone := "Asia/Jerusalem"
  const InvalidConfiguration := "Invalid configuration"

  /** A value inside a template literal: an unset variable prints as "undefined". */
  function Interpolate(v: Option<string>): string {
    match v
    case Some(s) => s
    case None => "undefined"
  }

  /** `https://${REPL_SLUG}.${REPL_OWNER}.repl.co` */
  function BaseUrl(env: Env): (url: string)
    ensures Text.StartsWith(url, "https://")
  {
    "https://" + Interpolate(env.replSlug) + "." + Interpolate(env.replOwner) + ".repl.co"
  }

  /** The object loadConfig builds: the time zone is always set explicitly. */
  function Raw(env: Env): (raw: RawConfig)
    ensures raw.timeZone == Some(DefaultTimeZone) && raw.baseUrl == Some(BaseUrl(env))
  {
    RawConfig(env.accountSid, env.authToken, env.phoneNumber, env.whatsappNumber,
              Some(BaseUrl(env)), Some(DefaultTimeZone))
  }

  /**
   * `configSchema.safeParse`. `isUrl` stands for zod's URL check, which is
   * not modelled; every other rule is.
   */
  function Validate(raw: RawConfig, isUrl: string -> bool): (r: Option<Config>)
    ensures r.Some? <==>
      raw.accountSid.Some? && Text.StartsWith(raw.accountSid.value, "AC") &&
      raw.authToken.Some? &&
      raw.phoneNumber.Some? && Text.StartsWith(raw.phoneNumber.value, "+") &&
      raw.baseUrl.Some? && isUrl(raw.baseUrl.value)
    ensures r.Some? ==>
      r.value.twilio == TwilioConfig(raw.accountSid.value, raw.authToken.value,
                                     raw.phoneNumber.value, raw.whatsappNumber) &&
      r.value.app == AppConfig(raw.baseUrl.value, raw.timeZone.GetOr(DefaultTimeZone))
  {
    if raw.accountSid.Some? && Text.StartsWith(raw.accountSid.value, "AC")
       && raw.authToken.Some?
       && raw.phoneNumber.Some? && Text.StartsWith(raw.phoneNumber.value, "+")
       && raw.baseUrl.Some? && isUrl(raw.baseUrl.value)
    then
      Some(Config(TwilioConfig(raw.accountSid.value, raw.authToken.value, raw.phoneNumber.value,
                               raw.whatsappNumber),
                  AppConfig(raw.baseUrl.value, raw.timeZone.GetOr(DefaultTimeZone))))
    else None
  }

  /**
   * `loadConfig()`: the validated configuration, or the error
   * "Invalid configuration" when any rule fails.
   */
  function LoadConfig(env: Env, isUrl: string -> bool): (r: Result<Config, string>)
    ensures r.Ok? <==>
      env.accountSid.Some? && Text.StartsWith(env.accountSid.value, "AC") &&
      env.authToken.Some? &&
      env.phoneNumber.Some? && Text.StartsWith(env.phoneNumber.value, "+") &&
      isUrl(BaseUrl(env))
    ensures r.Err? ==> r.error == InvalidConfiguration
    ensures r.Ok? ==>
      r.value.twilio.accountSid == env.accountSid.value &&
      r.value.twilio.authToken == env.authToken.value &&
      r.value.twilio.phoneNumber == env.phoneNumber.value &&
      r.value.twilio.whatsappNumber == env.whatsappNumber &&
      r.value.app.baseUrl == BaseUrl(env) &&
      r.value.app.timeZone == DefaultTimeZone
  {
    match Validate(Raw(env), isUrl)
    case None => Err(InvalidConfiguration)
    case Some(c) => Ok(c)
  }

  /** A loaded configuration satisfies the schema's string rules. */
  lemma LoadedConfigWellFormed(env: Env, isUrl: string -> bool)
    requires LoadConfig(env, isUrl).Ok?
    ensures var c := LoadConfig(env, isUrl).value;
      Text.StartsWith(c.twilio.accountSid, "AC") && Text.StartsWith(c.twilio.phoneNumber, "+") &&
      Text.StartsWith(c.app.baseUrl, "https://") && isUrl(c.app.baseUrl)
  {
  }
}
