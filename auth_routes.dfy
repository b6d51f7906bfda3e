/**
 * The two sign-in routes: `POST /phone` looks the user up and, when the user
 * has no authenticator secret yet, issues a temporary one in the session;
 * `POST /verify` checks a one-time code against the permanent or temporary
 * secret, promotes a temporary secret to the user record, and marks the
 * session authenticated.
 *
 * The user lookup, secret generation, QR-code rendering and TOTP check are
 * parameters; `storage.updateUser` is an append-only log of secret writes.
 */
module AuthRoutes {
  import opened Wrappers
  import opened Schema
  import Text
  import opened AuthMiddleware

  /** What `storage.getUserByPhone` yields: a user, none, or a thrown error. */
  datatype Lookup = Found(user: User) | NotFound | LookupThrew

  /** `speakeasy.generateSecret`: the base32 secret and its otpauth URL. */
  datatype GeneratedSecret = GeneratedSecret(base32: string, otpauthUrl: string)

  /** The JSON bodies the routes answer with. */
  datatype Body =
    | Message(message: string)
    | SetupRequired(qrCode: string, secret: string)   // { requiresSetup: true, qrCode, secret }
    | SetupDone                                        // { requiresSetup: false }
    | Success                                          // { success: true }

  datatype Reply = Reply(status: int, body: Body)

  /** One `storage.updateUser(userId, { twoFactorSecret })` call. */
  datatype SecretWrite = SecretWrite(userId: int, twoFactorSecret: string)

  const InternalError := Reply(500, Message("Internal server error"))
  const NotFoundReply := Reply(404, Message("User not found"))

  /** The route's own phone formatting: prefix '+' unless it is already there. */
  function FormatPhone(phone: string): (r: string)
    ensures Text.StartsWith(r, "+")
    ensures Text.StartsWith(phone, "+") ==> r == phone
    ensures !Text.StartsWith(phone, "+") ==> r[1..] == phone
  {
    if Text.StartsWith(phone, "+") then phone else "+" + phone
  }

  /** Formatting twice gives what formatting once gives. */
  lemma FormatPhoneIdempotent(phone: string)
    ensures FormatPhone(FormatPhone(phone)) == FormatPhone(phone)
  {
  }

  /** `user.twoFactorSecret || req.session.tempSecret`, then `if (!secret)`: the permanent secret wins. */
  function ChooseSecret(permanent: Option<string>, temp: Option<string>): (r: Option<string>)
    ensures r.Some? <==> Text.Truthy(permanent) || Text.Truthy(temp)
    ensures Text.Truthy(permanent) ==> r == permanent
    ensures !Text.Truthy(permanent) && Text.Truthy(temp) ==> r == temp
    ensures r.Some? ==> r.value != ""
  {
    if Text.Truthy(permanent) then permanent else if Text.Truthy(temp) then temp else None
  }

  /** The outcome of `POST /phone`: the reply and the session afterwards. */
  datatype PhoneOutcome = PhoneOutcome(reply: Reply, session: SessionData)

  function PhoneRoute(s: SessionData, phoneNumber: Option<string>, lookup: string -> Lookup,
                      generate: string -> GeneratedSecret, toDataUrl: string -> Option<string>,
                      saveFails: bool): (o: PhoneOutcome)
    ensures o.session.isAuthenticated == s.isAuthenticated
    ensures o.reply.status in {200, 400, 404, 500}
  {
    if !Text.Truthy(phoneNumber) then PhoneOutcome(Reply(400, Message("Phone number is required")), s)
    else match lookup(FormatPhone(phoneNumber.value))
      case LookupThrew => PhoneOutcome(InternalError, s)
      case NotFound => PhoneOutcome(NotFoundReply, s)
      case Found(user) =>
        if !Text.Truthy(user.twoFactorSecret) then
          var secret := generate("Family Tasks:" + user.name);
          match toDataUrl(secret.otpauthUrl)
          case None => PhoneOutcome(InternalError, s)
          case Some(qrCode) =>
            var s' := s.(tempSecret := Some(secret.base32), userId := Some(user.id));
            if saveFails then PhoneOutcome(InternalError, s')
            else PhoneOutcome(Reply(200, SetupRequired(qrCode, secret.base32)), s')
        else
          var s' := s.(userId := Some(user.id));
          if saveFails then PhoneOutcome(InternalError, s')
          else PhoneOutcome(Reply(200, SetupDone), s')
  }

  /**
   * `POST /phone` never authenticates; it sets the session's user exactly
   * when the user was found (and, for a user without a secret, the QR code
   * rendered), and issues a temporary secret exactly for a user without a
   * permanent one. It answers 200 with the right `requiresSetup` flag only
   * when the session was saved. A missing number gets 400 and an unknown
   * user 404, both with the session untouched; a lookup or QR rendering that
   * throws gets 500, also with the session untouched.
   */
  lemma PhoneRouteProperties(s: SessionData, phoneNumber: Option<string>, lookup: string -> Lookup,
                             generate: string -> GeneratedSecret, toDataUrl: string -> Option<string>,
                             saveFails: bool)
    ensures var o := PhoneRoute(s, phoneNumber, lookup, generate, toDataUrl, saveFails);
      !Text.Truthy(phoneNumber) ==> o == PhoneOutcome(Reply(400, Message("Phone number is required")), s)
    ensures var o := PhoneRoute(s, phoneNumber, lookup, generate, toDataUrl, saveFails);
      Text.Truthy(phoneNumber) && lookup(FormatPhone(phoneNumber.value)).NotFound? ==>
        o == PhoneOutcome(NotFoundReply, s)
    ensures var o := PhoneRoute(s, phoneNumber, lookup, generate, toDataUrl, saveFails);
      Text.Truthy(phoneNumber) && lookup(FormatPhone(phoneNumber.value)).LookupThrew? ==>
        o == PhoneOutcome(InternalError, s)
    ensures var o := PhoneRoute(s, phoneNumber, lookup, generate, toDataUrl, saveFails);
      Text.Truthy(phoneNumber) && lookup(FormatPhone(phoneNumber.value)).Found? ==>
        var user := lookup(FormatPhone(phoneNumber.value)).user;
        (!Text.Truthy(user.twoFactorSecret) && toDataUrl(generate("Family Tasks:" + user.name).otpauthUrl).None? ==>
           o == PhoneOutcome(InternalError, s)) &&
        (saveFails ==> o.reply == InternalError)
    ensures var o := PhoneRoute(s, phoneNumber, lookup, generate, toDataUrl, saveFails);
      (o.reply.status == 200 <==>
         Text.Truthy(phoneNumber) && lookup(FormatPhone(phoneNumber.value)).Found? && !saveFails &&
         (!Text.Truthy(lookup(FormatPhone(phoneNumber.value)).user.twoFactorSecret) ==>
            toDataUrl(generate("Family Tasks:" + lookup(FormatPhone(phoneNumber.value)).user.name).otpauthUrl).Some?)) &&
      (o.reply.status == 200 ==>
         var user := lookup(FormatPhone(phoneNumber.value)).user;
         o.session.userId == Some(user.id) &&
         (o.reply.body.SetupRequired? <==> !Text.Truthy(user.twoFactorSecret)) &&
         (o.reply.body.SetupRequired? ==>
            o.session.tempSecret == Some(o.reply.body.secret) &&
            o.reply.body.secret == generate("Family Tasks:" + user.name).base32) &&
         (o.reply.body.SetupDone? ==> o.session.tempSecret == s.tempSecret))
  {
  }

  /** The outcome of `POST /verify`: the reply, the session afterwards and the secrets written. */
  datatype VerifyOutcome = VerifyOutcome(reply: Reply, session: SessionData, writes: seq<SecretWrite>)

  function VerifyRoute(s: SessionData, phoneNumber: Option<string>, code: Option<string>,
                       lookup: string -> Lookup, totp: (string, string) -> bool, saveFails: bool): (o: VerifyOutcome)
    ensures |o.writes| <= 1
    ensures o.reply.status in {200, 400, 401, 404, 500}
  {
    if !Text.Truthy(phoneNumber) || !Text.Truthy(code) then
      VerifyOutcome(Reply(400, Message("Phone number and code are required")), s, [])
    else match lookup(FormatPhone(phoneNumber.value))
      case LookupThrew => VerifyOutcome(InternalError, s, [])
      case NotFound => VerifyOutcome(NotFoundReply, s, [])
      case Found(user) =>
        var secret := ChooseSecret(user.twoFactorSecret, s.tempSecret);
        if secret.None? then VerifyOutcome(Reply(400, Message("2FA not set up")), s, [])
        else if !totp(secret.value, code.value) then VerifyOutcome(Reply(401, Message("Invalid code")), s, [])
        else
          var promote := !Text.Truthy(user.twoFactorSecret) && Text.Truthy(s.tempSecret);
          var writes := if promote then [SecretWrite(user.id, s.tempSecret.value)] else [];
          var s1 := if promote then s.(tempSecret := None) else s;
          var s' := s1.(isAuthenticated := Some(true), userId := Some(user.id));
          VerifyOutcome(if saveFails then InternalError else Reply(200, Success), s', writes)
  }

  /** Both fields are present, the user is found, and the code checks against the secret `/verify` chooses. */
  predicate CodeChecks(s: SessionData, phoneNumber: Option<string>, code: Option<string>,
                       lookup: string -> Lookup, totp: (string, string) -> bool) {
    Text.Truthy(phoneNumber) && Text.Truthy(code) && lookup(FormatPhone(phoneNumber.value)).Found? &&
    var user := lookup(FormatPhone(phoneNumber.value)).user;
    var secret := ChooseSecret(user.twoFactorSecret, s.tempSecret);
    secret.Some? && totp(secret.value, code.value)
  }

  /**
   * `POST /verify` succeeds exactly when the code checks and the session is
   * saved. Once the code checks, the session is authenticated as that user,
   * and a temporary secret is written to the user and dropped from the
   * session exactly when the user had no permanent one. When the code does
   * not check, the session is left as it was (so it is not authenticated by
   * this call) and nothing is written; the reply is 400 for a missing field,
   * 404 for an unknown user, 500 for a lookup that throws, 400 when no
   * secret is available and 401 for a wrong code.
   */
  lemma VerifyRouteProperties(s: SessionData, phoneNumber: Option<string>, code: Option<string>,
                              lookup: string -> Lookup, totp: (string, string) -> bool, saveFails: bool)
    ensures var o := VerifyRoute(s, phoneNumber, code, lookup, totp, saveFails);
      o.reply == Reply(200, Success) <==> CodeChecks(s, phoneNumber, code, lookup, totp) && !saveFails
    ensures var o := VerifyRoute(s, phoneNumber, code, lookup, totp, saveFails);
      CodeChecks(s, phoneNumber, code, lookup, totp) ==>
        var user := lookup(FormatPhone(phoneNumber.value)).user;
        o.session.isAuthenticated == Some(true) && o.session.userId == Some(user.id) &&
        (saveFails ==> o.reply == InternalError) &&
        (!Text.Truthy(user.twoFactorSecret) && Text.Truthy(s.tempSecret) ==>
           o.writes == [SecretWrite(user.id, s.tempSecret.value)] && o.session.tempSecret.None?) &&
        (Text.Truthy(user.twoFactorSecret) || !Text.Truthy(s.tempSecret) ==>
           o.writes == [] && o.session.tempSecret == s.tempSecret)
    ensures var o := VerifyRoute(s, phoneNumber, code, lookup, totp, saveFails);
      !CodeChecks(s, phoneNumber, code, lookup, totp) ==> o.session == s && o.writes == []
    ensures var o := VerifyRoute(s, phoneNumber, code, lookup, totp, saveFails);
      !Text.Truthy(phoneNumber) || !Text.Truthy(code) ==>
        o.reply == Reply(400, Message("Phone number and code are required"))
    ensures var o := VerifyRoute(s, phoneNumber, code, lookup, totp, saveFails);
      Text.Truthy(phoneNumber) && Text.Truthy(code) ==>
        (lookup(FormatPhone(phoneNumber.value)).NotFound? ==> o.reply == NotFoundReply) &&
        (lookup(FormatPhone(phoneNumber.value)).LookupThrew? ==> o.reply == InternalError)
    ensures var o := VerifyRoute(s, phoneNumber, code, lookup, totp, saveFails);
      Text.Truthy(phoneNumber) && Text.Truthy(code) && lookup(FormatPhone(phoneNumber.value)).Found? ==>
        var secret := ChooseSecret(lookup(FormatPhone(phoneNumber.value)).user.twoFactorSecret, s.tempSecret);
        (secret.None? ==> o.reply == Reply(400, Message("2FA not set up"))) &&
        (secret.Some? && !totp(secret.value, code.value) ==> o.reply == Reply(401, Message("Invalid code")))
  {
  }

  /**
   * The setup flow: a user without a permanent secret asks `/phone`, and
   * then sends `/verify` a code that checks against the secret just issued.
   * The session ends authenticated as that user, and exactly that secret is
   * written to the user record.
   */
  lemma SetupThenVerify(s: SessionData, phone: string, code: string, lookup: string -> Lookup,
                        generate: string -> GeneratedSecret, toDataUrl: string -> Option<string>,
                        totp: (string, string) -> bool)
    requires phone != "" && code != ""
    requires lookup(FormatPhone(phone)).Found? && !Text.Truthy(lookup(FormatPhone(phone)).user.twoFactorSecret)
    requires var user := lookup(FormatPhone(phone)).user;
      var secret := generate("Family Tasks:" + user.name);
      secret.base32 != "" && toDataUrl(secret.otpauthUrl).Some? && totp(secret.base32, code)
    ensures var user := lookup(FormatPhone(phone)).user;
      var p := PhoneRoute(s, Some(phone), lookup, generate, toDataUrl, false);
      var v := VerifyRoute(p.session, Some(phone), Some(code), lookup, totp, false);
      p.reply.body.SetupRequired? &&
      v.reply == Reply(200, Success) &&
      v.session.isAuthenticated == Some(true) && v.session.userId == Some(user.id) &&
      v.session.tempSecret.None? &&
      v.writes == [SecretWrite(user.id, generate("Family Tasks:" + user.name).base32)]
  {
    PhoneRouteProperties(s, Some(phone), lookup, generate, toDataUrl, false);
    var p := PhoneRoute(s, Some(phone), lookup, generate, toDataUrl, false);
    VerifyRouteProperties(p.session, Some(phone), Some(code), lookup, totp, false);
  }

  /** The routes' side of `storage`: the log of `updateUser` secret writes. */
  class SecretStore {
    var writes: seq<SecretWrite>

    constructor ()
      ensures writes == []
    {
      writes := [];
    }
  }

  /** `router.post("/phone", ...)`, changing the session in place. */
  method HandlePhone(session: Session, phoneNumber: Option<string>, lookup: string -> Lookup,
                     generate: string -> GeneratedSecret, toDataUrl: string -> Option<string>,
                     saveFails: bool) returns (reply: Reply)
    modifies session
    ensures var o := PhoneRoute(old(session.Data()), phoneNumber, lookup, generate, toDataUrl, saveFails);
      reply == o.reply && session.Data() == o.session
  {
    if phoneNumber.None? || phoneNumber.value == "" {
      return Reply(400, Message("Phone number is required"));
    }
    var formattedPhone := if Text.StartsWith(phoneNumber.value, "+") then phoneNumber.value else "+" + phoneNumber.value;
    var found := lookup(formattedPhone);
    if found.LookupThrew? {
      return InternalError;
    }
    if found.NotFound? {
      return NotFoundReply;
    }
    var user := found.user;
    if user.twoFactorSecret.None? || user.twoFactorSecret.value == "" {
      var secret := generate("Family Tasks:" + user.name);
      var qrCode := toDataUrl(secret.otpauthUrl);
      if qrCode.None? {
        return InternalError;
      }
      session.tempSecret := Some(secret.base32);
      session.userId := Some(user.id);
      if saveFails {
        return InternalError;
      }
      return Reply(200, SetupRequired(qrCode.value, secret.base32));
    }
    session.userId := Some(user.id);
    if saveFails {
      return InternalError;
    }
    return Reply(200, SetupDone);
  }

  /** `router.post("/verify", ...)`, changing the session and the user store in place. */
  method HandleVerify(session: Session, store: SecretStore, phoneNumber: Option<string>, code: Option<string>,
                      lookup: string -> Lookup, totp: (string, string) -> bool, saveFails: bool)
    returns (reply: Reply)
    modifies session, store
    ensures var o := VerifyRoute(old(session.Data()), phoneNumber, code, lookup, totp, saveFails);
      reply == o.reply && session.Data() == o.session && store.writes == old(store.writes) + o.writes
  {
    if phoneNumber.None? || phoneNumber.value == "" || code.None? || code.value == "" {
      return Reply(400, Message("Phone number and code are required"));
    }
    var formattedPhone := if Text.StartsWith(phoneNumber.value, "+") then phoneNumber.value else "+" + phoneNumber.value;
    var found := lookup(formattedPhone);
    if found.LookupThrew? {
      return InternalError;
    }
    if found.NotFound? {
      return NotFoundReply;
    }
    var user := found.user;
    var secret := if Text.Truthy(user.twoFactorSecret) then user.twoFactorSecret else session.tempSecret;
    if !Text.Truthy(secret) {
      return Reply(400, Message("2FA not set up"));
    }
    var verified := totp(secret.value, code.value);
    if !verified {
      return Reply(401, Message("Invalid code"));
    }
    if !Text.Truthy(user.twoFactorSecret) && Text.Truthy(session.tempSecret) {
      store.writes := store.writes + [SecretWrite(user.id, session.tempSecret.value)];
      session.tempSecret := None;
    }
    session.isAuthenticated := Some(true);
    session.userId := Some(user.id);
    if saveFails {
      return InternalError;
    }
    return Reply(200, Success);
  }
}
