/**
 * The login page of the web client: the phone-number formatter and the
 * three-step flow (enter the phone number, set up the authenticator app when
 * the server asks for it, enter the one-time code).
 */
module LoginPage {
  import opened Wrappers
  import Text

  /** `formatPhoneNumber`: keep the digits, then add '+' unless the result starts with '+'. */
  function FormatPhoneNumber(phone: string): (r: string)
    ensures Text.StartsWith(r, "+")
  {
    var cleaned := Text.Digits(phone);
    if Text.StartsWith(cleaned, "+") then cleaned else "+" + cleaned
  }

  /** A string of digits only is its own digit string. */
  lemma {:induction false} DigitsOfDigits(s: string)
    requires Text.AllDigits(s)
    ensures Text.Digits(s) == s
  {
    if s != [] {
      assert Text.AllDigits(s[1..]) by {
        forall i | 0 <= i < |s[1..]| ensures Text.IsDigit(s[1..][i]) { assert s[1..][i] == s[i + 1]; }
      }
      DigitsOfDigits(s[1..]);
      assert s == [s[0]] + s[1..];
    }
  }

  /**
   * `\D` on one character: a digit is kept and any other character, '+'
   * included, is removed. With DigitsAppend this fixes the filter on every string.
   */
  lemma DigitsOfChar(c: char)
    ensures Text.Digits([c]) == if Text.IsDigit(c) then [c] else []
  {
    assert [c][1..] == [];
  }

  /** The digits of a concatenation are the digits of its parts. */
  lemma {:induction false} DigitsAppend(a: string, b: string)
    ensures Text.Digits(a + b) == Text.Digits(a) + Text.Digits(b)
  {
    if a != [] {
      assert (a + b)[0] == a[0];
      assert (a + b)[1..] == a[1..] + b;
      DigitsAppend(a[1..], b);
    } else {
      assert a + b == b;
    }
  }

  /** The digit string never starts with '+', so the `startsWith('+')` branch is dead. */
  lemma CleanedNeverStartsWithPlus(phone: string)
    ensures !Text.StartsWith(Text.Digits(phone), "+")
  {
    var d := Text.Digits(phone);
    if |d| >= 1 {
      assert Text.IsDigit(d[0]);
      assert d[..1] != "+";
    }
  }

  /**
   * The result is '+' followed by exactly the input's digits in their order:
   * it starts with '+', every other character (including any '+') is gone,
   * and its length is the digit count plus one.
   */
  lemma FormatPhoneNumberShape(phone: string)
    ensures var r := FormatPhoneNumber(phone);
      r == "+" + Text.Digits(phone) &&
      Text.StartsWith(r, "+") && r[1..] == Text.Digits(phone) && Text.AllDigits(r[1..]) &&
      |r| == |Text.Digits(phone)| + 1 &&
      forall c :: c in r[1..] <==> c in phone && Text.IsDigit(c)
  {
    CleanedNeverStartsWithPlus(phone);
  }

  /** Formatting an already formatted number changes nothing. */
  lemma FormatPhoneNumberIdempotent(phone: string)
    ensures FormatPhoneNumber(FormatPhoneNumber(phone)) == FormatPhoneNumber(phone)
  {
    var d := Text.Digits(phone);
    FormatPhoneNumberShape(phone);
    DigitsAppend("+", d);
    assert Text.Digits("+") == [];
    DigitsOfDigits(d);
    FormatPhoneNumberShape("+" + d);
  }

  datatype Step = PhoneEntry | Setup | Verify

  /** What `POST /api/auth/phone` answers, as the page reads it, or the error `apiRequest` throws. */
  datatype PhoneReply =
    | PhoneReply(ok: bool, requiresSetup: bool, qrCode: string, secret: string, message: Option<string>)
    | PhoneRequestFailed(error: string)

  /** What `POST /api/auth/verify` answers, or the error `apiRequest` throws. */
  datatype VerifyReply =
    | VerifyReply(ok: bool, message: Option<string>)
    | VerifyRequestFailed(error: string)

  /** `data.message || fallback` */
  function MessageOr(message: Option<string>, fallback: string): string {
    if message.Some? && message.value != "" then message.value else fallback
  }

  /** The page's state: the `useState` hooks, the location and the toasts shown. */
  class Login {
    var step: Step
    var phoneNumber: string
    var otpCode: string
    var qrCode: string
    var secretKey: string
    var isLoading: bool
    var location: Option<string>
    var toasts: seq<string>

    constructor ()
      ensures step == PhoneEntry && phoneNumber == "" && otpCode == "" && qrCode == "" && secretKey == ""
      ensures !isLoading && location.None? && toasts == []
    {
      step, phoneNumber, otpCode, qrCode, secretKey := PhoneEntry, "", "", "", "";
      isLoading, location, toasts := false, None, [];
    }

    /**
     * `handlePhoneSubmit`: asks the server with the formatted number. A
     * successful reply moves to 'setup' (keeping the QR code and the secret)
     * when setup is required and to 'verify' otherwise; an error reply or a
     * failed request shows a toast and leaves the step as it was.
     */
    method HandlePhoneSubmit(api: string -> PhoneReply, userNotFound: string)
      modifies this
      ensures var reply := api(FormatPhoneNumber(old(phoneNumber)));
        var succeeded := reply.PhoneReply? && reply.ok;
        (succeeded && reply.requiresSetup ==> step == Setup && qrCode == reply.qrCode && secretKey == reply.secret) &&
        (succeeded && !reply.requiresSetup ==> step == Verify && qrCode == old(qrCode) && secretKey == old(secretKey)) &&
        (succeeded ==> toasts == old(toasts)) &&
        (!succeeded ==> step == old(step) && qrCode == old(qrCode) && secretKey == old(secretKey)) &&
        (reply.PhoneReply? && !reply.ok ==> toasts == old(toasts) + [MessageOr(reply.message, userNotFound)]) &&
        (reply.PhoneRequestFailed? ==> toasts == old(toasts) + [reply.error])
      ensures !isLoading && phoneNumber == old(phoneNumber) && otpCode == old(otpCode) && location == old(location)
    {
      isLoading := true;
      var formattedPhone := FormatPhoneNumber(phoneNumber);
      var res := api(formattedPhone);
      if res.PhoneRequestFailed? {
        toasts := toasts + [res.error];
      } else if !res.ok {
        toasts := toasts + [MessageOr(res.message, userNotFound)];
      } else if res.requiresSetup {
        qrCode := res.qrCode;
        secretKey := res.secret;
        step := Setup;
      } else {
        step := Verify;
      }
      isLoading := false;
    }

    /**
     * `handleVerifySubmit`: on success navigates to '/'; on an error shows a
     * toast. It never changes the step.
     */
    method HandleVerifySubmit(api: (string, string) -> VerifyReply, invalidCode: string)
      modifies this
      ensures var reply := api(FormatPhoneNumber(old(phoneNumber)), old(otpCode));
        (reply.VerifyReply? && reply.ok ==> location == Some("/") && toasts == old(toasts)) &&
        (reply.VerifyReply? && !reply.ok ==>
           location == old(location) && toasts == old(toasts) + [MessageOr(reply.message, invalidCode)]) &&
        (reply.VerifyRequestFailed? ==> location == old(location) && toasts == old(toasts) + [reply.error])
      ensures step == old(step) && !isLoading && phoneNumber == old(phoneNumber) && otpCode == old(otpCode)
      ensures qrCode == old(qrCode) && secretKey == old(secretKey)
    {
      isLoading := true;
      var res := api(FormatPhoneNumber(phoneNumber), otpCode);
      if res.VerifyRequestFailed? {
        toasts := toasts + [res.error];
      } else if !res.ok {
        toasts := toasts + [MessageOr(res.message, invalidCode)];
      } else {
        location := Some("/");
      }
      isLoading := false;
    }

    /** `handleSetupComplete`: from the QR-code step on to the code entry. */
    method HandleSetupComplete()
      modifies this`step
      ensures step == Verify
    {
      step := Verify;
    }
  }
}
