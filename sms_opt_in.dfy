/**
 * app/api/sms/opt-in/route.ts: the web sign-up for appointment texts. The
 * phone and the missionary type are validated, then the opt-in is stored,
 * the consent logged and a confirmation texted, in that order. The results
 * of `updateMissionaryOptIn` (`None` when it throws) and of `logConsent` are
 * inputs; a failed confirmation text is swallowed, so its outcome is not.
 */
module SmsOptIn {
  import opened Wrappers
  import opened Text
  import opened SmsEffects

  const ValidTypes: seq<string> := ["Elders", "Sisters", "Taylor McKendrick"]

  const ConfirmationText: string :=
    "You have successfully signed up for dinner appointment notifications. Reply STOP at any time to opt out."

  /** `/^\+1\d{10}$/`: a plus, a one, and exactly ten ASCII digits. */
  predicate IsValidPhone(phone: string)
  {
    |phone| == 12 && phone[0] == '+' && phone[1] == '1' && forall i :: 2 <= i < 12 ==> IsDigit(phone[i])
  }

  /** `x-forwarded-for || x-real-ip || 'unknown'`: an absent or empty header falls through. */
  function ClientIp(forwardedFor: Option<string>, realIp: Option<string>): (ip: string)
    ensures Truthy(forwardedFor) ==> ip == forwardedFor.value
    ensures !Truthy(forwardedFor) && Truthy(realIp) ==> ip == realIp.value
    ensures !Truthy(forwardedFor) && !Truthy(realIp) ==> ip == "unknown"
  {
    OrElse(forwardedFor, OrElse(realIp, "unknown"))
  }

  /** What the sign-up form submits for what was typed: `+1` and the digits typed (app/components/SMSOptIn.tsx). */
  function FormatPhone(typed: string): string
  {
    "+1" + KeepDigits(typed)
  }

  /** The form's number passes the server's check exactly when ten digits were typed. */
  lemma FormattedPhoneValid(typed: string)
    ensures IsValidPhone(FormatPhone(typed)) <==> |KeepDigits(typed)| == 10
  {
    var f := FormatPhone(typed);
    assert forall i :: 2 <= i < |f| ==> f[i] == KeepDigits(typed)[i - 2];
  }

  /** Every valid number is what the form submits for its own last ten characters. */
  lemma ValidPhoneIsFormatted(phone: string)
    requires IsValidPhone(phone)
    ensures FormatPhone(phone[2..]) == phone
  {
    KeepDigitsOfDigits(phone[2..]);
    assert phone == phone[..2] + phone[2..];
  }

  /**
   * The `POST` handler. `phone` and `missionaryType` are the JSON fields
   * (`None` when absent: reading `match` of an absent phone throws, and an
   * absent type is not in the list).
   */
  function Post(phone: Option<string>, missionaryType: Option<string>, forwardedFor: Option<string>,
                realIp: Option<string>, updated: Option<bool>, logged: bool, fromNumber: Option<string>): (r: Reply)
    ensures r.status == 200 || r.status == 400 || r.status == 500
    ensures r.status == 200 ==> |r.effects| == 3
  {
    if phone.None? then Reply(500, "Internal server error", [])
    else if !IsValidPhone(phone.value) then Reply(400, "Invalid phone number format", [])
    else if !(missionaryType.Some? && missionaryType.value in ValidTypes) then Reply(400, "Invalid missionary type", [])
    else
      var update := UpdateOptIn(phone, true);
      match updated
      case None => Reply(500, "Internal server error", [update])
      case Some(false) => Reply(500, "Failed to update opt-in status", [update])
      case Some(true) =>
        var log := LogConsent(phone, missionaryType.value, ClientIp(forwardedFor, realIp), None, None);
        if !logged then Reply(500, "Internal server error", [update, log])
        else Reply(200, "success", [update, log, SendText(phone.value, ConfirmationText, fromNumber)])
  }

  /**
   * Validation: a request is refused with 400 exactly when a present phone
   * fails the format or the type is not one of the three, the phone being
   * checked first; a refused request has no effect at all.
   */
  lemma OptInValidation(phone: Option<string>, missionaryType: Option<string>, forwardedFor: Option<string>,
                        realIp: Option<string>, updated: Option<bool>, logged: bool, fromNumber: Option<string>)
    ensures var r := Post(phone, missionaryType, forwardedFor, realIp, updated, logged, fromNumber);
            && (r.status == 400 <==> phone.Some? && (!IsValidPhone(phone.value)
                                                     || !(missionaryType.Some? && missionaryType.value in ValidTypes)))
            && (phone.Some? && !IsValidPhone(phone.value) ==> r.message == "Invalid phone number format")
            && (r.status == 400 ==> r.effects == [])
            && (r.effects != [] ==> IsValidPhone(phone.value) && missionaryType.value in ValidTypes)
  {
  }

  /**
   * Ordering of the effects: they are always a prefix of update, log, text;
   * the consent is logged only after a successful update, and the confirmation
   * is texted exactly when the request succeeds.
   */
  lemma OptInEffectOrder(phone: Option<string>, missionaryType: Option<string>, forwardedFor: Option<string>,
                         realIp: Option<string>, updated: Option<bool>, logged: bool, fromNumber: Option<string>)
    ensures var r := Post(phone, missionaryType, forwardedFor, realIp, updated, logged, fromNumber);
            && (r.effects != [] ==>
                  && phone.Some? && missionaryType.Some?
                  && r.effects <= [UpdateOptIn(phone, true),
                                   LogConsent(phone, missionaryType.value, ClientIp(forwardedFor, realIp), None, None),
                                   SendText(phone.value, ConfirmationText, fromNumber)])
            && (|r.effects| >= 2 ==> updated == Some(true))
            && (r.status == 200 <==> |r.effects| == 3)
            && (r.status == 200 <==> phone.Some? && IsValidPhone(phone.value) && missionaryType.Some?
                                     && missionaryType.value in ValidTypes && updated == Some(true) && logged)
  {
  }
}
