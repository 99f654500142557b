/**
 * app/api/webhooks/twilio/route.ts: the provider's inbound-text webhook. The
 * body is trimmed and then lowercased; a START or STOP updates the opt-in and
 * is confirmed only if the update reports success. The result of
 * `updateMissionaryOptIn` (`None` when it throws) is an input.
 */
module TwilioWebhook {
  import opened Wrappers
  import opened Text
  import opened SmsEffects
  import SmsCommands

  const OptedInText: string := "You have successfully opted in to dinner appointment notifications."
  const OptedOutText: string := "You have successfully opted out of dinner appointment notifications."
  const HelpText: string := "Text START to receive dinner appointment notifications, or STOP to opt out."

  /** `Body.trim().toLowerCase()` compared with the keywords. */
  function Keyword(body: string): SmsCommands.Command
  {
    SmsCommands.CommandOf(Lower(Trim(body)))
  }

  /** An absent `Body` throws at `trim`. */
  function Post(from: Option<string>, body: Option<string>, updated: Option<bool>): (r: Reply)
    ensures r.status == 200 || r.status == 500
    ensures |r.effects| <= 1
  {
    if body.None? then Reply(500, "Internal server error", [])
    else
      match Keyword(body.value)
      case Other => Reply(200, HelpText, [])
      case _ =>
        var optIn := Keyword(body.value) == SmsCommands.Start;
        var update := UpdateOptIn(from, optIn);
        match updated
        case None => Reply(500, "Internal server error", [update])
        case Some(true) => Reply(200, if optIn then OptedInText else OptedOutText, [update])
        case Some(false) => Reply(200, HelpText, [update])
  }

  /**
   * Every reply that is not an exception has status 200; the confirmation is
   * sent exactly when a command's update returned true, and a failed update
   * falls through to the help text.
   */
  lemma ReplyFollowsUpdate(from: Option<string>, body: Option<string>, updated: Option<bool>)
    ensures var r := Post(from, body, updated);
            && (r.status == 500 <==> body.None? || (Keyword(body.value) != SmsCommands.Other && updated.None?))
            && (r.status != 500 ==> r.status == 200)
            && (r.message in {OptedInText, OptedOutText} <==>
                  body.Some? && Keyword(body.value) != SmsCommands.Other && updated == Some(true))
            && (body.Some? && Keyword(body.value) != SmsCommands.Other ==>
                  r.effects == [UpdateOptIn(from, Keyword(body.value) == SmsCommands.Start)])
            && (body.Some? && Keyword(body.value) == SmsCommands.Other ==> r.effects == [] && r.message == HelpText)
  {
  }

  /** The two handlers normalise in opposite orders and still recognise the same commands. */
  lemma KeywordsAgree(body: string)
    ensures Keyword(body) == SmsCommands.Keyword(Some(body))
  {
    LowerTrimCommute(body);
  }
}
