/**
 * app/api/sms/route.ts: replies to texted START and STOP. The body is
 * lowercased and then trimmed; a command updates the opt-in and logs the
 * consent change before replying. The results of `updateMissionaryOptIn`
 * (`None` when it throws) and of `logConsent` are inputs.
 */
module SmsCommands {
  import opened Wrappers
  import opened Text
  import opened ConsentLogger
  import opened SmsEffects

  datatype Command = Start | Stop | Other

  const OptedInText: string := "You have successfully opted in to receive SMS notifications. Reply STOP at any time to opt out."
  const OptedOutText: string := "You have successfully opted out of SMS notifications. Reply START to opt back in."
  const HelpText: string := "To manage your SMS notifications:\n- Reply START to opt in\n- Reply STOP to opt out"

  /** The command a normalised body names. */
  function CommandOf(normalised: string): (c: Command)
    ensures c == Start <==> normalised == "start"
    ensures c == Stop <==> normalised == "stop"
  {
    if normalised == "start" then Start else if normalised == "stop" then Stop else Other
  }

  /** `Body?.toLowerCase().trim()` compared with the keywords; an absent body is no command. */
  function Keyword(body: Option<string>): Command
  {
    if body.None? then Other else CommandOf(Trim(Lower(body.value)))
  }

  function Post(body: Option<string>, from: Option<string>, updated: Option<bool>, logged: bool): (r: Reply)
    ensures r.status == 200 || r.status == 500
    ensures r.status == 500 ==> |r.effects| >= 1 && r.effects[0] == UpdateOptIn(from, Keyword(body) == Start)
  {
    match Keyword(body)
    case Other => Reply(200, HelpText, [])
    case _ =>
      var optIn := Keyword(body) == Start;
      var update := UpdateOptIn(from, optIn);
      if updated.None? then Reply(500, "Internal Server Error", [update])
      else
        var log := LogConsent(from, "unknown", "sms", Some(if optIn then OptedIn else OptedOut), Some(BySms));
        if !logged then Reply(500, "Internal Server Error", [update, log])
        else Reply(200, if optIn then OptedInText else OptedOutText, [update, log])
  }

  /**
   * A command updates the opt-in of the sender, START to true and STOP to
   * false, and then logs it with method `sms`; anything else (an absent body
   * included) gets the help text and has no effect.
   */
  lemma CommandEffects(body: Option<string>, from: Option<string>, updated: Option<bool>, logged: bool)
    ensures var r := Post(body, from, updated, logged);
            && (Keyword(body) == Other <==> r.effects == [])
            && (Keyword(body) == Other ==> r.status == 200 && r.message == HelpText)
            && (Keyword(body) != Other ==>
                  && r.effects[0] == UpdateOptIn(from, Keyword(body) == Start)
                  && (updated.Some? ==> |r.effects| == 2 && r.effects[1].LogConsent?
                                        && r.effects[1].status == Some(if Keyword(body) == Start then OptedIn else OptedOut)
                                        && r.effects[1].channel == Some(BySms)))
  {
  }

  /**
   * The reply does not depend on what the update returned, only on whether it
   * and the log completed; a failed log still leaves the update made.
   */
  lemma ReplyIgnoresUpdateResult(body: Option<string>, from: Option<string>, x: bool, y: bool, logged: bool)
    ensures Post(body, from, Some(x), logged) == Post(body, from, Some(y), logged)
    ensures Keyword(body) != Other && !logged ==>
              Post(body, from, Some(x), logged).status == 500 && Post(body, from, Some(x), logged).effects[0].UpdateOptIn?
  {
  }
}
