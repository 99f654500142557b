/**
 * The calls the SMS opt-in handlers make to code outside the model, recorded
 * in the order they are made, and the reply a handler returns.
 */
module SmsEffects {
  import opened Wrappers
  import opened ConsentLogger

  datatype Effect =
    /** `updateMissionaryOptIn(phone, optIn)`. */
    | UpdateOptIn(phone: Option<string>, optIn: bool)
    /** `logConsent(phone, type, ip, status?, method?)`; absent arguments take their defaults. */
    | LogConsent(phone: Option<string>, missionaryType: string, ipAddress: string,
                 status: Option<ConsentStatus>, channel: Option<ConsentMethod>)
    /** `twilioClient.messages.create({body, to, from})`. */
    | SendText(to: string, body: string, from: Option<string>)

  /** The HTTP status, the message of the body (an error or the text of a reply), and the calls made. */
  datatype Reply = Reply(status: int, message: string, effects: seq<Effect>)
}
