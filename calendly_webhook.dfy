/**
 * app/api/webhooks/calendly/route.ts: the provider's push notifications. A
 * signed body is parsed and dispatched on its event kind; a new booking texts
 * the missionaries and, when the invitee left a number, the invitee, and a
 * cancellation texts the missionaries.
 *
 * HMAC-SHA256 is an uninterpreted `hmacHex(key, body)`, `JSON.parse` is
 * `parse(body)` (`None` when it throws) and the invitee lookup is
 * `detailsOf(uri)`. The local send helper swallows every failure, so the
 * handler's output is the ordered list of batches it hands to it.
 */
module CalendlyWebhook {
  import opened Wrappers
  import opened Text
  import opened Provider

  const CreatedKind: string := "invitee.created"
  const CanceledKind: string := "invitee.canceled"
  const NoAddress: string := "No address provided"
  const NoPhone: string := "Not provided"

  datatype WebhookInvitee = WebhookInvitee(name: Option<string>, email: Option<string>, textReminderNumber: Option<string>)

  /** `event_type.start_time` and `event_type.duration`. */
  datatype EventType = EventType(startTime: int, duration: Option<int>)

  datatype Payload = Payload(uri: string, invitee: WebhookInvitee, eventType: EventType)

  /** The parsed body: `event.event` and `event.payload`. */
  datatype Notice = Notice(kind: Option<string>, payload: Option<Payload>)

  /** What `getInviteeDetails` gives: a throw (or no `resource`), or the resource's Q&A list. */
  datatype InviteeDetails = DetailsThrew | Details(questionsAndAnswers: Option<seq<QuestionAndAnswer>>)

  /** The texts the handler builds; date formatting is left abstract. */
  datatype WebhookText =
    | BookedText(name: Option<string>, email: Option<string>, phone: string, startTime: int, duration: Option<int>, address: string)
    | InviteeText(startTime: int, duration: Option<int>, address: string)
    | CanceledText(name: Option<string>, startTime: int)

  /** One call of the local `sendSMSNotification(message, phoneNumbers)`. */
  datatype Batch = Batch(message: WebhookText, recipients: seq<string>)

  datatype WebhookReply = WebhookReply(status: int, batches: seq<Batch>, fetched: seq<string>)

  /** `verifyCalendlyWebhook`: the signature must equal the hex digest keyed by the signing key, `''` when unset. */
  predicate Verify(body: string, signature: string, signingKey: Option<string>, hmacHex: (string, string) -> string)
  {
    signature == hmacHex(OrElse(signingKey, ""), body)
  }

  /** `(MISSIONARY_PHONE_NUMBERS || '').split(',')`: neither trimmed nor filtered. */
  function MissionaryPhones(config: Option<string>): (phones: seq<string>)
    ensures |phones| >= 1
    ensures Join(phones, ",") == OrElse(config, "")
    ensures forall i :: 0 <= i < |phones| ==> ',' !in phones[i]
  {
    Split(OrElse(config, ""), ',')
  }

  /** An unset or empty list still yields one recipient, the empty string. */
  lemma UnsetPhonesGiveOneEmptyRecipient(config: Option<string>)
    requires !Truthy(config)
    ensures MissionaryPhones(config) == [""]
  {
    SplitPlain("", ',');
  }

  /** A list of numbers without commas splits back into exactly those numbers. */
  lemma PhonesRoundTrip(numbers: seq<string>)
    requires |numbers| >= 1
    requires forall i :: 0 <= i < |numbers| ==> ',' !in numbers[i]
    ensures MissionaryPhones(Some(Join(numbers, ","))) == numbers
  {
    SplitJoin(numbers, ',');
  }

  /** `find(...)?.answer || 'No address provided'`. */
  function AddressLine(qas: Option<seq<QuestionAndAnswer>>): string
  {
    OrElse(AddressAnswer(qas), NoAddress)
  }

  /** The `invitee.created` branch, after the lookup succeeded. */
  function CreatedBatches(p: Payload, qas: Option<seq<QuestionAndAnswer>>, phones: seq<string>): seq<Batch>
  {
    var address := AddressLine(qas);
    var inv := p.invitee;
    [Batch(BookedText(inv.name, inv.email, OrElse(inv.textReminderNumber, NoPhone), p.eventType.startTime,
                      p.eventType.duration, address), phones)]
    + (if Truthy(inv.textReminderNumber)
       then [Batch(InviteeText(p.eventType.startTime, p.eventType.duration, address), [inv.textReminderNumber.value])]
       else [])
  }

  /** `POST`; `signatureHeader` is `calendly-webhook-signature` (`None` when absent). */
  function Post(body: string, signatureHeader: Option<string>, signingKey: Option<string>,
                hmacHex: (string, string) -> string, parse: string -> Option<Notice>, phonesConfig: Option<string>,
                detailsOf: string -> InviteeDetails): (r: WebhookReply)
    ensures r.status == 200 || r.status == 401 || r.status == 500
    ensures |r.fetched| <= 1 && |r.batches| <= 2
  {
    if !Verify(body, OrElse(signatureHeader, ""), signingKey, hmacHex) then WebhookReply(401, [], [])
    else match parse(body)
      case None => WebhookReply(500, [], [])
      case Some(notice) =>
        var phones := MissionaryPhones(phonesConfig);
        if notice.kind == Some(CreatedKind) then
          if notice.payload.None? then WebhookReply(500, [], [])
          else
            var p := notice.payload.value;
            match detailsOf(p.uri)
            case DetailsThrew => WebhookReply(500, [], [p.uri])
            case Details(qas) => WebhookReply(200, CreatedBatches(p, qas, phones), [p.uri])
        else if notice.kind == Some(CanceledKind) then
          if notice.payload.None? then WebhookReply(500, [], [])
          else
            var p := notice.payload.value;
            WebhookReply(200, [Batch(CanceledText(p.invitee.name, p.eventType.startTime), phones)], [])
        else WebhookReply(200, [], [])
  }

  /** A body whose signature does not match is refused before parsing: no lookup and no text. */
  lemma SignatureGate(body: string, signatureHeader: Option<string>, signingKey: Option<string>,
                      hmacHex: (string, string) -> string, parse: string -> Option<Notice>, phonesConfig: Option<string>,
                      detailsOf: string -> InviteeDetails)
    ensures var r := Post(body, signatureHeader, signingKey, hmacHex, parse, phonesConfig, detailsOf);
            && (r.status == 401 <==> !Verify(body, OrElse(signatureHeader, ""), signingKey, hmacHex))
            && (r.status == 401 ==> r.batches == [] && r.fetched == [])
            && (r.batches != [] ==> r.status == 200 && parse(body).Some?)
  {
  }

  /**
   * A booking: one batch to the missionaries carrying the address line, then
   * a second one to the invitee's number exactly when that number is truthy.
   */
  lemma BookingBatches(p: Payload, qas: Option<seq<QuestionAndAnswer>>, phones: seq<string>)
    ensures var b := CreatedBatches(p, qas, phones);
            && 1 <= |b| <= 2
            && b[0].recipients == phones && b[0].message.BookedText? && b[0].message.address == AddressLine(qas)
            && b[0].message.phone == OrElse(p.invitee.textReminderNumber, NoPhone)
            && (|b| == 2 <==> Truthy(p.invitee.textReminderNumber))
            && (|b| == 2 ==> b[1].recipients == [p.invitee.textReminderNumber.value]
                             && b[1].message == InviteeText(p.eventType.startTime, p.eventType.duration, AddressLine(qas)))
  {
  }

  /** The address line is the first address answer when it is truthy, else the default. */
  lemma AddressLineChoice(qas: Option<seq<QuestionAndAnswer>>)
    ensures qas.None? ==> AddressLine(qas) == NoAddress
    ensures qas.Some? ==>
              match FirstAddressIndex(qas.value)
              case None => AddressLine(qas) == NoAddress
              case Some(k) => AddressLine(qas) == (if qas.value[k].answer != "" then qas.value[k].answer else NoAddress)
  {
  }

  /**
   * Dispatch on a verified, parsed body: a booking looks the invitee up and
   * texts as above, a cancellation texts the missionaries once without a
   * lookup, and any other kind does nothing and succeeds.
   */
  lemma Dispatch(body: string, signatureHeader: Option<string>, signingKey: Option<string>,
                 hmacHex: (string, string) -> string, parse: string -> Option<Notice>, phonesConfig: Option<string>,
                 detailsOf: string -> InviteeDetails)
    requires Verify(body, OrElse(signatureHeader, ""), signingKey, hmacHex) && parse(body).Some?
    ensures var r := Post(body, signatureHeader, signingKey, hmacHex, parse, phonesConfig, detailsOf);
            var n := parse(body).value;
            && (n.kind == Some(CreatedKind) && n.payload.Some? && detailsOf(n.payload.value.uri).Details? ==>
                  r.status == 200 && r.fetched == [n.payload.value.uri]
                  && r.batches == CreatedBatches(n.payload.value, detailsOf(n.payload.value.uri).questionsAndAnswers,
                                                 MissionaryPhones(phonesConfig)))
            && (n.kind == Some(CanceledKind) && n.payload.Some? ==>
                  r.status == 200 && r.fetched == [] && |r.batches| == 1
                  && r.batches[0].recipients == MissionaryPhones(phonesConfig) && r.batches[0].message.CanceledText?)
            && (n.kind != Some(CreatedKind) && n.kind != Some(CanceledKind) ==>
                  r == WebhookReply(200, [], []))
  {
  }
}
