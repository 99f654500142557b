/**
 * The shapes of the scheduling provider's (Calendly's) responses as the
 * handlers read them. The network helpers of app/utils/calendly.ts are not
 * modelled: their answers are inputs. Timestamps are integer milliseconds.
 */
module Provider {
  import opened Wrappers
  import opened Text

  datatype QuestionAndAnswer = QuestionAndAnswer(question: string, answer: string)

  /** An invitee record; a field the provider left out is `None`. */
  datatype Invitee = Invitee(name: Option<string>, email: Option<string>, textReminderNumber: Option<string>,
                             questionsAndAnswers: Option<seq<QuestionAndAnswer>>)

  datatype Event = Event(uri: string, startTime: int, endTime: int)

  /** The `min_start_time`/`max_start_time` of a `getScheduledEvents` call. */
  datatype Query = Query(minStartTime: int, maxStartTime: Option<int>)

  /**
   * What `getScheduledEvents` gives: a throw (with its `Error` message, if any),
   * a body without `collection`, or the collection. A `None` entry stands for an
   * element whose field access throws (`null` in the JSON).
   */
  datatype EventsResponse = ListThrew(error: Option<string>) | NoCollection | Collection(entries: seq<Option<Event>>)

  /** What `getInviteeDetails` gives, in the same three forms. */
  datatype InviteeResponse = InviteesThrew | NoInvitees | Invitees(entries: seq<Option<Invitee>>)

  /** `qa.question.toLowerCase().includes('address')`. */
  predicate MentionsAddress(qa: QuestionAndAnswer)
  {
    Contains(Lower(qa.question), "address")
  }

  /** The index `questions_and_answers.find(...)` stops at: the first question mentioning an address. */
  function FirstAddressIndex(qas: seq<QuestionAndAnswer>): (r: Option<nat>)
    ensures r.Some? ==> r.value < |qas| && MentionsAddress(qas[r.value])
                        && forall j :: 0 <= j < r.value ==> !MentionsAddress(qas[j])
    ensures r.None? ==> forall j :: 0 <= j < |qas| ==> !MentionsAddress(qas[j])
  {
    if qas == [] then None
    else if MentionsAddress(qas[0]) then Some(0)
    else match FirstAddressIndex(qas[1..])
      case None => None
      case Some(k) => Some(k + 1)
  }

  /** `questions_and_answers?.find(...)?.answer`: `None` when there is no list or no match. */
  function AddressAnswer(qas: Option<seq<QuestionAndAnswer>>): Option<string>
  {
    if qas.None? then None
    else match FirstAddressIndex(qas.value)
      case None => None
      case Some(k) => Some(qas.value[k].answer)
  }
}
