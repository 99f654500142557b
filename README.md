# Missionary dinner notifier — server core in Dafny

This project models the server side of the "feed-the-missionaries" notifier. The notifier is a Next.js application.
- Members of a congregation book dinner appointments with the missionaries through Calendly.
- The server polls Calendly, or receives its webhooks, and texts the missionaries through Twilio.
- It keeps a short-lived session for the missionaries' appointment list.
- It records SMS opt-in consent.

The model follows the repository's files one module each:

| module | file |
|---|---|
| `Calendly` | app/utils/calendly.ts |
| `Sms` | app/utils/sms.ts |
| `CheckAppointments` | app/api/check-appointments/route.ts |
| `Cron` | app/api/cron/route.ts |
| `Middleware` | middleware.ts |
| `CalendlyWebhook` | app/api/webhooks/calendly/route.ts |
| `Sessions` | app/utils/session.ts, and the session set of app/api/missionary/appointments/route.ts |
| `MissionaryAppointments` | app/api/missionary/appointments/route.ts |
| `MissionaryVerify` | app/api/missionary/verify/route.ts |
| `MissionaryDelete` | app/api/missionary/appointments/delete/route.ts |
| `SmsOptIn` | app/api/sms/opt-in/route.ts |
| `SmsCommands` | app/api/sms/route.ts |
| `TwilioWebhook` | app/api/webhooks/twilio/route.ts |
| `ConsentLogger` | app/utils/consent-logger.ts |

Shared helpers:
- `Wrappers`: Option, Result, and JavaScript truthiness of an optional string.
- `Text`: ASCII `toLowerCase`, `trim`, `includes`, `split`/`join`, and the digit filter.
- `OrderedSet`: a JavaScript `Set` as an insertion-ordered sequence without duplicates.
- `Sorting`: `Array.prototype.sort` with a numeric comparator, as an in-place insertion sort on an array.
- `Provider`: the shapes of Calendly's answers, and the first "address" question.
- `SmsEffects`: the ordered list of external calls an SMS handler makes.
- `Server`: the module-level state wired together. It holds:
  - the polling set shared by both polling endpoints;
  - the checkpoint;
  - the two independent session sets.

How the code is modelled:
- **Module-level mutable state is a class with fields**, updated by methods with `modifies` clauses:
  - the polling set (`Calendly.AppointmentTracker`);
  - `lastCheckTime` (`CheckAppointments.CheckpointRoute`);
  - the session sets (`Sessions.SessionStore`);
  - the consent directory (`ConsentLogger.ConsentLog`).
- **Each loop of the source is a `while` loop.** Its invariant ties it to a prefix-recursive specification function, and the properties are proved about those functions.
- **Guard chains are pure functions**, with the properties stated as lemmas.
- **External services are inputs:**
  - Calendly's answers are `listEvents`, `inviteesOf` and `detailsOf`.
  - Each SMS send outcome is `sendOutcome(k)`, indexed by the number of earlier sends in the run.
  - The other external calls, and what they return, are parameters: `updateMissionaryOptIn`, `logConsent`, HMAC-SHA256, `JSON.parse`, `crypto.randomBytes`, the clock and `fs.readdir`.
- **Environment variables are `Option<string>`.** `||` and `!` treat an absent or empty value as unset.
- **Timestamps are integer milliseconds.**

## Model

| member | source | states |
|---|---|---|
| Calendly.DurationMinutes | app/utils/calendly.ts:148 | `Math.round((end-start)/60000)`: the result is the whole number of minutes within half a minute of the span (halves round up) |
| Calendly.Evict | app/utils/calendly.ts:174-177 | keeps exactly the newest `min(size, 1000)` entries, as a suffix of the insertion order |
| Calendly.AppointmentTracker.ProcessNewAppointments | app/utils/calendly.ts:103-193 | the nested loops and the pruning leave the set, the result, the fetches and the sends exactly as the specification `Process` says, and keep the set duplicate-free with at most 1000 entries |
| Calendly.AppointmentTracker.NotifyInvitees | app/utils/calendly.ts:141-166 | the invitee loop of one event texts each present invitee and leaves the set, records and sends exactly as `InviteesFold` says, keeping the set duplicate-free |
| Calendly.AppointmentTracker.EvictOldest | app/utils/calendly.ts:174-177 | deleting the first `size-1000` URIs one by one leaves `Evict` of the old set |
| Calendly.Process | app/utils/calendly.ts:103-193 | the batch's result: `processed` is the number of recorded events, and a listed collection leaves at most 1000 URIs, reported as `totalTracked`; what it records is stated by the lemmas below |
| Calendly.EventsFoldFacts | app/utils/calendly.ts:123-170 | a run only appends; its records are exactly the successful sends in send order; a URI becomes tracked only through a record; the set stays duplicate-free; URIs tracked beforehand are never fetched, sent for or recorded |
| Calendly.BatchRecordsSuccessfulSends | app/utils/calendly.ts:141-163 | `processed` equals the number of records, one per successful invitee send in order; before pruning the set is the old set plus exactly the recorded URIs; `totalTracked` is the size after pruning |
| Calendly.BatchSkipsTracked | app/utils/calendly.ts:125-128 | an already tracked event is not looked up, not texted and not recorded |
| Calendly.RetryIdempotent | app/utils/calendly.ts:125-128 | polling again over the same answer re-announces nothing the first poll left tracked |
| Calendly.FailedEventIsolated | app/utils/calendly.ts:134-137 | an event that throws, or whose invitee lookup throws or has no collection, changes nothing but the fetch trace; later events are processed as if it were absent |
| Calendly.FailedInviteeIsolated | app/utils/calendly.ts:141-166 | an invitee entry that throws before its send changes nothing; the invitees after it are processed as if it were absent |
| Calendly.EveryInviteeTexted | app/utils/calendly.ts:141-153 | every present invitee of the collection gets exactly one send, in order, whatever the sends return; earlier sends are kept |
| Calendly.UntrackedEventTextsEveryInvitee | app/utils/calendly.ts:123-153 | an event untracked when reached, whose lookup returns a collection, is fetched once and texts each present invitee once, in order |
| Calendly.EvictionDropsOldest | app/utils/calendly.ts:174-177 | none of the removed oldest URIs survives, and the pruned set has no duplicates |
| Calendly.OneArgumentSendRecordsNothing | app/utils/calendly.ts:153-163 | when every send returns false (the one-argument call does), a batch records nothing and leaves the set unchanged |
| Calendly.ListingFailureChangesNothing | app/utils/calendly.ts:113-116 | no collection, or a throwing listing: processed 0, no events, no fetch or send, set unchanged; a throw reports its message (or the fallback text) and the set size |
| Calendly.SingleBookingExample | app/utils/calendly.ts:103-183 | one event with one invitee is texted and tracked once; a second poll does not text it again |
| Sms.SendSmsNotification | app/utils/sms.ts:8-23 | one attempt per number, in order, each with the same body; true iff every send resolves; an empty list is true; a missing list is false with no attempt |
| CheckAppointments.Missing | app/api/check-appointments/route.ts:17 | the missing names are exactly the required names whose value is absent or empty |
| CheckAppointments.MissingAppend | app/api/check-appointments/route.ts:8-17 | the filter keeps declaration order (it distributes over concatenation) |
| CheckAppointments.CheckEnvironment | app/api/check-appointments/route.ts:16-21 | passes iff every required variable is set; otherwise the message is the prefix followed by the missing names joined by ", " |
| CheckAppointments.CheckpointRoute.Get | app/api/check-appointments/route.ts:23-40 | a configuration error gives 500 with that message and changes nothing; otherwise the batch runs from the old checkpoint, the checkpoint becomes the current time whatever the batch reported, and only the checkpoint is returned |
| Cron.UnsetSecretAdmitsLiteral | app/api/cron/route.ts:6-9 | with the secret unset, the header `Bearer undefined` is accepted and a missing header is not |
| Cron.Authorized | app/api/cron/route.ts:6-7 | the header must be exactly `Bearer ` followed by the rendered secret; `UnsetSecretAdmitsLiteral` states the unset case |
| Cron.Get | app/api/cron/route.ts:4-31 | a header other than `Bearer <secret>` gives 401 and runs nothing; otherwise the batch covers events from exactly five minutes before the clock, and its result is returned unchanged with the check and lookback times |
| Middleware.Decide | middleware.ts:4-27 | other paths pass; on the guarded path a missing or empty key gives 500 whatever the header; otherwise only the exact `Bearer <key>` passes, and anything else gives 401 |
| CalendlyWebhook.Verify | app/api/webhooks/calendly/route.ts:17-21 | the signature check; `SignatureGate` states what it gates |
| CalendlyWebhook.Post | app/api/webhooks/calendly/route.ts:38-102 | the status is 200, 401 or 500, with at most one lookup and two texts; `SignatureGate` and `Dispatch` state which |
| CalendlyWebhook.MissionaryPhones | app/api/webhooks/calendly/route.ts:49 | the recipients are the raw comma-split config: never empty, joining them gives back the config |
| CalendlyWebhook.UnsetPhonesGiveOneEmptyRecipient | app/api/webhooks/calendly/route.ts:49 | an unset or empty config gives the single recipient "" |
| CalendlyWebhook.PhonesRoundTrip | app/api/webhooks/calendly/route.ts:49 | a comma-joined list of numbers splits back into exactly those numbers |
| CalendlyWebhook.SignatureGate | app/api/webhooks/calendly/route.ts:17-21 | 401 iff the signature differs from the hex HMAC of the raw body under the key (or ''); a refused body causes no lookup and no text |
| CalendlyWebhook.BookingBatches | app/api/webhooks/calendly/route.ts:56-81 | a booking texts the missionaries once with the address and phone lines; it texts the invitee a second time iff the invitee's number is truthy |
| CalendlyWebhook.AddressLineChoice | app/api/webhooks/calendly/route.ts:56-58 | the address is the answer of the first question mentioning "address" when it is truthy, else 'No address provided' |
| CalendlyWebhook.Dispatch | app/api/webhooks/calendly/route.ts:51-98 | a booking is looked up and texted as above; a cancellation texts the missionaries once without a lookup; any other kind does nothing and succeeds |
| Provider.FirstAddressIndex | app/api/missionary/appointments/route.ts:48-50 | the first Q&A whose lowercased question contains "address"; none before it matches, and `None` means none matches |
| Sessions.ApplyMembership | app/utils/session.ts:4-18 | an add makes its token valid; a remove makes its token invalid; a tick deletes exactly the tokens with a due timer; every other token is unchanged |
| Sessions.RemoveAbsentNoOp | app/utils/session.ts:16-18 | removing an absent or already expired token changes nothing |
| Sessions.SessionLivesForTtl | app/utils/session.ts:4-14 | a token stays valid from its add until the add time plus the TTL, unless it is removed |
| Sessions.ExpiryFollowsFirstAdd | app/utils/session.ts:4-10 | a token is gone once the clock reaches its first add time plus the TTL, even if it was re-added before then |
| Sessions.AddedIsValid | app/utils/session.ts:4-14 | a token added at a request is valid at once and until its TTL runs out, unless an older timer of it falls due first |
| Sessions.SessionEndsAfterTtl | app/utils/session.ts:7-9 | a token is no longer valid at any time at or after its add time plus the TTL, whether or not a tick was modelled in between |
| Sessions.ReAddAfterExpiryRenews | app/utils/session.ts:4-10 | re-adding a token after its first session ended gives a full new session, because the first timer fired before the re-add |
| Sessions.SessionStore.Add | app/utils/session.ts:4-10 | fires the timers due at the request time, then adds the token and schedules its deletion TTL ms later; with a positive TTL the token is valid at once |
| Sessions.SessionStore.Remove | app/utils/session.ts:16-18 | deletes the token |
| Sessions.SessionStore.Tick | app/utils/session.ts:7-9 | running the due timers deletes their tokens and keeps the others pending |
| MissionaryAppointments.Projections | app/api/missionary/appointments/route.ts:41-68 | the kept appointments are exactly the projections of the events whose lookup did not throw |
| MissionaryAppointments.Project | app/api/missionary/appointments/route.ts:42-64 | an appointment keeps its event's URI and start time; `ProjectFields` states the rest |
| MissionaryAppointments.ProjectFields | app/api/missionary/appointments/route.ts:43-63 | a projection carries the event's URI and start time, the first invitee's name (else 'Unknown'), email and phone, and the first address answer |
| MissionaryAppointments.Post | app/api/missionary/appointments/route.ts:15-83 | an unknown token gives 401 with no query; otherwise the next 30 days are queried; no collection gives []; otherwise the list is sorted by start time and is a permutation of the projections |
| MissionaryVerify.Authenticate | app/api/missionary/verify/route.ts:10-29 | an unset or empty access code is a server error; otherwise the login succeeds iff the password equals the code |
| MissionaryVerify.Post | app/api/missionary/verify/route.ts:5-48 | a failed login leaves the session set unchanged; a successful one adds exactly the returned token |
| MissionaryDelete.Post | app/api/missionary/appointments/delete/route.ts:4-23 | 200 iff the token is valid in the utility session set at the request time, else 401; the event id plays no part |
| Server.Server.Login | app/api/missionary/verify/route.ts:5-48 | the status is the login outcome's (500, 401 or 200); on 200 the returned fresh token is added to the appointments route's set and is valid at once |
| Server.Server.LoginExpires | app/api/missionary/appointments/route.ts:7-25 | a token that logged in is refused with 401 by the appointments route from 24 hours later on |
| Server.Server.DeleteAppointment | app/api/missionary/appointments/delete/route.ts:9-14 | no handler adds to the utility session set, so delete refuses every token |
| Server.Server.LoginThenUse | app/api/missionary/verify/route.ts:32-40 | a token just issued by the login passes the appointments check and is refused by delete |
| Server.Server.GuardedCheck | middleware.ts:10-23 | a request the middleware stops changes neither the checkpoint nor the polling set |
| SmsOptIn.Post | app/api/sms/opt-in/route.ts:14-70 | the status is 200, 400 or 500, and a success carries all three effects; `OptInValidation` and `OptInEffectOrder` state when |
| SmsOptIn.ClientIp | app/api/sms/opt-in/route.ts:18-20 | x-forwarded-for, else x-real-ip, else 'unknown'; empty values fall through |
| SmsOptIn.FormattedPhoneValid | app/components/SMSOptIn.tsx:112-119 | the form's `+1`-plus-digits number passes the server check iff ten digits were typed |
| SmsOptIn.ValidPhoneIsFormatted | app/api/sms/opt-in/route.ts:23 | every valid number is the form's formatting of its own last ten characters |
| SmsOptIn.OptInValidation | app/api/sms/opt-in/route.ts:22-36 | 400 iff the phone fails `^\+1\d{10}$` or the type is not one of the three; the phone is checked first; a refused request has no effect |
| SmsOptIn.OptInEffectOrder | app/api/sms/opt-in/route.ts:38-63 | the effects are a prefix of update, log, text; the log needs a successful update; success (200) iff the update returned true and the log completed, and only then is the confirmation sent |
| SmsCommands.Post | app/api/sms/route.ts:6-58 | the status is 200 or 500, and a 500 comes only after the opt-in update was attempted; `CommandEffects` states the rest |
| SmsCommands.CommandEffects | app/api/sms/route.ts:9-53 | START and STOP update the sender's opt-in and then log it with status and method `sms`; any other or missing body gets the help text with no effect |
| SmsCommands.ReplyIgnoresUpdateResult | app/api/sms/route.ts:15-28 | the reply does not depend on the update's result; a failed log gives 500 after the update was made |
| TwilioWebhook.Post | app/api/webhooks/twilio/route.ts:4-45 | the status is 200 or 500 with at most the one update as effect; `ReplyFollowsUpdate` states which |
| TwilioWebhook.ReplyFollowsUpdate | app/api/webhooks/twilio/route.ts:7-45 | a missing body, or a throwing update, gives 500, and every other reply is 200; the confirmation is sent iff a command's update returned true, else the help text |
| TwilioWebhook.KeywordsAgree | app/api/webhooks/twilio/route.ts:8 | trimming then lowercasing recognises the same commands as lowercasing then trimming |
| ConsentLogger.SanitizePhone | app/utils/consent-logger.ts:41 | removing `+` and then the non-digits gives exactly the digits of the input |
| ConsentLogger.FileName | app/utils/consent-logger.ts:42 | the file of a record: the phone's digits, `_`, the date before 'T', `.json`; `FileNameDecodes` states that it is unambiguous |
| ConsentLogger.FileNameDecodes | app/utils/consent-logger.ts:42 | a file name determines the phone's digits and the date text before 'T' |
| ConsentLogger.FileNameStartsWithPhone | app/utils/consent-logger.ts:42 | every file of a phone matches that phone's history prefix |
| ConsentLogger.HistoryPrefixOverlap | app/utils/consent-logger.ts:74 | the history also selects the files of any number that begins with the phone's digits |
| ConsentLogger.NewRecord | app/utils/consent-logger.ts:17-38 | the record carries the fixed consent text and the current time; status defaults to opted_in and method to web_form |
| ConsentLogger.AppendKeepsEarlierRecords | app/utils/consent-logger.ts:46-56 | the file keeps its earlier records in order and gains exactly one more; a missing or unparsable file holds only the new record; other files are untouched |
| ConsentLogger.Gather | app/utils/consent-logger.ts:77-82 | the loop succeeds iff every relevant file is a readable array, and then yields exactly their records |
| ConsentLogger.LoggedRecordInHistory | app/utils/consent-logger.ts:42-82 | a record just logged is in the gathered history of its phone |
| ConsentLogger.ConsentLog.LogConsent | app/utils/consent-logger.ts:17-63 | appends the new record to the day's file; a missing phone, a storage failure or a non-array file makes it fail (rethrow) with nothing written |
| ConsentLogger.ConsentLog.GetConsentHistory | app/utils/consent-logger.ts:65-92 | any failure gives []; otherwise the result is sorted most recent first and is a permutation of the records of the files whose names start with the sanitised phone |
| Text.Lower | app/api/sms/route.ts:9 | `toLowerCase`: same length, each character lowered on its own |
| Text.LowerTrimCommute | app/api/sms/route.ts:9 | lowercasing and trimming commute |
| Sorting.SortByKey | app/api/missionary/appointments/route.ts:71-73 | the array ends up sorted non-decreasing by the key and is a permutation of its old contents |
| OrderedSet.Insert | app/utils/calendly.ts:157 | `Set.add`: appends only a new element, keeps the old order and the absence of duplicates |
| OrderedSet.DeleteOldest | app/utils/calendly.ts:176 | deleting the oldest element of a duplicate-free sequence drops exactly its head |

## Left out

- Network calls are not modelled; their answers are inputs. These are the Calendly helpers (`getCurrentUser`, `getScheduledEvents`, `getEventDetails`, `getInviteeDetails`), the Twilio client and `updateMissionaryOptIn`. The last is imported from app/utils/sms.ts but not defined in that file, so the model treats it as an external call that returns a boolean or throws.
- `Calendly.AppointmentTracker.ProcessNewAppointments`: the send outcome is an abstract `sendOutcome(k)` rather than the value forced by the one-argument call at app/utils/calendly.ts:153. That call always returns false: `Sms.SendSmsNotification` with no list is false, and `OneArgumentSendRecordsNothing` gives the consequence.
- `missionaryPhones` (app/utils/calendly.ts:119) is computed and never used, so it is not modelled. The polling path filters no recipients by opt-in.
- `Math.round` on real milliseconds is modelled on integer milliseconds. `toLocaleString`, ISO parsing and formatting, and date-fns are left out; texts keep the raw timestamp.
- `MissionaryAppointments.Post`: `setDate(getDate() + 30)` is modelled as exactly 30 × 24 h, with no daylight-saving shift. The sort is proved sorted and a permutation, but not stable.
- `Promise.all` concurrency and the real `setTimeout` scheduling are not modelled. Sends are sequential. Timers fire on an explicit `Tick(now)`, which an add performs first and a lookup takes into account.
- Interleaving between requests is not modelled; every handler runs to completion on its own. In the server, two polling batches (cron and check-appointments) can be suspended at their `await`s and overlap on the shared `processedAppointments`. Both can then text an event that neither has tracked yet. `Calendly.BatchSkipsTracked` and `Calendly.RetryIdempotent` therefore hold only for batches that do not overlap. The same goes for a login that overlaps a session timer.
- `crypto.createHmac` and `crypto.randomBytes` are not modelled: the digest is an uninterpreted function, and the fresh token is a parameter.
- JSON and form-data parsing beyond field presence is not modelled. A field is present or absent, and a value of the wrong JSON type is not considered.
- `CalendlyWebhook.Post`: a payload that lacks `invitee` or `event_type` (a throw, hence 500) is not modelled; the payload always has both.
- `MissionaryAppointments.Project`: a Q&A entry without a `question` (a throw inside the map, hence a dropped event) is not modelled.
- The filesystem of app/utils/consent-logger.ts is a map from file name to content:
  - `mkdir` and `writeFile` failures are one `storageOk` flag;
  - `readdir` order is the input listing;
  - the timestamp text is an input, and so is its millisecond value.
- The route handlers call `logConsent`, but the SMS route models do not run `ConsentLogger.ConsentLog.LogConsent` itself. They record the call as an effect and take its outcome as an input.
- The cron route's own catch (app/api/cron/route.ts:27-30) cannot be reached, because the batch catches its own errors. An unreadable body of the appointments route is not modelled: `request.json()` throws at app/api/missionary/appointments/route.ts:17, before the session check, and the route answers 500 whatever the token. The model starts from a parsed body whose `sessionToken` is present or absent.
- Console logging, including the password echo at app/api/missionary/verify/route.ts:21-24, is not modelled. TwiML/XML and JSON serialisation are not modelled either.
- The unreachable `localStorage` branch of app/api/missionary/appointments/delete/route.ts:17-21 is not modelled.
- The UI pages, scripts/setup-webhook.ts and app/api/missionary/test-env/route.ts are not part of this model. The only exception is the phone formatting of app/components/SMSOptIn.tsx, which feeds `SmsOptIn.FormattedPhoneValid`.
- `Sorting.SortByKey`: sorted and a permutation, but not stable. `Array.prototype.sort` keeps equal keys in their input order, and the model does not state the order of ties.
- `ConsentLogger.ConsentLog.GetConsentHistory`: records with equal timestamps may come out in any order; the stable order of `Array.prototype.sort` is not stated.
- `Text.Lower`: lowercases the ASCII letters only, while `toLowerCase` follows Unicode case mapping. The keywords compared (`start`, `stop`, `address`) are ASCII, but a non-ASCII capital in a body or a question is not lowered by the model.
