/**
 * The polling ingestion of app/utils/calendly.ts: `processNewAppointments` and
 * the module-level set `processedAppointments` that keeps an event from being
 * announced twice.
 *
 * The provider's answers are inputs (`listEvents`, `inviteesOf`), and so is the
 * outcome of each SMS send: `sendOutcome(k)` is what `sendSMSNotification`
 * returns for the k-th send of the run. As written, the call passes no phone
 * list, so the real outcome is always `false` (see `Sms.SendSmsNotification`
 * and `OneArgumentSendRecordsNothing`); the model keeps it abstract.
 */
module Calendly {
  import opened Wrappers
  import opened Provider
  import opened OrderedSet

  /** How many processed event URIs are kept after a batch. */
  const MaxTracked: nat := 1000

  const MsPerMinute: int := 60000

  /** `Math.round((end - start) / 60000)` on integer milliseconds: halves round up. */
  function DurationMinutes(startMs: int, endMs: int): (m: int)
    ensures MsPerMinute * m - 30000 <= endMs - startMs < MsPerMinute * m + 30000
  {
    (endMs - startMs + 30000) / MsPerMinute
  }

  /** The text built at calendly.ts:144-148; date formatting is left abstract. */
  datatype NewAppointmentText = NewAppointmentText(name: Option<string>, email: Option<string>, startTime: int, durationMinutes: int)

  /** A send issued by the loop, tagged with the URI of the event being processed (not part of the text). */
  datatype Send = Send(eventUri: string, text: NewAppointmentText)

  /** `{eventId, inviteeName, startTime}`, pushed after a successful send. */
  datatype NotificationRecord = NotificationRecord(eventId: string, inviteeName: Option<string>, startTime: int)

  /** `{processed, events, totalTracked?, error?}`. */
  datatype ProcessResult = ProcessResult(processed: nat, events: seq<NotificationRecord>, totalTracked: Option<nat>, error: Option<string>)

  function TextFor(e: Event, invitee: Invitee): NewAppointmentText
  {
    NewAppointmentText(invitee.name, invitee.email, e.startTime, DurationMinutes(e.startTime, e.endTime))
  }

  function RecordOf(s: Send): NotificationRecord
  {
    NotificationRecord(s.eventUri, s.text.name, s.text.startTime)
  }

  /** `error instanceof Error ? error.message : 'Unknown error occurred'`. */
  function ErrorText(error: Option<string>): string
  {
    match error
    case Some(m) => m
    case None => "Unknown error occurred"
  }

  ghost function IdsOf(records: seq<NotificationRecord>): set<string>
  {
    set r | r in records :: r.eventId
  }

  // ---------------------------------------------------------------------------
  // The loops as specification functions over the state they update.
  // ---------------------------------------------------------------------------

  /** Everything the loops change: the tracked set, the records, and the trace of fetches and sends. */
  datatype Progress = Progress(tracked: seq<string>, records: seq<NotificationRecord>, fetched: seq<string>, sent: seq<Send>)

  /** One pass of the inner loop (calendly.ts:142-166). A `None` invitee throws before the send. */
  function InviteeStep(p: Progress, e: Event, entry: Option<Invitee>, sendOutcome: nat -> bool): Progress
  {
    match entry
    case None => p
    case Some(invitee) =>
      var q := p.(sent := p.sent + [Send(e.uri, TextFor(e, invitee))]);
      if sendOutcome(|p.sent|) then
        q.(tracked := Insert(p.tracked, e.uri), records := p.records + [NotificationRecord(e.uri, invitee.name, e.startTime)])
      else q
  }

  function InviteesFold(p: Progress, e: Event, invitees: seq<Option<Invitee>>, sendOutcome: nat -> bool): Progress
  {
    if invitees == [] then p
    else InviteeStep(InviteesFold(p, e, invitees[..|invitees| - 1], sendOutcome), e, invitees[|invitees| - 1], sendOutcome)
  }

  /** One pass of the outer loop (calendly.ts:123-170). A `None` event throws before anything happens. */
  function EventStep(p: Progress, entry: Option<Event>, inviteesOf: string -> InviteeResponse, sendOutcome: nat -> bool): Progress
  {
    match entry
    case None => p
    case Some(e) =>
      if e.uri in p.tracked then p
      else
        var q := p.(fetched := p.fetched + [e.uri]);
        match inviteesOf(e.uri)
        case Invitees(invitees) => InviteesFold(q, e, invitees, sendOutcome)
        case _ => q
  }

  function EventsFold(p: Progress, entries: seq<Option<Event>>, inviteesOf: string -> InviteeResponse, sendOutcome: nat -> bool): Progress
  {
    if entries == [] then p
    else EventStep(EventsFold(p, entries[..|entries| - 1], inviteesOf, sendOutcome), entries[|entries| - 1], inviteesOf, sendOutcome)
  }

  /** The pruning at calendly.ts:174-177: the newest `MaxTracked` URIs, in their order. */
  function Evict(tracked: seq<string>): (r: seq<string>)
    ensures |r| == if |tracked| > MaxTracked then MaxTracked else |tracked|
    ensures r == tracked[|tracked| - |r|..]
  {
    if |tracked| > MaxTracked then tracked[|tracked| - MaxTracked..] else tracked
  }

  /** The result, the new tracked set, and the fetches and sends made. */
  datatype Outcome = Outcome(result: ProcessResult, tracked: seq<string>, fetched: seq<string>, sent: seq<Send>)

  function Process(tracked: seq<string>, response: EventsResponse, inviteesOf: string -> InviteeResponse, sendOutcome: nat -> bool): (o: Outcome)
    ensures o.result.processed == |o.result.events|
    ensures response.Collection? ==> |o.tracked| <= MaxTracked && o.result.totalTracked == Some(|o.tracked|)
  {
    match response
    case ListThrew(error) => Outcome(ProcessResult(0, [], Some(|tracked|), Some(ErrorText(error))), tracked, [], [])
    case NoCollection => Outcome(ProcessResult(0, [], None, None), tracked, [], [])
    case Collection(entries) =>
      var q := EventsFold(Progress(tracked, [], [], []), entries, inviteesOf, sendOutcome);
      var kept := Evict(q.tracked);
      Outcome(ProcessResult(|q.records|, q.records, Some(|kept|), None), kept, q.fetched, q.sent)
  }

  // ---------------------------------------------------------------------------
  // What a batch does, proved about the specification functions.
  // ---------------------------------------------------------------------------

  /** The records of the successful sends among `sent[lo..hi]`, in send order. */
  function Confirmed(sent: seq<Send>, lo: nat, hi: nat, sendOutcome: nat -> bool): seq<NotificationRecord>
    requires lo <= hi <= |sent|
    decreases hi - lo
  {
    if hi == lo then []
    else Confirmed(sent, lo, hi - 1, sendOutcome) + (if sendOutcome(hi - 1) then [RecordOf(sent[hi - 1])] else [])
  }

  lemma {:induction false} ConfirmedPrefix(sent: seq<Send>, longer: seq<Send>, lo: nat, hi: nat, sendOutcome: nat -> bool)
    requires lo <= hi <= |sent| && sent <= longer
    ensures Confirmed(longer, lo, hi, sendOutcome) == Confirmed(sent, lo, hi, sendOutcome)
    decreases hi - lo
  {
    if hi > lo {
      ConfirmedPrefix(sent, longer, lo, hi - 1, sendOutcome);
      assert longer[hi - 1] == sent[hi - 1];
    }
  }

  lemma {:induction false} ConfirmedSplit(sent: seq<Send>, lo: nat, mid: nat, hi: nat, sendOutcome: nat -> bool)
    requires lo <= mid <= hi <= |sent|
    ensures Confirmed(sent, lo, hi, sendOutcome) == Confirmed(sent, lo, mid, sendOutcome) + Confirmed(sent, mid, hi, sendOutcome)
    decreases hi - mid
  {
    if hi > mid {
      ConfirmedSplit(sent, lo, mid, hi - 1, sendOutcome);
    }
  }

  /** With every send failing nothing is confirmed. */
  lemma {:induction false} NothingConfirmed(sent: seq<Send>, lo: nat, hi: nat, sendOutcome: nat -> bool)
    requires lo <= hi <= |sent|
    requires forall k :: !sendOutcome(k)
    ensures Confirmed(sent, lo, hi, sendOutcome) == []
    decreases hi - lo
  {
    if hi > lo {
      NothingConfirmed(sent, lo, hi - 1, sendOutcome);
    }
  }

  lemma IdsOfAppend(a: seq<NotificationRecord>, b: seq<NotificationRecord>)
    ensures IdsOf(a + b) == IdsOf(a) + IdsOf(b)
  {
  }

  /**
   * `q` follows `p` in a run: the set, the fetches and the sends only grow at
   * the end, the new records are exactly those of the successful new sends, and
   * a URI is tracked in `q` exactly when it was tracked in `p` or has a new record.
   */
  ghost predicate Extends(p: Progress, q: Progress, sendOutcome: nat -> bool)
  {
    && p.tracked <= q.tracked && p.fetched <= q.fetched && p.sent <= q.sent
    && q.records == p.records + Confirmed(q.sent, |p.sent|, |q.sent|, sendOutcome)
    && (forall u :: u in q.tracked <==> u in p.tracked || u in IdsOf(q.records[|p.records|..]))
  }

  /** Between `p` and `q` nothing was fetched, sent or recorded for `u`. */
  ghost predicate Untouched(p: Progress, q: Progress, u: string)
  {
    && (forall k :: |p.fetched| <= k < |q.fetched| ==> q.fetched[k] != u)
    && (forall k :: |p.sent| <= k < |q.sent| ==> q.sent[k].eventUri != u)
    && (forall k :: |p.records| <= k < |q.records| ==> q.records[k].eventId != u)
  }

  /** Between `p` and `q` nothing was fetched, and every send and record was for `uri`. */
  ghost predicate OnlyFor(p: Progress, q: Progress, uri: string)
  {
    && q.fetched == p.fetched
    && (forall k :: |p.sent| <= k < |q.sent| ==> q.sent[k].eventUri == uri)
    && (forall k :: |p.records| <= k < |q.records| ==> q.records[k].eventId == uri)
  }

  lemma ExtendsTrans(p: Progress, q: Progress, r: Progress, sendOutcome: nat -> bool)
    requires Extends(p, q, sendOutcome) && Extends(q, r, sendOutcome)
    ensures Extends(p, r, sendOutcome)
    ensures |p.records| <= |q.records| <= |r.records|
  {
    ConfirmedPrefix(q.sent, r.sent, |p.sent|, |q.sent|, sendOutcome);
    ConfirmedSplit(r.sent, |p.sent|, |q.sent|, |r.sent|, sendOutcome);
    assert r.records[|p.records|..] == q.records[|p.records|..] + r.records[|q.records|..];
    IdsOfAppend(q.records[|p.records|..], r.records[|q.records|..]);
  }

  lemma InviteeStepFacts(p: Progress, e: Event, entry: Option<Invitee>, sendOutcome: nat -> bool)
    ensures var q := InviteeStep(p, e, entry, sendOutcome);
            && Extends(p, q, sendOutcome) && OnlyFor(p, q, e.uri)
            && (NoDuplicates(p.tracked) ==> NoDuplicates(q.tracked))
  {
    if entry.Some? {
      var n := |p.sent|;
      var q := p.(sent := p.sent + [Send(e.uri, TextFor(e, entry.value))]);
      assert Confirmed(q.sent, n, n, sendOutcome) == [];
      if sendOutcome(n) {
        DeliveredStep(p, q, e, entry.value, sendOutcome);
      } else {
        assert Confirmed(q.sent, n, n + 1, sendOutcome) == [];
        assert q.records[|p.records|..] == [];
      }
    } else {
      assert p.records[|p.records|..] == [];
    }
  }

  lemma DeliveredStep(p: Progress, q: Progress, e: Event, invitee: Invitee, sendOutcome: nat -> bool)
    requires q == p.(sent := p.sent + [Send(e.uri, TextFor(e, invitee))])
    requires sendOutcome(|p.sent|)
    ensures var r := q.(tracked := Insert(p.tracked, e.uri),
                        records := p.records + [NotificationRecord(e.uri, invitee.name, e.startTime)]);
            && Extends(p, r, sendOutcome) && OnlyFor(p, r, e.uri)
            && (NoDuplicates(p.tracked) ==> NoDuplicates(r.tracked))
  {
    var n := |p.sent|;
    var rec := NotificationRecord(e.uri, invitee.name, e.startTime);
    var r := q.(tracked := Insert(p.tracked, e.uri), records := p.records + [rec]);
    assert r.records == p.records + Confirmed(r.sent, n, |r.sent|, sendOutcome) by {
      assert Confirmed(q.sent, n, n, sendOutcome) == [];
      assert RecordOf(q.sent[n]) == rec;
    }
    assert forall u :: u in r.tracked <==> u in p.tracked || u in IdsOf(r.records[|p.records|..]) by {
      assert r.records[|p.records|..] == [rec];
      assert IdsOf([rec]) == {e.uri};
    }
    assert Extends(p, r, sendOutcome);
  }

  lemma {:induction false} InviteesFoldFacts(p: Progress, e: Event, invitees: seq<Option<Invitee>>, sendOutcome: nat -> bool)
    ensures var q := InviteesFold(p, e, invitees, sendOutcome);
            && Extends(p, q, sendOutcome) && OnlyFor(p, q, e.uri)
            && (NoDuplicates(p.tracked) ==> NoDuplicates(q.tracked))
  {
    if invitees == [] {
      assert p.records[|p.records|..] == [];
    } else {
      var q0 := InviteesFold(p, e, invitees[..|invitees| - 1], sendOutcome);
      InviteesFoldFacts(p, e, invitees[..|invitees| - 1], sendOutcome);
      InviteeStepFacts(q0, e, invitees[|invitees| - 1], sendOutcome);
      ExtendsTrans(p, q0, InviteesFold(p, e, invitees, sendOutcome), sendOutcome);
    }
  }

  lemma EventStepFacts(p: Progress, entry: Option<Event>, inviteesOf: string -> InviteeResponse, sendOutcome: nat -> bool)
    ensures var q := EventStep(p, entry, inviteesOf, sendOutcome);
            && Extends(p, q, sendOutcome)
            && (NoDuplicates(p.tracked) ==> NoDuplicates(q.tracked))
            && forall u :: u in p.tracked ==> Untouched(p, q, u)
  {
    if entry.Some? && entry.value.uri !in p.tracked {
      var e := entry.value;
      var p1 := p.(fetched := p.fetched + [e.uri]);
      assert Extends(p, p1, sendOutcome) by {
        assert p.records[|p.records|..] == [];
      }
      match inviteesOf(e.uri)
      case Invitees(invitees) =>
        InviteesFoldFacts(p1, e, invitees, sendOutcome);
        ExtendsTrans(p, p1, InviteesFold(p1, e, invitees, sendOutcome), sendOutcome);
      case _ =>
    } else {
      assert p.records[|p.records|..] == [];
    }
  }

  /** A run of the outer loop extends its start, keeps the set duplicate-free and skips every tracked URI. */
  lemma {:induction false} EventsFoldFacts(p: Progress, entries: seq<Option<Event>>, inviteesOf: string -> InviteeResponse,
                                           sendOutcome: nat -> bool)
    ensures var q := EventsFold(p, entries, inviteesOf, sendOutcome);
            && Extends(p, q, sendOutcome)
            && (NoDuplicates(p.tracked) ==> NoDuplicates(q.tracked))
            && forall u :: u in p.tracked ==> Untouched(p, q, u)
  {
    if entries == [] {
      assert p.records[|p.records|..] == [];
    } else {
      var q0 := EventsFold(p, entries[..|entries| - 1], inviteesOf, sendOutcome);
      var q := EventsFold(p, entries, inviteesOf, sendOutcome);
      EventsFoldFacts(p, entries[..|entries| - 1], inviteesOf, sendOutcome);
      EventStepFacts(q0, entries[|entries| - 1], inviteesOf, sendOutcome);
      ExtendsTrans(p, q0, q, sendOutcome);
      forall u | u in p.tracked ensures Untouched(p, q, u) {
        assert u in q0.tracked;
      }
    }
  }

  /**
   * A batch over a collection: `processed` counts the records, the records are
   * those of the successful sends in send order, and before pruning the set
   * gained exactly the URIs that have a record, appended after the old ones.
   */
  lemma BatchRecordsSuccessfulSends(tracked: seq<string>, entries: seq<Option<Event>>,
                                    inviteesOf: string -> InviteeResponse, sendOutcome: nat -> bool)
    requires NoDuplicates(tracked)
    ensures var o := Process(tracked, Collection(entries), inviteesOf, sendOutcome);
            var marked := EventsFold(Progress(tracked, [], [], []), entries, inviteesOf, sendOutcome).tracked;
            && o.result.processed == |o.result.events|
            && o.result.events == Confirmed(o.sent, 0, |o.sent|, sendOutcome)
            && tracked <= marked && NoDuplicates(marked)
            && (forall u :: u in marked <==> u in tracked || u in IdsOf(o.result.events))
            && o.tracked == Evict(marked) && o.result.totalTracked == Some(|o.tracked|)
            && o.result.error.None?
  {
    var start := Progress(tracked, [], [], []);
    EventsFoldFacts(start, entries, inviteesOf, sendOutcome);
    var q := EventsFold(start, entries, inviteesOf, sendOutcome);
    assert q.records[0..] == q.records;
  }

  /** A URI tracked before the batch is never fetched, sent for or recorded again. */
  lemma BatchSkipsTracked(tracked: seq<string>, entries: seq<Option<Event>>,
                          inviteesOf: string -> InviteeResponse, sendOutcome: nat -> bool, u: string)
    requires u in tracked
    ensures var o := Process(tracked, Collection(entries), inviteesOf, sendOutcome);
            && u !in o.fetched
            && (forall k :: 0 <= k < |o.sent| ==> o.sent[k].eventUri != u)
            && u !in IdsOf(o.result.events)
  {
    EventsFoldFacts(Progress(tracked, [], [], []), entries, inviteesOf, sendOutcome);
  }

  /**
   * Polling again over the same provider answer re-announces nothing that the
   * first run left in the set.
   */
  lemma RetryIdempotent(tracked: seq<string>, entries: seq<Option<Event>>,
                        inviteesOf: string -> InviteeResponse, sendOutcome: nat -> bool)
    ensures var first := Process(tracked, Collection(entries), inviteesOf, sendOutcome);
            var again := Process(first.tracked, Collection(entries), inviteesOf, sendOutcome);
            && (forall k :: 0 <= k < |again.sent| ==> again.sent[k].eventUri !in first.tracked)
            && (forall r :: r in again.result.events ==> r.eventId !in first.tracked)
  {
    var first := Process(tracked, Collection(entries), inviteesOf, sendOutcome);
    forall u | u in first.tracked
      ensures var again := Process(first.tracked, Collection(entries), inviteesOf, sendOutcome);
              && (forall k :: 0 <= k < |again.sent| ==> again.sent[k].eventUri != u)
              && u !in IdsOf(again.result.events)
    {
      BatchSkipsTracked(first.tracked, entries, inviteesOf, sendOutcome, u);
    }
  }

  /** The effects of a run other than the fetch trace. */
  function Effects(p: Progress): Progress
  {
    p.(fetched := [])
  }

  lemma {:induction false} InviteesFoldIgnoresFetched(p: Progress, p': Progress, e: Event, invitees: seq<Option<Invitee>>,
                                                      sendOutcome: nat -> bool)
    requires Effects(p) == Effects(p')
    ensures Effects(InviteesFold(p, e, invitees, sendOutcome)) == Effects(InviteesFold(p', e, invitees, sendOutcome))
  {
    if invitees != [] {
      InviteesFoldIgnoresFetched(p, p', e, invitees[..|invitees| - 1], sendOutcome);
    }
  }

  lemma {:induction false} EventsFoldIgnoresFetched(p: Progress, p': Progress, entries: seq<Option<Event>>,
                                                    inviteesOf: string -> InviteeResponse, sendOutcome: nat -> bool)
    requires Effects(p) == Effects(p')
    ensures Effects(EventsFold(p, entries, inviteesOf, sendOutcome)) == Effects(EventsFold(p', entries, inviteesOf, sendOutcome))
  {
    if entries != [] {
      var q := EventsFold(p, entries[..|entries| - 1], inviteesOf, sendOutcome);
      var q' := EventsFold(p', entries[..|entries| - 1], inviteesOf, sendOutcome);
      EventsFoldIgnoresFetched(p, p', entries[..|entries| - 1], inviteesOf, sendOutcome);
      var last := entries[|entries| - 1];
      if last.Some? && last.value.uri !in q.tracked {
        var e := last.value;
        if inviteesOf(e.uri).Invitees? {
          InviteesFoldIgnoresFetched(q.(fetched := q.fetched + [e.uri]), q'.(fetched := q'.fetched + [e.uri]),
                                     e, inviteesOf(e.uri).entries, sendOutcome);
        }
      }
    }
  }

  lemma {:induction false} EventsFoldAppend(p: Progress, a: seq<Option<Event>>, b: seq<Option<Event>>,
                                            inviteesOf: string -> InviteeResponse, sendOutcome: nat -> bool)
    ensures EventsFold(p, a + b, inviteesOf, sendOutcome)
            == EventsFold(EventsFold(p, a, inviteesOf, sendOutcome), b, inviteesOf, sendOutcome)
  {
    if b == [] {
      assert a + b == a;
    } else {
      assert (a + b)[..|a + b| - 1] == a + b[..|b| - 1];
      EventsFoldAppend(p, a, b[..|b| - 1], inviteesOf, sendOutcome);
    }
  }

  lemma {:induction false} InviteesFoldAppend(p: Progress, e: Event, a: seq<Option<Invitee>>, b: seq<Option<Invitee>>,
                                              sendOutcome: nat -> bool)
    ensures InviteesFold(p, e, a + b, sendOutcome) == InviteesFold(InviteesFold(p, e, a, sendOutcome), e, b, sendOutcome)
  {
    if b == [] {
      assert a + b == a;
    } else {
      assert (a + b)[..|a + b| - 1] == a + b[..|b| - 1];
      InviteesFoldAppend(p, e, a, b[..|b| - 1], sendOutcome);
    }
  }

  /**
   * Failure isolation inside an event: an invitee entry that throws before its
   * send changes nothing, and the invitees after it are processed as if it were
   * not there.
   */
  lemma FailedInviteeIsolated(p: Progress, e: Event, before: seq<Option<Invitee>>, after: seq<Option<Invitee>>,
                              sendOutcome: nat -> bool)
    ensures InviteesFold(p, e, before + [None] + after, sendOutcome) == InviteesFold(p, e, before + after, sendOutcome)
  {
    InviteesFoldAppend(p, e, before + [None], after, sendOutcome);
    InviteesFoldAppend(p, e, before, [None], sendOutcome);
    InviteesFoldAppend(p, e, before, after, sendOutcome);
    var gap: seq<Option<Invitee>> := [None];
    assert gap[..0] == [];
  }

  /** The invitees that are present, in the provider's order. */
  function Present(invitees: seq<Option<Invitee>>): (r: seq<Invitee>)
    ensures |r| <= |invitees|
    ensures forall x :: x in r <==> Some(x) in invitees
  {
    if invitees == [] then []
    else
      var last := invitees[|invitees| - 1];
      assert invitees == invitees[..|invitees| - 1] + [last];
      Present(invitees[..|invitees| - 1]) + (if last.Some? then [last.value] else [])
  }

  /**
   * Every invitee present in the collection is texted exactly once, in order,
   * whatever the sends return; the earlier sends are kept.
   */
  lemma {:induction false} EveryInviteeTexted(p: Progress, e: Event, invitees: seq<Option<Invitee>>, sendOutcome: nat -> bool)
    ensures var q := InviteesFold(p, e, invitees, sendOutcome);
            var present := Present(invitees);
            && |q.sent| == |p.sent| + |present|
            && q.sent[..|p.sent|] == p.sent
            && forall k :: 0 <= k < |present| ==> q.sent[|p.sent| + k] == Send(e.uri, TextFor(e, present[k]))
  {
    if invitees != [] {
      var init := invitees[..|invitees| - 1];
      var last := invitees[|invitees| - 1];
      EveryInviteeTexted(p, e, init, sendOutcome);
      var q0 := InviteesFold(p, e, init, sendOutcome);
      var q := InviteesFold(p, e, invitees, sendOutcome);
      assert q == InviteeStep(q0, e, last, sendOutcome);
      if last.Some? {
        assert q.sent == q0.sent + [Send(e.uri, TextFor(e, last.value))];
        assert Present(invitees) == Present(init) + [last.value];
      } else {
        assert Present(invitees) == Present(init);
      }
    }
  }

  /**
   * An event that is not yet tracked when the loop reaches it, and whose
   * invitee lookup returns a collection, is looked up once and texts each of
   * its present invitees once, in order.
   */
  lemma UntrackedEventTextsEveryInvitee(p: Progress, e: Event, inviteesOf: string -> InviteeResponse, sendOutcome: nat -> bool)
    requires e.uri !in p.tracked && inviteesOf(e.uri).Invitees?
    ensures var q := EventStep(p, Some(e), inviteesOf, sendOutcome);
            var present := Present(inviteesOf(e.uri).entries);
            && q.fetched == p.fetched + [e.uri]
            && |q.sent| == |p.sent| + |present|
            && q.sent[..|p.sent|] == p.sent
            && forall k :: 0 <= k < |present| ==> q.sent[|p.sent| + k] == Send(e.uri, TextFor(e, present[k]))
  {
    var p1 := p.(fetched := p.fetched + [e.uri]);
    InviteesFoldFacts(p1, e, inviteesOf(e.uri).entries, sendOutcome);
    EveryInviteeTexted(p1, e, inviteesOf(e.uri).entries, sendOutcome);
  }

  /**
   * Failure isolation: an event whose entry throws, or whose invitee lookup
   * throws or has no collection, affects nothing but the fetch trace; the
   * events after it are processed as if it were not there.
   */
  lemma FailedEventIsolated(p: Progress, before: seq<Option<Event>>, entry: Option<Event>, after: seq<Option<Event>>,
                            inviteesOf: string -> InviteeResponse, sendOutcome: nat -> bool)
    requires entry.None? || !inviteesOf(entry.value.uri).Invitees?
    ensures Effects(EventsFold(p, before + [entry] + after, inviteesOf, sendOutcome))
            == Effects(EventsFold(p, before + after, inviteesOf, sendOutcome))
  {
    EventsFoldAppend(p, before + [entry], after, inviteesOf, sendOutcome);
    EventsFoldAppend(p, before, [entry], inviteesOf, sendOutcome);
    EventsFoldAppend(p, before, after, inviteesOf, sendOutcome);
    var q := EventsFold(p, before, inviteesOf, sendOutcome);
    assert [entry][..0] == [];
    EventsFoldIgnoresFetched(EventsFold(q, [entry], inviteesOf, sendOutcome), q, after, inviteesOf, sendOutcome);
  }

  /** Pruning removes exactly the oldest entries: none of them survives, and no duplicate appears. */
  lemma EvictionDropsOldest(tracked: seq<string>)
    requires NoDuplicates(tracked)
    ensures NoDuplicates(Evict(tracked))
    ensures forall i :: 0 <= i < |tracked| - |Evict(tracked)| ==> tracked[i] !in Evict(tracked)
  {
    var r := Evict(tracked);
    var d := |tracked| - |r|;
    assert r == tracked[d..];
  }

  lemma {:induction false} PrefixWithSameElements(s: seq<string>, t: seq<string>)
    requires s <= t && NoDuplicates(t)
    requires forall u :: u in t ==> u in s
    ensures t == s
  {
    if |t| > |s| {
      FirstNewElement(s, t);
      assert false;
    }
  }

  lemma FirstNewElement(s: seq<string>, t: seq<string>)
    requires s <= t && |s| < |t| && NoDuplicates(t)
    ensures t[|s|] in t && t[|s|] !in s
  {
  }

  /**
   * As written, calendly.ts:153 omits the phone list, so every send returns
   * `false`: a batch then records nothing and leaves the set as it was.
   */
  lemma OneArgumentSendRecordsNothing(tracked: seq<string>, response: EventsResponse,
                                      inviteesOf: string -> InviteeResponse, sendOutcome: nat -> bool)
    requires NoDuplicates(tracked) && |tracked| <= MaxTracked
    requires forall k :: !sendOutcome(k)
    ensures var o := Process(tracked, response, inviteesOf, sendOutcome);
            o.result.processed == 0 && o.result.events == [] && o.tracked == tracked
  {
    if response.Collection? {
      var start := Progress(tracked, [], [], []);
      var q := EventsFold(start, response.entries, inviteesOf, sendOutcome);
      EventsFoldFacts(start, response.entries, inviteesOf, sendOutcome);
      NothingConfirmed(q.sent, 0, |q.sent|, sendOutcome);
      assert q.records[0..] == [];
      PrefixWithSameElements(tracked, q.tracked);
    }
  }

  /**
   * A listing that throws or has no collection touches nothing: no fetch, no
   * send, no record, and the set is as it was; a throw reports its message
   * and the current size of the set.
   */
  lemma ListingFailureChangesNothing(tracked: seq<string>, response: EventsResponse,
                                     inviteesOf: string -> InviteeResponse, sendOutcome: nat -> bool)
    requires !response.Collection?
    ensures var o := Process(tracked, response, inviteesOf, sendOutcome);
            && o.tracked == tracked && o.fetched == [] && o.sent == []
            && o.result.processed == 0 && o.result.events == []
            && (response.NoCollection? ==> o.result.totalTracked.None? && o.result.error.None?)
            && (response.ListThrew? ==> o.result.totalTracked == Some(|tracked|)
                                        && o.result.error == Some(ErrorText(response.error)))
  {
  }

  /**
   * One booking with one invitee, every send succeeding: the first poll
   * announces it once and tracks it, and a second poll over the same answer
   * neither looks it up nor texts again.
   */
  lemma SingleBookingExample()
    ensures var e := Event("evt_1", 0, 3600000);
            var jane := Invitee(Some("Jane"), Some("jane@example.com"), None, None);
            var inviteesOf := (u: string) => Invitees([Some(jane)]);
            var delivered := (k: nat) => true;
            var first := Process([], Collection([Some(e)]), inviteesOf, delivered);
            var again := Process(first.tracked, Collection([Some(e)]), inviteesOf, delivered);
            && first.sent == [Send("evt_1", NewAppointmentText(Some("Jane"), Some("jane@example.com"), 0, 60))]
            && first.result.events == [NotificationRecord("evt_1", Some("Jane"), 0)]
            && first.result.processed == 1 && first.tracked == ["evt_1"] && first.result.totalTracked == Some(1)
            && again.fetched == [] && again.sent == [] && again.result.processed == 0 && again.tracked == ["evt_1"]
  {
    var e := Event("evt_1", 0, 3600000);
    var jane := Invitee(Some("Jane"), Some("jane@example.com"), None, None);
    var inviteesOf := (u: string) => Invitees([Some(jane)]);
    var delivered := (k: nat) => true;
    var start := Progress([], [], [], []);
    assert [Some(e)][..0] == [];
    assert [Some(jane)][..0] == [];
    var p1 := start.(fetched := ["evt_1"]);
    assert InviteesFold(p1, e, [Some(jane)], delivered) == InviteeStep(p1, e, Some(jane), delivered);
    assert Insert([], "evt_1") == ["evt_1"];
    assert EventsFold(start, [], inviteesOf, delivered) == start;
    assert EventStep(start, Some(e), inviteesOf, delivered) == InviteesFold(p1, e, [Some(jane)], delivered);
    var q := EventsFold(start, [Some(e)], inviteesOf, delivered);
    assert q == EventStep(start, Some(e), inviteesOf, delivered);
    assert q.tracked == ["evt_1"];
    assert Evict(["evt_1"]) == ["evt_1"];
  }

  // ---------------------------------------------------------------------------
  // The module-level set and the imperative procedure.
  // ---------------------------------------------------------------------------

  class AppointmentTracker {
    /** `processedAppointments`, in insertion order. */
    var processed: seq<string>

    /** Between calls the set has no duplicates and at most `MaxTracked` entries. */
    ghost predicate Valid()
      reads this
    {
      NoDuplicates(processed) && |processed| <= MaxTracked
    }

    constructor ()
      ensures Valid() && processed == []
    {
      processed := [];
    }

    method ProcessNewAppointments(lastCheckTime: int, listEvents: Query -> EventsResponse,
                                  inviteesOf: string -> InviteeResponse, sendOutcome: nat -> bool)
      returns (result: ProcessResult, fetched: seq<string>, sent: seq<Send>)
      requires Valid()
      modifies this
      ensures Valid()
      ensures Outcome(result, processed, fetched, sent)
              == Process(old(processed), listEvents(Query(lastCheckTime, None)), inviteesOf, sendOutcome)
    {
      fetched, sent := [], [];
      var response := listEvents(Query(lastCheckTime, None));
      match response {
        case ListThrew(error) =>
          result := ProcessResult(0, [], Some(|processed|), Some(ErrorText(error)));
        case NoCollection =>
          result := ProcessResult(0, [], None, None);
        case Collection(entries) =>
          var records: seq<NotificationRecord> := [];
          ghost var start := Progress(processed, [], [], []);
          var i := 0;
          while i < |entries|
            invariant 0 <= i <= |entries|
            invariant Progress(processed, records, fetched, sent) == EventsFold(start, entries[..i], inviteesOf, sendOutcome)
            invariant NoDuplicates(processed)
          {
            assert entries[..i + 1][..i] == entries[..i];
            if entries[i].Some? && entries[i].value.uri !in processed {
              var event := entries[i].value;
              fetched := fetched + [event.uri];
              var invitees := inviteesOf(event.uri);
              if invitees.Invitees? {
                records, sent := NotifyInvitees(event, invitees.entries, sendOutcome, records, fetched, sent);
              }
            }
            i := i + 1;
          }
          assert entries[..|entries|] == entries;
          EvictOldest();
          result := ProcessResult(|records|, records, Some(|processed|), None);
      }
    }

    /**
     * The invitee loop of one event: text each present invitee and, when the
     * send succeeds, track the event and record the invitee.
     */
    method NotifyInvitees(event: Event, invitees: seq<Option<Invitee>>, sendOutcome: nat -> bool,
                          records0: seq<NotificationRecord>, fetched: seq<string>, sent0: seq<Send>)
      returns (records: seq<NotificationRecord>, sent: seq<Send>)
      requires NoDuplicates(processed)
      modifies this
      ensures NoDuplicates(processed)
      ensures Progress(processed, records, fetched, sent)
              == InviteesFold(Progress(old(processed), records0, fetched, sent0), event, invitees, sendOutcome)
    {
      records, sent := records0, sent0;
      ghost var before := Progress(processed, records, fetched, sent);
      var j := 0;
      while j < |invitees|
        invariant 0 <= j <= |invitees|
        invariant Progress(processed, records, fetched, sent) == InviteesFold(before, event, invitees[..j], sendOutcome)
        invariant NoDuplicates(processed)
      {
        assert invitees[..j + 1][..j] == invitees[..j];
        if invitees[j].Some? {
          var invitee := invitees[j].value;
          var ok := sendOutcome(|sent|);
          sent := sent + [Send(event.uri, TextFor(event, invitee))];
          if ok {
            processed := Insert(processed, event.uri);
            records := records + [NotificationRecord(event.uri, invitee.name, event.startTime)];
          }
        }
        j := j + 1;
      }
      assert invitees[..|invitees|] == invitees;
    }

    /** Deletes the oldest entries one by one until `MaxTracked` remain. */
    method EvictOldest()
      requires NoDuplicates(processed)
      modifies this
      ensures processed == Evict(old(processed))
      ensures Valid()
    {
      if |processed| > MaxTracked {
        var entries := processed;
        var k := 0;
        while k < |entries| - MaxTracked
          invariant 0 <= k <= |entries| - MaxTracked
          invariant processed == entries[k..]
        {
          assert NoDuplicates(processed) by {
            forall a, b | 0 <= a < b < |processed| ensures processed[a] != processed[b] {
              assert processed[a] == entries[k + a] && processed[b] == entries[k + b];
            }
          }
          DeleteOldest(processed);
          processed := Delete(processed, entries[k]);
          k := k + 1;
        }
        assert NoDuplicates(processed) by {
          forall a, b | 0 <= a < b < |processed| ensures processed[a] != processed[b] {
            assert processed[a] == entries[k + a] && processed[b] == entries[k + b];
          }
        }
      }
    }
  }
}
