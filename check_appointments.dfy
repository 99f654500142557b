/**
 * app/api/check-appointments/route.ts: the key-protected polling endpoint. It
 * checks the required configuration, runs a batch from the stored checkpoint
 * and then moves the checkpoint to the current time.
 */
module CheckAppointments {
  import opened Wrappers
  import opened Text
  import opened Provider
  import opened Calendly

  /** `requiredEnvVars`, in declaration order. */
  const RequiredVariables: seq<string> :=
    ["CALENDLY_ACCESS_TOKEN", "TWILIO_ACCOUNT_SID", "TWILIO_AUTH_TOKEN", "TWILIO_FROM_NUMBER", "MISSIONARY_PHONE_NUMBERS"]

  const MissingPrefix: string := "Missing required environment variables: "

  /** `!!process.env[name]`: present and not empty. */
  predicate IsSet(env: map<string, string>, name: string)
  {
    name in env && env[name] != ""
  }

  /** `names.filter(name => !process.env[name])`. */
  function Missing(names: seq<string>, env: map<string, string>): (r: seq<string>)
    ensures |r| <= |names|
    ensures forall v :: v in r <==> v in names && !IsSet(env, v)
  {
    if names == [] then []
    else
      var last := names[|names| - 1];
      assert names == names[..|names| - 1] + [last];
      Missing(names[..|names| - 1], env) + (if IsSet(env, last) then [] else [last])
  }

  /** One more name: the filter looks at it last. */
  lemma MissingSnoc(names: seq<string>, name: string, env: map<string, string>)
    ensures Missing(names + [name], env) == Missing(names, env) + (if IsSet(env, name) then [] else [name])
  {
    assert (names + [name])[..|names|] == names;
  }

  /** The filter keeps the order of the names: it distributes over concatenation. */
  lemma {:induction false} MissingAppend(a: seq<string>, b: seq<string>, env: map<string, string>)
    ensures Missing(a + b, env) == Missing(a, env) + Missing(b, env)
  {
    if b == [] {
      assert a + b == a;
    } else {
      var init, last := b[..|b| - 1], b[|b| - 1];
      var tail := if IsSet(env, last) then [] else [last];
      assert b == init + [last];
      assert a + b == (a + init) + [last];
      calc {
        Missing(a + b, env);
        { MissingSnoc(a + init, last, env); }
        Missing(a + init, env) + tail;
        { MissingAppend(a, init, env); }
        (Missing(a, env) + Missing(init, env)) + tail;
        Missing(a, env) + (Missing(init, env) + tail);
        { MissingSnoc(init, last, env); }
        Missing(a, env) + Missing(b, env);
      }
    }
  }

  /** `checkEnvironmentVariables`: `None` when it passes, else the message of the error it throws. */
  function CheckEnvironment(env: map<string, string>): (error: Option<string>)
    ensures error.None? <==> forall v :: v in RequiredVariables ==> IsSet(env, v)
    ensures error.Some? ==> error.value == MissingPrefix + Join(Missing(RequiredVariables, env), ", ")
  {
    var missing := Missing(RequiredVariables, env);
    if |missing| > 0 then
      assert missing[0] in missing;
      Some(MissingPrefix + Join(missing, ", "))
    else None
  }

  /** The JSON body: `{success, lastCheckTime}` with status 200, or `{error}` with status 500. */
  datatype CheckResponse = Checked(lastCheckTime: int) | Failed(message: string)

  /** The route module: its `let lastCheckTime` and the batch state it drives. */
  class CheckpointRoute {
    var lastCheckTime: int
    const tracker: AppointmentTracker

    ghost predicate Valid()
      reads this, tracker
    {
      tracker.Valid()
    }

    /** The module is loaded at `startup`, which becomes the first checkpoint. */
    constructor(startup: int, tracker: AppointmentTracker)
      requires tracker.Valid()
      ensures Valid() && lastCheckTime == startup && this.tracker == tracker
    {
      lastCheckTime := startup;
      this.tracker := tracker;
    }

    /**
     * `GET`: `now` is the clock after the batch. A configuration error changes
     * nothing; otherwise the batch runs from the old checkpoint and the
     * checkpoint moves to `now` whatever the batch reported, and the batch's
     * result is not part of the response.
     */
    method Get(env: map<string, string>, now: int, listEvents: Query -> EventsResponse,
               inviteesOf: string -> InviteeResponse, sendOutcome: nat -> bool)
      returns (status: int, response: CheckResponse)
      requires Valid()
      modifies this, tracker
      ensures Valid()
      ensures CheckEnvironment(env).Some? ==>
                && status == 500 && response == Failed(CheckEnvironment(env).value)
                && lastCheckTime == old(lastCheckTime) && tracker.processed == old(tracker.processed)
      ensures CheckEnvironment(env).None? ==>
                && status == 200 && response == Checked(now) && lastCheckTime == now
                && tracker.processed == Process(old(tracker.processed), listEvents(Query(old(lastCheckTime), None)),
                                                inviteesOf, sendOutcome).tracked
    {
      var error := CheckEnvironment(env);
      if error.Some? {
        return 500, Failed(error.value);
      }
      var _, _, _ := tracker.ProcessNewAppointments(lastCheckTime, listEvents, inviteesOf, sendOutcome);
      lastCheckTime := now;
      status, response := 200, Checked(lastCheckTime);
    }
  }
}
