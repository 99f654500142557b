/**
 * The two in-memory session stores: the 7-day set of app/utils/session.ts and
 * the 24-hour set of app/api/missionary/appointments/route.ts. Both keep a set
 * of tokens and, for every add, a timer that deletes that token `ttl`
 * milliseconds later. `setTimeout` is modelled by explicit pending timers that
 * a `Tick(now)` fires. A request that arrives at `now` sees the store after
 * every timer due by `now` has fired: an add fires them first, and a lookup
 * asks whether the token survives them. In an event sequence, an add at time
 * `t` is taken to come after the tick to `t`.
 */
module Sessions {

  const MsPerDay: nat := 24 * 60 * 60 * 1000

  /** The lifetime of a token added through app/utils/session.ts. */
  const UtilitySessionTtl: nat := 7 * MsPerDay

  /** The lifetime of a token added through the appointments route (the login flow). */
  const MissionarySessionTtl: nat := MsPerDay

  /** A `setTimeout` callback that deletes `token` at time `due`. */
  datatype Timer = Timer(due: int, token: string)

  datatype SessionState = SessionState(tokens: set<string>, timers: seq<Timer>)

  datatype SessionEvent = Added(token: string, at: int) | Removed(token: string) | Ticked(now: int)

  /** Some pending timer for `token` is due at `now`. */
  ghost predicate Due(timers: seq<Timer>, token: string, now: int)
  {
    exists i :: 0 <= i < |timers| && timers[i].token == token && timers[i].due <= now
  }

  /** The tokens deleted by the timers that are due at `now`. */
  function Expired(timers: seq<Timer>, now: int): (r: set<string>)
    ensures forall t :: t in r <==> Due(timers, t, now)
  {
    if timers == [] then {}
    else
      var last := timers[|timers| - 1];
      var rest := Expired(timers[..|timers| - 1], now);
      assert forall t :: Due(timers, t, now) <==> Due(timers[..|timers| - 1], t, now) || (last.token == t && last.due <= now);
      if last.due <= now then rest + {last.token} else rest
  }

  /** The timers that are not yet due at `now`, in the order they were set. */
  function Pending(timers: seq<Timer>, now: int): (r: seq<Timer>)
    ensures forall x :: x in r <==> x in timers && x.due > now
    ensures |r| <= |timers|
  {
    if timers == [] then []
    else
      var last := timers[|timers| - 1];
      assert timers == timers[..|timers| - 1] + [last];
      Pending(timers[..|timers| - 1], now) + (if last.due <= now then [] else [last])
  }

  /** Running every timer due at `now`; the order in which they fire does not matter. */
  function Tick(s: SessionState, now: int): SessionState
  {
    SessionState(s.tokens - Expired(s.timers, now), Pending(s.timers, now))
  }

  /** The effect of one add, remove or clock advance on a store whose tokens live `ttl` ms. */
  function Apply(ttl: nat, s: SessionState, e: SessionEvent): SessionState
  {
    match e
    case Added(token, at) => SessionState(s.tokens + {token}, s.timers + [Timer(at + ttl, token)])
    case Removed(token) => s.(tokens := s.tokens - {token})
    case Ticked(now) => Tick(s, now)
  }

  function Replay(ttl: nat, s: SessionState, events: seq<SessionEvent>): SessionState
  {
    if events == [] then s
    else Apply(ttl, Replay(ttl, s, events[..|events| - 1]), events[|events| - 1])
  }

  /**
   * Each event changes the membership of its own token only: an add makes it
   * valid, a remove makes it invalid (a no-op for an absent token), and a tick
   * deletes exactly the tokens with a due timer.
   */
  lemma ApplyMembership(ttl: nat, s: SessionState, e: SessionEvent, t: string)
    ensures e.Added? ==> (t in Apply(ttl, s, e).tokens <==> t in s.tokens || t == e.token)
    ensures e.Removed? ==> (t in Apply(ttl, s, e).tokens <==> t in s.tokens && t != e.token)
    ensures e.Ticked? ==> (t in Apply(ttl, s, e).tokens <==> t in s.tokens && !Due(s.timers, t, e.now))
  {
  }

  /** Removing a token that is not there, or one whose timer already fired, changes nothing. */
  lemma RemoveAbsentNoOp(ttl: nat, s: SessionState, token: string)
    requires token !in s.tokens
    ensures Apply(ttl, s, Removed(token)) == s
  {
  }

  /** Nothing in `events` ends the session of `token` before `deadline`. */
  ghost predicate Quiet(ttl: nat, events: seq<SessionEvent>, token: string, deadline: int)
  {
    forall i :: 0 <= i < |events| ==>
      && events[i] != Removed(token)
      && (events[i].Ticked? ==> events[i].now < deadline)
      && (events[i].Added? && events[i].token == token ==> events[i].at + ttl >= deadline)
  }

  /** `token` is in the set, and none of its pending timers is due before `deadline`. */
  ghost predicate LiveUntil(s: SessionState, token: string, deadline: int)
  {
    && token in s.tokens
    && forall i :: 0 <= i < |s.timers| && s.timers[i].token == token ==> s.timers[i].due >= deadline
  }

  lemma {:induction false} LiveUntilKept(ttl: nat, s: SessionState, events: seq<SessionEvent>, token: string, deadline: int)
    requires LiveUntil(s, token, deadline) && Quiet(ttl, events, token, deadline)
    ensures LiveUntil(Replay(ttl, s, events), token, deadline)
  {
    if events != [] {
      var prefix := events[..|events| - 1];
      assert Quiet(ttl, prefix, token, deadline) by {
        forall i | 0 <= i < |prefix| ensures prefix[i] == events[i] { }
      }
      LiveUntilKept(ttl, s, prefix, token, deadline);
      LiveUntilStep(ttl, Replay(ttl, s, prefix), events[|events| - 1], token, deadline);
    }
  }

  /** One event that neither removes `token`, nor reaches `deadline`, nor re-adds it too early keeps it live. */
  lemma LiveUntilStep(ttl: nat, s: SessionState, e: SessionEvent, token: string, deadline: int)
    requires LiveUntil(s, token, deadline)
    requires e != Removed(token)
    requires e.Ticked? ==> e.now < deadline
    requires e.Added? && e.token == token ==> e.at + ttl >= deadline
    ensures LiveUntil(Apply(ttl, s, e), token, deadline)
  {
    if e.Ticked? {
      var p := Pending(s.timers, e.now);
      forall i | 0 <= i < |p| && p[i].token == token ensures p[i].due >= deadline {
        assert p[i] in s.timers;
      }
    } else if e.Added? {
      assert Apply(ttl, s, e).timers == s.timers + [Timer(e.at + ttl, e.token)];
    }
  }

  /**
   * A session stays valid for its whole lifetime: a token added at `at` to a
   * store holding no earlier timer for it is still valid after any sequence of
   * events that does not remove it, re-adds it no earlier, and advances the
   * clock no further than `at + ttl`.
   */
  lemma SessionLivesForTtl(ttl: nat, s: SessionState, token: string, at: int, events: seq<SessionEvent>)
    requires forall i :: 0 <= i < |s.timers| ==> s.timers[i].token != token
    requires Quiet(ttl, events, token, at + ttl)
    ensures token in Replay(ttl, Apply(ttl, s, Added(token, at)), events).tokens
  {
    var s1 := Apply(ttl, s, Added(token, at));
    assert s1.timers == s.timers + [Timer(at + ttl, token)];
    LiveUntilKept(ttl, s1, events, token, at + ttl);
  }

  lemma {:induction false} TimerStaysPending(ttl: nat, s: SessionState, events: seq<SessionEvent>, timer: Timer)
    requires timer in s.timers
    requires forall i :: 0 <= i < |events| && events[i].Ticked? ==> events[i].now < timer.due
    ensures timer in Replay(ttl, s, events).timers
  {
    if events != [] {
      var prefix := events[..|events| - 1];
      assert forall i :: 0 <= i < |prefix| ==> prefix[i] == events[i];
      TimerStaysPending(ttl, s, prefix, timer);
      var r := Replay(ttl, s, prefix);
      var e := events[|events| - 1];
      if e.Added? {
        assert Apply(ttl, r, e).timers == r.timers + [Timer(e.at + ttl, e.token)];
      }
    }
  }

  /**
   * A session ends at its first add time plus the lifetime, whatever happens in
   * between: re-adding the token before then does not extend it, because the
   * earlier timer still fires.
   */
  lemma ExpiryFollowsFirstAdd(ttl: nat, s: SessionState, token: string, at: int, events: seq<SessionEvent>, now: int)
    requires forall i :: 0 <= i < |events| && events[i].Ticked? ==> events[i].now < at + ttl
    requires forall i :: 0 <= i < |events| && events[i].Added? && events[i].token == token ==> events[i].at < at + ttl
    requires now >= at + ttl
    ensures token !in Replay(ttl, Apply(ttl, s, Added(token, at)), events + [Ticked(now)]).tokens
  {
    var s1 := Apply(ttl, s, Added(token, at));
    var timer := Timer(at + ttl, token);
    assert timer in s1.timers by {
      assert s1.timers == s.timers + [timer];
    }
    TimerStaysPending(ttl, s1, events, timer);
    var r := Replay(ttl, s1, events);
    assert (events + [Ticked(now)])[..|events|] == events;
    var i :| 0 <= i < |r.timers| && r.timers[i] == timer;
    assert Due(r.timers, token, now);
  }

  /** A request at `now` adds `token`: the timers due by then have already fired. */
  function AddAt(ttl: nat, s: SessionState, token: string, now: int): SessionState
  {
    Apply(ttl, Tick(s, now), Added(token, now))
  }

  /** `validSessions.has(token)` for a request at `now`. */
  predicate ValidAt(s: SessionState, token: string, now: int)
  {
    token in Tick(s, now).tokens
  }

  /** A token just added at `now` stays valid up to `later`, if no older timer of it falls due in between. */
  lemma AddedIsValid(ttl: nat, s: SessionState, token: string, now: int, later: int)
    requires now <= later < now + ttl
    requires forall i :: 0 <= i < |s.timers| && s.timers[i].token == token ==> s.timers[i].due <= now || s.timers[i].due > later
    ensures ValidAt(AddAt(ttl, s, token, now), token, later)
  {
    var s1 := AddAt(ttl, s, token, now);
    var p := Pending(s.timers, now);
    assert s1.timers == p + [Timer(now + ttl, token)];
    forall i | 0 <= i < |s1.timers| && s1.timers[i].token == token
      ensures s1.timers[i].due > later
    {
      if i < |p| {
        assert p[i] in s.timers;
      }
    }
  }

  /** A session added at `at` is over once the clock reaches `at + ttl`. */
  lemma SessionEndsAfterTtl(ttl: nat, s: SessionState, token: string, at: int, now: int)
    requires now >= at + ttl
    ensures !ValidAt(AddAt(ttl, s, token, at), token, now)
  {
    var s1 := AddAt(ttl, s, token, at);
    assert s1.timers[|s1.timers| - 1] == Timer(at + ttl, token);
    assert Due(s1.timers, token, now);
  }

  /**
   * Re-adding a token after its first session ended starts a full new one:
   * the first timer fired before the re-add, so only the new timer is left.
   */
  lemma ReAddAfterExpiryRenews(ttl: nat, s: SessionState, token: string, at: int, later: int, now: int)
    requires forall i :: 0 <= i < |s.timers| && s.timers[i].token == token ==> s.timers[i].due <= later
    requires at + ttl <= later <= now < later + ttl
    ensures ValidAt(AddAt(ttl, AddAt(ttl, s, token, at), token, later), token, now)
  {
    var s1 := AddAt(ttl, s, token, at);
    var p := Pending(s.timers, at);
    assert s1.timers == p + [Timer(at + ttl, token)];
    forall i | 0 <= i < |s1.timers| && s1.timers[i].token == token
      ensures s1.timers[i].due <= later
    {
      if i < |p| {
        assert p[i] in s.timers;
      }
    }
    AddedIsValid(ttl, s1, token, later, now);
  }

  /**
   * A module-level `Set<string>` of session tokens together with the timers
   * its adds have scheduled.
   */
  class SessionStore {
    const ttl: nat
    var tokens: set<string>
    var timers: seq<Timer>

    function State(): SessionState
      reads this
    {
      SessionState(tokens, timers)
    }

    constructor(ttl: nat)
      ensures this.ttl == ttl
      ensures State() == SessionState({}, [])
    {
      this.ttl := ttl;
      tokens := {};
      timers := [];
    }

    /** `validSessions.has(token)` at `now`; reading does not extend the session. */
    predicate IsValid(token: string, now: int)
      reads this
    {
      ValidAt(State(), token, now)
    }

    /**
     * `addValidSession` at `now`: once the timers due by then have fired, add
     * the token and schedule its deletion `ttl` ms later.
     */
    method Add(token: string, now: int)
      modifies this
      ensures State() == AddAt(ttl, old(State()), token, now)
      ensures ttl > 0 ==> IsValid(token, now)
    {
      ghost var before := State();
      Tick(now);
      ghost var fired := State();
      assert fired == Apply(ttl, before, Ticked(now));
      tokens := tokens + {token};
      timers := timers + [Timer(now + ttl, token)];
      assert State() == Apply(ttl, fired, Added(token, now));
      if ttl > 0 {
        AddedIsValid(ttl, before, token, now, now);
      }
    }

    /** `removeSession`. */
    method Remove(token: string)
      modifies this
      ensures State() == Apply(ttl, old(State()), Removed(token))
    {
      tokens := tokens - {token};
    }

    /** The clock reaches `now`: every due timer deletes its token. */
    method Tick(now: int)
      modifies this
      ensures State() == Apply(ttl, old(State()), Ticked(now))
    {
      var gone: set<string> := {};
      var kept: seq<Timer> := [];
      var i := 0;
      while i < |timers|
        invariant 0 <= i <= |timers|
        invariant gone == Expired(timers[..i], now)
        invariant kept == Pending(timers[..i], now)
      {
        var timer := timers[i];
        assert timers[..i + 1][..i] == timers[..i];
        if timer.due <= now {
          gone := gone + {timer.token};
        } else {
          kept := kept + [timer];
        }
        i := i + 1;
      }
      assert timers[..i] == timers;
      tokens := tokens - gone;
      timers := kept;
    }
  }
}
