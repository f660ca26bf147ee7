/** What a client may rely on: cooldowns and Retry-After are honest, and failures alone
    lead to a lockout. */
module AttemptFairness {
  import opened Attempts
  import opened Wrappers

  // ---------- Cooldowns ----------

  /** The times at which the requests of a run locked the client out. */
  function Strikes(cfg: Config, events: seq<Event>): seq<int> {
    if events == [] then []
    else
      var before, e := events[..|events| - 1], events[|events| - 1];
      Strikes(cfg, before)
      + if e.Request? && Pttl(Exec(cfg, before).lock, e.at) <= 0 && AnswerTo(cfg, before, e.at).Deny?
        then [e.at] else []
  }

  /** How many strikes the chain that ends with the last one has: a chain goes on while no
      gap exceeds the strikes' time to live. */
  function Chain(cfg: Config, strikes: seq<int>): nat {
    var n := |strikes|;
    if n == 0 then 0
    else if n == 1 || strikes[n - 1] - strikes[n - 2] > cfg.strikeTtl then 1
    else Chain(cfg, strikes[..n - 1]) + 1
  }

  /** What the keys hold after the given strikes. */
  ghost predicate Remembers(cfg: Config, s: Keys, strikes: seq<int>) {
    if strikes == [] then s.lock == None && s.strikes == None
    else
      var last, k := strikes[|strikes| - 1], Chain(cfg, strikes);
      && k >= 1
      && s.lock == Some(Entry(1, Some(last + Cooldown(cfg, k))))
      && s.strikes == Some(Entry(k, Some(last + cfg.strikeTtl)))
  }

  /** A strike adds to what is remembered, and nothing else touches it. */
  lemma StrikeRemembered(cfg: Config, s: Keys, was: seq<int>, at: int)
    requires Remembers(cfg, s, was)
    ensures var (t, verdict) := Attempted(cfg, s, at);
            Remembers(cfg, t, if Pttl(s.lock, at) <= 0 && verdict.Deny? then was + [at] else was)
  {
    hide Cooldown;
    assert (was + [at])[..|was|] == was;
    assert was + [at] != [];
  }

  /** In every reachable state the client is locked until exactly
      min(base * 2^(k - 1), max) after its last strike, the k-th of its chain; requests
      denied since then, admitted requests and refunds have changed nothing about it. */
  lemma {:induction false} CooldownIsExact(cfg: Config, events: seq<Event>)
    ensures Remembers(cfg, Exec(cfg, events), Strikes(cfg, events))
  {
    hide Attempted, Chain, Cooldown;
    if events != [] {
      var before, e := events[..|events| - 1], events[|events| - 1];
      CooldownIsExact(cfg, before);
      assert Strikes(cfg, before) + [] == Strikes(cfg, before);
      if e.Request? {
        StrikeRemembered(cfg, Exec(cfg, before), Strikes(cfg, before), e.at);
      }
    }
  }

  // ---------- Retry-After ----------

  /** The Retry-After header, in seconds. */
  function RetryAfter(wait: int): int {
    (wait + 999) / 1000
  }

  /** While a client is locked out it has no fails counter. */
  lemma {:induction false} LockedHasNoFails(cfg: Config, events: seq<Event>, now: int)
    requires Positive(cfg) && InTime(events) && (events != [] ==> events[|events| - 1].at <= now)
    ensures Pttl(Exec(cfg, events).lock, now) > 0 ==> Exec(cfg, events).fails == None
  {
    if events != [] {
      var before, e := events[..|events| - 1], events[|events| - 1];
      LockedHasNoFails(cfg, before, e.at);
      SaneAlways(cfg, before);
    }
  }

  ghost predicate During(events: seq<Event>, from: int, to: int) {
    forall e | e in events :: from <= e.at < to
  }

  /** Until the lock expires every request is denied with what is left of it, and neither
      requests nor refunds change the keys. */
  lemma {:induction false} NothingMovesWhileLocked(cfg: Config, events: seq<Event>, more: seq<Event>, expiry: int)
    requires Exec(cfg, events).lock.Some? && Exec(cfg, events).lock.value.expiry == Some(expiry)
    requires Exec(cfg, events).fails == None
    requires forall e | e in more :: e.at < expiry
    ensures Exec(cfg, events + more) == Exec(cfg, events)
    ensures forall at | at < expiry :: AnswerTo(cfg, events + more, at) == Deny(expiry - at)
  {
    if more == [] {
      assert events + more == events;
    } else {
      var before, e := more[..|more| - 1], more[|more| - 1];
      NothingMovesWhileLocked(cfg, events, before, expiry);
      assert (events + more)[..|events + more| - 1] == events + before;
    }
  }

  /** What a denial leaves behind: a lock that runs for the announced wait, and no fails. */
  lemma DenialLocks(cfg: Config, events: seq<Event>, now: int)
    requires Positive(cfg) && InTime(events + [Request(now)]) && AnswerTo(cfg, events, now).Deny?
    ensures var wait, s := AnswerTo(cfg, events, now).wait, Exec(cfg, events + [Request(now)]);
            0 < wait && s.fails == None && s.lock.Some? && s.lock.value.expiry == Some(now + wait)
  {
    var denied := events + [Request(now)];
    assert denied[..|events|] == events && denied[|events|] == Request(now);
    SaneAlways(cfg, events);
    forall i, j | 0 <= i < j < |events| ensures events[i].at <= events[j].at {
      assert denied[i].at <= denied[j].at;
    }
    if events != [] {
      assert denied[|events| - 1].at <= denied[|events|].at;
    }
    LockedHasNoFails(cfg, events, now);
    var s := Exec(cfg, denied);
    if Pttl(Exec(cfg, events).lock, now) <= 0 {
      CooldownAtLeastSpacing(cfg, s.strikes.value.value);
    }
  }

  /** A request denied at `now` after any run is told to come back after a time that is not
      before the end of its lock and less than a second past it; and whatever arrives before
      the end of the lock is denied and changes nothing. */
  lemma DeniedUntilUnlocked(cfg: Config, events: seq<Event>, now: int, quiet: seq<Event>)
    requires Positive(cfg) && InTime(events + [Request(now)])
    requires AnswerTo(cfg, events, now).Deny? && During(quiet, now, now + AnswerTo(cfg, events, now).wait)
    ensures var wait := AnswerTo(cfg, events, now).wait;
            && 0 < wait && wait <= 1000 * RetryAfter(wait) < wait + 1000
            && (forall at | now <= at < now + wait ::
                  AnswerTo(cfg, events + [Request(now)] + quiet, at) == Deny(now + wait - at))
            && Exec(cfg, events + [Request(now)] + quiet) == Exec(cfg, events + [Request(now)])
  {
    DenialLocks(cfg, events, now);
    NothingMovesWhileLocked(cfg, events + [Request(now)], quiet, now + AnswerTo(cfg, events, now).wait);
  }

  function Requests(events: seq<Event>): nat {
    if events == [] then 0
    else Requests(events[..|events| - 1]) + if events[|events| - 1].Request? then 1 else 0
  }

  /** No more than `maxAttempts` requests since the end of a lock do not lock again. */
  lemma {:induction false} FewDoNotLock(cfg: Config, events: seq<Event>, gap: seq<Event>, expiry: int)
    requires Exec(cfg, events).lock.Some? && Exec(cfg, events).lock.value.expiry == Some(expiry)
    requires Exec(cfg, events).fails == None && Requests(gap) <= cfg.maxAttempts
    requires forall e | e in gap :: expiry <= e.at
    ensures var s := Exec(cfg, events + gap);
            && s.lock == Exec(cfg, events).lock
            && (s.fails.Some? ==> 0 <= s.fails.value.value <= Requests(gap))
  {
    if gap == [] {
      assert events + gap == events;
    } else {
      FewDoNotLock(cfg, events, gap[..|gap| - 1], expiry);
      assert (events + gap)[..|events + gap| - 1] == events + gap[..|gap| - 1];
    }
  }

  /** The keys after `n` requests within one spacing of the end of a lock. */
  ghost predicate Crowded(cfg: Config, s: Keys, n: nat, expiry: int) {
    if n == 0 then s.fails == None && s.lock.Some? && s.lock.value.expiry == Some(expiry)
    else if n <= cfg.maxAttempts then
      && s.lock.Some? && s.lock.value.expiry == Some(expiry)
      && s.fails.Some? && s.fails.value.value == n
      && s.fails.value.expiry.Some? && s.fails.value.expiry.value >= expiry + Spacing(cfg)
    else
      s.lock.Some? && s.lock.value.expiry.Some? && s.lock.value.expiry.value >= expiry + Spacing(cfg)
  }

  lemma CrowdGrows(cfg: Config, s: Keys, n: nat, expiry: int, at: int)
    requires Crowded(cfg, s, n, expiry) && Sane(cfg, s) && expiry <= at < expiry + Spacing(cfg)
    ensures Crowded(cfg, Attempted(cfg, s, at).0, n + 1, expiry)
    ensures Attempted(cfg, s, at).1 == Admit <==> n < cfg.maxAttempts
  {
    var t := Attempted(cfg, s, at).0;
    if n == cfg.maxAttempts {
      CooldownAtLeastSpacing(cfg, t.strikes.value.value);
    }
  }

  lemma {:induction false} CrowdedAfter(cfg: Config, events: seq<Event>, gap: seq<Event>, expiry: int)
    requires Crowded(cfg, Exec(cfg, events), 0, expiry)
    requires forall e | e in gap :: e.Request? && expiry <= e.at < expiry + Spacing(cfg)
    ensures Crowded(cfg, Exec(cfg, events + gap), |gap|, expiry)
  {
    hide Crowded, Attempted, Spacing, Sane;
    if gap == [] {
      assert events + gap == events;
    } else {
      var before := gap[..|gap| - 1];
      CrowdedAfter(cfg, events, before, expiry);
      assert (events + gap)[..|events + gap| - 1] == events + before;
      SaneAlways(cfg, events + before);
      CrowdGrows(cfg, Exec(cfg, events + before), |before|, expiry, gap[|gap| - 1].at);
    }
  }

  /** A denied client that comes back at the announced time or later is admitted if fewer than
      `maxAttempts` requests have come since its lock ended; and within one spacing of that
      end, with no refunds, only then. */
  lemma {:induction false} RetryAfterIsHonest(cfg: Config, events: seq<Event>, now: int, quiet: seq<Event>,
                                              gap: seq<Event>, retry: int)
    requires Positive(cfg) && InTime(events + [Request(now)])
    requires AnswerTo(cfg, events, now).Deny? && During(quiet, now, now + AnswerTo(cfg, events, now).wait)
    requires var expiry := now + AnswerTo(cfg, events, now).wait;
             retry >= expiry && forall e | e in gap :: expiry <= e.at <= retry
    ensures var answer := AnswerTo(cfg, events + [Request(now)] + quiet + gap, retry);
            var expiry := now + AnswerTo(cfg, events, now).wait;
            && (Requests(gap) < cfg.maxAttempts ==> answer == Admit)
            && (Requests(gap) == |gap| && retry < expiry + Spacing(cfg) ==>
                  (answer == Admit <==> |gap| < cfg.maxAttempts))
  {
    hide Exec, Spacing;
    var unlocked, expiry := events + [Request(now)] + quiet, now + AnswerTo(cfg, events, now).wait;
    DenialLocks(cfg, events, now);
    DeniedUntilUnlocked(cfg, events, now, quiet);
    if Requests(gap) < cfg.maxAttempts {
      FewDoNotLock(cfg, unlocked, gap, expiry);
    }
    if Requests(gap) == |gap| && retry < expiry + Spacing(cfg) {
      AllRequests(gap);
      CrowdedAfter(cfg, unlocked, gap, expiry);
      SaneAlways(cfg, unlocked + gap);
      CrowdGrows(cfg, Exec(cfg, unlocked + gap), |gap|, expiry, retry);
    }
  }

  lemma {:induction false} AllRequests(events: seq<Event>)
    ensures Requests(events) <= |events|
    ensures Requests(events) == |events| ==> forall e | e in events :: e.Request?
  {
    if events != [] {
      AllRequests(events[..|events| - 1]);
    }
  }

  // ---------- Lockout needs failures ----------

  /** One client's requests seen by the middleware. An admitted request is in flight until
      its handler has returned: with a 401, with another status (then it is refunded), or
      without the limiter learning of it (a handler that panicked, a writer that records no
      status, a refund that failed). */
  datatype Action = Arrive(at: int) | Unauthorized(at: int) | Other(at: int) | Unseen(at: int)

  datatype Client = Client(keys: Keys, inFlight: nat, unrefunded: nat)

  const NEW_CLIENT := Client(NO_KEYS, 0, 0)

  function Act(cfg: Config, c: Client, a: Action): Client {
    match a
    case Arrive(at) =>
      var (keys, v) := Attempted(cfg, c.keys, at);
      c.(keys := keys, inFlight := if v == Admit then c.inFlight + 1 else c.inFlight)
    case Other(at) =>
      if c.inFlight == 0 then c else c.(keys := Refunded(c.keys, at), inFlight := c.inFlight - 1)
    case _ =>
      if c.inFlight == 0 then c else c.(inFlight := c.inFlight - 1, unrefunded := c.unrefunded + 1)
  }

  function Serve(cfg: Config, actions: seq<Action>): Client {
    if actions == [] then NEW_CLIENT
    else Act(cfg, Serve(cfg, actions[..|actions| - 1]), actions[|actions| - 1])
  }

  predicate Ordered(actions: seq<Action>) {
    forall i, j | 0 <= i < j < |actions| :: actions[i].at <= actions[j].at
  }

  /** In every reachable state, at any later time, the fails counter is not negative and not
      above the requests in flight plus those that were never refunded, across window
      expiry and late refunds. */
  lemma {:induction false} FailsAreAccountedFor(cfg: Config, actions: seq<Action>, now: int)
    requires Ordered(actions) && (actions != [] ==> actions[|actions| - 1].at <= now)
    ensures var c := Serve(cfg, actions);
            Sane(cfg, c.keys) && 0 <= Get(c.keys.fails, now) <= c.inFlight + c.unrefunded
  {
    if actions != [] {
      var before, a := actions[..|actions| - 1], actions[|actions| - 1];
      FailsAreAccountedFor(cfg, before, a.at);
      FailsAreAccountedFor(cfg, before, now);
    }
  }

  /** Nothing has failed and at most `maxAttempts` requests are ever in flight. */
  predicate Gentle(cfg: Config, actions: seq<Action>) {
    actions == [] ||
    var before, a := actions[..|actions| - 1], actions[|actions| - 1];
    && Gentle(cfg, before)
    && !a.Unauthorized? && !a.Unseen?
    && (a.Arrive? ==> Serve(cfg, before).inFlight < cfg.maxAttempts)
  }

  /** Such a client is never locked out: its next request is admitted. */
  lemma {:induction false} GentleClientsAreNeverLocked(cfg: Config, actions: seq<Action>, now: int)
    requires Ordered(actions + [Arrive(now)]) && Gentle(cfg, actions + [Arrive(now)])
    ensures Serve(cfg, actions).keys.lock == None
    ensures Attempted(cfg, Serve(cfg, actions).keys, now).1 == Admit
  {
    var all := actions + [Arrive(now)];
    assert all[..|actions|] == actions && all[|actions|] == Arrive(now);
    forall i, j | 0 <= i < j < |actions| ensures actions[i].at <= actions[j].at {
      assert all[i].at <= all[j].at;
    }
    if actions != [] {
      assert all[|actions| - 1].at <= all[|actions|].at;
    }
    GentleHasNoLock(cfg, actions);
    FailsAreAccountedFor(cfg, actions, now);
  }

  lemma {:induction false} GentleHasNoLock(cfg: Config, actions: seq<Action>)
    requires Ordered(actions) && Gentle(cfg, actions)
    ensures Serve(cfg, actions).keys.lock == None && Serve(cfg, actions).unrefunded == 0
  {
    if actions != [] {
      var before, a := actions[..|actions| - 1], actions[|actions| - 1];
      GentleHasNoLock(cfg, before);
      FailsAreAccountedFor(cfg, before, a.at);
    }
  }
}
