/** What the fail window and the refunds mean, in numbers of requests: who is admitted, who is
    denied, and how cooldowns grow. */
module AttemptWindow {
  import opened Wrappers
  import opened Attempts
  import opened AttemptFairness

  // ---------- The window ends ----------

  /** The requests of a run at this time or later, denied ones included. */
  function RequestsFrom(events: seq<Event>, from: int): nat {
    if events == [] then 0
    else
      var e := events[|events| - 1];
      RequestsFrom(events[..|events| - 1], from) + if e.Request? && e.at >= from then 1 else 0
  }

  lemma {:induction false} FewerFromLater(events: seq<Event>, from: int, later: int)
    requires from <= later
    ensures RequestsFrom(events, later) <= RequestsFrom(events, from)
  {
    if events != [] {
      FewerFromLater(events[..|events| - 1], from, later);
    }
  }

  /** The counter counts requests of its own window only. */
  lemma {:induction false} FailsAreOfTheWindow(cfg: Config, events: seq<Event>)
    requires InTime(events)
    ensures var fails := Exec(cfg, events).fails;
            fails.Some? ==>
              && fails.value.expiry.Some?
              && fails.value.value <= RequestsFrom(events, fails.value.expiry.value - cfg.failWindow)
              && events != [] && fails.value.expiry.value - cfg.failWindow <= events[|events| - 1].at
  {
    if events != [] {
      var before, e := events[..|events| - 1], events[|events| - 1];
      FailsAreOfTheWindow(cfg, before);
      if before != [] {
        assert before[|before| - 1] == events[|before| - 1];
      }
    }
  }

  /** After any run: a client with no lock running and fewer than `maxAttempts` requests in the
      last `failWindow`, of whatever outcome, is admitted. */
  lemma OldRequestsDoNotCount(cfg: Config, events: seq<Event>, at: int)
    requires InTime(events) && (events != [] ==> events[|events| - 1].at <= at)
    requires var lock := Exec(cfg, events).lock;
             lock.Some? ==> lock.value.expiry.Some? && lock.value.expiry.value <= at
    requires RequestsFrom(events, at - cfg.failWindow) < cfg.maxAttempts
    ensures AnswerTo(cfg, events, at) == Admit
  {
    FailsAreOfTheWindow(cfg, events);
    var fails := Exec(cfg, events).fails;
    if Live(fails, at) {
      FewerFromLater(events, at - cfg.failWindow, fails.value.expiry.value - cfg.failWindow);
    }
  }

  // ---------- A refund gives one attempt back ----------

  ghost predicate Within(actions: seq<Action>, from: int, to: int) {
    forall a | a in actions :: from <= a.at <= to
  }

  /** While the first window lasts and nothing has locked, the counter is exactly what is in
      flight or was not refunded. */
  lemma {:induction false} WindowCountsExactly(cfg: Config, actions: seq<Action>, from: int)
    requires Within(actions, from, from + cfg.failWindow) && Serve(cfg, actions).keys.lock == None
    ensures var c := Serve(cfg, actions);
            if c.keys.fails == None then c.inFlight == 0 && c.unrefunded == 0
            else
              && c.keys.fails.value.value == c.inFlight + c.unrefunded
              && c.keys.fails.value.expiry.Some?
              && c.keys.fails.value.expiry.value >= from + cfg.failWindow
  {
    if actions != [] {
      var before, a := actions[..|actions| - 1], actions[|actions| - 1];
      assert a in actions;
      LockStays(cfg, Serve(cfg, before), a);
      WindowCountsExactly(cfg, before, from);
    }
  }

  lemma LockStays(cfg: Config, c: Client, a: Action)
    ensures c.keys.lock.Some? ==> Act(cfg, c, a).keys.lock.Some?
  {
  }

  /** In that time the next request is admitted exactly if fewer than `maxAttempts` requests are
      in flight or were answered without a refund, however many refunds came in between; so
      that many failures deny it. */
  lemma AdmittedIffUnderLimit(cfg: Config, actions: seq<Action>, from: int, now: int)
    requires Within(actions, from, from + cfg.failWindow) && Serve(cfg, actions).keys.lock == None
    requires from <= now <= from + cfg.failWindow
    ensures var c := Serve(cfg, actions);
            (Attempted(cfg, c.keys, now).1 == Admit <==> c.inFlight + c.unrefunded < cfg.maxAttempts)
            && (c.unrefunded >= cfg.maxAttempts ==> Attempted(cfg, c.keys, now).1.Deny?)
  {
    WindowCountsExactly(cfg, actions, from);
  }

  // ---------- Numbers ----------

  /** The first cooldown is the base, each further one of a chain twice the one before, and none
      exceeds the maximum. */
  lemma CooldownsDouble(cfg: Config, k: nat)
    requires k >= 1
    ensures Cooldown(cfg, 1) == if cfg.baseCooldown > cfg.maxCooldown then cfg.maxCooldown else cfg.baseCooldown
    ensures Cooldown(cfg, k + 1) ==
            if 2 * Cooldown(cfg, k) > cfg.maxCooldown then cfg.maxCooldown else 2 * Cooldown(cfg, k)
  {
    assert Pow2(0) == 1;
    assert Pow2(k) == 2 * Pow2(k - 1);
    assert cfg.baseCooldown * (2 * Pow2(k - 1)) == 2 * (cfg.baseCooldown * Pow2(k - 1));
  }

  /** The long-run bound for any spacing that is no more than the window, the base cooldown and
      the maximal cooldown. */
  lemma LongRunBound(cfg: Config, events: seq<Event>, from: int, span: nat, d: nat)
    requires 0 < d <= cfg.failWindow && d <= cfg.baseCooldown && d <= cfg.maxCooldown && cfg.strikeTtl > 0
    requires InTime(events) && forall e | e in events :: e.Request?
    ensures Admissions(cfg, events, from, from + span) <= cfg.maxAttempts * (span / d + 2)
  {
    AttemptBound(cfg, events, from, span);
    FewerLarger(span, d, Spacing(cfg));
    MulMono(span / Spacing(cfg) + 2, span / d + 2, cfg.maxAttempts);
  }

  lemma FewerLarger(span: nat, d: nat, larger: nat)
    requires 0 < d <= larger
    ensures span / larger <= span / d
  {
    var n := span / larger;
    MulMono(d, larger, n);
    assert n * larger <= span;
    AtMost(n, d, span);
  }
}
