/** The attempt limiter: two scripts that run atomically over three expiring keys of one
    client. Times are integer milliseconds. */
module Attempts {
  import opened Wrappers

  datatype Config = Config(maxAttempts: nat, failWindow: nat, baseCooldown: nat, maxCooldown: nat, strikeTtl: nat)

  predicate Positive(cfg: Config) {
    cfg.failWindow > 0 && cfg.baseCooldown > 0 && cfg.maxCooldown > 0 && cfg.strikeTtl > 0
  }

  // ---------- Expiring keys ----------

  /** A stored counter; `expiry` is None until PEXPIRE has been called. A key is there up to
      and including its expiry millisecond. */
  datatype Entry = Entry(value: int, expiry: Option<int>)

  type Key = Option<Entry>

  predicate Live(k: Key, now: int) {
    k.Some? && (k.value.expiry.None? || now <= k.value.expiry.value)
  }

  function Pttl(k: Key, now: int): int {
    if !Live(k, now) then -2 else if k.value.expiry.None? then -1 else k.value.expiry.value - now
  }

  function Incr(k: Key, now: int): Entry {
    if Live(k, now) then k.value.(value := k.value.value + 1) else Entry(1, None)
  }

  function Get(k: Key, now: int): int {
    if Live(k, now) then k.value.value else 0
  }

  datatype Keys = Keys(lock: Key, fails: Key, strikes: Key)

  const NO_KEYS := Keys(None, None, None)

  // ---------- The scripts ----------

  datatype Verdict = Admit | Deny(wait: int)

  function Pow2(n: nat): nat {
    if n == 0 then 1 else 2 * Pow2(n - 1)
  }

  /** The cooldown of the k-th strike of a chain. */
  function Cooldown(cfg: Config, k: nat): nat
    requires k >= 1
  {
    var c := cfg.baseCooldown * Pow2(k - 1);
    if c > cfg.maxCooldown then cfg.maxCooldown else c
  }

  /** The value and expiry a counter has after INCR and, when it is due, PEXPIRE. */
  function Counted(k: Key, now: int, ttl: nat, renew: bool): Entry {
    var e := Incr(k, now);
    if renew || e.value == 1 || Pttl(Some(e), now) < 0 then e.(expiry := Some(now + ttl)) else e
  }

  function Attempted(cfg: Config, s: Keys, now: int): (r: (Keys, Verdict)) {
    var lockTtl := Pttl(s.lock, now);
    if lockTtl > 0 then (s, Deny(lockTtl))
    else
      var fails := Counted(s.fails, now, cfg.failWindow, false);
      if fails.value <= cfg.maxAttempts then (s.(fails := Some(fails)), Admit)
      else
        var strikes := Counted(s.strikes, now, cfg.strikeTtl, true);
        var cooldown := if strikes.value >= 1 then Cooldown(cfg, strikes.value) else 0;
        (Keys(Some(Entry(1, Some(now + cooldown))), None, Some(strikes)), Deny(cooldown))
  }

  function Refunded(s: Keys, now: int): Keys {
    if Get(s.fails, now) > 0 then s.(fails := Some(s.fails.value.(value := s.fails.value.value - 1))) else s
  }

  /** The client's keys in the store, changed in place by the scripts. */
  class Store {
    var lock: Key
    var fails: Key
    var strikes: Key

    function View(): Keys
      reads this
    {
      Keys(lock, fails, strikes)
    }

    constructor ()
      ensures View() == NO_KEYS
    {
      lock, fails, strikes := None, None, None;
    }

    method Attempt(cfg: Config, now: int) returns (verdict: Verdict)
      requires Get(strikes, now) >= 0
      modifies this
      ensures (View(), verdict) == Attempted(cfg, old(View()), now)
    {
      var lockTtl := Pttl(lock, now);
      if lockTtl > 0 {
        return Deny(lockTtl);
      }
      fails := Some(Incr(fails, now));
      if fails.value.value == 1 || Pttl(fails, now) < 0 {
        fails := Some(fails.value.(expiry := Some(now + cfg.failWindow)));
      }
      if fails.value.value <= cfg.maxAttempts {
        return Admit;
      }
      strikes := Some(Incr(strikes, now));
      strikes := Some(strikes.value.(expiry := Some(now + cfg.strikeTtl)));
      var cooldown := cfg.baseCooldown * Pow2(strikes.value.value - 1);
      if cooldown > cfg.maxCooldown {
        cooldown := cfg.maxCooldown;
      }
      lock := Some(Entry(1, Some(now + cooldown)));
      fails := None;
      return Deny(cooldown);
    }

    method Refund(now: int)
      modifies this
      ensures View() == Refunded(old(View()), now)
    {
      var v := Get(fails, now);
      if v > 0 {
        fails := Some(fails.value.(value := v - 1));
      }
    }
  }

  // ---------- Runs ----------

  datatype Event = Request(at: int) | Refund(at: int)

  function Apply(cfg: Config, s: Keys, e: Event): Keys {
    match e
    case Request(at) => Attempted(cfg, s, at).0
    case Refund(at) => Refunded(s, at)
  }

  function Exec(cfg: Config, events: seq<Event>): Keys {
    if events == [] then NO_KEYS
    else Apply(cfg, Exec(cfg, events[..|events| - 1]), events[|events| - 1])
  }

  predicate InTime(events: seq<Event>) {
    forall i, j | 0 <= i < j < |events| :: events[i].at <= events[j].at
  }

  /** The answer to a request that arrives after the given events. */
  function AnswerTo(cfg: Config, events: seq<Event>, at: int): Verdict {
    Attempted(cfg, Exec(cfg, events), at).1
  }

  // ---------- The long-run bound ----------

  /** Requests admitted between two times, inclusive. */
  function Admissions(cfg: Config, events: seq<Event>, from: int, to: int): nat {
    if events == [] then 0
    else
      var before, e := events[..|events| - 1], events[|events| - 1];
      Admissions(cfg, before, from, to)
      + if e.Request? && from <= e.at <= to && AnswerTo(cfg, before, e.at) == Admit then 1 else 0
  }

  function Min(a: nat, b: nat): nat {
    if a < b then a else b
  }

  /** Two windows of the fails counter start at least this far apart. */
  function Spacing(cfg: Config): nat {
    Min(cfg.failWindow, Min(cfg.baseCooldown, cfg.maxCooldown))
  }

  lemma {:induction false} Pow2Positive(n: nat)
    ensures Pow2(n) >= 1
  {
    if n > 0 {
      Pow2Positive(n - 1);
    }
  }

  lemma CooldownAtLeastSpacing(cfg: Config, k: nat)
    requires k >= 1
    ensures Cooldown(cfg, k) >= Min(cfg.baseCooldown, cfg.maxCooldown)
  {
    Pow2Positive(k - 1);
    assert cfg.baseCooldown * Pow2(k - 1) >= cfg.baseCooldown;
  }

  /** Before this time no new window can start. */
  predicate NextWindowFrom(s: Keys, t: int) {
    if s.fails.Some? then s.fails.value.expiry.Some? && s.fails.value.expiry.value >= t
    else s.lock.Some? && s.lock.value.expiry.Some? && s.lock.value.expiry.value >= t
  }

  predicate Sane(cfg: Config, s: Keys) {
    && (s.fails.Some? ==> s.fails.value.expiry.Some? && 0 <= s.fails.value.value <= cfg.maxAttempts)
    && (s.lock.Some? ==> s.lock.value.expiry.Some?)
    && (s.strikes.Some? ==> s.strikes.value.value >= 1 && s.strikes.value.expiry.Some?)
  }

  lemma {:induction false} SaneAlways(cfg: Config, events: seq<Event>)
    ensures Sane(cfg, Exec(cfg, events))
  {
    if events != [] {
      SaneAlways(cfg, events[..|events| - 1]);
    }
  }

  /** Attempts of the current window that are not used up yet. */
  function Unused(cfg: Config, s: Keys): int {
    if s.fails.Some? then cfg.maxAttempts - s.fails.value.value else 0
  }

  /** `budget` admissions are allowed for so far, `count` were made, and no window starts
      before `next`, which is one spacing after the last start. */
  predicate Tally(cfg: Config, s: Keys, now: int, started: bool, budget: int, next: int, count: nat) {
    && count + Unused(cfg, s) <= budget
    && (started ==> next - Spacing(cfg) <= now && NextWindowFrom(s, next))
  }

  /** A request either falls in the current window or starts one more. */
  lemma TallyKept(cfg: Config, s: Keys, now: int, at: int, started: bool, budget: int, next: int, count: nat)
    returns (opens: bool)
    requires Positive(cfg) && Sane(cfg, s) && Tally(cfg, s, now, started, budget, next, count)
    requires now <= at && (!started ==> next <= at)
    ensures var (t, v) := Attempted(cfg, s, at);
            var count' := count + if v == Admit then 1 else 0;
            if opens then Tally(cfg, t, at, true, budget + cfg.maxAttempts, next + Spacing(cfg), count')
            else Tally(cfg, t, at, started, budget, next, count')
  {
    var t := Attempted(cfg, s, at).0;
    opens := Pttl(s.lock, at) <= 0 && !Live(s.fails, at);
    if Pttl(s.lock, at) <= 0 && t.fails.None? {
      CooldownAtLeastSpacing(cfg, t.strikes.value.value);
    }
  }

  lemma OneMore(n: nat, x: int)
    ensures (n + 1) * x == n * x + x && x * (n + 1) == x * n + x
  {
  }

  /** The tally of a run of requests: `windows` windows have started since `from`. */
  lemma {:induction false} RunTally(cfg: Config, events: seq<Event>, from: int, to: int) returns (windows: nat)
    requires Positive(cfg) && InTime(events) && (forall e | e in events :: e.Request? && e.at <= to) && from <= to
    ensures var now := if events == [] then from else events[|events| - 1].at;
            var next := from + windows * Spacing(cfg);
            && Tally(cfg, Exec(cfg, events), now, windows >= 1, cfg.maxAttempts * (windows + 1), next,
                     Admissions(cfg, events, from, to))
            && (windows >= 1 ==> events != [] && from <= now)
            && (events == [] || now < from ==> Admissions(cfg, events, from, to) == 0)
  {
    hide Attempted, Spacing, Positive;
    if events == [] {
      windows := 0;
    } else {
      var before, e := events[..|events| - 1], events[|events| - 1];
      windows := RunTally(cfg, before, from, to);
      SaneAlways(cfg, before);
      if e.at >= from {
        var opens := TallyKept(cfg, Exec(cfg, before), if before == [] then from else before[|before| - 1].at,
                               e.at, windows >= 1, cfg.maxAttempts * (windows + 1),
                               from + windows * Spacing(cfg), Admissions(cfg, before, from, to));
        if opens {
          OneMore(windows + 1, cfg.maxAttempts);
          OneMore(windows, Spacing(cfg));
          windows := windows + 1;
        }
      } else {
        SaneAlways(cfg, events);
      }
    }
  }

  lemma MulMono(a: int, b: int, c: nat)
    requires a <= b
    ensures a * c <= b * c && c * a <= c * b
  {
  }

  lemma AtMost(windows: int, d: nat, span: nat)
    requires d > 0 && windows * d <= span
    ensures windows <= span / d
  {
    if windows > span / d {
      MulMono(span / d + 1, windows, d);
    }
  }

  lemma CountWithinBound(max: nat, d: nat, from: int, now: int, windows: nat, span: nat, count: nat)
    requires d > 0 && count <= max * (windows + 1)
    requires windows >= 1 ==> from + windows * d - d <= now <= from + span
    ensures count <= max * (span / d + 2)
  {
    if windows >= 1 {
      OneMore(windows - 1, d);
      AtMost(windows - 1, d, span);
    }
    MulMono(windows + 1, span / d + 2, max);
  }

  /** Without refunds an interval of `span` milliseconds admits at most
      maxAttempts * (span / d + 2) requests of one client, where d is the least of the fail
      window and the two cooldowns, whatever the arrival pattern. */
  lemma AttemptBound(cfg: Config, events: seq<Event>, from: int, span: nat)
    requires Positive(cfg) && InTime(events) && forall e | e in events :: e.Request?
    ensures Admissions(cfg, events, from, from + span) <= cfg.maxAttempts * (span / Spacing(cfg) + 2)
  {
    if events == [] || events[|events| - 1].at <= from + span {
      var windows := RunTally(cfg, events, from, from + span);
      var now := if events == [] then from else events[|events| - 1].at;
      SaneAlways(cfg, events);
      CountWithinBound(cfg.maxAttempts, Spacing(cfg), from, now, windows, span,
                       Admissions(cfg, events, from, from + span));
    } else {
      AttemptBound(cfg, events[..|events| - 1], from, span);
    }
  }
}
