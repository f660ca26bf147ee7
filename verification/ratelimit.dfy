/** The per-address limiter table of the gateway, which drops idle entries, beside the old
    service's table, which never does. Times are in seconds. */
module RateLimit {
  // ---------- The token bucket's contract ----------

  /** Limits of one table: tokens per second and bucket size. */
  datatype Limits = Limits(speed: nat, spike: nat)

  /** The tokens left at the last permitted request. */
  datatype Bucket = Bucket(tokens: real, last: real)

  function Full(lim: Limits): Bucket {
    Bucket(lim.spike as real, 0.0)
  }

  /** The tokens that come in over a time. */
  function Refill(lim: Limits, seconds: real): (tokens: real)
    ensures seconds >= 0.0 ==> tokens >= 0.0
  {
    seconds * lim.speed as real
  }

  function Min(a: real, b: real): real {
    if a <= b then a else b
  }

  /** The tokens at a time: the bucket fills at `speed` and holds at most `spike`. */
  function Level(lim: Limits, b: Bucket, now: real): real {
    var elapsed := if now < b.last then 0.0 else now - b.last;
    Min(lim.spike as real, b.tokens + Refill(lim, elapsed))
  }

  predicate Allows(lim: Limits, b: Bucket, now: real) {
    Level(lim, b, now) >= 1.0
  }

  function Taken(lim: Limits, b: Bucket, now: real): Bucket {
    if Allows(lim, b, now) then Bucket(Level(lim, b, now) - 1.0, now) else b
  }

  // ---------- The evicting table ----------

  const IDLE := 60.0

  /** A limiter object: the request that had it made, and for which address. */
  datatype LimiterId = LimiterId(ip: string, request: nat)

  datatype Entry = Entry(limiter: LimiterId, lastMsg: real)

  type Table = map<string, Entry>

  predicate IsIdle(e: Entry, now: real) {
    now - e.lastMsg > IDLE
  }

  function Swept(m: Table, now: real): Table {
    map ip | ip in m && !IsIdle(m[ip], now) :: m[ip]
  }

  function Looked(m: Table, ip: string, request: nat, now: real): Table {
    m[ip := Entry(if ip in m then m[ip].limiter else LimiterId(ip, request), now)]
  }

  class LimiterCache {
    var m: Table
    /** The limiter objects made so far. */
    var limiters: map<LimiterId, Bucket>
    const lim: Limits

    constructor (lim: Limits)
      ensures m == map[] && limiters == map[] && this.lim == lim
    {
      this.lim := lim;
      m, limiters := map[], map[];
    }

    method GetLimiter(ip: string, request: nat, now: real) returns (limiter: LimiterId)
      modifies this
      ensures m == Looked(old(m), ip, request, now) && limiter == m[ip].limiter
      ensures limiters == if ip in old(m) then old(limiters) else old(limiters)[limiter := Full(lim)]
    {
      if ip !in m {
        limiters := limiters[LimiterId(ip, request) := Full(lim)];
        m := m[ip := Entry(LimiterId(ip, request), 0.0)];
      }
      m := m[ip := m[ip].(lastMsg := now)];
      return m[ip].limiter;
    }

    /** One tick of the eviction loop, whatever order it visits the entries in. */
    method Sweep(now: real)
      modifies this`m
      ensures m == Swept(old(m), now)
    {
      var todo := m.Keys;
      while todo != {}
        invariant todo <= m.Keys <= old(m).Keys
        invariant forall ip | ip in m :: m[ip] == old(m)[ip] && (ip in todo || !IsIdle(m[ip], now))
        invariant forall ip | ip in old(m) && ip !in m :: IsIdle(old(m)[ip], now)
      {
        var ip :| ip in todo;
        if IsIdle(m[ip], now) {
          m := m - {ip};
        }
        todo := todo - {ip};
      }
    }
  }

  // ---------- Runs of both tables ----------

  /** A request looks its limiter up in one locked region and asks it afterwards, outside
      the lock; a sweep may come in between. */
  datatype Event =
    | Look(request: nat, ip: string, at: real)
    | Ask(request: nat, at: real)
    | Sweep(at: real)

  /** A limiter some request holds, and when it looked it up. */
  datatype Held<L> = Held(limiter: L, since: real)

  /** A table with its limiters, the ones held by requests, and the answers given so far. */
  datatype Evicting = Evicting(m: Table, limiters: map<LimiterId, Bucket>,
                               held: map<nat, Held<LimiterId>>, answers: seq<bool>)

  /** In the table that never evicts, an address has one limiter for good. */
  datatype Keeping = Keeping(m: map<string, Bucket>, held: map<nat, Held<string>>, answers: seq<bool>)

  const NO_ENTRIES := Evicting(map[], map[], map[], [])
  const NO_LIMITERS := Keeping(map[], map[], [])

  function NextEvicting(lim: Limits, c: Evicting, e: Event): Evicting {
    match e
    case Look(request, ip, at) =>
      var m := Looked(c.m, ip, request, at);
      c.(m := m,
         limiters := if ip in c.m then c.limiters else c.limiters[m[ip].limiter := Full(lim)],
         held := c.held[request := Held(m[ip].limiter, at)])
    case Ask(request, at) =>
      if request !in c.held || c.held[request].limiter !in c.limiters then c
      else
        var id := c.held[request].limiter;
        var b := c.limiters[id];
        c.(limiters := c.limiters[id := Taken(lim, b, at)], held := c.held - {request},
           answers := c.answers + [Allows(lim, b, at)])
    case Sweep(at) => c.(m := Swept(c.m, at))
  }

  function NextKeeping(lim: Limits, k: Keeping, e: Event): Keeping {
    match e
    case Look(request, ip, at) =>
      k.(m := if ip in k.m then k.m else k.m[ip := Full(lim)], held := k.held[request := Held(ip, at)])
    case Ask(request, at) =>
      if request !in k.held || k.held[request].limiter !in k.m then k
      else
        var ip := k.held[request].limiter;
        var b := k.m[ip];
        k.(m := k.m[ip := Taken(lim, b, at)], held := k.held - {request},
           answers := k.answers + [Allows(lim, b, at)])
    case Sweep(_) => k
  }

  function RunEvicting(lim: Limits, events: seq<Event>): Evicting {
    if events == [] then NO_ENTRIES
    else NextEvicting(lim, RunEvicting(lim, events[..|events| - 1]), events[|events| - 1])
  }

  function RunKeeping(lim: Limits, events: seq<Event>): Keeping {
    if events == [] then NO_LIMITERS
    else NextKeeping(lim, RunKeeping(lim, events[..|events| - 1]), events[|events| - 1])
  }

  /** Time moves forward and every request asks its limiter within `delay` seconds of
      looking it up. */
  predicate Prompt(lim: Limits, events: seq<Event>, delay: real) {
    events == [] ||
    var before, e := events[..|events| - 1], events[|events| - 1];
    && Prompt(lim, before, delay)
    && e.at >= Clock(before)
    && (e.Ask? ==> var held := RunKeeping(lim, before).held;
                   e.request in held ==> e.at <= held[e.request].since + delay)
  }

  function Clock(events: seq<Event>): real {
    if events == [] then 0.0 else events[|events| - 1].at
  }

  // ---------- The bucket over time ----------

  predicate BucketOk(lim: Limits, b: Bucket, now: real) {
    0.0 <= b.tokens <= lim.spike as real && 0.0 <= b.last <= now
  }

  lemma RefillAdds(lim: Limits, a: real, b: real)
    ensures Refill(lim, a + b) == Refill(lim, a) + Refill(lim, b)
  {
  }

  /** Waiting in two steps is waiting in one. */
  lemma LevelComposes(lim: Limits, b: Bucket, now: real, later: real)
    requires BucketOk(lim, b, now) && now <= later
    ensures Level(lim, b, later) == Min(lim.spike as real, Level(lim, b, now) + Refill(lim, later - now))
  {
    RefillAdds(lim, now - b.last, later - now);
  }

  /** Two buckets nobody can tell apart from now on. */
  predicate Same(lim: Limits, b: Bucket, c: Bucket, now: real) {
    BucketOk(lim, b, now) && BucketOk(lim, c, now) && Level(lim, b, now) == Level(lim, c, now)
  }

  lemma SameLater(lim: Limits, b: Bucket, c: Bucket, now: real, later: real)
    requires Same(lim, b, c, now) && now <= later
    ensures Same(lim, b, c, later)
    ensures Allows(lim, b, later) == Allows(lim, c, later)
    ensures Same(lim, Taken(lim, b, later), Taken(lim, c, later), later)
  {
    LevelComposes(lim, b, now, later);
    LevelComposes(lim, c, now, later);
    assert Refill(lim, later - now) >= 0.0;
  }

  /** A bucket left alone for long enough is as good as new. */
  lemma RefillsWhileIdle(lim: Limits, b: Bucket, now: real, pause: real)
    requires BucketOk(lim, b, now) && now - b.last >= pause >= 0.0
    requires lim.spike as real <= Refill(lim, pause)
    ensures Level(lim, b, now) == lim.spike as real
  {
    RefillAdds(lim, pause, now - b.last - pause);
  }

  // ---------- Eviction is invisible ----------

  /** An entry's limiter, and the limiter the other table keeps, are alike; it was last
      asked at most `delay` after its entry was last looked up. */
  ghost predicate EntryMatches(lim: Limits, delay: real, c: Evicting, k: Keeping, ip: string, now: real)
    requires ip in c.m
  {
    var Entry(id, lastMsg) := c.m[ip];
    && id.ip == ip && id in c.limiters && ip in k.m && 0.0 <= lastMsg <= now
    && Same(lim, c.limiters[id], k.m[ip], now)
    && c.limiters[id].last <= lastMsg + delay
  }

  /** A request holds alike limiters in both tables, or should have asked long ago. */
  ghost predicate HeldMatches(c: Evicting, k: Keeping, r: nat, now: real)
    requires r in c.held && r in k.held
  {
    var Held(id, since) := c.held[r];
    && k.held[r] == Held(id.ip, since) && id in c.limiters && id.ip in k.m
    && ((id.ip in c.m && c.m[id.ip].limiter == id && since <= c.m[id.ip].lastMsg) || now > since + IDLE)
  }

  ghost predicate Matches(lim: Limits, delay: real, c: Evicting, k: Keeping, now: real) {
    && c.answers == k.answers && c.held.Keys == k.held.Keys
    && (forall ip | ip in c.m :: EntryMatches(lim, delay, c, k, ip, now))
    && (forall ip | ip in k.m && ip !in c.m :: Same(lim, Full(lim), k.m[ip], now))
    && (forall r | r in c.held :: HeldMatches(c, k, r, now))
  }

  lemma MatchesLater(lim: Limits, delay: real, c: Evicting, k: Keeping, now: real, later: real)
    requires Matches(lim, delay, c, k, now) && now <= later
    ensures Matches(lim, delay, c, k, later)
  {
    forall ip | ip in c.m ensures EntryMatches(lim, delay, c, k, ip, later) {
      assert EntryMatches(lim, delay, c, k, ip, now);
      SameLater(lim, c.limiters[c.m[ip].limiter], k.m[ip], now, later);
    }
    forall ip | ip in k.m && ip !in c.m ensures Same(lim, Full(lim), k.m[ip], later) {
      SameLater(lim, Full(lim), k.m[ip], now, later);
    }
    forall r | r in c.held ensures HeldMatches(c, k, r, later) {
      assert HeldMatches(c, k, r, now);
    }
  }

  lemma LookMatches(lim: Limits, delay: real, c: Evicting, k: Keeping, e: Event)
    requires e.Look? && e.at >= 0.0 && delay >= 0.0 && Matches(lim, delay, c, k, e.at)
    ensures Matches(lim, delay, NextEvicting(lim, c, e), NextKeeping(lim, k, e), e.at)
  {
    var c', k' := NextEvicting(lim, c, e), NextKeeping(lim, k, e);
    forall ip | ip in c'.m ensures EntryMatches(lim, delay, c', k', ip, e.at) {
      if ip in c.m {
        assert EntryMatches(lim, delay, c, k, ip, e.at);
      }
    }
    forall r | r in c'.held ensures HeldMatches(c', k', r, e.at) {
      if r != e.request {
        assert HeldMatches(c, k, r, e.at);
      }
    }
  }

  lemma AskMatches(lim: Limits, delay: real, c: Evicting, k: Keeping, e: Event)
    requires e.Ask? && 0.0 <= delay <= IDLE && Matches(lim, delay, c, k, e.at)
    requires e.request in k.held ==> e.at <= k.held[e.request].since + delay
    ensures Matches(lim, delay, NextEvicting(lim, c, e), NextKeeping(lim, k, e), e.at)
  {
    if e.request in c.held {
      assert HeldMatches(c, k, e.request, e.at);
      var id := c.held[e.request].limiter;
      assert EntryMatches(lim, delay, c, k, id.ip, e.at);
      SameLater(lim, c.limiters[id], k.m[id.ip], e.at, e.at);
      var c', k' := NextEvicting(lim, c, e), NextKeeping(lim, k, e);
      forall ip | ip in c'.m ensures EntryMatches(lim, delay, c', k', ip, e.at) {
        assert EntryMatches(lim, delay, c, k, ip, e.at);
      }
      forall r | r in c'.held ensures HeldMatches(c', k', r, e.at) {
        assert HeldMatches(c, k, r, e.at);
      }
    }
  }

  lemma SweepMatches(lim: Limits, delay: real, c: Evicting, k: Keeping, now: real)
    requires 0.0 <= delay <= IDLE && lim.spike as real <= Refill(lim, IDLE - delay)
    requires Matches(lim, delay, c, k, now)
    ensures Matches(lim, delay, c.(m := Swept(c.m, now)), k, now)
  {
    var c' := c.(m := Swept(c.m, now));
    forall ip | ip in c'.m ensures EntryMatches(lim, delay, c', k, ip, now) {
      assert EntryMatches(lim, delay, c, k, ip, now);
    }
    forall ip | ip in k.m && ip !in c'.m ensures Same(lim, Full(lim), k.m[ip], now) {
      if ip in c.m {
        assert EntryMatches(lim, delay, c, k, ip, now);
        RefillsWhileIdle(lim, c.limiters[c.m[ip].limiter], now, IDLE - delay);
        assert Refill(lim, now) >= 0.0;
      }
    }
    forall r | r in c'.held ensures HeldMatches(c', k, r, now) {
      assert HeldMatches(c, k, r, now);
    }
  }

  lemma {:induction false} AlwaysMatches(lim: Limits, events: seq<Event>, delay: real)
    requires 0.0 <= delay <= IDLE && lim.spike as real <= Refill(lim, IDLE - delay)
    requires Prompt(lim, events, delay)
    ensures Clock(events) >= 0.0
    ensures Matches(lim, delay, RunEvicting(lim, events), RunKeeping(lim, events), Clock(events))
  {
    if events != [] {
      var before, e := events[..|events| - 1], events[|events| - 1];
      var c, k := RunEvicting(lim, before), RunKeeping(lim, before);
      AlwaysMatches(lim, before, delay);
      MatchesLater(lim, delay, c, k, Clock(before), e.at);
      match e
      case Look(_, _, _) => LookMatches(lim, delay, c, k, e);
      case Ask(_, _) => AskMatches(lim, delay, c, k, e);
      case Sweep(at) => SweepMatches(lim, delay, c, k, at);
    }
  }
}
