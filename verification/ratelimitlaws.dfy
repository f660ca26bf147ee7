/** What the limits mean in requests: how many an address is allowed at once, in any interval,
    and how soon again. */
module RateLimitLaws {
  import opened RateLimit
  import opened RateLimitTight

  // ---------- One bucket ----------

  lemma {:induction false} BurstLeaves(lim: Limits, n: nat, at: real)
    requires at >= 0.0
    ensures var b := After(lim, Full(lim), n, at);
            BucketOk(lim, b, at)
            && Level(lim, b, at) == (if n <= lim.spike then lim.spike - n else 0) as real
            && (n >= 1 && lim.spike >= 1 ==> b.last == at)
  {
    assert Refill(lim, at) >= 0.0;
    assert Refill(lim, 0.0) == 0.0;
    if n > 0 {
      BurstLeaves(lim, n - 1, at);
    }
  }

  /** Of any number of requests at once, a new limiter allows the first `spike` and no more. */
  lemma {:induction false} NewLimiterAllowsSpike(lim: Limits, n: nat, at: real, i: nat)
    requires at >= 0.0 && i < n
    ensures |Answers(lim, Full(lim), n, at)| == n
    ensures Answers(lim, Full(lim), n, at)[i] <==> i < lim.spike
  {
    AnswersLength(lim, n - 1, at);
    if i < n - 1 {
      NewLimiterAllowsSpike(lim, n - 1, at, i);
    } else {
      BurstLeaves(lim, n - 1, at);
    }
  }

  lemma {:induction false} AnswersLength(lim: Limits, n: nat, at: real)
    ensures |Answers(lim, Full(lim), n, at)| == n
  {
    if n > 0 {
      AnswersLength(lim, n - 1, at);
    }
  }

  /** A limiter that such a burst has emptied allows again exactly when one request's worth has
      come in since. */
  lemma EmptiedAllowsAgain(lim: Limits, emptied: real, at: real)
    requires 0.0 <= emptied <= at && lim.spike >= 1
    ensures Allows(lim, After(lim, Full(lim), lim.spike, emptied), at)
       <==> (at - emptied) * lim.speed as real >= 1.0
  {
    var b := After(lim, Full(lim), lim.spike, emptied);
    BurstLeaves(lim, lim.spike, emptied);
    LevelComposes(lim, b, emptied, at);
  }

  // ---------- An address over a run ----------

  /** Time moves forward. */
  predicate Timed(events: seq<Event>) {
    events != [] ==> Timed(events[..|events| - 1]) && events[|events| - 1].at >= Clock(events[..|events| - 1])
  }

  /** The event is a request of this address that is allowed. */
  predicate IsAllowed(lim: Limits, k: Keeping, e: Event, ip: string) {
    && e.Ask? && e.request in k.held && k.held[e.request].limiter == ip
    && ip in k.m && Allows(lim, k.m[ip], e.at)
  }

  /** The requests of an address that are allowed between two times, inclusive. */
  function Allowed(lim: Limits, events: seq<Event>, ip: string, from: real, to: real): nat {
    if events == [] then 0
    else
      var before, e := events[..|events| - 1], events[|events| - 1];
      Allowed(lim, before, ip, from, to)
      + if from <= e.at <= to && IsAllowed(lim, RunKeeping(lim, before), e, ip) then 1 else 0
  }

  function BucketOf(lim: Limits, k: Keeping, ip: string): Bucket {
    if ip in k.m then k.m[ip] else Full(lim)
  }

  lemma BucketStep(lim: Limits, k: Keeping, e: Event, ip: string)
    ensures BucketOf(lim, NextKeeping(lim, k, e), ip) ==
            if IsAllowed(lim, k, e, ip) then Taken(lim, k.m[ip], e.at) else BucketOf(lim, k, ip)
  {
  }

  lemma TakenOk(lim: Limits, b: Bucket, now: real, later: real)
    requires BucketOk(lim, b, now) && 0.0 <= now <= later
    ensures BucketOk(lim, b, later) && BucketOk(lim, Taken(lim, b, later), later)
  {
    assert Refill(lim, later - b.last) >= 0.0;
  }

  lemma {:induction false} BucketAlwaysOk(lim: Limits, events: seq<Event>, ip: string)
    requires Timed(events)
    ensures Clock(events) >= 0.0 && BucketOk(lim, BucketOf(lim, RunKeeping(lim, events), ip), Clock(events))
  {
    if events != [] {
      var before, e := events[..|events| - 1], events[|events| - 1];
      var k := RunKeeping(lim, before);
      BucketAlwaysOk(lim, before, ip);
      hide NextKeeping, IsAllowed, BucketOk, Taken, RunKeeping;
      BucketStep(lim, k, e, ip);
      TakenOk(lim, BucketOf(lim, k, ip), Clock(before), e.at);
      AllowedHasBucket(lim, k, e, ip);
      RunsOn(lim, events);
    }
  }

  lemma AllowedHasBucket(lim: Limits, k: Keeping, e: Event, ip: string)
    ensures IsAllowed(lim, k, e, ip) ==> ip in k.m && Allows(lim, k.m[ip], e.at)
  {
  }

  lemma RunsOn(lim: Limits, events: seq<Event>)
    requires events != []
    ensures RunKeeping(lim, events) == NextKeeping(lim, RunKeeping(lim, events[..|events| - 1]), events[|events| - 1])
  {
  }

  /** The tokens an address may still spend, with those it has spent since `from`. */
  ghost predicate Within(lim: Limits, b: Bucket, count: nat, from: real, now: real) {
    count as real + Level(lim, b, now) <= lim.spike as real + lim.speed as real * (now - from)
  }

  lemma WithinStarts(lim: Limits, b: Bucket, from: real)
    ensures Within(lim, b, 0, from, from)
  {
    assert lim.speed as real * (from - from) == 0.0;
  }

  lemma WithinLater(lim: Limits, b: Bucket, count: nat, from: real, now: real, later: real)
    requires BucketOk(lim, b, now) && now <= later && Within(lim, b, count, from, now)
    ensures Within(lim, b, count, from, later)
    ensures Allows(lim, b, later) ==> Within(lim, Taken(lim, b, later), count + 1, from, later)
  {
    LevelComposes(lim, b, now, later);
    assert Refill(lim, later - now) == lim.speed as real * (later - now);
    assert Refill(lim, 0.0) == 0.0;
    assert lim.speed as real * (later - from)
           == lim.speed as real * (now - from) + lim.speed as real * (later - now);
  }

  lemma WithinBounds(lim: Limits, b: Bucket, count: nat, from: real, now: real, to: real)
    requires BucketOk(lim, b, now) && now <= to && Within(lim, b, count, from, now)
    ensures count as real <= lim.spike as real + lim.speed as real * (to - from)
  {
    assert Refill(lim, now - b.last) >= 0.0;
    assert Level(lim, b, now) >= 0.0;
    assert lim.speed as real * (to - now) >= 0.0;
    assert lim.speed as real * (to - from) == lim.speed as real * (now - from) + lim.speed as real * (to - now);
  }

  /** One event of the interval. */
  lemma WithinNext(lim: Limits, before: seq<Event>, e: Event, ip: string, count: nat, from: real)
    requires Timed(before) && e.at >= Clock(before) && from <= e.at
    requires var b := BucketOf(lim, RunKeeping(lim, before), ip);
             if Clock(before) < from then count == 0 else Within(lim, b, count, from, Clock(before))
    ensures var k := RunKeeping(lim, before);
            Within(lim, BucketOf(lim, NextKeeping(lim, k, e), ip),
                   count + if IsAllowed(lim, k, e, ip) then 1 else 0, from, e.at)
  {
    hide NextKeeping, IsAllowed, Within, Taken, Allows;
    var k := RunKeeping(lim, before);
    var b := BucketOf(lim, k, ip);
    BucketAlwaysOk(lim, before, ip);
    BucketStep(lim, k, e, ip);
    AllowedHasBucket(lim, k, e, ip);
    if Clock(before) < from {
      WithinStarts(lim, b, from);
      WithinLater(lim, b, count, from, from, e.at);
    } else {
      WithinLater(lim, b, count, from, Clock(before), e.at);
    }
  }

  /** In any interval of any run, an address is allowed at most `spike` requests and `speed`
      more for each of its seconds. */
  lemma {:induction false} RateIsKept(lim: Limits, events: seq<Event>, ip: string, from: real, to: real)
    requires Timed(events) && from <= to
    ensures Allowed(lim, events, ip, from, to) as real <= lim.spike as real + lim.speed as real * (to - from)
    ensures Clock(events) < from ==> Allowed(lim, events, ip, from, to) == 0
    ensures from <= Clock(events) <= to ==>
              Within(lim, BucketOf(lim, RunKeeping(lim, events), ip), Allowed(lim, events, ip, from, to),
                     from, Clock(events))
  {
    hide NextKeeping, IsAllowed, Within, RunKeeping, BucketOk;
    if events == [] {
      NothingSpent(lim, events, ip, from, to);
    } else {
      var before, e := events[..|events| - 1], events[|events| - 1];
      RateIsKept(lim, before, ip, from, to);
      RunsOn(lim, events);
      if from <= e.at <= to {
        WithinNext(lim, before, e, ip, Allowed(lim, before, ip, from, to), from);
        BucketAlwaysOk(lim, events, ip);
        WithinBounds(lim, BucketOf(lim, RunKeeping(lim, events), ip), Allowed(lim, events, ip, from, to),
                     from, e.at, to);
      }
    }
  }

  lemma NothingSpent(lim: Limits, events: seq<Event>, ip: string, from: real, to: real)
    requires events == [] && from <= to
    ensures Allowed(lim, events, ip, from, to) == 0
    ensures 0.0 <= lim.spike as real + lim.speed as real * (to - from)
    ensures from <= 0.0 ==> Within(lim, BucketOf(lim, RunKeeping(lim, events), ip), 0, from, Clock(events))
  {
    NeverNegative(lim, to - from);
    if from <= 0.0 {
      NeverNegative(lim, 0.0 - from);
    }
  }

  lemma NeverNegative(lim: Limits, seconds: real)
    requires seconds >= 0.0
    ensures lim.speed as real * seconds >= 0.0
  {
  }
}
