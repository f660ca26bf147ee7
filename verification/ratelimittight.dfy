/** The eviction is invisible for exactly the limits that refill a bucket while an entry
    idles: for any other limits there is a run that tells the two tables apart. */
module RateLimitTight {
  import opened RateLimit

  /** For every run the two tables give the same answers if the limits refill the bucket in
      the idle time less the delay between looking a limiter up and asking it. */
  lemma EvictionIsInvisible(lim: Limits, events: seq<Event>, delay: real)
    requires 0.0 <= delay <= 60.0 && lim.spike as real <= (60.0 - delay) * lim.speed as real
    requires Prompt(lim, events, delay)
    ensures RunEvicting(lim, events).answers == RunKeeping(lim, events).answers
  {
    AlwaysMatches(lim, events, delay);
  }

  // ---------- Bursts of requests from one address ----------

  /** `n` requests, numbered from `first`, look up the same address at once. */
  function Looks(before: seq<Event>, ip: string, n: nat, first: nat, at: real): seq<Event> {
    if n == 0 then before else Looks(before, ip, n - 1, first, at) + [Look(first + n - 1, ip, at)]
  }

  /** The same requests ask their limiter. */
  function Asks(before: seq<Event>, n: nat, first: nat, at: real): seq<Event> {
    if n == 0 then before else Asks(before, n - 1, first, at) + [Ask(first + n - 1, at)]
  }

  function After(lim: Limits, b: Bucket, n: nat, at: real): Bucket {
    if n == 0 then b else Taken(lim, After(lim, b, n - 1, at), at)
  }

  /** The answers one bucket gives to `n` requests at once. */
  function Answers(lim: Limits, b: Bucket, n: nat, at: real): seq<bool> {
    if n == 0 then [] else Answers(lim, b, n - 1, at) + [Allows(lim, After(lim, b, n - 1, at), at)]
  }

  /** A bucket permits a burst exactly when it holds that many tokens. */
  lemma {:induction false} BurstAnswers(lim: Limits, b: Bucket, n: nat, at: real)
    requires BucketOk(lim, b, at)
    ensures |Answers(lim, b, n, at)| == n
    ensures (forall i | 0 <= i < n :: Answers(lim, b, n, at)[i]) <==> (n == 0 || Level(lim, b, at) >= n as real)
    ensures n >= 1 && Level(lim, b, at) >= n as real ==>
              After(lim, b, n, at) == Bucket(Level(lim, b, at) - n as real, at)
    ensures BucketOk(lim, After(lim, b, n, at), at)
  {
    if n > 0 {
      BurstAnswers(lim, b, n - 1, at);
      var all, fewer := Answers(lim, b, n, at), Answers(lim, b, n - 1, at);
      assert Refill(lim, 0.0) == 0.0;
      if forall i | 0 <= i < n :: all[i] {
        assert all[n - 1];
        assert forall i | 0 <= i < n - 1 :: fewer[i] == all[i];
      }
    }
  }

  /** Requests `first` .. `first + n - 1` hold the limiters of the address in both tables. */
  ghost predicate Holding(c: Evicting, k: Keeping, ip: string, id: LimiterId, n: nat, first: nat, at: real) {
    && id in c.limiters && ip in k.m
    && forall r | first <= r < first + n ::
         r in c.held && c.held[r] == Held(id, at) && r in k.held && k.held[r] == Held(ip, at)
  }

  /** One more request looks up an address whose limiter is there. */
  lemma OneLook(lim: Limits, c: Evicting, k: Keeping, ip: string, id: LimiterId, n: nat, first: nat, at: real)
    requires ip in c.m && c.m[ip] == Entry(id, at) && Holding(c, k, ip, id, n, first, at)
    ensures var c', k' := NextEvicting(lim, c, Look(first + n, ip, at)), NextKeeping(lim, k, Look(first + n, ip, at));
            && c'.m == c.m && c'.limiters == c.limiters && c'.answers == c.answers
            && k'.m == k.m && k'.answers == k.answers && Holding(c', k', ip, id, n + 1, first, at)
  {
  }

  lemma FirstLook(lim: Limits, c: Evicting, k: Keeping, ip: string, first: nat, at: real)
    ensures var c', k' := NextEvicting(lim, c, Look(first, ip, at)), NextKeeping(lim, k, Look(first, ip, at));
            var id := if ip in c.m then c.m[ip].limiter else LimiterId(ip, first);
            && (ip in c.m ==> id in c.limiters) ==>
            && c'.m == c.m[ip := Entry(id, at)] && Holding(c', k', ip, id, 1, first, at)
            && c'.limiters == (if ip in c.m then c.limiters else c.limiters[id := Full(lim)])
            && k'.m == (if ip in k.m then k.m else k.m[ip := Full(lim)])
            && c'.answers == c.answers && k'.answers == k.answers
  {
  }

  lemma {:induction false} AfterLooks(lim: Limits, before: seq<Event>, ip: string, n: nat, first: nat, at: real)
    requires n >= 1
    ensures var c0, k0 := RunEvicting(lim, before), RunKeeping(lim, before);
            var events := Looks(before, ip, n, first, at);
            var c, k := RunEvicting(lim, events), RunKeeping(lim, events);
            var id := if ip in c0.m then c0.m[ip].limiter else LimiterId(ip, first);
            && (ip in c0.m ==> id in c0.limiters) ==>
            && c.m == c0.m[ip := Entry(id, at)] && Holding(c, k, ip, id, n, first, at)
            && c.limiters == (if ip in c0.m then c0.limiters else c0.limiters[id := Full(lim)])
            && k.m == (if ip in k0.m then k0.m else k0.m[ip := Full(lim)])
            && c.answers == c0.answers && k.answers == k0.answers
  {
    hide NextEvicting, NextKeeping, Holding;
    var events := Looks(before, ip, n, first, at);
    assert events[..|events| - 1] == Looks(before, ip, n - 1, first, at);
    if n > 1 {
      AfterLooks(lim, before, ip, n - 1, first, at);
      var fewer := Looks(before, ip, n - 1, first, at);
      var c, k := RunEvicting(lim, fewer), RunKeeping(lim, fewer);
      if ip in c.m && Holding(c, k, ip, c.m[ip].limiter, n - 1, first, at) && c.m[ip].lastMsg == at {
        OneLook(lim, c, k, ip, c.m[ip].limiter, n - 1, first, at);
      }
    } else {
      assert Looks(before, ip, 0, first, at) == before;
      FirstLook(lim, RunEvicting(lim, before), RunKeeping(lim, before), ip, first, at);
    }
  }

  /** The first of the requests that hold the limiters asks. */
  lemma OneAsk(lim: Limits, c: Evicting, k: Keeping, ip: string, id: LimiterId,
               n: nat, first: nat, since: real, at: real)
    requires n >= 1 && Holding(c, k, ip, id, n, first, since)
    ensures var c', k' := NextEvicting(lim, c, Ask(first, at)), NextKeeping(lim, k, Ask(first, at));
            && Holding(c', k', ip, id, n - 1, first + 1, since) && c'.m == c.m
            && c'.limiters[id] == Taken(lim, c.limiters[id], at) && k'.m[ip] == Taken(lim, k.m[ip], at)
            && c'.answers == c.answers + [Allows(lim, c.limiters[id], at)]
            && k'.answers == k.answers + [Allows(lim, k.m[ip], at)]
  {
    hide Taken, Allows;
    assert first in c.held && first in k.held;
  }

  function AskEvicting(lim: Limits, c: Evicting, n: nat, first: nat, at: real): Evicting {
    if n == 0 then c else NextEvicting(lim, AskEvicting(lim, c, n - 1, first, at), Ask(first + n - 1, at))
  }

  function AskKeeping(lim: Limits, k: Keeping, n: nat, first: nat, at: real): Keeping {
    if n == 0 then k else NextKeeping(lim, AskKeeping(lim, k, n - 1, first, at), Ask(first + n - 1, at))
  }

  lemma {:induction false} AsksRun(lim: Limits, before: seq<Event>, n: nat, first: nat, at: real)
    ensures RunEvicting(lim, Asks(before, n, first, at)) == AskEvicting(lim, RunEvicting(lim, before), n, first, at)
    ensures RunKeeping(lim, Asks(before, n, first, at)) == AskKeeping(lim, RunKeeping(lim, before), n, first, at)
  {
    if n > 0 {
      var events := Asks(before, n, first, at);
      assert events[..|events| - 1] == Asks(before, n - 1, first, at);
      AsksRun(lim, before, n - 1, first, at);
    }
  }

  /** What a burst does to tables in which its requests hold the limiters. */
  lemma {:induction false} AfterAsks(lim: Limits, c0: Evicting, k0: Keeping, ip: string, id: LimiterId,
                                     n: nat, all: nat, first: nat, since: real, at: real)
    requires n <= all && Holding(c0, k0, ip, id, all, first, since)
    ensures var c, k := AskEvicting(lim, c0, n, first, at), AskKeeping(lim, k0, n, first, at);
            && Holding(c, k, ip, id, all - n, first + n, since)
            && c.m == c0.m && c.limiters[id] == After(lim, c0.limiters[id], n, at)
            && k.m[ip] == After(lim, k0.m[ip], n, at)
            && c.answers == c0.answers + Answers(lim, c0.limiters[id], n, at)
            && k.answers == k0.answers + Answers(lim, k0.m[ip], n, at)
  {
    hide Taken, Allows, NextEvicting, NextKeeping, Holding;
    if n > 0 {
      AfterAsks(lim, c0, k0, ip, id, n - 1, all, first, since, at);
      var c, k := AskEvicting(lim, c0, n - 1, first, at), AskKeeping(lim, k0, n - 1, first, at);
      OneAsk(lim, c, k, ip, id, all - (n - 1), first + n - 1, since, at);
    }
  }

  lemma {:induction false} LooksPrompt(lim: Limits, before: seq<Event>, ip: string, n: nat, first: nat,
                                       at: real, delay: real)
    requires Prompt(lim, before, delay) && Clock(before) <= at
    ensures Prompt(lim, Looks(before, ip, n, first, at), delay)
    ensures Clock(Looks(before, ip, n, first, at)) <= at
  {
    if n > 0 {
      var events := Looks(before, ip, n, first, at);
      assert events[..|events| - 1] == Looks(before, ip, n - 1, first, at);
      LooksPrompt(lim, before, ip, n - 1, first, at, delay);
    }
  }

  /** The last request of a burst still holds its limiter when the others have asked. */
  lemma StillHeld(lim: Limits, before: seq<Event>, ip: string, id: LimiterId,
                  n: nat, all: nat, first: nat, since: real, at: real)
    requires n < all && Holding(RunEvicting(lim, before), RunKeeping(lim, before), ip, id, all, first, since)
    ensures var held := RunKeeping(lim, Asks(before, n, first, at)).held;
            first + n in held && held[first + n] == Held(ip, since)
  {
    AsksRun(lim, before, n, first, at);
    AfterAsks(lim, RunEvicting(lim, before), RunKeeping(lim, before), ip, id, n, all, first, since, at);
  }

  lemma {:induction false} AsksPrompt(lim: Limits, before: seq<Event>, ip: string, id: LimiterId,
                                      n: nat, all: nat, first: nat, since: real, at: real, delay: real)
    requires n <= all && Holding(RunEvicting(lim, before), RunKeeping(lim, before), ip, id, all, first, since)
    requires Prompt(lim, before, delay) && Clock(before) <= at <= since + delay
    ensures Prompt(lim, Asks(before, n, first, at), delay)
    ensures Clock(Asks(before, n, first, at)) <= at
  {
    hide RunEvicting, RunKeeping, Holding, Prompt, NextKeeping, NextEvicting;
    if n > 0 {
      var fewer := Asks(before, n - 1, first, at);
      AsksPrompt(lim, before, ip, id, n - 1, all, first, since, at, delay);
      StillHeld(lim, before, ip, id, n - 1, all, first, since, at);
      PromptMore(lim, fewer, Ask(first + n - 1, at), delay);
    }
  }

  lemma PromptMore(lim: Limits, before: seq<Event>, e: Event, delay: real)
    requires Prompt(lim, before, delay) && e.at >= Clock(before)
    requires e.Ask? && e.request in RunKeeping(lim, before).held
             ==> e.at <= RunKeeping(lim, before).held[e.request].since + delay
    ensures Prompt(lim, before + [e], delay) && Clock(before + [e]) == e.at
  {
    assert (before + [e])[..|before|] == before;
  }

  // ---------- Limits that do not refill in time ----------

  /** A burst empties the bucket `delay` seconds after it was looked up; the entry is swept
      just after it has idled for long enough, and a second burst follows at once. */
  function FirstBurst(lim: Limits, delay: real): seq<Event> {
    Asks(Looks([], "x", lim.spike, 0, 0.0), lim.spike, 0, delay)
  }

  function SweptThen(lim: Limits, delay: real, back: real): seq<Event> {
    FirstBurst(lim, delay) + [Sweep(back)]
  }

  /** A time after the idle time by which the bucket has not filled up again. */
  lemma BackInTime(lim: Limits, delay: real) returns (back: real)
    requires 0.0 <= delay <= IDLE && lim.spike as real > Refill(lim, IDLE - delay)
    ensures back > IDLE && Refill(lim, back - delay) < lim.spike as real
  {
    if lim.speed == 0 {
      back := IDLE + 1.0;
    } else {
      var s := lim.speed as real;
      var gap := lim.spike as real - Refill(lim, IDLE - delay);
      var extra := gap / (2.0 * s);
      back := IDLE + extra;
      assert extra * s == gap / 2.0;
      RefillAdds(lim, IDLE - delay, extra);
    }
  }

  lemma FirstBurstEmpties(lim: Limits, delay: real)
    requires 0.0 <= delay <= IDLE && lim.spike >= 1
    ensures var c, k := RunEvicting(lim, FirstBurst(lim, delay)), RunKeeping(lim, FirstBurst(lim, delay));
            && Prompt(lim, FirstBurst(lim, delay), delay) && Clock(FirstBurst(lim, delay)) <= delay
            && c.answers == k.answers
            && c.m == map["x" := Entry(LimiterId("x", 0), 0.0)]
            && "x" in k.m && k.m["x"] == Bucket(0.0, delay)
  {
    var looks := Looks([], "x", lim.spike, 0, 0.0);
    var id := LimiterId("x", 0);
    AfterLooks(lim, [], "x", lim.spike, 0, 0.0);
    LooksPrompt(lim, [], "x", lim.spike, 0, 0.0, delay);
    AsksRun(lim, looks, lim.spike, 0, delay);
    AfterAsks(lim, RunEvicting(lim, looks), RunKeeping(lim, looks), "x", id, lim.spike, lim.spike, 0, 0.0, delay);
    AsksPrompt(lim, looks, "x", id, lim.spike, lim.spike, 0, 0.0, delay, delay);
    BurstAnswers(lim, Full(lim), lim.spike, delay);
    assert Refill(lim, delay) >= 0.0;
  }

  lemma SecondBurst(lim: Limits, swept: seq<Event>, last: real, back: real, delay: real)
    requires 0.0 <= last <= delay <= IDLE < back && lim.spike >= 1 && Prompt(lim, swept, delay) && Clock(swept) <= back
    requires RunEvicting(lim, swept).m == map[] && "x" in RunKeeping(lim, swept).m
    requires RunKeeping(lim, swept).m["x"] == Bucket(0.0, last)
    ensures var n := lim.spike;
            var events := Asks(Looks(swept, "x", n, n, back), n, n, back);
            && Prompt(lim, events, delay)
            && RunEvicting(lim, events).answers == RunEvicting(lim, swept).answers + Answers(lim, Full(lim), n, back)
            && RunKeeping(lim, events).answers ==
                 RunKeeping(lim, swept).answers + Answers(lim, Bucket(0.0, last), n, back)
  {
    var n := lim.spike;
    var looks := Looks(swept, "x", n, n, back);
    AfterLooks(lim, swept, "x", n, n, back);
    LooksPrompt(lim, swept, "x", n, n, back, delay);
    hide RunEvicting, RunKeeping, Looks, Asks, Answers, After, Prompt;
    AsksRun(lim, looks, n, n, back);
    AfterAsks(lim, RunEvicting(lim, looks), RunKeeping(lim, looks), "x", LimiterId("x", n), n, n, n, back, back);
    AsksPrompt(lim, looks, "x", LimiterId("x", n), n, n, n, back, back, delay);
  }

  lemma AnswersDiffer(lim: Limits, last: real, back: real)
    requires 0.0 <= last <= back && lim.spike >= 1 && Refill(lim, back - last) < lim.spike as real
    ensures Answers(lim, Full(lim), lim.spike, back) != Answers(lim, Bucket(0.0, last), lim.spike, back)
  {
    BurstAnswers(lim, Full(lim), lim.spike, back);
    BurstAnswers(lim, Bucket(0.0, last), lim.spike, back);
    assert Refill(lim, back) >= 0.0;
  }

  /** If the limits do not refill the bucket, the two tables differ on some prompt run. */
  lemma EvictionShows(lim: Limits, delay: real) returns (events: seq<Event>)
    requires 0.0 <= delay <= 60.0 && lim.spike as real > (60.0 - delay) * lim.speed as real
    ensures Prompt(lim, events, delay)
    ensures RunEvicting(lim, events).answers != RunKeeping(lim, events).answers
  {
    assert lim.spike >= 1 by { assert Refill(lim, IDLE - delay) >= 0.0; }
    var back := BackInTime(lim, delay);
    var swept := SweptThen(lim, delay, back);
    FirstBurstEmpties(lim, delay);
    assert swept[..|swept| - 1] == FirstBurst(lim, delay);
    var c, k := RunEvicting(lim, swept), RunKeeping(lim, swept);
    assert c.m == map[] && "x" in k.m && k.m["x"] == Bucket(0.0, delay) && c.answers == k.answers;
    assert Prompt(lim, swept, delay);
    hide *;
    events := Asks(Looks(swept, "x", lim.spike, lim.spike, back), lim.spike, lim.spike, back);
    SecondBurst(lim, swept, delay, back, delay);
    AnswersDiffer(lim, delay, back);
    var renewed := Answers(lim, Full(lim), lim.spike, back);
    var kept := Answers(lim, Bucket(0.0, delay), lim.spike, back);
    assert (c.answers + renewed)[|c.answers|..] == renewed && (k.answers + kept)[|k.answers|..] == kept;
  }

  /** The tables agree on every prompt run exactly when the bucket refills in a minute less the
      delay. */
  lemma InvisibleIffRefills(lim: Limits, delay: real)
    requires 0.0 <= delay <= 60.0
    ensures (forall events | Prompt(lim, events, delay) ::
               RunEvicting(lim, events).answers == RunKeeping(lim, events).answers)
            <==> lim.spike as real <= (60.0 - delay) * lim.speed as real
  {
    if lim.spike as real <= (60.0 - delay) * lim.speed as real {
      forall events | Prompt(lim, events, delay)
        ensures RunEvicting(lim, events).answers == RunKeeping(lim, events).answers
      {
        EvictionIsInvisible(lim, events, delay);
      }
    } else {
      var events := EvictionShows(lim, delay);
    }
  }
}
