/** The fixed-window rate limiter (packages/acip_core/ratelimit.py). */
module RateLimit {
  import opened Wrappers

  /** A Redis counter and the time its key expires. */
  datatype Counter = Counter(count: nat, expireAt: real)

  type Counters = map<(string, int), Counter>

  /** The minute a time falls into. */
  function Minute(t: real): int {
    (t / 60.0).Floor
  }

  /** `limit or default`: None and 0 both mean the default. */
  function Limit(limit: Option<int>, fallback: int): int {
    if limit.None? || limit.value == 0 then fallback else limit.value
  }

  /** The key's counter after one more hit: an expired or absent one starts over
      and gets sixty seconds. */
  function Hit(counters: Counters, key: (string, int), now: real): Counter {
    if key in counters && now < counters[key].expireAt then Counter(counters[key].count + 1, counters[key].expireAt)
    else Counter(1, now + 60.0)
  }

  class RateLimiter {
    const perMinute: int
    var counters: Counters

    constructor (perMinute: int)
      ensures this.perMinute == perMinute && counters == map[]
    {
      this.perMinute, counters := perMinute, map[];
    }

    /** `allow`; without Redis everything is allowed. */
    method Allow(tenant: string, limit: Option<int>, now: real, up: bool) returns (ok: bool)
      modifies this
      ensures !up ==> ok && counters == old(counters)
      ensures up ==> var key := (tenant, Minute(now));
                     counters == old(counters)[key := Hit(old(counters), key, now)]
                     && (ok <==> Hit(old(counters), key, now).count <= Limit(limit, perMinute))
    {
      if !up {
        return true;
      }
      var key := (tenant, Minute(now));
      if key in counters && now < counters[key].expireAt {
        counters := counters[key := counters[key].(count := counters[key].count + 1)];
      } else {
        counters := counters[key := Counter(1, now + 60.0)];
      }
      ok := counters[key].count <= Limit(limit, perMinute);
    }
  }

  // ---- what a history of calls admits -------------------------------------------------------

  datatype Call = Call(tenant: string, now: real)

  function After(calls: seq<Call>): Counters {
    if calls == [] then map[]
    else
      var before, c := After(calls[..|calls| - 1]), calls[|calls| - 1];
      before[(c.tenant, Minute(c.now)) := Hit(before, (c.tenant, Minute(c.now)), c.now)]
  }

  /** Is the last call admitted under this limit? */
  predicate LastAdmitted(calls: seq<Call>, limit: int)
    requires calls != []
  {
    var c := calls[|calls| - 1];
    Hit(After(calls[..|calls| - 1]), (c.tenant, Minute(c.now)), c.now).count <= limit
  }

  function Counted(calls: seq<Call>, tenant: string, minute: int): nat {
    if calls == [] then 0
    else
      var c := calls[|calls| - 1];
      Counted(calls[..|calls| - 1], tenant, minute) + if c.tenant == tenant && Minute(c.now) == minute then 1 else 0
  }

  function AdmittedIn(calls: seq<Call>, limit: int, tenant: string, minute: int): nat {
    if calls == [] then 0
    else
      var c := calls[|calls| - 1];
      AdmittedIn(calls[..|calls| - 1], limit, tenant, minute)
      + if c.tenant == tenant && Minute(c.now) == minute && LastAdmitted(calls, limit) then 1 else 0
  }

  /** Calls admitted at times from a to b. */
  function AdmittedBetween(calls: seq<Call>, limit: int, tenant: string, a: real, b: real): nat {
    if calls == [] then 0
    else
      var c := calls[|calls| - 1];
      AdmittedBetween(calls[..|calls| - 1], limit, tenant, a, b)
      + if c.tenant == tenant && a <= c.now <= b && LastAdmitted(calls, limit) then 1 else 0
  }

  lemma MinuteBounds(t: real)
    ensures Minute(t) as real * 60.0 <= t < (Minute(t) + 1) as real * 60.0
  {
  }

  /** A minute's counter holds the number of calls in it, and lives at least until
      the minute is over: it never expires inside its own window. */
  lemma {:induction false} CounterIsExact(calls: seq<Call>, tenant: string, minute: int)
    ensures (tenant, minute) in After(calls) <==> Counted(calls, tenant, minute) > 0
    ensures (tenant, minute) in After(calls) ==>
              After(calls)[(tenant, minute)].count == Counted(calls, tenant, minute)
              && (minute + 1) as real * 60.0 <= After(calls)[(tenant, minute)].expireAt
  {
    if calls != [] {
      var c := calls[|calls| - 1];
      CounterIsExact(calls[..|calls| - 1], tenant, minute);
      MinuteBounds(c.now);
      if c.tenant == tenant && Minute(c.now) == minute {
        assert (minute + 1) as real * 60.0 == minute as real * 60.0 + 60.0;
      }
    }
  }

  /** A call is admitted exactly when it is among the first `limit` of its tenant
      in its minute. */
  lemma LastAdmittedIff(calls: seq<Call>, limit: int)
    requires calls != []
    ensures var c := calls[|calls| - 1];
            LastAdmitted(calls, limit) <==> Counted(calls, c.tenant, Minute(c.now)) <= limit
  {
    var c := calls[|calls| - 1];
    CounterIsExact(calls[..|calls| - 1], c.tenant, Minute(c.now));
    MinuteBounds(c.now);
  }

  /** Each minute admits exactly as many calls as were made, up to the limit. */
  lemma {:induction false} MinuteAdmits(calls: seq<Call>, limit: nat, tenant: string, minute: int)
    ensures AdmittedIn(calls, limit, tenant, minute)
         == if Counted(calls, tenant, minute) <= limit then Counted(calls, tenant, minute) else limit
  {
    if calls != [] {
      MinuteAdmits(calls[..|calls| - 1], limit, tenant, minute);
      LastAdmittedIff(calls, limit);
    }
  }

  lemma TwoMinutes(a: real, b: real, t: real)
    requires a <= t <= b <= a + 60.0
    ensures Minute(t) == Minute(a) || Minute(t) == Minute(a) + 1
  {
  }

  lemma {:induction false} BetweenWithinMinutes(calls: seq<Call>, limit: int, tenant: string, a: real, b: real)
    requires a <= b <= a + 60.0
    ensures AdmittedBetween(calls, limit, tenant, a, b)
         <= AdmittedIn(calls, limit, tenant, Minute(a)) + AdmittedIn(calls, limit, tenant, Minute(a) + 1)
  {
    if calls != [] {
      BetweenWithinMinutes(calls[..|calls| - 1], limit, tenant, a, b);
      var t := calls[|calls| - 1].now;
      if a <= t <= b {
        TwoMinutes(a, b, t);
      }
    }
  }

  /** Any interval of at most a minute, wherever it starts, admits at most twice the
      limit of one tenant's calls, however tenants and times mix. */
  lemma SlidingIntervalBound(calls: seq<Call>, limit: nat, tenant: string, a: real, b: real)
    requires a <= b <= a + 60.0
    ensures AdmittedBetween(calls, limit, tenant, a, b) <= 2 * limit
  {
    BetweenWithinMinutes(calls, limit, tenant, a, b);
    MinuteAdmits(calls, limit, tenant, Minute(a));
    MinuteAdmits(calls, limit, tenant, Minute(a) + 1);
  }

  /** k calls at one time. */
  function Burst(tenant: string, now: real, k: nat): seq<Call> {
    if k == 0 then [] else Burst(tenant, now, k - 1) + [Call(tenant, now)]
  }

  lemma {:induction false} BurstCounted(calls: seq<Call>, tenant: string, now: real, k: nat, minute: int)
    ensures Counted(calls + Burst(tenant, now, k), tenant, minute)
         == Counted(calls, tenant, minute) + if minute == Minute(now) then k else 0
  {
    var all := calls + Burst(tenant, now, k);
    if k == 0 {
      assert all == calls;
    } else {
      BurstCounted(calls, tenant, now, k - 1, minute);
      assert all[..|all| - 1] == calls + Burst(tenant, now, k - 1);
    }
  }

  /** One more call inside the interval and within the limit is one more admitted. */
  lemma OneMoreAdmitted(calls: seq<Call>, limit: nat, tenant: string, now: real, a: real, b: real)
    requires a <= now <= b && Counted(calls, tenant, Minute(now)) < limit
    ensures AdmittedBetween(calls + [Call(tenant, now)], limit, tenant, a, b)
         == AdmittedBetween(calls, limit, tenant, a, b) + 1
  {
    var all := calls + [Call(tenant, now)];
    assert all[..|all| - 1] == calls && all[|all| - 1] == Call(tenant, now);
    assert Counted(all, tenant, Minute(now)) == Counted(calls, tenant, Minute(now)) + 1;
    LastAdmittedIff(all, limit);
    assert LastAdmitted(all, limit);
  }

  lemma {:induction false} BurstAdmitted(calls: seq<Call>, limit: nat, tenant: string, now: real, k: nat, a: real,
                                         b: real)
    requires a <= now <= b && Counted(calls, tenant, Minute(now)) + k <= limit
    ensures AdmittedBetween(calls + Burst(tenant, now, k), limit, tenant, a, b)
         == AdmittedBetween(calls, limit, tenant, a, b) + k
  {
    if k == 0 {
      assert calls + Burst(tenant, now, k) == calls;
    } else {
      var before := calls + Burst(tenant, now, k - 1);
      BurstAdmitted(calls, limit, tenant, now, k - 1, a, b);
      BurstCounted(calls, tenant, now, k - 1, Minute(now));
      OneMoreAdmitted(before, limit, tenant, now, a, b);
      assert calls + Burst(tenant, now, k) == before + [Call(tenant, now)];
    }
  }

  /** The bound is reached by two bursts around the turn of a minute, a second apart. */
  lemma BoundIsReached(limit: nat, tenant: string)
    ensures AdmittedBetween(Burst(tenant, 59.0, limit) + Burst(tenant, 60.0, limit), limit, tenant, 59.0, 60.0)
         == 2 * limit
  {
    MinuteBounds(59.0);
    MinuteBounds(60.0);
    assert Minute(59.0) == 0 && Minute(60.0) == 1;
    assert [] + Burst(tenant, 59.0, limit) == Burst(tenant, 59.0, limit);
    BurstAdmitted([], limit, tenant, 59.0, limit, 59.0, 60.0);
    BurstCounted([], tenant, 59.0, limit, 1);
    BurstAdmitted(Burst(tenant, 59.0, limit), limit, tenant, 60.0, limit, 59.0, 60.0);
  }
}
