/** The per-key token bucket of the HTTP layer: dropping idle buckets never
    changes an answer, and no key gets more than its rate. Times are in
    nanoseconds and arithmetic is exact. */
module RateLimiter {
  const SECOND: real := 1_000_000_000.0
  const MAX_BUCKETS: nat := 10_000

  datatype Bucket = Bucket(tokens: real, last: int)
  datatype Request = Request(key: string, time: int)
  type Table = map<string, Bucket>

  function Min(x: real, y: real): real { if x <= y then x else y }

  /** Conversion of a float to an integer: toward zero. */
  function Trunc(x: real): int { if x >= 0.0 then x.Floor else -(-x).Floor }

  datatype Rate = Rate(rps: real, burst: int) {
    /** Tokens earned over a duration. */
    function Earned(duration: int): real { duration as real / SECOND * rps }

    function Refilled(b: Bucket, now: int): real { Min(burst as real, b.tokens + Earned(now - b.last)) }

    function Level(table: Table, key: string, now: int): real {
      if key in table then Refilled(table[key], now) else burst as real
    }

    function Taken(level: real, now: int): Bucket { Bucket(if level >= 1.0 then level - 1.0 else level, now) }

    function Wait(level: real): int
      requires rps > 0.0
    {
      if level >= 1.0 then 0 else Trunc((1.0 - level) / rps * SECOND)
    }

    /** Idle for longer than this, a bucket is dropped. */
    function Full(): int
      requires rps > 0.0
    {
      Trunc(burst as real / rps * SECOND)
    }

    /** The reference: the table after a history of requests with no bucket ever dropped. */
    function Kept(h: seq<Request>): Table {
      if h == [] then map[]
      else
        var was, q := Kept(h[..|h| - 1]), h[|h| - 1];
        was[q.key := Taken(Level(was, q.key, q.time), q.time)]
    }

    /** The reference's level for the next request. */
    function LevelAfter(h: seq<Request>, key: string, now: int): real { Level(Kept(h), key, now) }

    /** Requests of `key` the reference admits at `since` or later. */
    function Admitted(h: seq<Request>, key: string, since: int): nat {
      if h == [] then 0
      else
        var was, q := h[..|h| - 1], h[|h| - 1];
        Admitted(was, key, since)
        + (if q.key == key && q.time >= since && LevelAfter(was, key, q.time) >= 1.0 then 1 else 0)
    }

    function Asked(h: seq<Request>, key: string): nat {
      if h == [] then 0 else Asked(h[..|h| - 1], key) + (if h[|h| - 1].key == key then 1 else 0)
    }
  }

  /** The clock never goes back, and has not passed `now`. */
  ghost predicate Monotone(h: seq<Request>, now: int) {
    (forall i :: 0 <= i < |h| ==> h[i].time <= now) && (forall i, j :: 0 <= i < j < |h| ==> h[i].time <= h[j].time)
  }

  lemma Earns(r: Rate, d: int, e: int)
    requires r.rps > 0.0 && d <= e
    ensures r.Earned(d) <= r.Earned(e) && r.Earned(e) == r.Earned(d) + r.Earned(e - d) && r.Earned(e - d) >= 0.0
  {
    var x, y := d as real / SECOND, (e - d) as real / SECOND;
    assert e as real / SECOND == x + y && y >= 0.0;
    assert y * r.rps >= 0.0;
  }

  /** A bucket is in range: empty or better, and at most full. */
  predicate InRange(r: Rate, b: Bucket) {
    b.tokens <= r.burst as real && (b.tokens >= 0.0 || b.tokens == r.burst as real)
  }

  /** Full is the time an empty bucket takes to fill, cut to whole nanoseconds: it
      is full at any later moment and at none before. */
  lemma FullIsTight(r: Rate, d: int)
    requires r.rps > 0.0 && r.burst >= 1 && d >= 0
    ensures d > r.Full() ==> r.Refilled(Bucket(0.0, 0), d) == r.burst as real
    ensures d < r.Full() ==> r.Refilled(Bucket(0.0, 0), d) < r.burst as real
  {
    if d > r.Full() {
      IdleEarnsBurst(r, d);
    } else if d < r.Full() {
      var x, y := r.burst as real / r.rps, d as real / SECOND;
      assert x * r.rps == r.burst as real && (d + 1) as real <= x * SECOND;
      assert y < x;
      assert (x - y) * r.rps > 0.0;
    }
  }

  /** Tokens are earned at the rate: rps in a second. */
  lemma EarnsTheRate(r: Rate, seconds: int)
    ensures r.Earned(seconds * 1_000_000_000) == seconds as real * r.rps
  {
    assert (seconds * 1_000_000_000) as real == seconds as real * SECOND;
  }

  /** A bucket idle past Full is full, and stays so: it says what a fresh one would. */
  lemma IdleIsFull(r: Rate, b: Bucket, then': int, now: int)
    requires r.rps > 0.0 && InRange(r, b) && b.last <= then' <= now && then' - b.last > r.Full()
    ensures r.Refilled(b, now) == r.burst as real
  {
    var d := then' - b.last;
    Earns(r, d, now - b.last);
    Earns(r, 0, d);
    if r.burst >= 0 { IdleEarnsBurst(r, d); }
  }

  lemma ScaleMono(x: real, y: real, c: real)
    requires x <= y && 0.0 <= c
    ensures x * c <= y * c
  {
    assert (y - x) * c >= 0.0;
  }

  lemma IdleEarnsBurst(r: Rate, d: int)
    requires r.rps > 0.0 && r.burst >= 0 && d > r.Full()
    ensures r.Earned(d) >= r.burst as real
  {
    var x, y := r.burst as real / r.rps, d as real / SECOND;
    assert x >= 0.0 && x * r.rps == r.burst as real;
    assert d as real > x * SECOND;
    assert y > x;
    ScaleMono(x, y, r.rps);
  }

  lemma {:induction false} KeptInRange(r: Rate, h: seq<Request>, now: int)
    requires r.rps > 0.0 && Monotone(h, now)
    ensures forall k :: k in r.Kept(h) ==> InRange(r, r.Kept(h)[k]) && r.Kept(h)[k].last <= now
  {
    if h != [] {
      var q := h[|h| - 1];
      var was := h[..|h| - 1];
      KeptInRange(r, was, q.time);
      if q.key in r.Kept(was) { Earns(r, 0, q.time - r.Kept(was)[q.key].last); }
    }
  }

  lemma FreshIsFull(r: Rate, now: int)
    ensures r.Refilled(Bucket(r.burst as real, now), now) == r.burst as real
  {
  }

  /** A bucket that from `now` on always reads full. */
  ghost predicate FullFrom(r: Rate, b: Bucket, now: int) {
    forall t :: now <= t ==> r.Refilled(b, t) == r.burst as real
  }

  /** A table that dropped buckets answers like the reference: what it holds is
      the same, and what it lacks is full. */
  ghost predicate AgreesAt(r: Rate, table: Table, kept: Table, k: string, now: int) {
    && (k in table ==> k in kept && table[k] == kept[k])
    && (k in kept && k !in table ==> FullFrom(r, kept[k], now))
  }

  ghost predicate Agrees(r: Rate, table: Table, kept: Table, now: int) {
    forall k {:trigger AgreesAt(r, table, kept, k, now)} :: AgreesAt(r, table, kept, k, now)
  }

  lemma LevelsAgree(r: Rate, table: Table, kept: Table, clock: int, key: string, now: int)
    requires AgreesAt(r, table, kept, key, clock) && clock <= now
    ensures r.Level(table, key, now) == r.Level(kept, key, now)
  {
  }

  /** What one call does to the other keys: nothing, except that idle buckets go. */
  ghost predicate Spared(r: Rate, was: Table, table: Table, key: string, now: int)
    requires r.rps > 0.0
  {
    && (forall k :: k in table && k != key ==> k in was && table[k] == was[k])
    && (forall k :: k in was && k !in table && k != key ==> now - was[k].last > r.Full())
  }

  /** And to its own: the bucket is taken from; only under a negative burst is it
      dropped as well. */
  ghost predicate Served(r: Rate, was: Table, table: Table, key: string, now: int)
    requires r.rps > 0.0
  {
    && Spared(r, was, table, key, now)
    && (if key in table then table[key] == r.Taken(r.Level(was, key, now), now) else r.Full() < 0)
  }

  /** Serving a request keeps the two tables in agreement. */
  lemma ServedAgrees(r: Rate, was: Table, table: Table, h: seq<Request>, clock: int, key: string, now: int)
    requires r.rps > 0.0 && Monotone(h, clock) && clock <= now
    requires Agrees(r, was, r.Kept(h), clock) && Served(r, was, table, key, now)
    ensures Agrees(r, table, r.Kept(h + [Request(key, now)]), now)
  {
    var q := Request(key, now);
    var kept, next := r.Kept(h), r.Kept(h + [q]);
    assert (h + [q])[..|h|] == h;
    assert AgreesAt(r, was, kept, key, clock);
    LevelsAgree(r, was, kept, clock, key, now);
    KeptInRange(r, h, clock);
    KeptInRange(r, h + [q], now);
    forall k ensures AgreesAt(r, table, next, k, now) {
      assert AgreesAt(r, was, kept, k, clock);
      if k in next && k !in table {
        forall t | now <= t ensures r.Refilled(next[k], t) == r.burst as real {
          if k == key || k in was { IdleIsFull(r, next[k], now, t); }
        }
      }
    }
  }

  // ---- What a request costs ----

  /** Another key's request changes nothing for this one. */
  lemma OthersCostNothing(r: Rate, h: seq<Request>, other: string, time: int, key: string, later: int)
    requires other != key
    ensures r.LevelAfter(h + [Request(other, time)], key, later) == r.LevelAfter(h, key, later)
  {
    assert (h + [Request(other, time)])[..|h|] == h;
  }

  /** Nor does a refusal: afterwards the key has what it would have had without it. */
  lemma RefusalCostsNothing(r: Rate, h: seq<Request>, key: string, now: int, later: int)
    requires r.rps > 0.0 && Monotone(h, now) && now <= later && r.LevelAfter(h, key, now) < 1.0 <= r.burst as real
    ensures r.LevelAfter(h + [Request(key, now)], key, later) == r.LevelAfter(h, key, later)
  {
    assert (h + [Request(key, now)])[..|h|] == h;
    KeptInRange(r, h, now);
    if key in r.Kept(h) {
      var b := r.Kept(h)[key];
      Earns(r, now - b.last, later - b.last);
    }
  }

  /** An admission costs one token of what there was, up to what has been earned
      back since. */
  lemma AdmissionCostsOne(r: Rate, h: seq<Request>, key: string, now: int, later: int)
    requires r.LevelAfter(h, key, now) >= 1.0
    ensures r.LevelAfter(h + [Request(key, now)], key, later)
            == Min(r.burst as real, r.LevelAfter(h, key, now) - 1.0 + r.Earned(later - now))
  {
    assert (h + [Request(key, now)])[..|h|] == h;
  }

  /** A key never seen has a full bucket. */
  lemma {:induction false} UnseenIsFull(r: Rate, h: seq<Request>, key: string, now: int)
    requires r.Asked(h, key) == 0
    ensures r.LevelAfter(h, key, now) == r.burst as real
  {
    if h != [] { UnseenIsFull(r, h[..|h| - 1], key, now); }
  }

  class Limiter {
    const rate: Rate
    var buckets: Table
    ghost var history: seq<Request>
    ghost var clock: int

    ghost predicate Valid() reads this {
      rate.rps > 0.0 && Monotone(history, clock) && Agrees(rate, buckets, rate.Kept(history), clock)
    }

    constructor (rps: real, burst: int, ghost now: int)
      requires rps > 0.0
      ensures Valid() && rate == Rate(rps, burst) && buckets == map[] && history == [] && clock == now
    {
      rate, buckets, history, clock := Rate(rps, burst), map[], [], now;
    }

    method EvictIdle(now: int)
      requires rate.rps > 0.0
      modifies this`buckets
      ensures buckets == map k | k in old(buckets) && now - old(buckets)[k].last <= rate.Full() :: old(buckets)[k]
    {
      var full := rate.Full();
      var left := buckets.Keys;
      while left != {}
        invariant left <= buckets.Keys
        invariant buckets == map k | k in old(buckets)
                  && (k in left || now - old(buckets)[k].last <= full) :: old(buckets)[k]
        decreases left
      {
        var k :| k in left;
        if now - buckets[k].last > full {
          buckets := buckets - {k};
        }
        left := left - {k};
      }
    }

    /** The key's bucket, a fresh one if it has none; that may evict. */
    method Lookup(key: string, now: int) returns (b: Bucket)
      requires rate.rps > 0.0
      modifies this`buckets
      ensures rate.Refilled(b, now) == rate.Level(old(buckets), key, now)
      ensures Spared(rate, old(buckets), buckets, key, now) && (key in buckets || rate.Full() < 0)
      ensures key in old(buckets) || |old(buckets)| < MAX_BUCKETS ==> old(buckets).Keys <= buckets.Keys
      ensures key !in old(buckets) && |old(buckets)| >= MAX_BUCKETS ==>
                forall k :: k in buckets ==> now - buckets[k].last <= rate.Full()
    {
      if key in buckets {
        b := buckets[key];
      } else {
        b := Bucket(rate.burst as real, now);
        FreshIsFull(rate, now);
        buckets := buckets[key := b];
        if |buckets| > MAX_BUCKETS {
          EvictIdle(now);
        }
      }
    }

    /** The answer is the reference's, for every request in every history. */
    method Allow(key: string, now: int) returns (ok: bool, wait: int)
      requires Valid() && clock <= now
      modifies this
      ensures Valid() && history == old(history) + [Request(key, now)] && clock == now
      ensures ok <==> rate.LevelAfter(old(history), key, now) >= 1.0
      ensures wait == rate.Wait(rate.LevelAfter(old(history), key, now))
    {
      ghost var was := buckets;
      assert AgreesAt(rate, was, rate.Kept(history), key, clock);
      LevelsAgree(rate, was, rate.Kept(history), clock, key, now);
      var b := Lookup(key, now);
      var level := rate.Refilled(b, now);
      if key in buckets {
        buckets := buckets[key := rate.Taken(level, now)];
      }
      ok, wait := level >= 1.0, rate.Wait(level);
      ServedAgrees(rate, was, buckets, history, clock, key, now);
      history, clock := history + [Request(key, now)], now;
    }
  }

  /** Spent and still held never exceed what was there and what was earned since. */
  lemma {:induction false} SpentAndHeld(r: Rate, h: seq<Request>, key: string, since: int, now: int)
    requires r.rps > 0.0 && Monotone(h, now) && since <= now
    ensures r.Admitted(h, key, since) as real + r.LevelAfter(h, key, now) <= r.burst as real + r.Earned(now - since)
  {
    Earns(r, 0, now - since);
    if h != [] {
      var was, q := h[..|h| - 1], h[|h| - 1];
      if q.time < since {
        NoneSince(r, h, key, since);
      } else if q.key == key {
        SpentAndHeld(r, was, key, since, q.time);
        Earns(r, q.time - since, now - since);
      } else {
        SpentAndHeld(r, was, key, since, now);
      }
    }
  }

  lemma {:induction false} NoneSince(r: Rate, h: seq<Request>, key: string, since: int)
    requires forall i :: 0 <= i < |h| ==> h[i].time < since
    ensures r.Admitted(h, key, since) == 0
  {
    if h != [] { NoneSince(r, h[..|h| - 1], key, since); }
  }

  lemma LevelInRange(r: Rate, h: seq<Request>, key: string, now: int)
    requires r.rps > 0.0 && Monotone(h, now)
    ensures InRange(r, Bucket(r.LevelAfter(h, key, now), now))
  {
    KeptInRange(r, h, now);
    if key in r.Kept(h) { Earns(r, 0, now - r.Kept(h)[key].last); }
  }

  /** In every history, from any moment on, a key is admitted at most burst plus
      rps times the elapsed time; and never at all when burst is below one. */
  lemma AdmittedWithinRate(r: Rate, h: seq<Request>, key: string, since: int, now: int)
    requires r.rps > 0.0 && Monotone(h, now) && since <= now
    ensures r.burst >= 0 ==> r.Admitted(h, key, since) as real <= r.burst as real + r.Earned(now - since)
    ensures r.burst < 1 ==> r.Admitted(h, key, since) == 0
  {
    SpentAndHeld(r, h, key, since, now);
    LevelInRange(r, h, key, now);
    Earns(r, 0, now - since);
    if r.burst < 1 { NeverAdmitted(r, h, key, since); }
  }

  lemma {:induction false} NeverAdmitted(r: Rate, h: seq<Request>, key: string, since: int)
    requires r.burst < 1
    ensures r.Admitted(h, key, since) == 0
  {
    if h != [] { NeverAdmitted(r, h[..|h| - 1], key, since); }
  }

  /** The bound is met: a key's first `burst` requests are all admitted, however
      fast they come. */
  lemma {:induction false} FirstBurstAdmitted(r: Rate, h: seq<Request>, key: string, since: int, now: int)
    requires r.rps > 0.0 && Monotone(h, now) && r.Asked(h, key) <= r.burst
    requires forall i :: 0 <= i < |h| ==> h[i].time >= since
    ensures r.Admitted(h, key, since) == r.Asked(h, key)
    ensures r.LevelAfter(h, key, now) >= (r.burst - r.Asked(h, key)) as real
  {
    if h != [] {
      var was, q := h[..|h| - 1], h[|h| - 1];
      FirstBurstAdmitted(r, was, key, since, if q.key == key then q.time else now);
      Earns(r, 0, now - q.time);
    }
  }

  /** How the wait relates to the refill: one nanosecond less earns too little,
      one more earns enough. */
  lemma WaitBounds(r: Rate, level: real)
    requires r.rps > 0.0 && level < 1.0
    ensures var w := r.Wait(level);
            w >= 0 && level + r.Earned(w) <= 1.0 < level + r.Earned(w + 1)
  {
    var exact := (1.0 - level) / r.rps * SECOND;
    var w := r.Wait(level);
    assert (1.0 - level) / r.rps >= 0.0;
    assert w as real <= exact < (w + 1) as real;
    Scales(r, exact, level);
    assert w as real / SECOND * r.rps <= exact / SECOND * r.rps;
    assert exact / SECOND * r.rps < (w + 1) as real / SECOND * r.rps;
  }

  lemma Scales(r: Rate, exact: real, level: real)
    requires r.rps > 0.0 && exact == (1.0 - level) / r.rps * SECOND
    ensures exact / SECOND * r.rps == 1.0 - level
  {
    assert exact / SECOND == (1.0 - level) / r.rps;
  }

  /** A refused key that stays quiet is refused before the wait is over and
      admitted after it; at the wait itself, exactly when no fraction of a
      nanosecond was cut off. */
  lemma WaitIsTight(r: Rate, b: Bucket, later: int)
    requires r.rps > 0.0 && r.burst >= 1 && b.tokens < 1.0 && later >= b.last
    ensures r.Refilled(b, later) >= 1.0 <==>
            var w := r.Wait(b.tokens);
            later - b.last > w || (later - b.last == w && b.tokens + r.Earned(w) == 1.0)
  {
    var w, d := r.Wait(b.tokens), later - b.last;
    WaitBounds(r, b.tokens);
    if d > w {
      Earns(r, w + 1, d);
    } else if d < w {
      Earns(r, d, w);
      EarnsMore(r, d, w);
    }
  }

  lemma EarnsMore(r: Rate, d: int, e: int)
    requires r.rps > 0.0 && d < e
    ensures r.Earned(d) < r.Earned(e)
  {
    var x, y := d as real / SECOND, e as real / SECOND;
    assert x < y;
    assert (y - x) * r.rps > 0.0;
  }

  /** What other keys ask in the meantime changes nothing. */
  lemma {:induction false} QuietStays(r: Rate, h: seq<Request>, more: seq<Request>, key: string, later: int)
    requires forall q :: q in more ==> q.key != key
    ensures r.LevelAfter(h + more, key, later) == r.LevelAfter(h, key, later)
    decreases |more|
  {
    if more == [] {
      assert h + more == h;
    } else {
      var q, less := more[|more| - 1], more[..|more| - 1];
      assert h + more == h + less + [q];
      OthersCostNothing(r, h + less, q.key, q.time, key, later);
      QuietStays(r, h, less, key, later);
    }
  }

  /** The wait a refused key is told is when it is next admitted: refused at `now`,
      and asking next at `later` with any requests of other keys between, it is
      admitted exactly once more than the wait has passed, or the wait itself if no
      fraction of a nanosecond was cut off. */
  lemma ToldWhenAdmitted(r: Rate, h: seq<Request>, key: string, now: int, more: seq<Request>, later: int)
    requires r.rps > 0.0 && r.burst >= 1 && Monotone(h, now) && now <= later
    requires r.LevelAfter(h, key, now) < 1.0 && forall q :: q in more ==> q.key != key
    ensures var level := r.LevelAfter(h, key, now); var w := r.Wait(level);
            r.LevelAfter(h + [Request(key, now)] + more, key, later) >= 1.0 <==>
            later - now > w || (later - now == w && level + r.Earned(w) == 1.0)
  {
    var level := r.LevelAfter(h, key, now);
    QuietStays(r, h + [Request(key, now)], more, key, later);
    assert (h + [Request(key, now)])[..|h|] == h;
    WaitIsTight(r, Bucket(level, now), later);
  }

  /** Retry-After, in whole seconds: the wait rounded up, at least one. */
  function RetryAfter(wait: int): int {
    var up := -((-wait) / 1_000_000_000);
    if up < 1 then 1 else up
  }

  /** A refused client that comes back when Retry-After says is admitted, except
      when the wait is a whole number of seconds only because a fraction of a
      nanosecond was cut off. */
  lemma RetryAfterIsEnoughIff(r: Rate, b: Bucket)
    requires r.rps > 0.0 && r.burst >= 1 && b.tokens < 1.0
    ensures var w := r.Wait(b.tokens);
            r.Refilled(b, b.last + RetryAfter(w) * 1_000_000_000) >= 1.0
            <==> w == 0 || w % 1_000_000_000 != 0 || b.tokens + r.Earned(w) == 1.0
  {
    WaitBounds(r, b.tokens);
    WaitIsTight(r, b, b.last + RetryAfter(r.Wait(b.tokens)) * 1_000_000_000);
  }

  /** Such a client exists: an empty bucket that earns its token half a nanosecond
      after one second. */
  lemma RetryAfterTooSoon()
    ensures var r, b := Rate(1.0 / 1.0000000005, 1), Bucket(0.0, 0);
            r.Wait(b.tokens) == 1_000_000_000 && RetryAfter(r.Wait(b.tokens)) == 1 && r.Refilled(b, 1_000_000_000) < 1.0
  {
  }
}
