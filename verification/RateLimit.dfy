/**
 The fixed-window rate limiter: a Redis script that counts a client's requests and lets
 the counter expire. While Redis answers, the number of requests it admits in any
 interval is bounded, for every arrival order and any mix of clients.
 */
module RateLimit {
  // A client's key, and milliseconds.
  type Id = int
  type Time = int

  // INCR never leaves a zero behind.
  type Count = n: nat | n >= 1 witness 1

  datatype Counter = Counter(count: Count, expiresAt: Time)
  type Redis = map<Id, Counter>

  const SECOND: int := 1000

  // The window is configured in seconds.
  datatype Config = Config(limit: int, window: int)
  datatype Request = Request(client: Id, now: Time)

  function Span(c: Config): int {
    SECOND * c.window
  }

  // A counter still answers in the millisecond of its expiry.
  predicate Alive(redis: Redis, client: Id, now: Time) {
    client in redis && redis[client].expiresAt >= now
  }

  // The count INCR returns; an expired counter starts again.
  function CountOf(redis: Redis, r: Request): Count {
    if Alive(redis, r.client, r.now) then redis[r.client].count + 1 else 1
  }

  // RATE_LIMIT_SCRIPT. EXPIRE with a window that is not positive deletes the counter.
  function Counted(c: Config, redis: Redis, r: Request): Redis {
    var count := CountOf(redis, r);
    if count > 1 then redis[r.client := Counter(count, redis[r.client].expiresAt)]
    else if c.window > 0 then redis[r.client := Counter(1, r.now + Span(c))]
    else redis - {r.client}
  }

  // How long the counter lives after the script, in milliseconds.
  function Remaining(c: Config, redis: Redis, r: Request): int {
    var after := Counted(c, redis, r);
    if Alive(after, r.client, r.now) then after[r.client].expiresAt - r.now else 0
  }

  // TTL answers in seconds, rounded to the nearest.
  function Rounded(milliseconds: int): int {
    (milliseconds + SECOND / 2) / SECOND
  }

  // The Retry-After header.
  function RetryAfter(c: Config, redis: Redis, r: Request): int {
    Rounded(Remaining(c, redis, r))
  }

  predicate Admits(c: Config, redis: Redis, r: Request) {
    CountOf(redis, r) <= c.limit
  }

  function After(c: Config, redis: Redis, requests: seq<Request>): Redis
    decreases |requests|
  {
    if requests == [] then redis else After(c, Counted(c, redis, requests[0]), requests[1..])
  }

  // How many of the requests of a client are let through.
  function Admitted(c: Config, redis: Redis, requests: seq<Request>, client: Id): nat
    decreases |requests|
  {
    if requests == [] then 0
    else
      (if requests[0].client == client && Admits(c, redis, requests[0]) then 1 else 0)
      + Admitted(c, Counted(c, redis, requests[0]), requests[1..], client)
  }

  ghost predicate InOrder(requests: seq<Request>) {
    forall i, j | 0 <= i < j < |requests| :: requests[i].now <= requests[j].now
  }

  ghost predicate Within(requests: seq<Request>, from: Time, to: Time) {
    forall i | 0 <= i < |requests| :: from <= requests[i].now <= to
  }

  /******* The bound *******/

  // The next window begins at least this long after one.
  function Period(c: Config): int {
    Span(c) + 1
  }

  function Positive(n: int): nat {
    if n < 0 then 0 else n
  }

  // What windows that begin at time from or later can let through until end.
  function Fresh(c: Config, from: Time, end: Time): int
    requires c.window > 0
  {
    if from > end then 0 else Positive(c.limit) * ((end - from) / Period(c) + 1)
  }

  // What a client can still get through from now until end.
  function Allowance(c: Config, redis: Redis, client: Id, now: Time, end: Time): int
    requires c.window > 0
  {
    if Alive(redis, client, now)
    then Positive(c.limit - redis[client].count) + Fresh(c, redis[client].expiresAt + 1, end)
    else Fresh(c, now, end)
  }

  lemma {:induction false} FreshShrinks(c: Config, earlier: Time, later: Time, end: Time)
    requires c.window > 0 && earlier <= later
    ensures 0 <= Fresh(c, later, end) <= Fresh(c, earlier, end)
  {
    if later <= end {
      var x, y := (end - later) / Period(c) + 1, (end - earlier) / Period(c) + 1;
      QuotientGrows(end - later, end - earlier, Period(c));
      ProductGrows(Positive(c.limit), x, y);
    } else if earlier <= end {
      QuotientGrows(0, end - earlier, Period(c));
      ProductGrows(Positive(c.limit), 0, (end - earlier) / Period(c) + 1);
    }
  }

  lemma {:induction false} QuotientGrows(x: int, y: int, w: int)
    requires 0 <= x <= y && w > 0
    ensures 0 <= x / w <= y / w
  {
    var d := y / w - x / w;
    assert y - x == w * (y / w) - w * (x / w) + y % w - x % w;
    assert w * (y / w) - w * (x / w) == w * d;
    if d < 0 {
      ProductGrows(w, d, -1);
    }
  }

  lemma ProductGrows(n: nat, x: int, y: int)
    requires x <= y
    ensures n * x <= n * y
  {
  }

  // A window that begins now takes its own limit and leaves the rest to the next.
  lemma {:induction false} OneWindowTakesItsLimit(c: Config, now: Time, end: Time)
    requires c.window > 0 && now <= end
    ensures Positive(c.limit) + Fresh(c, now + Period(c), end) == Fresh(c, now, end)
  {
    var span, w, n := end - now, Period(c), Positive(c.limit);
    assert w > 0;
    hide Period;
    if span < w {
      QuotientIs(span, w, 0);
    } else {
      var q := (span - w) / w;
      assert span - w == w * q + (span - w) % w;
      assert w * (q + 1) == w * q + w;
      QuotientIs(span, w, q + 1);
      assert n * (q + 1 + 1) == n + n * (q + 1);
    }
  }

  lemma {:induction false} QuotientIs(x: int, w: int, q: int)
    requires w > 0 && w * q <= x < w * q + w
    ensures x / w == q
  {
    var d := x / w - q;
    assert x == w * (q + d) + x % w;
    assert w * (q + d) == w * q + w * d;
    if d > 0 {
      ProductGrows(w, 1, d);
    } else if d < 0 {
      ProductGrows(w, d, -1);
    }
  }

  lemma {:induction false} AllowanceShrinks(c: Config, redis: Redis, client: Id, earlier: Time, later: Time, end: Time)
    requires c.window > 0 && earlier <= later
    ensures 0 <= Allowance(c, redis, client, later, end) <= Allowance(c, redis, client, earlier, end)
  {
    FreshShrinks(c, earlier, later, end);
    if Alive(redis, client, earlier) {
      var x := redis[client].expiresAt + 1;
      FreshShrinks(c, x, x, end);
      if x <= later {
        FreshShrinks(c, x, later, end);
      }
    }
  }

  lemma {:induction false} RequestSpendsAllowance(c: Config, redis: Redis, r: Request, client: Id, end: Time)
    requires c.window > 0 && r.now <= end
    ensures (if r.client == client && Admits(c, redis, r) then 1 else 0)
            + Allowance(c, Counted(c, redis, r), client, r.now, end)
         <= Allowance(c, redis, client, r.now, end)
  {
    if r.client == client && !Alive(redis, client, r.now) {
      OneWindowTakesItsLimit(c, r.now, end);
    }
  }

  lemma {:induction false} AdmittedWithinAllowance(
    c: Config, redis: Redis, requests: seq<Request>, client: Id, from: Time, to: Time)
    requires c.window > 0 && from <= to
    requires InOrder(requests) && Within(requests, from, to)
    ensures Admitted(c, redis, requests, client) <= Allowance(c, redis, client, from, to)
    decreases |requests|
  {
    if requests == [] {
      AllowanceShrinks(c, redis, client, from, from, to);
    } else {
      var r := requests[0];
      AllowanceShrinks(c, redis, client, from, r.now, to);
      RequestSpendsAllowance(c, redis, r, client, to);
      AdmittedWithinAllowance(c, Counted(c, redis, r), requests[1..], client, r.now, to);
    }
  }

  // The limit once for every full window, and the rest of a window already under way.
  function Most(c: Config, length: nat): nat
    requires c.window > 0
  {
    QuotientGrows(0, length, Period(c));
    ProductGrows(Positive(c.limit), 0, length / Period(c) + 1);
    Positive(c.limit) * (length / Period(c) + 1) + if length % Period(c) == 0 then 0 else Positive(c.limit - 1)
  }

  // In no interval of the given length does a client get more requests through, whatever was
  // counted before it and whatever other clients do.
  lemma {:induction false} AdmittedIsBounded(
    c: Config, before: seq<Request>, requests: seq<Request>, client: Id, from: Time, length: nat)
    requires c.window > 0
    requires InOrder(requests) && Within(requests, from, from + length)
    ensures Admitted(c, After(c, map[], before), requests, client) <= Most(c, length)
    ensures Most(c, length) <= Positive(c.limit) * ((length + Span(c) - 1) / Span(c) + 1)
  {
    var redis := After(c, map[], before);
    AdmittedWithinAllowance(c, redis, requests, client, from, from + length);
    AllowanceIsAtMost(c, redis, client, from, length);
    MostIsTwoEnded(c, length);
    RoundingUpShrinks(length, Span(c));
    ProductGrows(
      Positive(c.limit), (length + Period(c) - 1) / Period(c) + 1, (length + Span(c) - 1) / Span(c) + 1);
  }

  // One window may be under way at the start; the others begin after it.
  lemma {:induction false} AllowanceIsAtMost(c: Config, redis: Redis, client: Id, from: Time, length: nat)
    requires c.window > 0
    ensures Allowance(c, redis, client, from, from + length) <= Most(c, length)
  {
    if Alive(redis, client, from) {
      FreshShrinks(c, from + 1, redis[client].expiresAt + 1, from + length);
      FreshAfterOne(c, from, length);
    }
  }

  lemma {:induction false} FreshAfterOne(c: Config, from: Time, length: nat)
    requires c.window > 0
    ensures Positive(c.limit - 1) + Fresh(c, from + 1, from + length) <= Most(c, length)
  {
    var n, q := Positive(c.limit), length / Period(c);
    if length > 0 {
      QuotientBefore(length, Period(c));
      assert from + length - (from + 1) == length - 1;
      assert n * (q + 1) == n + n * (q - 1 + 1);
    }
  }

  lemma {:induction false} QuotientBefore(x: int, w: int)
    requires x > 0 && w > 0
    ensures (x - 1) / w == if x % w == 0 then x / w - 1 else x / w
  {
    var q := x / w;
    assert x == w * q + x % w;
    assert w * (q - 1) == w * q - w;
    QuotientIs(x - 1, w, if x % w == 0 then q - 1 else q);
  }

  lemma RoundingUpShrinks(x: nat, w: int)
    requires w > 0
    ensures (x + w) / (w + 1) <= (x + w - 1) / w
  {
    var q, r := (x + w - 1) / w, (x + w) / (w + 1);
    assert x + w - 1 == w * q + (x + w - 1) % w;
    assert x + w == (w + 1) * r + (x + w) % (w + 1);
    QuotientGrows(0, x + w - 1, w);
    assert (w + 1) * (q + 1) == w * q + w + q + 1;
    if r > q {
      ProductGrows(w + 1, q + 1, r);
    }
  }

  lemma {:induction false} MostIsTwoEnded(c: Config, length: nat)
    requires c.window > 0
    ensures Most(c, length) <= Positive(c.limit) * ((length + Period(c) - 1) / Period(c) + 1)
  {
    var n, w, q := Positive(c.limit), Period(c), length / Period(c);
    assert length == w * q + length % w;
    assert w * (q + 1) == w * q + w;
    QuotientIs(length + w - 1, w, if length % w == 0 then q else q + 1);
    assert n * (q + 1 + 1) == n * (q + 1) + n;
  }

  /******* The bound is exact *******/

  function Same(client: Id, now: Time, n: nat): seq<Request> {
    if n == 0 then [] else [Request(client, now)] + Same(client, now, n - 1)
  }

  // A full limit at the start of every window.
  function Bursts(c: Config, client: Id, now: Time, windows: nat): seq<Request>
    requires c.limit >= 0
    decreases windows
  {
    if windows == 0 then []
    else Same(client, now, c.limit) + Bursts(c, client, now + Period(c), windows - 1)
  }

  lemma {:induction false} AdmittedJoin(c: Config, redis: Redis, x: seq<Request>, y: seq<Request>, client: Id)
    ensures After(c, redis, x + y) == After(c, After(c, redis, x), y)
    ensures Admitted(c, redis, x + y, client)
         == Admitted(c, redis, x, client) + Admitted(c, After(c, redis, x), y, client)
    decreases |x|
  {
    if x == [] {
      assert x + y == y;
    } else {
      assert (x + y)[1..] == x[1..] + y;
      AdmittedJoin(c, Counted(c, redis, x[0]), x[1..], y, client);
    }
  }

  // Requests that fit under the limit of a running window all pass.
  lemma {:induction false} SameFit(c: Config, redis: Redis, client: Id, now: Time, n: nat)
    requires Alive(redis, client, now) && redis[client].count + n <= c.limit
    ensures Admitted(c, redis, Same(client, now, n), client) == n
    ensures client in After(c, redis, Same(client, now, n))
    ensures After(c, redis, Same(client, now, n))[client].expiresAt == redis[client].expiresAt
    decreases n
  {
    if n > 0 {
      assert Same(client, now, n)[1..] == Same(client, now, n - 1);
      SameFit(c, Counted(c, redis, Request(client, now)), client, now, n - 1);
    }
  }

  lemma BurstFits(c: Config, redis: Redis, client: Id, now: Time)
    requires c.window > 0 && c.limit >= 1 && !Alive(redis, client, now)
    ensures Admitted(c, redis, Same(client, now, c.limit), client) == c.limit
    ensures !Alive(After(c, redis, Same(client, now, c.limit)), client, now + Period(c))
  {
    assert Same(client, now, c.limit)[1..] == Same(client, now, c.limit - 1);
    SameFit(c, Counted(c, redis, Request(client, now)), client, now, c.limit - 1);
  }

  lemma {:induction false} BurstsFit(c: Config, redis: Redis, client: Id, now: Time, windows: nat)
    requires c.window > 0 && c.limit >= 1 && !Alive(redis, client, now)
    ensures Admitted(c, redis, Bursts(c, client, now, windows), client) == c.limit * windows
    decreases windows
  {
    if windows > 0 {
      var burst, rest := Same(client, now, c.limit), Bursts(c, client, now + Period(c), windows - 1);
      BurstFits(c, redis, client, now);
      AdmittedJoin(c, redis, burst, rest, client);
      BurstsFit(c, After(c, redis, burst), client, now + Period(c), windows - 1);
      assert c.limit * windows == c.limit + c.limit * (windows - 1);
    }
  }

  ghost predicate InTime(requests: seq<Request>, from: Time, to: Time) {
    InOrder(requests) && Within(requests, from, to)
  }

  lemma InTimeJoin(x: seq<Request>, y: seq<Request>, from: Time, mid: Time, to: Time)
    requires InTime(x, from, mid) && InTime(y, mid, to) && from <= mid <= to
    ensures InTime(x + y, from, to)
  {
  }

  lemma {:induction false} SameIsInTime(client: Id, now: Time, n: nat)
    ensures InTime(Same(client, now, n), now, now)
  {
    if n > 0 {
      SameIsInTime(client, now, n - 1);
      assert InTime([Request(client, now)], now, now);
      InTimeJoin([Request(client, now)], Same(client, now, n - 1), now, now, now);
    }
  }

  lemma {:induction false} BurstsAreInTime(c: Config, client: Id, now: Time, windows: nat)
    requires c.window > 0 && c.limit >= 0 && windows > 0
    ensures InTime(Bursts(c, client, now, windows), now, now + Period(c) * (windows - 1))
    decreases windows
  {
    var burst, rest := Same(client, now, c.limit), Bursts(c, client, now + Period(c), windows - 1);
    SameIsInTime(client, now, c.limit);
    if windows > 1 {
      BurstsAreInTime(c, client, now + Period(c), windows - 1);
      assert Period(c) * (windows - 1) == Period(c) + Period(c) * (windows - 2);
      ProductGrows(Period(c), 0, windows - 2);
      hide InTime;
      Widen(burst, now, now, now + Period(c));
      InTimeJoin(burst, rest, now, now + Period(c), now + Period(c) * (windows - 1));
    } else {
      assert burst + rest == burst;
    }
  }

  lemma Widen(x: seq<Request>, from: Time, mid: Time, to: Time)
    requires InTime(x, from, mid) && mid <= to
    ensures InTime(x, from, to)
  {
  }

  // For every length some arrivals get exactly that many requests through: a window that began with
  // one early request, then a full limit at the start of each following window.
  lemma BoundIsReached(c: Config, client: Id, from: Time, length: nat)
    returns (before: seq<Request>, requests: seq<Request>)
    requires c.window > 0 && c.limit >= 1
    ensures InOrder(before + requests) && Within(requests, from, from + length)
    ensures Admitted(c, After(c, map[], before), requests, client) == Most(c, length)
  {
    if length % Period(c) == 0 {
      before, requests := [], Bursts(c, client, from, length / Period(c) + 1);
      FullWindows(c, client, from, length);
      assert before + requests == requests;
      assert After(c, map[], before) == map[];
    } else {
      var part := length % Period(c);
      before := [Request(client, from + part - Period(c))];
      requests := Same(client, from, c.limit - 1) + Bursts(c, client, from + part, length / Period(c) + 1);
      PartialWindow(c, client, from, length);
      hide After, Admitted, Same, Bursts, Most;
    }
  }

  lemma FullWindows(c: Config, client: Id, from: Time, length: nat)
    requires c.window > 0 && c.limit >= 1 && length % Period(c) == 0
    ensures length / Period(c) >= 0
    ensures InTime(Bursts(c, client, from, length / Period(c) + 1), from, from + length)
    ensures Admitted(c, map[], Bursts(c, client, from, length / Period(c) + 1), client) == Most(c, length)
  {
    QuotientGrows(0, length, Period(c));
    BurstsAreInTime(c, client, from, length / Period(c) + 1);
    BurstsFit(c, map[], client, from, length / Period(c) + 1);
  }

  lemma PartialWindow(c: Config, client: Id, from: Time, length: nat)
    requires c.window > 0 && c.limit >= 1 && length % Period(c) != 0
    ensures length / Period(c) >= 0
    ensures
      var part := length % Period(c);
      var requests := Same(client, from, c.limit - 1) + Bursts(c, client, from + part, length / Period(c) + 1);
      var redis := After(c, map[], [Request(client, from + part - Period(c))]);
      && InTime(requests, from, from + length)
      && Admitted(c, redis, requests, client) == Most(c, length)
  {
    QuotientGrows(0, length, Period(c));
    var part, windows := length % Period(c), length / Period(c) + 1;
    assert length == Period(c) * (windows - 1) + part;
    PartialIsInTime(c, client, from, part, windows);
    PartialCounts(c, client, from, part, windows);
  }

  lemma PartialIsInTime(c: Config, client: Id, from: Time, part: int, windows: nat)
    requires 0 < part < Period(c) && c.limit >= 1 && windows > 0
    ensures InTime(
              Same(client, from, c.limit - 1) + Bursts(c, client, from + part, windows),
              from, from + part + Period(c) * (windows - 1))
  {
    SameIsInTime(client, from, c.limit - 1);
    BurstsAreInTime(c, client, from + part, windows);
    hide Same, Bursts, InTime;
    ProductGrows(Period(c), 0, windows - 1);
    Widen(Same(client, from, c.limit - 1), from, from, from + part);
    InTimeJoin(
      Same(client, from, c.limit - 1), Bursts(c, client, from + part, windows),
      from, from + part, from + part + Period(c) * (windows - 1));
  }

  lemma PartialCounts(c: Config, client: Id, from: Time, part: int, windows: nat)
    requires 0 < part < Period(c) && c.limit >= 1
    ensures
      Admitted(
        c, After(c, map[], [Request(client, from + part - Period(c))]),
        Same(client, from, c.limit - 1) + Bursts(c, client, from + part, windows), client)
      == c.limit - 1 + c.limit * windows
  {
    var head, tail := Same(client, from, c.limit - 1), Bursts(c, client, from + part, windows);
    var redis := After(c, map[], [Request(client, from + part - Period(c))]);
    PartialWindowFits(c, client, from, part);
    hide Same, Bursts, After, Admitted;
    AdmittedJoin(c, redis, head, tail, client);
    BurstsFit(c, After(c, redis, head), client, from + part, windows);
  }

  lemma PartialWindowFits(c: Config, client: Id, from: Time, part: int)
    requires 0 < part < Period(c) && c.limit >= 1
    ensures
      var redis := After(c, map[], [Request(client, from + part - Period(c))]);
      && Admitted(c, redis, Same(client, from, c.limit - 1), client) == c.limit - 1
      && !Alive(After(c, redis, Same(client, from, c.limit - 1)), client, from + part)
  {
    var first := [Request(client, from + part - Period(c))];
    assert first[1..] == [];
    assert After(c, map[], first) == Counted(c, map[], first[0]);
    SameFit(c, After(c, map[], first), client, from, c.limit - 1);
  }

  /******* The Retry-After header *******/

  // A client over the limit stays rejected until its counter has expired ...
  lemma {:induction false} RejectedUntilTold(c: Config, redis: Redis, requests: seq<Request>, client: Id, until: Time)
    requires client in redis && redis[client].expiresAt == until && redis[client].count > c.limit
    requires forall i | 0 <= i < |requests| :: requests[i].now <= until
    ensures Admitted(c, redis, requests, client) == 0
    ensures client in After(c, redis, requests)
    ensures After(c, redis, requests)[client].expiresAt == until
    decreases |requests|
  {
    if requests != [] {
      RejectedUntilTold(c, Counted(c, redis, requests[0]), requests[1..], client, until);
    }
  }

  // ... and the first request after the counter's expiry is let through.
  lemma AdmittedAfterExpiry(c: Config, redis: Redis, r: Request, requests: seq<Request>, retry: Request)
    requires c.limit >= 1 && !Admits(c, redis, r)
    requires forall i | 0 <= i < |requests| :: requests[i].now <= r.now + Remaining(c, redis, r)
    requires retry.client == r.client
    ensures Remaining(c, redis, r) >= 0
    ensures Admitted(c, Counted(c, redis, r), requests, r.client) == 0
    ensures Admits(c, After(c, Counted(c, redis, r), requests), retry)
        <==> retry.now > r.now + Remaining(c, redis, r)
  {
    var redis' := Counted(c, redis, r);
    RejectedUntilTold(c, redis', requests, r.client, r.now + Remaining(c, redis, r));
    if retry.now <= r.now + Remaining(c, redis, r) {
      RejectedUntilTold(c, redis', requests + [retry], r.client, r.now + Remaining(c, redis, r));
      AdmittedJoin(c, redis', requests, [retry], r.client);
    }
  }

  // What is left of the last second decides whether the header rounds up.
  lemma RoundingUp(n: int)
    requires n >= 0
    ensures SECOND * Rounded(n) > n <==> n % SECOND >= SECOND / 2
    ensures -(SECOND / 2) < SECOND * Rounded(n) - n <= SECOND / 2
    ensures Rounded(n) > 0 <==> n >= SECOND / 2
  {
  }

  // A rejected client that retries exactly when it was told, with no request of anybody after the expiry
  // in between, is let through exactly when the remaining time was rounded up.
  lemma RetryAsToldIsAdmitted(c: Config, redis: Redis, r: Request, requests: seq<Request>, retry: Request)
    requires c.limit >= 1 && !Admits(c, redis, r)
    requires forall i | 0 <= i < |requests| :: requests[i].now <= r.now + Remaining(c, redis, r)
    requires retry.client == r.client && retry.now == r.now + SECOND * RetryAfter(c, redis, r)
    ensures Admits(c, After(c, Counted(c, redis, r), requests), retry)
        <==> Remaining(c, redis, r) % SECOND >= SECOND / 2
  {
    AdmittedAfterExpiry(c, redis, r, requests, retry);
    RoundingUp(Remaining(c, redis, r));
  }

  // With one request a minute: a second one after 57.6 seconds is told to wait 2 seconds, and is still
  // too early then; after 58 seconds it is one millisecond too early; in the last 0.4 seconds it is told
  // not to wait at all.
  lemma RetryAsToldCanFail(client: Id)
    ensures
      var c := Config(1, 60);
      var redis := After(c, map[], [Request(client, 0)]);
      forall now | now in {57600, 58000, 59600} ::
        var r := Request(client, now);
        && !Admits(c, redis, r)
        && RetryAfter(c, redis, r) == (if now == 59600 then 0 else 2)
        && !Admits(c, Counted(c, redis, r), Request(client, now + SECOND * RetryAfter(c, redis, r)))
  {
    assert [Request(client, 0)][1..] == [];
    assert After(Config(1, 60), map[], [Request(client, 0)]) == map[client := Counter(1, 60000)];
  }

  /******* rate_limit.py as it is written *******/

  class RateLimiter {
    const config: Config
    var redis: Redis

    constructor (limit: int, window: int)
      ensures redis == map[] && config == Config(limit, window)
    {
      config := Config(limit, window);
      redis := map[];
    }

    // The script: INCR, EXPIRE on the first count, TTL.
    method Eval(r: Request) returns (current: int, ttl: int)
      modifies this
      ensures redis == Counted(config, old(redis), r)
      ensures current == CountOf(old(redis), r)
      ensures (if ttl < 0 then 0 else ttl) == RetryAfter(config, old(redis), r)
    {
      if r.client in redis && redis[r.client].expiresAt < r.now {
        redis := redis - {r.client};
      }
      if r.client in redis {
        current := redis[r.client].count + 1;
        redis := redis[r.client := Counter(current, redis[r.client].expiresAt)];
      } else {
        current := 1;
        if config.window > 0 {
          redis := redis[r.client := Counter(1, r.now + SECOND * config.window)];
        }
      }
      ttl := if r.client in redis then Rounded(redis[r.client].expiresAt - r.now) else -2;
      assert redis == Counted(config, old(redis), r);
    }

    method Check(r: Request) returns (admitted: bool, remaining: nat, retryAfter: nat)
      modifies this
      ensures redis == Counted(config, old(redis), r)
      ensures admitted <==> Admits(config, old(redis), r)
      ensures remaining == Positive(config.limit - CountOf(old(redis), r))
      ensures retryAfter == RetryAfter(config, old(redis), r)
      ensures !admitted ==> remaining == 0
      ensures !admitted && config.limit >= 1 ==>
                (retryAfter > 0 <==> Remaining(config, old(redis), r) >= SECOND / 2)
    {
      var count, ttl := Eval(r);
      retryAfter := if ttl < 0 then 0 else ttl;
      remaining := if config.limit - count < 0 then 0 else config.limit - count;
      admitted := count <= config.limit;
    }
  }
}
