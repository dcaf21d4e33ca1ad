/** The gateway's per-IP token buckets over any sequence of requests and purges. */
module TokenBucket {

  /** Tokens added per second, and the capacity of a bucket. */
  datatype Limits = Limits(rate: real, burst: real)

  datatype Bucket = Bucket(tokens: real, lastSeen: real)

  /** Seconds after which a purge drops an idle bucket. */
  const STALE: real := 120.0

  datatype Event = Request(ip: string, at: real) | Purge(at: real)

  type Buckets = map<string, Bucket>

  /** The most tokens a stretch of time adds. */
  function Gain(l: Limits, from: real, to: real): real {
    (to - from) * l.rate
  }

  function Refill(l: Limits, b: Bucket, now: real): real {
    var tokens := b.tokens + Gain(l, b.lastSeen, now);
    if tokens > l.burst then l.burst else tokens
  }

  /** A new IP starts with a full bucket. */
  function Found(l: Limits, m: Buckets, ip: string, now: real): Bucket {
    if ip in m then m[ip] else Bucket(l.burst, now)
  }

  function Answer(l: Limits, m: Buckets, ip: string, now: real): bool {
    Refill(l, Found(l, m, ip, now), now) >= 1.0
  }

  function Spent(l: Limits, m: Buckets, ip: string, now: real): Bucket {
    var tokens := Refill(l, Found(l, m, ip, now), now);
    Bucket(if tokens < 1.0 then tokens else tokens - 1.0, now)
  }

  function Purged(m: Buckets, now: real): Buckets {
    map ip | ip in m && !(m[ip].lastSeen < now - STALE) :: m[ip]
  }

  function After(l: Limits, m: Buckets, e: Event): Buckets {
    match e
    case Request(ip, at) => m[ip := Spent(l, m, ip, at)]
    case Purge(at) => Purged(m, at)
  }

  function Answers(l: Limits, m: Buckets, e: Event): seq<bool> {
    match e
    case Request(ip, at) => [Answer(l, m, ip, at)]
    case Purge(_) => []
  }

  function Run(l: Limits, m: Buckets, events: seq<Event>): Buckets {
    if events == [] then m else After(l, Run(l, m, events[..|events| - 1]), events[|events| - 1])
  }

  function AllAnswers(l: Limits, m: Buckets, events: seq<Event>): seq<bool> {
    if events == [] then []
    else
      var before, e := events[..|events| - 1], events[|events| - 1];
      AllAnswers(l, m, before) + Answers(l, Run(l, m, before), e)
  }

  /** The same requests, never purging. */
  function Requests(events: seq<Event>): seq<Event> {
    if events == [] then []
    else
      var before, e := events[..|events| - 1], events[|events| - 1];
      if e.Request? then Requests(before) + [e] else Requests(before)
  }

  /** Events come in the order of their times. */
  predicate Timed(events: seq<Event>) {
    forall i, j :: 0 <= i < j < |events| ==> events[i].at <= events[j].at
  }

  predicate Sensible(l: Limits) {
    l.rate >= 0.0 && l.burst >= 0.0
  }

  // ---- Tokens stay in range ----

  ghost predicate InRange(l: Limits, m: Buckets, now: real) {
    forall ip :: ip in m ==> 0.0 <= m[ip].tokens <= l.burst && m[ip].lastSeen <= now
  }

  lemma RefillInRange(l: Limits, b: Bucket, now: real)
    requires Sensible(l) && 0.0 <= b.tokens <= l.burst && b.lastSeen <= now
    ensures b.tokens <= Refill(l, b, now) <= l.burst && Refill(l, b, now) <= b.tokens + (now - b.lastSeen) * l.rate
  {
    Product(now - b.lastSeen, l.rate);
  }

  lemma Product(a: real, b: real)
    requires a >= 0.0 && b >= 0.0
    ensures a * b >= 0.0
  {
  }

  lemma StepInRange(l: Limits, m: Buckets, e: Event, now: real)
    requires Sensible(l) && InRange(l, m, now) && now <= e.at
    ensures InRange(l, After(l, m, e), e.at)
  {
    if e.Request? {
      RefillInRange(l, Found(l, m, e.ip, e.at), e.at);
    }
    hide Refill;
  }

  /** Tokens are between zero and the capacity after every run. */
  lemma {:induction false} TokensInRange(l: Limits, events: seq<Event>, now: real)
    requires Sensible(l) && Timed(events) && forall i :: 0 <= i < |events| ==> events[i].at <= now
    ensures InRange(l, Run(l, map[], events), now)
  {
    if events != [] {
      var n := |events| - 1;
      TokensInRange(l, events[..n], events[n].at);
      StepInRange(l, Run(l, map[], events[..n]), events[n], events[n].at);
    }
  }

  // ---- Purging ----

  /** The purged map has every bucket of the full one that could still matter: what is
      missing has been idle long enough. */
  ghost predicate Covers(purged: Buckets, full: Buckets, now: real) {
    && (forall ip :: ip in purged ==> ip in full && purged[ip] == full[ip])
    && (forall ip :: ip in full && ip !in purged ==> full[ip].lastSeen < now - STALE)
  }

  /** An idle bucket has refilled to capacity. */
  lemma IdleIsFull(l: Limits, b: Bucket, now: real)
    requires Sensible(l) && STALE * l.rate >= l.burst && 0.0 <= b.tokens <= l.burst && b.lastSeen < now - STALE
    ensures Refill(l, b, now) == l.burst
  {
    Product(now - b.lastSeen - STALE, l.rate);
    assert (now - b.lastSeen) * l.rate == (now - b.lastSeen - STALE) * l.rate + STALE * l.rate;
  }

  lemma NewIsFull(l: Limits, now: real)
    ensures Refill(l, Bucket(l.burst, now), now) == l.burst
  {
  }

  lemma EventKeepsCover(l: Limits, purged: Buckets, full: Buckets, e: Event, now: real)
    requires Sensible(l) && STALE * l.rate >= l.burst && Covers(purged, full, now) && InRange(l, full, now) && now <= e.at
    ensures e.Request? ==> Covers(After(l, purged, e), After(l, full, e), e.at) && Answers(l, purged, e) == Answers(l, full, e)
    ensures e.Purge? ==> Covers(After(l, purged, e), full, e.at)
  {
    if e.Request? && e.ip in full && e.ip !in purged {
      IdleIsFull(l, full[e.ip], e.at);
      NewIsFull(l, e.at);
    }
    hide Refill;
  }

  lemma Snoc(l: Limits, m: Buckets, events: seq<Event>, e: Event)
    ensures Run(l, m, events + [e]) == After(l, Run(l, m, events), e)
    ensures AllAnswers(l, m, events + [e]) == AllAnswers(l, m, events) + Answers(l, Run(l, m, events), e)
    ensures Requests(events + [e]) == if e.Request? then Requests(events) + [e] else Requests(events)
  {
    assert (events + [e])[..|events|] == events;
    hide After, Answers;
  }

  lemma NoAnswer(l: Limits, m: Buckets, e: Event)
    requires e.Purge?
    ensures Answers(l, m, e) == []
  {
  }

  /** Everything that links a run with purges to the run without. */
  ghost predicate Linked(l: Limits, events: seq<Event>, now: real) {
    && AllAnswers(l, map[], events) == AllAnswers(l, map[], Requests(events))
    && Covers(Run(l, map[], events), Run(l, map[], Requests(events)), now)
    && InRange(l, Run(l, map[], Requests(events)), now)
  }

  ghost predicate Until(events: seq<Event>, now: real) {
    Timed(events) && forall i :: 0 <= i < |events| ==> events[i].at <= now
  }

  lemma LinkedNext(l: Limits, before: seq<Event>, e: Event)
    requires Sensible(l) && STALE * l.rate >= l.burst && Linked(l, before, e.at)
    ensures Linked(l, before + [e], e.at)
  {
    var purged, full := Run(l, map[], before), Run(l, map[], Requests(before));
    EventKeepsCover(l, purged, full, e, e.at);
    Snoc(l, map[], before, e);
    Snoc(l, map[], Requests(before), e);
    if e.Request? {
      StepInRange(l, full, e, e.at);
    } else {
      NoAnswer(l, purged, e);
    }
    hide After, Answers, Run, AllAnswers, Requests, Covers, InRange;
  }

  lemma LinkedLater(l: Limits, events: seq<Event>, now: real, later: real)
    requires Linked(l, events, now) && now <= later
    ensures Linked(l, events, later)
  {
    hide Run, AllAnswers, Requests;
  }

  /** Purging at any times gives the answers of never purging, when an idle bucket
      refills within the staleness limit. */
  lemma {:induction false} PurgingIsHarmless(l: Limits, events: seq<Event>, now: real)
    requires Sensible(l) && STALE * l.rate >= l.burst && Until(events, now)
    ensures Linked(l, events, now)
    ensures AllAnswers(l, map[], events) == AllAnswers(l, map[], Requests(events))
  {
    if events != [] {
      var n := |events| - 1;
      assert events[..n] + [events[n]] == events;
      PurgingIsHarmless(l, events[..n], events[n].at);
      hide Run, AllAnswers, Requests, Linked;
      LinkedNext(l, events[..n], events[n]);
      LinkedLater(l, events, events[n].at, now);
    }
  }

  // ---- The window bound ----

  /** Requests of one IP that are let through. */
  function Allowed(l: Limits, m: Buckets, events: seq<Event>, ip: string): nat {
    if events == [] then 0
    else
      var before, e := events[..|events| - 1], events[|events| - 1];
      Allowed(l, m, before, ip) +
      if e.Request? && e.ip == ip && Answer(l, Run(l, m, before), ip, e.at) then 1 else 0
  }

  /** What the IP could take at `now`. */
  function Credit(l: Limits, m: Buckets, ip: string, now: real): real {
    Refill(l, Found(l, m, ip, now), now)
  }

  lemma GainAdds(l: Limits, start: real, mid: real, now: real)
    ensures Gain(l, start, now) == Gain(l, start, mid) + Gain(l, mid, now)
    ensures l.rate >= 0.0 && start <= now ==> Gain(l, start, now) >= 0.0
    ensures Gain(l, now, now) == 0.0
  {
    if l.rate >= 0.0 && start <= now {
      Product(now - start, l.rate);
    }
  }

  lemma CreditGrows(l: Limits, m: Buckets, ip: string, now: real, later: real)
    requires Sensible(l) && InRange(l, m, now) && now <= later
    ensures Credit(l, m, ip, later) <= Credit(l, m, ip, now) + Gain(l, now, later)
    ensures 0.0 <= Credit(l, m, ip, later) <= l.burst
  {
    Product(later - now, l.rate);
    RefillInRange(l, Found(l, m, ip, later), later);
    if ip in m {
      RefillInRange(l, m[ip], now);
      assert (later - m[ip].lastSeen) * l.rate == (later - now) * l.rate + (now - m[ip].lastSeen) * l.rate;
    }
  }

  lemma RefillNow(l: Limits, tokens: real, now: real)
    requires tokens <= l.burst
    ensures Refill(l, Bucket(tokens, now), now) == tokens
  {
    assert (now - now) * l.rate == 0.0;
  }

  lemma CreditSpent(l: Limits, m: Buckets, e: Event, ip: string)
    requires Sensible(l) && InRange(l, m, e.at) && e.Request?
    ensures Credit(l, After(l, m, e), ip, e.at) ==
              Credit(l, m, ip, e.at) - if e.ip == ip && Answer(l, m, ip, e.at) then 1.0 else 0.0
  {
    RefillInRange(l, Found(l, m, ip, e.at), e.at);
    if e.ip == ip {
      RefillNow(l, Spent(l, m, ip, e.at).tokens, e.at);
    }
    hide Refill;
  }

  lemma AllowedSnoc(l: Limits, m: Buckets, events: seq<Event>, e: Event, ip: string)
    ensures Allowed(l, m, events + [e], ip) ==
              Allowed(l, m, events, ip) + if e.Request? && e.ip == ip && Answer(l, Run(l, m, events), ip, e.at) then 1 else 0
  {
    assert (events + [e])[..|events|] == events;
    hide Answer;
  }

  ghost predicate RequestsFrom(window: seq<Event>, start: real) {
    forall i :: 0 <= i < |window| ==> window[i].Request? && start <= window[i].at
  }

  ghost predicate Bounded(l: Limits, m: Buckets, window: seq<Event>, ip: string, start: real, now: real) {
    && InRange(l, Run(l, m, window), now)
    && Allowed(l, m, window, ip) as real + Credit(l, Run(l, m, window), ip, now) <= l.burst + Gain(l, start, now)
  }

  lemma WindowNext(l: Limits, m: Buckets, before: seq<Event>, e: Event, ip: string, start: real, now: real)
    requires Sensible(l) && Bounded(l, m, before, ip, start, e.at) && e.Request? && e.at <= now
    ensures Bounded(l, m, before + [e], ip, start, now)
  {
    var mid := Run(l, m, before);
    Snoc(l, m, before, e);
    AllowedSnoc(l, m, before, e, ip);
    StepInRange(l, mid, e, e.at);
    CreditSpent(l, mid, e, ip);
    CreditGrows(l, After(l, mid, e), ip, e.at, now);
    GainAdds(l, start, e.at, now);
    hide Credit, After, Answer, Run, Allowed, Gain;
  }

  /** In any window of a run that is not purged, an IP gets at most the capacity plus
      what the window adds. */
  lemma {:induction false} WindowBound(l: Limits, m: Buckets, window: seq<Event>, ip: string, start: real, now: real)
    requires Sensible(l) && InRange(l, m, start) && Until(window, now) && start <= now && RequestsFrom(window, start)
    ensures Bounded(l, m, window, ip, start, now)
    ensures Allowed(l, m, window, ip) as real <= l.burst + Gain(l, start, now)
  {
    if window == [] {
      CreditGrows(l, m, ip, start, now);
      GainAdds(l, start, start, now);
      hide Credit, Gain;
    } else {
      var n := |window| - 1;
      assert window[..n] + [window[n]] == window;
      WindowBound(l, m, window[..n], ip, start, window[n].at);
      hide Bounded;
      WindowNext(l, m, window[..n], window[n], ip, start, now);
    }
    CreditIn(l, m, window, ip, start, now);
  }

  lemma CreditIn(l: Limits, m: Buckets, window: seq<Event>, ip: string, start: real, now: real)
    requires Sensible(l) && Bounded(l, m, window, ip, start, now)
    ensures Allowed(l, m, window, ip) as real <= l.burst + Gain(l, start, now)
  {
    CreditGrows(l, Run(l, m, window), ip, now, now);
    hide Credit, Gain, Allowed;
  }

  /** Two runs of a window, one from a purged map and with purges. */
  ghost predicate Alike(l: Limits, purged: Buckets, full: Buckets, window: seq<Event>, ip: string, now: real) {
    && Covers(Run(l, purged, window), Run(l, full, Requests(window)), now)
    && InRange(l, Run(l, full, Requests(window)), now)
    && Allowed(l, purged, window, ip) == Allowed(l, full, Requests(window), ip)
  }

  lemma AlikeNext(l: Limits, purged: Buckets, full: Buckets, before: seq<Event>, e: Event, ip: string, now: real)
    requires Sensible(l) && STALE * l.rate >= l.burst && Alike(l, purged, full, before, ip, e.at) && e.at <= now
    ensures Alike(l, purged, full, before + [e], ip, now)
  {
    var p, f := Run(l, purged, before), Run(l, full, Requests(before));
    EventKeepsCover(l, p, f, e, e.at);
    Snoc(l, purged, before, e);
    Snoc(l, full, Requests(before), e);
    AllowedSnoc(l, purged, before, e, ip);
    AllowedSnoc(l, full, Requests(before), e, ip);
    if e.Request? {
      StepInRange(l, f, e, e.at);
    }
    hide After, Answer, Run, Allowed, Requests, Covers, InRange;
    assert Alike(l, purged, full, before + [e], ip, e.at);
    AlikeLater(l, purged, full, before + [e], ip, e.at, now);
  }

  lemma AlikeLater(l: Limits, purged: Buckets, full: Buckets, window: seq<Event>, ip: string, now: real, later: real)
    requires Alike(l, purged, full, window, ip, now) && now <= later
    ensures Alike(l, purged, full, window, ip, later)
  {
    hide Run, Allowed, Requests;
  }

  lemma {:induction false} WindowsAlike(l: Limits, purged: Buckets, full: Buckets, window: seq<Event>, ip: string, start: real, now: real)
    requires Sensible(l) && STALE * l.rate >= l.burst && Covers(purged, full, start) && InRange(l, full, start)
    requires Until(window, now) && start <= now && forall i :: 0 <= i < |window| ==> start <= window[i].at
    ensures Alike(l, purged, full, window, ip, now)
  {
    if window != [] {
      var n := |window| - 1;
      assert window[..n] + [window[n]] == window;
      WindowsAlike(l, purged, full, window[..n], ip, start, window[n].at);
      hide Alike;
      AlikeNext(l, purged, full, window[..n], window[n], ip, now);
    }
  }

  lemma {:induction false} RequestsTimed(window: seq<Event>, start: real, now: real)
    requires Until(window, now) && forall i :: 0 <= i < |window| ==> start <= window[i].at
    ensures Until(Requests(window), now) && RequestsFrom(Requests(window), start)
    ensures forall e :: e in Requests(window) ==> e in window
  {
    if window != [] {
      var n := |window| - 1;
      RequestsTimed(window[..n], start, window[n].at);
    }
  }

  /** In any window of any purged run, an IP gets at most the capacity plus what the
      window adds, when an idle bucket refills within the staleness limit. */
  lemma PurgedWindowBound(l: Limits, before: seq<Event>, window: seq<Event>, ip: string, start: real, now: real)
    requires Sensible(l) && STALE * l.rate >= l.burst && Until(before, start) && Until(window, now) && start <= now
    requires forall i :: 0 <= i < |window| ==> start <= window[i].at
    ensures Allowed(l, Run(l, map[], before), window, ip) as real <= l.burst + Gain(l, start, now)
  {
    PurgingIsHarmless(l, before, start);
    var purged, full := Run(l, map[], before), Run(l, map[], Requests(before));
    WindowsAlike(l, purged, full, window, ip, start, now);
    RequestsTimed(window, start, now);
    WindowBound(l, full, Requests(window), ip, start, now);
    hide Run, Allowed, Requests, Gain, Until, RequestsFrom;
  }

  // ---- When purging is harmless ----

  /** Purging never changes an answer. */
  ghost predicate Harmless(l: Limits) {
    forall events, now :: Until(events, now) ==> AllAnswers(l, map[], events) == AllAnswers(l, map[], Requests(events))
  }

  /** A bucket that holds less than one token never lets anything through. */
  lemma {:induction false} NothingAllowed(l: Limits, events: seq<Event>)
    requires l.burst < 1.0
    ensures AllAnswers(l, map[], events) == AllAnswers(l, map[], Requests(events))
  {
    if events != [] {
      var n := |events| - 1;
      var before, e := events[..n], events[n];
      assert before + [e] == events;
      NothingAllowed(l, before);
      Snoc(l, map[], before, e);
      Snoc(l, map[], Requests(before), e);
      hide Run, AllAnswers, Requests;
    }
  }

  ghost predicate Splits(l: Limits, m: Buckets, a: seq<Event>, b: seq<Event>) {
    && Run(l, m, a + b) == Run(l, Run(l, m, a), b)
    && AllAnswers(l, m, a + b) == AllAnswers(l, m, a) + AllAnswers(l, Run(l, m, a), b)
    && Requests(a + b) == Requests(a) + Requests(b)
  }

  lemma SplitsNext(l: Limits, m: Buckets, a: seq<Event>, b: seq<Event>, e: Event)
    requires Splits(l, m, a, b)
    ensures Splits(l, m, a, b + [e])
  {
    hide After, Answers, Run, AllAnswers, Requests;
    assert a + (b + [e]) == (a + b) + [e];
    Snoc(l, m, a + b, e);
    Snoc(l, Run(l, m, a), b, e);
  }

  lemma {:induction false} Append(l: Limits, m: Buckets, a: seq<Event>, b: seq<Event>)
    ensures Splits(l, m, a, b)
  {
    if b == [] {
      assert a + b == a;
    } else {
      var n := |b| - 1;
      Append(l, m, a, b[..n]);
      assert b[..n] + [b[n]] == b;
      hide Splits;
      SplitsNext(l, m, a, b[..n], b[n]);
    }
  }

  const IP := "203.0.113.7"

  /** Whole tokens can be drained one by one. */
  lemma {:induction false} Drain(l: Limits, n: nat) returns (events: seq<Event>)
    requires Sensible(l) && 1 <= n && n as real <= l.burst
    ensures Until(events, 0.0) && Requests(events) == events
    ensures IP in Run(l, map[], events) && Run(l, map[], events)[IP] == Bucket(l.burst - n as real, 0.0)
  {
    hide Run, Requests, Refill;
    var e := Request(IP, 0.0);
    if n == 1 {
      events := [e];
      One(l, map[], 0.0);
      RefillNow(l, l.burst, 0.0);
    } else {
      var before := Drain(l, n - 1);
      events := before + [e];
      Snoc(l, map[], before, e);
      RefillNow(l, l.burst - (n - 1) as real, 0.0);
    }
  }

  /** With a positive rate an IP can be left with exactly no token. */
  lemma DrainToZero(l: Limits) returns (events: seq<Event>, at: real)
    requires Sensible(l) && l.burst >= 1.0 && l.rate > 0.0
    ensures Until(events, at) && Requests(events) == events
    ensures IP in Run(l, map[], events) && Run(l, map[], events)[IP] == Bucket(0.0, at)
  {
    hide Run, Requests, Refill;
    var n := l.burst.Floor;
    var f := l.burst - n as real;
    events := Drain(l, n);
    at := 0.0;
    if f > 0.0 {
      at := Wait(l, f);
      RefillToOne(l, f);
      var e := Request(IP, at);
      Snoc(l, map[], events, e);
      hide Wait;
      UntilAppend(events, [e], 0.0, at);
      events := events + [e];
    }
  }

  /** How long it takes to get from `tokens` to a whole one. */
  function Wait(l: Limits, tokens: real): real
    requires l.rate > 0.0
  {
    (1.0 - tokens) / l.rate
  }

  lemma WaitGains(l: Limits, tokens: real)
    requires l.rate > 0.0 && tokens < 1.0
    ensures Wait(l, tokens) > 0.0 && Wait(l, tokens) * l.rate == 1.0 - tokens
  {
  }

  lemma RefillToOne(l: Limits, tokens: real)
    requires l.rate > 0.0 && tokens < 1.0 <= l.burst
    ensures Wait(l, tokens) > 0.0 && Refill(l, Bucket(tokens, 0.0), Wait(l, tokens)) == 1.0
  {
    WaitGains(l, tokens);
    hide Wait;
  }

  /** A credit below one token is uncapped, so it grows with the time waited. */
  lemma CreditWaits(l: Limits, m: Buckets, at: real, later: real)
    requires Sensible(l) && Credit(l, m, IP, at) < 1.0 <= l.burst && at <= later
    ensures IP in m && Credit(l, m, IP, later) == Least(Credit(l, m, IP, at) + (later - at) * l.rate, l.burst)
  {
    RefillNow(l, l.burst, at);
    var b := m[IP];
    assert (later - b.lastSeen) * l.rate == (later - at) * l.rate + (at - b.lastSeen) * l.rate;
  }

  function Least(x: real, y: real): real {
    if x > y then y else x
  }

  ghost predicate Tells(l: Limits, more: Buckets, less: Buckets, at: real, tail: seq<Event>, now: real) {
    && Until(tail, now) && at <= now && (forall i :: 0 <= i < |tail| ==> tail[i].at >= at) && Requests(tail) == tail
    && AllAnswers(l, more, tail) != AllAnswers(l, less, tail)
  }

  lemma TellNow(l: Limits, more: Buckets, less: Buckets, at: real, now: real)
    requires Credit(l, less, IP, now) < 1.0 <= Credit(l, more, IP, now) && at <= now
    ensures Tells(l, more, less, at, [Request(IP, now)], now)
  {
    One(l, more, now);
    One(l, less, now);
    hide AllAnswers, Requests, Credit;
    assert AllAnswers(l, more, [Request(IP, now)])[0] && !AllAnswers(l, less, [Request(IP, now)])[0];
  }

  lemma One(l: Limits, m: Buckets, now: real)
    ensures var e := Request(IP, now);
            && AllAnswers(l, m, [e]) == [Credit(l, m, IP, now) >= 1.0] && Requests([e]) == [e] && Run(l, m, [e]) == After(l, m, e)
  {
    var e := Request(IP, now);
    assert [e][..0] == [];
    hide Refill;
  }

  lemma SameFirst(x: bool, s: seq<bool>, t: seq<bool>)
    requires s != t
    ensures [x] + s != [x] + t
  {
    assert ([x] + s)[1..] == s && ([x] + t)[1..] == t;
  }

  lemma TellAfter(l: Limits, more: Buckets, less: Buckets, at: real, tail: seq<Event>, now: real)
    requires Credit(l, less, IP, at) >= 1.0 && Credit(l, more, IP, at) >= 1.0
    requires Tells(l, After(l, more, Request(IP, at)), After(l, less, Request(IP, at)), at, tail, now)
    ensures Tells(l, more, less, at, [Request(IP, at)] + tail, now)
  {
    var e := Request(IP, at);
    hide Run, After, AllAnswers, Requests, Credit;
    One(l, more, at);
    One(l, less, at);
    Append(l, more, [e], tail);
    Append(l, less, [e], tail);
    SameFirst(true, AllAnswers(l, After(l, more, e), tail), AllAnswers(l, After(l, less, e), tail));
    assert AllAnswers(l, more, [e]) == [true] && AllAnswers(l, less, [e]) == [true];
  }

  lemma TellLater(l: Limits, more: Buckets, less: Buckets, at: real)
    requires Sensible(l) && l.rate > 0.0 && l.burst >= 1.0
    requires Credit(l, less, IP, at) < Credit(l, more, IP, at) < 1.0
    ensures var now := at + Wait(l, Credit(l, more, IP, at)); Tells(l, more, less, at, [Request(IP, now)], now)
  {
    var p := Credit(l, more, IP, at);
    var now := at + Wait(l, p);
    WaitGains(l, p);
    CreditWaits(l, more, at, now);
    CreditWaits(l, less, at, now);
    hide Credit, Wait;
    TellNow(l, more, less, at, now);
  }

  lemma CreditTaken(l: Limits, m: Buckets, at: real)
    requires 1.0 <= Credit(l, m, IP, at) <= l.burst
    ensures Credit(l, After(l, m, Request(IP, at)), IP, at) == Credit(l, m, IP, at) - 1.0
  {
    RefillNow(l, Credit(l, m, IP, at) - 1.0, at);
  }

  /** Two maps in which the IP's credit differs are told apart by requests. */
  lemma {:induction false} Tell(l: Limits, more: Buckets, less: Buckets, at: real) returns (tail: seq<Event>, now: real)
    requires Sensible(l) && l.burst >= 1.0
    requires 0.0 <= Credit(l, less, IP, at) < Credit(l, more, IP, at) <= l.burst
    requires l.rate > 0.0 || Credit(l, less, IP, at) < 1.0 <= Credit(l, more, IP, at)
    ensures Tells(l, more, less, at, tail, now)
    decreases Credit(l, more, IP, at).Floor
  {
    hide Credit, Tells, After;
    var c, p := Credit(l, less, IP, at), Credit(l, more, IP, at);
    if c < 1.0 <= p {
      TellNow(l, more, less, at, at);
      tail, now := [Request(IP, at)], at;
    } else if p >= 1.0 {
      var e := Request(IP, at);
      CreditTaken(l, more, at);
      CreditTaken(l, less, at);
      tail, now := Tell(l, After(l, more, e), After(l, less, e), at);
      TellAfter(l, more, less, at, tail, now);
      tail := [e] + tail;
    } else {
      TellLater(l, more, less, at);
      now := at + Wait(l, p);
      tail := [Request(IP, now)];
    }
  }

  /** An answer the purge changes, after a drain and an idle spell. */
  lemma PurgeShows(l: Limits) returns (events: seq<Event>, now: real)
    requires Sensible(l) && l.burst >= 1.0 && STALE * l.rate < l.burst
    ensures Until(events, now) && AllAnswers(l, map[], events) != AllAnswers(l, map[], Requests(events))
  {
    var drained, at, spell := Drained(l);
    var t := at + spell;
    var full := Run(l, map[], drained);
    var purged := Purged(full, t);
    NewIsFull(l, t);
    RefillIn(l, full[IP].tokens, at, t);
    var tail;
    tail, now := Tell(l, purged, full, t);
    hide Run, AllAnswers, Requests, Credit, Refill;
    events := AfterPurge(l, drained, at, t, tail, now);
  }

  lemma RefillIs(l: Limits, tokens: real, at: real, later: real)
    ensures Refill(l, Bucket(tokens, at), later) == Least(tokens + Gain(l, at, later), l.burst)
  {
    hide Gain;
  }

  lemma RefillIn(l: Limits, tokens: real, at: real, later: real)
    requires Sensible(l) && 0.0 <= tokens && at <= later
    ensures Refill(l, Bucket(tokens, at), later) >= 0.0
  {
    RefillIs(l, tokens, at, later);
    GainAdds(l, at, at, later);
    hide Refill, Gain;
  }

  lemma UntilAppend(a: seq<Event>, b: seq<Event>, mid: real, now: real)
    requires Until(a, mid) && Until(b, now) && mid <= now && forall i :: 0 <= i < |b| ==> b[i].at >= mid
    ensures Until(a + b, now)
  {
  }

  lemma AfterPurge(l: Limits, drained: seq<Event>, at: real, t: real, tail: seq<Event>, now: real) returns (events: seq<Event>)
    requires Until(drained, at) && Requests(drained) == drained && at <= t
    requires var full := Run(l, map[], drained); Tells(l, Purged(full, t), full, t, tail, now)
    ensures Until(events, now) && AllAnswers(l, map[], events) != AllAnswers(l, map[], Requests(events))
  {
    var full, purge := Run(l, map[], drained), Purge(t);
    hide Run, AllAnswers, Requests;
    NoAnswer(l, full, purge);
    assert After(l, full, purge) == Purged(full, t);
    hide Run, AllAnswers, Requests, After, Answers;
    UntilAppend(drained, [purge], at, t);
    UntilAppend(drained + [purge], tail, t, now);
    hide Until;
    Snoc(l, map[], drained, purge);
    events := (drained + [purge]) + tail;
    Append(l, map[], drained + [purge], tail);
    Append(l, map[], drained, tail);
    SamePrefix(AllAnswers(l, map[], drained), AllAnswers(l, Purged(full, t), tail), AllAnswers(l, full, tail));
  }

  lemma SamePrefix(p: seq<bool>, s: seq<bool>, t: seq<bool>)
    requires s != t
    ensures p + s != p + t && p + [] == p
  {
    assert (p + s)[|p|..] == s && (p + t)[|p|..] == t;
  }

  /** A drained bucket whose idle spell is too short to fill it and long enough to be
      purged. */
  lemma Drained(l: Limits) returns (events: seq<Event>, at: real, spell: real)
    requires Sensible(l) && l.burst >= 1.0 && STALE * l.rate < l.burst
    ensures Until(events, at) && Requests(events) == events && spell > STALE
    ensures var m := Run(l, map[], events);
            && IP in m && m[IP].lastSeen == at && 0.0 <= m[IP].tokens
            && Credit(l, m, IP, at + spell) < l.burst && (l.rate > 0.0 || Credit(l, m, IP, at + spell) < 1.0)
  {
    hide Run, Requests, Until;
    if l.rate > 0.0 {
      events, at := DrainToZero(l);
      spell := STALE + (l.burst - STALE * l.rate) / (2.0 * l.rate);
      SpellShort(l);
      ZeroRefill(l, at, spell);
    } else {
      var n := l.burst.Floor;
      events := Drain(l, n);
      at, spell := 0.0, STALE + 1.0;
    }
    hide Refill;
  }

  lemma ZeroRefill(l: Limits, at: real, spell: real)
    ensures spell * l.rate <= l.burst ==> Refill(l, Bucket(0.0, at), at + spell) == spell * l.rate
  {
    assert at + spell - at == spell;
  }

  lemma SpellShort(l: Limits)
    requires l.rate > 0.0 && STALE * l.rate < l.burst
    ensures var spell := STALE + (l.burst - STALE * l.rate) / (2.0 * l.rate); spell > STALE && spell * l.rate < l.burst
  {
    var d := l.burst - STALE * l.rate;
    assert d / (2.0 * l.rate) > 0.0;
    assert d / (2.0 * l.rate) * l.rate == d / 2.0;
  }

  /** Exactly when purging is harmless: a bucket that can never let anything through,
      or one that refills within the staleness limit. */
  lemma HarmlessIff(l: Limits)
    requires Sensible(l)
    ensures Harmless(l) <==> l.burst < 1.0 || STALE * l.rate >= l.burst
  {
    hide AllAnswers, Requests, Until;
    if l.burst < 1.0 {
      forall events, now | Until(events, now) ensures AllAnswers(l, map[], events) == AllAnswers(l, map[], Requests(events)) {
        NothingAllowed(l, events);
      }
    } else if STALE * l.rate >= l.burst {
      forall events, now | Until(events, now) ensures AllAnswers(l, map[], events) == AllAnswers(l, map[], Requests(events)) {
        PurgingIsHarmless(l, events, now);
      }
    } else {
      var events, now := PurgeShows(l);
    }
  }

  /** The gateway's limits: 100 requests a second, bursts of 200. */
  lemma GatewayIsHarmless()
    ensures Harmless(Limits(100.0, 200.0))
  {
    HarmlessIff(Limits(100.0, 200.0));
  }
}
