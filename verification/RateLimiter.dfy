/**
 * The live activity feed: a fixed-window counter per market decides which events go out, and a map
 * from markets to sockets decides who gets them. Times are whole milliseconds, as `Date.now()` gives.
 */
module RateLimiterSpec {
  const RATE_LIMIT: nat := 20
  const WINDOW_MS: int := 1000

  datatype Entry = Entry(count: nat, resetAt: int)

  type Counts = map<string, Entry>

  datatype Event = Event(market: string, now: int)

  /** The counter in force, which is a new one when there is none or its window is over. */
  function Current(counts: Counts, market: string, now: int): Entry {
    if market !in counts || now >= counts[market].resetAt then Entry(0, now + WINDOW_MS) else counts[market]
  }

  predicate Admits(counts: Counts, e: Event) {
    Current(counts, e.market, e.now).count < RATE_LIMIT
  }

  function Step(counts: Counts, e: Event): Counts {
    var entry := Current(counts, e.market, e.now);
    counts[e.market := if entry.count >= RATE_LIMIT then entry else entry.(count := entry.count + 1)]
  }

  /** The counters after a run. */
  function After(events: seq<Event>): Counts {
    if events == [] then map[] else Step(After(Init(events)), Last(events))
  }

  function Init(events: seq<Event>): seq<Event>
    requires events != []
  {
    events[..|events| - 1]
  }

  function Last(events: seq<Event>): Event
    requires events != []
  {
    events[|events| - 1]
  }

  predicate Ordered(events: seq<Event>) {
    forall i, j :: 0 <= i < j < |events| ==> events[i].now <= events[j].now
  }

  /** How many events of a market a run lets through at times in [from, to). */
  function Admitted(events: seq<Event>, market: string, from: int, to: int): nat {
    if events == [] then 0
    else
      var e, before := Last(events), Init(events);
      Admitted(before, market, from, to)
      + if e.market == market && from <= e.now < to && Admits(After(before), e) then 1 else 0
  }

  /** How many it lets through from a time on. */
  function Since(events: seq<Event>, market: string, from: int): nat {
    if events == [] then 0
    else
      var e, before := Last(events), Init(events);
      Since(before, market, from)
      + if e.market == market && from <= e.now && Admits(After(before), e) then 1 else 0
  }
}

module RateLimiterRuns {
  import opened RateLimiterSpec

  lemma {:induction false} SinceAntitone(events: seq<Event>, market: string, a: int, b: int)
    requires a <= b
    ensures Since(events, market, b) <= Since(events, market, a)
  {
    if events != [] {
      SinceAntitone(Init(events), market, a, b);
    }
  }

  lemma {:induction false} AdmittedWithinSince(events: seq<Event>, market: string, from: int, to: int)
    ensures Admitted(events, market, from, to) <= Since(events, market, from)
  {
    if events != [] {
      AdmittedWithinSince(Init(events), market, from, to);
    }
  }

  /**
   * What the counter of a market knows: it counts exactly what its window let through, beginning with
   * the event that opened it, and the second before the window let through at most 19 more.
   */
  ghost predicate CounterOk(events: seq<Event>, market: string) {
    var counts := After(events);
    if market in counts then
      var entry := counts[market];
      var start := entry.resetAt - WINDOW_MS;
      && 1 <= entry.count <= RATE_LIMIT
      && Since(events, market, start) == entry.count
      && Since(events, market, start + 1) < entry.count
      && Since(events, market, entry.resetAt) == 0
      && Since(events, market, start - WINDOW_MS + 1) < RATE_LIMIT + entry.count
      && events != [] && start <= Last(events).now
    else
      forall from :: Since(events, market, from) == 0
  }

  /** The counter survives one more event: of another market, in the same window, or in a new one. */
  lemma CounterStep(events: seq<Event>, market: string)
    requires events != [] && Ordered(events)
    requires CounterOk(Init(events), market)
    ensures CounterOk(events, market)
  {
    var before, e := Init(events), Last(events);
    var counts := After(before);
    if e.market == market && (market !in counts || e.now >= counts[market].resetAt) {
      assert Since(before, market, e.now) == 0 && Since(before, market, e.now + 1) == 0
          && Since(before, market, e.now + WINDOW_MS) == 0
          && Since(before, market, e.now - WINDOW_MS + 1) < RATE_LIMIT by {
        if market in counts {
          var entry := counts[market];
          SinceAntitone(before, market, entry.resetAt, e.now);
          SinceAntitone(before, market, entry.resetAt, e.now + 1);
          SinceAntitone(before, market, entry.resetAt, e.now + WINDOW_MS);
          SinceAntitone(before, market, entry.resetAt - WINDOW_MS + 1, e.now - WINDOW_MS + 1);
        }
      }
    } else if e.market == market {
      assert before != [] && before[|before| - 1] == events[|events| - 2];
    }
  }

  lemma {:induction false} CounterAlwaysOk(events: seq<Event>, market: string)
    requires Ordered(events)
    ensures CounterOk(events, market)
  {
    if events != [] {
      CounterAlwaysOk(Init(events), market);
      CounterStep(events, market);
    }
  }

  /** A counter window lets through what its counter says, never more than 20. */
  lemma WindowAdmitsAtMostLimit(events: seq<Event>, market: string, entry: Entry)
    requires Ordered(events) && market in After(events) && entry == After(events)[market]
    ensures Since(events, market, entry.resetAt - WINDOW_MS) == entry.count
    ensures entry.count <= RATE_LIMIT
  {
    CounterAlwaysOk(events, market);
  }

  /** Any one-second interval lets through at most 39 events of a market: twice the limit less one. */
  lemma {:induction false} AnySecondAdmitsAtMost39(events: seq<Event>, market: string, t: int)
    requires Ordered(events)
    ensures Admitted(events, market, t, t + WINDOW_MS) <= 2 * RATE_LIMIT - 1
  {
    if events != [] {
      var e := Last(events);
      AnySecondAdmitsAtMost39(Init(events), market, t);
      if e.market == market && e.now < t + WINDOW_MS {
        CounterAlwaysOk(events, market);
        var start := After(events)[market].resetAt - WINDOW_MS;
        SinceAntitone(events, market, start - WINDOW_MS + 1, t);
        AdmittedWithinSince(events, market, t, t + WINDOW_MS);
      }
    }
  }

  function Burst(market: string, now: int, n: nat): seq<Event> {
    if n == 0 then [] else Burst(market, now, n - 1) + [Event(market, now)]
  }

  /** One more event that fits its window is let through. */
  lemma OneAdmitted(events: seq<Event>, e: Event, from: int, to: int)
    requires from <= e.now < to && Current(After(events), e.market, e.now).count < RATE_LIMIT
    ensures Admitted(events + [e], e.market, from, to) == Admitted(events, e.market, from, to) + 1
    ensures e.market in After(events + [e])
    ensures var entry := Current(After(events), e.market, e.now);
      After(events + [e])[e.market] == Entry(entry.count + 1, entry.resetAt)
  {
    assert Init(events + [e]) == events && Last(events + [e]) == e;
  }

  /** A burst that fits its window is let through whole. */
  lemma {:induction false} BurstAdmitted(events: seq<Event>, market: string, now: int, n: nat, from: int, to: int)
    requires from <= now < to && n > 0
    requires Current(After(events), market, now).count + n <= RATE_LIMIT
    ensures Admitted(events + Burst(market, now, n), market, from, to) == Admitted(events, market, from, to) + n
    ensures var entry := Current(After(events), market, now);
      && market in After(events + Burst(market, now, n))
      && After(events + Burst(market, now, n))[market] == Entry(entry.count + n, entry.resetAt)
  {
    var e, before := Event(market, now), events + Burst(market, now, n - 1);
    assert events + Burst(market, now, n) == before + [e];
    if n > 1 {
      BurstAdmitted(events, market, now, n - 1, from, to);
    } else {
      assert before == events;
    }
    OneAdmitted(before, e, from, to);
  }

  /** The bound is met: 39 events in the second that begins at 999, around the edge of two windows. */
  lemma BoundIsMet(market: string) returns (events: seq<Event>)
    ensures Ordered(events)
    ensures Admitted(events, market, 999, 999 + WINDOW_MS) == 2 * RATE_LIMIT - 1
  {
    var first := [Event(market, 0)];
    assert Init(first) == [] && After(first) == map[market := Entry(1, WINDOW_MS)];
    var second := first + Burst(market, 999, 19);
    BurstAdmitted(first, market, 999, 19, 999, 1999);
    events := second + Burst(market, 1000, 20);
    BurstAdmitted(second, market, 1000, 20, 999, 1999);
    TwoBurstsOrdered(market, 999, 19, 1000, 20);
  }

  lemma TwoBurstsOrdered(market: string, a: int, m: nat, b: int, n: nat)
    requires 0 <= a <= b
    ensures Ordered([Event(market, 0)] + Burst(market, a, m) + Burst(market, b, n))
  {
    BurstTimes(market, a, m);
    BurstTimes(market, b, n);
  }

  lemma {:induction false} BurstTimes(market: string, now: int, n: nat)
    ensures |Burst(market, now, n)| == n
    ensures forall e <- Burst(market, now, n) :: e.now == now
  {
    if n > 0 {
      BurstTimes(market, now, n - 1);
    }
  }

  /** An event is refused only when the second that ends with it already let 20 through. */
  lemma RefusedOnlyWhenFull(events: seq<Event>, e: Event)
    requires Ordered(events + [e]) && !Admits(After(events), e)
    ensures Since(events, e.market, e.now - WINDOW_MS + 1) >= RATE_LIMIT
  {
    assert (events + [e])[..|events|] == events;
    assert Ordered(events) by {
      forall i, j | 0 <= i < j < |events| ensures events[i].now <= events[j].now {
        assert (events + [e])[i].now <= (events + [e])[j].now;
      }
    }
    CounterAlwaysOk(events, e.market);
    var entry := After(events)[e.market];
    SinceAntitone(events, e.market, e.now - WINDOW_MS + 1, entry.resetAt - WINDOW_MS);
  }

  /** The events of one market. */
  function Only(events: seq<Event>, market: string): seq<Event> {
    if events == [] then []
    else Only(Init(events), market) + if Last(events).market == market then [Last(events)] else []
  }

  /** A market's counter and its admitted events depend on its own events alone. */
  lemma {:induction false} MarketsIndependent(events: seq<Event>, market: string, from: int, to: int)
    ensures market in After(events) <==> market in After(Only(events, market))
    ensures market in After(events) ==> After(events)[market] == After(Only(events, market))[market]
    ensures Admitted(events, market, from, to) == Admitted(Only(events, market), market, from, to)
  {
    if events != [] {
      MarketsIndependent(Init(events), market, from, to);
      if Last(events).market == market {
        var own := Only(events, market);
        assert Init(own) == Only(Init(events), market) && Last(own) == Last(events);
      } else {
        assert Only(events, market) == Only(Init(events), market);
      }
    }
  }
}

/** Who is subscribed to what. */
module SubscriptionSpec {
  type Socket = nat
  type Subscriptions = map<string, set<Socket>>

  /** A client message: a subscription request, or anything else. */
  datatype Message = Subscribe(market: string) | Other

  datatype FeedStep =
    | Connect(socket: Socket, tokenOk: bool)
    | Receive(socket: Socket, message: Message)
    | Close(socket: Socket)

  datatype Feed = Feed(subscriptions: Subscriptions, authenticated: set<Socket>)

  function Subscribers(subs: Subscriptions, market: string): set<Socket> {
    if market in subs then subs[market] else {}
  }

  function Added(subs: Subscriptions, market: string, socket: Socket): Subscriptions {
    subs[market := Subscribers(subs, market) + {socket}]
  }

  /** The socket is taken out of every set, and sets left empty are dropped. */
  function Removed(subs: Subscriptions, socket: Socket): Subscriptions {
    map market | market in subs && subs[market] - {socket} != {} :: subs[market] - {socket}
  }

  function Apply(feed: Feed, step: FeedStep): Feed {
    match step
    case Connect(socket, tokenOk) =>
      if tokenOk then feed.(authenticated := feed.authenticated + {socket}) else feed
    case Receive(socket, message) =>
      if socket in feed.authenticated && message.Subscribe? then
        feed.(subscriptions := Added(feed.subscriptions, message.market, socket))
      else feed
    case Close(socket) => feed.(subscriptions := Removed(feed.subscriptions, socket))
  }

  function Run(steps: seq<FeedStep>): Feed {
    if steps == [] then Feed(map[], {}) else Apply(Run(steps[..|steps| - 1]), steps[|steps| - 1])
  }
}

module SubscriptionRuns {
  import opened SubscriptionSpec

  ghost predicate Accepted(steps: seq<FeedStep>, socket: Socket, before: nat) {
    exists j :: 0 <= j < before && j < |steps| && steps[j] == Connect(socket, true)
  }

  /** The socket asked for the market after it was accepted and has not closed since. */
  ghost predicate Listening(steps: seq<FeedStep>, socket: Socket, market: string) {
    exists i :: 0 <= i < |steps| && AskedAt(steps, socket, market, i)
  }

  ghost predicate AskedAt(steps: seq<FeedStep>, socket: Socket, market: string, i: nat)
    requires i < |steps|
  {
    && steps[i] == Receive(socket, Subscribe(market))
    && Accepted(steps, socket, i)
    && forall k :: i < k < |steps| ==> steps[k] != Close(socket)
  }

  lemma {:induction false} AuthenticatedIff(steps: seq<FeedStep>, socket: Socket)
    ensures socket in Run(steps).authenticated <==> Accepted(steps, socket, |steps|)
  {
    if steps != [] {
      var init := steps[..|steps| - 1];
      AuthenticatedIff(init, socket);
      assert forall j :: 0 <= j < |init| ==> init[j] == steps[j];
      if steps[|steps| - 1] == Connect(socket, true) {
        assert Accepted(steps, socket, |steps|);
      }
      if Accepted(init, socket, |init|) {
        assert Accepted(steps, socket, |steps|);
      }
    }
  }

  /** How listening changes with one more step. */
  lemma ListeningStep(steps: seq<FeedStep>, socket: Socket, market: string)
    requires steps != []
    ensures var init, last := steps[..|steps| - 1], steps[|steps| - 1];
      Listening(steps, socket, market) <==>
        || (last == Receive(socket, Subscribe(market)) && Accepted(init, socket, |init|))
        || (last != Close(socket) && Listening(init, socket, market))
  {
    var n := |steps| - 1;
    var init, last := steps[..n], steps[n];
    forall i: nat | i < n
      ensures Accepted(init, socket, i) <==> Accepted(steps, socket, i)
      ensures AskedAt(steps, socket, market, i) <==> last != Close(socket) && AskedAt(init, socket, market, i)
    {
      AcceptedInPrefix(steps, socket, i);
      assert AskedAt(steps, socket, market, i) ==> steps[n] != Close(socket);
      assert forall k :: i < k < n ==> steps[k] == init[k];
    }
    AcceptedInPrefix(steps, socket, n);
    assert AskedAt(steps, socket, market, n)
       <==> last == Receive(socket, Subscribe(market)) && Accepted(init, socket, n);
  }

  lemma AcceptedInPrefix(steps: seq<FeedStep>, socket: Socket, i: nat)
    requires steps != [] && i < |steps|
    ensures Accepted(steps[..|steps| - 1], socket, i) <==> Accepted(steps, socket, i)
  {
    var init := steps[..|steps| - 1];
    assert forall j :: 0 <= j < |init| ==> init[j] == steps[j];
  }

  /**
   * After any run a market's subscribers are exactly the sockets that were accepted, then asked for
   * the market, and did not close since; and no market is kept with nobody listening.
   */
  lemma {:induction false} SubscribedIffListening(steps: seq<FeedStep>, socket: Socket, market: string)
    ensures socket in Subscribers(Run(steps).subscriptions, market) <==> Listening(steps, socket, market)
    ensures market in Run(steps).subscriptions ==> Run(steps).subscriptions[market] != {}
  {
    if steps != [] {
      var init := steps[..|steps| - 1];
      SubscribedIffListening(init, socket, market);
      ListeningStep(steps, socket, market);
      AuthenticatedIff(init, socket);
    }
  }
}

module ActivityFeedServer {
  import opened RateLimiterSpec
  import opened SubscriptionSpec

  class MarketRateLimiter {
    var counts: Counts

    constructor ()
      ensures counts == After([])
    {
      counts := map[];
    }

    method Allow(market: string, now: int) returns (ok: bool)
      modifies this
      ensures counts == Step(old(counts), Event(market, now))
      ensures ok == Admits(old(counts), Event(market, now))
    {
      if market !in counts || now >= counts[market].resetAt {
        counts := counts[market := Entry(0, now + WINDOW_MS)];
      }
      var entry := counts[market];
      if entry.count >= RATE_LIMIT {
        return false;
      }
      counts := counts[market := entry.(count := entry.count + 1)];
      return true;
    }
  }

  class ActivityFeed {
    var subscriptions: Subscriptions
    var authenticated: set<Socket>
    const rateLimiter: MarketRateLimiter

    ghost function State(): Feed
      reads this
    {
      Feed(subscriptions, authenticated)
    }

    constructor ()
      ensures State() == Run([]) && fresh(rateLimiter) && rateLimiter.counts == After([])
    {
      subscriptions, authenticated := map[], {};
      rateLimiter := new MarketRateLimiter();
    }

    method OnConnection(socket: Socket, tokenOk: bool) returns (accepted: bool)
      modifies this
      ensures accepted == tokenOk && State() == Apply(old(State()), Connect(socket, tokenOk))
    {
      if !tokenOk {
        return false;
      }
      authenticated := authenticated + {socket};
      return true;
    }

    method HandleMessage(socket: Socket, message: Message)
      modifies this
      ensures State() == Apply(old(State()), Receive(socket, message))
    {
      if socket !in authenticated {
        return;
      }
      match message
      case Other =>
      case Subscribe(market) =>
        if market !in subscriptions {
          subscriptions := subscriptions[market := {}];
        }
        subscriptions := subscriptions[market := subscriptions[market] + {socket}];
    }

    method RemoveSocket(socket: Socket)
      modifies this
      ensures State() == Apply(old(State()), Close(socket))
    {
      var todo := subscriptions.Keys;
      while todo != {}
        invariant authenticated == old(authenticated)
        invariant todo <= old(subscriptions).Keys
        invariant forall market :: market in todo ==> market in subscriptions
        invariant forall market :: market in subscriptions ==> market in old(subscriptions)
        invariant forall market :: market in todo ==> subscriptions[market] == old(subscriptions)[market]
        invariant forall market :: market in old(subscriptions) && market !in todo ==>
          var left := old(subscriptions)[market] - {socket};
          if left == {} then market !in subscriptions else market in subscriptions && subscriptions[market] == left
      {
        var market :| market in todo;
        var left := subscriptions[market] - {socket};
        subscriptions := if left == {} then subscriptions - {market} else subscriptions[market := left];
        todo := todo - {market};
      }
      assert subscriptions == Removed(old(subscriptions), socket);
    }

    /** Returns the sockets written to; `open` are those whose connection is up. */
    method Publish(market: string, now: int, open: set<Socket>) returns (sent: set<Socket>)
      modifies rateLimiter
      ensures rateLimiter.counts == Step(old(rateLimiter.counts), Event(market, now))
      ensures sent == if Admits(old(rateLimiter.counts), Event(market, now))
                      then Subscribers(subscriptions, market) * open else {}
    {
      var ok := rateLimiter.Allow(market, now);
      if !ok || market !in subscriptions {
        return {};
      }
      sent := {};
      var todo := subscriptions[market];
      while todo != {}
        invariant todo <= subscriptions[market]
        invariant sent == (subscriptions[market] - todo) * open
      {
        var socket :| socket in todo;
        if socket in open {
          sent := sent + {socket};
        }
        todo := todo - {socket};
      }
    }
  }
}
