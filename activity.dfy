/** The live activity panel (next-frontend/components/RealTimeActivity.tsx):
    a feed of at most ten recent events that a timer extends every three
    seconds while a tenant is loaded, a visitor counter that never drops
    below 200, and the relative time shown next to each event. */
module Activity {
  import opened Wrappers
  import opened Strings
  import TenantContext

  /** The `type` of an event (`RealTimeActivity` in next-frontend/types/tenant.ts). */
  datatype Kind = Pageview | Session | Conversion

  /** One event; `timestamp` is in milliseconds since the epoch. */
  datatype Event = Event(id: string, kind: Kind, page: string, location: string, timestamp: int)

  /** How many events the feed shows. */
  const FeedCapacity: nat := 10

  /** The visitor counter's starting value and its floor. */
  const InitialLiveCount: int := 247
  const LiveCountFloor: int := 200

  const Pages: seq<string> := ["/", "/blog", "/about", "/pricing", "/features", "/contact", "/docs"]

  const Locations: seq<string> := [
    "San Francisco, US", "Paris, FR", "Sydney, AU", "Toronto, CA",
    "Amsterdam, NL", "Singapore, SG", "Stockholm, SE", "Dublin, IE"
  ]

  /** `mockActivities`, for the clock reading `t0` taken when they are built:
      six events, fifteen seconds apart, newest first. */
  function MockActivities(t0: int): (feed: seq<Event>)
    ensures |feed| == 6
    ensures forall k :: 0 <= k < |feed| ==> feed[k].timestamp == t0 - 15000 * k
    ensures forall k :: 0 <= k < |feed| ==> feed[k].id == NatToString(k + 1)
  {
    [
      Event("1", Pageview, "/", "New York, US", t0),
      Event("2", Session, "/blog", "London, UK", t0 - 15000),
      Event("3", Pageview, "/about", "Tokyo, JP", t0 - 30000),
      Event("4", Pageview, "/pricing", "Berlin, DE", t0 - 45000),
      Event("5", Session, "/features", "Toronto, CA", t0 - 60000),
      Event("6", Pageview, "/contact", "Sydney, AU", t0 - 75000)
    ]
  }

  // ---------------------------------------------------------------------------
  // One tick of the timer

  /** The four `Math.random()` draws of a tick, in the order the code makes them. */
  datatype TickDraws = TickDraws(kind: real, page: real, location: real, count: real)

  predicate ValidDraws(d: TickDraws) {
    && 0.0 <= d.kind < 1.0 && 0.0 <= d.page < 1.0
    && 0.0 <= d.location < 1.0 && 0.0 <= d.count < 1.0
  }

  /** The event a tick generates at clock reading `nowMs`: a session three
      times in ten, otherwise a page view, on a drawn page and location. */
  function NewEvent(nowMs: nat, d: TickDraws): (e: Event)
    requires ValidDraws(d)
    ensures e.id == NatToString(nowMs) && e.timestamp == nowMs
    ensures e.kind == Session <==> d.kind > 0.7
    ensures e.kind != Conversion
    ensures e.page in Pages && e.location in Locations
  {
    Event(NatToString(nowMs), if d.kind > 0.7 then Session else Pageview,
          Pages[Pick(d.page, |Pages|)], Locations[Pick(d.location, |Locations|)], nowMs)
  }

  /** The list is keyed by event id. Ticks at different clock readings give
      different ids, and a tick after the sixth millisecond of the epoch never
      reuses the id of a mock event. */
  lemma TickIdsDistinct(m: nat, n: nat, d1: TickDraws, d2: TickDraws, t0: int)
    requires ValidDraws(d1) && ValidDraws(d2)
    ensures m != n ==> NewEvent(m, d1).id != NewEvent(n, d2).id
    ensures m > 6 ==> forall k :: 0 <= k < 6 ==> NewEvent(m, d1).id != MockActivities(t0)[k].id
  {
    if m != n && NewEvent(m, d1).id == NewEvent(n, d2).id {
      NatToStringInjective(m, n);
    }
    forall k | 0 <= k < 6
      ensures m > 6 ==> NewEvent(m, d1).id != MockActivities(t0)[k].id
    {
      if m > 6 && NewEvent(m, d1).id == MockActivities(t0)[k].id {
        NatToStringInjective(m, k + 1);
      }
    }
  }

  /** `[item, ...feed.slice(0, 9)]`: the new event first, then the newest nine
      of the old feed, in their order. */
  function PushBounded(feed: seq<Event>, item: Event): (r: seq<Event>)
    ensures |r| == if |feed| + 1 <= FeedCapacity then |feed| + 1 else FeedCapacity
    ensures r[0] == item
    ensures r[1..] <= feed
  {
    [item] + feed[..if |feed| <= FeedCapacity - 1 then |feed| else FeedCapacity - 1]
  }

  /** `Math.floor(Math.random() * 6) - 2`: the counter's change before the floor. */
  function Step(r: real): (delta: int)
    requires 0.0 <= r < 1.0
    ensures -2 <= delta <= 3
  {
    Pick(r, 6) - 2
  }

  /** `Math.max(200, prev + step)`. */
  function NextLiveCount(prev: int, r: real): (n: int)
    requires 0.0 <= r < 1.0
    ensures n >= LiveCountFloor && n >= prev + Step(r)
    ensures n == LiveCountFloor || n == prev + Step(r)
  {
    if prev + Step(r) > LiveCountFloor then prev + Step(r) else LiveCountFloor
  }

  /** The panel's state. */
  class ActivityFeed {
    var activities: seq<Event>
    var liveCount: int

    ghost predicate Valid()
      reads this
    {
      |activities| <= FeedCapacity && liveCount >= LiveCountFloor
    }

    /** The initial state: the mock events and 247 visitors. */
    constructor(t0: int)
      ensures Valid()
      ensures activities == MockActivities(t0) && liveCount == InitialLiveCount
    {
      activities := MockActivities(t0);
      liveCount := InitialLiveCount;
    }

    /** One firing of the timer. The timer is only set while the context has a
        current tenant: without one a tick changes nothing. */
    method Tick(tenant: Option<TenantContext.ClientTenant>, nowMs: nat, d: TickDraws)
      requires Valid() && ValidDraws(d)
      modifies this
      ensures Valid()
      ensures tenant.None? ==> activities == old(activities) && liveCount == old(liveCount)
      ensures tenant.Some? ==>
        && activities == PushBounded(old(activities), NewEvent(nowMs, d))
        && liveCount == NextLiveCount(old(liveCount), d.count)
    {
      if tenant.None? {
        return;
      }
      var event := NewEvent(nowMs, d);
      var kept := if |activities| <= FeedCapacity - 1 then |activities| else FeedCapacity - 1;
      activities := [event] + activities[..kept];
      var next := liveCount + Step(d.count);
      if next < LiveCountFloor {
        next := LiveCountFloor;
      }
      liveCount := next;
    }
  }

  // ---------------------------------------------------------------------------
  // Many ticks

  /** The feed after pushing `items` one after another. */
  function FeedAfter(feed: seq<Event>, items: seq<Event>): (r: seq<Event>)
    decreases |items|
  {
    if |items| == 0 then feed else PushBounded(FeedAfter(feed, items[..|items| - 1]), items[|items| - 1])
  }

  /** The feed shows the pushed events newest first, and once ten have been
      pushed nothing of the starting feed is left. */
  lemma {:induction false} FeedShowsNewestFirst(feed: seq<Event>, items: seq<Event>)
    requires |feed| <= FeedCapacity
    ensures var r := FeedAfter(feed, items);
      && |r| == (if |feed| + |items| <= FeedCapacity then |feed| + |items| else FeedCapacity)
      && forall k :: 0 <= k < |r| && k < |items| ==> r[k] == items[|items| - 1 - k]
    ensures |items| >= FeedCapacity ==> |FeedAfter(feed, items)| == FeedCapacity
    decreases |items|
  {
    if |items| > 0 {
      var init := items[..|items| - 1];
      FeedShowsNewestFirst(feed, init);
      var before := FeedAfter(feed, init);
      var r := FeedAfter(feed, items);
      assert r == PushBounded(before, items[|items| - 1]);
      forall k | 0 <= k < |r| && k < |items|
        ensures r[k] == items[|items| - 1 - k]
      {
        if k > 0 {
          assert r[k] == r[1..][k - 1] == before[k - 1];
          assert before[k - 1] == init[|init| - 1 - (k - 1)];
        }
      }
    }
  }

  /** The counter after one tick per draw. */
  function CountAfter(prev: int, draws: seq<real>): int
    requires forall k :: 0 <= k < |draws| ==> 0.0 <= draws[k] < 1.0
    decreases |draws|
  {
    if |draws| == 0 then prev
    else NextLiveCount(CountAfter(prev, draws[..|draws| - 1]), draws[|draws| - 1])
  }

  /** Over `n` ticks the counter never falls below 200, from a valid start,
      and gains at most three per tick. */
  lemma {:induction false} CountStaysBounded(prev: int, draws: seq<real>)
    requires prev >= LiveCountFloor
    requires forall k :: 0 <= k < |draws| ==> 0.0 <= draws[k] < 1.0
    ensures LiveCountFloor <= CountAfter(prev, draws) <= prev + 3 * |draws|
    decreases |draws|
  {
    if |draws| > 0 {
      CountStaysBounded(prev, draws[..|draws| - 1]);
    }
  }

  // ---------------------------------------------------------------------------
  // Presentation

  /** `getActivityColor`: sessions in the theme's secondary colour, every other
      kind, conversions included, in its primary colour. */
  function ActivityColor(kind: Kind, theme: TenantContext.Theme): (c: string)
    ensures kind == Session ==> c == theme.secondary
    ensures kind != Session ==> c == theme.primary
  {
    match kind
    case Pageview => theme.primary
    case Session => theme.secondary
    case Conversion => theme.primary
  }

  /** `formatTimeAgo` at clock reading `nowMs` for an event at `timestamp`:
      whole seconds, then whole minutes, then whole hours, each step a floor
      of the previous one. */
  function FormatTimeAgo(nowMs: int, timestamp: int): (s: string)
    ensures var elapsed := nowMs - timestamp;
      && (elapsed < 60000 ==> s == IntToString(elapsed / 1000) + "s ago")
      && (60000 <= elapsed < 3600000 ==> s == IntToString(elapsed / 60000) + "m ago")
      && (3600000 <= elapsed ==> s == IntToString(elapsed / 3600000) + "h ago")
  {
    var seconds := (nowMs - timestamp) / 1000;
    if seconds < 60 then IntToString(seconds) + "s ago"
    else
      var minutes := seconds / 60;
      if minutes < 60 then IntToString(minutes) + "m ago"
      else
        var hours := minutes / 60;
        FloorsCompose(nowMs - timestamp);
        IntToString(hours) + "h ago"
  }

  /** Flooring by 1000 and then by 60 is flooring by 60000, and once more by 60
      flooring by 3600000. */
  lemma FloorsCompose(ms: int)
    ensures ms / 1000 / 60 == ms / 60000
    ensures ms / 1000 / 60 / 60 == ms / 3600000
  {
  }

  /** The number shown is below 60 for seconds and minutes, and each unit is
      used from its first whole step: 60 s reads "1m ago", 60 min "1h ago". */
  lemma UnitBoundaries(nowMs: int)
    ensures FormatTimeAgo(nowMs, nowMs - 59999) == IntToString(59) + "s ago"
    ensures FormatTimeAgo(nowMs, nowMs - 60000) == IntToString(1) + "m ago"
    ensures FormatTimeAgo(nowMs, nowMs - 3599999) == IntToString(59) + "m ago"
    ensures FormatTimeAgo(nowMs, nowMs - 3600000) == IntToString(1) + "h ago"
  {
  }

  /** An event stamped in the future, as a clock skew can produce, reads as a
      negative number of seconds. */
  lemma FutureEventsReadNegative(nowMs: int)
    ensures FormatTimeAgo(nowMs, nowMs + 5000) == "-5s ago"
  {
  }
}
