/** The community section: mocked Discord stats that drift on a timer, the
    Discord widget's recent-activity list, testimonial cards and the
    upcoming-events cards with their "percent full" badge. */
module Community {
  import opened Dom

  datatype Message = Message(author: string, content: string, timestamp: nat)

  /** Counts are `int`: the online count drifts by a signed delta and has no
      floor. */
  datatype DiscordStats = DiscordStats(memberCount: int, onlineCount: int, recentMessages: seq<Message>)

  /** The seeded stats; each message is stamped by its own `new Date()`
      reading, `t1`, `t2` and `t3` in that order. */
  function InitialStats(t1: nat, t2: nat, t3: nat): DiscordStats {
    DiscordStats(5247, 892, [
      Message("PlayerOne", "Anyone want to start a racing crew? Looking for experienced drivers!", t1),
      Message("StaffMember", "New update just went live! Check out the new medical system.", t2),
      Message("CommunityManager", "Don't forget about tonight's community event at 8PM EST!", t3)
    ])
  }

  /** The two random draws of one tick: `online` stands for
      `Math.floor(Math.random() * 10)` and `members` for
      `Math.floor(Math.random() * 3)`. */
  datatype Draw = Draw(online: int, members: int)

  predicate ValidDraw(d: Draw) {
    0 <= d.online < 10 && 0 <= d.members < 3
  }

  /** One tick adds to the previous values: the online count moves by -5..4,
      the member count grows by 0..2, the messages are kept. */
  function NextStats(prev: DiscordStats, d: Draw): (next: DiscordStats)
    requires ValidDraw(d)
    ensures prev.onlineCount - 5 <= next.onlineCount <= prev.onlineCount + 4
    ensures prev.memberCount <= next.memberCount <= prev.memberCount + 2
    ensures next.recentMessages == prev.recentMessages
  {
    prev.(onlineCount := prev.onlineCount + d.online - 5, memberCount := prev.memberCount + d.members)
  }

  function Ticks(s: DiscordStats, ds: seq<Draw>): DiscordStats
    requires forall i :: 0 <= i < |ds| ==> ValidDraw(ds[i])
    decreases |ds|
  {
    if ds == [] then s else Ticks(NextStats(s, ds[0]), ds[1..])
  }

  /** After `n` ticks the member count has grown by at most `2n` and never
      shrunk, the online count lies within `-5n..4n` of its start, and the
      messages are untouched. */
  lemma {:induction false} TicksBounds(s: DiscordStats, ds: seq<Draw>)
    requires forall i :: 0 <= i < |ds| ==> ValidDraw(ds[i])
    ensures s.memberCount <= Ticks(s, ds).memberCount <= s.memberCount + 2 * |ds|
    ensures s.onlineCount - 5 * |ds| <= Ticks(s, ds).onlineCount <= s.onlineCount + 4 * |ds|
    ensures Ticks(s, ds).recentMessages == s.recentMessages
    decreases |ds|
  {
    if ds != [] {
      TicksBounds(NextStats(s, ds[0]), ds[1..]);
    }
  }

  /** `n` copies of one draw. */
  function Repeat(d: Draw, n: nat): (ds: seq<Draw>)
    ensures |ds| == n && forall i :: 0 <= i < n ==> ds[i] == d
  {
    if n == 0 then [] else [d] + Repeat(d, n - 1)
  }

  /** The bounds above are reached: the lowest draws lower the online count
      by exactly `5n` and the highest raise it by `4n`, so unlike the other
      mocked stats it is confined to no fixed range. */
  lemma {:induction false} OnlineCountDrifts(s: DiscordStats, n: nat)
    ensures Ticks(s, Repeat(Draw(0, 0), n)).onlineCount == s.onlineCount - 5 * n
    ensures Ticks(s, Repeat(Draw(9, 2), n)).onlineCount == s.onlineCount + 4 * n
    ensures Ticks(s, Repeat(Draw(9, 2), n)).memberCount == s.memberCount + 2 * n
    decreases n
  {
    if n > 0 {
      assert Repeat(Draw(0, 0), n)[1..] == Repeat(Draw(0, 0), n - 1);
      assert Repeat(Draw(9, 2), n)[1..] == Repeat(Draw(9, 2), n - 1);
      OnlineCountDrifts(NextStats(s, Draw(0, 0)), n - 1);
      OnlineCountDrifts(NextStats(s, Draw(9, 2)), n - 1);
    }
  }

  /** `recentMessages.slice(0, 3)`: the first three messages, or all of them
      when there are fewer, in their original order. */
  function RecentActivity(stats: DiscordStats): (shown: seq<Message>)
    ensures |shown| == if |stats.recentMessages| < 3 then |stats.recentMessages| else 3
    ensures shown <= stats.recentMessages
  {
    if |stats.recentMessages| <= 3 then stats.recentMessages else stats.recentMessages[..3]
  }

  datatype Testimonial = Testimonial(
    id: string,
    playerName: string,
    characterName: string,
    quote: string,
    rating: int,
    verified: bool,
    date: string)

  datatype TestimonialHeader = TestimonialHeader(stars: nat, verifiedBadge: bool)

  /** `Array.from({ length: rating })` draws one star per unit of the rating
      (none for a negative one); the "Verified" badge follows `verified`. */
  function TestimonialHeaderFor(t: Testimonial): (h: TestimonialHeader)
    ensures t.rating >= 0 ==> h.stars == t.rating
    ensures t.rating < 0 ==> h.stars == 0
    ensures h.verifiedBadge == t.verified
  {
    TestimonialHeader(if t.rating < 0 then 0 else t.rating, t.verified)
  }

  datatype ServerEvent = ServerEvent(id: string, title: string, date: string, kind: string, participants: int, maxParticipants: int)

  const UpcomingEvents: seq<ServerEvent> := [
    ServerEvent("1", "Grand Prix Racing Championship", "2024-12-30", "racing", 47, 64),
    ServerEvent("2", "New Year's Eve Fireworks & Party", "2024-12-31", "community", 156, 200),
    ServerEvent("3", "Police vs Criminals Heist Event", "2025-01-05", "roleplay", 89, 128)
  ]

  /** `Math.round(participants / maxParticipants * 100)` on exact numbers:
      the integer nearest to the percentage, halves rounded up. */
  function PercentFull(participants: int, maxParticipants: int): (pct: int)
    requires maxParticipants > 0
    ensures (pct as real) - 0.5 <= 100.0 * (participants as real) / (maxParticipants as real) < (pct as real) + 0.5
  {
    var pct := (200 * participants + maxParticipants) / (2 * maxParticipants);
    NearestPercent(participants, maxParticipants, pct);
    pct
  }

  lemma NearestPercent(p: int, m: int, r: int)
    requires m > 0 && r == (200 * p + m) / (2 * m)
    ensures (r as real) - 0.5 <= 100.0 * (p as real) / (m as real) < (r as real) + 0.5
  {
    var q, d := 200 * p + m, 2 * m;
    assert r * d <= q < r * d + d;
    IntToReal(r, d);
    var R, P, M := r as real, p as real, m as real;
    assert 2.0 * (R * M) <= 200.0 * P + M < 2.0 * (R * M) + 2.0 * M;
    ScaledBounds(R, P, M);
  }

  lemma IntToReal(a: int, b: int)
    ensures (a * b) as real == (a as real) * (b as real)
  {
  }

  lemma ScaledBounds(R: real, P: real, M: real)
    requires M > 0.0
    requires 2.0 * (R * M) <= 200.0 * P + M < 2.0 * (R * M) + 2.0 * M
    ensures R - 0.5 <= 100.0 * P / M < R + 0.5
  {
    var x := 100.0 * P / M;
    assert x * M == 100.0 * P;
    var rm, xm := R * M, x * M;
    assert rm - 0.5 * M <= xm < rm + 0.5 * M;
    assert (R - 0.5) * M == rm - 0.5 * M;
    assert (R + 0.5) * M == rm + 0.5 * M;
    CancelPositive(R - 0.5, x, M);
    CancelPositiveStrict(x, R + 0.5, M);
  }

  lemma CancelPositive(a: real, b: real, M: real)
    requires M > 0.0 && a * M <= b * M
    ensures a <= b
  {
  }

  lemma CancelPositiveStrict(a: real, b: real, M: real)
    requires M > 0.0 && a * M < b * M
    ensures a < b
  {
  }

  /** The badges of the three upcoming events read 73, 78 and 70. */
  lemma FixturePercents()
    ensures forall e :: e in UpcomingEvents ==> e.maxParticipants > 0
    ensures PercentFull(UpcomingEvents[0].participants, UpcomingEvents[0].maxParticipants) == 73
    ensures PercentFull(UpcomingEvents[1].participants, UpcomingEvents[1].maxParticipants) == 78
    ensures PercentFull(UpcomingEvents[2].participants, UpcomingEvents[2].maxParticipants) == 70
  {
  }

  class CommunitySection {
    const doc: Document
    var discordStats: DiscordStats

    /** Mounting reads the clock once per seeded message. */
    constructor (doc: Document, t1: nat, t2: nat, t3: nat)
      ensures this.doc == doc && discordStats == InitialStats(t1, t2, t3)
    {
      this.doc := doc;
      discordStats := InitialStats(t1, t2, t3);
    }

    /** The interval callback, `setDiscordStats(prev => ...)`. */
    method Tick(d: Draw)
      requires ValidDraw(d)
      modifies this`discordStats
      ensures discordStats == NextStats(old(discordStats), d)
    {
      discordStats := NextStats(discordStats, d);
    }

    /** The "Learn More" button: a smooth scroll to the features section when
        it exists, otherwise nothing. */
    method LearnMore()
      modifies doc`scrolls
      ensures doc.scrolls == old(doc.scrolls) +
        (if doc.HasElement("features") then [Scroll("features", BlockUnspecified)] else [])
    {
      if doc.HasElement("features") {
        doc.ScrollIntoView("features", BlockUnspecified);
      }
    }
  }
}
