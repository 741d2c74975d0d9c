/** The hero banner: mocked live server stats refreshed by a timer, the stat
    cards and status badge drawn from them, and the "watch trailer" jump to
    the gallery. */
module Hero {
  import opened Strings
  import opened Dom

  datatype ServerStats = ServerStats(playerCount: nat, maxPlayers: nat, uptime: string, ping: nat, isOnline: bool)

  const InitialStats := ServerStats(127, 128, "99.8%", 45, true)

  /** The two random draws of one tick: `players` stands for
      `Math.floor(Math.random() * 8)` and `ping` for
      `Math.floor(Math.random() * 20)`. */
  datatype Draw = Draw(players: int, ping: int)

  predicate ValidDraw(d: Draw) {
    0 <= d.players < 8 && 0 <= d.ping < 20
  }

  /** One tick of the 30-second interval: the count lands in 120..127 and the
      ping in 35..54 (one below what the comments beside them say), and the
      other fields are kept. */
  function NextStats(prev: ServerStats, d: Draw): (next: ServerStats)
    requires ValidDraw(d)
    ensures 120 <= next.playerCount <= 127 && 35 <= next.ping <= 54
    ensures next.maxPlayers == prev.maxPlayers && next.uptime == prev.uptime && next.isOnline == prev.isOnline
  {
    prev.(playerCount := d.players + 120, ping := d.ping + 35)
  }

  /** A tick replaces the two values instead of adding to them: the result
      does not depend on the previous count or ping. */
  lemma TickDoesNotAccumulate(a: ServerStats, b: ServerStats, d: Draw)
    requires ValidDraw(d)
    ensures NextStats(a, d).playerCount == NextStats(b, d).playerCount
    ensures NextStats(a, d).ping == NextStats(b, d).ping
  {
  }

  /** Every value inside the two ranges can come out of a tick, so the ranges
      are exact: 128 players and a 55 ms ping never appear. */
  lemma TickReaches(prev: ServerStats, count: int, ping: int)
    requires 120 <= count <= 127 && 35 <= ping <= 54
    ensures exists d :: ValidDraw(d) && NextStats(prev, d).playerCount == count && NextStats(prev, d).ping == ping
  {
    var d := Draw(count - 120, ping - 35);
    assert ValidDraw(d) && NextStats(prev, d).playerCount == count && NextStats(prev, d).ping == ping;
  }

  function Ticks(s: ServerStats, ds: seq<Draw>): ServerStats
    requires forall i :: 0 <= i < |ds| ==> ValidDraw(ds[i])
    decreases |ds|
  {
    if ds == [] then s else Ticks(NextStats(s, ds[0]), ds[1..])
  }

  /** After any number of ticks the capacity, uptime and online flag are the
      seeded ones, and after at least one tick both values are in range. */
  lemma {:induction false} TicksBounded(s: ServerStats, ds: seq<Draw>)
    requires forall i :: 0 <= i < |ds| ==> ValidDraw(ds[i])
    ensures Ticks(s, ds).maxPlayers == s.maxPlayers && Ticks(s, ds).uptime == s.uptime
    ensures Ticks(s, ds).isOnline == s.isOnline
    ensures |ds| > 0 ==> 120 <= Ticks(s, ds).playerCount <= 127 && 35 <= Ticks(s, ds).ping <= 54
    decreases |ds|
  {
    if ds != [] {
      TicksBounded(NextStats(s, ds[0]), ds[1..]);
    }
  }

  /** `${ping}ms`. */
  function PingText(ping: nat): (s: string)
    ensures |s| >= 3 && s[|s| - 2..] == "ms"
    ensures AllDigits(s[..|s| - 2]) && ParseDigits(s[..|s| - 2]) == ping
  {
    var digits := NatToString(ping);
    ParseNatToString(ping);
    assert (digits + "ms")[..|digits|] == digits;
    digits + "ms"
  }

  datatype StatItem = StatItem(caption: string, value: string)

  /** `HeroStats`: three cards, players, uptime and ping, in that order. */
  function StatItems(stats: ServerStats): (items: seq<StatItem>)
    ensures |items| == 3
    ensures items[0] == StatItem("Players Online", RatioText(stats.playerCount, stats.maxPlayers))
    ensures items[1] == StatItem("Uptime", stats.uptime)
    ensures items[2] == StatItem("Ping", PingText(stats.ping))
  {
    [ StatItem("Players Online", RatioText(stats.playerCount, stats.maxPlayers)),
      StatItem("Uptime", stats.uptime),
      StatItem("Ping", PingText(stats.ping)) ]
  }

  datatype StatusBadge = StatusBadge(variant: string, text: string)

  /** The big status badge follows the online flag. */
  function StatusBadgeFor(isOnline: bool): (b: StatusBadge)
    ensures isOnline ==> b == StatusBadge("online", "Server Online")
    ensures !isOnline ==> b == StatusBadge("offline", "Server Offline")
  {
    if isOnline then StatusBadge("online", "Server Online") else StatusBadge("offline", "Server Offline")
  }

  class HeroSection {
    const doc: Document
    var serverStats: ServerStats

    constructor (doc: Document)
      ensures this.doc == doc && serverStats == InitialStats
    {
      this.doc := doc;
      serverStats := InitialStats;
    }

    /** The interval callback, `setServerStats(prev => ...)`. */
    method Tick(d: Draw)
      requires ValidDraw(d)
      modifies this`serverStats
      ensures serverStats == NextStats(old(serverStats), d)
    {
      serverStats := NextStats(serverStats, d);
    }

    /** `handleWatchTrailer`: a smooth scroll to the gallery when it exists,
        otherwise nothing. */
    method HandleWatchTrailer()
      modifies doc`scrolls
      ensures doc.scrolls == old(doc.scrolls) +
        (if doc.HasElement("gallery") then [Scroll("gallery", BlockUnspecified)] else [])
    {
      if doc.HasElement("gallery") {
        doc.ScrollIntoView("gallery", BlockUnspecified);
      }
    }
  }
}
