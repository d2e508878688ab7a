/**
 * Story progression of the incremental game (claude-code-game/js/events.js):
 * the bounded event log, the narrative triggers, the trending-technology
 * rotation, hidden bugs surfacing, the rival project and game over.
 *
 * `Date.now()` is the parameter `now`; each `Math.random()` call is the next
 * element of a `draws` sequence of reals in [0, 1).
 */
module GameEvents {
  import opened Util
  import opened GameState

  const LogCap := 20

  /** Events logged one after the other, each through `addEvent`. */
  function LogAll(events: seq<Event>, added: seq<Event>): (r: seq<Event>)
    ensures |added| > 0 ==> 0 < |r| <= LogCap && r[0] == added[|added| - 1]
    ensures |added| == 0 ==> r == events
  {
    if |added| == 0 then events
    else PushNewest(LogAll(events, added[..|added| - 1]), added[|added| - 1], LogCap)
  }

  /** The log never grows past its bound. */
  lemma {:induction false} LogAllBounded(events: seq<Event>, added: seq<Event>)
    requires |events| <= LogCap
    ensures |LogAll(events, added)| <= LogCap
    ensures |LogAll(events, added)| == if |events| + |added| < LogCap then |events| + |added| else LogCap
  {
    if |added| > 0 {
      LogAllBounded(events, added[..|added| - 1]);
    }
  }

  /** Logging two batches is logging their concatenation. */
  lemma {:induction false} LogAllAppend(events: seq<Event>, a: seq<Event>, b: seq<Event>)
    ensures LogAll(LogAll(events, a), b) == LogAll(events, a + b)
    decreases |b|
  {
    if |b| == 0 {
      assert a + b == a;
    } else {
      LogAllAppend(events, a, b[..|b| - 1]);
      assert (a + b)[..|a + b| - 1] == a + b[..|b| - 1];
    }
  }

  /** `addEvent`: the new event goes first and only the 20 most recent are kept. */
  method AddEvent(g: Game, message: string, kind: string, now: int)
    modifies g`events
    ensures g.events == PushNewest(old(g.events), Event(message, kind, now), LogCap)
  {
    g.events := [Event(message, kind, now)] + g.events;
    if |g.events| > LogCap {
      g.events := g.events[..LogCap];
    }
  }

  /** `addEvent` inside a rule that reports the events it logs as `added`, oldest first. */
  method Record(g: Game, e: Event, ghost base: seq<Event>, added: seq<Event>) returns (added': seq<Event>)
    requires g.events == LogAll(base, added)
    modifies g`events
    ensures added' == added + [e] && g.events == LogAll(base, added')
  {
    AddEvent(g, e.message, e.kind, e.timestamp);
    added' := added + [e];
    assert added'[..|added'| - 1] == added;
  }

  // ---- narrative triggers ----

  const FirstSuccessMessage := "You check your download stats. The numbers are... actually growing? People are using this thing you made."
  const MoneyWarningMessage := "Your bank balance is getting low. Rent is due soon. Maybe take some freelance work?"

  predicate FirstSuccessFires(flags: Flags, codebase: real) {
    codebase >= 50.0 && Truthy(flags, HasShippedFlag) && !Truthy(flags, FirstSuccessFlag)
  }

  predicate MoneyWarningFires(flags: Flags, money: real) {
    money < 100.0 && !Truthy(flags, MoneyWarningFlag)
  }

  /**
   * The flags after `checkNarrativeTriggers` at these codebase and money
   * values (the single-file game in claude-code-game/game.js runs the same
   * rule over its own resources).
   */
  function TriggeredAt(flags: Flags, codebase: real, money: real): (r: Flags)
    ensures Truthy(r, FirstSuccessFlag)
            <==> Truthy(flags, FirstSuccessFlag) || (codebase >= 50.0 && Truthy(flags, HasShippedFlag))
    ensures Truthy(r, MoneyWarningFlag) <==> money < 100.0 || (Truthy(flags, MoneyWarningFlag) && money < 500.0)
    ensures forall k :: k != FirstSuccessFlag && k != MoneyWarningFlag ==>
              (k in r <==> k in flags) && (k in flags ==> r[k] == flags[k])
  {
    var f1 := if FirstSuccessFires(flags, codebase) then flags[FirstSuccessFlag := Bool(true)] else flags;
    var f2 := if MoneyWarningFires(f1, money) then f1[MoneyWarningFlag := Bool(true)] else f1;
    if money >= 500.0 && Truthy(f2, MoneyWarningFlag) then f2[MoneyWarningFlag := Bool(false)] else f2
  }

  function Triggered(flags: Flags, res: Resources): Flags {
    TriggeredAt(flags, res.codebase, res.money)
  }

  /** The events `checkNarrativeTriggers` logs, oldest first. */
  function TriggerEvents(flags: Flags, res: Resources, now: int): seq<Event> {
    (if FirstSuccessFires(flags, res.codebase) then [Event(FirstSuccessMessage, "success", now)] else [])
    + (if MoneyWarningFires(flags, res.money) then [Event(MoneyWarningMessage, "negative", now)] else [])
  }

  /** `checkNarrativeTriggers` */
  method CheckNarrativeTriggers(g: Game, now: int)
    modifies g`flags, g`events
    ensures g.flags == Triggered(old(g.flags), g.resources)
    ensures g.events == LogAll(old(g.events), TriggerEvents(old(g.flags), g.resources, now))
  {
    ghost var flags0, events0 := g.flags, g.events;
    ghost var res := g.resources;
    ghost var f1 := if FirstSuccessFires(flags0, res.codebase) then flags0[FirstSuccessFlag := Bool(true)] else flags0;
    ghost var f2 := if MoneyWarningFires(f1, res.money) then f1[MoneyWarningFlag := Bool(true)] else f1;
    if g.resources.codebase >= 50.0 && Truthy(g.flags, HasShippedFlag) && !Truthy(g.flags, FirstSuccessFlag) {
      g.flags := g.flags[FirstSuccessFlag := Bool(true)];
      AddEvent(g, FirstSuccessMessage, "success", now);
    }
    assert g.flags == f1;
    ghost var events1 := g.events;
    if g.resources.money < 100.0 && !Truthy(g.flags, MoneyWarningFlag) {
      g.flags := g.flags[MoneyWarningFlag := Bool(true)];
      AddEvent(g, MoneyWarningMessage, "negative", now);
    }
    assert g.flags == f2;
    if g.resources.money >= 500.0 && Truthy(g.flags, MoneyWarningFlag) {
      g.flags := g.flags[MoneyWarningFlag := Bool(false)];
    }
    assert g.flags == TriggeredAt(flags0, res.codebase, res.money);
    var first := if FirstSuccessFires(flags0, g.resources.codebase) then [Event(FirstSuccessMessage, "success", now)] else [];
    assert events1 == LogAll(events0, first);
    assert MoneyWarningFires(f1, res.money) == MoneyWarningFires(flags0, res.money);
    LogAllAppend(events0, first,
      if MoneyWarningFires(flags0, g.resources.money) then [Event(MoneyWarningMessage, "negative", now)] else []);
  }

  /** `checkNarrativeTriggers` inside a rule that reports the events it logs. */
  method RecordTriggers(g: Game, now: int, ghost base: seq<Event>, added: seq<Event>) returns (added': seq<Event>)
    requires g.events == LogAll(base, added)
    modifies g`flags, g`events
    ensures g.flags == Triggered(old(g.flags), g.resources)
    ensures added' == added + TriggerEvents(old(g.flags), g.resources, now)
    ensures g.events == LogAll(base, added')
  {
    var flags0 := g.flags;
    CheckNarrativeTriggers(g, now);
    added' := added + TriggerEvents(flags0, g.resources, now);
    LogAllAppend(base, added, TriggerEvents(flags0, g.resources, now));
  }

  /** Flags other than the two the triggers own pass through unchanged. */
  lemma KeptByTriggers(flags: Flags, res: Resources, key: string)
    requires key != FirstSuccessFlag && key != MoneyWarningFlag
    ensures Truthy(Triggered(flags, res), key) == Truthy(flags, key)
    ensures Count(Triggered(flags, res), key) == Count(flags, key)
  {
  }

  /** Checking the triggers twice against the same resources changes nothing the second time. */
  lemma TriggersIdempotent(flags: Flags, res: Resources, now: int)
    ensures Triggered(Triggered(flags, res), res) == Triggered(flags, res)
    ensures TriggerEvents(Triggered(flags, res), res, now) == []
  {
  }

  /** The first-success trigger fires at most once: once raised it stays raised and never fires again. */
  lemma FirstSuccessOnce(flags: Flags, res1: Resources, res2: Resources, now: int)
    requires FirstSuccessFires(flags, res1.codebase)
    ensures !FirstSuccessFires(Triggered(flags, res1), res2.codebase)
    ensures forall e :: e in TriggerEvents(Triggered(flags, res1), res2, now) ==> e.message != FirstSuccessMessage
  {
  }

  /** Recovering to 500 clears the money warning; dropping below 100 sets it again. */
  lemma MoneyWarningCycle(flags: Flags, low: Resources, high: Resources)
    requires low.money < 100.0 && high.money >= 500.0
    ensures Truthy(Triggered(flags, low), MoneyWarningFlag)
    ensures !Truthy(Triggered(Triggered(flags, low), high), MoneyWarningFlag)
    ensures Truthy(Triggered(Triggered(Triggered(flags, low), high), low), MoneyWarningFlag)
  {
  }

  // ---- trending technology ----

  const TechTrends: seq<string> := ["ai", "web3", "vr", "mobile", "devtools", "saas", "cli"]

  /** The `techLabels` table. */
  function TechLabel(tech: string): Option<string> {
    if tech == "ai" then Some("AI/ML")
    else if tech == "web3" then Some("Web3/Crypto")
    else if tech == "vr" then Some("VR/AR")
    else if tech == "mobile" then Some("Mobile")
    else if tech == "devtools" then Some("Developer Tools")
    else if tech == "saas" then Some("SaaS")
    else if tech == "cli" then Some("CLI Tools")
    else None
  }

  /** `list[Math.floor(draw * list.length)]` */
  function Pick<T>(list: seq<T>, draw: real): (r: T)
    requires |list| > 0 && 0.0 <= draw < 1.0
    ensures r in list
  {
    var i := (draw * |list| as real).Floor;
    assert 0 <= i < |list| by {
      assert draw * |list| as real < |list| as real;
    }
    list[i]
  }

  predicate ValidDraws(draws: seq<real>) {
    forall k :: 0 <= k < |draws| ==> 0.0 <= draws[k] < 1.0
  }

  function TrendMessage(newTrend: string, projectTech: Option<string>): Event
    requires TechLabel(newTrend).Some?
  {
    var trendName := TechLabel(newTrend).value;
    if projectTech == Some(newTrend) then
      Event("\U{1F525} " + trendName + " is trending! Your project is in the spotlight.", "success", 0)
    else if projectTech.Some? && projectTech.value != "" then
      var mine := if TechLabel(projectTech.value).Some? then TechLabel(projectTech.value).value else "project";
      Event("Trend shift: " + trendName + " is now hot. Your " + mine + " feels less exciting.", "neutral", 0)
    else
      Event("Industry buzz: " + trendName + " is the new hotness.", "neutral", 0)
  }

  /**
   * `rotateTrendingTech`: draws trends until one differs from the current
   * one. `used` is the position of the draw that was kept.
   */
  method RotateTrendingTech(g: Game, draws: seq<real>, now: int) returns (used: nat)
    requires ValidDraws(draws)
    requires exists k :: 0 <= k < |draws| && Some(Pick(TechTrends, draws[k])) != g.trendingTech
    modifies g`trendingTech, g`events
    ensures used < |draws|
    ensures forall k :: 0 <= k < used ==> Some(Pick(TechTrends, draws[k])) == old(g.trendingTech)
    ensures g.trendingTech == Some(Pick(TechTrends, draws[used]))
    ensures g.trendingTech != old(g.trendingTech) && g.trendingTech.value in TechTrends
    ensures var e := TrendMessage(g.trendingTech.value, g.projectTech);
            g.events == PushNewest(old(g.events), Event(e.message, e.kind, now), LogCap)
  {
    var current := g.trendingTech;
    used := 0;
    var newTrend := Pick(TechTrends, draws[0]);
    while Some(newTrend) == current
      invariant used < |draws| && newTrend == Pick(TechTrends, draws[used])
      invariant forall k :: 0 <= k < used ==> Some(Pick(TechTrends, draws[k])) == current
      invariant exists k :: used <= k < |draws| && Some(Pick(TechTrends, draws[k])) != current
      decreases |draws| - used
    {
      used := used + 1;
      newTrend := Pick(TechTrends, draws[used]);
    }
    g.trendingTech := Some(newTrend);
    var e := TrendMessage(newTrend, g.projectTech);
    AddEvent(g, e.message, e.kind, now);
  }

  // ---- hidden bugs ----

  datatype BugEvent = BugEvent(message: string, severity: nat)

  // the texts of `BugEvents`, in order
  const BugEvents1 := "A user reported a crash. You traced it to code you merged last week. Oops."
  const BugEvents2 := "Something broke in production. You're not sure when it started breaking."
  const BugEvents3 := "Edge case discovered! The fix took all day. Should have written tests."
  const BugEvents4 := "The bug was in the AI-generated code. At least you can blame the machine."
  const BugEvents5 := "Critical bug found. Users are upset. You're upset. Everyone's upset."

  const BugEvents: seq<BugEvent> := [
    BugEvent(BugEvents1, 1),
    BugEvent(BugEvents2, 2),
    BugEvent(BugEvents3, 1),
    BugEvent(BugEvents4, 1),
    BugEvent(BugEvents5, 3)
  ]

  /** The codebase after a bug of this severity surfaces. */
  function CodebaseAfterBug(codebase: real, severity: nat): (r: real)
    ensures codebase >= 0.0 ==> r >= 0.0
    ensures severity < 2 ==> r == codebase
    ensures severity >= 2 ==> r == Max(0.0, codebase - 2.0 * severity as real)
  {
    if severity >= 2 then Max(0.0, codebase - ((severity * 2) as real).Floor as real) else codebase
  }

  /**
   * The bug branch of `generateRandomEvent`: with `hiddenBugs` pending, it is
   * taken when the chance draw is below 0.15 per bug. `taken` is false when
   * the branch does not apply (the later branches are not modelled).
   */
  method DiscoverBug(g: Game, chanceDraw: real, pickDraw: real, now: int) returns (taken: bool)
    requires 0.0 <= chanceDraw < 1.0 && 0.0 <= pickDraw < 1.0
    modifies g`flags, g`resources, g`events
    ensures var hidden := Count(old(g.flags), "bugsInCodebase");
            taken <==> hidden > 0.0 && chanceDraw < 0.15 * hidden
    ensures !taken ==> g.flags == old(g.flags) && g.resources == old(g.resources) && g.events == old(g.events)
    ensures taken ==>
              var hidden := Count(old(g.flags), "bugsInCodebase");
              var bug := Pick(BugEvents, pickDraw);
              g.flags == old(g.flags)["bugsInCodebase" := Num(Max(0.0, hidden - 1.0))]
              && g.resources == old(g.resources).(techDebt := old(g.resources).techDebt + bug.severity as real,
                                                   codebase := CodebaseAfterBug(old(g.resources).codebase, bug.severity))
              && g.events == PushNewest(old(g.events), Event(bug.message, "negative", now), LogCap)
  {
    var hidden := Count(g.flags, "bugsInCodebase");
    taken := hidden > 0.0 && chanceDraw < 0.15 * hidden;
    if taken {
      var bug := Pick(BugEvents, pickDraw);
      AddEvent(g, bug.message, "negative", now);
      g.flags := g.flags["bugsInCodebase" := Num(Max(0.0, hidden - 1.0))];
      g.resources := g.resources.(techDebt := g.resources.techDebt + bug.severity as real);
      if bug.severity >= 2 {
        var lost := ((bug.severity * 2) as real).Floor;
        g.resources := g.resources.(codebase := Max(0.0, g.resources.codebase - lost as real));
      }
    }
  }

  /** A surfacing bug never leaves the hidden-bug counter or the codebase negative, and always adds debt. */
  lemma BugKeepsCountersNonNegative(hidden: real, codebase: real, bug: BugEvent)
    requires hidden > 0.0 && codebase >= 0.0 && bug in BugEvents
    ensures Max(0.0, hidden - 1.0) >= 0.0 && Max(0.0, hidden - 1.0) < hidden
    ensures CodebaseAfterBug(codebase, bug.severity) >= 0.0
    ensures bug.severity >= 1
  {
  }

  // ---- the rival project ----

  const CompetitorNames: seq<string> := [
    "ByteForge", "CodeCraft", "DevStream", "HackStack", "NeonCode",
    "PixelPush", "QuantumBit", "RapidDev", "SwiftShip", "TechTonic"
  ]

  datatype RivalEvent = RivalEvent(message: string, starBoost: nat)

  const RaisedSeed := " just raised a seed round. They're hiring."
  const FeaturedOnPh := " got featured on Product Hunt. The comments are comparing you two."
  const VsPostHead := "Someone made a \"vs\" post: your project vs "
  const VsPostTail := ". The debate is heated."
  const ShippedFirst := " shipped a feature you were planning. Beat you to it."
  const DevTweetHead := "A popular dev tweeted about "
  const DevTweetTail := ". Your mentions are quiet."
  const SlowingDown := " seems to be slowing down. Maybe they lost focus?"
  const GapHead := " has "
  const GapMiddle := " stars now. You have "
  const GapTail := ". The gap is growing."

  function RivalEvents(name: string): seq<RivalEvent> {
    [
      RivalEvent(name + RaisedSeed, 20),
      RivalEvent(name + FeaturedOnPh, 15),
      RivalEvent(VsPostHead + name + VsPostTail, 5),
      RivalEvent(name + ShippedFirst, 10),
      RivalEvent(DevTweetHead + name + DevTweetTail, 8)
    ]
  }

  /** The rival's momentum after a week in which the player is far ahead. */
  function SlowedMomentum(m: real): (r: real)
    ensures r >= 0.5
    ensures m >= 0.6 ==> r == m - 0.1
  {
    Max(0.5, m - 0.1)
  }

  /** The rival's stars after one week's growth, before any random boost. */
  function GrownStars(c: Competitor, trendingTech: Option<string>, growthDraw: real): (r: int)
    requires 0.0 <= growthDraw < 1.0
    ensures c.stars >= 0 && c.momentum >= 0.0 ==> r >= c.stars
  {
    var baseGrowth := (c.stars as real * 0.03 * c.momentum).Floor;
    var trendBonus := if trendingTech == Some(c.tech) then 2 else 0;
    assert c.stars >= 0 && c.momentum >= 0.0 ==> baseGrowth >= 0 by {
      if c.stars >= 0 && c.momentum >= 0.0 {
        assert c.stars as real * 0.03 * c.momentum >= 0.0;
      }
    }
    c.stars + baseGrowth + trendBonus + (growthDraw * 5.0).Floor
  }

  /** Whole numbers render as decimal integers in the messages. */
  function NumText(x: real): string {
    IntDecimal(x.Floor)
  }

  /**
   * The weekly growth of an existing rival: base growth, the random star
   * boosts and the loss of momentum when the player is far ahead. `news`
   * lists the events logged, oldest first; none of them is "negative".
   */
  method GrowRival(comp: Competitor, githubStars: real, trendingTech: Option<string>, draws: seq<real>, now: int)
    returns (c: Competitor, news: seq<Event>)
    requires ValidDraws(draws) && |draws| >= 5
    ensures c.name == comp.name && c.tech == comp.tech
    ensures c.stars == GrownStars(comp, trendingTech, draws[0])
                       + (if draws[1] < 0.15 then Pick(RivalEvents(comp.name), draws[2]).starBoost else 0)
    ensures draws[1] < 0.15 ==> |news| > 0 && news[0] == Event(Pick(RivalEvents(comp.name), draws[2]).message, "warning", now)
    ensures comp.stars >= 0 && comp.momentum >= 0.0 ==> c.stars >= comp.stars
    ensures githubStars > c.stars as real * 1.5 ==> c.momentum == SlowedMomentum(comp.momentum)
    ensures githubStars <= c.stars as real * 1.5 ==> c.momentum == comp.momentum
    ensures comp.momentum >= 0.5 ==> c.momentum >= 0.5
    ensures forall e :: e in news ==> e.kind != "negative" && e.timestamp == now
  {
    c := comp.(stars := GrownStars(comp, trendingTech, draws[0]));
    news := [];
    var next := 1;
    if draws[next] < 0.15 {
      var rival := Pick(RivalEvents(c.name), draws[next + 1]);
      c := c.(stars := c.stars + rival.starBoost);
      news := news + [Event(rival.message, "warning", now)];
      next := next + 2;
    } else {
      next := next + 1;
    }
    if githubStars > c.stars as real * 1.5 {
      c := c.(momentum := SlowedMomentum(c.momentum));
      if draws[next] < 0.1 {
        news := news + [Event(c.name + SlowingDown, "neutral", now)];
      }
      next := next + 1;
    }
    if c.stars as real > githubStars * 1.5 && draws[next] < 0.2 {
      news := news + [Event(c.name + GapHead + IntDecimal(c.stars) + GapMiddle
                            + NumText(githubStars) + GapTail, "warning", now)];
    }
  }

  const Rival1kSuffix := " just hit 1000 stars. They posted a celebration thread. It stings."

  const RivalHead := "You notice a new project called \""
  const RivalTail := "\" doing something similar. They're getting attention."

  /**
   * `updateCompetitorTick`: spawn a rival once the player has 30 stars, then
   * grow it weekly. `added` lists the events logged, oldest first.
   */
  method UpdateCompetitorTick(g: Game, draws: seq<real>, now: int) returns (added: seq<Event>)
    requires ValidDraws(draws) && |draws| >= 6
    modifies g`competitor, g`flags, g`events
    ensures g.events == LogAll(old(g.events), added)
    ensures old(g.competitor).None? && old(g.resources).githubStars >= 30.0 ==>
              g.competitor.Some? && 1.0 <= g.competitor.value.momentum < 1.5
              && g.competitor.value.stars == (old(g.resources).githubStars * 0.6).Floor
              && g.flags == old(g.flags) && |added| == 1
    ensures old(g.competitor).None? && old(g.resources).githubStars < 30.0 ==>
              g.competitor == None && g.flags == old(g.flags) && added == []
    ensures old(g.competitor).Some? ==> g.competitor.Some? && g.competitor.value.name == old(g.competitor).value.name
    ensures old(g.competitor).Some? && old(g.competitor).value.momentum >= 0.5 ==> g.competitor.value.momentum >= 0.5
    ensures old(g.competitor).Some? ==>
              var comp, c := old(g.competitor).value, g.competitor.value;
              c.stars == GrownStars(comp, g.trendingTech, draws[0])
                         + (if draws[1] < 0.15 then Pick(RivalEvents(comp.name), draws[2]).starBoost else 0)
              && c.tech == comp.tech
              && (g.resources.githubStars > c.stars as real * 1.5 ==> c.momentum == SlowedMomentum(comp.momentum))
              && (g.resources.githubStars <= c.stars as real * 1.5 ==> c.momentum == comp.momentum)
    ensures old(g.competitor).Some? ==>
              var c := g.competitor.value;
              (Truthy(g.flags, "compHit1k") <==> Truthy(old(g.flags), "compHit1k") || c.stars >= 1000)
              && (Event(c.name + Rival1kSuffix, "negative", now) in added
                  <==> c.stars >= 1000 && !Truthy(old(g.flags), "compHit1k"))
    ensures forall k :: k != "compHit1k" ==> (k in g.flags <==> k in old(g.flags)) && (k in g.flags ==> g.flags[k] == old(g.flags)[k])
  {
    added := [];
    var stars := g.resources.githubStars;
    if g.competitor.None? && stars >= 30.0 {
      var name := Pick(CompetitorNames, draws[0]);
      var tech := if g.projectTech.Some? && g.projectTech.value != "" then g.projectTech.value else "devtools";
      g.competitor := Some(Competitor(name, (stars * 0.6).Floor, 1.0 + draws[1] * 0.5, tech));
      var e := Event(RivalHead + name + RivalTail, "warning", now);
      AddEvent(g, e.message, e.kind, now);
      added := [e];
      return;
    }
    if g.competitor.None? {
      return;
    }
    var comp, news := GrowRival(g.competitor.value, stars, g.trendingTech, draws, now);
    added := news;
    if comp.stars >= 1000 && !Truthy(g.flags, "compHit1k") {
      g.flags := g.flags["compHit1k" := Bool(true)];
      added := added + [Event(comp.name + Rival1kSuffix, "negative", now)];
    }
    g.competitor := Some(comp);
    g.events := LogAll(g.events, added);
  }

  /** `triggerGameOver` */
  method TriggerGameOver(g: Game, reason: string, now: int)
    modifies g`flags, g`events
    ensures g.flags == old(g.flags)["gameOver" := Bool(true)]["gameOverReason" := Text(reason)]
    ensures reason == "broke" ==>
              g.events == PushNewest(old(g.events), Event(BrokeMessage, "negative", now), LogCap)
    ensures reason != "broke" ==> g.events == old(g.events)
  {
    g.flags := g.flags["gameOver" := Bool(true)];
    g.flags := g.flags["gameOverReason" := Text(reason)];
    if reason == "broke" {
      AddEvent(g, BrokeMessage, "negative", now);
    }
  }

  const BrokeMessage := "You couldn't make rent. The dream is over, for now. Maybe you'll try again someday."
}
