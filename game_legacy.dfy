/**
 * The single-file version of the incremental game (claude-code-game/game.js):
 * four resources, five actions that spend time and energy, a week clock that
 * charges rent every fourth week, weekly flavour events, five upgrade
 * decisions and the same two narrative triggers as the modular game.
 *
 * The global `gameState` is the class `Game`; its value `State()` is an
 * `LState`, and every operation is specified by a step function on `LState`
 * (`…Step`) about which the lemmas at the end speak. `Date.now()` is the
 * parameter `now`; every `Math.random()` is a real in [0, 1) passed in.
 */
module LegacyGame {
  import opened Util
  import GS = GameState
  import GE = GameEvents
  import GU = GameUpgrades

  const LogCap := 20
  const WeekHours := 100.0
  const MaxEnergy := 100.0

  // ---- the lines the game logs ----

  const VibeFlow := "You got into flow state. Something clicked. This might actually be good."
  const VibeOkay := "You made progress. Not your best work, but it's something."
  const VibeMeh := "You stared at the screen for hours. Wrote code. Deleted code. Wrote more code. Meh."
  const NothingToIterate := "You tried to iterate, but... iterate on what? You need to build something first."
  const Iterated := "You cleaned up tech debt and fixed some bugs. The codebase feels tighter."
  const GigPaid := "Finished a freelance gig. $"
  const GigPaidEnd := " in the bank. Client happy enough."
  const GigIdea := "While debugging their code, you had an idea for your own project..."
  const NotReadyToShip := "You're not ready to ship. Deep down, you know it. Keep building."
  const ShippedHit := "You shipped. People noticed. This might be the start of something."
  const ShippedMixed := "You shipped. A few people tried it. The feedback was... mixed but useful."
  const ShippedCrickets := "You shipped. Crickets. Maybe three downloads. It stings, but at least it's out there."
  const Broke := "You couldn't make rent. The dream is over, for now. Maybe you'll try again someday."
  const RentDay := "Rent day. -$"
  const RentDayEnd := ". The grind continues."
  const ChairBought := "The new chair arrived. Your back thanks you. You can actually focus now."
  const ChairSkipped := "You close the browser tab. The money stays in the account. The pain stays in your back."
  const CoffeeSubscribed := "First bag arrived. The apartment smells amazing. This was the right call."
  const CoffeeSkipped := "Instant coffee it is. You've had worse."
  const FullTracking := "Analytics installed. The data flows in. You can see exactly what users do. It's... a lot."
  const MinimalTracking := "You added just the basics - page views, nothing personal. Users probably won't even notice, but you feel better about it."
  const NoTracking := "No analytics. You'll figure out what users want by... asking them? Reading reviews? Flying blind feels principled but scary."
  const StayedFree := "You keep it free. Users love you for it. The goodwill feels valuable, even if it doesn't pay rent."
  const WentFreemium := "You add a premium tier. Some users upgrade. Some complain. Welcome to SaaS."
  const ChargedUpfront := "$5 upfront. The downloads slow down, but each one feels more real. These users chose to pay."
  const AiAllIn := "You integrate the AI assistant fully. The suggestions come fast. Your output doubles. It's a little disorienting - is this still your code?"
  const AiCareful := "You set rules for yourself: AI for boilerplate only. Every suggestion gets reviewed. Slower, but the code still feels like yours."
  const AiRejected := "You close the tab. The old way still works. Maybe you're a dinosaur, but at least you understand every line you write."

  // ---- resources and costs ----

  datatype LR = Money | Time | Energy | Codebase

  datatype LRes = LRes(money: real, time: real, energy: real, codebase: real) {
    /** `gameState.resources[r]` */
    function Get(r: LR): real {
      match r
      case Money => money
      case Time => time
      case Energy => energy
      case Codebase => codebase
    }

    /** `gameState.resources[r] = v` */
    function Set(r: LR, v: real): (s: LRes)
      ensures s.Get(r) == v
      ensures forall q :: q != r ==> s.Get(q) == Get(q)
    {
      match r
      case Money => this.(money := v)
      case Time => this.(time := v)
      case Energy => this.(energy := v)
      case Codebase => this.(codebase := v)
    }
  }

  /** A `cost` object as `Object.entries` lists it. */
  type LCosts = seq<(LR, real)>

  /** `canAffordAction` / `canAffordUpgrade`: no entry asks for more than the resource holds. */
  predicate Affordable(res: LRes, costs: LCosts) {
    forall k :: 0 <= k < |costs| ==> res.Get(costs[k].0) >= costs[k].1
  }

  /** `resources[r] -= c` for each entry in turn. */
  function Deducted(res: LRes, costs: LCosts): LRes {
    if |costs| == 0 then res
    else
      var prev := Deducted(res, costs[..|costs| - 1]);
      prev.Set(costs[|costs| - 1].0, prev.Get(costs[|costs| - 1].0) - costs[|costs| - 1].1)
  }

  /** The total that the entries naming `r` ask for. */
  function CostOf(costs: LCosts, r: LR): real {
    if |costs| == 0 then 0.0
    else CostOf(costs[..|costs| - 1], r) + (if costs[|costs| - 1].0 == r then costs[|costs| - 1].1 else 0.0)
  }

  /** Each cost entry is subtracted exactly once, from its own resource. */
  lemma {:induction false} DeductedSubtractsEachCost(res: LRes, costs: LCosts, r: LR)
    ensures Deducted(res, costs).Get(r) == res.Get(r) - CostOf(costs, r)
  {
    if |costs| > 0 {
      DeductedSubtractsEachCost(res, costs[..|costs| - 1], r);
    }
  }

  // ---- the game record ----

  datatype LEvent = LEvent(message: string, kind: string, week: int, timestamp: int)

  datatype LState = LState(
    res: LRes,
    path: GS.PathResources,
    branch: string,
    events: seq<LEvent>,
    flags: GS.Flags,
    week: int,
    monthlyRent: real,
    upgrades: seq<string>,
    declined: seq<string>,
    effects: seq<GS.Effect>)

  /** The initial `gameState`. */
  function Initial(): (s: LState)
    ensures s.res == LRes(500.0, WeekHours, MaxEnergy, 0.0) && s.week == 1 && s.monthlyRent == 1500.0
    ensures s.branch == "start" && s.events == [] && s.flags == map[]
  {
    LState(LRes(500.0, WeekHours, MaxEnergy, 0.0), GS.PathResources(None, None, None, None, None, None),
           "start", [], map[], 1, 1500.0, [], [], [])
  }

  /** `addEvent(message, type)`: stamped with the current week, newest first, at most twenty kept. */
  function Log(s: LState, message: string, kind: string, now: int): (t: LState)
    ensures t.events == PushNewest(s.events, LEvent(message, kind, s.week, now), LogCap)
    ensures t == s.(events := t.events)
  {
    s.(events := PushNewest(s.events, LEvent(message, kind, s.week, now), LogCap))
  }

  /** `hasUpgrade(id)` */
  predicate HasUpgrade(s: LState, id: string) {
    GS.Decided(s.upgrades, s.declined, id)
  }

  function WithCodebase(s: LState, delta: real): LState {
    s.(res := s.res.(codebase := s.res.codebase + delta))
  }

  function WithMoney(s: LState, delta: real): LState {
    s.(res := s.res.(money := s.res.money + delta))
  }

  // ---- narrative triggers ----

  /** `checkNarrativeTriggers`: the same two rules as the modular game, over this game's resources. */
  function Triggers(s: LState, now: int): (t: LState)
    ensures t.flags == GE.TriggeredAt(s.flags, s.res.codebase, s.res.money)
    ensures t.res == s.res && t.week == s.week && t.path == s.path && t.branch == s.branch
    ensures t.upgrades == s.upgrades && t.declined == s.declined && t.effects == s.effects && t.monthlyRent == s.monthlyRent
  {
    var s1 := if GE.FirstSuccessFires(s.flags, s.res.codebase)
              then Log(s.(flags := s.flags[GS.FirstSuccessFlag := GS.Bool(true)]), GE.FirstSuccessMessage, "success", now)
              else s;
    var s2 := if GE.MoneyWarningFires(s1.flags, s.res.money)
              then Log(s1.(flags := s1.flags[GS.MoneyWarningFlag := GS.Bool(true)]), GE.MoneyWarningMessage, "negative", now)
              else s1;
    if s.res.money >= 500.0 && GS.Truthy(s2.flags, GS.MoneyWarningFlag) then s2.(flags := s2.flags[GS.MoneyWarningFlag := GS.Bool(false)])
    else s2
  }

  // ---- actions ----

  datatype LAction = VibeCode | Iterate | Freelance | Rest | Ship

  function ActionKey(a: LAction): string {
    match a
    case VibeCode => "vibeCode"
    case Iterate => "iterate"
    case Freelance => "freelance"
    case Rest => "rest"
    case Ship => "ship"
  }

  /** `actions[actionId]` */
  function ParseAction(id: string): (r: Option<LAction>)
    ensures r.Some? ==> ActionKey(r.value) == id
    ensures forall a :: ActionKey(a) == id ==> r == Some(a)
  {
    if id == "vibeCode" then Some(VibeCode)
    else if id == "iterate" then Some(Iterate)
    else if id == "freelance" then Some(Freelance)
    else if id == "rest" then Some(Rest)
    else if id == "ship" then Some(Ship)
    else None
  }

  function ActionCost(a: LAction): LCosts {
    match a
    case VibeCode => [(Time, 20.0), (Energy, 30.0)]
    case Iterate => [(Time, 15.0), (Energy, 20.0)]
    case Freelance => [(Time, 30.0), (Energy, 40.0)]
    case Rest => [(Time, 10.0)]
    case Ship => [(Time, 10.0), (Energy, 50.0)]
  }

  /** Each action's `available()` */
  predicate Available(a: LAction, s: LState) {
    match a
    case Iterate => s.res.codebase >= 10.0
    case Ship => s.res.codebase >= 30.0 && !GS.Truthy(s.flags, GS.HasShippedFlag)
    case _ => true
  }

  /** `vibeCode`: the roll decides a gain of 15, 5 or 1. */
  function VibeCodeStep(s: LState, roll: real, now: int): (t: LState)
    ensures t.res == s.res.(codebase := t.res.codebase) && t.week == s.week
    ensures s.res.codebase + 1.0 <= t.res.codebase <= s.res.codebase + 15.0
    ensures roll > 0.7 <==> t.res.codebase == s.res.codebase + 15.0
  {
    var (gain, message, kind) :=
      if roll > 0.7 then (15.0, VibeFlow, "success")
      else if roll > 0.3 then (5.0, VibeOkay, "neutral")
      else (1.0, VibeMeh, "negative");
    Triggers(Log(WithCodebase(s, gain), message, kind, now), now)
  }

  /** `Math.min(10, codebase * 0.2)`, not rounded in this version. */
  function Improvement(codebase: real): real {
    GS.Min(10.0, codebase * 0.2)
  }

  /** `iterate` */
  function IterateStep(s: LState, now: int): (t: LState)
    ensures t.res == s.res.(codebase := t.res.codebase) && t.week == s.week
    ensures s.res.codebase < 10.0 ==> t.res.codebase == s.res.codebase && t.flags == s.flags
    ensures s.res.codebase >= 10.0 ==> s.res.codebase + 2.0 <= t.res.codebase <= s.res.codebase + 10.0
  {
    if s.res.codebase < 10.0 then
      Log(s, NothingToIterate, "negative", now)
    else
      var s1 := Log(WithCodebase(s, Improvement(s.res.codebase)),
                    Iterated, "success", now);
      var s2 := if s1.path.craftMastery.Some? then s1.(path := s1.path.(craftMastery := Some(s1.path.craftMastery.value + 1.0))) else s1;
      Triggers(s2, now)
  }

  /** `200 + Math.floor(Math.random() * 100)` */
  function FreelancePay(payDraw: real): int {
    200 + (payDraw * 100.0).Floor
  }

  /** `freelance`: the pay, then a 30% chance of an idea worth 2 codebase. */
  function FreelanceStep(s: LState, payDraw: real, ideaDraw: real, now: int): (t: LState)
    requires 0.0 <= payDraw < 1.0
    ensures t.res == s.res.(money := t.res.money, codebase := t.res.codebase) && t.week == s.week
    ensures s.res.money + 200.0 <= t.res.money < s.res.money + 300.0
    ensures t.res.codebase == s.res.codebase + (if ideaDraw > 0.7 then 2.0 else 0.0)
  {
    var pay := FreelancePay(payDraw);
    var s1 := Log(WithMoney(s, pay as real), GigPaid + IntDecimal(pay) + GigPaidEnd, "neutral", now);
    var s2 := if ideaDraw > 0.7
              then WithCodebase(Log(s1, GigIdea, "neutral", now), 2.0)
              else s1;
    Triggers(s2, now)
  }

  // the texts of `RestLines`, in order
  const RestLines1 := "You went for a walk. Touched grass. It helped."
  const RestLines2 := "You binged a show. Sometimes that's necessary."
  const RestLines3 := "You cooked a real meal for once. Felt human."
  const RestLines4 := "You called a friend. Remembered there's a world outside code."

  const RestLines: seq<string> := [RestLines1, RestLines2, RestLines3, RestLines4]

  /** `rest`: forty energy back, capped at 100; no trigger check. */
  function RestStep(s: LState, pickDraw: real, now: int): (t: LState)
    requires 0.0 <= pickDraw < 1.0
    ensures t.res == s.res.(energy := t.res.energy) && t.week == s.week && t.flags == s.flags
    ensures t.res.energy <= MaxEnergy && (s.res.energy <= MaxEnergy ==> t.res.energy >= s.res.energy)
    ensures |t.events| > 0 && t.events[0].message in RestLines
  {
    Log(s.(res := s.res.(energy := GS.Min(MaxEnergy, s.res.energy + 40.0))), GE.Pick(RestLines, pickDraw), "neutral", now)
  }

  /** `ship`: below 30 codebase only a refusal; otherwise shipped for good, a hit from 80 up. */
  function ShipStep(s: LState, now: int): (t: LState)
    ensures t.res == s.res && t.week == s.week
    ensures s.res.codebase < 30.0 ==> t.flags == s.flags
    ensures s.res.codebase >= 30.0 ==> GS.Truthy(t.flags, GS.HasShippedFlag)
    ensures GS.Truthy(t.flags, "successfulLaunch") <==> GS.Truthy(s.flags, "successfulLaunch") || s.res.codebase >= 80.0
  {
    if s.res.codebase < 30.0 then
      Log(s, NotReadyToShip, "negative", now)
    else
      var shipped := s.(flags := s.flags[GS.HasShippedFlag := GS.Bool(true)]);
      var quality := s.res.codebase;
      var s1 :=
        if quality >= 80.0 then
          Log(shipped, ShippedHit, "success", now)
            .(flags := shipped.flags["successfulLaunch" := GS.Bool(true)])
        else if quality >= 50.0 then
          Log(shipped, ShippedMixed, "neutral", now)
        else
          Log(shipped, ShippedCrickets, "negative", now);
      Triggers(s1, now)
  }

  /** The `execute` body of an action; `draws` are its `Math.random()` results. */
  function ActionStep(a: LAction, s: LState, draws: seq<real>, now: int): (t: LState)
    requires GE.ValidDraws(draws) && |draws| >= 2
    ensures t.week == s.week && t.res.time == s.res.time
  {
    match a
    case VibeCode => VibeCodeStep(s, draws[0], now)
    case Iterate => IterateStep(s, now)
    case Freelance => FreelanceStep(s, draws[0], draws[1], now)
    case Rest => RestStep(s, draws[0], now)
    case Ship => ShipStep(s, now)
  }

  /** The guard of `executeAction`. */
  predicate Runs(id: string, s: LState) {
    ParseAction(id).Some? && Available(ParseAction(id).value, s) && Affordable(s.res, ActionCost(ParseAction(id).value))
  }

  /**
   * `executeAction`: guard, charge, run, and advance the week when the
   * week's hours are used up; `weekRoll` and `weekPick` feed the weekly event.
   */
  function ExecuteActionStep(id: string, s: LState, draws: seq<real>, weekRoll: real, weekPick: real, now: int): (r: LState)
    requires GE.ValidDraws(draws) && |draws| >= 2 && 0.0 <= weekPick < 1.0
    ensures !Runs(id, s) ==> r == s
    ensures Runs(id, s) ==>
              var a := ParseAction(id).value;
              var charged := Deducted(s.res, ActionCost(a));
              r.week == s.week + (if charged.time <= 0.0 then 1 else 0)
              && (charged.time <= 0.0 ==> r.res.time == WeekHours)
  {
    if !Runs(id, s) then s
    else
      var a := ParseAction(id).value;
      var charged := s.(res := Deducted(s.res, ActionCost(a)));
      var t := ActionStep(a, charged, draws, now);
      if t.res.time <= 0.0 then AdvanceWeekCharges(t, weekRoll, weekPick, now); WeekIfSpent(t, weekRoll, weekPick, now)
      else WeekIfSpent(t, weekRoll, weekPick, now)
  }

  /** The end of `executeAction`: the week advances once its hours are used up. */
  function WeekIfSpent(t: LState, weekRoll: real, weekPick: real, now: int): LState
    requires 0.0 <= weekPick < 1.0
  {
    if t.res.time <= 0.0 then AdvanceWeekStep(t, weekRoll, weekPick, now) else t
  }

  // ---- the clock ----

  /** `1 + Σ effect.energyRegen` */
  function EnergyRegen(effects: seq<GS.Effect>): real {
    if |effects| == 0 then 1.0 else EnergyRegen(effects[..|effects| - 1]) + effects[|effects| - 1].energyRegen
  }

  /** `tick`: a tenth of the regeneration rate, never past 100. */
  function TickStep(s: LState): (r: LState)
    ensures r == s.(res := s.res.(energy := r.res.energy))
    ensures r.res.energy <= MaxEnergy
    ensures (forall i :: 0 <= i < |s.effects| ==> s.effects[i].energyRegen >= 0.0) && s.res.energy <= MaxEnergy
            ==> r.res.energy >= s.res.energy
  {
    var r := s.(res := s.res.(energy := GS.Min(MaxEnergy, s.res.energy + EnergyRegen(s.effects) * 0.1)));
    if (forall i :: 0 <= i < |s.effects| ==> s.effects[i].energyRegen >= 0.0) then
      RegenAtLeastOne(s.effects); r
    else r
  }

  /** `triggerGameOver(reason)` */
  function GameOver(s: LState, reason: string, now: int): (t: LState)
    ensures GS.Truthy(t.flags, "gameOver") && t.res == s.res && t.week == s.week
  {
    var t := s.(flags := s.flags["gameOver" := GS.Bool(true)]["gameOverReason" := GS.Text(reason)]);
    if reason == "broke" then Log(t, Broke, "negative", now)
    else t
  }

  /** Rent day: the rent and every recurring cost, then game over if the balance is negative. */
  function RentDayStep(s: LState, now: int): LState {
    var s1 := Log(WithMoney(s, -s.monthlyRent), RentDay + GE.NumText(s.monthlyRent) + RentDayEnd, "negative", now);
    var s2 := WithMoney(s1, -GU.MonthlyCosts(s.effects));
    if s2.res.money < 0.0 then GameOver(s2, "broke", now) else s2
  }

  /** `advanceWeek` */
  function AdvanceWeekStep(s: LState, roll: real, pick: real, now: int): LState
    requires 0.0 <= pick < 1.0
  {
    var s1 := s.(week := s.week + 1, res := s.res.(time := WeekHours));
    var s2 := if s1.week % 4 == 0 then RentDayStep(s1, now) else s1;
    WeeklyEventStep(s2, roll, pick, now)
  }

  // ---- weekly flavour events ----

  /** One entry of an event table; the absent numeric fields are 0. */
  datatype Flavour = Flavour(message: string, kind: string, energyLoss: real, codebase: real, trust: real)

  function Plain(message: string, kind: string): Flavour {
    Flavour(message, kind, 0.0, 0.0, 0.0)
  }

  // the texts of `EarlyEvents`, in order
  const EarlyEvents1 := "Your neighbor's wifi password changed. Time to actually pay for internet."
  const EarlyEvents2 := "You discovered a new coffee shop with good wifi. Productivity location unlocked."
  const EarlyEvents3 := "Your laptop fan is making concerning noises. It's fine. Probably."
  const EarlyEvents4 := "You checked Twitter for 'just five minutes'. It was two hours."
  const EarlyEvents5 := "A friend asked what you're working on. You explained it. They nodded politely."

  const EarlyEvents: seq<Flavour> := [
    Plain(EarlyEvents1, "neutral"),
    Plain(EarlyEvents2, "success"),
    Plain(EarlyEvents3, "warning"),
    Plain(EarlyEvents4, "negative").(energyLoss := 10.0),
    Plain(EarlyEvents5, "neutral")
  ]

  // the texts of `BrokeLines`, in order
  const BrokeLines1 := "You checked your bank balance. You checked it again. Still the same number."
  const BrokeLines2 := "Ramen for dinner again. At least you're efficient at cooking it now."
  const BrokeLines3 := "Your credit card company sent a 'friendly reminder'. How thoughtful."
  const BrokeLines4 := "You calculated how many days until rent. Then stopped calculating."

  const BrokeLines: seq<string> := [BrokeLines1, BrokeLines2, BrokeLines3, BrokeLines4]

  // the texts of `ShipEvents`, in order
  const ShipEvents1 := "Someone wrote about your app on Hacker News. Traffic spiked. Mostly tire-kickers, but still."
  const ShipEvents2 := "A user reported a bug. A real bug report! Someone cares enough to report bugs!"
  const ShipEvents3 := "You got your first 1-star review. It stung more than expected."
  const ShipEvents4 := "Someone forked your repo on GitHub. Flattering or threatening? Both?"
  const ShipEvents5 := "A user said your app 'changed their workflow'. You screenshot it for dark days."
  const ShipEvents6 := "You found a tutorial someone made for your app. You didn't write it. Wild."

  const ShipEvents: seq<Flavour> := [
    Plain(ShipEvents1, "success").(codebase := 2.0),
    Plain(ShipEvents2, "success"),
    Plain(ShipEvents3, "negative"),
    Plain(ShipEvents4, "neutral"),
    Plain(ShipEvents5, "success").(codebase := 1.0),
    Plain(ShipEvents6, "success")
  ]

  // the texts of `AiEvents`, in order
  const AiEvents1 := "The AI suggested something you didn't expect. It was actually... good?"
  const AiEvents2 := "You spent an hour debugging AI-generated code. The irony isn't lost on you."
  const AiEvents3 := "The AI completed a task faster than you could have. Efficient. Unsettling."
  const AiEvents4 := "You caught the AI making a subtle mistake. Good thing you're still paying attention."

  const AiEvents: seq<Flavour> := [
    Plain(AiEvents1, "neutral"),
    Plain(AiEvents2, "negative"),
    Plain(AiEvents3, "neutral"),
    Plain(AiEvents4, "warning")
  ]

  // the texts of `AiFullEvents`, in order
  const AiFullEvents1 := "You're not sure which parts of the codebase you wrote anymore. Does it matter?"
  const AiFullEvents2 := "The AI suggested refactoring code it wrote last week. It's optimizing itself?"

  const AiFullEvents: seq<Flavour> := [
    Plain(AiFullEvents1, "warning"),
    Plain(AiFullEvents2, "neutral")
  ]

  // the texts of `BootstrapEvents`, in order
  const BootstrapEvents1 := "A user emailed you directly with a feature request. They said 'please' and everything."
  const BootstrapEvents2 := "Someone compared your app favorably to a VC-funded competitor. David vs Goliath vibes."
  const BootstrapEvents3 := "You turned down a feature request. It didn't fit. Users respected that."
  const BootstrapEvents4 := "A user offered to help translate your app. The community is growing."

  const BootstrapEvents: seq<Flavour> := [
    Plain(BootstrapEvents1, "success").(trust := 2.0),
    Plain(BootstrapEvents2, "success"),
    Plain(BootstrapEvents3, "success").(trust := 1.0),
    Plain(BootstrapEvents4, "success")
  ]

  // the texts of `GenericLines`, in order
  const GenericLines1 := "You refactored something. It's cleaner now. Nobody will ever notice."
  const GenericLines2 := "You read a blog post about productivity. Ironically, it cost you an hour."
  const GenericLines3 := "Your standing desk reminded you to stand. You ignored it."
  const GenericLines4 := "You pushed code on a Friday. Living dangerously."

  const GenericLines: seq<string> := [GenericLines1, GenericLines2, GenericLines3, GenericLines4]

  /** The table `generateWeeklyEvent` draws from; `AiTable(full)` adds the two full-integration events. */
  datatype WeeklyTable = EarlyTable | BrokeTable | ShipTable | AiTable(full: bool) | BootstrapTable | GenericTable

  /** The first table whose condition holds for `roll`, or none: no event this week. */
  function WeeklyTableFor(s: LState, roll: real): Option<WeeklyTable> {
    if s.week <= 4 && roll > 0.6 then Some(EarlyTable)
    else if s.res.money < 300.0 && roll > 0.5 then Some(BrokeTable)
    else if GS.Truthy(s.flags, GS.HasShippedFlag) && roll > 0.6 then Some(ShipTable)
    else if GS.Truthy(s.flags, "aiAdopted") && roll > 0.65 then Some(AiTable(GS.Truthy(s.flags, "aiFullIntegration")))
    else if s.branch == "bootstrap" && roll > 0.65 then Some(BootstrapTable)
    else if roll > 0.75 then Some(GenericTable)
    else None
  }

  /** The entry `pick` selects from a table; the plain text lines are logged as 'warning' and 'neutral'. */
  function WeeklyEntry(t: WeeklyTable, pick: real): Flavour
    requires 0.0 <= pick < 1.0
  {
    match t
    case EarlyTable => GE.Pick(EarlyEvents, pick)
    case BrokeTable => Plain(GE.Pick(BrokeLines, pick), "warning")
    case ShipTable => GE.Pick(ShipEvents, pick)
    case AiTable(full) => GE.Pick(AiEvents + (if full then AiFullEvents else []), pick)
    case BootstrapTable => GE.Pick(BootstrapEvents, pick)
    case GenericTable => Plain(GE.Pick(GenericLines, pick), "neutral")
  }

  /** The event logged, with the energy an early event costs, the codebase a ship event adds or the trust a bootstrap event earns. */
  function ApplyWeekly(s: LState, t: WeeklyTable, e: Flavour, now: int): LState {
    match t
    case EarlyTable => Log(s, e.message, e.kind, now).(res := s.res.(energy := s.res.energy - e.energyLoss))
    case ShipTable => Log(WithCodebase(s, e.codebase), e.message, e.kind, now)
    case BootstrapTable =>
      var s1 := Log(s, e.message, e.kind, now);
      if e.trust != 0.0 && s.path.userTrust.Some? then s1.(path := s.path.(userTrust := Some(s.path.userTrust.value + e.trust)))
      else s1
    case _ => Log(s, e.message, e.kind, now)
  }

  /**
   * `generateWeeklyEvent`: the first table whose condition holds for `roll`
   * is picked from with `pick`; at most one event is logged.
   */
  function WeeklyEventStep(s: LState, roll: real, pick: real, now: int): LState
    requires 0.0 <= pick < 1.0
  {
    match WeeklyTableFor(s, roll)
    case None => s
    case Some(t) => ApplyWeekly(s, t, WeeklyEntry(t, pick), now)
  }

  // ---- upgrades ----

  datatype LUpgrade = BetterChair | CoffeeSubscription | UserAnalytics | FirstRevenue | AiCodingAssistant

  function UpgradeKey(u: LUpgrade): string {
    match u
    case BetterChair => "betterChair"
    case CoffeeSubscription => "coffeeSubscription"
    case UserAnalytics => "userAnalytics"
    case FirstRevenue => "firstRevenue"
    case AiCodingAssistant => "aiCodingAssistant"
  }

  /** `upgradeDefinitions[upgradeId]` */
  function ParseUpgrade(id: string): (r: Option<LUpgrade>)
    ensures r.Some? ==> UpgradeKey(r.value) == id
    ensures forall u :: UpgradeKey(u) == id ==> r == Some(u)
  {
    if id == "betterChair" then Some(BetterChair)
    else if id == "coffeeSubscription" then Some(CoffeeSubscription)
    else if id == "userAnalytics" then Some(UserAnalytics)
    else if id == "firstRevenue" then Some(FirstRevenue)
    else if id == "aiCodingAssistant" then Some(AiCodingAssistant)
    else None
  }

  function UpgradeCost(u: LUpgrade): LCosts {
    match u
    case BetterChair => [(Money, 300.0)]
    case CoffeeSubscription => [(Money, 40.0)]
    case UserAnalytics => [(Time, 20.0), (Energy, 30.0)]
    case FirstRevenue => []
    case AiCodingAssistant => [(Money, 20.0)]
  }

  /** The ids of each upgrade's `decisions`. */
  function Decisions(u: LUpgrade): seq<string> {
    match u
    case BetterChair => ["buy", "skip"]
    case CoffeeSubscription => ["subscribe", "skip"]
    case UserAnalytics => ["fullTracking", "minimalTracking", "noTracking"]
    case FirstRevenue => ["stayFree", "freemium", "paidUpfront"]
    case AiCodingAssistant => ["fullIntegration", "carefulUse", "reject"]
  }

  /** Each upgrade's `condition()` */
  predicate Offered(u: LUpgrade, s: LState) {
    (match u
     case BetterChair => s.week >= 2
     case CoffeeSubscription => s.week >= 3
     case UserAnalytics => GS.Truthy(s.flags, GS.HasShippedFlag)
     case FirstRevenue => GS.Truthy(s.flags, "successfulLaunch")
     case AiCodingAssistant => s.week >= 8 && s.res.codebase >= 50.0)
    && !HasUpgrade(s, UpgradeKey(u))
  }

  /** 'skip' and 'reject' are not charged. */
  predicate Free(d: string) {
    d == "skip" || d == "reject"
  }

  /** 'skip', 'reject' and 'noTracking' are also recorded as declined. */
  predicate Declines(d: string) {
    d == "skip" || d == "reject" || d == "noTracking"
  }

  function SetFlag(s: LState, key: string): LState {
    s.(flags := s.flags[key := GS.Bool(true)])
  }

  function AiPath(s: LState, capability: real, oversight: real, dependency: real): LState {
    s.(path := s.path.(aiCapability := Some(capability), oversight := Some(oversight), dependency := Some(dependency)))
  }

  function AiAssist(multiplier: real): GS.Effect {
    GS.NoEffect("aiAssist").(codebaseMultiplier := multiplier, monthlyCost := 20.0)
  }

  /** `betterChair`: buying gives ten energy now and +2 regeneration for good. */
  function ChairEffect(d: string, s: LState, now: int): (t: LState)
    ensures t.upgrades == s.upgrades && t.declined == s.declined && t.week == s.week
  {
    if d == "buy" then
      Log(s.(res := s.res.(energy := s.res.energy + 10.0),
             effects := s.effects + [GS.NoEffect("ergonomic").(energyRegen := 2.0)]),
          ChairBought, "success", now)
    else Log(s, ChairSkipped, "neutral", now)
  }

  /** `coffeeSubscription`: subscribing adds +1 regeneration at $40 a month. */
  function CoffeeEffect(d: string, s: LState, now: int): (t: LState)
    ensures t.upgrades == s.upgrades && t.declined == s.declined && t.week == s.week
  {
    if d == "subscribe" then
      Log(s.(effects := s.effects + [GS.NoEffect("coffee").(energyRegen := 1.0, monthlyCost := 40.0)]),
          CoffeeSubscribed, "success", now)
    else Log(s, CoffeeSkipped, "neutral", now)
  }

  /** `userAnalytics`: the three tracking choices, each with its own flag. */
  function AnalyticsEffect(d: string, s: LState, now: int): (t: LState)
    ensures t.upgrades == s.upgrades && t.declined == s.declined && t.week == s.week
  {
    if d == "fullTracking" then
      Log(SetFlag(WithCodebase(s, 10.0), "heavyTracking"),
          FullTracking, "neutral", now)
    else if d == "minimalTracking" then
      Log(SetFlag(WithCodebase(s, 5.0), "privacyFocused"),
          MinimalTracking,
          "success", now)
    else
      Log(SetFlag(s, "noTracking"),
          NoTracking,
          "neutral", now)
  }

  /** `firstRevenue`: each monetisation choice opens its narrative branch. */
  function RevenueEffect(d: string, s: LState, now: int): (t: LState)
    ensures t.upgrades == s.upgrades && t.declined == s.declined && t.week == s.week
  {
    if d == "stayFree" then
      Log(SetFlag(s.(branch := "bootstrap", path := s.path.(userTrust := Some(80.0), craftMastery := Some(10.0))), "bootstrap"),
          StayedFree, "success", now)
    else if d == "freemium" then
      Log(SetFlag(s.(branch := "growth_early", path := s.path.(userTrust := Some(50.0), runway := Some(6.0))), "freemium"),
          WentFreemium, "neutral", now)
    else
      Log(SetFlag(WithMoney(s.(branch := "bootstrap", path := s.path.(userTrust := Some(60.0), craftMastery := Some(10.0))), 200.0), "paidApp"),
          ChargedUpfront, "success", now)
  }

  /** `aiCodingAssistant`: adopting adds a $20-a-month assist effect; rejecting builds craft. */
  function AiEffect(d: string, s: LState, now: int): (t: LState)
    ensures t.upgrades == s.upgrades && t.declined == s.declined && t.week == s.week
  {
    if d == "fullIntegration" then
      Log(AiPath(SetFlag(SetFlag(s, "aiAdopted"), "aiFullIntegration"), 30.0, 70.0, 20.0).(effects := s.effects + [AiAssist(1.5)]),
          AiAllIn,
          "neutral", now)
    else if d == "carefulUse" then
      Log(AiPath(SetFlag(SetFlag(s, "aiAdopted"), "aiCarefulUse"), 20.0, 90.0, 5.0).(effects := s.effects + [AiAssist(1.2)]),
          AiCareful,
          "success", now)
    else
      var r := SetFlag(s, "aiRejected");
      Log(if r.path.craftMastery.Some? then r.(path := r.path.(craftMastery := Some(r.path.craftMastery.value + 5.0))) else r,
          AiRejected,
          "neutral", now)
  }

  /** Each decision's `effect()`. */
  function DecisionEffect(u: LUpgrade, d: string, s: LState, now: int): (t: LState)
    ensures t.upgrades == s.upgrades && t.declined == s.declined && t.week == s.week
  {
    match u
    case BetterChair => ChairEffect(d, s, now)
    case CoffeeSubscription => CoffeeEffect(d, s, now)
    case UserAnalytics => AnalyticsEffect(d, s, now)
    case FirstRevenue => RevenueEffect(d, s, now)
    case AiCodingAssistant => AiEffect(d, s, now)
  }

  /**
   * `executeUpgradeDecision`: an unknown upgrade or decision changes nothing;
   * otherwise the cost is charged unless the decision is free (with no
   * affordability or condition check), the effect runs, the id is recorded,
   * and declining decisions are recorded as declined too.
   */
  function ExecuteDecisionStep(upgradeId: string, decisionId: string, s: LState, now: int): LState {
    var p := ParseUpgrade(upgradeId);
    if p.None? || decisionId !in Decisions(p.value) then s
    else
      var u := p.value;
      var s1 := if !Free(decisionId) then s.(res := Deducted(s.res, UpgradeCost(u))) else s;
      var s2 := DecisionEffect(u, decisionId, s1, now);
      var s3 := s2.(upgrades := s2.upgrades + [upgradeId]);
      if Declines(decisionId) then s3.(declined := s3.declined + [upgradeId]) else s3
  }

  // ---- the global state, updated in place ----

  class Game {
    var res: LRes
    var path: GS.PathResources
    var branch: string
    var events: seq<LEvent>
    var flags: GS.Flags
    var week: int
    var monthlyRent: real
    var upgrades: seq<string>
    var declined: seq<string>
    var effects: seq<GS.Effect>

    function State(): LState
      reads this
    {
      LState(res, path, branch, events, flags, week, monthlyRent, upgrades, declined, effects)
    }

    constructor ()
      ensures State() == Initial()
    {
      res := LRes(500.0, WeekHours, MaxEnergy, 0.0);
      path := GS.PathResources(None, None, None, None, None, None);
      branch := "start";
      events := [];
      flags := map[];
      week := 1;
      monthlyRent := 1500.0;
      upgrades := [];
      declined := [];
      effects := [];
    }

    method Load(s: LState)
      modifies this
      ensures State() == s
    {
      res, path, branch, events, flags := s.res, s.path, s.branch, s.events, s.flags;
      week, monthlyRent, upgrades, declined, effects := s.week, s.monthlyRent, s.upgrades, s.declined, s.effects;
    }

    /** `addEvent` */
    method AddEvent(message: string, kind: string, now: int)
      modifies this`events
      ensures State() == Log(old(State()), message, kind, now)
    {
      events := [LEvent(message, kind, week, now)] + events;
      if |events| > LogCap {
        events := events[..LogCap];
      }
    }

    /** `checkNarrativeTriggers` */
    method CheckNarrativeTriggers(now: int)
      modifies this`flags, this`events
      ensures State() == Triggers(old(State()), now)
    {
      if res.codebase >= 50.0 && GS.Truthy(flags, GS.HasShippedFlag) && !GS.Truthy(flags, GS.FirstSuccessFlag) {
        flags := flags[GS.FirstSuccessFlag := GS.Bool(true)];
        AddEvent(GE.FirstSuccessMessage, "success", now);
      }
      if res.money < 100.0 && !GS.Truthy(flags, GS.MoneyWarningFlag) {
        flags := flags[GS.MoneyWarningFlag := GS.Bool(true)];
        AddEvent(GE.MoneyWarningMessage, "negative", now);
      }
      if res.money >= 500.0 && GS.Truthy(flags, GS.MoneyWarningFlag) {
        flags := flags[GS.MoneyWarningFlag := GS.Bool(false)];
      }
    }

    /** The cost loop of `executeAction` and `executeUpgradeDecision`. */
    method DeductCosts(costs: LCosts)
      modifies this`res
      ensures res == Deducted(old(res), costs)
    {
      var i := 0;
      while i < |costs|
        invariant 0 <= i <= |costs|
        invariant res == Deducted(old(res), costs[..i])
      {
        assert costs[..i + 1][..i] == costs[..i];
        res := res.Set(costs[i].0, res.Get(costs[i].0) - costs[i].1);
        i := i + 1;
      }
      assert costs[..i] == costs;
    }

    /** `tick`: the regeneration loop over the passive effects, then the capped gain. */
    method Tick()
      modifies this`res
      ensures State() == TickStep(old(State()))
    {
      var regen := 1.0;
      var i := 0;
      while i < |effects|
        invariant 0 <= i <= |effects|
        invariant regen == EnergyRegen(effects[..i])
      {
        assert effects[..i + 1][..i] == effects[..i];
        regen := regen + effects[i].energyRegen;
        i := i + 1;
      }
      assert effects[..i] == effects;
      res := res.(energy := GS.Min(MaxEnergy, res.energy + regen * 0.1));
    }

    /** `triggerGameOver` */
    method TriggerGameOver(reason: string, now: int)
      modifies this`flags, this`events
      ensures State() == GameOver(old(State()), reason, now)
    {
      flags := flags["gameOver" := GS.Bool(true)]["gameOverReason" := GS.Text(reason)];
      if reason == "broke" {
        AddEvent(Broke, "negative", now);
      }
    }

    /** Rent day inside `advanceWeek`, with the loop over recurring costs. */
    method PayRent(now: int)
      modifies this`res, this`flags, this`events
      ensures State() == RentDayStep(old(State()), now)
    {
      res := res.(money := res.money - monthlyRent);
      AddEvent(RentDay + GE.NumText(monthlyRent) + RentDayEnd, "negative", now);
      ghost var paid := res.money;
      ghost var logged := events;
      var i := 0;
      while i < |effects|
        invariant 0 <= i <= |effects|
        invariant events == logged && flags == old(flags)
        invariant res == old(res).(money := paid - GU.MonthlyCosts(effects[..i]))
      {
        assert effects[..i + 1][..i] == effects[..i];
        res := res.(money := res.money - effects[i].monthlyCost);
        i := i + 1;
      }
      assert effects[..i] == effects;
      ghost var before := old(State());
      ghost var charged := WithMoney(Log(WithMoney(before, -before.monthlyRent),
        RentDay + GE.NumText(before.monthlyRent) + RentDayEnd, "negative", now), -GU.MonthlyCosts(before.effects));
      assert State() == charged;
      if res.money < 0.0 {
        TriggerGameOver("broke", now);
      }
    }

    /** `advanceWeek` */
    method AdvanceWeek(roll: real, pick: real, now: int)
      requires 0.0 <= pick < 1.0
      modifies this`week, this`res, this`flags, this`events, this`path
      ensures State() == AdvanceWeekStep(old(State()), roll, pick, now)
    {
      ghost var s0 := State();
      week := week + 1;
      res := res.(time := WeekHours);
      ghost var s1 := State();
      assert s1 == s0.(week := s0.week + 1, res := s0.res.(time := WeekHours));
      if week % 4 == 0 {
        PayRent(now);
      }
      assert State() == if s1.week % 4 == 0 then RentDayStep(s1, now) else s1;
      GenerateWeeklyEvent(roll, pick, now);
    }

    /** `generateWeeklyEvent`: the table the roll selects, then the entry the pick selects from it. */
    method GenerateWeeklyEvent(roll: real, pick: real, now: int)
      requires 0.0 <= pick < 1.0
      modifies this`res, this`events, this`path
      ensures State() == WeeklyEventStep(old(State()), roll, pick, now)
    {
      var table := WeeklyTableFor(State(), roll);
      if table.Some? {
        var e := WeeklyEntry(table.value, pick);
        ApplyWeeklyEvent(table.value, e, now);
      }
    }

    /** One branch of `generateWeeklyEvent` once its event is drawn. */
    method ApplyWeeklyEvent(t: WeeklyTable, e: Flavour, now: int)
      modifies this`res, this`events, this`path
      ensures State() == ApplyWeekly(old(State()), t, e, now)
    {
      AddEvent(e.message, e.kind, now);
      match t {
        case EarlyTable =>
          res := res.(energy := res.energy - e.energyLoss);
        case ShipTable =>
          res := res.(codebase := res.codebase + e.codebase);
        case BootstrapTable =>
          if e.trust != 0.0 && path.userTrust.Some? {
            path := path.(userTrust := Some(path.userTrust.value + e.trust));
          }
        case _ =>
      }
    }

    /** The `execute` body of an action, run on the charged resources. */
    method RunAction(a: LAction, draws: seq<real>, now: int)
      requires GE.ValidDraws(draws) && |draws| >= 2
      modifies this`res, this`events, this`path, this`flags
      ensures State() == ActionStep(a, old(State()), draws, now)
    {
      match a {
        case VibeCode => RunVibeCode(draws[0], now);
        case Iterate => RunIterate(now);
        case Freelance => RunFreelance(draws[0], draws[1], now);
        case Rest => RunRest(draws[0], now);
        case Ship => RunShip(now);
      }
    }

    method RunVibeCode(roll: real, now: int)
      modifies this`res, this`events, this`flags
      ensures State() == VibeCodeStep(old(State()), roll, now)
    {
      if roll > 0.7 {
        res := res.(codebase := res.codebase + 15.0);
        AddEvent(VibeFlow, "success", now);
      } else if roll > 0.3 {
        res := res.(codebase := res.codebase + 5.0);
        AddEvent(VibeOkay, "neutral", now);
      } else {
        res := res.(codebase := res.codebase + 1.0);
        AddEvent(VibeMeh, "negative", now);
      }
      CheckNarrativeTriggers(now);
    }

    method RunFreelance(payDraw: real, ideaDraw: real, now: int)
      requires 0.0 <= payDraw < 1.0
      modifies this`res, this`events, this`flags
      ensures State() == FreelanceStep(old(State()), payDraw, ideaDraw, now)
    {
      var pay := FreelancePay(payDraw);
      res := res.(money := res.money + pay as real);
      AddEvent(GigPaid + IntDecimal(pay) + GigPaidEnd, "neutral", now);
      if ideaDraw > 0.7 {
        AddEvent(GigIdea, "neutral", now);
        res := res.(codebase := res.codebase + 2.0);
      }
      CheckNarrativeTriggers(now);
    }

    method RunRest(pickDraw: real, now: int)
      requires 0.0 <= pickDraw < 1.0
      modifies this`res, this`events
      ensures State() == RestStep(old(State()), pickDraw, now)
    {
      res := res.(energy := GS.Min(MaxEnergy, res.energy + 40.0));
      AddEvent(GE.Pick(RestLines, pickDraw), "neutral", now);
    }

    method RunIterate(now: int)
      modifies this`res, this`events, this`path, this`flags
      ensures State() == IterateStep(old(State()), now)
    {
      if res.codebase < 10.0 {
        AddEvent(NothingToIterate, "negative", now);
        return;
      }
      var improvement := GS.Min(10.0, res.codebase * 0.2);
      res := res.(codebase := res.codebase + improvement);
      AddEvent(Iterated, "success", now);
      if path.craftMastery.Some? {
        path := path.(craftMastery := Some(path.craftMastery.value + 1.0));
      }
      CheckNarrativeTriggers(now);
    }

    method RunShip(now: int)
      modifies this`events, this`flags
      ensures State() == ShipStep(old(State()), now)
    {
      if res.codebase < 30.0 {
        AddEvent(NotReadyToShip, "negative", now);
        return;
      }
      flags := flags[GS.HasShippedFlag := GS.Bool(true)];
      var quality := res.codebase;
      if quality >= 80.0 {
        AddEvent(ShippedHit, "success", now);
        flags := flags["successfulLaunch" := GS.Bool(true)];
      } else if quality >= 50.0 {
        AddEvent(ShippedMixed, "neutral", now);
      } else {
        AddEvent(ShippedCrickets, "negative", now);
      }
      CheckNarrativeTriggers(now);
    }

    /** `executeAction` */
    method ExecuteAction(id: string, draws: seq<real>, weekRoll: real, weekPick: real, now: int)
      requires GE.ValidDraws(draws) && |draws| >= 2 && 0.0 <= weekPick < 1.0
      modifies this
      ensures State() == ExecuteActionStep(id, old(State()), draws, weekRoll, weekPick, now)
    {
      var action := ParseAction(id);
      if action.None? || !Available(action.value, State()) || !Affordable(res, ActionCost(action.value)) {
        return;
      }
      DeductCosts(ActionCost(action.value));
      RunAction(action.value, draws, now);
      if res.time <= 0.0 {
        AdvanceWeek(weekRoll, weekPick, now);
      }
    }

    /** `executeUpgradeDecision` */
    method ExecuteUpgradeDecision(upgradeId: string, decisionId: string, now: int)
      modifies this
      ensures State() == ExecuteDecisionStep(upgradeId, decisionId, old(State()), now)
    {
      var upgrade := ParseUpgrade(upgradeId);
      if upgrade.None? || decisionId !in Decisions(upgrade.value) {
        return;
      }
      if decisionId != "skip" && decisionId != "reject" {
        DeductCosts(UpgradeCost(upgrade.value));
      }
      Load(DecisionEffect(upgrade.value, decisionId, State(), now));
      upgrades := upgrades + [upgradeId];
      if decisionId == "skip" || decisionId == "reject" || decisionId == "noTracking" {
        declined := declined + [upgradeId];
      }
    }
  }

  // ---- properties ----

  /** The log stays within twenty entries, newest first, each stamped with the week it happened in. */
  lemma LogStampsWeek(s: LState, message: string, kind: string, now: int)
    requires |s.events| <= LogCap
    ensures var t := Log(s, message, kind, now);
            |t.events| <= LogCap && t.events[0] == LEvent(message, kind, s.week, now)
            && t.events[1..] == s.events[..|t.events| - 1]
  {
  }

  lemma {:induction false} RegenAtLeastOne(effects: seq<GS.Effect>)
    requires forall i :: 0 <= i < |effects| ==> effects[i].energyRegen >= 0.0
    ensures EnergyRegen(effects) >= 1.0
  {
    if |effects| > 0 {
      RegenAtLeastOne(effects[..|effects| - 1]);
    }
  }

  /** Resting leaves at most 100 energy, and never less than before when it started at most 100. */
  lemma RestCapsEnergy(s: LState, pickDraw: real, now: int)
    requires 0.0 <= pickDraw < 1.0
    ensures RestStep(s, pickDraw, now).res.energy <= MaxEnergy
    ensures s.res.energy <= MaxEnergy ==> RestStep(s, pickDraw, now).res.energy >= s.res.energy
    ensures RestStep(s, pickDraw, now).res.money == s.res.money && RestStep(s, pickDraw, now).flags == s.flags
  {
  }

  /** A weekly event never touches the money, the hours, the week or the story flags. */
  lemma WeeklyEventKeeps(s: LState, roll: real, pick: real, now: int)
    requires 0.0 <= pick < 1.0
    ensures var t := WeeklyEventStep(s, roll, pick, now);
            t.res.money == s.res.money && t.res.time == s.res.time && t.week == s.week && t.flags == s.flags
            && t.upgrades == s.upgrades && t.effects == s.effects && |t.events| <= |s.events| + 1
  {
    match WeeklyTableFor(s, roll)
    case None =>
    case Some(t) => ApplyWeeklyKeeps(s, t, WeeklyEntry(t, pick), now);
  }

  lemma ApplyWeeklyKeeps(s: LState, t: WeeklyTable, e: Flavour, now: int)
    ensures var u := ApplyWeekly(s, t, e, now);
            u.res.money == s.res.money && u.res.time == s.res.time && u.week == s.week && u.flags == s.flags
            && u.upgrades == s.upgrades && u.effects == s.effects && |u.events| <= |s.events| + 1
  {
  }

  /**
   * `advanceWeek` moves to the next week with a full 100 hours; in a week
   * divisible by 4 it charges the rent and every recurring cost, and the game
   * is over exactly when that leaves the balance negative (or it was already over).
   */
  lemma AdvanceWeekCharges(s: LState, roll: real, pick: real, now: int)
    requires 0.0 <= pick < 1.0
    ensures var t := AdvanceWeekStep(s, roll, pick, now);
            t.week == s.week + 1 && t.res.time == WeekHours
            && t.res.money == (if (s.week + 1) % 4 == 0 then s.res.money - s.monthlyRent - GU.MonthlyCosts(s.effects) else s.res.money)
            && (GS.Truthy(t.flags, "gameOver")
                <==> GS.Truthy(s.flags, "gameOver") || ((s.week + 1) % 4 == 0 && t.res.money < 0.0))
  {
    var s1 := s.(week := s.week + 1, res := s.res.(time := WeekHours));
    var s2 := if s1.week % 4 == 0 then RentDayStep(s1, now) else s1;
    WeeklyEventKeeps(s2, roll, pick, now);
  }

  /** Recurring costs add up from the effects that carry one, so non-negative costs never make rent day cheaper. */
  lemma RentDayAtLeastRent(s: LState, now: int)
    requires forall i :: 0 <= i < |s.effects| ==> s.effects[i].monthlyCost >= 0.0
    ensures RentDayStep(s, now).res.money <= s.res.money - s.monthlyRent
  {
    GU.MonthlyCostsNonNegative(s.effects);
  }

  /** An action body spends no hours itself and never moves the week. */
  lemma ActionKeepsWeek(a: LAction, s: LState, draws: seq<real>, now: int)
    requires GE.ValidDraws(draws) && |draws| >= 2
    ensures ActionStep(a, s, draws, now).week == s.week
    ensures ActionStep(a, s, draws, now).res.time == s.res.time
  {
  }

  /** Every action spends hours, so a run of affordable actions always ends the week eventually. */
  lemma ActionsCostTime(a: LAction)
    ensures CostOf(ActionCost(a), Time) >= 10.0
  {
    var c := ActionCost(a);
    if |c| == 2 {
      assert c[..1] == [c[0]] && [c[0]][..0] == [];
      assert CostOf([c[0]], Time) == if c[0].0 == Time then c[0].1 else 0.0;
    } else {
      assert c[..0] == [];
    }
  }

  /** Shipping needs a codebase of 30 and, once done, is never offered again. */
  lemma ShipOnlyOnce(s: LState, now: int)
    ensures Available(Ship, s) ==> s.res.codebase >= 30.0
    ensures s.res.codebase >= 30.0 ==> !Available(Ship, ShipStep(s, now))
    ensures GS.Truthy(s.flags, GS.HasShippedFlag) ==> !Available(Ship, s)
  {
    if s.res.codebase >= 30.0 {
      var t := ShipStep(s, now);
      assert GS.HasShippedFlag in t.flags && t.flags[GS.HasShippedFlag] == GS.Bool(true);
    }
  }

  /** An iteration adds at most 10 codebase and, from 10 codebase up, at least 2. */
  lemma ImprovementBounds(codebase: real)
    requires codebase >= 10.0
    ensures 2.0 <= Improvement(codebase) <= 10.0
    ensures codebase >= 50.0 ==> Improvement(codebase) == 10.0
  {
  }

  /**
   * `executeUpgradeDecision`: unknown ids change nothing; a known decision
   * always records the upgrade, records it as declined exactly for
   * skip/reject/noTracking, and charges each cost once unless it is free.
   */
  lemma DecisionBookkeeping(upgradeId: string, decisionId: string, s: LState, now: int)
    ensures ParseUpgrade(upgradeId).None? ==> ExecuteDecisionStep(upgradeId, decisionId, s, now) == s
    ensures ParseUpgrade(upgradeId).Some? && decisionId !in Decisions(ParseUpgrade(upgradeId).value)
            ==> ExecuteDecisionStep(upgradeId, decisionId, s, now) == s
    ensures ParseUpgrade(upgradeId).Some? && decisionId in Decisions(ParseUpgrade(upgradeId).value) ==>
              var t := ExecuteDecisionStep(upgradeId, decisionId, s, now);
              t.upgrades == s.upgrades + [upgradeId]
              && t.declined == s.declined + (if Declines(decisionId) then [upgradeId] else [])
              && HasUpgrade(t, upgradeId)
  {
  }

  /** A paid decision (neither skip nor reject) charges each cost entry once, then runs its effect and records the upgrade. */
  lemma PaidDecisionCharges(u: LUpgrade, d: string, s: LState, now: int, r: LR)
    requires d in Decisions(u) && !Free(d)
    ensures ExecuteDecisionStep(UpgradeKey(u), d, s, now) ==
            var s2 := DecisionEffect(u, d, s.(res := Deducted(s.res, UpgradeCost(u))), now);
            var s3 := s2.(upgrades := s2.upgrades + [UpgradeKey(u)]);
            if Declines(d) then s3.(declined := s3.declined + [UpgradeKey(u)]) else s3
    ensures Deducted(s.res, UpgradeCost(u)).Get(r) == s.res.Get(r) - CostOf(UpgradeCost(u), r)
  {
    assert ParseUpgrade(UpgradeKey(u)) == Some(u);
    DeductedSubtractsEachCost(s.res, UpgradeCost(u), r);
  }

  /** Once decided, an upgrade is never offered again. */
  lemma DecidedNeverOffered(u: LUpgrade, s: LState, d: string, now: int)
    requires d in Decisions(u)
    ensures !Offered(u, ExecuteDecisionStep(UpgradeKey(u), d, s, now))
  {
    DecisionBookkeeping(UpgradeKey(u), d, s, now);
  }
}
