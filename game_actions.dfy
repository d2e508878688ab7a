/**
 * The weekly actions of the incremental game (claude-code-game/js/actions.js):
 * their costs, when each is offered, and what the deterministic ones do to
 * the resources. The state-changing `execute` bodies are in module GamePlay.
 */
module GameActions {
  import opened Util
  import opened GameState
  import opened GameEvents

  datatype ActionId =
    | Code | VibeCode | Iterate | Refactor | Freelance | Rest | Network | Ship
    | ReleaseUpdate | Market | Support | PostToHN | OpenSource

  /** The key of the action in the `actions` table. */
  function ActionKey(a: ActionId): string {
    match a
    case Code => "code"
    case VibeCode => "vibeCode"
    case Iterate => "iterate"
    case Refactor => "refactor"
    case Freelance => "freelance"
    case Rest => "rest"
    case Network => "network"
    case Ship => "ship"
    case ReleaseUpdate => "releaseUpdate"
    case Market => "market"
    case Support => "support"
    case PostToHN => "postToHN"
    case OpenSource => "openSource"
  }

  /** `actions[actionId]`, `None` for an id the table does not have. */
  function ParseAction(id: string): (r: Option<ActionId>)
    ensures r.Some? ==> ActionKey(r.value) == id
  {
    if id == "code" then Some(Code)
    else if id == "vibeCode" then Some(VibeCode)
    else if id == "iterate" then Some(Iterate)
    else if id == "refactor" then Some(Refactor)
    else if id == "freelance" then Some(Freelance)
    else if id == "rest" then Some(Rest)
    else if id == "network" then Some(Network)
    else if id == "ship" then Some(Ship)
    else if id == "releaseUpdate" then Some(ReleaseUpdate)
    else if id == "market" then Some(Market)
    else if id == "support" then Some(Support)
    else if id == "postToHN" then Some(PostToHN)
    else if id == "openSource" then Some(OpenSource)
    else None
  }

  /** Every action is found under its own key, so the lookup and the keys agree. */
  lemma ParseActionKey(a: ActionId)
    ensures ParseAction(ActionKey(a)) == Some(a)
  {
  }

  /** The `cost` object of each action. */
  function ActionCost(a: ActionId): Costs {
    match a
    case Code => [(Energy, 5.0)]
    case VibeCode => [(Energy, 25.0)]
    case Iterate => [(Energy, 20.0)]
    case Refactor => [(Energy, 35.0)]
    case Freelance => [(Energy, 40.0)]
    case Rest => []
    case Network => [(Energy, 20.0)]
    case Ship => [(Energy, 50.0)]
    case ReleaseUpdate => [(Energy, 40.0)]
    case Market => [(Energy, 25.0), (Money, 50.0)]
    case Support => [(Energy, 20.0)]
    case PostToHN => [(Energy, 30.0)]
    case OpenSource => [(Energy, 25.0)]
  }

  /** `canAffordAction` */
  predicate CanAffordAction(res: Resources, a: ActionId) {
    Affordable(res, ActionCost(a))
  }

  /**
   * Paying for an affordable action leaves every resource it charges
   * non-negative, takes exactly the listed amount, and touches nothing else.
   */
  lemma PayingForAnAction(res: Resources, a: ActionId)
    requires CanAffordAction(res, a)
    ensures forall k :: 0 <= k < |ActionCost(a)| ==> Deducted(res, ActionCost(a)).Get(ActionCost(a)[k].0) >= 0.0
    ensures forall r :: Deducted(res, ActionCost(a)).Get(r) == res.Get(r) - CostOf(ActionCost(a), r)
    ensures a != Market ==> Deducted(res, ActionCost(a)).money == res.money
  {
    AffordableKeepsNonNegative(res, ActionCost(a));
    forall r ensures Deducted(res, ActionCost(a)).Get(r) == res.Get(r) - CostOf(ActionCost(a), r) {
      DeductedSubtractsEachCost(res, ActionCost(a), r);
    }
    DeductedSubtractsEachCost(res, ActionCost(a), Money);
  }

  /** Resting is free, so it is always affordable. */
  lemma RestAlwaysAffordable(res: Resources)
    ensures CanAffordAction(res, Rest)
    ensures Deducted(res, ActionCost(Rest)) == res
  {
  }

  /** Each action's `available()`; `vibeUnlocked` is `hasUpgrade('vibeCode')`. */
  predicate Available(a: ActionId, res: Resources, flags: Flags, vibeUnlocked: bool) {
    match a
    case Code => !vibeUnlocked
    case VibeCode => vibeUnlocked
    case Iterate => res.codebase >= 10.0
    case Refactor => res.techDebt >= 5.0
    case Freelance => res.codebase >= 10.0
    case Rest => res.codebase > 0.0
    case Network => res.codebase >= 20.0
    case Ship => res.codebase >= 30.0 && !Truthy(flags, HasShippedFlag)
    case ReleaseUpdate => Truthy(flags, HasShippedFlag) && res.codebase >= 50.0
    case Market => Truthy(flags, HasShippedFlag)
    case Support => Truthy(flags, HasShippedFlag) && Count(flags, "users") > 5.0
    case PostToHN => res.codebase >= 20.0
    case OpenSource => res.codebase >= 15.0
  }

  /** Manual coding and vibe coding replace each other: exactly one of them is offered. */
  lemma CodeOrVibe(res: Resources, flags: Flags, vibeUnlocked: bool)
    ensures Available(Code, res, flags, vibeUnlocked) != Available(VibeCode, res, flags, vibeUnlocked)
  {
  }

  /** Shipping is offered only before the first ship; the post-launch actions only after it. */
  lemma ShipComesFirst(res: Resources, flags: Flags, vibeUnlocked: bool)
    ensures Truthy(flags, HasShippedFlag) ==> !Available(Ship, res, flags, vibeUnlocked)
    ensures (Available(ReleaseUpdate, res, flags, vibeUnlocked) || Available(Market, res, flags, vibeUnlocked)
             || Available(Support, res, flags, vibeUnlocked)) ==> !Available(Ship, res, flags, vibeUnlocked)
  {
  }

  /** A fresh game offers only manual coding: everything else needs codebase, debt or a launch. */
  lemma FreshGameOffersCode(energy: real, a: ActionId)
    requires Available(a, InitialResources(energy), map[], false)
    ensures a == Code
  {
  }

  // ---- iterate ----

  function IterateImprovement(codebase: real): int {
    Min(10.0, codebase * 0.2).Floor
  }

  /** The resources after `iterate`: nothing below codebase 10, else improve and pay down up to 3 debt. */
  function IterateOutcome(res: Resources): (r: Resources)
    ensures res.codebase < 10.0 ==> r == res
    ensures res.codebase >= 10.0 ==> 2.0 <= r.codebase - res.codebase <= 10.0
    ensures res.codebase >= 10.0 && res.techDebt >= 0.0 ==> r.techDebt == Max(0.0, res.techDebt - 3.0)
    ensures r.(codebase := res.codebase, techDebt := res.techDebt) == res
  {
    if res.codebase < 10.0 then res
    else
      res.(codebase := res.codebase + IterateImprovement(res.codebase) as real,
           techDebt := res.techDebt - Min(res.techDebt, 3.0))
  }

  /** The improvement is a fifth of the codebase, rounded down, and never more than 10. */
  lemma IterateImprovementCapped(codebase: real)
    requires codebase >= 10.0
    ensures IterateImprovement(codebase) == if codebase >= 50.0 then 10 else (codebase / 5.0).Floor
  {
  }

  // ---- refactor ----

  function RefactorReduction(debt: real): real {
    Min(debt, (debt * 0.5).Floor as real + 5.0)
  }

  /** The resources after `refactor`; `breakDraw` below 0.15 breaks a tenth of the codebase. */
  function RefactorOutcome(res: Resources, breakDraw: real): (r: Resources)
    ensures res.techDebt >= 0.0 ==> 0.0 <= r.techDebt <= res.techDebt / 2.0
    ensures res.techDebt >= 5.0 ==> res.techDebt - r.techDebt >= 5.0
    ensures breakDraw >= 0.15 ==> r.codebase == res.codebase
    ensures breakDraw < 0.15 && res.codebase >= 0.0 ==> 0.9 * res.codebase <= r.codebase <= res.codebase
    ensures r.(codebase := res.codebase, techDebt := res.techDebt) == res
  {
    var r := res.(techDebt := res.techDebt - RefactorReduction(res.techDebt));
    if breakDraw < 0.15 then r.(codebase := r.codebase - (r.codebase * 0.1).Floor as real) else r
  }

  // ---- freelance ----

  /** A client type; a `minRep` or `energyDrain` of 0 stands for an absent field. */
  datatype Client = Client(
    description: string,
    low: int,
    high: int,
    repGain: nat,
    hassle: real,
    minRep: nat,
    energyDrain: real)

  const Startup := Client("Quick startup gig", 150, 250, 1, 0.1, 0, 0.0)
  const Enterprise := Client("Enterprise contract", 300, 500, 2, 0.3, 10, 0.0)
  const Agency := Client("Agency project", 200, 350, 1, 0.2, 0, 0.0)
  const Friend := Client("Helped a friend's startup", 50, 150, 3, 0.0, 0, 0.0)
  const Nightmare := Client("Nightmare client", 400, 600, 0, 0.6, 0, 20.0)

  const Clients: seq<Client> := [Startup, Enterprise, Agency, Friend, Nightmare]

  /** `clients.filter(c => !c.minRep || reputation >= c.minRep)` */
  function ClientsFor(clients: seq<Client>, reputation: real): (r: seq<Client>)
    ensures forall c :: c in r <==> c in clients && (c.minRep == 0 || reputation >= c.minRep as real)
  {
    if |clients| == 0 then []
    else
      var rest := ClientsFor(clients[..|clients| - 1], reputation);
      var c := clients[|clients| - 1];
      assert clients == clients[..|clients| - 1] + [c];
      if c.minRep == 0 || reputation >= c.minRep as real then rest + [c] else rest
  }

  function OfferedClients(reputation: real): (r: seq<Client>)
    ensures Startup in r && |r| > 0
    ensures forall c :: c in r ==> c in Clients
  {
    ClientsFor(Clients, reputation)
  }

  /** The enterprise contract needs reputation 10; every other client is always on offer. */
  lemma EnterpriseNeedsReputation(reputation: real)
    ensures Enterprise in OfferedClients(reputation) <==> reputation >= 10.0
    ensures Startup in OfferedClients(reputation) && Agency in OfferedClients(reputation)
    ensures Friend in OfferedClients(reputation) && Nightmare in OfferedClients(reputation)
  {
  }

  /** `low + floor(draw * (high - low))`, then scaled by the reputation bonus. */
  function FreelancePay(c: Client, reputation: real, payDraw: real): int {
    var basePay := c.low + (payDraw * (c.high - c.low) as real).Floor;
    (basePay as real * (1.0 + reputation / 100.0)).Floor
  }

  /** With reputation between 0 and 100 the pay is at least the client's floor and below twice its ceiling. */
  lemma FreelancePayBounds(c: Client, reputation: real, payDraw: real)
    requires c in Clients && 0.0 <= reputation <= 100.0 && 0.0 <= payDraw < 1.0
    ensures c.low <= FreelancePay(c, reputation, payDraw) < 2 * c.high
  {
    var spread := (c.high - c.low) as real;
    var basePay := c.low + (payDraw * spread).Floor;
    assert 0.0 <= payDraw * spread < spread;
    assert c.low <= basePay < c.high;
    var bonus := 1.0 + reputation / 100.0;
    assert basePay as real <= basePay as real * bonus <= 2.0 * basePay as real;
  }

  /** The resources after a freelance job: paid, reputation capped at 100, a nightmare drains energy. */
  function FreelanceResources(res: Resources, c: Client, pay: int, insight: bool): (r: Resources)
    ensures r.money == res.money + pay as real
    ensures r.reputation <= 100.0
    ensures res.reputation <= 100.0 ==> r.reputation >= res.reputation
    ensures res.energy >= 0.0 ==> r.energy >= 0.0
    ensures c.energyDrain == 0.0 ==> r.energy == res.energy
    ensures r.codebase == if insight then res.codebase + 2.0 else res.codebase
    ensures r.(money := res.money, reputation := res.reputation, energy := res.energy, codebase := res.codebase) == res
  {
    var r := res.(money := res.money + pay as real,
                  reputation := Min(100.0, res.reputation + c.repGain as real));
    var r := if c.energyDrain > 0.0 then r.(energy := Max(0.0, r.energy - c.energyDrain)) else r;
    if insight then r.(codebase := r.codebase + 2.0) else r
  }

  /**
   * The draws of a freelance job, in the order the source makes them: the
   * client, the pay, the hassle test, the hassle line (only when the test
   * passes) and the insight test.
   */
  function FreelanceClient(res: Resources, draws: seq<real>): Client
    requires ValidDraws(draws) && |draws| >= 5
  {
    Pick(OfferedClients(res.reputation), draws[0])
  }

  function FreelanceInsightDraw(res: Resources, draws: seq<real>): real
    requires ValidDraws(draws) && |draws| >= 5
  {
    if draws[2] < FreelanceClient(res, draws).hassle then draws[4] else draws[3]
  }

  function FreelanceOutcome(res: Resources, draws: seq<real>): Resources
    requires ValidDraws(draws) && |draws| >= 5
  {
    var c := FreelanceClient(res, draws);
    FreelanceResources(res, c, FreelancePay(c, res.reputation, draws[1]), FreelanceInsightDraw(res, draws) > 0.8)
  }

  /** A freelance job always earns money and never pushes reputation past 100. */
  lemma FreelanceEarns(res: Resources, draws: seq<real>)
    requires ValidDraws(draws) && |draws| >= 5 && 0.0 <= res.reputation <= 100.0
    ensures FreelanceOutcome(res, draws).money >= res.money + 50.0
    ensures res.reputation <= FreelanceOutcome(res, draws).reputation <= 100.0
  {
    var c := FreelanceClient(res, draws);
    FreelancePayBounds(c, res.reputation, draws[1]);
  }

  // ---- network ----

  datatype Activity = Activity(message: string, repGain: nat)

  // what each outing logs
  const MeetupLine := "You attended a tech meetup. Made some connections, got a few business cards."
  const ThreadLine := "You posted a technical thread on Twitter. It did... okay. A few likes."
  const StackOverflowLine := "You helped someone on Stack Overflow. Feels good to give back."
  const HnCommentLine := "You commented on a popular HN thread. Someone agreed with you!"
  const DiscordLine := "You joined a Discord for indie hackers. Good vibes."
  const StreamLine := "You streamed some coding. Three viewers! All bots probably, but still."
  const BlogPostLine := "You wrote a blog post about something you learned. It got shared!"
  const FeedbackLine := "You gave feedback on someone's project. They were grateful."

  const Activities: seq<Activity> := [
    Activity(MeetupLine, 2),
    Activity(ThreadLine, 1),
    Activity(StackOverflowLine, 2),
    Activity(HnCommentLine, 1),
    Activity(DiscordLine, 1),
    Activity(StreamLine, 1),
    Activity(BlogPostLine, 3),
    Activity(FeedbackLine, 2)
  ]

  datatype Bonus = Collab | ClientLead | Follower

  const Bonuses: seq<Bonus> := [Collab, ClientLead, Follower]

  const CollabLine := "Someone reached out about a collaboration!"
  const ClientLeadLine := "A potential client saw your work!"
  const FollowerLine := "You got a follower who's actually relevant!"

  function BonusMessage(b: Bonus): string {
    match b
    case Collab => CollabLine
    case ClientLead => ClientLeadLine
    case Follower => FollowerLine
  }

  /** `0.3 + reputation / 200` */
  function NetworkChance(reputation: real): real {
    0.3 + reputation / 200.0
  }

  /** The reputation an outing earns, with the follower bonus added. */
  function NetworkGain(activity: Activity, bonus: Option<Bonus>): (n: nat)
    ensures n >= activity.repGain
    ensures bonus == Some(Follower) <==> n == activity.repGain + 2
  {
    if bonus == Some(Follower) then activity.repGain + 2 else activity.repGain
  }

  /** The resources after networking: a client lead pays 50, and reputation is capped at 100. */
  function NetworkResources(res: Resources, activity: Activity, bonus: Option<Bonus>): (r: Resources)
    ensures r.money == if bonus == Some(ClientLead) then res.money + 50.0 else res.money
    ensures r.reputation <= 100.0
    ensures res.reputation <= 100.0 ==> r.reputation >= res.reputation
    ensures r.(money := res.money, reputation := res.reputation) == res
  {
    var r := if bonus == Some(ClientLead) then res.(money := res.money + 50.0) else res;
    r.(reputation := Min(100.0, r.reputation + NetworkGain(activity, bonus) as real))
  }

  /** The draws of an outing: the activity, the chance test and the bonus (only when the test passes). */
  function NetworkBonus(res: Resources, draws: seq<real>): Option<Bonus>
    requires ValidDraws(draws) && |draws| >= 3
  {
    if draws[1] < NetworkChance(res.reputation) then Some(Pick(Bonuses, draws[2])) else None
  }

  function NetworkOutcome(res: Resources, draws: seq<real>): Resources
    requires ValidDraws(draws) && |draws| >= 3
  {
    NetworkResources(res, Pick(Activities, draws[0]), NetworkBonus(res, draws))
  }

  /** Good reputation makes a bonus likelier: at reputation 100 the chance is 0.8. */
  lemma NetworkChanceGrows(r1: real, r2: real)
    requires r1 <= r2
    ensures NetworkChance(r1) <= NetworkChance(r2)
    ensures NetworkChance(0.0) == 0.3 && NetworkChance(100.0) == 0.8
  {
  }

  // ---- rest ----

  /** The resources after `rest`: 40 energy back, capped at 100. */
  function RestOutcome(res: Resources): (r: Resources)
    ensures r.energy <= 100.0
    ensures res.energy <= 100.0 ==> r.energy >= res.energy
    ensures res.energy <= 60.0 ==> r.energy == res.energy + 40.0
    ensures r.(energy := res.energy) == res
  {
    res.(energy := Min(100.0, res.energy + 40.0))
  }

  // ---- ship ----

  /** `max(0, codebase - 2 * techDebt)` */
  function EffectiveQuality(codebase: real, techDebt: real): (q: real)
    ensures q >= 0.0
    ensures techDebt >= 0.0 ==> q <= Max(0.0, codebase)
    ensures techDebt == 0.0 && codebase >= 0.0 ==> q == codebase
  {
    Max(0.0, codebase - techDebt * 2.0)
  }

  /** Day-one users: a tenth of the reputation-weighted quality, halved when debt is above 10. */
  function LaunchUsers(res: Resources): (n: int)
    ensures res.reputation >= 0.0 ==> n >= 0
  {
    var q := EffectiveQuality(res.codebase, res.techDebt);
    var users := (q * (1.0 + res.reputation / 50.0) / 10.0).Floor;
    if res.techDebt > 10.0 then (users as real * 0.5).Floor else users
  }

  datatype Launch = Hit | Mixed | Flop

  function LaunchTier(quality: real): Launch {
    if quality >= 70.0 then Hit else if quality >= 40.0 then Mixed else Flop
  }

  function LaunchRank(l: Launch): nat {
    match l
    case Flop => 0
    case Mixed => 1
    case Hit => 2
  }

  /** The reputation a launch of each tier earns. */
  function LaunchReputation(l: Launch): real {
    match l
    case Hit => 5.0
    case Mixed => 2.0
    case Flop => 1.0
  }

  /** The resources after `ship`: nothing below codebase 30, else the tier's reputation. */
  function ShipOutcome(res: Resources): (r: Resources)
    ensures res.codebase < 30.0 ==> r == res
    ensures res.codebase >= 30.0 ==>
              r.reputation - res.reputation == LaunchReputation(LaunchTier(EffectiveQuality(res.codebase, res.techDebt)))
    ensures r.(reputation := res.reputation) == res
  {
    if res.codebase < 30.0 then res
    else res.(reputation := res.reputation + LaunchReputation(LaunchTier(EffectiveQuality(res.codebase, res.techDebt))))
  }

  /** More code never makes a launch worse; more debt never makes it better. */
  lemma LaunchMonotone(cb1: real, cb2: real, td1: real, td2: real)
    requires cb1 <= cb2 && td2 <= td1
    ensures EffectiveQuality(cb1, td1) <= EffectiveQuality(cb2, td2)
    ensures LaunchRank(LaunchTier(EffectiveQuality(cb1, td1))) <= LaunchRank(LaunchTier(EffectiveQuality(cb2, td2)))
  {
  }

  /** A debt-free launch of codebase 70 or more is a hit; with debt of 20 or more, a codebase below 110 cannot be. */
  lemma DebtSinksLaunch(codebase: real, techDebt: real)
    requires techDebt >= 0.0
    ensures techDebt == 0.0 && codebase >= 70.0 ==> LaunchTier(EffectiveQuality(codebase, techDebt)) == Hit
    ensures techDebt >= 20.0 && codebase < 110.0 ==> LaunchTier(EffectiveQuality(codebase, techDebt)) != Hit
  {
  }
}
