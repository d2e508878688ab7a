/**
 * The central state record of the incremental game (claude-code-game/js/state.js),
 * shared by the PR, event, action and upgrade rules. JavaScript numbers are
 * exact reals here; `Math.floor` is `.Floor`.
 *
 * state.js declares only part of what the other files read: the resources
 * energy, reputation and githubStars, and the fields codingProgress,
 * codingClicksNeeded, pathResources, branch, monthlyRent, trendingTech,
 * projectTech, focus and competitor are used by actions.js, events.js and
 * upgrades.js without a declaration. The model declares them all; the
 * constructor gives the undeclared ones neutral starting values.
 */
module GameState {
  import opened Util

  datatype Res = Codebase | TechDebt | Trust | ApiCredits | Money | Energy | Reputation | GithubStars

  datatype Resources = Resources(
    codebase: real,
    techDebt: real,
    trust: real,
    apiCredits: real,
    money: real,
    energy: real,
    reputation: real,
    githubStars: real)
  {
    /** `resources[r]` */
    function Get(r: Res): real {
      match r
      case Codebase => codebase
      case TechDebt => techDebt
      case Trust => trust
      case ApiCredits => apiCredits
      case Money => money
      case Energy => energy
      case Reputation => reputation
      case GithubStars => githubStars
    }

    /** `resources[r] = v` */
    function Set(r: Res, v: real): (s: Resources)
      ensures s.Get(r) == v
      ensures forall q :: q != r ==> s.Get(q) == Get(q)
    {
      match r
      case Codebase => this.(codebase := v)
      case TechDebt => this.(techDebt := v)
      case Trust => this.(trust := v)
      case ApiCredits => this.(apiCredits := v)
      case Money => this.(money := v)
      case Energy => this.(energy := v)
      case Reputation => this.(reputation := v)
      case GithubStars => this.(githubStars := v)
    }
  }

  /** A cost object, as the ordered entries `Object.entries(cost)` visits. */
  type Costs = seq<(Res, real)>

  /** The `canAfford…` loop: no entry asks for more than the matching resource holds. */
  predicate Affordable(res: Resources, costs: Costs) {
    forall k :: 0 <= k < |costs| ==> res.Get(costs[k].0) >= costs[k].1
  }

  /** The result of `resources[r] -= c` for each entry in turn. */
  function Deducted(res: Resources, costs: Costs): Resources {
    if |costs| == 0 then res
    else
      var prev := Deducted(res, costs[..|costs| - 1]);
      var (r, c) := costs[|costs| - 1];
      prev.Set(r, prev.Get(r) - c)
  }

  /** Total of the entries of `costs` that name `r`. */
  function CostOf(costs: Costs, r: Res): real {
    if |costs| == 0 then 0.0
    else CostOf(costs[..|costs| - 1], r) + (if costs[|costs| - 1].0 == r then costs[|costs| - 1].1 else 0.0)
  }

  /** Each cost entry is subtracted exactly once from its own resource. */
  lemma {:induction false} DeductedSubtractsEachCost(res: Resources, costs: Costs, r: Res)
    ensures Deducted(res, costs).Get(r) == res.Get(r) - CostOf(costs, r)
  {
    if |costs| > 0 {
      DeductedSubtractsEachCost(res, costs[..|costs| - 1], r);
    }
  }

  /** The cost loop, as `executeAction` and `executeUpgradeDecision` run it. */
  method DeductCosts(res: Resources, costs: Costs) returns (out: Resources)
    ensures out == Deducted(res, costs)
    ensures forall r :: out.Get(r) == res.Get(r) - CostOf(costs, r)
  {
    out := res;
    var i := 0;
    while i < |costs|
      invariant 0 <= i <= |costs|
      invariant out == Deducted(res, costs[..i])
    {
      assert costs[..i + 1][..i] == costs[..i];
      out := out.Set(costs[i].0, out.Get(costs[i].0) - costs[i].1);
      i := i + 1;
    }
    assert costs[..|costs|] == costs;
    forall r ensures out.Get(r) == res.Get(r) - CostOf(costs, r) {
      DeductedSubtractsEachCost(res, costs, r);
    }
  }

  /**
   * When the entries name distinct resources, an affordable cost leaves every
   * named resource non-negative and every other resource as it was.
   */
  lemma AffordableKeepsNonNegative(res: Resources, costs: Costs)
    requires Affordable(res, costs)
    requires forall i, j :: 0 <= i < j < |costs| ==> costs[i].0 != costs[j].0
    ensures forall k :: 0 <= k < |costs| ==> Deducted(res, costs).Get(costs[k].0) >= 0.0
    ensures forall r :: (forall k :: 0 <= k < |costs| ==> costs[k].0 != r) ==> Deducted(res, costs).Get(r) == res.Get(r)
  {
    forall r: Res
      ensures Deducted(res, costs).Get(r) == res.Get(r) - CostOf(costs, r)
      ensures (forall k :: 0 <= k < |costs| ==> costs[k].0 != r) ==> CostOf(costs, r) == 0.0
      ensures forall k :: 0 <= k < |costs| && costs[k].0 == r ==> CostOf(costs, r) == costs[k].1
    {
      DeductedSubtractsEachCost(res, costs, r);
      CostOfDistinct(costs, r);
    }
  }

  lemma {:induction false} CostOfDistinct(costs: Costs, r: Res)
    requires forall i, j :: 0 <= i < j < |costs| ==> costs[i].0 != costs[j].0
    ensures (forall k :: 0 <= k < |costs| ==> costs[k].0 != r) ==> CostOf(costs, r) == 0.0
    ensures forall k :: 0 <= k < |costs| && costs[k].0 == r ==> CostOf(costs, r) == costs[k].1
  {
    if |costs| > 0 {
      CostOfDistinct(costs[..|costs| - 1], r);
    }
  }

  /** A story flag: the `narrative.flags` object holds booleans, counters and words. */
  datatype Flag = Bool(b: bool) | Num(n: real) | Text(s: string)

  type Flags = map<string, Flag>

  // the flags the narrative triggers read and set
  const HasShippedFlag := "hasShipped"
  const FirstSuccessFlag := "firstSuccessTrigger"
  const MoneyWarningFlag := "moneyWarning"

  /** JavaScript truthiness of `flags[key]` (an absent key is `undefined`). */
  predicate Truthy(flags: Flags, key: string) {
    key in flags &&
    match flags[key]
    case Bool(b) => b
    case Num(n) => n != 0.0
    case Text(s) => s != ""
  }

  /** `flags[key] || 0` for a counter flag. */
  function Count(flags: Flags, key: string): (r: real)
    ensures key !in flags ==> r == 0.0
    ensures key in flags && flags[key].Num? ==> r == flags[key].n
  {
    if key in flags && flags[key].Num? then flags[key].n else 0.0
  }

  datatype Event = Event(message: string, kind: string, timestamp: int)

  datatype PR = PR(id: nat, title: string, quality: real, hasBug: bool, codebaseGain: int, techDebtGain: int)

  /** A passive effect; JavaScript's absent field (falsy) is 0 here. */
  datatype Effect = Effect(
    id: string,
    energyRegen: real,
    codebaseMultiplier: real,
    monthlyCost: real,
    weeklyIncome: real,
    weeklyCodebase: real)

  function NoEffect(id: string): Effect {
    Effect(id, 0.0, 0.0, 0.0, 0.0, 0.0)
  }

  datatype Settings = Settings(
    autoMergePRs: bool,
    vibeMode: bool,
    claudeCodeAssist: bool,
    smartAutoMerge: bool,
    batchReview: bool)

  /** Path-specific resources; `null` is `None`. */
  datatype PathResources = PathResources(
    userTrust: Option<real>,
    craftMastery: Option<real>,
    runway: Option<real>,
    aiCapability: Option<real>,
    oversight: Option<real>,
    dependency: Option<real>)

  datatype Competitor = Competitor(name: string, stars: int, momentum: real, tech: string)

  /** `Math.max` */
  function Max(a: real, b: real): real {
    if a >= b then a else b
  }

  /** `Math.min` */
  function Min(a: real, b: real): real {
    if a <= b then a else b
  }

  type PositiveReal = r: real | r > 0.0 witness 1.0

  function InitialResources(energy: real): (r: Resources)
    ensures r.codebase == 0.0 && r.techDebt == 0.0 && r.apiCredits == 0.0 && r.money == 0.0
    ensures r.trust == 50.0
  {
    Resources(0.0, 0.0, 50.0, 0.0, 0.0, energy, 0.0, 0.0)
  }

  class Game {
    var resources: Resources
    var completedTasks: seq<string>
    var clickMultiplier: real
    var prQueue: seq<PR>
    var events: seq<Event>
    var flags: Flags
    var ticksPlayed: nat
    var upgrades: seq<string>
    var declinedUpgrades: seq<string>
    var passiveEffects: seq<Effect>
    var settings: Settings
    // read by the other files but not declared in state.js
    var branch: string
    var monthlyRent: real
    var pathResources: PathResources
    var codingProgress: real
    var codingClicksNeeded: PositiveReal
    var trendingTech: Option<string>
    var projectTech: Option<string>
    var focus: Option<string>
    var competitor: Option<Competitor>

    /** The record as state.js declares it; `energy`, `codingClicksNeeded` and `monthlyRent` are supplied. */
    constructor(energy: real, codingClicksNeeded: PositiveReal, monthlyRent: real)
      ensures resources == InitialResources(energy)
      ensures completedTasks == [] && prQueue == [] && events == [] && flags == map[]
      ensures clickMultiplier == 1.0 && ticksPlayed == 0
      ensures upgrades == [] && declinedUpgrades == [] && passiveEffects == []
      ensures settings == Settings(false, false, false, false, false)
      ensures branch == "" && this.monthlyRent == monthlyRent
      ensures pathResources == PathResources(None, None, None, None, None, None)
      ensures codingProgress == 0.0 && this.codingClicksNeeded == codingClicksNeeded
      ensures trendingTech == None && projectTech == None && focus == None && competitor == None
    {
      resources := InitialResources(energy);
      completedTasks := [];
      clickMultiplier := 1.0;
      prQueue := [];
      events := [];
      flags := map[];
      ticksPlayed := 0;
      upgrades := [];
      declinedUpgrades := [];
      passiveEffects := [];
      settings := Settings(false, false, false, false, false);
      branch := "";
      this.monthlyRent := monthlyRent;
      pathResources := PathResources(None, None, None, None, None, None);
      codingProgress := 0.0;
      this.codingClicksNeeded := codingClicksNeeded;
      trendingTech := None;
      projectTech := None;
      focus := None;
      competitor := None;
    }

    /** `hasUpgrade`: the upgrade was decided, either taken or declined. */
    predicate HasUpgrade(id: string)
      reads this
    {
      Decided(upgrades, declinedUpgrades, id)
    }
  }

  predicate Decided(upgrades: seq<string>, declined: seq<string>, id: string) {
    id in upgrades || id in declined
  }

  /** The `visibility` helpers of state.js. */
  datatype Visibility = Visibility(
    techDebt: bool,
    multiplier: bool,
    apiCredits: bool,
    money: bool,
    claudeCodeToggle: bool)

  function VisibilityOf(res: Resources, flags: Flags): (v: Visibility)
    ensures v.techDebt <==> res.techDebt > 0.0
    ensures v.multiplier == v.apiCredits == v.claudeCodeToggle == Truthy(flags, "claudeCodeUnlocked")
    ensures v.money <==> Truthy(flags, "moneyRevealed") || (v.apiCredits && res.apiCredits < 50.0)
  {
    var unlocked := Truthy(flags, "claudeCodeUnlocked");
    Visibility(
      res.techDebt > 0.0,
      unlocked,
      unlocked,
      Truthy(flags, "moneyRevealed") || (unlocked && res.apiCredits < 50.0),
      unlocked)
  }

  /** A new game shows none of the optional resources. */
  lemma NothingVisibleAtStart(energy: real)
    ensures VisibilityOf(InitialResources(energy), map[]) == Visibility(false, false, false, false, false)
  {
  }

  /** Unlocking Claude Code with no credits bought reveals money, whatever moneyRevealed says. */
  lemma MoneyShownWhenCreditsRunLow(res: Resources, flags: Flags)
    requires Truthy(flags, "claudeCodeUnlocked") && res.apiCredits < 50.0
    ensures VisibilityOf(res, flags).money
    ensures VisibilityOf(res, flags["moneyRevealed" := Bool(false)]).money
  {
  }
}
