/**
 * The branching decisions of claude-code-game/js/upgrades.js: the upgrade
 * table (cost, decision ids, effect and offer condition of each upgrade),
 * `canAffordUpgrade` and `executeUpgradeDecision`.
 *
 * An effect closure changes a handful of game fields; here the fields an
 * effect may touch are gathered in a `Scope` value and each decision is the
 * pure function `Apply`, which `ExecuteUpgradeDecision` writes back.
 */
module GameUpgrades {
  import opened Util
  import opened GameState
  import opened GameEvents

  datatype UpgradeId =
    | ProjectFocus | VibeCode | AutoMerge | UserAnalytics | FirstRevenue
    | AiCodingAssistant | Sponsorship | SecondMonitor | TestSuite | PivotProject
    | StarMilestone50 | StarMilestone500 | HireHelp | VcOffer | AcquiOffer
    | SustainableSuccess | StarMilestone2000

  /** The key of the upgrade in `upgradeDefinitions` (also its `id` field). */
  function UpgradeKey(u: UpgradeId): string {
    match u
    case ProjectFocus => "projectFocus"
    case VibeCode => "vibeCode"
    case AutoMerge => "autoMerge"
    case UserAnalytics => "userAnalytics"
    case FirstRevenue => "firstRevenue"
    case AiCodingAssistant => "aiCodingAssistant"
    case Sponsorship => "sponsorship"
    case SecondMonitor => "secondMonitor"
    case TestSuite => "testSuite"
    case PivotProject => "pivotProject"
    case StarMilestone50 => "starMilestone50"
    case StarMilestone500 => "starMilestone500"
    case HireHelp => "hireHelp"
    case VcOffer => "vcOffer"
    case AcquiOffer => "acquiOffer"
    case SustainableSuccess => "sustainableSuccess"
    case StarMilestone2000 => "starMilestone2000"
  }

  /** `upgradeDefinitions[upgradeId]`: `None` for a key the table does not have. */
  function ParseUpgrade(key: string): (r: Option<UpgradeId>)
    ensures r.Some? ==> UpgradeKey(r.value) == key
  {
    if key == "projectFocus" then Some(ProjectFocus)
    else if key == "vibeCode" then Some(VibeCode)
    else if key == "autoMerge" then Some(AutoMerge)
    else if key == "userAnalytics" then Some(UserAnalytics)
    else if key == "firstRevenue" then Some(FirstRevenue)
    else if key == "aiCodingAssistant" then Some(AiCodingAssistant)
    else if key == "sponsorship" then Some(Sponsorship)
    else if key == "secondMonitor" then Some(SecondMonitor)
    else if key == "testSuite" then Some(TestSuite)
    else if key == "pivotProject" then Some(PivotProject)
    else if key == "starMilestone50" then Some(StarMilestone50)
    else if key == "starMilestone500" then Some(StarMilestone500)
    else if key == "hireHelp" then Some(HireHelp)
    else if key == "vcOffer" then Some(VcOffer)
    else if key == "acquiOffer" then Some(AcquiOffer)
    else if key == "sustainableSuccess" then Some(SustainableSuccess)
    else if key == "starMilestone2000" then Some(StarMilestone2000)
    else None
  }

  /** Every upgrade is found under its own key, and under no other. */
  lemma UpgradeKeyRoundTrip(u: UpgradeId, key: string)
    ensures ParseUpgrade(UpgradeKey(u)) == Some(u)
    ensures ParseUpgrade(key) == Some(u) ==> key == UpgradeKey(u)
  {
    match u
    case ProjectFocus =>
    case VibeCode =>
    case AutoMerge =>
    case UserAnalytics =>
    case FirstRevenue =>
    case AiCodingAssistant =>
    case Sponsorship =>
    case SecondMonitor =>
    case TestSuite =>
    case PivotProject =>
    case StarMilestone50 =>
    case StarMilestone500 =>
    case HireHelp =>
    case VcOffer =>
    case AcquiOffer =>
    case SustainableSuccess =>
    case StarMilestone2000 =>
  }

  /** The `cost` object of each upgrade. */
  function UpgradeCost(u: UpgradeId): Costs {
    match u
    case VibeCode => [(Money, 20.0)]
    case AutoMerge => [(Energy, 20.0)]
    case UserAnalytics => [(Energy, 30.0)]
    case AiCodingAssistant => [(Money, 20.0)]
    case Sponsorship => [(Energy, 10.0)]
    case SecondMonitor => [(Money, 250.0)]
    case TestSuite => [(Energy, 40.0)]
    case PivotProject => [(Energy, 50.0)]
    case HireHelp => [(Money, 500.0)]
    case _ => []
  }

  /** The ids of the `decisions` of each upgrade, in table order. */
  function Decisions(u: UpgradeId): seq<string> {
    match u
    case ProjectFocus => ["ai", "devtools", "saas", "cli"]
    case VibeCode => ["embrace"]
    case AutoMerge => ["full", "smart", "batch"]
    case UserAnalytics => ["fullTracking", "minimalTracking", "noTracking"]
    case FirstRevenue => ["stayFree", "freemium", "paidUpfront"]
    case AiCodingAssistant => ["fullIntegration", "carefulUse", "reject"]
    case Sponsorship => ["setup", "skip"]
    case SecondMonitor => ["buy", "skip"]
    case TestSuite => ["comprehensive", "basic", "skip"]
    case PivotProject => ["pivot", "stay"]
    case StarMilestone50 => ["celebrate"]
    case StarMilestone500 => ["acknowledge"]
    case HireHelp => ["hire", "solo"]
    case VcOffer => ["take", "decline"]
    case AcquiOffer => ["sell", "refuse"]
    case SustainableSuccess => ["continue"]
    case StarMilestone2000 => ["celebrate"]
  }

  /** `canAffordUpgrade`: no cost entry exceeds the matching resource. */
  predicate CanAffordUpgrade(res: Resources, u: UpgradeId) {
    Affordable(res, UpgradeCost(u))
  }

  /** Upgrades with an empty cost object are always affordable. */
  lemma FreeUpgradesAffordable(res: Resources, u: UpgradeId)
    requires UpgradeCost(u) == []
    ensures CanAffordUpgrade(res, u)
  {
  }

  /** The decisions that leave the cost unpaid. */
  predicate Free(d: string) {
    d == "skip" || d == "reject"
  }

  /** The decisions that also record the upgrade as declined. */
  predicate Declines(d: string) {
    d == "skip" || d == "reject" || d == "noTracking"
  }

  /** The resources once the cost loop of `executeUpgradeDecision` has run (or been skipped). */
  function Charged(u: UpgradeId, d: string, res: Resources): Resources {
    if Free(d) then res else Deducted(res, UpgradeCost(u))
  }

  /** A skip or reject costs nothing; any other decision pays each cost entry exactly once. */
  lemma ChargedOnlyWhenAccepting(u: UpgradeId, d: string, res: Resources, r: Res)
    ensures Free(d) ==> Charged(u, d, res) == res
    ensures !Free(d) ==> Charged(u, d, res).Get(r) == res.Get(r) - CostOf(UpgradeCost(u), r)
  {
    DeductedSubtractsEachCost(res, UpgradeCost(u), r);
  }

  /** Accepting an affordable upgrade leaves every resource that was non-negative non-negative. */
  lemma AffordableUpgradeKeepsNonNegative(u: UpgradeId, d: string, res: Resources)
    requires CanAffordUpgrade(res, u)
    requires forall r :: res.Get(r) >= 0.0
    ensures forall r :: Charged(u, d, res).Get(r) >= 0.0
  {
    if !Free(d) {
      AffordableKeepsNonNegative(res, UpgradeCost(u));
      forall r ensures Charged(u, d, res).Get(r) >= 0.0 {
        if |UpgradeCost(u)| == 1 && UpgradeCost(u)[0].0 == r {
          assert Deducted(res, UpgradeCost(u)).Get(UpgradeCost(u)[0].0) >= 0.0;
        }
      }
    }
  }

  // ---- offer conditions ----

  /** JavaScript truthiness of a string field that may be unset. */
  predicate Present(o: Option<string>) {
    o.Some? && o.value != ""
  }

  /** `Σ e.weeklyIncome` over the passive effects. */
  function WeeklyIncome(effects: seq<Effect>): real {
    if |effects| == 0 then 0.0 else WeeklyIncome(effects[..|effects| - 1]) + effects[|effects| - 1].weeklyIncome
  }

  /** `Σ e.monthlyCost` over the passive effects. */
  function MonthlyCosts(effects: seq<Effect>): real {
    if |effects| == 0 then 0.0 else MonthlyCosts(effects[..|effects| - 1]) + effects[|effects| - 1].monthlyCost
  }

  /** The `condition` of each upgrade, read against the current game. */
  predicate Offered(u: UpgradeId, g: Game)
    reads g
  {
    var res := g.resources;
    match u
    case ProjectFocus => res.codebase >= 10.0 && !Present(g.projectTech) && !g.HasUpgrade("projectFocus")
    case VibeCode => Count(g.flags, "manualCodeClicks") >= 5.0 && !g.HasUpgrade("vibeCode")
    case AutoMerge => |g.prQueue| >= 3 && !g.HasUpgrade("autoMerge")
    case UserAnalytics => Truthy(g.flags, HasShippedFlag) && !g.HasUpgrade("userAnalytics")
    case FirstRevenue => Truthy(g.flags, "successfulLaunch") && !g.HasUpgrade("firstRevenue")
    case AiCodingAssistant => res.codebase >= 50.0 && !g.HasUpgrade("aiCodingAssistant")
    case Sponsorship => res.githubStars >= 100.0 && !g.HasUpgrade("sponsorship")
    case SecondMonitor => res.money >= 300.0 && !g.HasUpgrade("secondMonitor")
    case TestSuite => res.codebase >= 40.0 && res.techDebt >= 5.0 && !g.HasUpgrade("testSuite")
    case PivotProject =>
      Present(g.projectTech) && Present(g.trendingTech) && g.projectTech != g.trendingTech
      && res.codebase >= 30.0 && !g.HasUpgrade("pivotProject")
    case StarMilestone50 => res.githubStars >= 50.0 && !g.HasUpgrade("starMilestone50")
    case StarMilestone500 => res.githubStars >= 500.0 && !g.HasUpgrade("starMilestone500")
    case HireHelp => res.money >= 800.0 && res.codebase >= 80.0 && !g.HasUpgrade("hireHelp")
    case VcOffer =>
      res.githubStars >= 200.0 && res.codebase >= 100.0 && Truthy(g.flags, HasShippedFlag) && !g.HasUpgrade("vcOffer")
    case AcquiOffer => res.githubStars >= 1000.0 && res.codebase >= 150.0 && !g.HasUpgrade("acquiOffer")
    case SustainableSuccess =>
      WeeklyIncome(g.passiveEffects) * 4.0 >= (g.monthlyRent + MonthlyCosts(g.passiveEffects)) * 2.0
      && res.githubStars >= 500.0 && !Truthy(g.flags, "vcFunded") && !g.HasUpgrade("sustainableSuccess")
    case StarMilestone2000 => res.githubStars >= 2000.0 && !g.HasUpgrade("starMilestone2000")
  }

  /** Each condition checks its own upgrade's key, so a decided upgrade is never offered again. */
  lemma DecidedNeverOffered(u: UpgradeId, g: Game)
    requires g.HasUpgrade(UpgradeKey(u))
    ensures !Offered(u, g)
  {
  }

  /** Once VC money is taken, the sustainable ending is never offered. */
  lemma VcFundingRulesOutSustainable(g: Game)
    requires Truthy(g.flags, "vcFunded")
    ensures !Offered(SustainableSuccess, g)
  {
  }

  lemma {:induction false} MonthlyCostsNonNegative(effects: seq<Effect>)
    requires forall i :: 0 <= i < |effects| ==> effects[i].monthlyCost >= 0.0
    ensures MonthlyCosts(effects) >= 0.0
  {
    if |effects| > 0 {
      MonthlyCostsNonNegative(effects[..|effects| - 1]);
    }
  }

  /**
   * The win condition asks for weekly income of at least half the monthly
   * outgoings: with rent due and no negative costs, income must be positive.
   */
  lemma SustainableNeedsIncome(g: Game)
    requires Offered(SustainableSuccess, g)
    requires forall i :: 0 <= i < |g.passiveEffects| ==> g.passiveEffects[i].monthlyCost >= 0.0
    ensures WeeklyIncome(g.passiveEffects) * 2.0 >= g.monthlyRent
    ensures g.monthlyRent > 0.0 ==> WeeklyIncome(g.passiveEffects) > 0.0
    ensures g.resources.githubStars >= 500.0
  {
    MonthlyCostsNonNegative(g.passiveEffects);
  }

  // ---- decision effects ----

  /** The game fields a decision effect may read or change. */
  datatype Scope = Scope(
    resources: Resources,
    flags: Flags,
    path: PathResources,
    effects: seq<Effect>,
    settings: Settings,
    projectTech: Option<string>,
    trendingTech: Option<string>,
    codingProgress: real,
    branch: string)

  function ScopeOf(g: Game): Scope
    reads g
  {
    Scope(g.resources, g.flags, g.pathResources, g.passiveEffects, g.settings,
          g.projectTech, g.trendingTech, g.codingProgress, g.branch)
  }

  /** `x || d` for a number field that may be `null`: `null` and 0 are falsy. */
  function OrElse(o: Option<real>, d: real): real {
    if o.Some? && o.value != 0.0 then o.value else d
  }

  /** Sponsors: one per 50 stars, $5 a month each, paid weekly as a quarter of that, floored. */
  function Sponsors(stars: real): int {
    (stars / 50.0).Floor
  }

  function SponsorIncome(stars: real): int {
    (Sponsors(stars) as real * 5.0 / 4.0).Floor
  }

  /** Sponsor income is never negative with stars, never more than stars / 40, and grows with stars. */
  lemma SponsorIncomeBounds(stars: real, more: real)
    requires 0.0 <= stars <= more
    ensures 0 <= SponsorIncome(stars) && SponsorIncome(stars) as real <= stars / 40.0
    ensures SponsorIncome(stars) <= SponsorIncome(more)
  {
    assert Sponsors(stars) <= Sponsors(more);
    assert 0 <= Sponsors(stars);
    assert Sponsors(stars) as real <= stars / 50.0;
  }

  /** Codebase lost in a pivot: a fifth, floored. */
  function PivotLoss(codebase: real): int {
    (codebase * 0.2).Floor
  }

  /** A pivot keeps at least four fifths of a non-negative codebase, and at most all of it. */
  lemma PivotKeepsMostOfCodebase(codebase: real)
    requires codebase >= 0.0
    ensures codebase * 0.8 <= codebase - PivotLoss(codebase) as real <= codebase
  {
  }

  /** Index of the first effect with this id. */
  function FindEffect(effects: seq<Effect>, id: string): (r: Option<nat>)
    ensures r.Some? ==> r.value < |effects| && effects[r.value].id == id
                        && forall i :: 0 <= i < r.value ==> effects[i].id != id
    ensures r.None? ==> forall i :: 0 <= i < |effects| ==> effects[i].id != id
  {
    if |effects| == 0 then None
    else if effects[0].id == id then Some(0)
    else match FindEffect(effects[1..], id)
      case Some(i) => Some(i + 1)
      case None => None
  }

  /** A product-revenue effect after the 500-star bonus: half as much again, floored. */
  function Boosted(e: Effect): Effect {
    e.(weeklyIncome := (e.weeklyIncome * 1.5).Floor as real)
  }

  /** A whole, non-negative income never shrinks under the bonus, and only the income changes. */
  lemma BoostedNeverShrinks(e: Effect)
    requires e.weeklyIncome >= 0.0 && e.weeklyIncome == e.weeklyIncome.Floor as real
    ensures Boosted(e).weeklyIncome >= e.weeklyIncome
    ensures Boosted(e).(weeklyIncome := e.weeklyIncome) == e
  {
    var w := e.weeklyIncome;
    assert w <= w * 1.5;
    assert w.Floor <= (w * 1.5).Floor;
  }

  /** The 500-star bonus applies to the first product-revenue effect and to no other. */
  function BoostRevenue(effects: seq<Effect>): (r: seq<Effect>)
    ensures |r| == |effects|
    ensures forall i :: 0 <= i < |r| ==> r[i].id == effects[i].id
    ensures forall i :: 0 <= i < |r| && FindEffect(effects, "productRevenue") != Some(i) ==> r[i] == effects[i]
    ensures FindEffect(effects, "productRevenue").Some? ==>
              r[FindEffect(effects, "productRevenue").value] == Boosted(effects[FindEffect(effects, "productRevenue").value])
  {
    match FindEffect(effects, "productRevenue")
    case None => effects
    case Some(i) => effects[i := Boosted(effects[i])]
  }

  function AiAssist(multiplier: real): Effect {
    NoEffect("aiAssist").(codebaseMultiplier := multiplier, monthlyCost := 20.0)
  }

  function Contractor(): Effect {
    NoEffect("contractor").(monthlyCost := 200.0, weeklyCodebase := 5.0)
  }

  function WithCodebase(res: Resources, delta: real): Resources {
    res.(codebase := res.codebase + delta)
  }

  function WithReputation(res: Resources, delta: real): Resources {
    res.(reputation := res.reputation + delta)
  }

  /** The effect closure of decision `d` of upgrade `u`. */
  function Apply(u: UpgradeId, d: string, s: Scope): (r: Scope)
    requires d in Decisions(u)
    ensures r.trendingTech == s.trendingTech
  {
    var res := s.resources;
    var path := s.path;
    match u
    case ProjectFocus => s.(projectTech := Some(d))
    case VibeCode => s.(codingProgress := 0.0)
    case AutoMerge =>
      if d == "full" then s.(settings := s.settings.(autoMergePRs := true))
      else if d == "smart" then s.(settings := s.settings.(smartAutoMerge := true))
      else s.(settings := s.settings.(batchReview := true))
    case UserAnalytics =>
      if d == "fullTracking" then s.(resources := WithCodebase(res, 10.0), flags := s.flags["heavyTracking" := Bool(true)])
      else if d == "minimalTracking" then s.(resources := WithCodebase(res, 5.0), flags := s.flags["privacyFocused" := Bool(true)])
      else s.(flags := s.flags["noTracking" := Bool(true)])
    case FirstRevenue =>
      if d == "stayFree" then
        s.(branch := "bootstrap", path := path.(userTrust := Some(80.0), craftMastery := Some(10.0)),
           flags := s.flags["bootstrap" := Bool(true)])
      else if d == "freemium" then
        s.(branch := "growth_early", path := path.(userTrust := Some(50.0), runway := Some(6.0)),
           flags := s.flags["freemium" := Bool(true)])
      else
        s.(branch := "bootstrap", path := path.(userTrust := Some(60.0), craftMastery := Some(10.0)),
           resources := res.(money := res.money + 200.0), flags := s.flags["paidApp" := Bool(true)])
    case AiCodingAssistant =>
      if d == "fullIntegration" then
        s.(flags := s.flags["aiAdopted" := Bool(true)]["aiFullIntegration" := Bool(true)],
           path := path.(aiCapability := Some(30.0), oversight := Some(70.0), dependency := Some(20.0)),
           effects := s.effects + [AiAssist(1.5)])
      else if d == "carefulUse" then
        s.(flags := s.flags["aiAdopted" := Bool(true)]["aiCarefulUse" := Bool(true)],
           path := path.(aiCapability := Some(20.0), oversight := Some(90.0), dependency := Some(5.0)),
           effects := s.effects + [AiAssist(1.2)])
      else
        s.(flags := s.flags["aiRejected" := Bool(true)],
           path := if path.craftMastery.Some? then path.(craftMastery := Some(path.craftMastery.value + 5.0)) else path)
    case Sponsorship =>
      if d == "setup" then s.(effects := s.effects + [NoEffect("sponsors").(weeklyIncome := SponsorIncome(res.githubStars) as real)])
      else s
    case SecondMonitor =>
      if d == "buy" then s.(flags := s.flags["secondMonitor" := Bool(true)]) else s
    case TestSuite =>
      if d == "comprehensive" then s.(flags := s.flags["hasTests" := Text("comprehensive")], resources := WithCodebase(res, 5.0))
      else if d == "basic" then s.(flags := s.flags["hasTests" := Text("basic")], resources := WithCodebase(res, 2.0))
      else s.(flags := s.flags["hasTests" := Bool(false)])
    case PivotProject =>
      if d == "pivot" then s.(projectTech := s.trendingTech, resources := WithCodebase(res, -(PivotLoss(res.codebase) as real)))
      else s.(resources := WithReputation(res, 2.0))
    case StarMilestone50 => s.(resources := WithReputation(res, 3.0))
    case StarMilestone500 => s.(resources := WithReputation(res, 10.0), effects := BoostRevenue(s.effects))
    case HireHelp =>
      if d == "hire" then s.(flags := s.flags["hasContractor" := Bool(true)], effects := s.effects + [Contractor()])
      else s.(path := path.(craftMastery := Some(OrElse(path.craftMastery, 0.0) + 5.0)))
    case VcOffer =>
      if d == "take" then
        s.(branch := "funded", resources := res.(money := res.money + 5000.0),
           path := path.(runway := Some(24.0), userTrust := Some(Max(20.0, OrElse(path.userTrust, 50.0) - 30.0))),
           flags := s.flags["vcFunded" := Bool(true)])
      else
        s.(resources := WithReputation(res, 5.0), path := path.(userTrust := Some(OrElse(path.userTrust, 50.0) + 10.0)))
    case AcquiOffer =>
      if d == "sell" then s.(flags := s.flags["sold" := Bool(true)]["ending" := Text("sold")])
      else s.(resources := WithReputation(res, 20.0), path := path.(userTrust := Some(OrElse(path.userTrust, 50.0) + 20.0)))
    case SustainableSuccess => s.(flags := s.flags["ending" := Text("sustainable")])
    case StarMilestone2000 => s.(flags := s.flags["ending" := Text("stardom")])
  }

  /** Taking VC money adds $5000, sets vcFunded and leaves userTrust at 20 or more. */
  lemma VcTakeKeepsUserTrust(s: Scope)
    ensures var r := Apply(VcOffer, "take", s);
      r.path.userTrust.Some? && r.path.userTrust.value >= 20.0
      && r.resources.money == s.resources.money + 5000.0
      && Truthy(r.flags, "vcFunded") && r.branch == "funded"
  {
  }

  /** No decision clears vcFunded, so after taking VC money the sustainable ending is never offered. */
  lemma VcFundingIsPermanent(u: UpgradeId, d: string, s: Scope)
    requires d in Decisions(u) && Truthy(s.flags, "vcFunded")
    ensures Truthy(Apply(u, d, s).flags, "vcFunded")
  {
    var f := s.flags;
    match u
    case UserAnalytics =>
      OtherKeyKeepsTruthy(f, "heavyTracking", Bool(true));
      OtherKeyKeepsTruthy(f, "privacyFocused", Bool(true));
      OtherKeyKeepsTruthy(f, "noTracking", Bool(true));
    case FirstRevenue =>
      OtherKeyKeepsTruthy(f, "bootstrap", Bool(true));
      OtherKeyKeepsTruthy(f, "freemium", Bool(true));
      OtherKeyKeepsTruthy(f, "paidApp", Bool(true));
    case AiCodingAssistant =>
      OtherKeyKeepsTruthy(f, "aiAdopted", Bool(true));
      OtherKeyKeepsTruthy(f["aiAdopted" := Bool(true)], "aiFullIntegration", Bool(true));
      OtherKeyKeepsTruthy(f["aiAdopted" := Bool(true)], "aiCarefulUse", Bool(true));
      OtherKeyKeepsTruthy(f, "aiRejected", Bool(true));
    case SecondMonitor =>
      OtherKeyKeepsTruthy(f, "secondMonitor", Bool(true));
    case TestSuite =>
      OtherKeyKeepsTruthy(f, "hasTests", Text("comprehensive"));
      OtherKeyKeepsTruthy(f, "hasTests", Text("basic"));
      OtherKeyKeepsTruthy(f, "hasTests", Bool(false));
    case HireHelp =>
      OtherKeyKeepsTruthy(f, "hasContractor", Bool(true));
    case AcquiOffer =>
      OtherKeyKeepsTruthy(f, "sold", Bool(true));
      OtherKeyKeepsTruthy(f["sold" := Bool(true)], "ending", Text("sold"));
    case SustainableSuccess =>
      OtherKeyKeepsTruthy(f, "ending", Text("sustainable"));
    case StarMilestone2000 =>
      OtherKeyKeepsTruthy(f, "ending", Text("stardom"));
    case _ =>
  }

  /** Writing a flag other than vcFunded leaves vcFunded as it was. */
  lemma OtherKeyKeepsTruthy(f: Flags, k: string, v: Flag)
    requires Truthy(f, "vcFunded") && |k| > 0 && k[0] != 'v'
    ensures Truthy(f[k := v], "vcFunded")
  {
    assert k != "vcFunded";
  }

  /** Selling out and the two winning endings: their message waits for a deferred import. */
  predicate Deferred(u: UpgradeId, d: string) {
    (u == AcquiOffer && d == "sell") || u == SustainableSuccess || u == StarMilestone2000
  }

  /** The three ending decisions set the `ending` flag and change nothing else. */
  lemma EndingsOnlySetTheEnding(u: UpgradeId, d: string, s: Scope)
    requires d in Decisions(u) && Deferred(u, d)
    ensures var r := Apply(u, d, s);
      "ending" in r.flags && r.flags["ending"].Text? && r.flags["ending"].s in {"sold", "sustainable", "stardom"}
      && r.resources == s.resources && r.path == s.path && r.effects == s.effects
  {
  }

  /** The message a decision logs, if it logs one at once. */
  function DecisionEvent(u: UpgradeId, d: string, s: Scope, now: int): Option<Event>
    requires d in Decisions(u)
  {
    if Deferred(u, d) then None else Some(Event(DecisionLine(u, d, s).0, DecisionLine(u, d, s).1, now))
  }

  function TechText(o: Option<string>): string {
    if o.Some? then o.value else "undefined"
  }

  /**
   * The message and kind of each decision. Selling out and the two winning
   * endings log theirs only after a deferred import of the renderer, so
   * `DecisionEvent` leaves them out.
   */
  function DecisionLine(u: UpgradeId, d: string, s: Scope): (string, string)
    requires d in Decisions(u)
  {
    match u
    case ProjectFocus =>
      if d == "ai" then ("AI tool. Crowded but massive potential.", "neutral")
      else if d == "devtools" then ("Dev tools. Niche but devs pay for good tools.", "neutral")
      else if d == "saas" then ("SaaS. Recurring revenue is the dream.", "neutral")
      else ("CLI tool. Simple, focused, beloved.", "neutral")
    case VibeCode => ("Vibe coding enabled. First PR is... surprisingly good.", "success")
    case AutoMerge =>
      if d == "full" then ("Auto-merge on. Speed over safety.", "neutral")
      else if d == "smart" then ("Smart merge on. Risky PRs still need review.", "success")
      else ("Batch mode. PRs pile up, review all at once.", "neutral")
    case UserAnalytics =>
      if d == "fullTracking" then ("Analytics in. You see everything.", "neutral")
      else if d == "minimalTracking" then ("Basic analytics. Page views, nothing personal.", "success")
      else ("No analytics. Flying blind.", "neutral")
    case FirstRevenue =>
      if d == "stayFree" then ("Free. Users love it. Goodwill doesn't pay rent though.", "success")
      else if d == "freemium" then ("Premium tier added. Some upgrade, some complain.", "neutral")
      else ("$5 upfront. Downloads slow but each one chose to pay.", "success")
    case AiCodingAssistant =>
      if d == "fullIntegration" then ("AI integrated. Output doubles. Is this still your code?", "neutral")
      else if d == "carefulUse" then ("AI for boilerplate only. You review everything.", "success")
      else ("The old way still works.", "neutral")
    case Sponsorship =>
      if d == "setup" then
        ("Sponsors enabled. " + IntDecimal(Sponsors(s.resources.githubStars)) + " signed up. +$"
              + IntDecimal(SponsorIncome(s.resources.githubStars)) + "/wk", "success")
      else ("Work should speak for itself. Right?", "neutral")
    case SecondMonitor =>
      if d == "buy" then ("Dual monitors. Real developer now.", "success")
      else ("One screen got you this far.", "neutral")
    case TestSuite =>
      if d == "comprehensive" then ("Tests written. Green checkmarks are satisfying.", "success")
      else if d == "basic" then ("Basic tests. Important stuff covered. Probably.", "neutral")
      else ("No tests. Ship it and see.", "warning")
    case PivotProject =>
      if d == "pivot" then
        ("Pivoted to " + TechText(s.trendingTech) + ". -" + IntDecimal(PivotLoss(s.resources.codebase)) + " codebase.", "neutral")
      else ("Trends come and go. Good products last.", "success")
    case StarMilestone50 => ("Tweeted about 50 stars. Some congrats. Felt nice.", "success")
    case StarMilestone500 => ("500 stars. Companies asking about enterprise.", "success")
    case HireHelp =>
      if d == "hire" then ("Hired someone. Weird seeing others touch your code.", "success")
      else ("Solo. Harder, but vision stays pure.", "neutral")
    case VcOffer =>
      if d == "take" then ("Signed. $5000 in bank. Board seat gone.", "neutral")
      else ("Declined. Some things aren't for sale.", "success")
    case AcquiOffer =>
      if d == "sell" then ("Sold. Check cleared. Watching them add ads stings.", "milestone")
      else ("Said no. Community went wild.", "success")
    case SustainableSuccess => ("Made it. Not a unicorn. Just free.", "milestone")
    case StarMilestone2000 => ("2000 stars. You shipped something real.", "milestone")
  }

  /** The scope the effect closure sees: costs already paid unless the decision is free. */
  function Before(u: UpgradeId, d: string, s: Scope): Scope {
    s.(resources := Charged(u, d, s.resources))
  }

  /** The upgrade and decision ids `executeUpgradeDecision` acts on. */
  predicate Known(upgradeId: string, decisionId: string) {
    ParseUpgrade(upgradeId).Some? && decisionId in Decisions(ParseUpgrade(upgradeId).value)
  }

  /**
   * `executeUpgradeDecision`: an unknown upgrade or decision changes nothing;
   * otherwise the cost is paid unless the decision is skip or reject, the
   * effect runs, the upgrade is recorded as decided, and as declined too for
   * skip, reject and noTracking.
   */
  method ExecuteUpgradeDecision(g: Game, upgradeId: string, decisionId: string, now: int) returns (ran: bool, added: seq<Event>)
    modifies g`resources, g`flags, g`events, g`upgrades, g`declinedUpgrades, g`pathResources,
             g`passiveEffects, g`settings, g`projectTech, g`codingProgress, g`branch
    ensures ran <==> Known(upgradeId, decisionId)
    ensures !ran ==> added == [] && ScopeOf(g) == old(ScopeOf(g)) && g.events == old(g.events)
                     && g.upgrades == old(g.upgrades) && g.declinedUpgrades == old(g.declinedUpgrades)
    ensures ran ==> ScopeOf(g) == Apply(ParseUpgrade(upgradeId).value, decisionId,
                                         Before(ParseUpgrade(upgradeId).value, decisionId, old(ScopeOf(g))))
    ensures ran ==> added == Logged(DecisionEvent(ParseUpgrade(upgradeId).value, decisionId,
                                                  Before(ParseUpgrade(upgradeId).value, decisionId, old(ScopeOf(g))), now))
    ensures ran ==> g.upgrades == old(g.upgrades) + [upgradeId]
    ensures ran ==> g.declinedUpgrades == old(g.declinedUpgrades) + (if Declines(decisionId) then [upgradeId] else [])
    ensures ran ==> g.HasUpgrade(upgradeId) && !Offered(ParseUpgrade(upgradeId).value, g)
    ensures g.events == LogAll(old(g.events), added)
  {
    var parsed := ParseUpgrade(upgradeId);
    if parsed.None? || decisionId !in Decisions(parsed.value) {
      return false, [];
    }
    var u := parsed.value;
    added := RunDecision(g, u, decisionId, now);
    g.upgrades := g.upgrades + [upgradeId];
    if Declines(decisionId) {
      g.declinedUpgrades := g.declinedUpgrades + [upgradeId];
    }
    DecidedNeverOffered(u, g);
    ran := true;
  }

  /** The event list an optional message adds. */
  function Logged(e: Option<Event>): (r: seq<Event>)
    ensures e.Some? ==> r == [e.value]
    ensures e.None? ==> r == []
  {
    if e.Some? then [e.value] else []
  }

  /** The charge and the effect of one decision, with its message logged. */
  method RunDecision(g: Game, u: UpgradeId, d: string, now: int) returns (added: seq<Event>)
    requires d in Decisions(u)
    modifies g`resources, g`flags, g`events, g`pathResources, g`passiveEffects, g`settings, g`projectTech, g`codingProgress, g`branch
    ensures ScopeOf(g) == Apply(u, d, Before(u, d, old(ScopeOf(g))))
    ensures added == Logged(DecisionEvent(u, d, Before(u, d, old(ScopeOf(g))), now))
    ensures g.events == LogAll(old(g.events), added)
  {
    ghost var before := Before(u, d, ScopeOf(g));
    if !Free(d) {
      g.resources := DeductCosts(g.resources, UpgradeCost(u));
    }
    var s := ScopeOf(g);
    assert s == before;
    var line := DecisionEvent(u, d, s, now);
    Store(g, Apply(u, d, s));
    added := [];
    if line.Some? {
      added := Record(g, line.value, g.events, added);
    }
  }

  /** Writes a scope back into the game; the trending technology is read, never written. */
  method Store(g: Game, s: Scope)
    requires s.trendingTech == g.trendingTech
    modifies g`resources, g`flags, g`pathResources, g`passiveEffects, g`settings, g`projectTech, g`codingProgress, g`branch
    ensures ScopeOf(g) == s
  {
    g.resources, g.flags, g.pathResources, g.passiveEffects := s.resources, s.flags, s.path, s.effects;
    g.settings, g.projectTech, g.codingProgress, g.branch := s.settings, s.projectTech, s.codingProgress, s.branch;
  }
}
