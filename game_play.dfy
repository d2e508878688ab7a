/**
 * The state-changing half of claude-code-game/js/actions.js: the `execute`
 * bodies of the modelled actions and `executeAction`, which guards, charges
 * and runs them. Every method reports the events it logs as `added`, oldest
 * first, and the log becomes `LogAll(old log, added)`.
 */
module GamePlay {
  import opened Util
  import opened GameState
  import opened GameEvents
  import opened GamePrs
  import opened GameActions

  // ---- code ----

  /** The flags after a manual coding click, before any trigger check. */
  function Clicked(flags: Flags): (r: Flags)
    ensures Count(r, "manualCodeClicks") == Count(flags, "manualCodeClicks") + 1.0
    ensures forall k :: k != "manualCodeClicks" ==> (k in r <==> k in flags) && (k in flags ==> r[k] == flags[k])
  {
    flags["manualCodeClicks" := Num(Count(flags, "manualCodeClicks") + 1.0)]
  }

  /**
   * `code`: one click of progress; at 100 the progress resets and exactly one
   * PR is queued (and merged at once with auto-merge on). `pr` is that PR.
   */
  method ExecuteCode(g: Game, counter: PrCounter, draws: seq<real>, now: int) returns (pr: Option<PR>, added: seq<Event>)
    requires ValidDraws(draws) && |draws| >= 3
    requires IdsIssued(g.prQueue, counter.last)
    modifies g`flags, g`codingProgress, g`prQueue, g`events, g`resources, counter
    ensures IdsIssued(g.prQueue, counter.last)
    ensures g.events == LogAll(old(g.events), added)
    ensures pr.None? <==> old(g.codingProgress) + 100.0 / old(g.codingClicksNeeded) < 100.0
    ensures pr.None? ==>
              g.codingProgress == old(g.codingProgress) + 100.0 / old(g.codingClicksNeeded)
              && g.flags == Clicked(old(g.flags)) && counter.last == old(counter.last)
              && g.prQueue == old(g.prQueue) && g.resources == old(g.resources) && added == []
    ensures pr.Some? ==>
              g.codingProgress == 0.0 && counter.last == old(counter.last) + 1 && pr.value.id == counter.last
              && 0.3 <= pr.value.quality < 0.7 && pr.value.title in TitlesFor(old(g.focus))
              && g.flags == Triggered(Clicked(old(g.flags)), g.resources)
              && |added| >= 1 && added[0] == FinishedLine(pr.value, now)
    ensures pr.Some? && !old(g.settings).autoMergePRs ==>
              g.prQueue == old(g.prQueue) + [pr.value] && g.resources == old(g.resources)
    ensures pr.Some? && old(g.settings).autoMergePRs ==>
              g.prQueue == old(g.prQueue) && g.resources == MergedResources(old(g.resources), pr.value)
  {
    added := [];
    g.flags := Clicked(g.flags);
    g.codingProgress := g.codingProgress + 100.0 / g.codingClicksNeeded;
    if g.codingProgress < 100.0 {
      return None, added;
    }
    g.codingProgress := 0.0;
    var made := counter.GeneratePR(g.focus, 0.3 + draws[0] * 0.4, draws[1], draws[2]);
    assert g.prQueue == old(g.prQueue) && g.resources == old(g.resources) && g.settings == old(g.settings);
    added := QueueFinished(g, made, now);
    pr := Some(made);
  }

  const FinishedHead := "Finished coding: \""

  /** The line a finished PR logs: its title in quotes. */
  function FinishedLine(pr: PR, now: int): (e: Event)
    ensures e.kind == "neutral" && StartsWith(e.message, FinishedHead)
  {
    var m := FinishedHead + pr.title + "\"";
    assert m[..|FinishedHead|] == FinishedHead;
    Event(m, "neutral", now)
  }

  /** A finished PR is queued and logged, and merged at once under auto-merge. */
  method QueueFinished(g: Game, made: PR, now: int) returns (added: seq<Event>)
    requires forall i :: 0 <= i < |g.prQueue| ==> g.prQueue[i].id < made.id
    modifies g`prQueue, g`events, g`resources, g`flags
    ensures g.flags == Triggered(old(g.flags), g.resources)
    ensures g.events == LogAll(old(g.events), added)
    ensures |added| >= 1 && added[0] == FinishedLine(made, now)
    ensures !g.settings.autoMergePRs ==> g.prQueue == old(g.prQueue) + [made] && g.resources == old(g.resources)
    ensures g.settings.autoMergePRs ==> g.prQueue == old(g.prQueue) && g.resources == MergedResources(old(g.resources), made)
  {
    ghost var base := g.events;
    ghost var queue0 := g.prQueue;
    g.prQueue := g.prQueue + [made];
    added := Record(g, FinishedLine(made, now), base, []);
    if g.settings.autoMergePRs {
      added := MergeQueued(g, made, now, base, added);
      assert g.prQueue == queue0;
    }
    ghost var res1 := g.resources;
    added := RecordTriggers(g, now, base, added);
    TriggersIdempotent(old(g.flags), res1, now);
  }

  /** Merging the PR that was just queued last: it is the first with its id, so exactly it leaves the queue. */
  method MergeQueued(g: Game, made: PR, now: int, ghost base: seq<Event>, added: seq<Event>) returns (added': seq<Event>)
    requires |g.prQueue| > 0 && g.prQueue[|g.prQueue| - 1] == made
    requires forall i :: 0 <= i < |g.prQueue| - 1 ==> g.prQueue[i].id < made.id
    requires g.events == LogAll(base, added)
    modifies g`prQueue, g`resources, g`events, g`flags
    ensures g.prQueue == old(g.prQueue)[..|old(g.prQueue)| - 1]
    ensures g.resources == MergedResources(old(g.resources), made)
    ensures g.flags == Triggered(old(g.flags), g.resources)
    ensures added' == added + ([MergeEvent(made, now)] + TriggerEvents(old(g.flags), g.resources, now))
    ensures g.events == LogAll(base, added')
  {
    ghost var queue := g.prQueue;
    ghost var last := |queue| - 1;
    assert FindPR(queue, made.id) == Some(last) by {
      assert queue[last].id == made.id;
      assert forall j :: 0 <= j < last ==> queue[j].id != made.id;
    }
    var flags0 := g.flags;
    var merged := MergePR(g, made.id, now);
    assert g.prQueue == queue[..last] + queue[last + 1..] && queue[last + 1..] == [];
    var logged := [MergeEvent(made, now)] + TriggerEvents(flags0, g.resources, now);
    added' := added + logged;
    LogAllAppend(base, added, logged);
  }

  // ---- iterate ----

  /** `craftMastery += 1` when the path tracks it. */
  function Practised(p: PathResources): (q: PathResources)
    ensures p.craftMastery.Some? ==> q.craftMastery == Some(p.craftMastery.value + 1.0)
    ensures p.craftMastery.None? ==> q == p
    ensures q.(craftMastery := p.craftMastery) == p
  {
    if p.craftMastery.Some? then p.(craftMastery := Some(p.craftMastery.value + 1.0)) else p
  }

  const NothingToIterateLine := "You tried to iterate, but... iterate on what? You need to build something first."

  /** `iterate` */
  method ExecuteIterate(g: Game, now: int) returns (added: seq<Event>)
    modifies g`resources, g`pathResources, g`flags, g`events
    ensures g.resources == IterateOutcome(old(g.resources))
    ensures g.events == LogAll(old(g.events), added) && |added| >= 1
    ensures old(g.resources).codebase < 10.0 ==>
              g.pathResources == old(g.pathResources) && g.flags == old(g.flags)
              && added == [Event(NothingToIterateLine, "negative", now)]
    ensures old(g.resources).codebase >= 10.0 ==>
              g.pathResources == Practised(old(g.pathResources))
              && g.flags == Triggered(old(g.flags), g.resources) && added[0].kind == "success"
  {
    ghost var base := g.events;
    added := [];
    if g.resources.codebase < 10.0 {
      added := Record(g, Event(NothingToIterateLine, "negative", now), base, added);
      return;
    }
    var improvement := IterateImprovement(g.resources.codebase);
    var debtReduced := Min(g.resources.techDebt, 3.0);
    g.resources := g.resources.(codebase := g.resources.codebase + improvement as real,
                                techDebt := g.resources.techDebt - debtReduced);
    if debtReduced > 0.0 {
      added := Record(g, Event("Refactored and improved the codebase. (+" + IntDecimal(improvement) + " codebase, -"
                               + NumText(debtReduced) + " tech debt)", "success", now), base, added);
    } else {
      added := Record(g, Event("Polished and improved the codebase. (+" + IntDecimal(improvement) + " codebase)", "success", now),
                      base, added);
    }
    g.pathResources := Practised(g.pathResources);
    added := RecordTriggers(g, now, base, added);
  }

  // ---- refactor ----

  /** `refactor`: `draws[0]` is the test for breaking something. */
  method ExecuteRefactor(g: Game, draws: seq<real>, now: int) returns (added: seq<Event>)
    requires ValidDraws(draws) && |draws| >= 1
    modifies g`resources, g`flags, g`events
    ensures g.resources == RefactorOutcome(old(g.resources), draws[0])
    ensures g.flags == Triggered(old(g.flags), g.resources)
    ensures g.events == LogAll(old(g.events), added)
    ensures |added| >= 1 && added[0].kind == if draws[0] < 0.15 then "negative" else "success"
  {
    ghost var base := g.events;
    added := [];
    var debtReduced := RefactorReduction(g.resources.techDebt);
    g.resources := g.resources.(techDebt := g.resources.techDebt - debtReduced);
    if draws[0] < 0.15 {
      var codebaseLost := (g.resources.codebase * 0.1).Floor;
      g.resources := g.resources.(codebase := g.resources.codebase - codebaseLost as real);
      added := Record(g, Event("Deep refactor complete. (-" + NumText(debtReduced) + " tech debt) But... you broke something. (-"
                               + IntDecimal(codebaseLost) + " codebase)", "negative", now), base, added);
    } else {
      added := Record(g, Event("Deep refactor complete. The codebase is much cleaner now. (-" + NumText(debtReduced)
                               + " tech debt)", "success", now), base, added);
    }
    added := RecordTriggers(g, now, base, added);
  }

  // ---- freelance ----

  // the texts of `HassleLines`, in order
  const HassleLines1 := "Client asked for 'just one more revision'. It was not just one."
  const HassleLines2 := "Scope creep struck again. You finished anyway, somehow."
  const HassleLines3 := "They paid late. Classic."
  const HassleLines4 := "The requirements changed three times. You adapted."

  const HassleLines: seq<string> := [HassleLines1, HassleLines2, HassleLines3, HassleLines4]

  const InsightLine := "While debugging their code, you had an idea for your own project..."

  function PayLine(c: Client, pay: int): string {
    c.description + ". $" + IntDecimal(pay) + " earned."
    + (if c.repGain > 1 then " (+" + Decimal(c.repGain) + " reputation)" else "")
  }

  /** `freelance`; the draws are read in the order `FreelanceOutcome` describes. */
  method ExecuteFreelance(g: Game, draws: seq<real>, now: int) returns (added: seq<Event>)
    requires ValidDraws(draws) && |draws| >= 5
    modifies g`resources, g`flags, g`events
    ensures g.resources == FreelanceOutcome(old(g.resources), draws)
    ensures g.flags == Triggered(old(g.flags), g.resources)
    ensures g.events == LogAll(old(g.events), added)
    ensures var c := FreelanceClient(old(g.resources), draws);
            Event(PayLine(c, FreelancePay(c, old(g.resources).reputation, draws[1])), "neutral", now) in added
  {
    var res0 := g.resources;
    var client := FreelanceClient(res0, draws);
    var pay := FreelancePay(client, res0.reputation, draws[1]);
    var hassle := if draws[2] < client.hassle then Some(Pick(HassleLines, draws[3])) else None;
    var insight := FreelanceInsightDraw(res0, draws) > 0.8;
    g.resources := FreelanceResources(res0, client, pay, insight);
    added := FreelanceNews(g, hassle, PayLine(client, pay), insight, now);
    assert Event(PayLine(client, pay), "neutral", now) in added;
    added := RecordTriggers(g, now, old(g.events), added);
  }

  /** The lines a freelance job logs: the hassle (if any), the pay, the insight (if any). */
  method FreelanceNews(g: Game, hassle: Option<string>, payLine: string, insight: bool, now: int) returns (added: seq<Event>)
    modifies g`events
    ensures g.events == LogAll(old(g.events), added)
    ensures added == (if hassle.Some? then [Event(hassle.value, "warning", now)] else [])
                     + [Event(payLine, "neutral", now)]
                     + (if insight then [Event(InsightLine, "neutral", now)] else [])
  {
    ghost var base := g.events;
    added := [];
    if hassle.Some? {
      added := Record(g, Event(hassle.value, "warning", now), base, added);
    }
    added := Record(g, Event(payLine, "neutral", now), base, added);
    if insight {
      added := Record(g, Event(InsightLine, "neutral", now), base, added);
    }
  }

  // ---- network ----

  /** `network`; `draws[0]` picks the activity, `draws[1]` tests for a bonus, `draws[2]` picks it. */
  method ExecuteNetwork(g: Game, draws: seq<real>, now: int) returns (added: seq<Event>)
    requires ValidDraws(draws) && |draws| >= 3
    modifies g`resources, g`flags, g`events
    ensures g.resources == NetworkOutcome(old(g.resources), draws)
    ensures g.flags == Triggered(old(g.flags), g.resources)
    ensures g.events == LogAll(old(g.events), added)
    ensures NetworkBonus(old(g.resources), draws).Some? <==> |added| >= 2 && added[0].kind == "success"
  {
    ghost var base := g.events;
    added := [];
    var res0 := g.resources;
    var activity := Pick(Activities, draws[0]);
    var bonus := NetworkBonus(res0, draws);
    added := NetworkBonusStep(g, bonus, now, base, added);
    var gain := NetworkGain(activity, bonus);
    g.resources := g.resources.(reputation := Min(100.0, g.resources.reputation + gain as real));
    added := Record(g, NetworkLine(activity, gain, now), base, added);
    added := RecordTriggers(g, now, base, added);
  }

  /** The bonus of an outing, when the chance test passed: a client lead pays 50, and the bonus is logged. */
  method NetworkBonusStep(g: Game, bonus: Option<Bonus>, now: int, ghost base: seq<Event>, added: seq<Event>)
    returns (added': seq<Event>)
    requires g.events == LogAll(base, added)
    modifies g`resources, g`events
    ensures g.resources == if bonus == Some(ClientLead) then old(g.resources).(money := old(g.resources).money + 50.0)
                           else old(g.resources)
    ensures added' == added + (if bonus.Some? then [Event(BonusMessage(bonus.value), "success", now)] else [])
    ensures g.events == LogAll(base, added')
  {
    added' := added;
    if bonus.Some? {
      if bonus.value == ClientLead {
        g.resources := g.resources.(money := g.resources.money + 50.0);
      }
      added' := Record(g, Event(BonusMessage(bonus.value), "success", now), base, added');
    }
  }

  const GainHead := " (+"
  const GainTail := " reputation)"

  /** The line an outing logs: the activity and the reputation it earned. */
  function NetworkLine(activity: Activity, gain: nat, now: int): (e: Event)
    ensures e.kind == "neutral" && StartsWith(e.message, activity.message)
  {
    var m := activity.message + GainHead + Decimal(gain) + GainTail;
    assert m[..|activity.message|] == activity.message;
    Event(m, "neutral", now)
  }

  // ---- rest ----

  // the texts of `RestLines`, in order
  const RestLines1 := "You went for a walk. Touched grass. It helped."
  const RestLines2 := "You binged a show. Sometimes that's necessary."
  const RestLines3 := "You cooked a real meal for once. Felt human."
  const RestLines4 := "You called a friend. Remembered there's a world outside code."
  const RestLines5 := "You took a nap. Woke up confused but refreshed."
  const RestLines6 := "You did some stretches. Your back thanked you."
  const RestLines7 := "You played a video game. Productivity, but different."
  const RestLines8 := "You read a book. An actual paper book. Revolutionary."
  const RestLines9 := "You sat in silence for a while. It was weird but good."
  const RestLines10 := "You cleaned your desk. Found three cables you forgot about."
  const RestLines11 := "You went to a coffee shop and didn't open your laptop. Growth."
  const RestLines12 := "You watched the sunset. When did you last do that?"

  const RestLines: seq<string> := [
    RestLines1,
    RestLines2,
    RestLines3,
    RestLines4,
    RestLines5,
    RestLines6,
    RestLines7,
    RestLines8,
    RestLines9,
    RestLines10,
    RestLines11,
    RestLines12
  ]

  /** `rest`: energy back, one line logged, no trigger check. */
  method ExecuteRest(g: Game, draws: seq<real>, now: int) returns (added: seq<Event>)
    requires ValidDraws(draws) && |draws| >= 1
    modifies g`resources, g`events
    ensures g.resources == RestOutcome(old(g.resources))
    ensures added == [Event(Pick(RestLines, draws[0]), "neutral", now)]
    ensures g.events == LogAll(old(g.events), added)
  {
    g.resources := g.resources.(energy := Min(100.0, g.resources.energy + 40.0));
    added := Record(g, Event(Pick(RestLines, draws[0]), "neutral", now), g.events, []);
  }

  // ---- ship ----

  /** The flags a launch sets before the trigger check. */
  function LaunchFlags(flags: Flags, res: Resources): (r: Flags)
    ensures Truthy(r, HasShippedFlag) && Count(r, "users") == LaunchUsers(res) as real
    ensures Truthy(r, "successfulLaunch")
            <==> Truthy(flags, "successfulLaunch") || LaunchTier(EffectiveQuality(res.codebase, res.techDebt)) == Hit
  {
    var f := flags[HasShippedFlag := Bool(true)]["users" := Num(LaunchUsers(res) as real)];
    if LaunchTier(EffectiveQuality(res.codebase, res.techDebt)) == Hit then f["successfulLaunch" := Bool(true)] else f
  }

  /** The product-revenue effect a launch starts, if it starts one. */
  function LaunchRevenue(res: Resources): (e: Option<Effect>)
    ensures e.Some? <==> LaunchTier(EffectiveQuality(res.codebase, res.techDebt)) != Flop
    ensures e.Some? ==> e.value.id == "productRevenue"
  {
    var users := LaunchUsers(res) as real;
    match LaunchTier(EffectiveQuality(res.codebase, res.techDebt))
    case Hit => Some(NoEffect("productRevenue").(weeklyIncome := (users * 0.5).Floor as real))
    case Mixed => Some(NoEffect("productRevenue").(weeklyIncome := (users * 0.3).Floor as real))
    case Flop => None
  }

  const HitHead := "You shipped! "
  const HitTail := " people signed up on day one. This might be the start of something."
  const ShippedHead := "You shipped. "
  const MixedTail := " people tried it. The feedback is mixed but useful."
  const FlopNone := "A handful of"
  const FlopTail := " downloads. Crickets. It stings."

  function LaunchLine(tier: Launch, users: int, now: int): Event {
    match tier
    case Hit => Event(HitHead + IntDecimal(users) + HitTail, "success", now)
    case Mixed => Event(ShippedHead + IntDecimal(users) + MixedTail, "neutral", now)
    case Flop =>
      Event(ShippedHead + (if users == 0 then FlopNone else IntDecimal(users)) + FlopTail, "negative", now)
  }

  const NotReadyLine := "You're not ready to ship. Deep down, you know it. Keep building."

  /** `ship`: below codebase 30 only a refusal is logged; otherwise the game is launched once and for all. */
  method ExecuteShip(g: Game, now: int) returns (added: seq<Event>)
    modifies g`resources, g`flags, g`passiveEffects, g`events
    ensures g.resources == ShipOutcome(old(g.resources))
    ensures g.events == LogAll(old(g.events), added)
    ensures old(g.resources).codebase < 30.0 ==>
              g.flags == old(g.flags) && g.passiveEffects == old(g.passiveEffects)
              && added == [Event(NotReadyLine, "negative", now)]
    ensures old(g.resources).codebase >= 30.0 ==>
              g.flags == Triggered(LaunchFlags(old(g.flags), old(g.resources)), g.resources)
              && g.passiveEffects == old(g.passiveEffects)
                   + (if LaunchRevenue(old(g.resources)).Some? then [LaunchRevenue(old(g.resources)).value] else [])
              && Truthy(g.flags, HasShippedFlag)
  {
    if g.resources.codebase < 30.0 {
      added := Record(g, Event(NotReadyLine, "negative", now), g.events, []);
    } else {
      added := Launch(g, now);
    }
  }

  /** The launch itself, once the codebase has reached 30. */
  method Launch(g: Game, now: int) returns (added: seq<Event>)
    requires g.resources.codebase >= 30.0
    modifies g`resources, g`flags, g`passiveEffects, g`events
    ensures g.resources == ShipOutcome(old(g.resources))
    ensures g.events == LogAll(old(g.events), added)
    ensures g.flags == Triggered(LaunchFlags(old(g.flags), old(g.resources)), g.resources)
    ensures g.passiveEffects == old(g.passiveEffects)
              + (if LaunchRevenue(old(g.resources)).Some? then [LaunchRevenue(old(g.resources)).value] else [])
    ensures Truthy(g.flags, HasShippedFlag)
  {
    var res0 := g.resources;
    g.flags := LaunchFlags(g.flags, res0);
    ghost var launched := g.flags;
    added := LaunchNews(g, res0, now);
    g.resources := ShipOutcome(res0);
    var revenue := LaunchRevenue(res0);
    if revenue.Some? {
      g.passiveEffects := g.passiveEffects + [revenue.value];
    }

    added := RecordTriggers(g, now, old(g.events), added);
    KeptByTriggers(launched, g.resources, HasShippedFlag);
  }

  /** The lines a launch logs: the bug warning when debt is above 10, then the tier's announcement. */
  method LaunchNews(g: Game, res: Resources, now: int) returns (added: seq<Event>)
    modifies g`events
    ensures g.events == LogAll(old(g.events), added)
    ensures added == (if res.techDebt > 10.0 then [Event(BuggyLaunchLine, "warning", now)] else [])
                     + [LaunchLine(LaunchTier(EffectiveQuality(res.codebase, res.techDebt)), LaunchUsers(res), now)]
  {
    ghost var base := g.events;
    added := [];
    if res.techDebt > 10.0 {
      added := Record(g, Event(BuggyLaunchLine, "warning", now), base, added);
    }
    added := Record(g, LaunchLine(LaunchTier(EffectiveQuality(res.codebase, res.techDebt)), LaunchUsers(res), now), base, added);
  }

  const BuggyLaunchLine := "Launch day! But... there are bugs. A lot of bugs. Users are reporting crashes."

  // ---- executeAction ----

  /**
   * The resources an action's body leaves behind, run on the charged
   * resources `paid`; `merged` is the PR the code action merged at once, if
   * any. The six actions without a modelled body leave `paid` as it is.
   */
  function ActionOutcome(a: ActionId, paid: Resources, draws: seq<real>, merged: Option<PR>): Resources
    requires ValidDraws(draws) && |draws| >= 5
  {
    match a
    case Code => if merged.Some? then MergedResources(paid, merged.value) else paid
    case Iterate => IterateOutcome(paid)
    case Refactor => RefactorOutcome(paid, draws[0])
    case Freelance => FreelanceOutcome(paid, draws)
    case Network => NetworkOutcome(paid, draws)
    case Rest => RestOutcome(paid)
    case Ship => ShipOutcome(paid)
    case _ => paid
  }

  /** The actions whose `execute` body is not modelled. */
  predicate Unmodelled(a: ActionId) {
    a in {VibeCode, ReleaseUpdate, Market, Support, PostToHN, OpenSource}
  }

  /**
   * `executeAction`: an unknown, unavailable or unaffordable action changes
   * nothing; otherwise its costs are deducted, each exactly once, and its
   * body runs on the charged resources. `ran` tells which happened.
   */
  method ExecuteAction(g: Game, counter: PrCounter, id: string, draws: seq<real>, now: int)
    returns (ran: bool, made: Option<PR>, added: seq<Event>)
    requires ValidDraws(draws) && |draws| >= 5
    requires IdsIssued(g.prQueue, counter.last)
    modifies g`resources, g`flags, g`events, g`prQueue, g`codingProgress, g`pathResources, g`passiveEffects, counter
    ensures IdsIssued(g.prQueue, counter.last)
    ensures g.events == LogAll(old(g.events), added)
    ensures ran <==> ParseAction(id).Some?
                     && Available(ParseAction(id).value, old(g.resources), old(g.flags), old(g.HasUpgrade("vibeCode")))
                     && CanAffordAction(old(g.resources), ParseAction(id).value)
    ensures !ran ==>
              g.resources == old(g.resources) && g.flags == old(g.flags) && g.prQueue == old(g.prQueue)
              && g.codingProgress == old(g.codingProgress) && g.pathResources == old(g.pathResources)
              && g.passiveEffects == old(g.passiveEffects) && counter.last == old(counter.last) && added == []
    ensures made.Some? ==> ran && ParseAction(id) == Some(Code) && made.value.id == counter.last
    ensures ran ==>
              g.resources == ActionOutcome(ParseAction(id).value, Deducted(old(g.resources), ActionCost(ParseAction(id).value)),
                                           draws, if old(g.settings).autoMergePRs then made else None)
    ensures ran && Unmodelled(ParseAction(id).value) ==> added == []
  {
    var parsed := ParseAction(id);
    if parsed.None? {
      return false, None, [];
    }
    var a := parsed.value;
    if !Available(a, g.resources, g.flags, g.HasUpgrade("vibeCode")) || !CanAffordAction(g.resources, a) {
      return false, None, [];
    }
    ran := true;
    g.resources := DeductCosts(g.resources, ActionCost(a));
    made, added := RunAction(g, counter, a, draws, now);
  }

  /** The `execute` body of one action, on resources already charged. */
  method RunAction(g: Game, counter: PrCounter, a: ActionId, draws: seq<real>, now: int)
    returns (made: Option<PR>, added: seq<Event>)
    requires ValidDraws(draws) && |draws| >= 5
    requires IdsIssued(g.prQueue, counter.last)
    modifies g`resources, g`flags, g`events, g`prQueue, g`codingProgress, g`pathResources, g`passiveEffects, counter
    ensures IdsIssued(g.prQueue, counter.last)
    ensures g.events == LogAll(old(g.events), added)
    ensures made.Some? ==> a == Code && made.value.id == counter.last
    ensures g.resources == ActionOutcome(a, old(g.resources), draws, if old(g.settings).autoMergePRs then made else None)
    ensures Unmodelled(a) ==> added == []
  {
    if a == Code {
      made, added := ExecuteCode(g, counter, draws, now);
    } else {
      made := None;
      added := RunOtherAction(g, a, draws, now);
    }
  }

  /** The bodies of the actions other than `code`, which touch neither the PR queue nor the counter. */
  method RunOtherAction(g: Game, a: ActionId, draws: seq<real>, now: int) returns (added: seq<Event>)
    requires ValidDraws(draws) && |draws| >= 5
    requires a != Code
    modifies g`resources, g`flags, g`events, g`pathResources, g`passiveEffects
    ensures g.events == LogAll(old(g.events), added)
    ensures g.resources == ActionOutcome(a, old(g.resources), draws, None)
    ensures Unmodelled(a) ==> added == []
  {
    if a == Iterate || a == Refactor || a == Freelance {
      added := RunWorkAction(g, a, draws, now);
    } else if a == Network || a == Rest || a == Ship {
      added := RunBreakAction(g, a, draws, now);
    } else {
      added := [];
    }
  }

  /** The bodies of `iterate`, `refactor` and `freelance`. */
  method RunWorkAction(g: Game, a: ActionId, draws: seq<real>, now: int) returns (added: seq<Event>)
    requires ValidDraws(draws) && |draws| >= 5
    requires a == Iterate || a == Refactor || a == Freelance
    modifies g`resources, g`flags, g`events, g`pathResources, g`passiveEffects
    ensures g.events == LogAll(old(g.events), added)
    ensures g.resources == ActionOutcome(a, old(g.resources), draws, None)
  {
    ghost var paid := g.resources;
    if a == Iterate {
      assert ActionOutcome(a, paid, draws, None) == IterateOutcome(paid);
      added := ExecuteIterate(g, now);
    } else if a == Refactor {
      assert ActionOutcome(a, paid, draws, None) == RefactorOutcome(paid, draws[0]);
      added := ExecuteRefactor(g, draws, now);
    } else {
      assert ActionOutcome(a, paid, draws, None) == FreelanceOutcome(paid, draws);
      added := ExecuteFreelance(g, draws, now);
    }
  }

  /** The bodies of `network`, `rest` and `ship`. */
  method RunBreakAction(g: Game, a: ActionId, draws: seq<real>, now: int) returns (added: seq<Event>)
    requires ValidDraws(draws) && |draws| >= 5
    requires a == Network || a == Rest || a == Ship
    modifies g`resources, g`flags, g`events, g`pathResources, g`passiveEffects
    ensures g.events == LogAll(old(g.events), added)
    ensures g.resources == ActionOutcome(a, old(g.resources), draws, None)
  {
    ghost var paid := g.resources;
    if a == Network {
      assert ActionOutcome(a, paid, draws, None) == NetworkOutcome(paid, draws);
      added := ExecuteNetwork(g, draws, now);
    } else if a == Rest {
      assert ActionOutcome(a, paid, draws, None) == RestOutcome(paid);
      added := ExecuteRest(g, draws, now);
    } else {
      assert ActionOutcome(a, paid, draws, None) == ShipOutcome(paid);
      added := ExecuteShip(g, now);
    }
  }
}
