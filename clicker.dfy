/**
 * The first prototype of the clicker game (game.js at the repository root):
 * one main action that fixes a bug, one purchasable upgrade, one unlock and
 * a newest-first event log of ten entries.
 *
 * `Date.now()` is the parameter `now`. The animation-frame loop, the DOM
 * display and the localStorage save/load are not modelled; the three
 * functions the loop calls besides the display have empty bodies.
 */
module Clicker {
  import opened Util

  const EventCap := 10
  const AutoFixerId := "autoFixer"
  const CantAffordMessage := "Can't afford that upgrade yet."
  const FixedBugMessage := "Fixed a bug. Users are happy!"
  const AutomationMessage := "New upgrades available: Automation!"
  const AutomationClicks := 20

  datatype Resource = Utility | Money | Compute

  datatype ClickEvent = ClickEvent(message: string, timestamp: int)

  /** An entry of `upgradeDefinitions`: its cost entries in order and its unlock threshold on clicks. */
  datatype UpgradeDef = UpgradeDef(id: string, name: string, cost: seq<(Resource, real)>, unlockClicks: nat)

  const AutoFixer := UpgradeDef(AutoFixerId, "Auto Bug Fixer", [(Money, 10.0)], 10)

  /** `upgradeDefinitions[upgradeId]`: only the auto fixer is defined. */
  function FindUpgrade(id: string): (r: Option<UpgradeDef>)
    ensures r.Some? <==> id == AutoFixerId
    ensures r.Some? ==> r.value.id == id
  {
    if id == AutoFixerId then Some(AutoFixer) else None
  }

  /** The upgrades `updateUpgradeDisplay` offers: those whose unlock condition holds. */
  function AvailableUpgrades(totalClicks: nat): (r: seq<UpgradeDef>)
    ensures AutoFixer in r <==> totalClicks >= 10
    ensures forall u :: u in r ==> FindUpgrade(u.id) == Some(u) && totalClicks >= u.unlockClicks
  {
    if totalClicks >= AutoFixer.unlockClicks then [AutoFixer] else []
  }

  class ClickerGame {
    var utility: real
    var money: real
    var compute: real
    var phase: string
    var totalClicks: nat
    var automationUnlocked: bool
    var upgrades: seq<string>
    var events: seq<ClickEvent>

    /** The initial `gameState`. */
    constructor ()
      ensures utility == 0.0 && money == 0.0 && compute == 0.0 && phase == "early"
      ensures totalClicks == 0 && !automationUnlocked && upgrades == [] && events == []
    {
      utility, money, compute := 0.0, 0.0, 0.0;
      phase := "early";
      totalClicks := 0;
      automationUnlocked := false;
      upgrades := [];
      events := [];
    }

    function Get(r: Resource): real
      reads this
    {
      match r
      case Utility => utility
      case Money => money
      case Compute => compute
    }

    /** The `every` test of `purchaseUpgrade`. */
    predicate CanAfford(cost: seq<(Resource, real)>)
      reads this
    {
      forall k :: 0 <= k < |cost| ==> Get(cost[k].0) >= cost[k].1
    }

    /** `addEvent`: unshift, then keep only the ten newest. */
    method AddEvent(message: string, now: int)
      modifies this`events
      ensures events == PushNewest(old(events), ClickEvent(message, now), EventCap)
    {
      events := [ClickEvent(message, now)] + events;
      if |events| > EventCap {
        events := events[..EventCap];
      }
    }

    /** `checkUnlocks`: automation unlocks once, at 20 clicks, and is never locked again. */
    method CheckUnlocks(now: int)
      modifies this`automationUnlocked, this`events
      ensures automationUnlocked == (old(automationUnlocked) || totalClicks >= AutomationClicks)
      ensures events == if !old(automationUnlocked) && totalClicks >= AutomationClicks
                        then PushNewest(old(events), ClickEvent(AutomationMessage, now), EventCap)
                        else old(events)
    {
      if !automationUnlocked && totalClicks >= AutomationClicks {
        automationUnlocked := true;
        AddEvent(AutomationMessage, now);
      }
    }

    /** `fixBug`: one more click, one utility, a tenth of a dollar, a log line and the unlock check. */
    method FixBug(now: int)
      modifies this`totalClicks, this`utility, this`money, this`events, this`automationUnlocked
      ensures totalClicks == old(totalClicks) + 1
      ensures utility == old(utility) + 1.0 && money == old(money) + 0.1
      ensures automationUnlocked == (old(automationUnlocked) || totalClicks >= AutomationClicks)
      ensures var logged := PushNewest(old(events), ClickEvent(FixedBugMessage, now), EventCap);
              events == if !old(automationUnlocked) && totalClicks >= AutomationClicks
                        then PushNewest(logged, ClickEvent(AutomationMessage, now), EventCap)
                        else logged
    {
      totalClicks := totalClicks + 1;
      utility := utility + 1.0;
      money := money + 0.1;
      AddEvent(FixedBugMessage, now);
      CheckUnlocks(now);
    }

    /** `performMainAction`: only the early phase has a main action. */
    method PerformMainAction(now: int)
      modifies this`totalClicks, this`utility, this`money, this`events, this`automationUnlocked
      ensures phase != "early" ==>
                totalClicks == old(totalClicks) && utility == old(utility) && money == old(money)
                && events == old(events) && automationUnlocked == old(automationUnlocked)
      ensures phase == "early" ==> totalClicks == old(totalClicks) + 1
      ensures phase == "early" ==> utility == old(utility) + 1.0 && money == old(money) + 0.1
      ensures phase == "early" ==> automationUnlocked == (old(automationUnlocked) || totalClicks >= AutomationClicks)
      ensures phase == "early" ==>
                var logged := PushNewest(old(events), ClickEvent(FixedBugMessage, now), EventCap);
                events == if !old(automationUnlocked) && totalClicks >= AutomationClicks
                          then PushNewest(logged, ClickEvent(AutomationMessage, now), EventCap)
                          else logged
    {
      if phase == "early" {
        FixBug(now);
      }
    }

    /** The cost loop of `purchaseUpgrade`: each entry is subtracted from its own resource. */
    method DeductCost(cost: seq<(Resource, real)>)
      modifies this`utility, this`money, this`compute
      ensures forall r :: Get(r) == old(Get(r)) - CostOf(cost, r)
    {
      var i := 0;
      while i < |cost|
        invariant 0 <= i <= |cost|
        invariant forall r :: Get(r) == old(Get(r)) - CostOf(cost[..i], r)
      {
        assert cost[..i + 1][..i] == cost[..i];
        match cost[i].0 {
          case Utility => utility := utility - cost[i].1;
          case Money => money := money - cost[i].1;
          case Compute => compute := compute - cost[i].1;
        }
        i := i + 1;
      }
      assert cost[..i] == cost;
    }

    /**
     * `purchaseUpgrade`: an unknown id changes nothing; an unaffordable one
     * only logs a refusal; an affordable one is paid for, recorded and logged.
     */
    method PurchaseUpgrade(id: string, now: int) returns (bought: bool)
      modifies this`utility, this`money, this`compute, this`upgrades, this`events
      ensures bought <==> FindUpgrade(id).Some? && old(CanAfford(FindUpgrade(id).value.cost))
      ensures FindUpgrade(id).None? ==>
                events == old(events) && upgrades == old(upgrades)
                && utility == old(utility) && money == old(money) && compute == old(compute)
      ensures FindUpgrade(id).Some? && !bought ==>
                events == PushNewest(old(events), ClickEvent(CantAffordMessage, now), EventCap)
                && upgrades == old(upgrades)
                && utility == old(utility) && money == old(money) && compute == old(compute)
      ensures bought ==>
                upgrades == old(upgrades) + [id]
                && events == PushNewest(old(events), ClickEvent("Purchased: " + FindUpgrade(id).value.name, now), EventCap)
                && forall r :: Get(r) == old(Get(r)) - CostOf(FindUpgrade(id).value.cost, r)
    {
      var found := FindUpgrade(id);
      if found.None? {
        return false;
      }
      var u := found.value;
      if !CanAfford(u.cost) {
        AddEvent(CantAffordMessage, now);
        return false;
      }
      bought := true;
      DeductCost(u.cost);
      upgrades := upgrades + [id];
      AddEvent("Purchased: " + u.name, now);
    }
  }

  /** Total of the cost entries that name `r`. */
  function CostOf(cost: seq<(Resource, real)>, r: Resource): real {
    if |cost| == 0 then 0.0
    else CostOf(cost[..|cost| - 1], r) + (if cost[|cost| - 1].0 == r then cost[|cost| - 1].1 else 0.0)
  }

  /** Buying the auto fixer costs ten dollars and nothing else. */
  lemma AutoFixerCost(r: Resource)
    ensures CostOf(AutoFixer.cost, r) == if r == Money then 10.0 else 0.0
  {
    assert AutoFixer.cost[..0] == [];
  }
}
