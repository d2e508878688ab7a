/**
 * Pull requests of the incremental game (claude-code-game/js/prs.js): PRs are
 * generated with a quality in [0, 1] that fixes their gains and their bug
 * risk, wait in a queue, and are merged by id.
 */
module GamePrs {
  import opened Util
  import opened GameState
  import opened GameEvents

  // the texts of `GeneralTitles`, in order
  const GeneralTitles1 := "Fix edge case in parser"
  const GeneralTitles2 := "Improve error messages"
  const GeneralTitles3 := "Refactor config handling"
  const GeneralTitles4 := "Improve startup time"

  const GeneralTitles: seq<string> := [
    GeneralTitles1, "Update dependencies", GeneralTitles2, "Add logging",
    GeneralTitles3, "Fix race condition", "Clean up dead code", "Add retry logic",
    "Fix memory leak", GeneralTitles4
  ]

  /** `prTitles[focus] || []` */
  function FocusTitles(focus: string): seq<string> {
    if focus == "general" then GeneralTitles
    else if focus == "mcp" then
      ["Add filesystem MCP server", "Fix tool parameter validation", "Add MCP debugging mode",
       "Improve tool discovery", "Fix MCP connection pooling", "Add MCP server templates",
       "Fix tool timeout handling"]
    else if focus == "agents" then
      ["Improve agent planning", "Fix agent loop detection", "Add agent memory", "Improve task decomposition",
       "Fix agent context overflow", "Add agent checkpointing", "Improve agent error recovery"]
    else if focus == "evals" then
      ["Add new benchmark suite", "Fix eval flakiness", "Improve eval reproducibility", "Add regression tests",
       "Fix eval data leakage", "Add performance metrics", "Improve eval reporting"]
    else if focus == "infra" then
      ["Fix deploy script", "Add health checks", "Improve monitoring", "Fix scaling issues", "Add alerting",
       "Fix rate limiting", "Improve caching"]
    else []
  }

  /** The title pool: the general titles followed by those of the current focus (`general` when unset). */
  function TitlesFor(focus: Option<string>): (r: seq<string>)
    ensures |GeneralTitles| <= |r| && r[..|GeneralTitles|] == GeneralTitles
  {
    var f := if focus.Some? && focus.value != "" then focus.value else "general";
    GeneralTitles + FocusTitles(f)
  }

  /** With no focus the general titles are listed twice, so each is still equally likely. */
  lemma NoFocusRepeatsGeneral()
    ensures TitlesFor(None) == GeneralTitles + GeneralTitles
    ensures |TitlesFor(None)| == 20
  {
  }

  /** An unknown focus adds nothing to the pool. */
  lemma UnknownFocusIsGeneralOnly(focus: string)
    requires focus != "" && focus != "general" && focus != "mcp" && focus != "agents"
    requires focus != "evals" && focus != "infra"
    ensures TitlesFor(Some(focus)) == GeneralTitles
  {
  }

  function CodebaseGain(quality: real): int {
    (3.0 + quality * 7.0).Floor
  }

  function TechDebtGain(quality: real): int {
    if quality < 0.5 then ((0.5 - quality) * 6.0).Floor else 0
  }

  /** For a quality in [0, 1] the codebase gain is 3 to 10 and the debt gain 0 to 3, and 0 from quality 0.5 on. */
  lemma GainsBounded(quality: real)
    requires 0.0 <= quality <= 1.0
    ensures 3 <= CodebaseGain(quality) <= 10
    ensures 0 <= TechDebtGain(quality) <= 3
    ensures quality >= 0.5 ==> TechDebtGain(quality) == 0
    ensures TechDebtGain(quality) > 0 <==> quality <= 1.0 / 3.0
  {
  }

  /** Better PRs never gain less codebase nor add more debt. */
  lemma GainsMonotone(q1: real, q2: real)
    requires q1 <= q2
    ensures CodebaseGain(q1) <= CodebaseGain(q2)
    ensures TechDebtGain(q1) >= TechDebtGain(q2)
  {
    assert (3.0 + q1 * 7.0).Floor as real <= 3.0 + q2 * 7.0;
    if q2 < 0.5 {
      assert ((0.5 - q2) * 6.0).Floor as real <= (0.5 - q1) * 6.0;
    }
  }

  /** The extremes and the sample points: 3 at quality 0, 10 at 1, debt at 0.2 and none at 0.8. */
  lemma GainsAtSamplePoints()
    ensures CodebaseGain(0.0) == 3 && CodebaseGain(1.0) == 10
    ensures TechDebtGain(0.2) == 1 && TechDebtGain(0.8) == 0
  {
    assert (0.5 - 0.2) * 6.0 == 1.8;
  }

  /** The `prIdCounter` of the module, which only ever counts up. */
  class PrCounter {
    var last: nat

    constructor()
      ensures last == 0
    {
      last := 0;
    }

    /**
     * `generatePR`: `titleDraw` picks the title; `bugDraw` is the second
     * `Math.random()`, which is only drawn for a quality below 0.4.
     */
    method GeneratePR(focus: Option<string>, quality: real, titleDraw: real, bugDraw: real) returns (pr: PR)
      requires 0.0 <= titleDraw < 1.0 && 0.0 <= bugDraw < 1.0
      modifies this
      ensures last == old(last) + 1 && pr.id == last
      ensures pr.title in TitlesFor(focus) && pr.quality == quality
      ensures pr.hasBug <==> quality < 0.4 && bugDraw < 0.5
      ensures pr.codebaseGain == CodebaseGain(quality) && pr.techDebtGain == TechDebtGain(quality)
    {
      var title := Pick(TitlesFor(focus), titleDraw);
      var hasBug := quality < 0.4 && bugDraw < 0.5;
      last := last + 1;
      pr := PR(last, title, quality, hasBug, CodebaseGain(quality), TechDebtGain(quality));
    }
  }

  /** PR ids in the queue are pairwise distinct. */
  predicate DistinctIds(queue: seq<PR>) {
    forall i, j :: 0 <= i < j < |queue| ==> queue[i].id != queue[j].id
  }

  /** Every queued id was issued by a counter now at `last`. */
  predicate IdsIssued(queue: seq<PR>, last: nat) {
    forall i :: 0 <= i < |queue| ==> queue[i].id <= last
  }

  /** Queuing a freshly generated PR keeps ids distinct: the counter is above every queued id. */
  lemma NewPRKeepsIdsDistinct(queue: seq<PR>, last: nat, pr: PR)
    requires DistinctIds(queue) && IdsIssued(queue, last) && pr.id == last + 1
    ensures DistinctIds(queue + [pr]) && IdsIssued(queue + [pr], last + 1)
  {
    var q := queue + [pr];
    forall i, j | 0 <= i < j < |q| ensures q[i].id != q[j].id {
      if j == |queue| {
        assert q[i] == queue[i];
      } else {
        assert q[i] == queue[i] && q[j] == queue[j];
      }
    }
  }

  /** `prQueue.findIndex(pr => pr.id === prId)`, with -1 as `None`. */
  function FindPR(queue: seq<PR>, id: nat): (r: Option<nat>)
    ensures r.None? <==> forall i :: 0 <= i < |queue| ==> queue[i].id != id
    ensures r.Some? ==> r.value < |queue| && queue[r.value].id == id
    ensures r.Some? ==> forall j :: 0 <= j < r.value ==> queue[j].id != id
  {
    if |queue| == 0 then None
    else if queue[0].id == id then Some(0)
    else
      match FindPR(queue[1..], id)
      case None => None
      case Some(k) => Some(k + 1)
  }

  /** The resources after merging `pr`. */
  function MergedResources(res: Resources, pr: PR): (r: Resources)
    ensures r.codebase - res.codebase == pr.codebaseGain as real
    ensures r.techDebt - res.techDebt == pr.techDebtGain as real
    ensures !pr.hasBug ==> r.trust == res.trust
    ensures pr.hasBug && res.trust >= 0.0 ==> r.trust <= res.trust && res.trust - r.trust <= 3.0
    ensures res.trust >= 0.0 ==> r.trust >= 0.0
    ensures r.(codebase := res.codebase, techDebt := res.techDebt, trust := res.trust) == res
  {
    var r := res.(codebase := res.codebase + pr.codebaseGain as real,
                  techDebt := res.techDebt + pr.techDebtGain as real);
    if pr.hasBug then r.(trust := Max(0.0, r.trust - 3.0)) else r
  }

  /** The line logged for a merge: buggy, clean (quality above 0.7) or plain. */
  function MergeEvent(pr: PR, now: int): (e: Event)
    ensures e.kind == (if pr.hasBug then "warning" else if pr.quality > 0.7 then "success" else "neutral")
  {
    var quoted := "Merged \"" + pr.title + "\".";
    if pr.hasBug then Event(quoted + " Bug found in prod.", "warning", now)
    else if pr.quality > 0.7 then Event(quoted + " Clean.", "success", now)
    else Event(quoted, "neutral", now)
  }

  /**
   * `mergePR`: an unknown id changes nothing; otherwise the first PR with
   * that id leaves the queue, its gains are applied, the merge is logged and
   * the narrative triggers are checked against the new resources.
   */
  method MergePR(g: Game, prId: nat, now: int) returns (merged: Option<PR>)
    modifies g`prQueue, g`resources, g`events, g`flags
    ensures merged.None? <==> FindPR(old(g.prQueue), prId).None?
    ensures merged.None? ==>
              g.prQueue == old(g.prQueue) && g.resources == old(g.resources)
              && g.events == old(g.events) && g.flags == old(g.flags)
    ensures merged.Some? ==>
              var i := FindPR(old(g.prQueue), prId).value;
              var res := MergedResources(old(g.resources), merged.value);
              merged.value == old(g.prQueue)[i]
              && g.prQueue == old(g.prQueue)[..i] + old(g.prQueue)[i + 1..]
              && g.resources == res
              && g.flags == Triggered(old(g.flags), res)
              && g.events == LogAll(old(g.events), [MergeEvent(merged.value, now)] + TriggerEvents(old(g.flags), res, now))
  {
    var found := FindPR(g.prQueue, prId);
    if found.None? {
      return None;
    }
    var i := found.value;
    var pr := g.prQueue[i];
    g.prQueue := g.prQueue[..i] + g.prQueue[i + 1..];
    ApplyMerge(g, pr, now);
    merged := Some(pr);
  }

  /** The effects of merging `pr` once it has left the queue: gains, the log line, the triggers. */
  method ApplyMerge(g: Game, pr: PR, now: int)
    modifies g`resources, g`events, g`flags
    ensures var res := MergedResources(old(g.resources), pr);
            g.resources == res
            && g.flags == Triggered(old(g.flags), res)
            && g.events == LogAll(old(g.events), [MergeEvent(pr, now)] + TriggerEvents(old(g.flags), res, now))
  {
    ghost var res0 := g.resources;
    g.resources := g.resources.(codebase := g.resources.codebase + pr.codebaseGain as real,
                                techDebt := g.resources.techDebt + pr.techDebtGain as real);
    var e := MergeEvent(pr, now);
    ghost var events0 := g.events;
    if pr.hasBug {
      AddEvent(g, e.message, e.kind, now);
      g.resources := g.resources.(trust := Max(0.0, g.resources.trust - 3.0));
    } else {
      AddEvent(g, e.message, e.kind, now);
    }
    assert g.resources == MergedResources(res0, pr);
    assert g.events == LogAll(events0, [e]);
    CheckNarrativeTriggers(g, now);
    LogAllAppend(events0, [e], TriggerEvents(old(g.flags), g.resources, now));
  }

  /** Taking out position `i` shifts the later entries down by one and keeps everything else. */
  lemma RemoveAt(queue: seq<PR>, i: nat)
    requires i < |queue|
    ensures var rest := queue[..i] + queue[i + 1..];
            |rest| == |queue| - 1
            && (forall k :: 0 <= k < i ==> rest[k] == queue[k])
            && (forall k :: i <= k < |rest| ==> rest[k] == queue[k + 1])
            && multiset(rest) + multiset{queue[i]} == multiset(queue)
  {
    assert queue == queue[..i] + [queue[i]] + queue[i + 1..];
  }

  /**
   * With distinct ids, merging takes out exactly the PR with that id: it is
   * no longer queued and every other PR still is.
   */
  lemma MergeRemovesExactlyOne(queue: seq<PR>, id: nat)
    requires DistinctIds(queue) && FindPR(queue, id).Some?
    ensures var i := FindPR(queue, id).value;
            var rest := queue[..i] + queue[i + 1..];
            (forall p :: p in rest ==> p.id != id)
            && |rest| == |queue| - 1
            && multiset(rest) + multiset{queue[i]} == multiset(queue)
            && DistinctIds(rest)
  {
    var i := FindPR(queue, id).value;
    var rest := queue[..i] + queue[i + 1..];
    RemoveAt(queue, i);
    forall k | 0 <= k < |rest| ensures rest[k].id != id {
      if k >= i {
        assert rest[k] == queue[k + 1];
      }
    }
    forall a, b | 0 <= a < b < |rest| ensures rest[a].id != rest[b].id {
      var a' := if a < i then a else a + 1;
      var b' := if b < i then b else b + 1;
      assert rest[a] == queue[a'] && rest[b] == queue[b'];
    }
  }

  /** Merging a bug-free PR never costs trust; merging a buggy one never drives it negative. */
  lemma MergeTrust(res: Resources, pr: PR)
    requires res.trust >= 0.0
    ensures MergedResources(res, pr).trust >= 0.0
    ensures !pr.hasBug ==> MergedResources(res, pr).trust == res.trust
    ensures pr.hasBug && res.trust >= 3.0 ==> MergedResources(res, pr).trust == res.trust - 3.0
  {
  }
}
