/**
 * The development tech tree of the incremental game (claude-code-game/js/tech-tree.js):
 * a fixed table of tasks, each naming the tasks it requires. A task is
 * offered once all of its requirements are completed; a one-off task is no
 * longer offered once it is itself completed.
 */
module GameTechTree {
  import opened Util

  datatype Task = Task(
    id: string,
    name: string,
    devPoints: nat,
    oneOff: bool,
    requirements: seq<string>,
    message: Option<string>
  )

  // task ids
  const PrototypeId := "prototype"
  const ToolCallingId := "tool-calling"
  const ErrorHandlingId := "error-handling"
  const StreamingId := "streaming"
  const McpSpecId := "mcp-spec"
  const ToolDiscoveryId := "tool-discovery"
  const McpFilesystemId := "mcp-filesystem"
  const McpGitId := "mcp-git"
  const ServerTemplatesId := "server-templates"
  const AgentLoopId := "agent-loop"
  const ContextManagementId := "context-management"
  const TaskDecompositionId := "task-decomposition"
  const EvalFrameworkId := "eval-framework"
  const BenchmarkSuiteId := "benchmark-suite"
  const SafetyChecksId := "safety-checks"

  // task names as shown
  const PrototypeName := "[Dev] Claude Code Prototype"
  const ToolCallingName := "[Dev] Basic tool calling"
  const ErrorHandlingName := "[Dev] Error handling"
  const StreamingName := "[Dev] Streaming responses"
  const McpSpecName := "[Dev] MCP protocol spec"
  const ToolDiscoveryName := "[Dev] Tool discovery"
  const McpFilesystemName := "[Dev] Filesystem MCP server"
  const McpGitName := "[Dev] Git MCP server"
  const ServerTemplatesName := "[Dev] MCP server templates"
  const AgentLoopName := "[Dev] Agent loop"
  const ContextManagementName := "[Dev] Context management"
  const TaskDecompositionName := "[Dev] Task decomposition"
  const EvalFrameworkName := "[Dev] Eval framework"
  const BenchmarkSuiteName := "[Dev] Benchmark suite"
  const SafetyChecksName := "[Dev] Safety checks"

  // the messages some tasks log on completion
  const ToolCallingMessage := "Tool calling working. MCP protocol next."
  const McpSpecMessage := "MCP spec complete. Server ecosystem unlocked."
  const McpFilesystemMessage := "Filesystem access enables agentic workflows."
  const AgentLoopMessage := "Agents need evals. Measurement unlocked."

  const Prototype := Task(PrototypeId, PrototypeName, 50, true, [], None)
  const ToolCalling := Task(ToolCallingId, ToolCallingName, 35, true, [PrototypeId], Some(ToolCallingMessage))
  const ErrorHandling := Task(ErrorHandlingId, ErrorHandlingName, 25, false, [PrototypeId], None)
  const Streaming := Task(StreamingId, StreamingName, 30, true, [PrototypeId], None)
  const McpSpec := Task(McpSpecId, McpSpecName, 45, true, [ToolCallingId], Some(McpSpecMessage))
  const ToolDiscovery := Task(ToolDiscoveryId, ToolDiscoveryName, 30, false, [ToolCallingId], None)
  const McpFilesystem := Task(McpFilesystemId, McpFilesystemName, 40, true, [McpSpecId], Some(McpFilesystemMessage))
  const McpGit := Task(McpGitId, McpGitName, 40, true, [McpSpecId], None)
  const ServerTemplates := Task(ServerTemplatesId, ServerTemplatesName, 35, false, [McpSpecId], None)
  const AgentLoop := Task(AgentLoopId, AgentLoopName, 50, true, [McpFilesystemId], Some(AgentLoopMessage))
  const ContextManagement := Task(ContextManagementId, ContextManagementName, 40, false, [McpFilesystemId], None)
  const TaskDecomposition := Task(TaskDecompositionId, TaskDecompositionName, 45, true, [McpFilesystemId, AgentLoopId], None)
  const EvalFramework := Task(EvalFrameworkId, EvalFrameworkName, 50, true, [AgentLoopId], None)
  const BenchmarkSuite := Task(BenchmarkSuiteId, BenchmarkSuiteName, 40, false, [AgentLoopId], None)
  const SafetyChecks := Task(SafetyChecksId, SafetyChecksName, 45, false, [AgentLoopId, EvalFrameworkId], None)

  /** The table, in declaration order (which is also the order of every query result). */
  const TechTree: seq<Task> := [
    Prototype, ToolCalling, ErrorHandling, Streaming, McpSpec, ToolDiscovery, McpFilesystem, McpGit,
    ServerTemplates, AgentLoop, ContextManagement, TaskDecomposition, EvalFramework, BenchmarkSuite,
    SafetyChecks
  ]

  /** The offering rule for one task. */
  predicate Offered(t: Task, completed: seq<string>) {
    !(t.oneOff && t.id in completed) && forall r :: r in t.requirements ==> r in completed
  }

  /** The tasks of `tasks` that the rule offers, in order. */
  function AvailableAmong(tasks: seq<Task>, completed: seq<string>): (r: seq<Task>)
    ensures forall t :: t in r <==> t in tasks && Offered(t, completed)
    ensures |r| <= |tasks|
  {
    if |tasks| == 0 then []
    else
      var rest := AvailableAmong(tasks[..|tasks| - 1], completed);
      var t := tasks[|tasks| - 1];
      assert tasks == tasks[..|tasks| - 1] + [t];
      if Offered(t, completed) then rest + [t] else rest
  }

  /** `getAvailableTasks`: exactly the tasks whose requirements are all completed, minus completed one-offs. */
  function GetAvailableTasks(completed: seq<string>): (r: seq<Task>)
    ensures forall t :: t in r <==> t in TechTree && Offered(t, completed)
  {
    AvailableAmong(TechTree, completed)
  }

  /** `getTask`: the entry with that id, or nothing for an unknown id. */
  function GetTask(id: string): (r: Option<Task>)
    ensures r.Some? <==> exists i :: 0 <= i < |TechTree| && TechTree[i].id == id
    ensures r.Some? ==> r.value.id == id && r.value in TechTree
  {
    FindTask(TechTree, id)
  }

  function FindTask(tasks: seq<Task>, id: string): (r: Option<Task>)
    ensures r.Some? <==> exists i :: 0 <= i < |tasks| && tasks[i].id == id
    ensures r.Some? ==> r.value.id == id && r.value in tasks
  {
    if |tasks| == 0 then None
    else if tasks[0].id == id then Some(tasks[0])
    else
      var r := FindTask(tasks[1..], id);
      assert forall i :: 1 <= i < |tasks| ==> tasks[i] == tasks[1..][i - 1];
      r
  }

  /** The tasks of `tasks` whose requirements mention `id`, in order. */
  function DependentsAmong(tasks: seq<Task>, id: string): (r: seq<Task>)
    ensures forall t :: t in r <==> t in tasks && id in t.requirements
  {
    if |tasks| == 0 then []
    else
      var rest := DependentsAmong(tasks[..|tasks| - 1], id);
      var t := tasks[|tasks| - 1];
      assert tasks == tasks[..|tasks| - 1] + [t];
      if id in t.requirements then rest + [t] else rest
  }

  /** `getDependents`: exactly the tasks that directly require `id`. */
  function GetDependents(id: string): (r: seq<Task>)
    ensures forall t :: t in r <==> t in TechTree && id in t.requirements
  {
    DependentsAmong(TechTree, id)
  }

  /** `getStartingTasks`: the tasks available with nothing completed. */
  function GetStartingTasks(): (r: seq<Task>)
    ensures forall t :: t in r <==> t in TechTree && t.requirements == []
  {
    var r := GetAvailableTasks([]);
    assert forall t :: t in TechTree ==> (Offered(t, []) <==> t.requirements == []) by {
      forall t | t in TechTree ensures Offered(t, []) <==> t.requirements == [] {
        if t.requirements != [] {
          assert t.requirements[0] in t.requirements;
        }
      }
    }
    r
  }

  /** Only the prototype is offered at the start. */
  lemma StartingTasksArePrototype()
    ensures forall t :: t in GetStartingTasks() <==> t == Prototype
  {
    forall t | t in TechTree && t.requirements == [] ensures t == Prototype {
      var i :| 0 <= i < |TechTree| && TechTree[i] == t;
      if i > 0 {
        LaterTasksHaveRequirements(i);
      }
    }
    assert TechTree[0] == Prototype;
  }

  /** Every task after the prototype requires something. */
  lemma LaterTasksHaveRequirements(i: nat)
    requires 1 <= i < |TechTree|
    ensures TechTree[i].requirements != []
  {
  }

  /** Task ids are unique. */
  lemma IdsDistinct()
    ensures forall i, j :: 0 <= i < j < |TechTree| ==> TechTree[i].id != TechTree[j].id
  {
  }

  /**
   * Every requirement names a task declared earlier in the table: the
   * declaration order is a topological order of the requirement graph.
   */
  lemma RequirementsPrecede(i: nat, r: string)
    requires 0 < i < |TechTree| && r in TechTree[i].requirements
    ensures exists j :: 0 <= j < i && TechTree[j].id == r
  {
    if i <= 3 {
      assert r == PrototypeId && TechTree[0].id == r;
    } else if i <= 5 {
      assert r == ToolCallingId && TechTree[1].id == r;
    } else if i <= 8 {
      assert r == McpSpecId && TechTree[4].id == r;
    } else if i <= 10 {
      assert r == McpFilesystemId && TechTree[6].id == r;
    } else if i == 11 {
      assert TechTree[6].id == McpFilesystemId && TechTree[9].id == AgentLoopId;
    } else if i <= 13 {
      assert r == AgentLoopId && TechTree[9].id == r;
    } else {
      assert TechTree[9].id == AgentLoopId && TechTree[12].id == EvalFrameworkId;
    }
  }

  /** A requirement chain, as table positions: each entry requires the next. */
  predicate RequirementChain(idx: seq<nat>) {
    (forall k :: 0 <= k < |idx| ==> idx[k] < |TechTree|)
    && forall k :: 0 <= k < |idx| - 1 ==> TechTree[idx[k + 1]].id in TechTree[idx[k]].requirements
  }

  /** A task's requirement sits higher in the table than the task. */
  lemma RequiredIsEarlier(i: nat, k: nat)
    requires i < |TechTree| && k < |TechTree| && TechTree[k].id in TechTree[i].requirements
    ensures k < i
  {
    assert TechTree[0].requirements == [];
    RequirementsPrecede(i, TechTree[k].id);
    IdsDistinct();
  }

  /** Following requirements strictly moves up the table. */
  lemma {:induction false} ChainDescends(idx: seq<nat>)
    requires |idx| >= 2 && RequirementChain(idx)
    ensures idx[|idx| - 1] < idx[0]
    decreases |idx|
  {
    RequiredIsEarlier(idx[0], idx[1]);
    if |idx| > 2 {
      var tail := idx[1..];
      assert forall k :: 0 <= k < |tail| ==> tail[k] == idx[k + 1];
      ChainDescends(tail);
    }
  }

  /** The requirement graph is acyclic: no task transitively requires itself. */
  lemma TreeIsAcyclic(idx: seq<nat>)
    requires |idx| >= 2 && RequirementChain(idx)
    ensures TechTree[idx[0]].id != TechTree[idx[|idx| - 1]].id
  {
    ChainDescends(idx);
    IdsDistinct();
  }

  /** A task with two requirements is offered exactly when both are completed. */
  lemma AllRequirementsNeeded(completed: seq<string>)
    requires McpFilesystemId in completed && TaskDecompositionId !in completed
    ensures TaskDecomposition in GetAvailableTasks(completed) <==> AgentLoopId in completed
  {
    assert TaskDecomposition.requirements == [McpFilesystemId, AgentLoopId];
  }

  /** A repeatable task stays available after it is completed. */
  lemma RepeatableStaysAvailable(completed: seq<string>)
    requires PrototypeId in completed
    ensures ErrorHandling in GetAvailableTasks(completed)
    ensures ErrorHandling in GetAvailableTasks(completed + [ErrorHandlingId])
  {
  }

  /** A one-off task is no longer offered once completed. */
  lemma OneOffDisappears(completed: seq<string>)
    ensures Prototype !in GetAvailableTasks(completed + [PrototypeId])
  {
  }

  /** Nothing depends on the safety checks. */
  lemma SafetyChecksIsALeaf()
    ensures GetDependents(SafetyChecksId) == []
  {
    forall t | t in TechTree ensures SafetyChecksId !in t.requirements {
      var i :| 0 <= i < |TechTree| && TechTree[i] == t;
      NothingRequiresSafetyChecks(i);
    }
    DependentsNone(TechTree, SafetyChecksId);
  }

  lemma NothingRequiresSafetyChecks(i: nat)
    requires i < |TechTree|
    ensures SafetyChecksId !in TechTree[i].requirements
  {
  }

  lemma {:induction false} DependentsNone(tasks: seq<Task>, id: string)
    requires forall t :: t in tasks ==> id !in t.requirements
    ensures DependentsAmong(tasks, id) == []
  {
    if |tasks| > 0 {
      DependentsNone(tasks[..|tasks| - 1], id);
      assert tasks[|tasks| - 1] in tasks;
    }
  }
}
