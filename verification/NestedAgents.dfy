// Agents that spawn agents: AgentLoop.Run (internal/loop/loop.go) calls tools
// through the retrying Invoker (internal/tools/invoker.go), one of which is
// SpawnAgentTool (internal/subagent/spawn.go), which calls Run again. The model's
// replies, permissions, timeouts and cancellations come from an arbitrary World.
module NestedAgents {
  import opened Basics

  const ATTEMPTS := 3   // one call and two retries

  datatype Use =
    | OtherTool
    | Spawn(permitted: bool, complete: bool, background: bool)   // complete: description and prompt given

  datatype Reply =
    | CallFailed               // the model call failed or was cancelled
    | EndTurn
    | Truncated                // max_tokens: tools are not run
    | ToolUse(uses: seq<Use>)

  // A run is named by how it was reached: step, tool call and attempt at each level.
  type Path = seq<nat>

  datatype World = World(
    reply: (Path, nat) -> Reply,               // at a run's step
    interrupted: Path -> bool,                 // this attempt timed out or the run was cancelled during it
    offersSpawn: Path -> bool)                 // the skill or profile whitelist lets this run spawn

  datatype Config = Config(maxSteps: int, maxDepth: nat)

  datatype Status = Running | Success | Failed

  // Iterations left at a step.
  function Remaining(cfg: Config, step: nat): nat {
    if step < cfg.maxSteps then cfg.maxSteps - step else 0
  }

  // Status of a run and all the runs it started, itself included.
  datatype Tree = Tree(status: Status, runs: seq<Path>)

  // A child registry holds spawn_agent only below the depth limit; the root's always may.
  predicate HasSpawn(w: World, cfg: Config, run: Path, depth: nat) {
    (depth == 0 || depth < cfg.maxDepth) && w.offersSpawn(run)
  }

  // ---- Specification: what each level starts --------------------------------------

  function RunTree(w: World, cfg: Config, run: Path, depth: nat): Tree
    requires depth <= cfg.maxDepth
    decreases cfg.maxDepth - depth, Remaining(cfg, 0) + 1, 0, 0, 0
  {
    var t := Steps(w, cfg, run, depth, 0);
    Tree(t.status, [run] + t.runs)
  }

  // The iterations from `step` on.
  function Steps(w: World, cfg: Config, run: Path, depth: nat, step: nat): Tree
    requires depth <= cfg.maxDepth
    decreases cfg.maxDepth - depth, Remaining(cfg, step), 1, 0, 0
  {
    if step >= cfg.maxSteps then Tree(Running, [])
    else
      match w.reply(run, step)
      case CallFailed => Tree(Failed, [])
      case EndTurn => Tree(Success, [])
      case Truncated => if step + 1 >= cfg.maxSteps then Tree(Failed, []) else Steps(w, cfg, run, depth, step + 1)
      case ToolUse(uses) =>
        var started := Uses(w, cfg, run, depth, step, uses, 0);
        if step + 1 >= cfg.maxSteps then Tree(Failed, started)
        else
          var rest := Steps(w, cfg, run, depth, step + 1);
          Tree(rest.status, started + rest.runs)
  }

  // The tool calls of one reply from number u on.
  function Uses(w: World, cfg: Config, run: Path, depth: nat, step: nat, uses: seq<Use>, u: nat): seq<Path>
    requires depth <= cfg.maxDepth && u <= |uses|
    decreases cfg.maxDepth - depth, Remaining(cfg, step), 0, |uses| - u, ATTEMPTS + 1
  {
    if u == |uses| then []
    else
      (if uses[u].Spawn? && HasSpawn(w, cfg, run, depth) && uses[u].permitted
       then Attempts(w, cfg, run, depth, step, uses, u, 1) else [])
      + Uses(w, cfg, run, depth, step, uses, u + 1)
  }

  // One spawn_agent call, from attempt k on.
  function Attempts(w: World, cfg: Config, run: Path, depth: nat, step: nat, uses: seq<Use>, u: nat, k: nat): seq<Path>
    requires depth <= cfg.maxDepth && u < |uses| && uses[u].Spawn? && 1 <= k <= ATTEMPTS
    decreases cfg.maxDepth - depth, Remaining(cfg, step), 0, |uses| - u, ATTEMPTS + 1 - k
  {
    var child := run + [step, u, k];
    var t := SpawnTree(w, cfg, depth, uses[u], child);
    t.runs
    + (if t.status != Success && uses[u].complete && !w.interrupted(child) && k < ATTEMPTS
       then Attempts(w, cfg, run, depth, step, uses, u, k + 1) else [])
  }

  // What the tool body does: a background child counts as a success at once.
  function SpawnTree(w: World, cfg: Config, depth: nat, use: Use, child: Path): Tree
    requires depth <= cfg.maxDepth && use.Spawn?
    decreases cfg.maxDepth - depth, 0, 0, 0, 0
  {
    if !use.complete || depth >= cfg.maxDepth then Tree(Failed, [])
    else
      var t := RunTree(w, cfg, child, depth + 1);
      if use.background then Tree(Success, t.runs) else t
  }

  // ---- Depth, termination status ----------------------------------------------------

  // A path has three numbers a level.
  predicate DepthsWithin(runs: seq<Path>, lo: nat, hi: nat) {
    forall i | 0 <= i < |runs| :: 3 * lo <= |runs[i]| <= 3 * hi
  }

  lemma {:induction false} RunDepths(w: World, cfg: Config, run: Path, depth: nat)
    requires depth <= cfg.maxDepth && |run| == 3 * depth
    ensures DepthsWithin(RunTree(w, cfg, run, depth).runs, depth, cfg.maxDepth)
    decreases cfg.maxDepth - depth, Remaining(cfg, 0) + 1, 0, 0, 0
  {
    StepsDepths(w, cfg, run, depth, 0);
  }

  lemma {:induction false} StepsDepths(w: World, cfg: Config, run: Path, depth: nat, step: nat)
    requires depth <= cfg.maxDepth && |run| == 3 * depth
    ensures DepthsWithin(Steps(w, cfg, run, depth, step).runs, depth + 1, cfg.maxDepth)
    decreases cfg.maxDepth - depth, Remaining(cfg, step), 1, 0, 0
  {
    if step < cfg.maxSteps {
      match w.reply(run, step) {
        case Truncated => StepsDepths(w, cfg, run, depth, step + 1);
        case ToolUse(uses) =>
          UsesDepths(w, cfg, run, depth, step, uses, 0);
          StepsDepths(w, cfg, run, depth, step + 1);
        case _ =>
      }
    }
  }

  lemma {:induction false} UsesDepths(w: World, cfg: Config, run: Path, depth: nat, step: nat, uses: seq<Use>, u: nat)
    requires depth <= cfg.maxDepth && |run| == 3 * depth && u <= |uses|
    ensures DepthsWithin(Uses(w, cfg, run, depth, step, uses, u), depth + 1, cfg.maxDepth)
    decreases cfg.maxDepth - depth, Remaining(cfg, step), 0, |uses| - u, ATTEMPTS + 1
  {
    if u < |uses| {
      if uses[u].Spawn? {
        AttemptsDepths(w, cfg, run, depth, step, uses, u, 1);
      }
      UsesDepths(w, cfg, run, depth, step, uses, u + 1);
    }
  }

  lemma {:induction false} AttemptsDepths(w: World, cfg: Config, run: Path, depth: nat, step: nat, uses: seq<Use>, u: nat, k: nat)
    requires depth <= cfg.maxDepth && |run| == 3 * depth && u < |uses| && uses[u].Spawn? && 1 <= k <= ATTEMPTS
    ensures DepthsWithin(Attempts(w, cfg, run, depth, step, uses, u, k), depth + 1, cfg.maxDepth)
    decreases cfg.maxDepth - depth, Remaining(cfg, step), 0, |uses| - u, ATTEMPTS + 1 - k
  {
    if depth < cfg.maxDepth {
      RunDepths(w, cfg, run + [step, u, k], depth + 1);
    }
    if k < ATTEMPTS {
      AttemptsDepths(w, cfg, run, depth, step, uses, u, k + 1);
    }
  }

  // Every run in the tree ends with a definite status exactly if it may step.
  lemma {:induction false} RunEnds(w: World, cfg: Config, run: Path, depth: nat, step: nat)
    requires depth <= cfg.maxDepth && step <= cfg.maxSteps
    ensures Steps(w, cfg, run, depth, step).status != Running <==> step < cfg.maxSteps
    decreases cfg.maxSteps - step
  {
    if step + 1 < cfg.maxSteps {
      RunEnds(w, cfg, run, depth, step + 1);
    }
  }

  lemma EveryRunEnds(w: World, cfg: Config, run: Path, depth: nat)
    requires depth <= cfg.maxDepth
    ensures RunTree(w, cfg, run, depth).status != Running <==> cfg.maxSteps >= 1
  {
    if cfg.maxSteps >= 0 {
      RunEnds(w, cfg, run, depth, 0);
    }
  }

  // ---- Which runs, read off the world ---------------------------------------------------

  // A run goes on after its steps before n.
  predicate GoesOn(w: World, run: Path, n: nat) {
    forall j: nat | j < n :: w.reply(run, j).Truncated? || w.reply(run, j).ToolUse?
  }

  // Within its steps, the first reply that is neither cut off nor calls tools
  // ends the turn.
  ghost predicate Succeeds(w: World, cfg: Config, run: Path) {
    exists n: nat :: n < cfg.maxSteps && GoesOn(w, run, n) && w.reply(run, n) == EndTurn
  }

  lemma {:induction false} StepsStatus(w: World, cfg: Config, run: Path, depth: nat, step: nat)
    requires depth <= cfg.maxDepth && GoesOn(w, run, step)
    ensures step < cfg.maxSteps ==> (Steps(w, cfg, run, depth, step).status == Success <==> Succeeds(w, cfg, run))
    ensures step < cfg.maxSteps ==> Steps(w, cfg, run, depth, step).status != Running
    decreases Remaining(cfg, step)
  {
    if step < cfg.maxSteps {
      if w.reply(run, step).Truncated? || w.reply(run, step).ToolUse? {
        assert GoesOn(w, run, step + 1);
        if step + 1 < cfg.maxSteps {
          StepsStatus(w, cfg, run, depth, step + 1);
        } else {
          assert forall n: nat | n < cfg.maxSteps :: w.reply(run, n) != EndTurn;
        }
      } else if Succeeds(w, cfg, run) {
        var n: nat :| n < cfg.maxSteps && GoesOn(w, run, n) && w.reply(run, n) == EndTurn;
        assert n == step;
      }
    }
  }

  // How every run ends.
  lemma StatusIs(w: World, cfg: Config, run: Path, depth: nat)
    requires depth <= cfg.maxDepth
    ensures RunTree(w, cfg, run, depth).status
         == if cfg.maxSteps <= 0 then Running else if Succeeds(w, cfg, run) then Success else Failed
  {
    StepsStatus(w, cfg, run, depth, 0);
  }

  // Tool call u of a run's step s is a spawn that its permission and the limits let through.
  predicate SpawnsAt(w: World, cfg: Config, run: Path, s: nat, u: nat) {
    && s < cfg.maxSteps && GoesOn(w, run, s) && |run| < 3 * cfg.maxDepth && w.offersSpawn(run)
    && w.reply(run, s).ToolUse? && u < |w.reply(run, s).uses|
    && w.reply(run, s).uses[u].Spawn? && w.reply(run, s).uses[u].permitted && w.reply(run, s).uses[u].complete
  }

  // Such a call starts its k-th child. Another one follows exactly an
  // uninterrupted foreground child that did not succeed, at most twice.
  ghost predicate StartsChild(w: World, cfg: Config, run: Path, s: nat, u: nat, k: nat) {
    && SpawnsAt(w, cfg, run, s, u) && 1 <= k <= 3
    && (k > 1 ==> !w.reply(run, s).uses[u].background)
    && forall j: nat | 1 <= j < k :: !w.interrupted(run + [s, u, j]) && !Succeeds(w, cfg, run + [s, u, j])
  }

  // From `run` down to p, each is a child the one before starts.
  ghost predicate StartedBelow(w: World, cfg: Config, run: Path, p: Path)
    decreases |p| - |run|
  {
    p == run || StartedBy(w, cfg, run, p)
  }

  ghost predicate StartedBy(w: World, cfg: Config, run: Path, p: Path)
    decreases |p| - |run|, 0
  {
    && |p| >= |run| + 3 && run == p[..|run|]
    && StartsChild(w, cfg, run, p[|run|], p[|run| + 1], p[|run| + 2])
    && StartedBelow(w, cfg, p[..|run| + 3], p)
  }

  lemma {:induction false} BelowIsPrefix(w: World, cfg: Config, run: Path, p: Path)
    requires StartedBelow(w, cfg, run, p)
    ensures |run| <= |p| && p[..|run|] == run
  {
  }

  // p was reached through child k of call u of step s.
  predicate Through(run: Path, p: Path, s: nat, u: nat, k: nat) {
    |p| >= |run| + 3 && p[..|run| + 3] == run + [s, u, k]
  }

  lemma ByIsThrough(w: World, cfg: Config, run: Path, p: Path, s: nat, u: nat, k: nat)
    requires StartsChild(w, cfg, run, s, u, k)
    ensures StartedBelow(w, cfg, run + [s, u, k], p) <==> StartedBy(w, cfg, run, p) && Through(run, p, s, u, k)
  {
    var child := run + [s, u, k];
    if StartedBelow(w, cfg, child, p) {
      BelowIsPrefix(w, cfg, child, p);
      assert p[..|run|] == child[..|run|] == run;
      assert p[|run|] == child[|run|] && p[|run| + 1] == child[|run| + 1] && p[|run| + 2] == child[|run| + 2];
    }
  }

  lemma ThroughNumbers(run: Path, p: Path, s: nat, u: nat, k: nat)
    requires |p| >= |run| + 3 && p[..|run|] == run
    ensures Through(run, p, s, u, k) <==> p[|run|] == s && p[|run| + 1] == u && p[|run| + 2] == k
  {
    assert p[..|run| + 3] == run + [p[|run|], p[|run| + 1], p[|run| + 2]];
    assert (run + [s, u, k])[|run|] == s && (run + [s, u, k])[|run| + 1] == u && (run + [s, u, k])[|run| + 2] == k;
  }

  // Which of the runs below are reached from this step, call or attempt on.
  ghost predicate FromStep(w: World, cfg: Config, run: Path, p: Path, step: nat) {
    StartedBy(w, cfg, run, p) && p[|run|] >= step
  }

  ghost predicate FromCall(w: World, cfg: Config, run: Path, p: Path, step: nat, u: nat) {
    StartedBy(w, cfg, run, p) && p[|run|] == step && p[|run| + 1] >= u
  }

  ghost predicate FromAttempt(w: World, cfg: Config, run: Path, p: Path, step: nat, u: nat, k: nat) {
    StartedBy(w, cfg, run, p) && p[|run|] == step && p[|run| + 1] == u && p[|run| + 2] >= k
  }

  lemma CallSplits(w: World, cfg: Config, run: Path, p: Path, step: nat, u: nat)
    ensures FromCall(w, cfg, run, p, step, u) <==> FromAttempt(w, cfg, run, p, step, u, 1) || FromCall(w, cfg, run, p, step, u + 1)
  {
  }

  lemma OnlySpawnsStart(w: World, cfg: Config, run: Path, depth: nat, p: Path, step: nat, u: nat)
    requires |run| == 3 * depth && w.reply(run, step).ToolUse? && u < |w.reply(run, step).uses|
    requires var use := w.reply(run, step).uses[u]; !(use.Spawn? && HasSpawn(w, cfg, run, depth) && use.permitted)
    ensures !FromAttempt(w, cfg, run, p, step, u, 1)
  {
  }

  lemma {:induction false} RunMember(w: World, cfg: Config, run: Path, depth: nat, p: Path)
    requires depth <= cfg.maxDepth && |run| == 3 * depth
    ensures p in RunTree(w, cfg, run, depth).runs <==> StartedBelow(w, cfg, run, p)
    decreases cfg.maxDepth - depth, Remaining(cfg, 0) + 1, 0, 0, 0
  {
    StepsMember(w, cfg, run, depth, 0, p);
  }

  lemma {:induction false} StepsMember(w: World, cfg: Config, run: Path, depth: nat, step: nat, p: Path)
    requires depth <= cfg.maxDepth && |run| == 3 * depth && GoesOn(w, run, step)
    ensures p in Steps(w, cfg, run, depth, step).runs <==> FromStep(w, cfg, run, p, step)
    decreases cfg.maxDepth - depth, Remaining(cfg, step), 1, 0, 0
  {
    if step < cfg.maxSteps {
      match w.reply(run, step) {
        case Truncated =>
          assert GoesOn(w, run, step + 1);
          StepsMember(w, cfg, run, depth, step + 1, p);
        case ToolUse(uses) =>
          assert GoesOn(w, run, step + 1);
          UsesMember(w, cfg, run, depth, step, uses, 0, p);
          StepsMember(w, cfg, run, depth, step + 1, p);
        case _ =>
      }
    }
  }

  lemma {:induction false} UsesMember(w: World, cfg: Config, run: Path, depth: nat, step: nat, uses: seq<Use>, u: nat, p: Path)
    requires depth <= cfg.maxDepth && |run| == 3 * depth && u <= |uses|
    requires step < cfg.maxSteps && GoesOn(w, run, step) && w.reply(run, step) == ToolUse(uses)
    ensures p in Uses(w, cfg, run, depth, step, uses, u) <==> FromCall(w, cfg, run, p, step, u)
    decreases cfg.maxDepth - depth, Remaining(cfg, step), 0, |uses| - u, ATTEMPTS + 1
  {
    if u < |uses| {
      CallSplits(w, cfg, run, p, step, u);
      UsesMember(w, cfg, run, depth, step, uses, u + 1, p);
      if uses[u].Spawn? && HasSpawn(w, cfg, run, depth) && uses[u].permitted {
        AttemptsMember(w, cfg, run, depth, step, uses, u, 1, p);
      } else {
        OnlySpawnsStart(w, cfg, run, depth, p, step, u);
      }
    }
  }

  lemma {:induction false} AttemptsMember(w: World, cfg: Config, run: Path, depth: nat, step: nat, uses: seq<Use>,
                                          u: nat, k: nat, p: Path)
    requires depth <= cfg.maxDepth && |run| == 3 * depth && u < |uses| && 1 <= k <= ATTEMPTS
    requires step < cfg.maxSteps && GoesOn(w, run, step) && w.reply(run, step) == ToolUse(uses)
    requires uses[u].Spawn? && HasSpawn(w, cfg, run, depth) && uses[u].permitted
    requires k > 1 ==> !uses[u].background
    requires forall j: nat | 1 <= j < k :: !w.interrupted(run + [step, u, j]) && !Succeeds(w, cfg, run + [step, u, j])
    ensures p in Attempts(w, cfg, run, depth, step, uses, u, k) <==> FromAttempt(w, cfg, run, p, step, u, k)
    decreases cfg.maxDepth - depth, Remaining(cfg, step), 0, |uses| - u, ATTEMPTS + 1 - k
  {
    var child := run + [step, u, k];
    if |p| >= |run| + 3 && p[..|run|] == run {
      ThroughNumbers(run, p, step, u, k);
    }
    if depth == cfg.maxDepth {
      NothingAtLimit(w, cfg, run, depth, step, uses, u, k);
    } else if uses[u].complete {
      RunMember(w, cfg, child, depth + 1, p);
      StatusIs(w, cfg, child, depth + 1);
      ByIsThrough(w, cfg, run, p, step, u, k);
      if k < ATTEMPTS && SpawnTree(w, cfg, depth, uses[u], child).status != Success && !w.interrupted(child) {
        AttemptsMember(w, cfg, run, depth, step, uses, u, k + 1, p);
      }
    }
  }

  lemma {:induction false} NothingAtLimit(w: World, cfg: Config, run: Path, depth: nat, step: nat, uses: seq<Use>, u: nat, k: nat)
    requires depth == cfg.maxDepth && u < |uses| && uses[u].Spawn? && 1 <= k <= ATTEMPTS
    ensures Attempts(w, cfg, run, depth, step, uses, u, k) == []
    decreases ATTEMPTS - k
  {
    if k < ATTEMPTS {
      NothingAtLimit(w, cfg, run, depth, step, uses, u, k + 1);
    }
  }

  // ---- No run is started twice ----------------------------------------------------------

  predicate Distinct(runs: seq<Path>) {
    forall i, j | 0 <= i < j < |runs| :: runs[i] != runs[j]
  }

  lemma DistinctAppend(a: seq<Path>, b: seq<Path>)
    requires Distinct(a) && Distinct(b) && forall p | p in a :: p !in b
    ensures Distinct(a + b)
  {
    forall i, j | 0 <= i < j < |a + b| ensures (a + b)[i] != (a + b)[j] {
      if i < |a| <= j {
        assert a[i] in a && b[j - |a|] in b;
      }
    }
  }

  lemma {:induction false} RunDistinct(w: World, cfg: Config, run: Path, depth: nat)
    requires depth <= cfg.maxDepth && |run| == 3 * depth
    ensures Distinct(RunTree(w, cfg, run, depth).runs)
    decreases cfg.maxDepth - depth, Remaining(cfg, 0) + 1, 0, 0, 0
  {
    StepsDistinct(w, cfg, run, depth, 0);
    StepsMember(w, cfg, run, depth, 0, run);
    DistinctAppend([run], Steps(w, cfg, run, depth, 0).runs);
  }

  lemma {:induction false} StepsDistinct(w: World, cfg: Config, run: Path, depth: nat, step: nat)
    requires depth <= cfg.maxDepth && |run| == 3 * depth && GoesOn(w, run, step)
    ensures Distinct(Steps(w, cfg, run, depth, step).runs)
    decreases cfg.maxDepth - depth, Remaining(cfg, step), 1, 0, 0
  {
    if step < cfg.maxSteps && (w.reply(run, step).Truncated? || w.reply(run, step).ToolUse?) {
      assert GoesOn(w, run, step + 1);
      StepsDistinct(w, cfg, run, depth, step + 1);
      if w.reply(run, step).ToolUse? {
        var uses := w.reply(run, step).uses;
        UsesDistinct(w, cfg, run, depth, step, uses, 0);
        forall p | p in Uses(w, cfg, run, depth, step, uses, 0)
          ensures p !in Steps(w, cfg, run, depth, step + 1).runs
        {
          UsesMember(w, cfg, run, depth, step, uses, 0, p);
          StepsMember(w, cfg, run, depth, step + 1, p);
        }
        DistinctAppend(Uses(w, cfg, run, depth, step, uses, 0), Steps(w, cfg, run, depth, step + 1).runs);
      }
    }
  }

  lemma {:induction false} UsesDistinct(w: World, cfg: Config, run: Path, depth: nat, step: nat, uses: seq<Use>, u: nat)
    requires depth <= cfg.maxDepth && |run| == 3 * depth && u <= |uses|
    requires step < cfg.maxSteps && GoesOn(w, run, step) && w.reply(run, step) == ToolUse(uses)
    ensures Distinct(Uses(w, cfg, run, depth, step, uses, u))
    decreases cfg.maxDepth - depth, Remaining(cfg, step), 0, |uses| - u, ATTEMPTS + 1
  {
    if u < |uses| {
      UsesDistinct(w, cfg, run, depth, step, uses, u + 1);
      if uses[u].Spawn? && HasSpawn(w, cfg, run, depth) && uses[u].permitted {
        AttemptsDistinct(w, cfg, run, depth, step, uses, u, 1);
        forall p | p in Attempts(w, cfg, run, depth, step, uses, u, 1)
          ensures p !in Uses(w, cfg, run, depth, step, uses, u + 1)
        {
          AttemptsMember(w, cfg, run, depth, step, uses, u, 1, p);
          UsesMember(w, cfg, run, depth, step, uses, u + 1, p);
        }
        DistinctAppend(Attempts(w, cfg, run, depth, step, uses, u, 1), Uses(w, cfg, run, depth, step, uses, u + 1));
      }
    }
  }

  lemma {:induction false} AttemptsDistinct(w: World, cfg: Config, run: Path, depth: nat, step: nat, uses: seq<Use>,
                                            u: nat, k: nat)
    requires depth <= cfg.maxDepth && |run| == 3 * depth && u < |uses| && 1 <= k <= ATTEMPTS
    requires step < cfg.maxSteps && GoesOn(w, run, step) && w.reply(run, step) == ToolUse(uses)
    requires uses[u].Spawn? && HasSpawn(w, cfg, run, depth) && uses[u].permitted
    requires k > 1 ==> !uses[u].background
    requires forall j: nat | 1 <= j < k :: !w.interrupted(run + [step, u, j]) && !Succeeds(w, cfg, run + [step, u, j])
    ensures Distinct(Attempts(w, cfg, run, depth, step, uses, u, k))
    decreases cfg.maxDepth - depth, Remaining(cfg, step), 0, |uses| - u, ATTEMPTS + 1 - k
  {
    var child := run + [step, u, k];
    if depth == cfg.maxDepth {
      NothingAtLimit(w, cfg, run, depth, step, uses, u, k);
    } else if uses[u].complete {
      RunDistinct(w, cfg, child, depth + 1);
      StatusIs(w, cfg, child, depth + 1);
      if k < ATTEMPTS && SpawnTree(w, cfg, depth, uses[u], child).status != Success && !w.interrupted(child) {
        AttemptsDistinct(w, cfg, run, depth, step, uses, u, k + 1);
        var below := RunTree(w, cfg, child, depth + 1).runs;
        forall p | p in below
          ensures p !in Attempts(w, cfg, run, depth, step, uses, u, k + 1)
        {
          RunMember(w, cfg, child, depth + 1, p);
          BelowIsPrefix(w, cfg, child, p);
          assert p[|run| + 2] == child[|run| + 2] == k;
          AttemptsMember(w, cfg, run, depth, step, uses, u, k + 1, p);
        }
        DistinctAppend(below, Attempts(w, cfg, run, depth, step, uses, u, k + 1));
      }
    }
  }

  // Main result on what is started: exactly the runs that can be reached from the
  // root child by child, each once.
  lemma RunsAreStarted(w: World, cfg: Config)
    ensures forall p :: p in RunTree(w, cfg, [], 0).runs <==> StartedBelow(w, cfg, [], p)
    ensures Distinct(RunTree(w, cfg, [], 0).runs)
  {
    RunDistinct(w, cfg, [], 0);
    forall p ensures p in RunTree(w, cfg, [], 0).runs <==> StartedBelow(w, cfg, [], p) {
      RunMember(w, cfg, [], 0, p);
    }
  }

  // A call's first child, and what its next one says about the one before.
  lemma CallStartsChildren(w: World, cfg: Config, run: Path, s: nat, u: nat, k: nat)
    requires run in RunTree(w, cfg, [], 0).runs && SpawnsAt(w, cfg, run, s, u) && 1 <= k <= 2
    ensures var runs := RunTree(w, cfg, [], 0).runs;
      && run + [s, u, 1] in runs
      && (run + [s, u, k + 1] in runs <==>
            && run + [s, u, k] in runs && !w.reply(run, s).uses[u].background
            && !w.interrupted(run + [s, u, k]) && !Succeeds(w, cfg, run + [s, u, k]))
      && run + [s, u, 4] !in runs
  {
    RunsAreStarted(w, cfg);
    ChildIsStarted(w, cfg, [], run, s, u, 1);
    ChildIsStarted(w, cfg, [], run, s, u, k);
    ChildIsStarted(w, cfg, [], run, s, u, k + 1);
    ChildIsStarted(w, cfg, [], run, s, u, 4);
  }

  lemma {:induction false} ChildIsStarted(w: World, cfg: Config, root: Path, run: Path, s: nat, u: nat, k: nat)
    requires StartedBelow(w, cfg, root, run)
    ensures StartedBelow(w, cfg, root, run + [s, u, k]) <==> StartsChild(w, cfg, run, s, u, k)
    decreases |run| - |root|
  {
    var p := run + [s, u, k];
    BelowIsPrefix(w, cfg, root, run);
    assert p[..|root|] == run[..|root|] == root;
    if root == run {
      assert p[..|root| + 3] == p && p[|root|] == s && p[|root| + 1] == u && p[|root| + 2] == k;
      assert StartedBelow(w, cfg, p, p);
    } else {
      assert p[..|root| + 3] == run[..|root| + 3];
      ChildIsStarted(w, cfg, run[..|root| + 3], run, s, u, k);
    }
  }

  // ---- How many runs ------------------------------------------------------------------

  function Pow(b: nat, n: nat): nat {
    if n == 0 then 1 else b * Pow(b, n - 1)
  }

  // 1 + b + ... + b^n
  function PowerSum(b: nat, n: nat): nat {
    if n == 0 then 1 else PowerSum(b, n - 1) + Pow(b, n)
  }

  // The same sum, as the tree builds it: a root and b subtrees.
  function TreeSize(b: nat, n: nat): nat {
    if n == 0 then 1 else 1 + b * TreeSize(b, n - 1)
  }

  lemma {:induction false} TreeSizeIsPowerSum(b: nat, n: nat)
    ensures TreeSize(b, n) == PowerSum(b, n)
  {
    if n > 0 {
      TreeSizeIsPowerSum(b, n - 1);
      PowerSumShifts(b, n - 1);
    }
  }

  lemma {:induction false} PowerSumShifts(b: nat, n: nat)
    ensures 1 + b * PowerSum(b, n) == PowerSum(b, n + 1)
  {
    if n == 0 {
      assert Pow(b, 1) == b * Pow(b, 0) == b;
    } else {
      PowerSumShifts(b, n - 1);
      assert b * (PowerSum(b, n - 1) + Pow(b, n)) == b * PowerSum(b, n - 1) + b * Pow(b, n);
    }
  }

  // No reply calls more than maxUses tools.
  ghost predicate AtMost(w: World, maxUses: nat) {
    forall run: Path, step: nat :: w.reply(run, step).ToolUse? ==> |w.reply(run, step).uses| <= maxUses
  }

  function Branching(cfg: Config, maxUses: nat): nat {
    if cfg.maxSteps <= 0 then 0 else ATTEMPTS * maxUses * cfg.maxSteps
  }

  // Bound on what one attempt at this depth starts.
  function ChildSize(cfg: Config, maxUses: nat, depth: nat): nat
    requires depth <= cfg.maxDepth
  {
    if depth == cfg.maxDepth then 0 else TreeSize(Branching(cfg, maxUses), cfg.maxDepth - depth - 1)
  }

  lemma {:induction false} RunCount(w: World, cfg: Config, run: Path, depth: nat, maxUses: nat)
    requires depth <= cfg.maxDepth && AtMost(w, maxUses)
    ensures |RunTree(w, cfg, run, depth).runs| <= TreeSize(Branching(cfg, maxUses), cfg.maxDepth - depth)
    decreases cfg.maxDepth - depth, Remaining(cfg, 0) + 1, 0, 0, 0
  {
    StepsCount(w, cfg, run, depth, 0, maxUses);
    if cfg.maxSteps > 0 {
      Regroup(cfg.maxSteps, maxUses, ChildSize(cfg, maxUses, depth));
    }
  }

  lemma Regroup(steps: nat, maxUses: nat, size: nat)
    ensures steps * (maxUses * (ATTEMPTS * size)) == (ATTEMPTS * maxUses * steps) * size
  {
    assert maxUses * (ATTEMPTS * size) == (ATTEMPTS * maxUses) * size;
    assert steps * ((ATTEMPTS * maxUses) * size) == ((ATTEMPTS * maxUses) * steps) * size;
  }

  lemma {:induction false} StepsCount(w: World, cfg: Config, run: Path, depth: nat, step: nat, maxUses: nat)
    requires depth <= cfg.maxDepth && AtMost(w, maxUses)
    ensures |Steps(w, cfg, run, depth, step).runs|
         <= Remaining(cfg, step) * (maxUses * (ATTEMPTS * ChildSize(cfg, maxUses, depth)))
    decreases cfg.maxDepth - depth, Remaining(cfg, step), 1, 0, 0
  {
    var each := maxUses * (ATTEMPTS * ChildSize(cfg, maxUses, depth));
    if step < cfg.maxSteps {
      var rest := Remaining(cfg, step + 1);
      OneMore(rest, each);
      match w.reply(run, step) {
        case Truncated => StepsCount(w, cfg, run, depth, step + 1, maxUses);
        case ToolUse(uses) =>
          UsesCount(w, cfg, run, depth, step, uses, 0, maxUses);
          Monotone(|uses|, maxUses, ATTEMPTS * ChildSize(cfg, maxUses, depth));
          StepsCount(w, cfg, run, depth, step + 1, maxUses);
        case _ =>
      }
    }
  }

  lemma OneMore(a: nat, b: nat)
    ensures (a + 1) * b == a * b + b
  {
  }

  lemma Monotone(a: nat, b: nat, c: nat)
    requires a <= b
    ensures a * c <= b * c
  {
    assert b * c == a * c + (b - a) * c;
  }

  lemma {:induction false} UsesCount(w: World, cfg: Config, run: Path, depth: nat, step: nat, uses: seq<Use>, u: nat,
                                     maxUses: nat)
    requires depth <= cfg.maxDepth && u <= |uses| && AtMost(w, maxUses)
    ensures |Uses(w, cfg, run, depth, step, uses, u)|
         <= (|uses| - u) * (ATTEMPTS * ChildSize(cfg, maxUses, depth))
    decreases cfg.maxDepth - depth, Remaining(cfg, step), 0, |uses| - u, ATTEMPTS + 1
  {
    if u < |uses| {
      var each := ATTEMPTS * ChildSize(cfg, maxUses, depth);
      OneMore(|uses| - (u + 1), each);
      if uses[u].Spawn? {
        AttemptsCount(w, cfg, run, depth, step, uses, u, 1, maxUses);
      }
      UsesCount(w, cfg, run, depth, step, uses, u + 1, maxUses);
    }
  }

  lemma {:induction false} AttemptsCount(w: World, cfg: Config, run: Path, depth: nat, step: nat, uses: seq<Use>,
                                         u: nat, k: nat, maxUses: nat)
    requires depth <= cfg.maxDepth && u < |uses| && uses[u].Spawn? && 1 <= k <= ATTEMPTS && AtMost(w, maxUses)
    ensures |Attempts(w, cfg, run, depth, step, uses, u, k)|
         <= (ATTEMPTS + 1 - k) * ChildSize(cfg, maxUses, depth)
    decreases cfg.maxDepth - depth, Remaining(cfg, step), 0, |uses| - u, ATTEMPTS + 1 - k
  {
    if depth < cfg.maxDepth {
      RunCount(w, cfg, run + [step, u, k], depth + 1, maxUses);
    }
    if k < ATTEMPTS {
      AttemptsCount(w, cfg, run, depth, step, uses, u, k + 1, maxUses);
    }
  }

  // Main result: whatever the model replies, the whole tree under a root run is
  // finite, never deeper than the limit, and no larger than the power sum.
  lemma RunTreeIsBounded(w: World, cfg: Config, maxUses: nat)
    requires AtMost(w, maxUses)
    ensures DepthsWithin(RunTree(w, cfg, [], 0).runs, 0, cfg.maxDepth)
    ensures |RunTree(w, cfg, [], 0).runs| <= PowerSum(Branching(cfg, maxUses), cfg.maxDepth)
    ensures cfg.maxSteps >= 1 ==> RunTree(w, cfg, [], 0).status != Running
  {
    RunDepths(w, cfg, [], 0);
    RunCount(w, cfg, [], 0, maxUses);
    TreeSizeIsPowerSum(Branching(cfg, maxUses), cfg.maxDepth);
    EveryRunEnds(w, cfg, [], 0);
  }

  // ---- The bound is attained ----------------------------------------------------------

  function Spawns(k: nat): seq<Use> {
    seq(k, _ => Spawn(true, true, false))
  }

  // Every reply of every run spawns k foreground children, all permitted, and
  // nothing is interrupted; so every run fails at its step limit and is retried.
  ghost predicate Busy(w: World, k: nat) {
    && (forall run: Path, step: nat :: w.reply(run, step) == ToolUse(Spawns(k)))
    && (forall run: Path :: !w.interrupted(run) && w.offersSpawn(run))
  }

  lemma {:induction false} RunIsFull(w: World, cfg: Config, run: Path, depth: nat, k: nat)
    requires depth <= cfg.maxDepth && Busy(w, k)
    ensures |RunTree(w, cfg, run, depth).runs| == TreeSize(Branching(cfg, k), cfg.maxDepth - depth)
    ensures RunTree(w, cfg, run, depth).status != Success
    decreases cfg.maxDepth - depth, Remaining(cfg, 0) + 1, 0, 0, 0
  {
    StepsAreFull(w, cfg, run, depth, 0, k);
    if cfg.maxSteps > 0 {
      Regroup(cfg.maxSteps, k, ChildSize(cfg, k, depth));
    }
  }

  lemma {:induction false} StepsAreFull(w: World, cfg: Config, run: Path, depth: nat, step: nat, k: nat)
    requires depth <= cfg.maxDepth && Busy(w, k)
    ensures |Steps(w, cfg, run, depth, step).runs| == Remaining(cfg, step) * (k * (ATTEMPTS * ChildSize(cfg, k, depth)))
    ensures Steps(w, cfg, run, depth, step).status != Success
    decreases cfg.maxDepth - depth, Remaining(cfg, step), 1, 0, 0
  {
    if step < cfg.maxSteps {
      UsesAreFull(w, cfg, run, depth, step, 0, k);
      OneMore(Remaining(cfg, step + 1), k * (ATTEMPTS * ChildSize(cfg, k, depth)));
      StepsAreFull(w, cfg, run, depth, step + 1, k);
    }
  }

  lemma {:induction false} UsesAreFull(w: World, cfg: Config, run: Path, depth: nat, step: nat, u: nat, k: nat)
    requires depth <= cfg.maxDepth && Busy(w, k) && u <= k
    ensures |Uses(w, cfg, run, depth, step, Spawns(k), u)| == (k - u) * (ATTEMPTS * ChildSize(cfg, k, depth))
    decreases cfg.maxDepth - depth, Remaining(cfg, step), 0, k - u, ATTEMPTS + 1
  {
    if u < k {
      OneMore(k - (u + 1), ATTEMPTS * ChildSize(cfg, k, depth));
      AttemptsAreFull(w, cfg, run, depth, step, u, 1, k);
      UsesAreFull(w, cfg, run, depth, step, u + 1, k);
    }
  }

  lemma {:induction false} AttemptsAreFull(w: World, cfg: Config, run: Path, depth: nat, step: nat, u: nat, n: nat, k: nat)
    requires depth <= cfg.maxDepth && Busy(w, k) && u < k && 1 <= n <= ATTEMPTS
    ensures |Attempts(w, cfg, run, depth, step, Spawns(k), u, n)| == (ATTEMPTS + 1 - n) * ChildSize(cfg, k, depth)
    decreases cfg.maxDepth - depth, Remaining(cfg, step), 0, k - u, ATTEMPTS + 1 - n
  {
    if depth < cfg.maxDepth {
      RunIsFull(w, cfg, run + [step, u, n], depth + 1, k);
    }
    if n < ATTEMPTS {
      AttemptsAreFull(w, cfg, run, depth, step, u, n + 1, k);
    }
  }

  // The bound cannot be lowered, for any limits and any number of calls a reply.
  lemma {:induction false} BoundIsAttained(w: World, cfg: Config, k: nat)
    requires Busy(w, k)
    ensures AtMost(w, k)
    ensures |RunTree(w, cfg, [], 0).runs| == PowerSum(Branching(cfg, k), cfg.maxDepth)
  {
    RunIsFull(w, cfg, [], 0, k);
    TreeSizeIsPowerSum(Branching(cfg, k), cfg.maxDepth);
  }

  // The retry factor is real: a foreground child that keeps failing is run three
  // times for a single tool call.
  lemma FailingChildRunsThrice(w: World, cfg: Config)
    requires cfg.maxDepth == 1 && cfg.maxSteps == 1
    requires w.reply([], 0) == ToolUse([Spawn(true, true, false)]) && w.offersSpawn([])
    requires forall k: nat | 1 <= k <= ATTEMPTS ::
      w.reply([] + [0, 0, k], 0) == CallFailed && !w.interrupted([] + [0, 0, k])
    ensures RunTree(w, cfg, [], 0).runs == [[], [0, 0, 1], [0, 0, 2], [0, 0, 3]]
  {
    var uses := [Spawn(true, true, false)];
    forall k: nat | 1 <= k <= ATTEMPTS
      ensures RunTree(w, cfg, [] + [0, 0, k], 1) == Tree(Failed, [[] + [0, 0, k]])
    {
      assert Steps(w, cfg, [] + [0, 0, k], 1, 0) == Tree(Failed, []);
    }
    assert forall k: nat :: [] + [0, 0, k] == [0, 0, k];
    assert Attempts(w, cfg, [], 0, 0, uses, 0, 3) == [[0, 0, 3]];
    assert Attempts(w, cfg, [], 0, 0, uses, 0, 2) == [[0, 0, 2], [0, 0, 3]];
    assert Attempts(w, cfg, [], 0, 0, uses, 0, 1) == [[0, 0, 1], [0, 0, 2], [0, 0, 3]];
    assert Uses(w, cfg, [], 0, 0, uses, 1) == [];
    assert Uses(w, cfg, [], 0, 0, uses, 0) == [[0, 0, 1], [0, 0, 2], [0, 0, 3]];
  }

  // ---- The mutually recursive procedures -------------------------------------------------

  class Agents {
    const w: World
    const cfg: Config
    var started: seq<Path>     // every run started so far

    constructor (w: World, cfg: Config)
      ensures this.w == w && this.cfg == cfg && started == []
    {
      this.w, this.cfg, started := w, cfg, [];
    }

    // AgentLoop.Run
    method Run(run: Path, depth: nat) returns (status: Status)
      requires depth <= cfg.maxDepth
      modifies this
      ensures status == RunTree(w, cfg, run, depth).status
      ensures started == old(started) + RunTree(w, cfg, run, depth).runs
      decreases cfg.maxDepth - depth, Remaining(cfg, 0) + 1, 0, 0, 0
    {
      started := started + [run];
      status := Running;
      var step := 0;
      while status == Running && step < cfg.maxSteps
        invariant step <= cfg.maxSteps || step == 0
        invariant status == Running ==>
          && Steps(w, cfg, run, depth, step).status == Steps(w, cfg, run, depth, 0).status
          && started + Steps(w, cfg, run, depth, step).runs
               == old(started) + [run] + Steps(w, cfg, run, depth, 0).runs
          && (step > 0 ==> step < cfg.maxSteps)
        invariant status != Running ==>
          && status == Steps(w, cfg, run, depth, 0).status
          && started == old(started) + [run] + Steps(w, cfg, run, depth, 0).runs
        decreases cfg.maxSteps - step
      {
        ghost var before := started;
        match w.reply(run, step) {
          case CallFailed => status := Failed;
          case EndTurn => status := Success;
          case Truncated =>
            if step + 1 >= cfg.maxSteps {
              status := Failed;
            }
          case ToolUse(uses) =>
            Act(run, depth, step, uses);
            if step + 1 >= cfg.maxSteps {
              status := Failed;
            } else {
              Assoc(before, Uses(w, cfg, run, depth, step, uses, 0), Steps(w, cfg, run, depth, step + 1).runs);
            }
        }
        step := step + 1;
      }
      Assoc(old(started), [run], Steps(w, cfg, run, depth, 0).runs);
    }

    // The tool calls of one reply; they run in parallel, and what they start is
    // counted in call order.
    method Act(run: Path, depth: nat, step: nat, uses: seq<Use>)
      requires depth <= cfg.maxDepth && step < cfg.maxSteps
      modifies this
      ensures started == old(started) + Uses(w, cfg, run, depth, step, uses, 0)
      decreases cfg.maxDepth - depth, Remaining(cfg, step), 1, 0, 0
    {
      var u := 0;
      while u < |uses|
        invariant 0 <= u <= |uses|
        invariant started + Uses(w, cfg, run, depth, step, uses, u)
               == old(started) + Uses(w, cfg, run, depth, step, uses, 0)
      {
        ghost var before := started;
        if uses[u].Spawn? && HasSpawn(w, cfg, run, depth) && uses[u].permitted {
          InvokeSpawn(run, depth, step, uses, u);
          Assoc(before, Attempts(w, cfg, run, depth, step, uses, u, 1), Uses(w, cfg, run, depth, step, uses, u + 1));
        }
        u := u + 1;
      }
    }

    // The invoker's attempt loop around spawn_agent.
    method InvokeSpawn(run: Path, depth: nat, step: nat, uses: seq<Use>, u: nat)
      requires depth <= cfg.maxDepth && step < cfg.maxSteps && u < |uses| && uses[u].Spawn?
      modifies this
      ensures started == old(started) + Attempts(w, cfg, run, depth, step, uses, u, 1)
      decreases cfg.maxDepth - depth, Remaining(cfg, step), 0, |uses| - u, ATTEMPTS + 1
    {
      var k := 1;
      var more := true;
      while more
        invariant 1 <= k <= ATTEMPTS || !more
        invariant more ==>
          started + Attempts(w, cfg, run, depth, step, uses, u, k)
          == old(started) + Attempts(w, cfg, run, depth, step, uses, u, 1)
        invariant !more ==> started == old(started) + Attempts(w, cfg, run, depth, step, uses, u, 1)
        decreases more, ATTEMPTS + 1 - k
      {
        ghost var before := started;
        var child := run + [step, u, k];
        var status := SpawnBody(depth, uses[u], child);
        more := status != Success && uses[u].complete && !w.interrupted(child) && k < ATTEMPTS;
        if more {
          Assoc(before, SpawnTree(w, cfg, depth, uses[u], child).runs, Attempts(w, cfg, run, depth, step, uses, u, k + 1));
        }
        k := k + 1;
      }
    }

    // SpawnAgentTool.Invoke
    method SpawnBody(depth: nat, use: Use, child: Path) returns (status: Status)
      requires depth <= cfg.maxDepth && use.Spawn?
      modifies this
      ensures status == SpawnTree(w, cfg, depth, use, child).status
      ensures started == old(started) + SpawnTree(w, cfg, depth, use, child).runs
      decreases cfg.maxDepth - depth, 0, 0, 0, 0
    {
      if !use.complete {
        return Failed;
      }
      if depth >= cfg.maxDepth {
        return Failed;
      }
      status := Run(child, depth + 1);
      if use.background {
        status := Success;
      }
    }
  }
}
