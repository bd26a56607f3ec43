/**
 * `LockCheck.run`: an ordered list of stages run against one mutable
 * context.  Stages run in list order; the first one that throws is logged
 * and ends the run, and a stage whose promise never settles ends it too,
 * silently.  File access, the lock file import and curl are given by an
 * environment value.
 */
module Pipeline {
  import opened Wrappers
  import opened Lockfile
  import Download

  /** `path.resolve(dir, file)` for an absolute, normalised `dir` and a plain file name. */
  function ResolvePath(dir: string, file: string): (path: string)
    ensures |path| > |file| && path[|path| - |file|..] == file && path[|path| - |file| - 1] == '/'
    ensures |dir| > 0 && dir[|dir| - 1] == '/' ==> path[..|path| - |file|] == dir
    ensures !(|dir| > 0 && dir[|dir| - 1] == '/') ==> path[..|path| - |file| - 1] == dir
  {
    if |dir| > 0 && dir[|dir| - 1] == '/' then dir + file else dir + "/" + file
  }

  const LockfileName: string := "package-lock.json"

  /** What the run's I/O would answer. */
  datatype Env = Env(
    readable: set<string>,                  // paths for which `fs.access(path, R_OK)` succeeds
    lockfiles: map<string, PackageLock>,    // paths that `import` loads, with what it parses
    registry: string,                       // `--registry`
    username: string,                       // the prompted Artifactory user name
    password: string,                       // the prompted Artifactory password
    curlSucceeds: set<seq<string>>)         // curl argument lists for which curl exits zero

  /** The value of a `Context`. */
  datatype Snapshot = Snapshot(projectPath: string, packageLockPath: string)

  /** The run's shared, mutable `Context`. */
  class Context {
    var projectPath: string
    var packageLockPath: string

    /** `{ projectPath, packageLockPath: "" }`. */
    constructor (projectPath: string)
      ensures this.projectPath == projectPath && packageLockPath == ""
    {
      this.projectPath := projectPath;
      packageLockPath := "";
    }

    function Value(): (s: Snapshot)
      reads this
    {
      Snapshot(projectPath, packageLockPath)
    }
  }

  /** The two entries of the `tasks` list. */
  datatype Stage = LocateLockfile | DownloadPackages

  const Tasks: seq<Stage> := [LocateLockfile, DownloadPackages]

  /** The error a stage throws: `fsa` rejects with the access error for `path`. */
  datatype StageError = AccessDenied(path: string)

  /** How the promise a stage returns settles. */
  datatype StageOutcome = Resolved | Rejected(error: StageError) | Pending

  /** How the run ends: every stage resolved, stage `index` threw, or stage `index` never settled. */
  datatype RunResult = Completed | Aborted(index: nat, error: StageError) | Stalled(index: nat)

  /** The stages whose task was invoked (by index), the final context, and how the run ended. */
  datatype Trace = Trace(ran: seq<nat>, final: Snapshot, result: RunResult)

  /**
   * The effect of one stage on the context and how its promise settles.
   * The download stage's promise settles only through the queue's drain
   * callback; when the import or `Object.keys` throws inside its async
   * executor, that callback is never registered and the promise stays pending.
   */
  function StageEffect(stage: Stage, c: Snapshot, env: Env): (effect: (Snapshot, StageOutcome)) {
    match stage
    case LocateLockfile =>
      var filePath := ResolvePath(c.projectPath, LockfileName);
      if filePath in env.readable then (c.(packageLockPath := filePath), Resolved)
      else (c, Rejected(AccessDenied(filePath)))
    case DownloadPackages =>
      if c.packageLockPath in env.lockfiles && env.lockfiles[c.packageLockPath].dependencies.Some?
      then (c, Resolved)
      else (c, Pending)
  }

  /** The locate stage sets `packageLockPath` to the resolved lock file path exactly when it is readable. */
  lemma LocateWritesOnlyOnSuccess(c: Snapshot, env: Env)
    ensures var (c', o) := StageEffect(LocateLockfile, c, env);
      var filePath := ResolvePath(c.projectPath, LockfileName);
      c'.projectPath == c.projectPath &&
      (o == Resolved <==> filePath in env.readable) &&
      (o == Resolved ==> c'.packageLockPath == filePath) &&
      (o != Resolved ==> o == Rejected(AccessDenied(filePath)) && c' == c)
  {
  }

  /** The download stage never changes the context, and never throws. */
  lemma DownloadKeepsContext(c: Snapshot, env: Env)
    ensures StageEffect(DownloadPackages, c, env).0 == c
    ensures !StageEffect(DownloadPackages, c, env).1.Rejected?
  {
  }

  function Prepend(ran: seq<nat>, t: Trace): (t': Trace) {
    Trace(ran + t.ran, t.final, t.result)
  }

  /** The run of `stages[from..]` from context `c`: the loop over `tasks` with its `break`. */
  function RunFrom(stages: seq<Stage>, from: nat, c: Snapshot, env: Env): (t: Trace)
    decreases |stages| - from
  {
    if from >= |stages| then Trace([], c, Completed)
    else
      var (c', outcome) := StageEffect(stages[from], c, env);
      match outcome
      case Resolved => Prepend([from], RunFrom(stages, from + 1, c', env))
      case Rejected(e) => Trace([from], c', Aborted(from, e))
      case Pending => Trace([from], c', Stalled(from))
  }

  /**
   * Stages run in list order, each at most once; a run that completes ran
   * every stage, and a run that ends early ends at the last stage it ran.
   */
  lemma {:induction false} RunInOrder(stages: seq<Stage>, from: nat, c: Snapshot, env: Env)
    requires from <= |stages|
    ensures var t := RunFrom(stages, from, c, env);
      from + |t.ran| <= |stages| &&
      (forall j :: 0 <= j < |t.ran| ==> t.ran[j] == from + j) &&
      (t.result.Completed? ==> from + |t.ran| == |stages|) &&
      (!t.result.Completed? ==> |t.ran| > 0 && t.result.index == from + |t.ran| - 1)
    decreases |stages| - from
  {
    if from < |stages| {
      var (c', outcome) := StageEffect(stages[from], c, env);
      if outcome == Resolved {
        RunInOrder(stages, from + 1, c', env);
      }
    }
  }

  /**
   * After a stage throws or stalls, no later stage matters: appending
   * stages to the list changes nothing about the run.
   */
  lemma {:induction false} LaterStagesNeverRun(stages: seq<Stage>, more: seq<Stage>, from: nat, c: Snapshot, env: Env)
    requires from <= |stages|
    requires !RunFrom(stages, from, c, env).result.Completed?
    ensures RunFrom(stages + more, from, c, env) == RunFrom(stages, from, c, env)
    decreases |stages| - from
  {
    assert (stages + more)[from] == stages[from];
    var (c', outcome) := StageEffect(stages[from], c, env);
    if outcome == Resolved {
      LaterStagesNeverRun(stages, more, from + 1, c', env);
    }
  }

  /** A run that completes hands its final context to the stages after it. */
  lemma {:induction false} CompletedRunContinues(stages: seq<Stage>, more: seq<Stage>, from: nat, c: Snapshot, env: Env)
    requires from <= |stages|
    requires RunFrom(stages, from, c, env).result.Completed?
    ensures var t := RunFrom(stages, from, c, env);
      RunFrom(stages + more, from, c, env) == Prepend(t.ran, RunFrom(stages + more, |stages|, t.final, env))
    decreases |stages| - from
  {
    if from < |stages| {
      assert (stages + more)[from] == stages[from];
      var (c', outcome) := StageEffect(stages[from], c, env);
      CompletedRunContinues(stages, more, from + 1, c', env);
      var t' := RunFrom(stages, from + 1, c', env);
      var rest := RunFrom(stages + more, |stages|, t'.final, env);
      assert [from] + (t'.ran + rest.ran) == ([from] + t'.ran) + rest.ran;
    }
  }

  /**
   * A run whose stages before `k` all resolved, and whose stage `k` throws,
   * ends at stage `k` with the error it threw: that stage's error is logged
   * and no later stage runs.
   */
  lemma FirstRejectionEndsRun(stages: seq<Stage>, from: nat, k: nat, c: Snapshot, env: Env, e: StageError)
    requires from <= k < |stages|
    requires RunFrom(stages[..k], from, c, env).result.Completed?
    requires StageEffect(stages[k], RunFrom(stages[..k], from, c, env).final, env).1 == Rejected(e)
    ensures var t := RunFrom(stages, from, c, env);
      t.result == Aborted(k, e) && t.ran == RunFrom(stages[..k], from, c, env).ran + [k] &&
      t.final == StageEffect(stages[k], RunFrom(stages[..k], from, c, env).final, env).0
  {
    assert stages == stages[..k] + stages[k..];
    CompletedRunContinues(stages[..k], stages[k..], from, c, env);
  }

  /**
   * A run whose stages before `k` all resolved, and whose stage `k` never
   * settles, stops at stage `k`: no later stage runs.
   */
  lemma FirstPendingStallsRun(stages: seq<Stage>, from: nat, k: nat, c: Snapshot, env: Env)
    requires from <= k < |stages|
    requires RunFrom(stages[..k], from, c, env).result.Completed?
    requires StageEffect(stages[k], RunFrom(stages[..k], from, c, env).final, env).1 == Pending
    ensures var t := RunFrom(stages, from, c, env);
      t.result == Stalled(k) && t.ran == RunFrom(stages[..k], from, c, env).ran + [k] &&
      t.final == StageEffect(stages[k], RunFrom(stages[..k], from, c, env).final, env).0
  {
    assert stages == stages[..k] + stages[k..];
    CompletedRunContinues(stages[..k], stages[k..], from, c, env);
  }

  /**
   * When each stage before `k` resolves on the context the earlier stages
   * left it, the run of `stages[..k]` completes and invokes each of those
   * stages once, in order.
   */
  lemma {:induction false} ResolvedPrefixCompletes(stages: seq<Stage>, from: nat, k: nat, c: Snapshot, env: Env)
    requires from <= k <= |stages|
    requires forall j :: from <= j < |stages| && RunFrom(stages[..j], from, c, env).result.Completed? ==>
      StageEffect(stages[j], RunFrom(stages[..j], from, c, env).final, env).1 == Resolved
    ensures var t := RunFrom(stages[..k], from, c, env);
      t.result == Completed && t.ran == seq(k - from, i requires 0 <= i < k - from => from + i)
    decreases k
  {
    if k > from {
      ResolvedPrefixCompletes(stages, from, k - 1, c, env);
      var front := stages[..k - 1];
      var t := RunFrom(front, from, c, env);
      assert front + [stages[k - 1]] == stages[..k];
      CompletedRunContinues(front, [stages[k - 1]], from, c, env);
      assert StageEffect(stages[k - 1], t.final, env).1 == Resolved;
      assert stages[..k][k - 1] == stages[k - 1];
    }
  }

  /**
   * When no stage throws or stalls on the context it is given, the run
   * completes and every stage is invoked exactly once, in list order.
   */
  lemma AllResolvedCompletes(stages: seq<Stage>, from: nat, c: Snapshot, env: Env)
    requires from <= |stages|
    requires forall j :: from <= j < |stages| && RunFrom(stages[..j], from, c, env).result.Completed? ==>
      StageEffect(stages[j], RunFrom(stages[..j], from, c, env).final, env).1 == Resolved
    ensures var t := RunFrom(stages, from, c, env);
      t.result == Completed && t.ran == seq(|stages| - from, i requires 0 <= i < |stages| - from => from + i)
  {
    ResolvedPrefixCompletes(stages, from, |stages|, c, env);
    assert stages[..|stages|] == stages;
  }

  /** The two-stage list meets that hypothesis when the lock file is readable and imports with `dependencies`. */
  lemma TasksResolve(c: Snapshot, env: Env)
    requires ResolvePath(c.projectPath, LockfileName) in env.readable
    requires ResolvePath(c.projectPath, LockfileName) in env.lockfiles
    requires env.lockfiles[ResolvePath(c.projectPath, LockfileName)].dependencies.Some?
    ensures forall j :: 0 <= j < |Tasks| && RunFrom(Tasks[..j], 0, c, env).result.Completed? ==>
      StageEffect(Tasks[j], RunFrom(Tasks[..j], 0, c, env).final, env).1 == Resolved
    ensures RunFrom(Tasks, 0, c, env).result == Completed
  {
    assert Tasks[..0] == [];
    assert Tasks[..1] == [LocateLockfile];
    AllResolvedCompletes(Tasks, 0, c, env);
  }

  /** Runs one stage's task against `ctx`. */
  method RunStage(ctx: Context, stage: Stage, env: Env) returns (outcome: StageOutcome)
    modifies ctx
    ensures (ctx.Value(), outcome) == StageEffect(stage, old(ctx.Value()), env)
  {
    match stage
    case LocateLockfile =>
      var filePath := ResolvePath(ctx.projectPath, LockfileName);
      if filePath in env.readable {
        ctx.packageLockPath := filePath;
        outcome := Resolved;
      } else {
        outcome := Rejected(AccessDenied(filePath));
      }
    case DownloadPackages =>
      if ctx.packageLockPath in env.lockfiles && env.lockfiles[ctx.packageLockPath].dependencies.Some? {
        var entries := env.lockfiles[ctx.packageLockPath].dependencies.value;
        var _, _, _ := Download.DownloadAll(entries, env.registry, env.username, env.password, env.curlSucceeds);
        outcome := Resolved;
      } else {
        outcome := Pending;
      }
  }

  /**
   * The `for (let task of tasks)` loop: invokes each stage in turn and
   * stops at the first that throws (after logging it) or never settles.
   */
  method RunStages(ctx: Context, stages: seq<Stage>, env: Env) returns (ran: seq<nat>, result: RunResult)
    modifies ctx
    ensures Trace(ran, ctx.Value(), result) == RunFrom(stages, 0, old(ctx.Value()), env)
  {
    ran, result := [], Completed;
    var i := 0;
    while i < |stages|
      invariant 0 <= i <= |stages|
      invariant RunFrom(stages, 0, old(ctx.Value()), env) == Prepend(ran, RunFrom(stages, i, ctx.Value(), env))
      invariant result == Completed
    {
      ghost var before := ctx.Value();
      var outcome := RunStage(ctx, stages[i], env);
      ghost var rest := RunFrom(stages, i + 1, ctx.Value(), env);
      ran := ran + [i];
      if outcome.Rejected? {
        result := Aborted(i, outcome.error);   // console.error(e); break
        break;
      } else if outcome.Pending? {
        result := Stalled(i);
        break;
      }
      assert (ran[..|ran| - 1] + [i]) + rest.ran == ran[..|ran| - 1] + ([i] + rest.ran);
      i := i + 1;
    }
  }

  /**
   * `LockCheck.run` after its prompts: a fresh context for the resolved
   * project directory, then the two stages.  Returns the stages invoked,
   * how the run ended and the final `packageLockPath`.
   */
  method LockCheck(projectPath: string, env: Env) returns (ran: seq<nat>, result: RunResult, packageLockPath: string)
    requires |projectPath| > 0 && projectPath[0] == '/'   // `path.resolve(args.dir)` is absolute
    ensures var filePath := ResolvePath(projectPath, LockfileName);
      filePath !in env.readable ==>
        ran == [0] && result == Aborted(0, AccessDenied(filePath)) && packageLockPath == ""
    ensures var filePath := ResolvePath(projectPath, LockfileName);
      filePath in env.readable ==>
        ran == [0, 1] && packageLockPath == filePath &&
        (result == Completed <==> filePath in env.lockfiles && env.lockfiles[filePath].dependencies.Some?) &&
        (result != Completed ==> result == Stalled(1))
  {
    var ctx := new Context(projectPath);
    ran, result := RunStages(ctx, Tasks, env);
    packageLockPath := ctx.packageLockPath;
  }
}
