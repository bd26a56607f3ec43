# lock-check, modelled in Dafny

`lock-check` is a command-line tool that downloads every package listed in a
project's `package-lock.json` from an Artifactory registry. `LockCheck.run`
runs an ordered list of two stages against one mutable context:

1. **locate**: resolve `<projectPath>/package-lock.json`, check that it is
   readable, and only then record it in `ctx.packageLockPath`;
2. **download**: import the lock file and queue one work item per key of its
   `dependencies` object. Each worker rewrites the entry's `resolved` URL from
   the public npm registry (`https://registry.npmjs.org`) to the configured
   registry. It builds the `curl` arguments `-u 'user:pass' <url>` and runs
   curl. In a `finally` block it advances a progress bar that was started at
   `(total, 0)`.

The first stage that throws is logged and ends the run.

The project has five modules:

- `Wrappers`: the `Option` and `Result` types.
- `JsString`: `String.prototype.replace` with a string pattern, and the
  StringIndexOf search it uses. `replace` changes only the first occurrence and expands
  the `$$`, `$&`, `` $` `` and `$'` patterns of the replacement, as
  GetSubstitution does (section 22.1.3.19.1 of ECMA-262).
- `Lockfile`: the parsed lock file. `dependencies` is a list of members in
  file order. `Keys` is `Object.keys` and `Lookup` is the property read.
- `Download`: the worker and the queue. The queue is modelled as a loop over
  the keys that takes one item at a time. The progress bar is a `Progress`
  class. The `args` array is an `ArgList` class filled by `Push`.
- `Pipeline`: the `Context` class, the effect of each stage (`StageEffect`),
  the run as a specification function (`RunFrom`), and the loop with its
  `break` (`RunStages`). `RunStages` is proved equal to `RunFrom`. `LockCheck`
  runs the fixed two-stage list.

The run's I/O is given as an `Env` value:

- which paths `fs.access` accepts;
- which paths `import` loads, and what each one parses to;
- the registry flag and the prompted credentials;
- which curl argument lists make curl exit with status zero.

A stage ends in one of three ways: it resolves, it throws (`Rejected`), or it
never settles (`Pending`). The download stage settles only through the
queue's drain callback. If `import` or `Object.keys` throws inside its
`async` promise executor, that callback is never registered. The outer
promise then stays pending: the run stops at that stage and logs nothing
(`Stalled`). An example is a lock file without a `dependencies` member.

## Model

| member | source | states |
|---|---|---|
| JsString.IndexOfFrom | src/index.ts:103 | The search `replace` runs (StringIndexOf, called with `from` = 0): the result is the least position at or after `from` where the pattern occurs. It is `None` exactly when the pattern occurs nowhere from `from` on. |
| JsString.SubstitutionLiteral | src/index.ts:103 | A replacement string with no `$` is inserted verbatim. |
| JsString.ReplaceAbsent | src/index.ts:103 | If the pattern does not occur, `replace` returns the string unchanged. |
| JsString.ReplaceFirst | src/index.ts:103 | Only the first occurrence is replaced. The text before it and everything after it, including later occurrences, is kept. |
| JsString.ReplacePrefix | src/index.ts:103 | Replacing a prefix yields `replacement + s[\|pat\|..]`. |
| JsString.ReplaceMatchPattern | src/index.ts:103 | A `$&` in the replacement re-inserts the matched text, so a registry flag holding `$` is not used literally. |
| Lockfile.Keys | src/index.ts:89 | `Object.keys` lists exactly the declared names, each once, with no more keys than members. |
| Lockfile.Lookup | src/index.ts:101 | For the own member names the worker reads: the property read yields the value of the last member with that name, and is `undefined` exactly when no member has it. |
| Lockfile.KeysAreFound | src/index.ts:89-101 | Every key that `Object.keys` yields is found by the worker's property read. |
| Lockfile.KeysOfDistinct | src/index.ts:89 | Without duplicate names, the key list is the member names in file order. |
| Download.DownloadUrlUntouched | src/index.ts:103 | A `resolved` URL that does not contain `NPM_URL` is downloaded as it is. |
| Download.DownloadUrlFirstOccurrence | src/index.ts:103 | For a registry without `$`: only the first occurrence of `NPM_URL` is replaced by the registry flag (the `$&` case is `JsString.ReplaceMatchPattern`). |
| Download.DownloadUrlRegistryPrefix | src/index.ts:103 | For a registry without `$`: a URL that starts with `NPM_URL` becomes `registry + resolved[\|NPM_URL\|..]`: the path after the prefix is untouched. |
| Download.Credential | src/index.ts:107 | The token is `'`, the user name, `:`, the password, `'`, and each part can be recovered at its position. |
| Download.ArgList.constructor | src/index.ts:105 | `args` starts empty. |
| Download.ArgList.Push | src/index.ts:107-109 | `push` appends its operands in order and changes nothing else. |
| Download.CurlArgs | src/index.ts:105-109 | The curl argument list has exactly three elements: `-u`, the credential token and the download URL, in that order. |
| Download.Request | src/index.ts:101-109 | The worker reaches curl exactly when the entry and its `resolved` field exist, with the rewritten URL. For a name that no member declares it throws `MissingEntry` (the worker only receives declared keys; inherited names are on the `Lockfile.Lookup` line of Left out). An entry without `resolved` throws `MissingResolved`. |
| Download.Settle | src/index.ts:99-117 | When the worker throws before curl, the item fails with that error. Otherwise it is `Downloaded` with the arguments the worker built exactly when curl succeeds on them, and when curl fails on them the item is `Failed(CurlFailed(args))` with those same arguments. |
| Download.RequestRewritesRegistry | src/index.ts:101-109 | For a registry without `$` (see `JsString.ReplaceMatchPattern` otherwise) and an entry on the public registry, curl is asked for the same path on the configured registry. |
| Download.Progress.constructor | src/index.ts:95 | A new progress bar is idle, with total 0 and value 0. |
| Download.Progress.Start | src/index.ts:96 | `start(total, 0)` sets the total and the value and starts the bar. |
| Download.Progress.Increment | src/index.ts:115 | `increment()` adds one to the value and changes nothing else. |
| Download.Progress.Stop | src/index.ts:119-121 | `stop()` halts the bar and keeps its total and its value. |
| Download.Work | src/index.ts:99-117 | The worker settles as `Settle` says. On every path, whether it succeeds or throws, the progress value goes up by exactly one and the total is unchanged. |
| Download.DownloadAll | src/index.ts:89-124 | One item per key, in key order, each settled as `Settle` says. `total` is the number of keys. The progress counter ends equal to `total`; that it stays between 0 and `total` meanwhile is the loop invariant `progress.value == i <= progress.total`, not an `ensures`. |
| Pipeline.ResolvePath | src/index.ts:73 | The resolved path is the directory, a `/` and the file name. |
| Pipeline.Context.constructor | src/index.ts:130-133 | The context starts with the project path and an empty `packageLockPath`. |
| Pipeline.LocateWritesOnlyOnSuccess | src/index.ts:72-79 | The locate stage resolves exactly when the lock file is readable, and then sets `packageLockPath` to it. Otherwise it throws the access error and leaves the context unchanged. |
| Pipeline.DownloadKeepsContext | src/index.ts:83-126 | The download stage never changes the context and never rejects. |
| Pipeline.FirstRejectionEndsRun | src/index.ts:135-142 | When every stage before stage `k` resolved and stage `k` throws `e`, the run ends `Aborted(k, e)`: stage `k` is the last one invoked and the context is the one stage `k` left. |
| Pipeline.FirstPendingStallsRun | src/index.ts:135-142 | When every stage before stage `k` resolved and stage `k` never settles, the run ends `Stalled(k)` and no later stage is invoked. |
| Pipeline.ResolvedPrefixCompletes | src/index.ts:135-142 | If each stage before `k` resolves on the context the earlier stages left it, the run of the first `k` stages completes and invokes each of them once, in order. |
| Pipeline.AllResolvedCompletes | src/index.ts:135-142 | If no stage throws or stalls on the context it is actually given, the run completes and every stage is invoked exactly once, in list order. |
| Pipeline.TasksResolve | src/index.ts:69-142 | The two-stage list meets that hypothesis, and so completes, when the lock file is readable and imports with a `dependencies` member. |
| Pipeline.RunInOrder | src/index.ts:135-142 | Stages run in list order, each at most once. A completed run invoked every stage. A run that ends early ends at the last stage it invoked. |
| Pipeline.LaterStagesNeverRun | src/index.ts:135-142 | After a stage throws or stalls, appending more stages to the list changes nothing about the run. |
| Pipeline.CompletedRunContinues | src/index.ts:135-142 | A completed run of a prefix of the list hands its final context to the rest of the list. |
| Pipeline.RunStage | src/index.ts:72-137 | Running one task updates the context and settles exactly as `StageEffect` says. |
| Pipeline.RunStages | src/index.ts:135-142 | The loop with its `break` invokes exactly the stages `RunFrom` lists, reaches the same final context and ends the same way. |
| Pipeline.LockCheck | src/index.ts:69-142 | For an absolute project path, as `path.resolve(args.dir)` gives. Unreadable lock file: only the locate stage runs, the run aborts with the access error, and `packageLockPath` stays `""`. Readable lock file: both stages run, `packageLockPath` is the resolved path, and the run completes exactly when the lock file imports with a `dependencies` member (otherwise it stalls at the download stage). |

`Download.DownloadUrlUntouched`, `Download.DownloadUrlFirstOccurrence` and
`Download.DownloadUrlRegistryPrefix` are `JsString.ReplaceAbsent`,
`JsString.ReplaceFirst` and `JsString.ReplacePrefix` with the pattern fixed to
`NPM_URL`: the same facts stated for the download URL.

`JsString.Replace`, `JsString.Substitution`, `Download.DownloadUrl`,
`Pipeline.StageEffect` and `Pipeline.RunFrom` are the specification functions
that the members above are proved against.

## Left out

- The worker queue's concurrency (`Async.queue` with width 10), its
  scheduling and its interleaving. Items are processed one at a time, in key
  order. The `async` library is not part of this model.
- Download.DownloadAll: the model assumes the queue goes on after a worker
  throws, and that it calls `drain` once all items settle, even when there are
  no items. The contracts say nothing about where the rethrown error goes.
  The item results are returned, but the stage discards them, as the source
  does.
- `execa("curl", …, { shell: true })` and the shell's reading of the quoted
  credentials. The model assumes every curl process exits. A curl that never
  exits would keep `drain` from running, and the download stage would stay
  pending. Whether curl succeeds is an input set of argument lists. A
  password containing `'` is not given any shell meaning.
- `fs.access` (the `fsa` helper): whether a path is readable is an input set.
- The dynamic `import` and `JSON.parse` of the lock file: the parsed value is
  an input.
- Lockfile.Lookup and Download.Request: names inherited from `Object.prototype` (`constructor`,
  `toString`, ...) are not modelled. For them a JavaScript property read does
  not yield `undefined`, and the worker would throw at `.replace`
  (`MissingResolved`) rather than `MissingEntry`. The worker never reads such a name, because its names
  come from `Object.keys`.
- JsString.IndexOfFrom: models the abstract StringIndexOf, not
  `String.prototype.indexOf` with a second argument, which clamps the start
  to the string's length. `replace` only uses it with start 0.
- Lockfile.Keys: `Object.keys` puts integer-like keys first; the model keeps
  file order for every key.
- `path.resolve`: `ResolvePath` joins an absolute, normalised directory to a
  file name. Resolving the `dir` argument against the working directory
  (src/index.ts:131) is not modelled. The project path is an input, and
  `LockCheck` requires it to be absolute, as `path.resolve` makes it.
- `cli.prompt`, the rendering of the progress bar, the text that
  `console.error` prints, the task titles, and oclif parsing of flags and
  arguments. These are UI and framework code.
- What Node.js does with the unhandled rejection of the download stage's
  `async` promise executor. The model only records that no later stage runs.
- Strings are sequences of Unicode characters, not of UTF-16 code units.
- Paths are POSIX paths (`/` separator); Windows paths are not modelled.
