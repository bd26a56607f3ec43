/**
 * The download stage of `LockCheck.run`: its queue worker (the registry URL
 * rewrite, the curl argument list, the progress increment in `finally`) and
 * the queue that runs the worker once per dependency.  The queue is run one
 * item at a time; whether `curl` succeeds for an argument list is given.
 */
module Download {
  import opened Wrappers
  import opened JsString
  import opened Lockfile

  /** The public registry prefix that download locations are rewritten from. */
  const NpmUrl: string := "https://registry.npmjs.org"

  /** `resolved.replace(NPM_URL, flags.registry)`. */
  function DownloadUrl(resolved: string, registry: string): (url: string) {
    Replace(resolved, NpmUrl, registry)
  }

  /** A location without the public registry prefix is downloaded from where it is. */
  lemma DownloadUrlUntouched(resolved: string, registry: string)
    requires forall j: nat :: !OccursAt(resolved, NpmUrl, j)
    ensures DownloadUrl(resolved, registry) == resolved
  {
    ReplaceAbsent(resolved, NpmUrl, registry);
  }

  /** Only the first occurrence of the public registry prefix is rewritten. */
  lemma DownloadUrlFirstOccurrence(resolved: string, registry: string, i: nat)
    requires OccursAt(resolved, NpmUrl, i)
    requires forall j :: 0 <= j < i ==> !OccursAt(resolved, NpmUrl, j)
    requires '$' !in registry
    ensures DownloadUrl(resolved, registry) == resolved[..i] + registry + resolved[i + |NpmUrl|..]
  {
    ReplaceFirst(resolved, NpmUrl, registry, i);
  }

  /** A location on the public registry keeps its path and gets the configured registry's origin. */
  lemma DownloadUrlRegistryPrefix(resolved: string, registry: string)
    requires |NpmUrl| <= |resolved| && resolved[..|NpmUrl|] == NpmUrl
    requires '$' !in registry
    ensures DownloadUrl(resolved, registry) == registry + resolved[|NpmUrl|..]
  {
    ReplacePrefix(resolved, NpmUrl, registry);
  }

  /** The `-u` operand `'user:pass'`, single quotes included. */
  function Credential(username: string, password: string): (token: string)
    ensures |token| == |username| + |password| + 3
    ensures token[0] == '\'' && token[|token| - 1] == '\''
    ensures token[1..|username| + 1] == username && token[|username| + 1] == ':'
    ensures token[|username| + 2..|token| - 1] == password
  {
    "'" + username + ":" + password + "'"
  }

  /** The worker's local `args` array, which it fills by `push`. */
  class ArgList {
    var items: seq<string>

    constructor ()
      ensures items == []
    {
      items := [];
    }

    /** `args.push(...xs)`. */
    method Push(xs: seq<string>)
      modifies this
      ensures items == old(items) + xs
    {
      items := items + xs;
    }
  }

  /** The argument list passed to `curl`: `-u`, the credential, the download URL. */
  method CurlArgs(username: string, password: string, url: string) returns (args: seq<string>)
    ensures |args| == 3
    ensures args[0] == "-u" && args[1] == Credential(username, password) && args[2] == url
  {
    var list := new ArgList();
    list.Push(["-u", Credential(username, password)]);
    list.Push([url]);
    args := list.items;
  }

  /** Why one worker invocation threw. */
  datatype ItemError =
    | MissingEntry                     // `dependencies[name]` is undefined: destructuring it throws
    | MissingResolved                  // `resolved` is undefined: `.replace` on it throws
    | CurlFailed(args: seq<string>)    // `execa` rejects: curl exited non-zero

  /** How one worker invocation settled. */
  datatype ItemResult = Downloaded(args: seq<string>) | Failed(error: ItemError)

  /** The curl argument list the worker builds for `name`, or why it throws before running curl. */
  function Request(entries: seq<Entry>, name: string, registry: string, username: string, password: string)
    : (r: Result<seq<string>, ItemError>)
    ensures r.Ok? <==> Lookup(entries, name).Some? && Lookup(entries, name).value.resolved.Some?
    ensures r.Ok? ==> r.value == ["-u", Credential(username, password),
                                  DownloadUrl(Lookup(entries, name).value.resolved.value, registry)]
    ensures r == Err(MissingEntry) <==> !Declares(entries, name)
    ensures Lookup(entries, name).Some? && Lookup(entries, name).value.resolved.None? ==> r == Err(MissingResolved)
  {
    match Lookup(entries, name)
    case None => Err(MissingEntry)
    case Some(dep) =>
      match dep.resolved
      case None => Err(MissingResolved)
      case Some(resolved) => Ok(["-u", Credential(username, password), DownloadUrl(resolved, registry)])
  }

  /** How the worker for `name` settles, given the argument lists for which curl succeeds. */
  function Settle(entries: seq<Entry>, name: string, registry: string, username: string, password: string,
                  curlSucceeds: set<seq<string>>): (r: ItemResult)
    ensures r.Downloaded? ==> Request(entries, name, registry, username, password) == Ok(r.args)
    ensures r.Downloaded? ==> r.args in curlSucceeds
    ensures r.Failed? && r.error.CurlFailed? ==>
      Request(entries, name, registry, username, password) == Ok(r.error.args) && r.error.args !in curlSucceeds
    ensures Request(entries, name, registry, username, password).Err? ==>
      r == Failed(Request(entries, name, registry, username, password).error)
    ensures Request(entries, name, registry, username, password).Ok? ==>
      (r.Downloaded? <==> Request(entries, name, registry, username, password).value in curlSucceeds)
    ensures Request(entries, name, registry, username, password).Ok? &&
            Request(entries, name, registry, username, password).value !in curlSucceeds ==>
      r == Failed(CurlFailed(Request(entries, name, registry, username, password).value))
  {
    match Request(entries, name, registry, username, password)
    case Err(e) => Failed(e)
    case Ok(args) => if args in curlSucceeds then Downloaded(args) else Failed(CurlFailed(args))
  }

  /** For an entry on the public registry, curl is asked for the same path on the configured registry. */
  lemma RequestRewritesRegistry(entries: seq<Entry>, name: string, registry: string,
                                username: string, password: string, resolved: string)
    requires Lookup(entries, name).Some? && Lookup(entries, name).value.resolved == Some(resolved)
    requires |NpmUrl| <= |resolved| && resolved[..|NpmUrl|] == NpmUrl
    requires '$' !in registry
    ensures Request(entries, name, registry, username, password) ==
      Ok(["-u", Credential(username, password), registry + resolved[|NpmUrl|..]])
  {
    DownloadUrlRegistryPrefix(resolved, registry);
  }

  /** The `cli.progress()` bar: a total and a current value. */
  class Progress {
    var total: nat
    var value: nat
    var running: bool

    constructor ()
      ensures total == 0 && value == 0 && !running
    {
      total, value, running := 0, 0, false;
    }

    /** `progress.start(total, start)`. */
    method Start(total: nat, start: nat)
      modifies this
      ensures this.total == total && value == start && running
    {
      this.total, value, running := total, start, true;
    }

    /** `progress.increment()`. */
    method Increment()
      modifies this
      ensures value == old(value) + 1 && total == old(total) && running == old(running)
    {
      value := value + 1;
    }

    /** `progress.stop()`. */
    method Stop()
      modifies this
      ensures !running && value == old(value) && total == old(total)
    {
      running := false;
    }
  }

  /**
   * The queue worker for one dependency.  Whichever way the body settles,
   * the `finally` block advances the progress bar by exactly one.
   */
  method Work(entries: seq<Entry>, name: string, registry: string, username: string, password: string,
              curlSucceeds: set<seq<string>>, progress: Progress) returns (result: ItemResult)
    modifies progress
    ensures result == Settle(entries, name, registry, username, password, curlSucceeds)
    ensures progress.value == old(progress.value) + 1
    ensures progress.total == old(progress.total) && progress.running == old(progress.running)
  {
    var dep := Lookup(entries, name);
    if dep.None? {
      result := Failed(MissingEntry);
    } else if dep.value.resolved.None? {
      result := Failed(MissingResolved);
    } else {
      var url := DownloadUrl(dep.value.resolved.value, registry);
      var args := CurlArgs(username, password, url);
      assert args == ["-u", Credential(username, password), url];
      if args in curlSucceeds {
        result := Downloaded(args);
      } else {
        result := Failed(CurlFailed(args));
      }
    }
    // finally
    progress.Increment();
  }

  /**
   * The download stage's item processing: one work item per key of
   * `dependencies`, in `Object.keys` order, on a fresh progress bar started
   * at `(total, 0)` and stopped at drain.  Returns how every item settled,
   * the number of items and the bar's value when it stopped.
   */
  method DownloadAll(entries: seq<Entry>, registry: string, username: string, password: string,
                     curlSucceeds: set<seq<string>>)
    returns (results: seq<ItemResult>, total: nat, progressed: nat)
    ensures total == |Keys(entries)|
    ensures progressed == total
    ensures |results| == total
    ensures forall i :: 0 <= i < total ==>
      results[i] == Settle(entries, Keys(entries)[i], registry, username, password, curlSucceeds)
  {
    var dependencies := Keys(entries);
    total := |dependencies|;
    var progress := new Progress();
    progress.Start(total, 0);
    results := [];
    var i := 0;
    while i < total
      invariant 0 <= i <= total
      invariant progress.running && progress.total == total
      invariant progress.value == i <= progress.total
      invariant |results| == i
      invariant forall j :: 0 <= j < i ==>
        results[j] == Settle(entries, dependencies[j], registry, username, password, curlSucceeds)
    {
      var r := Work(entries, dependencies[i], registry, username, password, curlSucceeds, progress);
      results := results + [r];
      i := i + 1;
    }
    progress.Stop();
    progressed := progress.value;
  }
}
