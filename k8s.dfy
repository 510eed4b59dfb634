/**
 * The `k8s` command: join the query words, resolve an answer through the cache (or, with
 * `overwrite`, always from the remote model), then print it or run it with `sh -c` and pass
 * the child's failure on as the process's exit code.
 */
module K8s {
  import opened Wrappers
  import opened Process
  import opened ApiKey
  import Query
  import AnswerCache

  const CacheFileName: string := ".k8s-cache.json"

  /** The fixed instructions sent as the system message. */
  const Prompt: string :=
    "You are assisting with working with kubernetes on Unix.\n"
    + "The response is shell command (e.g. kubectl, grep etc),\n"
    + "no comments, no explanations, command only.\n"
    + "Ssh directly won't work.\n"
    + "For ssh shell prefer bash.\n"
    + "Never change current context, never change current namespace unless a user\n"
    + "explicitly asked to (avoid `kubectl config use-context` if possible).\n"
    + "Pipes, && and such are allowed: result will be fed into `sh -c '...'`.\n"

  const InvokingPrefix: string := "Invoking: "

  /** The total length of the words. */
  function TotalLength(words: seq<string>): nat {
    if words == [] then 0 else |words[0]| + TotalLength(words[1..])
  }

  /** `words.join(" ")`: the words separated by single spaces. */
  function JoinWords(words: seq<string>): (q: string)
    ensures words == [] ==> q == ""
    ensures words != [] ==> |q| == TotalLength(words) + |words| - 1
    ensures words != [] ==> words[0] <= q
  {
    if words == [] then ""
    else if |words| == 1 then words[0]
    else words[0] + " " + JoinWords(words[1..])
  }

  lemma {:induction false} TotalLengthAppend(a: seq<string>, b: seq<string>)
    ensures TotalLength(a + b) == TotalLength(a) + TotalLength(b)
  {
    if a == [] {
      assert a + b == b;
    } else {
      assert (a + b)[1..] == a[1..] + b;
      TotalLengthAppend(a[1..], b);
    }
  }

  /** Joining two non-empty word lists is joining each and putting one space between. */
  lemma {:induction false} JoinAppend(a: seq<string>, b: seq<string>)
    requires a != [] && b != []
    ensures JoinWords(a + b) == JoinWords(a) + " " + JoinWords(b)
  {
    if |a| == 1 {
      assert (a + b)[1..] == b;
    } else {
      assert (a + b)[1..] == a[1..] + b;
      JoinAppend(a[1..], b);
    }
  }

  /** A stage of the command's output: a query sent to the model, a line printed, a command run. */
  datatype Event = Asked(query: string) | Printed(line: string) | Invoked(command: string)

  datatype DriverError =
    | CacheFailed(cacheError: AnswerCache.CacheError)
    | QueryFailed(queryError: Query.QueryError)
    | ShellNotSpawned

  /**
   * How the command ends: `main` returns `Ok(())`, calls `process::exit(code)`, or returns an
   * error (which the Rust runtime reports before exiting with code 1).
   */
  datatype Outcome = Done | ExitWith(code: int) | Failed(error: DriverError)

  /** What running `sh -c <answer>` reports. */
  datatype ShellRun = NotSpawned | Ran(status: ExitStatus)

  /** The exit code the caller sees. */
  function ExitCode(o: Outcome): (c: int)
    ensures o.Done? ==> c == 0
    ensures o.Failed? ==> c == 1
    ensures o.ExitWith? ==> c == o.code
  {
    match o
    case Done => 0
    case ExitWith(code) => code
    case Failed(_) => 1
  }

  /** The end of the command after running the answer: the child's failure becomes the exit code. */
  function ChildOutcome(run: ShellRun): (o: Outcome)
    ensures run.NotSpawned? <==> o == Failed(ShellNotSpawned)
    ensures run.Ran? && run.status.Success() <==> o == Done
    ensures run.Ran? && run.status.Exited? && !run.status.Success() ==> o == ExitWith(run.status.exitCode)
    ensures run.Ran? && run.status.Killed? ==> o == ExitWith(1)
    ensures run.Ran? ==> (ExitCode(o) == 0 <==> run.status.Success())
  {
    match run
    case NotSpawned => Failed(ShellNotSpawned)
    case Ran(status) =>
      if status.Success() then Done
      else
        match status.Code()
        case Some(code) => ExitWith(code)
        case None => ExitWith(1)
  }

  /** `do_query`: ask the model with the fixed prompt. */
  function DoQuery(query: string, env: Environment, curl: Query.CurlCall -> Query.CurlOutput): (r: Result<string, Query.QueryError>)
    ensures XaiApiKey(env).Err? ==> r == Err(Query.Credential(XaiApiKey(env).error))
    ensures XaiApiKey(env).Ok? ==>
              r == Query.Receive(curl(Query.Invocation(XaiApiKey(env).value, Query.BuildRequest(Prompt, query))))
    ensures r.Ok? ==> r.value != []
  {
    Query.Query(Prompt, query, env, curl).result
  }

  /** What the command does with a resolved `answer`: print it, or announce it and run it. */
  ghost predicate Delivers(answer: string, noRun: bool, shell: string -> ShellRun, outcome: Outcome, events: seq<Event>) {
    if noRun then events == [Printed(answer)] && outcome == Done
    else events == [Printed(InvokingPrefix + answer), Invoked(answer)] && outcome == ChildOutcome(shell(answer))
  }

  /** Ask the model and store its answer under `query`: the shared branch of `main`. */
  method AskAndStore(store: AnswerCache.CacheStore, query: string, env: Environment,
                     curl: Query.CurlCall -> Query.CurlOutput, now: string)
    returns (r: Result<string, DriverError>)
    modifies store
    ensures var asked := DoQuery(query, env, curl);
            var s := AnswerCache.Store(store.home, old(store.files), store.readOnly, CacheFileName, query,
                                       if asked.Ok? then asked.value else "", now);
            && (asked.Err? ==> r == Err(QueryFailed(asked.error)) && store.files == old(store.files))
            && (asked.Ok? && s.Err? ==> r == Err(CacheFailed(s.error)) && store.files == old(store.files))
            && (asked.Ok? && s.Ok? ==> r == Ok(asked.value) && store.files == s.value)
    ensures r.Ok? ==> AnswerCache.Lookup(store.home, store.Cell(CacheFileName), query) == Ok(Some(r.value))
  {
    var asked := DoQuery(query, env, curl);
    if asked.Err? {
      return Err(QueryFailed(asked.error));
    }
    var stored := store.WriteCache(CacheFileName, query, asked.value, now);
    if stored.Err? {
      return Err(CacheFailed(stored.error));
    }
    r := Ok(asked.value);
  }

  /**
   * The first half of `main`: the answer for `query`, from the cache or from the model.
   * `asked` says whether the model was asked.
   */
  method Resolve(store: AnswerCache.CacheStore, query: string, overwrite: bool, env: Environment,
                 curl: Query.CurlCall -> Query.CurlOutput, now: string)
    returns (r: Result<string, DriverError>, asked: bool)
    modifies store
    ensures var cached := AnswerCache.Lookup(store.home, AnswerCache.CellOf(old(store.files), CacheFileName), query);
            var answer := DoQuery(query, env, curl);
            var s := AnswerCache.Store(store.home, old(store.files), store.readOnly, CacheFileName, query,
                                       if answer.Ok? then answer.value else "", now);
            && (asked <==> overwrite || cached == Ok(None))
            // a lookup error aborts the command
            && (!asked && cached.Err? ==> r == Err(CacheFailed(cached.error)))
            // a hit gives the cached answer
            && (!asked && cached.Ok? ==> r == Ok(cached.value.value))
            // without asking, nothing is written
            && (!asked ==> store.files == old(store.files))
            // after asking, the answer is stored
            && (asked && answer.Err? ==> r == Err(QueryFailed(answer.error)) && store.files == old(store.files))
            && (asked && answer.Ok? && s.Err? ==> r == Err(CacheFailed(s.error)) && store.files == old(store.files))
            && (asked && answer.Ok? && s.Ok? ==> r == Ok(answer.value) && store.files == s.value)
    ensures asked && r.Ok? ==> AnswerCache.Lookup(store.home, store.Cell(CacheFileName), query) == Ok(Some(r.value))
  {
    if overwrite {
      asked := true;
      r := AskAndStore(store, query, env, curl, now);
      return;
    }
    var cached := store.ReadCache(CacheFileName, query);
    if cached.Err? {
      return Err(CacheFailed(cached.error)), false;
    }
    match cached.value
    case Some(hit) =>
      r, asked := Ok(hit), false;
    case None =>
      asked := true;
      r := AskAndStore(store, query, env, curl, now);
  }

  /**
   * `main` with the parsed flags and query words. The environment, curl, the shell and the
   * clock are parameters; the returned events record what was asked, printed and run.
   */
  method Run(store: AnswerCache.CacheStore, words: seq<string>, overwrite: bool, noRun: bool,
             env: Environment, curl: Query.CurlCall -> Query.CurlOutput,
             shell: string -> ShellRun, now: string)
    returns (outcome: Outcome, trace: seq<Event>)
    modifies store
    ensures var q := JoinWords(words);
            var cached := AnswerCache.Lookup(store.home, AnswerCache.CellOf(old(store.files), CacheFileName), q);
            var asked := DoQuery(q, env, curl);
            var s := AnswerCache.Store(store.home, old(store.files), store.readOnly, CacheFileName, q,
                                       if asked.Ok? then asked.value else "", now);
            // a lookup error aborts before anything else
            && (!overwrite && cached.Err? ==>
                  outcome == Failed(CacheFailed(cached.error)) && trace == [] && store.files == old(store.files))
            // a hit uses the cached answer: no query, no write
            && (!overwrite && cached.Ok? && cached.value.Some? ==>
                  Delivers(cached.value.value, noRun, shell, outcome, trace) && store.files == old(store.files))
            // with overwrite, or on a miss, the model is asked first and its answer stored
            && (overwrite || cached == Ok(None) ==>
                  |trace| >= 1 && trace[0] == Asked(q)
                  && (asked.Err? ==>
                        outcome == Failed(QueryFailed(asked.error)) && trace == [Asked(q)] && store.files == old(store.files))
                  && (asked.Ok? && s.Err? ==>
                        outcome == Failed(CacheFailed(s.error)) && trace == [Asked(q)] && store.files == old(store.files))
                  && (asked.Ok? && s.Ok? ==>
                        store.files == s.value
                        && AnswerCache.Lookup(store.home, store.Cell(CacheFileName), q) == Ok(Some(asked.value))
                        && Delivers(asked.value, noRun, shell, outcome, trace[1..])))
    // nothing is printed or run after an error resolving the answer
    ensures outcome.Failed? && outcome.error != ShellNotSpawned ==> forall i :: 0 <= i < |trace| ==> trace[i].Asked?
    // the model is asked at most once, and never on a hit
    ensures forall i :: 0 < i < |trace| ==> !trace[i].Asked?
    // with no_run nothing is executed
    ensures noRun ==> forall i :: 0 <= i < |trace| ==> !trace[i].Invoked?
  {
    var query := JoinWords(words);
    var answer, asked := Resolve(store, query, overwrite, env, curl, now);
    trace := if asked then [Asked(query)] else [];
    if answer.Err? {
      return Failed(answer.error), trace;
    }
    if noRun {
      trace := trace + [Printed(answer.value)];
      return Done, trace;
    }
    trace := trace + [Printed(InvokingPrefix + answer.value), Invoked(answer.value)];
    outcome := ChildOutcome(shell(answer.value));
  }
}

/** Two runs against a cache file that already holds an answer, as a caller sees them. */
module K8sScenarios {
  import opened Wrappers
  import opened Process
  import opened ApiKey
  import AnswerCache
  import Query
  import K8s

  /** With `no_run` and a cached "echo hi", the answer is printed; nothing is asked, run or written. */
  method CachedDryRun(env: Environment, curl: Query.CurlCall -> Query.CurlOutput,
                      shell: string -> K8s.ShellRun, now: string)
  {
    var entries := [AnswerCache.CacheEntry("get pods", "echo hi", "2024-01-01T00:00:00Z")];
    var files := map[K8s.CacheFileName := AnswerCache.Present(AnswerCache.Serialize(entries))];
    var store := new AnswerCache.CacheStore(Some("/home/user"), files, {});
    var outcome, trace := K8s.Run(store, ["get", "pods"], false, true, env, curl, shell, now);
    assert K8s.JoinWords(["get", "pods"]) == "get pods";
    assert outcome == K8s.Done && trace == [K8s.Printed("echo hi")];
    assert store.files == files;
  }

  /** With `overwrite`, the model is asked although the answer is cached, and its answer replaces it. */
  method ForcedRefresh(key: string, curl: Query.CurlCall -> Query.CurlOutput,
                       shell: string -> K8s.ShellRun, now: string)
    requires key != ""
    requires forall c :: curl(c) == Query.Finished(Exited(0), Query.Parsed(Query.Response(
               [Query.Choice(Query.ChoiceMessage("kubectl")), Query.Choice(Query.ChoiceMessage(" get pods"))])))
  {
    var entries := [AnswerCache.CacheEntry("pods", "echo hi", "2024-01-01T00:00:00Z")];
    var files := map[K8s.CacheFileName := AnswerCache.Present(AnswerCache.Serialize(entries))];
    var store := new AnswerCache.CacheStore(Some("/home/user"), files, {});
    var env := map[KeyVariable := Unicode(key)];
    Query.ConcatExample();
    var outcome, trace := K8s.Run(store, ["pods"], true, true, env, curl, shell, now);
    assert K8s.JoinWords(["pods"]) == "pods";
    assert trace == [K8s.Asked("pods"), K8s.Printed("kubectl get pods")];
    assert AnswerCache.Lookup(store.home, store.Cell(K8s.CacheFileName), "pods") == Ok(Some("kubectl get pods"));
  }
}
