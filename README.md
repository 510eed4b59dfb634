# aish `k8s`: a Dafny model

`k8s` asks the xAI chat-completion API for one shell command that answers a request in
plain words, keeps every query/answer pair in `~/.k8s-cache.json`, and then prints the
command or runs it with `sh -c`. This project models the four parts of the program that
hold its logic and proves what each promises:

- `api_key.dfy` (`ApiKey`): reading `XAI_API_KEY` from an environment given as a map. The
  three failures are kept apart: the variable is unset, its value is not UTF-8, or its value
  is empty. The value is never trimmed.
- `query.dfy` (`Query`): the request (model `grok-2-latest`, one system message, then one user
  message), the bearer header, the single `curl` invocation, the status check, the
  concatenation of the choices, and the rejection of an empty answer. `curl` is an oracle
  parameter. `Query` returns the result together with the list of invocations it made, so
  "no transport call after a credential failure" is a plain equation.
- `cache.dfy` (`AnswerCache`):
  - `Find` is a first-match lookup.
  - `Cache` is a class whose `Insert` runs the `retain` loop and then appends the new entry.
  - The cache files sit in a `CacheStore` object. It holds the home directory (absent when it
    cannot be found), a map from file name to file state (`Absent`, `Unreadable` or
    `Present(text)`), and the set of names whose writes fail.
  - The read, write, `read_cache` and `write_cache` operations are its methods. Each is proved
    against a specification function: `ReadFull`, `Lookup`, `Store`.
- `k8s.dfy` (`K8s`): `main` becomes `Run`, a method over the store, with the environment,
  `curl`, the shell and the clock as parameters.
  - It returns how the command ends and a trace of what it did: asked the model, printed a
    line, ran a command.
  - `Resolve` is the cache/overwrite decision.
  - `ChildOutcome` maps the child's status to the exit code.
  - The module `K8sScenarios` holds two client methods that use only these contracts: a cached
    dry run, and a forced refresh.

The JSON library is abstract. A file's text is a `FileText`: what `serde_json` recognises in
it (a cache document with its entries, or anything else) followed by a trailer. It parses
only when it is a document followed by JSON whitespace. Writing produces the document
followed by one `"\n"`.

Three behaviours of the code worth noting:
- Only `curl`'s own exit status is checked. `curl -s` runs without `-f`, so an HTTP error
  status still exits 0. Its body is then parsed, and it is rejected as malformed or empty,
  not as a transport failure.
- The code builds the request before it reads the key, not after. Building the request has
  no effect that anyone can see, so the order does not matter.
- A missing home directory fails lookups as well as stores. `read_full_cache` resolves the
  path first.

## Model

| member | source | states |
|---|---|---|
| ApiKey.XaiApiKey | src/api_key.rs:3-16 | an unset variable, a value that is not UTF-8 and an empty value give three distinct errors; otherwise the key is returned unchanged and is non-empty |
| ApiKey.BlankKeyAccepted | src/api_key.rs:10-13 | a key of blanks only is accepted as it is, since nothing is trimmed |
| Query.BuildRequest | src/query.rs:38-50 | the request is well formed (model `grok-2-latest`, exactly two messages, roles system then user) and carries the prompt and the query |
| Query.WellFormedIsBuilt | src/query.rs:38-50 | every well-formed request is the one built from its own two contents |
| Query.Authorization | src/query.rs:57 | the header starts with `Authorization: Bearer ` and is that prefix plus the key in length |
| Query.AuthorizationRoundTrip | src/query.rs:57 | the bearer token read back from the header is the key |
| Query.Invocation | src/query.rs:52-66 | curl gets the bearer header for the key, the JSON content-type header, the request as payload and the chat-completions endpoint |
| Query.Concat | src/query.rs:76-81 | the concatenation is empty exactly when every choice's content is empty |
| Query.ConcatAppend | src/query.rs:76-81 | concatenation follows the order of the choices: it distributes over appending two lists |
| Query.ConcatSingle | src/query.rs:76-81 | one choice contributes exactly its content, with no separator |
| Query.ConcatExample | src/query.rs:76-81 | `kubectl` and ` get pods` make `kubectl get pods` |
| Query.Answer | src/query.rs:76-85 | the answer is the concatenation and is non-empty; an empty concatenation is `EmptyAnswer`; success exactly when some choice has content |
| Query.NoChoicesIsEmptyAnswer | src/query.rs:82-84 | zero choices is `EmptyAnswer` |
| Query.Receive | src/query.rs:67-85 | a spawn failure, then a non-success status, then unparsable output are errors in that order; a parsed response after a successful status gives the assembled answer, so an empty one is `EmptyAnswer`; every answer is non-empty |
| Query.FailedStatusIgnoresOutput | src/query.rs:69-74 | after a non-success status the output is never looked at: any two outputs give the same error |
| Query.Query | src/query.rs:37-86 | a credential failure is returned with no curl invocation; otherwise exactly one invocation, with the request for the prompt and query, decides the result; every answer is non-empty |
| AnswerCache.Find | src/cache.rs:19-27 | `None` exactly when no entry has the query; otherwise the answer of an entry with the query before which no entry has it |
| AnswerCache.Without | src/cache.rs:30 | the kept entries are exactly the entries whose query differs, and their number is the old length minus the entries for the query |
| AnswerCache.WithoutAppend | src/cache.rs:30 | the kept entries stay in their original relative order (filtering distributes over appending) |
| AnswerCache.WithoutNoMatch | src/cache.rs:30 | with no entry for the query, every entry is kept, unchanged |
| AnswerCache.InsertThenFind | src/cache.rs:29-37 | after inserting `(q, a)`, looking up `q` gives `a` |
| AnswerCache.InsertKeepsOthers | src/cache.rs:30 | inserting `q` leaves the lookup of every other query unchanged |
| AnswerCache.InsertLeavesOneEntry | src/cache.rs:30-36 | after an insertion exactly one entry has the inserted query |
| AnswerCache.InsertShape | src/cache.rs:30-36 | the new entry is last, preceded by the kept entries; the length is the old count of other entries plus one |
| AnswerCache.InsertKeepsAtMostOne | src/cache.rs:29-37 | insertion preserves "at most one entry per query" |
| AnswerCache.InsertLastWins | src/cache.rs:29-37 | inserting two answers for one query equals inserting only the second: no duplicates, the last answer wins |
| AnswerCache.Cache.Insert | src/cache.rs:29-37 | the retain loop and push leave exactly the inserted list; the new answer is found, once, and other lookups and the invariant are kept |
| AnswerCache.Parse | src/cache.rs:58-59 | a text parses exactly when it is a cache document followed only by JSON whitespace, and then gives its entries; otherwise `ParseFailed` |
| AnswerCache.Serialize | src/cache.rs:63-64 | the written text is the document followed by exactly one newline |
| AnswerCache.ParseSerialize | src/cache.rs:58-64 | written text reads back as the same entries |
| AnswerCache.ReadFull | src/cache.rs:40-60 | no home directory is an error; a file that is not found reads as empty; any other read failure, and unparsable content, is an error and never empty |
| AnswerCache.Lookup | src/cache.rs:73-76 | a read error is returned as it is; otherwise the result is the first-match lookup in the entries read |
| AnswerCache.AbsentIsEmpty | src/cache.rs:50-54 | a missing file answers every lookup as a file holding an empty document does |
| AnswerCache.MalformedIsNotEmpty | src/cache.rs:55-59 | a malformed file makes every lookup fail |
| AnswerCache.Store | src/cache.rs:78-83 | a read or parse failure aborts before any write; a failed write is `WriteFailed`; otherwise the file is replaced by the serialized insertion |
| AnswerCache.StoreThenLookup | src/cache.rs:73-83 | after a successful store, looking the query up gives the stored answer |
| AnswerCache.StoreKeepsOthers | src/cache.rs:73-83 | a successful store changes no other query's answer and no other file |
| AnswerCache.StoreLastWins | src/cache.rs:78-83 | storing twice for one query leaves the files as storing the second answer once would |
| AnswerCache.CacheStore.ReadFullCache | src/cache.rs:46-60 | gives a fresh cache holding the entries `ReadFull` gives, or its error |
| AnswerCache.CacheStore.WriteFullCache | src/cache.rs:62-71 | without a home directory, or to an unwritable file, it fails and changes nothing; otherwise the whole file becomes the serialized cache |
| AnswerCache.CacheStore.ReadCache | src/cache.rs:73-76 | returns `Lookup` of the query in the file |
| AnswerCache.CacheStore.WriteCache | src/cache.rs:78-83 | the files become what `Store` gives, or stay as they were with its error; on success the query now looks up to the answer |
| K8s.JoinWords | src/bin/k8s.rs:58 | the query starts with the first word and is the words' total length plus one space between each pair |
| K8s.JoinAppend | src/bin/k8s.rs:58 | joining two non-empty word lists puts exactly one space between their joins |
| K8s.DoQuery | src/bin/k8s.rs:30-45 | asks with the fixed kubernetes prompt: a credential failure is returned without running curl; otherwise the one curl run with the request for the prompt and the query decides the result; every answer is non-empty |
| K8s.ExitCode | src/bin/k8s.rs:47-93 | a normal end is code 0, an error returned from `main` is code 1, and `process::exit(code)` exits with that code |
| K8s.ChildOutcome | src/bin/k8s.rs:81-92 | a successful child ends the command normally; a failed child exits with its code, or 1 when it has none; the exit code is zero exactly when the child succeeded |
| K8s.AskAndStore | src/bin/k8s.rs:61-63 | a query error returns before any write; otherwise the answer is stored, and a store error is returned; on success the answer is found under the query |
| K8s.Resolve | src/bin/k8s.rs:60-73 | the model is asked exactly with overwrite or on a miss; a hit gives the cached answer and writes nothing; a lookup error aborts; after asking, the answer is stored |
| K8s.Run | src/bin/k8s.rs:47-93 | a lookup, query or store error ends the command before anything is printed or run; a hit asks nothing and writes nothing; with overwrite or on a miss the model is asked once and its answer stored; with `no_run` the answer is printed and nothing runs; otherwise the notice is printed, the answer is run and the child's status decides the exit |

## Left out

- Parsing and printing JSON (`serde_json`) are abstract. A text is the document it denotes
  (or none) plus its trailer. The request payload is kept as a `Request` value, not as JSON
  text. Serialization cannot fail for these types, so its `?` is not modelled.
- File I/O:
  - `fs::read_to_string` and `fs::write` are the `CacheStore` map.
  - A file that is not valid UTF-8 counts as `Unreadable`.
  - Files are keyed by cache file name. `PathBuf::join` replaces the home directory when the
    name is absolute, and that case is not modelled.
  - The store looks up the home directory once, although the code looks it up again when it
    writes.
- AnswerCache.CacheStore.WriteFullCache: a failed write is modelled as one that fails before the
  file is opened, so the file stays as it was. `fs::write` truncates the file when it opens it,
  so a failure after that (disk full, an I/O error) can leave the file empty or partial. The next
  read would then fail to parse. Such torn writes are not modelled.
- AnswerCache.CacheStore.WriteCache: inherits the same assumption. A store error leaves the files
  unchanged. So do `K8s.AskAndStore`, `K8s.Resolve` and `K8s.Run` after a store error.
- `chrono::Utc::now()` is the opaque `now` string.
- Running `curl` and `sh -c` are oracle parameters that return the child's status and output.
  Stream inheritance, the closed standard input and the HTTP exchange itself are not modelled.
- Error messages and their context strings are not modelled. Only the error kinds are kept.
- `eprintln!` output is recorded as `Printed` events on the returned trace.
- clap requires at least one query word. `Run` accepts any list, including an empty one,
  which joins to the empty query.
- `process::exit` takes a 32-bit code. Exit codes are unbounded integers here.
- Two processes racing on one cache file are not modelled, because the program has no locking.
