/**
 * The chat-completion client: the request it builds, the `curl` invocation it makes and how it
 * turns curl's outcome into an answer. Running curl is an oracle: a function from the invocation
 * to what the process reported.
 */
module Query {
  import opened Wrappers
  import opened Process
  import opened ApiKey

  const Model: string := "grok-2-latest"
  const Endpoint: string := "https://api.x.ai/v1/chat/completions"
  const BearerPrefix: string := "Authorization: Bearer "
  const ContentTypeHeader: string := "Content-Type: application/json"
  const SystemRole: string := "system"
  const UserRole: string := "user"

  /** `QueryJsonMessage` */
  datatype Message = Message(role: string, content: string)

  /** `QueryJson`: the request body, sent as compact JSON. */
  datatype Request = Request(model: string, messages: seq<Message>)

  /** `ResponseChoiceMessage`, `ResponseChoice` and `ResponseJson` */
  datatype ChoiceMessage = ChoiceMessage(content: string)
  datatype Choice = Choice(message: ChoiceMessage)
  datatype Response = Response(choices: seq<Choice>)

  /** What `serde_json::from_slice` makes of curl's standard output. */
  datatype Stdout = Parsed(response: Response) | Unparsable

  /**
   * One run of `curl -s -H <headers> -d <payload> <url>`, with standard input closed and
   * standard output captured. The payload is the JSON text of `payload`.
   */
  datatype CurlCall = CurlCall(headers: seq<string>, payload: Request, url: string)

  /** What running curl reports: it could not be spawned, or it finished with a status and output. */
  datatype CurlOutput = SpawnFailed | Finished(status: ExitStatus, stdout: Stdout)

  datatype QueryError =
    | Credential(reason: KeyError)
    | CurlNotSpawned
    | TransportFailed(status: ExitStatus)
    | MalformedResponse
    | EmptyAnswer

  /** The answer or error of one `query`, with every curl invocation it made, in order. */
  datatype QueryRun = QueryRun(result: Result<string, QueryError>, calls: seq<CurlCall>)

  /** A request as the client sends it: the fixed model, a system message, then a user message. */
  predicate WellFormed(r: Request) {
    && r.model == Model
    && |r.messages| == 2
    && r.messages[0].role == SystemRole
    && r.messages[1].role == UserRole
  }

  /** The request for `prompt` and `query`. */
  function BuildRequest(prompt: string, query: string): (r: Request)
    ensures WellFormed(r)
    ensures r.messages[0].content == prompt && r.messages[1].content == query
  {
    Request(Model, [Message(SystemRole, prompt), Message(UserRole, query)])
  }

  /** Every well-formed request is the one built from its own two contents, so nothing else is sent. */
  lemma WellFormedIsBuilt(r: Request)
    requires WellFormed(r)
    ensures r == BuildRequest(r.messages[0].content, r.messages[1].content)
  {
    assert r.messages == [r.messages[0], r.messages[1]];
  }

  /** The authorization header carrying `key`. */
  function Authorization(key: string): (h: string)
    ensures |h| == |BearerPrefix| + |key|
    ensures BearerPrefix <= h
  {
    BearerPrefix + key
  }

  /** The token an authorization header carries, if it is a bearer header. */
  function BearerToken(header: string): (t: Option<string>)
    ensures t.Some? ==> BearerPrefix + t.value == header
  {
    if BearerPrefix <= header then Some(header[|BearerPrefix|..]) else None
  }

  /** The key is recovered, unchanged, from the header built for it. */
  lemma AuthorizationRoundTrip(key: string)
    ensures BearerToken(Authorization(key)) == Some(key)
  {
    var h := Authorization(key);
    assert h[|BearerPrefix|..] == key;
  }

  /** The curl invocation for `key` and `request`. */
  function Invocation(key: string, request: Request): (c: CurlCall)
    ensures |c.headers| == 2 && BearerToken(c.headers[0]) == Some(key)
    ensures c.headers[1] == ContentTypeHeader && c.url == Endpoint && c.payload == request
  {
    AuthorizationRoundTrip(key);
    CurlCall([Authorization(key), ContentTypeHeader], request, Endpoint)
  }

  /** The contents of every choice, in order, with no separator. */
  function Concat(choices: seq<Choice>): (answer: string)
    ensures answer == [] <==> forall i :: 0 <= i < |choices| ==> choices[i].message.content == []
  {
    if choices == [] then []
    else
      var rest := Concat(choices[1..]);
      assert forall i :: 1 <= i < |choices| ==> choices[i] == choices[1..][i - 1];
      choices[0].message.content + rest
  }

  /** Concatenation follows the order of the choices: it distributes over joining two lists. */
  lemma {:induction false} ConcatAppend(a: seq<Choice>, b: seq<Choice>)
    ensures Concat(a + b) == Concat(a) + Concat(b)
  {
    if a == [] {
      assert a + b == b;
    } else {
      assert (a + b)[1..] == a[1..] + b;
      ConcatAppend(a[1..], b);
    }
  }

  /** A single choice contributes exactly its content. */
  lemma ConcatSingle(c: Choice)
    ensures Concat([c]) == c.message.content
  {
    assert [c][1..] == [];
  }

  /** A two-fragment response gives the command in one piece. */
  lemma ConcatExample()
    ensures Concat([Choice(ChoiceMessage("kubectl")), Choice(ChoiceMessage(" get pods"))])
         == "kubectl get pods"
  {
    var cs := [Choice(ChoiceMessage("kubectl")), Choice(ChoiceMessage(" get pods"))];
    assert cs[1..][1..] == [];
  }

  /** The answer assembled from the choices: their concatenation, refused when empty. */
  function Answer(choices: seq<Choice>): (r: Result<string, QueryError>)
    ensures r.Ok? <==> exists i :: 0 <= i < |choices| && choices[i].message.content != []
    ensures r.Ok? ==> r.value == Concat(choices) && r.value != []
    ensures r.Err? ==> r.error == EmptyAnswer
  {
    var answer := Concat(choices);
    if answer == [] then Err(EmptyAnswer) else Ok(answer)
  }

  /** No choices at all is an empty answer. */
  lemma NoChoicesIsEmptyAnswer()
    ensures Answer([]) == Err(EmptyAnswer)
  {
  }

  /** What the client makes of curl's outcome: the status is checked before the output is parsed. */
  function Receive(output: CurlOutput): (r: Result<string, QueryError>)
    ensures output.SpawnFailed? ==> r == Err(CurlNotSpawned)
    ensures output.Finished? && !output.status.Success() ==> r == Err(TransportFailed(output.status))
    ensures output.Finished? && output.status.Success() && output.stdout.Unparsable? ==> r == Err(MalformedResponse)
    ensures r.Ok? <==> output.Finished? && output.status.Success() && output.stdout.Parsed?
                       && Answer(output.stdout.response.choices).Ok?
    ensures output.Finished? && output.status.Success() && output.stdout.Parsed? ==> r == Answer(output.stdout.response.choices)
    ensures r.Ok? ==> r.value != []
  {
    match output
    case SpawnFailed => Err(CurlNotSpawned)
    case Finished(status, stdout) =>
      if !status.Success() then Err(TransportFailed(status))
      else
        match stdout
        case Unparsable => Err(MalformedResponse)
        case Parsed(response) => Answer(response.choices)
  }

  /** After a failed status the output is not looked at: any two outputs give the same error. */
  lemma FailedStatusIgnoresOutput(status: ExitStatus, out1: Stdout, out2: Stdout)
    requires !status.Success()
    ensures Receive(Finished(status, out1)) == Receive(Finished(status, out2))
  {
  }

  /**
   * `query`: resolve the credential, then run curl once with the request for `prompt` and
   * `query`, and assemble the answer from what it reports.
   */
  function Query(prompt: string, query: string, env: Environment, curl: CurlCall -> CurlOutput): (run: QueryRun)
    ensures XaiApiKey(env).Err? ==> run.result == Err(Credential(XaiApiKey(env).error)) && run.calls == []
    ensures XaiApiKey(env).Ok? ==>
              run.calls == [Invocation(XaiApiKey(env).value, BuildRequest(prompt, query))]
              && run.result == Receive(curl(run.calls[0]))
    ensures run.result.Ok? ==> run.result.value != []
  {
    match XaiApiKey(env)
    case Err(reason) => QueryRun(Err(Credential(reason)), [])
    case Ok(key) =>
      var call := Invocation(key, BuildRequest(prompt, query));
      QueryRun(Receive(curl(call)), [call])
  }
}
