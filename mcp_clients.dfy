/** The desktop app's connections to MCP tool servers: the OAuth state
    string, the wait for the OAuth callback, the connection per auth type
    and the merge of every server's tools. The tool servers, the secret
    store, the callback server and the system's random bytes are outside the
    model: what they answer is a parameter. */
module McpClients {
  import opened Wrappers
  import opened AiSdk
  import opened JsStrings

  datatype McpServer = McpServer(id: string, name: string, url: string, authType: string)

  /** What `createMCPClient` or `auth` can throw: the SDK's
      `UnauthorizedError`, or any other error. */
  datatype McpError = Unauthorized(message: string) | Failure(message: string)

  /** A client's HTTP transport: the server URL and its authentication, a
      bearer key or the OAuth provider of the named server. */
  datatype Transport = Transport(url: string, authorization: Option<string>, oauthProviderFor: Option<string>)

  datatype Client = Client(serverId: string, transport: Transport)

  /** `createMCPClient` with the server's answer: a client over the given
      transport, or the error it threw. */
  function CreateClient(serverId: string, transport: Transport, failure: Option<McpError>): (r: Result<Client, McpError>)
    ensures r.Ok? <==> failure.None?
    ensures r.Ok? ==> r.value.serverId == serverId && r.value.transport == transport
    ensures r.Err? ==> r.error == failure.value
  {
    if failure.Some? then Err(failure.value) else Ok(Client(serverId, transport))
  }

  // ---------------------------------------------------------------------
  // The OAuth state: base64 turned into the URL-safe alphabet.
  // ---------------------------------------------------------------------

  /** `s.replace(/from/g, to)` for a single character. */
  function ReplaceAll(s: string, from: char, to: char): (r: string)
    ensures |r| == |s|
    ensures forall i :: 0 <= i < |s| ==> r[i] == (if s[i] == from then to else s[i])
  {
    seq(|s|, i requires 0 <= i < |s| => if s[i] == from then to else s[i])
  }

  /** `s.replace(/c/g, "")`: every occurrence of `c` removed, the rest kept
      in order. */
  function RemoveAll(s: string, c: char): (r: string)
    ensures |r| <= |s|
    ensures forall i :: 0 <= i < |r| ==> r[i] != c && r[i] in s
    ensures (forall i :: 0 <= i < |s| ==> s[i] != c) ==> r == s
  {
    if s == [] then []
    else RemoveAll(s[..|s| - 1], c) + (if s[|s| - 1] == c then [] else [s[|s| - 1]])
  }

  predicate IsBase64Digit(ch: char) {
    ('A' <= ch <= 'Z') || ('a' <= ch <= 'z') || ('0' <= ch <= '9') || ch == '+' || ch == '/'
  }

  /** The URL-safe alphabet of section 5 of RFC 4648. */
  predicate IsBase64UrlDigit(ch: char) {
    ('A' <= ch <= 'Z') || ('a' <= ch <= 'z') || ('0' <= ch <= '9') || ch == '-' || ch == '_'
  }

  function Padding(n: nat): string {
    if n == 0 then [] else Padding(n - 1) + ['=']
  }

  /** What `btoa` yields: base64 digits followed by at most two `=` that
      pad the length to a multiple of four. */
  ghost predicate IsPaddedBase64(s: string) {
    exists body: string, n: nat ::
      && n <= 2 && s == body + Padding(n) && (|body| + n) % 4 == 0
      && forall i :: 0 <= i < |body| ==> IsBase64Digit(body[i])
  }

  /** `generateOAuthState` after the random bytes are encoded: '+' becomes
      '-', '/' becomes '_', and the padding is dropped. */
  function GenerateOAuthState(encoded: string): (r: string)
    ensures forall i :: 0 <= i < |r| ==> r[i] != '+' && r[i] != '/' && r[i] != '='
  {
    RemoveAll(ReplaceAll(ReplaceAll(encoded, '+', '-'), '/', '_'), '=')
  }

  /** The inverse mapping of section 5 of RFC 4648: URL-safe digits back to
      the standard ones and the padding restored. */
  function ToPaddedBase64(r: string): string {
    var std := ReplaceAll(ReplaceAll(r, '-', '+'), '_', '/');
    std + Padding((4 - |r| % 4) % 4)
  }

  lemma {:induction false} PaddingAllPad(n: nat)
    ensures |Padding(n)| == n && forall i :: 0 <= i < n ==> Padding(n)[i] == '='
  {
    if n > 0 {
      PaddingAllPad(n - 1);
    }
  }

  lemma {:induction false} RemoveAllAppend(a: string, b: string, c: char)
    ensures RemoveAll(a + b, c) == RemoveAll(a, c) + RemoveAll(b, c)
    decreases |b|
  {
    if b != [] {
      var b' := b[..|b| - 1];
      assert (a + b)[..|a + b| - 1] == a + b';
      RemoveAllAppend(a, b', c);
    } else {
      assert a + b == a;
    }
  }

  lemma {:induction false} RemoveAllOnly(s: string, c: char)
    requires forall i :: 0 <= i < |s| ==> s[i] == c
    ensures RemoveAll(s, c) == []
  {
    if s != [] {
      RemoveAllOnly(s[..|s| - 1], c);
    }
  }

  /** The forward mapping of the digits, '+' to '-' and '/' to '_'. */
  function ToUrlDigits(s: string): string {
    ReplaceAll(ReplaceAll(s, '+', '-'), '/', '_')
  }

  lemma UrlDigitsInverse(body: string)
    requires forall i :: 0 <= i < |body| ==> IsBase64Digit(body[i])
    ensures forall i :: 0 <= i < |ToUrlDigits(body)| ==> IsBase64UrlDigit(ToUrlDigits(body)[i])
    ensures ReplaceAll(ReplaceAll(ToUrlDigits(body), '-', '+'), '_', '/') == body
  {
  }

  lemma UrlDigitsOfPadded(body: string, n: nat)
    ensures ToUrlDigits(body + Padding(n)) == ToUrlDigits(body) + Padding(n)
  {
    PaddingAllPad(n);
  }

  lemma PaddingLength(b: nat, n: nat)
    requires n <= 2 && (b + n) % 4 == 0
    ensures (4 - b % 4) % 4 == n
  {
  }

  /** Dropping the padding of an encoding leaves its digits in URL-safe
      form. */
  lemma {:induction false} StateOfPadded(body: string, n: nat)
    requires forall i :: 0 <= i < |body| ==> IsBase64Digit(body[i])
    ensures GenerateOAuthState(body + Padding(n)) == ToUrlDigits(body)
  {
    var mappedBody := ToUrlDigits(body);
    UrlDigitsOfPadded(body, n);
    UrlDigitsInverse(body);
    RemoveAllAppend(mappedBody, Padding(n), '=');
    PaddingAllPad(n);
    RemoveAllOnly(Padding(n), '=');
    assert forall i :: 0 <= i < |mappedBody| ==> mappedBody[i] != '=';
  }

  /** The state of a padded encoding uses only URL-safe digits. */
  lemma StateIsUrlSafe(body: string, n: nat)
    requires forall i :: 0 <= i < |body| ==> IsBase64Digit(body[i])
    ensures forall i :: 0 <= i < |GenerateOAuthState(body + Padding(n))| ==>
      IsBase64UrlDigit(GenerateOAuthState(body + Padding(n))[i])
  {
    StateOfPadded(body, n);
    UrlDigitsInverse(body);
  }

  /** The state of a padded encoding maps back to that encoding. */
  lemma StateRestores(body: string, n: nat)
    requires n <= 2 && (|body| + n) % 4 == 0
    requires forall i :: 0 <= i < |body| ==> IsBase64Digit(body[i])
    ensures ToPaddedBase64(GenerateOAuthState(body + Padding(n))) == body + Padding(n)
  {
    StateOfPadded(body, n);
    DigitsRestore(body, n);
  }

  /** Restoring the URL-safe digits of a body gives back the body, padded
      to a multiple of four. */
  lemma DigitsRestore(body: string, n: nat)
    requires n <= 2 && (|body| + n) % 4 == 0
    requires forall i :: 0 <= i < |body| ==> IsBase64Digit(body[i])
    ensures ToPaddedBase64(ToUrlDigits(body)) == body + Padding(n)
  {
    UrlDigitsInverse(body);
    var state := ToUrlDigits(body);
    PaddingLength(|body|, n);
    var back := ReplaceAll(ReplaceAll(state, '-', '+'), '_', '/');
    var pad := (4 - |state| % 4) % 4;
    assert back == body && pad == n;
    assert ToPaddedBase64(state) == back + Padding(pad);
  }

  /** The state is the URL-safe form of the encoded bytes: its digits are
      all URL-safe, and restoring the standard alphabet and the padding gives
      back exactly what `btoa` produced. */
  lemma OAuthStateRoundTrip(encoded: string)
    requires IsPaddedBase64(encoded)
    ensures forall i :: 0 <= i < |GenerateOAuthState(encoded)| ==> IsBase64UrlDigit(GenerateOAuthState(encoded)[i])
    ensures ToPaddedBase64(GenerateOAuthState(encoded)) == encoded
  {
    var body: string, n: nat :| n <= 2 && encoded == body + Padding(n) && (|body| + n) % 4 == 0
      && forall i :: 0 <= i < |body| ==> IsBase64Digit(body[i]);
    StateIsUrlSafe(body, n);
    StateRestores(body, n);
  }

  // ---------------------------------------------------------------------
  // Waiting for the OAuth callback.
  // ---------------------------------------------------------------------

  datatype OAuthEvent =
    | CodeEvent(code: string, state: string)
    | ErrorEvent(message: string)

  const STATE_MISMATCH: string := "OAuth state mismatch — possible CSRF attempt"

  /** How the first event settles the wait: a code whose state differs from
      the expected one is refused, a matching code is the result, an error
      event carries its message. */
  function WaitResult(event: OAuthEvent, expectedState: string): (r: Result<string, string>)
    ensures event.CodeEvent? && event.state != expectedState ==> r == Err(STATE_MISMATCH)
    ensures r.Ok? <==> event.CodeEvent? && event.state == expectedState
    ensures r.Ok? ==> r.value == event.code
    ensures event.ErrorEvent? ==> r == Err(event.message)
  {
    match event
    case CodeEvent(code, state) => if state != expectedState then Err(STATE_MISMATCH) else Ok(code)
    case ErrorEvent(message) => Err(message)
  }

  /** `waitForOAuthCode` once both listeners are registered: the pending
      promise and which listeners are still registered. */
  class OAuthWait {
    const expectedState: string
    var codeListening: bool
    var errorListening: bool
    var settled: Option<Result<string, string>>

    constructor(expectedState: string)
      ensures this.expectedState == expectedState
      ensures codeListening && errorListening && settled == None
    {
      this.expectedState := expectedState;
      codeListening := true;
      errorListening := true;
      settled := None;
    }

    predicate Listens(event: OAuthEvent)
      reads this
    {
      if event.CodeEvent? then codeListening else errorListening
    }

    /** An event reaches its listener only while that listener is
        registered; the listener unregisters both and settles the promise,
        which keeps the first value it was settled with. */
    method Deliver(event: OAuthEvent)
      modifies this`codeListening, this`errorListening, this`settled
      ensures old(Listens(event)) ==>
        && !codeListening && !errorListening
        && settled == (if old(settled).Some? then old(settled) else Some(WaitResult(event, expectedState)))
      ensures !old(Listens(event)) ==>
        codeListening == old(codeListening) && errorListening == old(errorListening) && settled == old(settled)
    {
      if Listens(event) {
        codeListening := false;
        errorListening := false;
        if settled.None? {
          settled := Some(WaitResult(event, expectedState));
        }
      }
    }

    /** Whatever events follow, the wait is settled by the first one and
        both listeners are gone after it. */
    method DeliverAll(events: seq<OAuthEvent>)
      requires codeListening && errorListening && settled == None
      modifies this`codeListening, this`errorListening, this`settled
      ensures events == [] ==> codeListening && errorListening && settled == None
      ensures events != [] ==>
        !codeListening && !errorListening && settled == Some(WaitResult(events[0], expectedState))
    {
      var i := 0;
      while i < |events|
        invariant 0 <= i <= |events|
        invariant i == 0 ==> codeListening && errorListening && settled == None
        invariant i > 0 ==>
          !codeListening && !errorListening && settled == Some(WaitResult(events[0], expectedState))
      {
        Deliver(events[i]);
        i := i + 1;
      }
    }
  }

  // ---------------------------------------------------------------------
  // Connecting to one server.
  // ---------------------------------------------------------------------

  /** The answers one server's connection meets, in the order the code asks
      for them: `invoke("get_api_key")` (the stored key, or its error), the
      first `createMCPClient`, the encoded random bytes of the OAuth state,
      `invoke("start_oauth_callback_server")` (the port, or its error), the
      registration of the two listeners (None when both succeed), the first
      callback event (None when none ever arrives), `auth`, and the final
      `createMCPClient`. */
  datatype ServerEnv = ServerEnv(
    storedKey: Result<Option<string>, McpError>,
    firstAttempt: Option<McpError>,
    encodedRandom: string,
    callbackServer: Result<nat, McpError>,
    listenFailure: Option<McpError>,
    firstEvent: Option<OAuthEvent>,
    authFailure: Option<McpError>,
    finalAttempt: Option<McpError>)

  function NoApiKeyMessage(serverName: string): string {
    "No API key found for MCP server \"" + serverName + "\""
  }

  /** A key-authenticated connection: a failed key lookup is its error, a
      missing or empty key is an error naming the server, and otherwise the
      key is sent as a bearer token. */
  function ConnectWithApiKey(server: McpServer, env: ServerEnv): (r: Result<Client, McpError>)
    ensures env.storedKey.Err? ==> r == Err(env.storedKey.error)
    ensures env.storedKey.Ok? && !Truthy(env.storedKey.value) ==> r == Err(Failure(NoApiKeyMessage(server.name)))
    ensures env.storedKey.Ok? && Truthy(env.storedKey.value) ==>
      r == CreateClient(server.id, Transport(server.url, Some("Bearer " + env.storedKey.value.value), None), env.firstAttempt)
  {
    match env.storedKey
    case Err(e) => Err(e)
    case Ok(key) =>
      if !Truthy(key) then Err(Failure(NoApiKeyMessage(server.name)))
      else CreateClient(server.id, Transport(server.url, Some("Bearer " + key.value), None), env.firstAttempt)
  }

  function RedirectUrl(port: nat): string {
    "http://127.0.0.1:" + Decimal(port) + "/oauth/callback"
  }

  /** The OAuth transport of a server: its URL and its own OAuth provider. */
  function OAuthTransport(server: McpServer): Transport {
    Transport(server.url, None, Some(server.id))
  }

  /** What an OAuth connection did: the state the callback server was
      started with (None when it was not started), the redirect URL given to
      the provider, the authorization code exchanged, and the result (None
      while it has not settled: with no callback event the wait has no end). */
  datatype OAuthTrace = OAuthTrace(
    callbackState: Option<string>,
    redirectUrl: Option<string>,
    exchangedCode: Option<string>,
    result: Option<Result<Client, McpError>>)

  /** `connectWithOAuth`: cached tokens first; only an unauthorized answer
      starts the callback server and the code exchange, any other error is
      the result unchanged. After a matching code, the result is `auth`'s
      error or the final client. */
  function ConnectWithOAuth(server: McpServer, env: ServerEnv): (t: OAuthTrace)
    ensures t.callbackState.Some? <==> env.firstAttempt.Some? && env.firstAttempt.value.Unauthorized?
    ensures env.firstAttempt.None? ==> t.result == Some(Ok(Client(server.id, OAuthTransport(server))))
    ensures env.firstAttempt.Some? && env.firstAttempt.value.Failure? ==> t.result == Some(Err(env.firstAttempt.value))
    ensures t.callbackState.Some? ==>
      && t.callbackState.value == GenerateOAuthState(env.encodedRandom)
      && (t.redirectUrl.Some? <==> env.callbackServer.Ok?)
      && (env.callbackServer.Ok? ==> t.redirectUrl == Some(RedirectUrl(env.callbackServer.value)))
    ensures t.callbackState.Some? && env.callbackServer.Err? ==>
      t.exchangedCode.None? && t.result == Some(Err(env.callbackServer.error))
    ensures t.callbackState.Some? && env.callbackServer.Ok? && env.listenFailure.Some? ==>
      t.exchangedCode.None? && t.result == Some(Err(env.listenFailure.value))
    ensures t.result.None? <==>
      t.callbackState.Some? && env.callbackServer.Ok? && env.listenFailure.None? && env.firstEvent.None?
    ensures t.exchangedCode.Some? ==>
      && t.callbackState.Some? && env.firstEvent.Some?
      && WaitResult(env.firstEvent.value, t.callbackState.value) == Ok(t.exchangedCode.value)
    ensures t.exchangedCode.Some? ==>
      t.result == Some(if env.authFailure.Some? then Err(env.authFailure.value)
                       else CreateClient(server.id, OAuthTransport(server), env.finalAttempt))
    ensures (t.callbackState.Some? && env.callbackServer.Ok? && env.listenFailure.None? && env.firstEvent.Some?
      && t.exchangedCode.None?) ==>
      && WaitResult(env.firstEvent.value, t.callbackState.value).Err?
      && t.result == Some(Err(Failure(WaitResult(env.firstEvent.value, t.callbackState.value).error)))
  {
    var transport := OAuthTransport(server);
    var first := CreateClient(server.id, transport, env.firstAttempt);
    if first.Ok? then OAuthTrace(None, None, None, Some(first))
    else if !first.error.Unauthorized? then OAuthTrace(None, None, None, Some(first))
    else
      var state := GenerateOAuthState(env.encodedRandom);
      match env.callbackServer
      case Err(e) => OAuthTrace(Some(state), None, None, Some(Err(e)))
      case Ok(port) =>
        var redirect := Some(RedirectUrl(port));
        if env.listenFailure.Some? then OAuthTrace(Some(state), redirect, None, Some(Err(env.listenFailure.value)))
        else if env.firstEvent.None? then OAuthTrace(Some(state), redirect, None, None)
        else
          var code := WaitResult(env.firstEvent.value, state);
          if code.Err? then OAuthTrace(Some(state), redirect, None, Some(Err(Failure(code.error))))
          else if env.authFailure.Some? then OAuthTrace(Some(state), redirect, Some(code.value), Some(Err(env.authFailure.value)))
          else OAuthTrace(Some(state), redirect, Some(code.value), Some(CreateClient(server.id, transport, env.finalAttempt)))
  }

  /** A forged callback never completes the connection: when the first event
      carries a state other than the one the callback server expects, no code
      is exchanged and the connection fails with the mismatch error. */
  lemma ForgedCallbackRejected(server: McpServer, env: ServerEnv)
    requires env.firstAttempt.Some? && env.firstAttempt.value.Unauthorized?
    requires env.callbackServer.Ok? && env.listenFailure.None?
    requires env.firstEvent.Some? && env.firstEvent.value.CodeEvent?
    requires env.firstEvent.value.state != GenerateOAuthState(env.encodedRandom)
    ensures ConnectWithOAuth(server, env).exchangedCode == None
    ensures ConnectWithOAuth(server, env).result == Some(Err(Failure(STATE_MISMATCH)))
  {
  }

  /** `connectServer`: "api_key" and "oauth" pick their connection; any
      other auth type connects without authentication. Only an OAuth
      connection whose callback never comes stays unsettled. */
  function ConnectServer(server: McpServer, env: ServerEnv): (r: Option<Result<Client, McpError>>)
    ensures server.authType == "api_key" ==> r == Some(ConnectWithApiKey(server, env))
    ensures server.authType == "oauth" ==> r == ConnectWithOAuth(server, env).result
    ensures server.authType != "api_key" && server.authType != "oauth" ==>
      r == Some(CreateClient(server.id, Transport(server.url, None, None), env.firstAttempt))
    ensures r.None? ==> server.authType == "oauth"
    ensures r.Some? && r.value.Ok? ==> r.value.value.serverId == server.id && r.value.value.transport.url == server.url
  {
    match server.authType
    case "api_key" => Some(ConnectWithApiKey(server, env))
    case "oauth" => ConnectWithOAuth(server, env).result
    case _ => Some(CreateClient(server.id, Transport(server.url, None, None), env.firstAttempt))
  }

  // ---------------------------------------------------------------------
  // Collecting the tools of every server.
  // ---------------------------------------------------------------------

  /** One server's result: its connection failed, it connected and its
      `tools()` call fulfilled or failed, or its connection never settled. */
  datatype ServerOutcome =
    | ConnectFailed(error: McpError)
    | Connected(client: Client, tools: Result<ToolSet, string>)
    | Unsettled
  {
    predicate Fulfilled() {
      Connected? && tools.Ok?
    }
  }

  function Outcome(server: McpServer, env: ServerEnv, toolsResult: Result<ToolSet, string>): ServerOutcome {
    match ConnectServer(server, env)
    case None => Unsettled
    case Some(c) => if c.Err? then ConnectFailed(c.error) else Connected(c.value, toolsResult)
  }

  /** Each server's outcome, in server order. */
  function Outcomes(servers: seq<McpServer>, envs: seq<ServerEnv>, toolResults: seq<Result<ToolSet, string>>): (r: seq<ServerOutcome>)
    requires |envs| == |servers| && |toolResults| == |servers|
    ensures |r| == |servers|
    ensures forall i :: 0 <= i < |servers| ==> r[i] == Outcome(servers[i], envs[i], toolResults[i])
  {
    seq(|servers|, i requires 0 <= i < |servers| => Outcome(servers[i], envs[i], toolResults[i]))
  }

  /** Some server's connection never settles, so neither does
      `Promise.allSettled`. */
  predicate AnyUnsettled(outcomes: seq<ServerOutcome>) {
    exists i :: 0 <= i < |outcomes| && outcomes[i].Unsettled?
  }

  /** The fulfilled tool sets merged in server order, later ones overriding
      earlier ones on a name clash (`Object.assign`). */
  function MergeFulfilled(outcomes: seq<ServerOutcome>): ToolSet {
    if outcomes == [] then map[]
    else
      var last := outcomes[|outcomes| - 1];
      MergeFulfilled(outcomes[..|outcomes| - 1]) + (if last.Fulfilled() then last.tools.value else map[])
  }

  /** The clients that connected, in server order. */
  function ConnectedClients(outcomes: seq<ServerOutcome>): seq<Client> {
    if outcomes == [] then []
    else
      var last := outcomes[|outcomes| - 1];
      ConnectedClients(outcomes[..|outcomes| - 1]) + (if last.Connected? then [last.client] else [])
  }

  function FailureWarning(serverName: string): string {
    "Failed to connect to MCP server \"" + serverName + "\""
  }

  /** The warnings for the servers whose result was rejected, in server
      order. */
  function Warnings(servers: seq<McpServer>, outcomes: seq<ServerOutcome>): seq<string>
    requires |servers| == |outcomes|
  {
    if outcomes == [] then []
    else
      var n := |outcomes| - 1;
      Warnings(servers[..n], outcomes[..n]) + (if outcomes[n].Fulfilled() then [] else [FailureWarning(servers[n].name)])
  }

  /** A name is in the merged set exactly when some fulfilled server
      offered it. */
  lemma {:induction false} MergeHasName(outcomes: seq<ServerOutcome>, name: string)
    ensures name in MergeFulfilled(outcomes) <==>
      exists j :: 0 <= j < |outcomes| && outcomes[j].Fulfilled() && name in outcomes[j].tools.value
  {
    if outcomes != [] {
      var n := |outcomes| - 1;
      var front := outcomes[..n];
      MergeHasName(front, name);
      if exists j :: 0 <= j < |outcomes| && outcomes[j].Fulfilled() && name in outcomes[j].tools.value {
        var j :| 0 <= j < |outcomes| && outcomes[j].Fulfilled() && name in outcomes[j].tools.value;
        if j < n {
          assert front[j] == outcomes[j];
        }
      }
    }
  }

  /** A merged name maps to the tool of the last fulfilled server that
      offered it. */
  lemma {:induction false} MergeLastWins(outcomes: seq<ServerOutcome>, name: string, j: nat)
    requires j < |outcomes| && outcomes[j].Fulfilled() && name in outcomes[j].tools.value
    requires forall l :: j < l < |outcomes| && outcomes[l].Fulfilled() ==> name !in outcomes[l].tools.value
    ensures name in MergeFulfilled(outcomes) && MergeFulfilled(outcomes)[name] == outcomes[j].tools.value[name]
  {
    var n := |outcomes| - 1;
    var front := outcomes[..n];
    if j < n {
      forall l | j < l < |front| && front[l].Fulfilled() ensures name !in front[l].tools.value {
        assert front[l] == outcomes[l];
      }
      assert front[j] == outcomes[j];
      MergeLastWins(front, name, j);
    }
  }

  /** Failed servers neither add tools nor stop the others: dropping every
      unfulfilled result leaves the merge unchanged. */
  lemma {:induction false} MergeIgnoresFailures(outcomes: seq<ServerOutcome>, failed: ServerOutcome)
    requires !failed.Fulfilled()
    ensures MergeFulfilled(outcomes + [failed]) == MergeFulfilled(outcomes)
  {
    assert (outcomes + [failed])[..|outcomes|] == outcomes;
  }

  /** Every server that connected is in the client list, including one whose
      `tools()` call then failed. */
  lemma {:induction false} ConnectedClientsComplete(outcomes: seq<ServerOutcome>)
    ensures forall i :: 0 <= i < |outcomes| && outcomes[i].Connected? ==> outcomes[i].client in ConnectedClients(outcomes)
    ensures forall c :: c in ConnectedClients(outcomes) ==>
      exists i :: 0 <= i < |outcomes| && outcomes[i].Connected? && outcomes[i].client == c
  {
    if outcomes != [] {
      var n := |outcomes| - 1;
      ConnectedClientsComplete(outcomes[..n]);
      forall i | 0 <= i < n ensures outcomes[..n][i] == outcomes[i] {
      }
    }
  }

  /** The merged tools and the cleanup of `getActiveTools`: the clients it
      closes and the record of the closes it has requested. */
  class McpToolsResult {
    const tools: ToolSet
    const clients: seq<Client>
    var closeRequests: seq<Client>

    constructor(tools: ToolSet, clients: seq<Client>)
      ensures this.tools == tools && this.clients == clients && closeRequests == []
    {
      this.tools := tools;
      this.clients := clients;
      closeRequests := [];
    }

    /** `cleanup`: every client is closed; a close that fails does not stop
        the others. */
    method Cleanup()
      modifies this`closeRequests
      ensures closeRequests == old(closeRequests) + clients
    {
      var i := 0;
      while i < |clients|
        invariant 0 <= i <= |clients|
        invariant closeRequests == old(closeRequests) + clients[..i]
      {
        closeRequests := closeRequests + [clients[i]];
        i := i + 1;
      }
    }
  }

  /** What one more server adds to the merge, the clients and the
      warnings. */
  lemma CollectStep(servers: seq<McpServer>, outcomes: seq<ServerOutcome>, i: nat)
    requires |servers| == |outcomes| && i < |outcomes|
    ensures MergeFulfilled(outcomes[..i + 1])
      == MergeFulfilled(outcomes[..i]) + (if outcomes[i].Fulfilled() then outcomes[i].tools.value else map[])
    ensures ConnectedClients(outcomes[..i + 1])
      == ConnectedClients(outcomes[..i]) + (if outcomes[i].Connected? then [outcomes[i].client] else [])
    ensures AnyUnsettled(outcomes[..i + 1]) <==> AnyUnsettled(outcomes[..i]) || outcomes[i].Unsettled?
    ensures Warnings(servers[..i + 1], outcomes[..i + 1])
      == Warnings(servers[..i], outcomes[..i]) + (if outcomes[i].Fulfilled() then [] else [FailureWarning(servers[i].name)])
  {
    assert outcomes[..i + 1][..i] == outcomes[..i];
    assert servers[..i + 1][..i] == servers[..i];
    assert outcomes[..i + 1][i] == outcomes[i];
    if AnyUnsettled(outcomes[..i + 1]) {
      var j :| 0 <= j <= i && outcomes[..i + 1][j].Unsettled?;
      if j < i {
        assert outcomes[..i][j] == outcomes[j];
      }
    }
    if AnyUnsettled(outcomes[..i]) {
      var j :| 0 <= j < i && outcomes[..i][j].Unsettled?;
      assert outcomes[..i + 1][j] == outcomes[j];
    }
  }

  /** `getActiveTools` over the listed servers, the answers each one's
      connection meets and each connected server's `tools()` result. When
      one connection never settles, `getActiveTools` never returns (None)
      and warns about nothing. */
  method GetActiveTools(servers: seq<McpServer>, envs: seq<ServerEnv>, toolResults: seq<Result<ToolSet, string>>)
    returns (result: Option<McpToolsResult>, warnings: seq<string>)
    requires |envs| == |servers| && |toolResults| == |servers|
    ensures result.Some? ==> fresh(result.value) && result.value.closeRequests == []
    ensures servers == [] ==> result.Some? && result.value.tools == map[] && result.value.clients == []
    ensures var outcomes := Outcomes(servers, envs, toolResults);
      && (result.None? <==> AnyUnsettled(outcomes))
      && (result.None? ==> warnings == [])
      && (result.Some? ==>
        && result.value.tools == MergeFulfilled(outcomes)
        && result.value.clients == ConnectedClients(outcomes)
        && warnings == Warnings(servers, outcomes))
  {
    ghost var outcomes := Outcomes(servers, envs, toolResults);
    if |servers| == 0 {
      var r := new McpToolsResult(map[], []);
      result := Some(r);
      warnings := [];
      assert outcomes == [];
      return;
    }
    var clients: seq<Client> := [];
    var tools: ToolSet := map[];
    var unsettled := false;
    warnings := [];
    var i := 0;
    while i < |servers|
      invariant 0 <= i <= |servers|
      invariant unsettled <==> AnyUnsettled(outcomes[..i])
      invariant tools == MergeFulfilled(outcomes[..i])
      invariant clients == ConnectedClients(outcomes[..i])
      invariant warnings == Warnings(servers[..i], outcomes[..i])
    {
      var outcome := Outcome(servers[i], envs[i], toolResults[i]);
      CollectStep(servers, outcomes, i);
      if outcome.Unsettled? {
        unsettled := true;
      }
      if outcome.Connected? {
        clients := clients + [outcome.client];
      }
      if outcome.Fulfilled() {
        tools := tools + outcome.tools.value;
      } else {
        warnings := warnings + [FailureWarning(servers[i].name)];
      }
      i := i + 1;
    }
    assert outcomes[..i] == outcomes;
    assert servers[..i] == servers;
    if unsettled {
      result := None;
      warnings := [];
      return;
    }
    var r := new McpToolsResult(tools, clients);
    result := Some(r);
  }
}
