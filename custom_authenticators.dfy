/** The token-refresh step of the Klaviyo OAuth2 authenticators and the
    exponential-backoff retry wrapped around it. Both authenticator classes of
    the connector carry the same refresh body; it is modelled once.

    The HTTP exchange is an input: either a transport failure without a
    response, or a response with a status code and a parsed JSON body. The
    process-wide secret registry and the log sink are the fields of a
    `Runtime` object that the refresh attempt updates. */
module CustomAuthenticators {
  import opened Values

  /** HTTP status codes are three-digit numbers (section 15 of RFC 9110). */
  type StatusCode = s: int | 100 <= s <= 599 witness 200

  /** `max_time` of the retry decorator. */
  const MaxTime: nat := 300

  const ConfigErrorMessage: string :=
    "Refresh token is invalid or expired. Please re-authenticate from Sources/<your source>/Settings."

  /** Not an f-string in the source: the braces stay in the text. */
  const MissingTokenMessage: string :=
    "Token refresh API response was missing access token {self.get_access_token_name()}"

  const RefreshErrorPrefix: string := "Error while refreshing access token: "

  datatype BasicAuth = BasicAuth(username: Json, password: Json)

  datatype Request = Request(httpMethod: string, url: string, data: Json, auth: BasicAuth)

  /** A response keeps the request that produced it (`response.request`). */
  datatype Response = Response(request: Request, status: StatusCode, body: Json)

  /** What `requests.request` produced: an exception without a response, or a response. */
  datatype Exchange =
    | TransportFailure(reason: string)
    | Received(status: StatusCode, body: Json)

  /** The `RequestException` seen by the handler: an `HTTPError` raised by
      `raise_for_status` (with its response) or a transport error (without one). */
  datatype RequestError =
    | HttpError(response: Response)
    | ConnectionError(reason: string)

  /** The exceptions raised inside the `try` that the generic handler wraps. */
  datatype Cause =
    | MissingAccessToken
    | NoAttributeGet(typeName: string)

  /** How one refresh attempt ends. */
  datatype Outcome =
    | Success(body: Json)                                 // returns the parsed body
    | Retryable(request: Request, response: Response)     // DefaultBackoffException
    | ConfigError(internalMessage: string, message: string) // AirbyteTracedException, config_error
    | Reraised(error: RequestError)                       // bare `raise`
    | Wrapped(message: string, cause: Cause)              // Exception(...) from the cause

  /** What the attempt and the retry loop record, in order. */
  datatype Event =
    | AddSecret(secret: Json)
    | LogResponse(response: Response)
    | LogBackoff(tries: nat, wait: nat)

  /** The authenticator's configuration. The request body builder and the
      refresh-token exception predicate belong to the framework's base class
      and are parameters here. */
  datatype Authenticator = Authenticator(
    tokenRefreshEndpoint: string,
    clientId: Json,
    clientSecret: Json,
    refreshToken: Json,
    accessTokenName: string,
    buildRefreshRequestBody: (Json, Json, Json) -> Json,
    wrapRefreshTokenException: RequestError -> bool)

  /** What the clock and the backoff generator supply for call k of the
      decorated function: the time the call takes, and the (jittered) wait
      proposed after it failed, both in whole time units. */
  datatype RoundTime = RoundTime(duration: nat, wait: nat)

  /** Time passes: a call and the wait proposed after it together take at
      least one unit, so each round of the decorator uses up budget. */
  type Round = r: RoundTime | 1 <= r.duration + r.wait witness RoundTime(0, 1)

  datatype Timing = Timing(round: nat -> Round)

  /** What the network and the clock supply to the retry loop: the exchange
      of attempt k, and the timing. */
  datatype Environment = Environment(exchange: nat -> Exchange, timing: Timing)

  // ---------------------------------------------------------------------
  // The decision table of one attempt

  /** The POST to the token endpoint, with Basic auth over the client credentials. */
  function RefreshRequest(a: Authenticator): Request {
    Request("POST", a.tokenRefreshEndpoint,
            a.buildRefreshRequestBody(a.clientId, a.clientSecret, a.refreshToken),
            BasicAuth(a.clientId, a.clientSecret))
  }

  /** `response.ok`: no client or server error status. */
  predicate ResponseOk(status: StatusCode) {
    status < 400
  }

  /** `response_json.get(name)` followed by `if not access_key`. */
  function ReadAccessToken(name: string, body: Json): (r: Result<Json, Cause>)
    ensures r.Ok? ==> Truthy(r.value)
    ensures r.Ok? <==> body.JDict? && name in body.fields && Truthy(body.fields[name])
  {
    match body
    case JDict(fields) =>
      var token := DictGet(fields, name);
      if Truthy(token) then Ok(token) else Err(MissingAccessToken)
    case _ => Err(NoAttributeGet(TypeName(body)))
  }

  /** `str(e)` of the exception raised inside the `try`. */
  function CauseText(c: Cause): string {
    match c
    case MissingAccessToken => MissingTokenMessage
    case NoAttributeGet(t) => "'" + t + "' object has no attribute 'get'"
  }

  /** The `except RequestException` handler. */
  function ClassifyRequestError(a: Authenticator, e: RequestError): Outcome {
    if e.HttpError? && (e.response.status == 429 || e.response.status >= 500) then
      Retryable(e.response.request, e.response)
    else if a.wrapRefreshTokenException(e) then
      ConfigError(ConfigErrorMessage, ConfigErrorMessage)
    else
      Reraised(e)
  }

  /** The request exception a non-success exchange raises. */
  function RequestErrorOf(a: Authenticator, x: Exchange): RequestError {
    match x
    case TransportFailure(reason) => ConnectionError(reason)
    case Received(status, body) => HttpError(Response(RefreshRequest(a), status, body))
  }

  /** The outcome of one attempt. */
  function Classify(a: Authenticator, x: Exchange): Outcome {
    match x
    case TransportFailure(_) => ClassifyRequestError(a, RequestErrorOf(a, x))
    case Received(status, body) =>
      if ResponseOk(status) then
        match ReadAccessToken(a.accessTokenName, body)
        case Ok(_) => Success(body)
        case Err(cause) => Wrapped(RefreshErrorPrefix + CauseText(cause), cause)
      else
        ClassifyRequestError(a, RequestErrorOf(a, x))
  }

  /** The events one attempt records. */
  function Emitted(a: Authenticator, x: Exchange): seq<Event> {
    match x
    case TransportFailure(_) => []
    case Received(status, body) =>
      var response := Response(RefreshRequest(a), status, body);
      if ResponseOk(status) then
        match ReadAccessToken(a.accessTokenName, body)
        case Ok(token) => [AddSecret(token), LogResponse(response)]
        case Err(_) => []
      else
        [LogResponse(response)]
  }

  /** The values a sequence of events adds to the secret registry. */
  function Added(events: seq<Event>): set<Json> {
    if events == [] then {}
    else (if events[0].AddSecret? then {events[0].secret} else {}) + Added(events[1..])
  }

  /** Total time the retry loop slept, according to its backoff events. */
  function TotalWait(events: seq<Event>): nat {
    if events == [] then 0
    else (if events[0].LogBackoff? then events[0].wait else 0) + TotalWait(events[1..])
  }

  /** Every successful response is logged only after its access token was
      added to the registry. */
  ghost predicate TokensMaskedBeforeLogging(name: string, events: seq<Event>) {
    forall i :: 0 <= i < |events| && events[i].LogResponse? ==>
      var resp := events[i].response;
      ResponseOk(resp.status) && ReadAccessToken(name, resp.body).Ok? ==>
        AddSecret(ReadAccessToken(name, resp.body).value) in events[..i]
  }

  // ---------------------------------------------------------------------
  // Properties of one attempt

  /** A successful response with a truthy token returns the whole body,
      registers exactly that token, and registers it before logging. */
  lemma SuccessReturnsBodyAndRegistersToken(a: Authenticator, x: Exchange)
    ensures Classify(a, x).Success? <==>
              x.Received? && ResponseOk(x.status) && ReadAccessToken(a.accessTokenName, x.body).Ok?
    ensures Classify(a, x).Success? ==>
              var token := x.body.fields[a.accessTokenName];
              && Classify(a, x).body == x.body
              && Emitted(a, x) == [AddSecret(token), LogResponse(Response(RefreshRequest(a), x.status, x.body))]
              && Added(Emitted(a, x)) == {token}
  {
    AddedByAttempt(a, x);
  }

  /** A successful response without a truthy token (or whose body is not an
      object) is wrapped; nothing is registered and nothing is logged. */
  lemma MissingTokenIsWrapped(a: Authenticator, x: Exchange)
    requires x.Received? && ResponseOk(x.status)
    requires ReadAccessToken(a.accessTokenName, x.body).Err?
    ensures Classify(a, x).Wrapped?
    ensures Classify(a, x).message[..|RefreshErrorPrefix|] == RefreshErrorPrefix
    ensures x.body.JDict? ==>
              Classify(a, x) == Wrapped(RefreshErrorPrefix + MissingTokenMessage, MissingAccessToken)
    ensures Emitted(a, x) == [] && Added(Emitted(a, x)) == {}
  {
  }

  /** Status 429 or at least 500 is exactly the retryable case; the response
      carries its request and is logged exactly once; nothing is registered. */
  lemma RetryableExactlyOnThrottleOrServerError(a: Authenticator, x: Exchange)
    ensures Classify(a, x).Retryable? <==> x.Received? && (x.status == 429 || x.status >= 500)
    ensures Classify(a, x).Retryable? ==>
              var response := Response(RefreshRequest(a), x.status, x.body);
              && Classify(a, x) == Retryable(RefreshRequest(a), response)
              && Emitted(a, x) == [LogResponse(response)]
              && Added(Emitted(a, x)) == {}
  {
    AddedByAttempt(a, x);
  }

  /** A transport failure is never retried and records nothing. */
  lemma TransportFailureNeverRetryable(a: Authenticator, x: Exchange)
    requires x.TransportFailure?
    ensures !Classify(a, x).Retryable?
    ensures Classify(a, x) in {ConfigError(ConfigErrorMessage, ConfigErrorMessage), Reraised(ConnectionError(x.reason))}
    ensures Emitted(a, x) == []
  {
  }

  /** A client error other than 429, or a transport failure, becomes a
      configuration error exactly when the framework's predicate holds, and is
      re-raised unchanged otherwise. */
  lemma ClientErrorsAreConfigErrorsOrReraised(a: Authenticator, x: Exchange)
    requires x.TransportFailure? || (400 <= x.status < 500 && x.status != 429)
    ensures Classify(a, x).ConfigError? <==> a.wrapRefreshTokenException(RequestErrorOf(a, x))
    ensures Classify(a, x).ConfigError? ==>
              Classify(a, x).internalMessage == Classify(a, x).message == ConfigErrorMessage
    ensures !Classify(a, x).ConfigError? ==> Classify(a, x) == Reraised(RequestErrorOf(a, x))
    ensures x.Received? ==> Emitted(a, x) == [LogResponse(RequestErrorOf(a, x).response)]
  {
  }

  /** The configuration-error message is one constant whatever the credentials. */
  lemma ConfigErrorIndependentOfCredentials(a: Authenticator, b: Authenticator, x: Exchange, y: Exchange)
    requires Classify(a, x).ConfigError? && Classify(b, y).ConfigError?
    ensures Classify(a, x) == Classify(b, y)
  {
  }

  /** Only a successful attempt touches the registry, and then only with the
      token of its response. */
  lemma OnlySuccessRegisters(a: Authenticator, x: Exchange)
    ensures Added(Emitted(a, x)) != {} <==> Classify(a, x).Success?
    ensures forall v :: v in Added(Emitted(a, x)) ==>
              x.Received? && v == ReadAccessToken(a.accessTokenName, x.body).value
  {
    AddedByAttempt(a, x);
  }

  /** The attempt's request is the POST to the configured endpoint with
      Basic auth over the client credentials, and it is the request a
      retryable outcome or a re-raised HTTP error carries (a re-raised
      transport failure carries none). */
  lemma RequestIsBasicAuthPost(a: Authenticator, x: Exchange)
    ensures RefreshRequest(a).httpMethod == "POST"
    ensures RefreshRequest(a).url == a.tokenRefreshEndpoint
    ensures RefreshRequest(a).auth == BasicAuth(a.clientId, a.clientSecret)
    ensures RefreshRequest(a).data == a.buildRefreshRequestBody(a.clientId, a.clientSecret, a.refreshToken)
    ensures Classify(a, x).Retryable? ==> Classify(a, x).request == Classify(a, x).response.request == RefreshRequest(a)
    ensures Classify(a, x).Reraised? && Classify(a, x).error.HttpError? ==>
              Classify(a, x).error.response.request == RefreshRequest(a)
  {
  }

  lemma {:induction false} AddedConcat(u: seq<Event>, v: seq<Event>)
    ensures Added(u + v) == Added(u) + Added(v)
  {
    if u != [] {
      assert (u + v)[1..] == u[1..] + v;
      AddedConcat(u[1..], v);
    } else {
      assert u + v == v;
    }
  }

  lemma AddedSingle(e: Event)
    ensures Added([e]) == if e.AddSecret? then {e.secret} else {}
  {
  }

  lemma AddedPair(e0: Event, e1: Event)
    ensures Added([e0, e1]) == Added([e0]) + Added([e1])
  {
  }

  /** What one attempt adds to the registry. */
  lemma AddedByAttempt(a: Authenticator, x: Exchange)
    ensures Added(Emitted(a, x)) ==
            if Classify(a, x).Success? then {ReadAccessToken(a.accessTokenName, x.body).value} else {}
  {
    var ev := Emitted(a, x);
    if |ev| == 2 {
      AddedPair(ev[0], ev[1]);
      AddedSingle(ev[0]);
      AddedSingle(ev[1]);
    } else if |ev| == 1 {
      AddedSingle(ev[0]);
    }
  }

  /** A value is added exactly when some event adds it. */
  lemma {:induction false} AddedMembers(events: seq<Event>, s: Json)
    ensures s in Added(events) <==> AddSecret(s) in events
  {
    if events != [] {
      AddedMembers(events[1..], s);
      assert events == [events[0]] + events[1..];
    }
  }

  lemma SeqAssoc(u: seq<Event>, v: seq<Event>, w: seq<Event>)
    ensures u + (v + w) == (u + v) + w
  {
  }

  lemma {:induction false} TotalWaitConcat(u: seq<Event>, v: seq<Event>)
    ensures TotalWait(u + v) == TotalWait(u) + TotalWait(v)
  {
    if u != [] {
      assert (u + v)[1..] == u[1..] + v;
      TotalWaitConcat(u[1..], v);
    } else {
      assert u + v == v;
    }
  }

  lemma TotalWaitSingle(e: Event)
    ensures TotalWait([e]) == if e.LogBackoff? then e.wait else 0
  {
  }

  /** An attempt records no backoff event, so no wait. */
  lemma EmittedRecordsNoBackoff(a: Authenticator, x: Exchange)
    ensures forall i :: 0 <= i < |Emitted(a, x)| ==> !Emitted(a, x)[i].LogBackoff?
    ensures TotalWait(Emitted(a, x)) == 0
  {
    var ev := Emitted(a, x);
    if |ev| == 2 {
      assert ev[1..] == [ev[1]];
      TotalWaitSingle(ev[1]);
    } else if |ev| == 1 {
      TotalWaitSingle(ev[0]);
    }
  }

  /** The ordering invariant holds of each attempt's events. */
  lemma AttemptMasksBeforeLogging(a: Authenticator, x: Exchange)
    ensures TokensMaskedBeforeLogging(a.accessTokenName, Emitted(a, x))
  {
    var ev := Emitted(a, x);
    if x.Received? && ResponseOk(x.status) && ReadAccessToken(a.accessTokenName, x.body).Ok? {
      assert ev[..1] == [ev[0]];
    }
  }

  /** The ordering invariant survives appending further events. */
  lemma MaskingConcat(name: string, u: seq<Event>, v: seq<Event>)
    requires TokensMaskedBeforeLogging(name, u)
    requires TokensMaskedBeforeLogging(name, v)
    ensures TokensMaskedBeforeLogging(name, u + v)
  {
    var w := u + v;
    forall i | 0 <= i < |w| && w[i].LogResponse?
      ensures var resp := w[i].response;
              ResponseOk(resp.status) && ReadAccessToken(name, resp.body).Ok? ==>
                AddSecret(ReadAccessToken(name, resp.body).value) in w[..i]
    {
      if i < |u| {
        assert w[i] == u[i];
        assert w[..i] == u[..i];
      } else {
        assert w[i] == v[i - |u|];
        assert w[..i] == u + v[..i - |u|];
      }
    }
  }

  /** A backoff event between two runs of events keeps the ordering invariant. */
  lemma MaskingAroundBackoff(name: string, u: seq<Event>, tries: nat, wait: nat, v: seq<Event>)
    requires TokensMaskedBeforeLogging(name, u)
    requires TokensMaskedBeforeLogging(name, v)
    ensures TokensMaskedBeforeLogging(name, u + [LogBackoff(tries, wait)] + v)
  {
    MaskingConcat(name, u, [LogBackoff(tries, wait)]);
    MaskingConcat(name, u + [LogBackoff(tries, wait)], v);
  }

  // ---------------------------------------------------------------------
  // The retry policy

  /** `_next_wait`: the proposed wait, but no longer than the time left. */
  function CappedWait(proposed: nat, elapsed: nat): (seconds: nat)
    requires elapsed < MaxTime
    ensures seconds <= proposed
    ensures elapsed + seconds <= MaxTime
    ensures seconds == proposed || elapsed + seconds == MaxTime
  {
    if proposed < MaxTime - elapsed then proposed else MaxTime - elapsed
  }

  /** What one call of the decorated function produced. */
  datatype Attempt = Attempt(outcome: Outcome, events: seq<Event>)

  /** The end of a retry run: the outcome that escapes, how many attempts
      were made, the elapsed time measured before the last attempt, and the
      events recorded. */
  datatype RetryResult = RetryResult(outcome: Outcome, tries: nat, elapsed: nat, events: seq<Event>)

  function BudgetLeft(elapsed: nat): nat {
    if elapsed < MaxTime then MaxTime - elapsed else 0
  }

  /** The elapsed time measured before the next call: this call's duration
      and the capped sleep after it. Each round uses up budget. */
  function NextElapsed(timing: Timing, k: nat, elapsed: nat): (next: nat)
    requires elapsed < MaxTime
    ensures elapsed < next
  {
    elapsed + timing.round(k).duration + CappedWait(timing.round(k).wait, elapsed)
  }

  /** The backoff decorator around a function whose k-th call produces
      `attempts(k)`, from call k on, with `elapsed` time already used: it
      retries only a retryable outcome, and only while the elapsed time
      measured before the call is below the budget. */
  function OnException(attempts: nat -> Attempt, timing: Timing, k: nat, elapsed: nat): RetryResult
    decreases BudgetLeft(elapsed)
  {
    var attempt := attempts(k);
    if !attempt.outcome.Retryable? || elapsed >= MaxTime then
      RetryResult(attempt.outcome, k + 1, elapsed, attempt.events)
    else
      var seconds := CappedWait(timing.round(k).wait, elapsed);
      var rest := OnException(attempts, timing, k + 1, NextElapsed(timing, k, elapsed));
      RetryResult(rest.outcome, rest.tries, rest.elapsed,
                  attempt.events + [LogBackoff(k + 1, seconds)] + rest.events)
  }

  /** The refresh attempts the exchanges of the environment produce. */
  function Attempts(a: Authenticator, env: Environment): nat -> Attempt {
    (k: nat) => Attempt(Classify(a, env.exchange(k)), Emitted(a, env.exchange(k)))
  }

  /** The decorated refresh, started afresh. */
  function Refresh(a: Authenticator, env: Environment): RetryResult {
    OnException(Attempts(a, env), env.timing, 0, 0)
  }

  /** The last call of a run. */
  lemma OnExceptionStops(attempts: nat -> Attempt, timing: Timing, k: nat, elapsed: nat)
    requires !attempts(k).outcome.Retryable? || elapsed >= MaxTime
    ensures OnException(attempts, timing, k, elapsed) ==
            RetryResult(attempts(k).outcome, k + 1, elapsed, attempts(k).events)
  {
  }

  /** One retry step: a retryable call below the budget is followed by a
      backoff event and the rest of the run. */
  lemma OnExceptionUnfolds(attempts: nat -> Attempt, timing: Timing, k: nat, elapsed: nat)
    requires attempts(k).outcome.Retryable? && elapsed < MaxTime
    ensures var seconds := CappedWait(timing.round(k).wait, elapsed);
            var r := OnException(attempts, timing, k, elapsed);
            var next := OnException(attempts, timing, k + 1, NextElapsed(timing, k, elapsed));
            && r.outcome == next.outcome
            && r.tries == next.tries
            && r.events == attempts(k).events + [LogBackoff(k + 1, seconds)] + next.events
            && Added(r.events) == Added(attempts(k).events) + Added(next.events)
  {
    var seconds := CappedWait(timing.round(k).wait, elapsed);
    var next := OnException(attempts, timing, k + 1, NextElapsed(timing, k, elapsed));
    AddedConcat(attempts(k).events, [LogBackoff(k + 1, seconds)]);
    AddedConcat(attempts(k).events + [LogBackoff(k + 1, seconds)], next.events);
    assert Added([LogBackoff(k + 1, seconds)]) == {};
  }

  /** The run ends on the first call that is not retryable, or on a
      retryable one once the budget is used up: every earlier call was
      retryable, and the outcome that escapes is that of the last call. */
  lemma {:induction false} OnExceptionStopsAtFirstTerminal(attempts: nat -> Attempt, timing: Timing, k: nat, elapsed: nat)
    ensures var r := OnException(attempts, timing, k, elapsed);
            && k < r.tries
            && elapsed <= r.elapsed
            && r.outcome == attempts(r.tries - 1).outcome
            && (r.outcome.Retryable? ==> r.elapsed >= MaxTime)
            && (forall j :: k <= j < r.tries - 1 ==> attempts(j).outcome.Retryable?)
    decreases BudgetLeft(elapsed)
  {
    if attempts(k).outcome.Retryable? && elapsed < MaxTime {
      OnExceptionStopsAtFirstTerminal(attempts, timing, k + 1,
                                      NextElapsed(timing, k, elapsed));
    }
  }

  /** The sleeps of a run never add up to more than the budget left. */
  lemma {:induction false} OnExceptionSleepsWithinBudget(attempts: nat -> Attempt, timing: Timing, k: nat, elapsed: nat)
    requires forall j :: TotalWait(attempts(j).events) == 0
    ensures TotalWait(OnException(attempts, timing, k, elapsed).events) <= BudgetLeft(elapsed)
    decreases BudgetLeft(elapsed)
  {
    if attempts(k).outcome.Retryable? && elapsed < MaxTime {
      var seconds := CappedWait(timing.round(k).wait, elapsed);
      var next := NextElapsed(timing, k, elapsed);
      OnExceptionSleepsWithinBudget(attempts, timing, k + 1, next);
      TotalWaitConcat(attempts(k).events, [LogBackoff(k + 1, seconds)]);
      TotalWaitConcat(attempts(k).events + [LogBackoff(k + 1, seconds)], OnException(attempts, timing, k + 1, next).events);
      assert TotalWait([LogBackoff(k + 1, seconds)]) == seconds;
    }
  }

  /** Each retry uses at least one time unit, so a run makes at most one
      retry per unit of budget left. */
  lemma {:induction false} OnExceptionAttemptsBounded(attempts: nat -> Attempt, timing: Timing, k: nat, elapsed: nat)
    ensures OnException(attempts, timing, k, elapsed).tries <= k + 1 + BudgetLeft(elapsed)
    decreases BudgetLeft(elapsed)
  {
    if attempts(k).outcome.Retryable? && elapsed < MaxTime {
      OnExceptionAttemptsBounded(attempts, timing, k + 1,
                                 NextElapsed(timing, k, elapsed));
    }
  }

  /** When retryable calls register nothing, only the last call of a run can. */
  lemma {:induction false} OnExceptionRegistersOnlyLast(attempts: nat -> Attempt, timing: Timing, k: nat, elapsed: nat)
    requires forall j :: attempts(j).outcome.Retryable? ==> Added(attempts(j).events) == {}
    ensures var r := OnException(attempts, timing, k, elapsed);
            k < r.tries && Added(r.events) == Added(attempts(r.tries - 1).events)
    decreases BudgetLeft(elapsed)
  {
    var r := OnException(attempts, timing, k, elapsed);
    if attempts(k).outcome.Retryable? && elapsed < MaxTime {
      var n := OnException(attempts, timing, k + 1, NextElapsed(timing, k, elapsed));
      OnExceptionUnfolds(attempts, timing, k, elapsed);
      OnExceptionRegistersOnlyLast(attempts, timing, k + 1, NextElapsed(timing, k, elapsed));
      calc {
        Added(r.events);
        Added(attempts(k).events) + Added(n.events);
        { assert Added(attempts(k).events) == {}; }
        Added(n.events);
        Added(attempts(n.tries - 1).events);
      }
    } else {
      OnExceptionStops(attempts, timing, k, elapsed);
    }
  }

  /** When each call keeps the ordering invariant, the whole run does. */
  lemma {:induction false} OnExceptionMasksBeforeLogging(name: string, attempts: nat -> Attempt, timing: Timing, k: nat, elapsed: nat)
    requires forall j :: TokensMaskedBeforeLogging(name, attempts(j).events)
    ensures TokensMaskedBeforeLogging(name, OnException(attempts, timing, k, elapsed).events)
    decreases BudgetLeft(elapsed)
  {
    if attempts(k).outcome.Retryable? && elapsed < MaxTime {
      var seconds := CappedWait(timing.round(k).wait, elapsed);
      var n := OnException(attempts, timing, k + 1, NextElapsed(timing, k, elapsed));
      var events := attempts(k).events + [LogBackoff(k + 1, seconds)] + n.events;
      OnExceptionUnfolds(attempts, timing, k, elapsed);
      OnExceptionMasksBeforeLogging(name, attempts, timing, k + 1, NextElapsed(timing, k, elapsed));
      MaskingAroundBackoff(name, attempts(k).events, k + 1, seconds, n.events);
      assert OnException(attempts, timing, k, elapsed).events == events;
    } else {
      OnExceptionStops(attempts, timing, k, elapsed);
    }
  }

  // Properties of the decorated refresh

  /** Only a retryable refresh is repeated: the refresh ends with the outcome
      of its last attempt, every earlier attempt was retryable, and a
      retryable outcome escapes only once the budget is used up. At most 301
      attempts are made. */
  lemma RefreshRetriesOnlyRetryable(a: Authenticator, env: Environment)
    ensures var r := Refresh(a, env);
            && 1 <= r.tries <= MaxTime + 1
            && r.outcome == Classify(a, env.exchange(r.tries - 1))
            && (r.outcome.Retryable? ==> r.elapsed >= MaxTime)
            && (forall j :: 0 <= j < r.tries - 1 ==> Classify(a, env.exchange(j)).Retryable?)
  {
    var attempts := Attempts(a, env);
    OnExceptionStopsAtFirstTerminal(attempts, env.timing, 0, 0);
    OnExceptionAttemptsBounded(attempts, env.timing, 0, 0);
    var r := Refresh(a, env);
    assert attempts(r.tries - 1).outcome == Classify(a, env.exchange(r.tries - 1));
    forall j | 0 <= j < r.tries - 1 ensures Classify(a, env.exchange(j)).Retryable? {
      assert attempts(j).outcome.Retryable?;
    }
  }

  /** A first attempt that is not retryable ends the refresh at once. */
  lemma NonRetryableIsFinal(a: Authenticator, env: Environment)
    requires !Classify(a, env.exchange(0)).Retryable?
    ensures Refresh(a, env) ==
            RetryResult(Classify(a, env.exchange(0)), 1, 0, Emitted(a, env.exchange(0)))
  {
    OnExceptionStops(Attempts(a, env), env.timing, 0, 0);
  }

  /** The sleeps of a refresh add up to at most the 300-unit budget. */
  lemma RefreshSleepsWithinBudget(a: Authenticator, env: Environment)
    ensures TotalWait(Refresh(a, env).events) <= MaxTime
  {
    var attempts := Attempts(a, env);
    forall j ensures TotalWait(attempts(j).events) == 0 {
      EmittedRecordsNoBackoff(a, env.exchange(j));
    }
    OnExceptionSleepsWithinBudget(attempts, env.timing, 0, 0);
  }

  /** Only the last attempt of a refresh can add to the registry. */
  lemma RefreshRegistersOnlyLastToken(a: Authenticator, env: Environment)
    ensures var r := Refresh(a, env);
            1 <= r.tries && Added(r.events) == Added(Emitted(a, env.exchange(r.tries - 1)))
  {
    var attempts := Attempts(a, env);
    forall j | attempts(j).outcome.Retryable? ensures Added(attempts(j).events) == {} {
      AddedByAttempt(a, env.exchange(j));
    }
    OnExceptionRegistersOnlyLast(attempts, env.timing, 0, 0);
  }

  /** A whole refresh logs every successful response only after registering its token. */
  lemma RefreshMasksBeforeLogging(a: Authenticator, env: Environment)
    ensures TokensMaskedBeforeLogging(a.accessTokenName, Refresh(a, env).events)
  {
    var attempts := Attempts(a, env);
    forall j ensures TokensMaskedBeforeLogging(a.accessTokenName, attempts(j).events) {
      AttemptMasksBeforeLogging(a, env.exchange(j));
    }
    OnExceptionMasksBeforeLogging(a.accessTokenName, attempts, env.timing, 0, 0);
  }

  /** A server that keeps failing with a server error makes the refresh give
      up with that failure once the budget is used. */
  lemma PersistentServerErrorGivesUp(a: Authenticator, env: Environment)
    requires forall j :: env.exchange(j).Received? && env.exchange(j).status >= 500
    ensures var r := Refresh(a, env);
            && r.outcome.Retryable?
            && r.elapsed >= MaxTime
            && r.outcome.response.status >= 500
  {
    var r := Refresh(a, env);
    RefreshRetriesOnlyRetryable(a, env);
    RetryableExactlyOnThrottleOrServerError(a, env.exchange(r.tries - 1));
  }

  /** Two throttled attempts followed by a successful one: the refresh
      succeeds on the third try, after two one-unit sleeps, registering only
      the token of the third response. */
  lemma ThrottledTwiceThenSuccess(a: Authenticator, env: Environment, token: Json)
    requires Truthy(token)
    requires env.exchange(0) == env.exchange(1) == Received(429, JDict(map[]))
    requires env.exchange(2) == Received(200, JDict(map[a.accessTokenName := token]))
    requires forall j :: env.timing.round(j) == RoundTime(0, 1)
    ensures var r := Refresh(a, env);
            && r == RetryResult(Success(JDict(map[a.accessTokenName := token])), 3, 2, r.events)
            && Added(r.events) == {token}
            && TotalWait(r.events) == 2
  {
    var attempts := Attempts(a, env);
    assert env.timing.round(0) == RoundTime(0, 1) && env.timing.round(1) == RoundTime(0, 1);
    assert NextElapsed(env.timing, 0, 0) == 1 && NextElapsed(env.timing, 1, 1) == 2;
    RetryableExactlyOnThrottleOrServerError(a, env.exchange(0));
    SuccessReturnsBodyAndRegistersToken(a, env.exchange(2));
    OnExceptionUnfolds(attempts, env.timing, 0, 0);
    OnExceptionUnfolds(attempts, env.timing, 1, 1);
    OnExceptionStops(attempts, env.timing, 2, 2);
    RefreshRegistersOnlyLastToken(a, env);
    var r := Refresh(a, env);
    var r1 := OnException(attempts, env.timing, 1, 1);
    var r2 := OnException(attempts, env.timing, 2, 2);
    EmittedRecordsNoBackoff(a, env.exchange(0));
    EmittedRecordsNoBackoff(a, env.exchange(2));
    TotalWaitConcat(attempts(1).events + [LogBackoff(2, 1)], r2.events);
    TotalWaitConcat(attempts(1).events, [LogBackoff(2, 1)]);
    TotalWaitSingle(LogBackoff(2, 1));
    TotalWaitConcat(attempts(0).events + [LogBackoff(1, 1)], r1.events);
    TotalWaitConcat(attempts(0).events, [LogBackoff(1, 1)]);
    TotalWaitSingle(LogBackoff(1, 1));
  }

  // ---------------------------------------------------------------------
  // The state the attempt changes

  /** The process-wide secret registry and the log sink. */
  class Runtime {
    var secrets: set<Json>
    var events: seq<Event>

    constructor (initial: set<Json>)
      ensures secrets == initial && events == []
    {
      secrets := initial;
      events := [];
    }

    /** `add_to_secrets` */
    method AddToSecrets(value: Json)
      modifies this
      ensures secrets == old(secrets) + {value}
      ensures events == old(events) + [AddSecret(value)]
    {
      secrets := secrets + {value};
      events := events + [AddSecret(value)];
    }

    /** `_log_response` */
    method LogResponse(response: Response)
      modifies this
      ensures secrets == old(secrets)
      ensures events == old(events) + [Event.LogResponse(response)]
    {
      events := events + [Event.LogResponse(response)];
    }

    /** The `on_backoff` handler of the retry decorator. */
    method LogBackoff(tries: nat, wait: nat)
      modifies this
      ensures secrets == old(secrets)
      ensures events == old(events) + [Event.LogBackoff(tries, wait)]
    {
      events := events + [Event.LogBackoff(tries, wait)];
    }
  }

  /** One refresh attempt (`_get_refresh_access_token_response` without its
      decorator). The registry only grows, and by the token of a successful
      response only. */
  method GetRefreshAccessTokenResponse(a: Authenticator, rt: Runtime, x: Exchange) returns (outcome: Outcome)
    modifies rt
    ensures outcome == Classify(a, x)
    ensures rt.events == old(rt.events) + Emitted(a, x)
    ensures rt.secrets == old(rt.secrets) + Added(Emitted(a, x))
  {
    var request := RefreshRequest(a);
    var error: RequestError;
    match x {
      case TransportFailure(reason) =>
        error := ConnectionError(reason);
      case Received(status, body) =>
        var response := Response(request, status, body);
        if ResponseOk(status) {
          match ReadAccessToken(a.accessTokenName, body) {
            case Err(cause) =>
              outcome := Wrapped(RefreshErrorPrefix + CauseText(cause), cause);
              assert Emitted(a, x) == [];
              return;
            case Ok(token) =>
              rt.AddToSecrets(token);
              rt.LogResponse(response);
              AddedByAttempt(a, x);
              outcome := Success(body);
              return;
          }
        }
        rt.LogResponse(response);
        AddedByAttempt(a, x);
        error := HttpError(response);
    }
    outcome := ClassifyRequestError(a, error);
  }

  /** One round of the decorator: the attempt, then either the end of the
      run or the backoff event and the elapsed time before the next attempt.
      The run from this round on is the new state followed by the run from
      the next round on. */
  method BackoffRound(a: Authenticator, rt: Runtime, env: Environment, k: nat, elapsed: nat)
    returns (outcome: Outcome, retry: bool, nextElapsed: nat)
    modifies rt
    ensures var here := OnException(Attempts(a, env), env.timing, k, elapsed);
            && retry == (outcome.Retryable? && elapsed < MaxTime)
            && (retry ==> elapsed < nextElapsed)
            && (!retry ==>
                  && here == RetryResult(outcome, k + 1, elapsed, here.events)
                  && rt.events == old(rt.events) + here.events
                  && rt.secrets == old(rt.secrets) + Added(here.events))
            && (retry ==>
                  var next := OnException(Attempts(a, env), env.timing, k + 1, nextElapsed);
                  && here.outcome == next.outcome
                  && here.tries == next.tries
                  && old(rt.events) + here.events == rt.events + next.events
                  && old(rt.secrets) + Added(here.events) == rt.secrets + Added(next.events))
  {
    ghost var attempts := Attempts(a, env);
    var x := env.exchange(k);
    ghost var eventsBefore, secretsBefore := rt.events, rt.secrets;
    outcome := GetRefreshAccessTokenResponse(a, rt, x);
    assert attempts(k) == Attempt(outcome, Emitted(a, x));
    retry := outcome.Retryable? && elapsed < MaxTime;
    if !retry {
      OnExceptionStops(attempts, env.timing, k, elapsed);
      nextElapsed := elapsed;
      return;
    }
    var seconds := CappedWait(env.timing.round(k).wait, elapsed);
    rt.LogBackoff(k + 1, seconds);
    nextElapsed := NextElapsed(env.timing, k, elapsed);
    OnExceptionUnfolds(attempts, env.timing, k, elapsed);
    ghost var here := OnException(attempts, env.timing, k, elapsed);
    ghost var next := OnException(attempts, env.timing, k + 1, nextElapsed);
    ghost var step := Emitted(a, x) + [Event.LogBackoff(k + 1, seconds)];
    SeqAssoc(eventsBefore, Emitted(a, x), [Event.LogBackoff(k + 1, seconds)]);
    SeqAssoc(eventsBefore, step, next.events);
    assert secretsBefore + Added(here.events) == rt.secrets + Added(next.events);
  }

  /** The decorated refresh: attempts until one is not retryable or the
      budget measured before an attempt is used up. */
  method GetRefreshAccessTokenResponseWithBackoff(a: Authenticator, rt: Runtime, env: Environment)
    returns (outcome: Outcome, tries: nat)
    modifies rt
    ensures var r := Refresh(a, env);
            && outcome == r.outcome
            && tries == r.tries
            && rt.events == old(rt.events) + r.events
            && rt.secrets == old(rt.secrets) + Added(r.events)
  {
    var k: nat, elapsed: nat := 0, 0;
    ghost var whole := Refresh(a, env);
    ghost var rest := whole;
    while true
      invariant rest == OnException(Attempts(a, env), env.timing, k, elapsed)
      invariant whole.outcome == rest.outcome && whole.tries == rest.tries
      invariant old(rt.events) + whole.events == rt.events + rest.events
      invariant old(rt.secrets) + Added(whole.events) == rt.secrets + Added(rest.events)
      decreases BudgetLeft(elapsed)
    {
      var retry, nextElapsed;
      outcome, retry, nextElapsed := BackoffRound(a, rt, env, k, elapsed);
      if !retry {
        tries := k + 1;
        return;
      }
      rest := OnException(Attempts(a, env), env.timing, k + 1, nextElapsed);
      k, elapsed := k + 1, nextElapsed;
    }
  }
}
