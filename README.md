# Klaviyo source connector: token refresh and stream discovery

This project models two parts of the Klaviyo source connector of Airbyte and
proves properties of them in Dafny.

**Token refresh.** `_get_refresh_access_token_response` of the two OAuth2
authenticator classes. Both classes carry the same body: lines 28-65 of
`custom_authenticators.py` and again lines 78-115. It is modelled once, in
module `CustomAuthenticators`.

- The HTTP exchange is an input. It is either a transport failure without a
  response, or a response with a status code and a parsed JSON body.
- `Classify` is the decision table. It maps the exchange to one of five
  outcomes:
  - `Success`: returns the parsed body.
  - `Retryable`: `DefaultBackoffException`, carrying the response and its
    request.
  - `ConfigError`: `AirbyteTracedException` with the
    "Refresh token is invalid or expired" message.
  - `Reraised`: the original request exception.
  - `Wrapped`: "Error while refreshing access token: ..." around the
    exception raised inside the `try`.
- `Emitted` lists the events the attempt records, in order. `AddSecret` is
  `add_to_secrets` and `LogResponse` is `_log_response`.
- The method `GetRefreshAccessTokenResponse` runs the attempt step by step
  against a `Runtime` object. The object holds the process-wide secret
  registry (a set) and the log (a sequence of events). The method is proved
  to do exactly what `Classify` and `Emitted` describe.

**Retry policy.** The `backoff.on_exception` decorator (lines 20-27 and
70-77) is modelled as follows:

- The function `OnException` is the policy over any sequence of attempts.
- The `while` loop of `GetRefreshAccessTokenResponseWithBackoff` runs it,
  one `BackoffRound` per attempt.
- Only a `Retryable` outcome is retried.
- The elapsed time is measured before each attempt. Once it reaches the
  `max_time` of 300 time units, the retryable outcome escapes.
- Each sleep is the proposed wait, cut to the time left, as in the library's
  `_next_wait`.
- The `on_backoff` handler records `LogBackoff(tries, wait)`.
- The time each attempt takes and the waits the generator proposes are
  inputs (`Timing`), in whole time units. A proposed wait may be zero, but
  a call and the wait after it together take at least one unit (the
  `Round` type), so time passes in every round.

**Stream discovery.** `SourceKlaviyo.streams` and
`continue_sync_on_stream_failure` of `source.py` are modelled in module
`Source`:

- `ChooseAuth` chooses between the OAuth authenticator and the API key from
  `config['credentials']['auth_type']`. It raises `KeyError` for a missing
  key and `TypeError` for subscripting a value that is not a mapping.
- `Streams` extends the declarative streams of the manifest, an input
  sequence, with `Campaigns`, `CampaignsDetailed` and `Flows`.

Shared values (JSON documents, Python truthiness, `dict.get`) are in module
`Values`.

Some points the model keeps exactly as the code is written:

- `response.ok` is the `requests` library's definition: no exception from
  `raise_for_status`. For the status codes 100-599 modelled here, that is
  exactly `status < 400`.
- The missing-token exception is raised inside the `try`, so the generic
  handler wraps it. Its text is not an f-string, so the braces stay literal
  in `MissingTokenMessage`.
- `.get` called on a JSON body that is not an object raises
  `AttributeError`. The generic handler wraps it too (cause
  `NoAttributeGet`).
- `DefaultBackoffException` and `AirbyteTracedException` are raised from the
  `RequestException` handler. They therefore escape the sibling
  `except Exception` without being wrapped.

## Model

| member | source | states |
|---|---|---|
| `CustomAuthenticators.ReadAccessToken` | airbyte-integrations/connectors/source-klaviyo/source_klaviyo/custom_authenticators.py:43-46 | a token is read exactly when the body is an object whose field under the access-token name is truthy, and the token read is truthy |
| `CustomAuthenticators.SuccessReturnsBodyAndRegistersToken` | airbyte-integrations/connectors/source-klaviyo/source_klaviyo/custom_authenticators.py:39-49 | success iff status < 400 and a truthy token; then the whole parsed body is returned, the events are `AddSecret(token)` then `LogResponse`, and exactly the token is registered |
| `CustomAuthenticators.MissingTokenIsWrapped` | airbyte-integrations/connectors/source-klaviyo/source_klaviyo/custom_authenticators.py:43-46 | an ok response without a truthy token is `Wrapped` with a message starting "Error while refreshing access token: " (for an object body, followed by the literal missing-token text); nothing is logged or registered |
| `CustomAuthenticators.RetryableExactlyOnThrottleOrServerError` | airbyte-integrations/connectors/source-klaviyo/source_klaviyo/custom_authenticators.py:50-58 | retryable iff a response with status 429 or >= 500; it carries the response and its request, the response is logged exactly once, nothing is registered |
| `CustomAuthenticators.TransportFailureNeverRetryable` | airbyte-integrations/connectors/source-klaviyo/source_klaviyo/custom_authenticators.py:54-63 | a transport failure is never retryable: it is the configuration error or the re-raised connection error, and records nothing |
| `CustomAuthenticators.ClientErrorsAreConfigErrorsOrReraised` | airbyte-integrations/connectors/source-klaviyo/source_klaviyo/custom_authenticators.py:59-63 | for a 4xx other than 429 or a transport failure: configuration error iff the framework predicate holds, both messages the fixed constant; otherwise the original error re-raised unchanged |
| `CustomAuthenticators.ConfigErrorIndependentOfCredentials` | airbyte-integrations/connectors/source-klaviyo/source_klaviyo/custom_authenticators.py:59-62 | any two configuration errors are equal, whatever the credentials and the exchange |
| `CustomAuthenticators.OnlySuccessRegisters` | airbyte-integrations/connectors/source-klaviyo/source_klaviyo/custom_authenticators.py:41-47 | an attempt adds to the registry iff it succeeds, and only the token of its own response |
| `CustomAuthenticators.AddedByAttempt` | airbyte-integrations/connectors/source-klaviyo/source_klaviyo/custom_authenticators.py:44-47 | what one attempt adds to the registry: the token when it succeeds, nothing otherwise |
| `CustomAuthenticators.RequestIsBasicAuthPost` | airbyte-integrations/connectors/source-klaviyo/source_klaviyo/custom_authenticators.py:30-38 | the request is a POST to the configured endpoint with the built body and Basic auth over (client id, client secret); retryable and re-raised HTTP errors carry that request |
| `CustomAuthenticators.EmittedRecordsNoBackoff` | airbyte-integrations/connectors/source-klaviyo/source_klaviyo/custom_authenticators.py:28-65 | an attempt by itself records no backoff event and no wait |
| `CustomAuthenticators.AttemptMasksBeforeLogging` | airbyte-integrations/connectors/source-klaviyo/source_klaviyo/custom_authenticators.py:41-48 | in one attempt, a successful response is logged only after its token was added to the registry |
| `CustomAuthenticators.MaskingConcat` | airbyte-integrations/connectors/source-klaviyo/source_klaviyo/custom_authenticators.py:41-48 | the token-before-log ordering is kept when two event sequences are joined |
| `CustomAuthenticators.AddedConcat` | airbyte-integrations/connectors/source-klaviyo/source_klaviyo/custom_authenticators.py:47 | the registry additions of joined event sequences are the union of their additions |
| `CustomAuthenticators.AddedMembers` | airbyte-integrations/connectors/source-klaviyo/source_klaviyo/custom_authenticators.py:47 | a value is in the registry additions exactly when some event adds it |
| `CustomAuthenticators.TotalWaitConcat` | airbyte-integrations/connectors/source-klaviyo/source_klaviyo/custom_authenticators.py:23-25 | the waits recorded by joined event sequences add up |
| `CustomAuthenticators.CappedWait` | airbyte-integrations/connectors/source-klaviyo/source_klaviyo/custom_authenticators.py:26 | a sleep is at most the proposed wait, never past the 300-unit budget, and shorter than proposed only when it ends exactly at the budget |
| `CustomAuthenticators.NextElapsed` | airbyte-integrations/connectors/source-klaviyo/source_klaviyo/custom_authenticators.py:20-27 | the elapsed time measured before the next call is strictly later than before this one |
| `CustomAuthenticators.OnExceptionStops` | airbyte-integrations/connectors/source-klaviyo/source_klaviyo/custom_authenticators.py:20-27 | a non-retryable outcome, or any outcome once the budget is used, ends the run with that outcome and that attempt's events |
| `CustomAuthenticators.OnExceptionUnfolds` | airbyte-integrations/connectors/source-klaviyo/source_klaviyo/custom_authenticators.py:20-27 | a retryable attempt within the budget is followed by one backoff event with the capped wait and the rest of the run, with the same final outcome and try count |
| `CustomAuthenticators.OnExceptionStopsAtFirstTerminal` | airbyte-integrations/connectors/source-klaviyo/source_klaviyo/custom_authenticators.py:20-27 | a run ends with the outcome of its last attempt, every earlier attempt was retryable, and a retryable outcome escapes only once the budget is used |
| `CustomAuthenticators.OnExceptionSleepsWithinBudget` | airbyte-integrations/connectors/source-klaviyo/source_klaviyo/custom_authenticators.py:20-27 | the sleeps of a run add up to no more than the budget left |
| `CustomAuthenticators.OnExceptionAttemptsBounded` | airbyte-integrations/connectors/source-klaviyo/source_klaviyo/custom_authenticators.py:20-27 | a run makes at most one attempt more than the time units of budget left, so it terminates |
| `CustomAuthenticators.OnExceptionRegistersOnlyLast` | airbyte-integrations/connectors/source-klaviyo/source_klaviyo/custom_authenticators.py:20-27 | when retryable attempts register nothing, a run registers exactly what its last attempt registers |
| `CustomAuthenticators.OnExceptionMasksBeforeLogging` | airbyte-integrations/connectors/source-klaviyo/source_klaviyo/custom_authenticators.py:20-27 | when each attempt logs a success only after registering its token, so does the whole run |
| `CustomAuthenticators.RefreshRetriesOnlyRetryable` | airbyte-integrations/connectors/source-klaviyo/source_klaviyo/custom_authenticators.py:20-65 | the decorated refresh makes 1 to 301 attempts; its outcome is that of the last attempt, all earlier ones were retryable, and a retryable outcome escapes only at the 300-unit budget |
| `CustomAuthenticators.NonRetryableIsFinal` | airbyte-integrations/connectors/source-klaviyo/source_klaviyo/custom_authenticators.py:20-65 | a first attempt that is not retryable (success included) is returned or raised at once, with only its own events |
| `CustomAuthenticators.RefreshSleepsWithinBudget` | airbyte-integrations/connectors/source-klaviyo/source_klaviyo/custom_authenticators.py:20-27 | the sleeps of the decorated refresh add up to at most 300 units |
| `CustomAuthenticators.RefreshRegistersOnlyLastToken` | airbyte-integrations/connectors/source-klaviyo/source_klaviyo/custom_authenticators.py:20-65 | the decorated refresh registers only what its last attempt registers |
| `CustomAuthenticators.RefreshMasksBeforeLogging` | airbyte-integrations/connectors/source-klaviyo/source_klaviyo/custom_authenticators.py:20-65 | throughout the decorated refresh, every successful response is logged only after its token was registered |
| `CustomAuthenticators.PersistentServerErrorGivesUp` | airbyte-integrations/connectors/source-klaviyo/source_klaviyo/custom_authenticators.py:20-58 | a server that always answers with a server error makes the refresh give up with that retryable failure once the budget is used |
| `CustomAuthenticators.ThrottledTwiceThenSuccess` | airbyte-integrations/connectors/source-klaviyo/source_klaviyo/custom_authenticators.py:20-58 | two 429 responses then one with a token: success on the third try with the body, two one-unit sleeps, only that token registered |
| `CustomAuthenticators.Runtime.constructor` | airbyte-integrations/connectors/source-klaviyo/source_klaviyo/custom_authenticators.py:47-48 | a runtime starts with the given registry and an empty log |
| `CustomAuthenticators.Runtime.AddToSecrets` | airbyte-integrations/connectors/source-klaviyo/source_klaviyo/custom_authenticators.py:47 | the registry gains the value and the log records `AddSecret` |
| `CustomAuthenticators.Runtime.LogResponse` | airbyte-integrations/connectors/source-klaviyo/source_klaviyo/custom_authenticators.py:48 | the log records the response; the registry is unchanged |
| `CustomAuthenticators.Runtime.LogBackoff` | airbyte-integrations/connectors/source-klaviyo/source_klaviyo/custom_authenticators.py:23-25 | the log records the try count and the wait; the registry is unchanged |
| `CustomAuthenticators.GetRefreshAccessTokenResponse` | airbyte-integrations/connectors/source-klaviyo/source_klaviyo/custom_authenticators.py:28-65 | one attempt returns or raises `Classify`'s outcome, appends `Emitted`'s events to the log, and grows the registry by exactly what those events add |
| `CustomAuthenticators.BackoffRound` | airbyte-integrations/connectors/source-klaviyo/source_klaviyo/custom_authenticators.py:20-27 | one round retries exactly on a retryable outcome within the budget, advances the elapsed time, and leaves the state plus the rest of the run equal to the run from this round on |
| `CustomAuthenticators.GetRefreshAccessTokenResponseWithBackoff` | airbyte-integrations/connectors/source-klaviyo/source_klaviyo/custom_authenticators.py:20-65 | the retry loop ends with the outcome and try count of `Refresh`, its log is extended by exactly the run's events, and the registry grows by exactly what they add |
| `Source.Subscript` | airbyte-integrations/connectors/source-klaviyo/source_klaviyo/source.py:23 | subscripting succeeds iff the value is a mapping holding the key, with that key's value; a mapping without the key raises `KeyError` |
| `Source.ChooseAuth` | airbyte-integrations/connectors/source-klaviyo/source_klaviyo/source.py:23-35 | the auth is an authenticator exactly when `auth_type` is "oauth", with Klaviyo's token endpoint; an unreadable `auth_type` raises its own error |
| `Source.OAuthModeBuildsAuthenticator` | airbyte-integrations/connectors/source-klaviyo/source_klaviyo/source.py:23-31 | with "oauth", the authenticator is built from client id, client secret and refresh token with endpoint "https://a.klaviyo.com/oauth/token"; a missing credential raises `KeyError` |
| `Source.OtherModeUsesApiKey` | airbyte-integrations/connectors/source-klaviyo/source_klaviyo/source.py:32-35 | any other `auth_type` gives the API-key mapping of `credentials['api_key']`, or its error |
| `Source.MissingStartDateIsNone` | airbyte-integrations/connectors/source-klaviyo/source_klaviyo/source.py:37 | the start date is the configured value, or None when absent |
| `Source.Streams` | airbyte-integrations/connectors/source-klaviyo/source_klaviyo/source.py:17-46 | fails iff the auth cannot be read; otherwise the declarative streams unchanged and in order, then exactly Campaigns, CampaignsDetailed and Flows, each with the same auth and start date |
| `Source.ContinueSyncOnStreamFailure` | airbyte-integrations/connectors/source-klaviyo/source_klaviyo/source.py:48-49 | always true |
| `Source.TestConfigUsesApiKey` | airbyte-integrations/connectors/source-klaviyo/unit_tests/integration/config.py:8 | the integration-test configuration takes the API-key branch with "an_api_key" and start date "2021-01-01T00:00:00Z" |

## Left out

- HTTP I/O: `requests.request`, response objects and `raise_for_status` are
  replaced by the `Exchange` input. Status codes outside 100-599 are
  excluded by the `StatusCode` type.
- JSON decoding: the body is already parsed. A body that fails to decode,
  and its exception class, are not modelled. Floating-point JSON numbers
  are not modelled.
- The contents of `build_refresh_request_body` and the matching rules of
  `_wrap_refresh_token_exception` belong to the framework's base classes.
  They are function parameters of `Authenticator`.
- `_log_response` formatting, and any exception from it or from
  `add_to_secrets`: logging is one `LogResponse` event and cannot fail.
- The backoff library's wall clock, exponential generator, jitter and
  floating-point waits: attempt durations and proposed waits are integer
  inputs. Its default logging handlers are left out; the connector's
  `on_backoff` message is one `LogBackoff` event.
- OnExceptionAttemptsBounded, RefreshRetriesOnlyRetryable, NextElapsed: the
  bound of at most 301 attempts, and the termination of the retry loop, rest
  on the model's assumption that a call plus its proposed wait takes at
  least one whole time unit (`Round`). The source bounds only the total
  time (`max_time=300` seconds), not the number of attempts. Under the real
  clock, `backoff.expo` with full jitter can propose waits of a fraction of
  a second (the first is always below one second), so a round can be
  shorter than one unit.
  Rounds shorter than one unit are not modelled.
- The registry is process-wide and shared between threads. Concurrency is
  not modelled: the registry is a field of one `Runtime` object.
- `KlaviyoOauth2Authenticator`'s constructor and base class (token caching,
  header injection) are not modelled. `Source.Auth` records the constructor's
  arguments, not an `Authenticator` value.
- Stream internals: the manifest's declarative streams are an input
  sequence, and `Campaigns`, `CampaignsDetailed` and `Flows` are opaque
  tags holding their arguments.
- In-place extension: `streams.extend` changes the list in place. The
  framework returns a fresh list, so the model returns the extended
  sequence instead; no aliasing is modelled.
- `source_klaviyo/__init__.py` only re-exports `SourceKlaviyo` and
  `DeclarativeKlaviyoOauth2Authenticator`; the latter's refresh body is the
  one modelled here.
