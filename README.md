# Retrying HTTP client of the cart API test suite, in Dafny

This project models the core of the cart API test suite's HTTP client:

- `ApiClient` (`src/cart/client/api_client.py`). It stores its configuration, joins a base URL and a
  path, and runs a bounded retry loop. That loop makes `1 + max(0, retries)` attempts. It retries on the
  statuses {429, 500, 502, 503, 504} and on any transport exception. It sleeps a fixed backoff only
  between attempts. When the last attempt raised, it returns a synthetic 504 response
  (`{"error": "timeout"}`, JSON content type).
- `validate_health_response` (`src/cart/contracts/health_contract.py`), the contract check a caller runs
  on a health endpoint's decoded body.

The transport is replaced by a script. Call number `k` of a request gets the `k`-th entry of a sequence
of outcomes: a response, or `Fail` for a raised exception. As a modelling choice, a call past the end of
the script is a `Fail`. The loop method returns the response, the number of
backoff sleeps, and the list of requests the transport received (verb, URL, headers, body, timeout).
Its length is the number of calls.
The script is the first parameter of `Request`, `Get` and `Post`. The remaining parameters keep the
code's defaults: `timeout = 5.0`, `retries = 0` and `retryBackoff = 0.0` for the constructor, and `None`
for headers, payload and `json`.

Modules, one per concern:

- `Wrappers`: Python's `Optional`.
- `Json`: a decoded JSON value.
- `Text`: `rstrip` and `lstrip` of one character.
- `Client`: the client class, the loop, and its two reference definitions.
  - `RunFrom`/`Run`: a recursive state machine (attempt, then wait and retry, or stop).
  - `Exits`: a declarative description of where the loop stops and what it returns.
  - Lemmas tie the three together: `RunExits` and `ExitsUnique` show that `Exits` holds of `Run` and of nothing else. `Request` is proved equal to `Run`.
- `HealthContract`: the validator.
- `Scenarios`: the suite's tests, restated as methods over the model.

Three behaviours of the code worth knowing:

- The synthetic 504 is returned whenever the last attempt raises, even if an earlier attempt returned a retryable
  response; that earlier response is discarded (`FailureOnLastAttempt`).
- A negative retry count is accepted and acts as zero (`Attempts`, `AttemptBudget`).
- The fallback after the loop (line 76) cannot run, because the attempt budget is never below one. The
  model keeps it after an `assert false`, which the verifier proves unreachable.

## Model

| member | source | states |
|---|---|---|
| `Text.StripTrailingShape` | src/cart/client/api_client.py:22 | the result of `rstrip` is a prefix of the input; everything after it is the stripped character; and it does not end in that character |
| `Text.StripLeadingShape` | src/cart/client/api_client.py:28 | the result of `lstrip` is a suffix of the input; everything before it is the stripped character; and it does not start with that character |
| `Text.StripTrailingUnique` | src/cart/client/api_client.py:22 | those three properties determine the result of `rstrip` |
| `Text.StripLeadingUnique` | src/cart/client/api_client.py:28 | those three properties determine the result of `lstrip` |
| `Text.StripLeadingOneMore` | src/cart/client/api_client.py:28 | one extra leading character does not change what `lstrip` leaves |
| `Client.ApiClient.constructor` | src/cart/client/api_client.py:15-25 | the base URL is stored with all trailing `/` removed, so it does not end in `/`; timeout, retries and backoff are stored as given |
| `Client.ApiClient.UrlJoinsOnce` | src/cart/client/api_client.py:27-28 | the target is the base URL, then one `/`, then the path without its leading `/`s; the character after that `/` is not `/` |
| `Client.ApiClient.UrlIgnoresLeadingSlash` | src/cart/client/api_client.py:28 | `"/" + p` and `p` give the same target |
| `Client.ApiClient.TimeoutResponse` | src/cart/client/api_client.py:30-35 | status 504, exactly one header `Content-Type: application/json`, body `{"error": "timeout"}` |
| `Client.ChooseBody` | src/cart/client/api_client.py:45 | the `json` argument is sent when given, otherwise the `payload`; there is no body only when neither is given |
| `Client.Attempts` | src/cart/client/api_client.py:48 | at least one attempt; exactly one for a retry count of zero or less; `retries + 1` otherwise |
| `Client.RunFromExits` | src/cart/client/api_client.py:51-74 | from any attempt on, the state machine makes between 1 and the remaining budget of calls. Every call before its last one raised or saw a retryable status. The last call ended the run unless the budget was spent, and its outcome is returned (the synthetic 504 for a raise). It sleeps once per retry when the backoff is positive |
| `Client.RunExits` | src/cart/client/api_client.py:51-74 | the reference state machine meets the declarative exit description `Exits` |
| `Client.ExitsUnique` | src/cart/client/api_client.py:51-74 | at most one execution meets `Exits`, so it determines response, calls and sleeps |
| `Client.ExitsDetermineRun` | src/cart/client/api_client.py:51-74 | any execution meeting `Exits` is the one the state machine computes |
| `Client.StopAt` | src/cart/client/api_client.py:62-74 | stopping at attempt `k` after `k` retried attempts gives that attempt's outcome, `k + 1` calls, and `k` sleeps (none without backoff) |
| `Client.ApiClient.Request` | src/cart/client/api_client.py:37-76 | the loop's response, number of calls and number of sleeps are those of the reference state machine. Every call the transport received has the request's verb, the joined URL, the given headers untouched, the chosen body and the configured timeout |
| `Client.AttemptBudget` | src/cart/client/api_client.py:48-51 | the number of calls is at least 1 and at most `1 + max(0, retries)`; a negative or zero count gives exactly one call |
| `Client.FullBudgetIff` | src/cart/client/api_client.py:51-74 | the whole budget is used if and only if every attempt before the last raised or saw a retryable status |
| `Client.NonRetryableReturnedAtOnce` | src/cart/client/api_client.py:62-67 | a non-retryable status arriving at attempt `k`, after retried attempts only, is returned at once. Exactly `k + 1` calls were made and no sleep follows it |
| `Client.ExhaustedStatusReturned` | src/cart/client/api_client.py:60-67 | when every attempt sees a retryable status, the final call's response is returned unchanged, not the synthetic 504 |
| `Client.FailureOnLastAttempt` | src/cart/client/api_client.py:69-74 | a raise on the final attempt yields the synthetic 504 after the full budget of calls, whatever earlier attempts saw |
| `Client.TransportAlwaysFails` | src/cart/client/api_client.py:69-74 | a transport that always raises yields the synthetic 504 after `1 + max(0, retries)` calls, for every retry count |
| `Client.SyntheticOnlyFromFailure` | src/cart/client/api_client.py:67-74 | the synthetic 504 comes back only if the last call raised or the upstream sent that very response |
| `Client.BackoffBetweenAttempts` | src/cart/client/api_client.py:62-74 | sleeps number `calls - 1` for a positive backoff and 0 otherwise, so there is never a sleep after the final call |
| `Client.ApiClient.Get` | src/cart/client/api_client.py:78-79 | a GET runs the attempt loop with no body |
| `Client.ApiClient.Post` | src/cart/client/api_client.py:81-88 | a POST runs the attempt loop with the chosen body (`json` over `payload`) |
| `HealthContract.Validate` | src/cart/contracts/health_contract.py:1-7 | accepts exactly the mappings whose `status` is the string `ok` or `healthy` |
| `HealthContract.RejectsNonMapping` | src/cart/contracts/health_contract.py:5 | a body that is not a mapping fails the first assertion |
| `HealthContract.RejectsMissingStatus` | src/cart/contracts/health_contract.py:6 | a mapping without `status` fails the second assertion |
| `HealthContract.RejectsOtherStatus` | src/cart/contracts/health_contract.py:7 | a `status` other than `ok`/`healthy` fails the third assertion |
| `HealthContract.OnlyStatusMatters` | src/cart/contracts/health_contract.py:5-7 | two mappings that agree on `status` get the same verdict |
| `HealthContract.OtherKeysIgnored` | src/cart/contracts/health_contract.py:5-7 | adding or replacing any key other than `status` leaves the verdict unchanged |
| `HealthContract.Examples` | src/cart/tests/test_health_api.py:9-25 | `{"status":"ok"}` and `{"status":"healthy"}` are accepted; `{"status":"active"}`, a mapping without `status` and an array are rejected, each by the assertion that fails first |
| `Scenarios.HealthTarget` | src/cart/tests/test_health.py:31-41 | `/health` and `health` on base `https://cart.local` (with or without a trailing `/`) give `https://cart.local/health` |
| `Scenarios.MerchantRetry` | src/cart/tests/test_merchant_retry.py:36-55 | with one retry, 503 then 200 gives the 200 after two calls |
| `Scenarios.MerchantExhausted` | src/cart/client/api_client.py:60-67 | with one retry and a positive backoff, 503 twice gives the 503 after two calls and one sleep |
| `Scenarios.MerchantTimeout` | src/cart/tests/test_merchant_timeout.py:33-49 | a raising transport gives status 504 with the `timeout` error body after one call |
| `Scenarios.InvalidPayload` | src/cart/tests/test_negative_api.py:34-47 | a 400 to a POST is returned on the first call with no sleep, and the payload was the body sent |

## Left out

- The real transport (`requests.request`) and the internals of `requests.models.Response` are not modelled. A script of outcomes replaces the transport. Header names are compared exactly, not case-insensitively as the transport does.
- `time.sleep` is not modelled: only the number of sleeps is kept. Each sleep lasts the configured backoff.
- `timeout` and `retry_backoff_sec` are Dafny reals. The code only passes them on or compares them with 0, so float rounding does not arise.
- `int(self.retries)` is not modelled for non-integer values: the retry count is an integer.
- JSON encoding is not modelled. The synthetic body is written out as the text `json.dumps` produces for `{"error": "timeout"}`, and request bodies stay decoded values.
- Response objects are values: each call's fresh `Response()` object and its other attributes (`url`, `reason`, `encoding`) are not modelled.
- Exception kinds are not distinguished: the code catches every exception the same way.
- The mock library's replay of its last scripted response after the list runs out is not modelled. Here a call past the end of the script is a `Fail`, so the scenarios script every call.
- Idempotency-key deduplication lives upstream: the client passes headers through untouched, which `Request` states.
- `Client.ApiClient.Request`: its contract ties the loop to `Run`. The declarative exit description `Exits` follows through `RunExits`, not through a clause of its own.
- `Client.ApiClient.Url`, `Text.StripTrailing` and `Text.StripLeading` carry no contract of their own. The lemmas `UrlJoinsOnce`, `StripTrailingShape` and `StripLeadingShape` state what they return.
- The validator raises `AssertionError`; the model returns a verdict naming the first failing assertion. Running Python with `-O`, which turns the assertions off, is not modelled.
- Pytest markers, CI policy, and the remaining tests (version headers, missing fields, idempotency), which only check what the transport passes back, are not modelled.
