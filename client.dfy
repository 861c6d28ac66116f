/**
  The retrying request executor of the test suite's HTTP client (`ApiClient`).
  The transport is a script: the outcome of the k-th call is the k-th entry of a
  sequence of outcomes; as a modelling choice, a call past the end of the script
  raises (is a `Fail`).
*/
module Client {
  import opened Wrappers
  import opened Json
  import opened Text

  type Headers = map<string, string>

  /** A response as the client returns it: status code, header mapping, body text. */
  datatype Response = Response(status: int, headers: Headers, body: string)

  /** What one transport call does: it returns a response or it raises. */
  datatype Outcome = Resp(response: Response) | Fail

  /** One request as handed to the transport. */
  datatype Call = Call(verb: string, url: string, headers: Option<Headers>, body: Option<Json>, timeout: real)

  /** What one execution of the attempt loop amounts to: the response it returns,
      the number of transport calls it made and the number of backoff sleeps. */
  datatype Execution = Execution(response: Response, calls: nat, sleeps: nat)

  /** The status codes on which another attempt is made. */
  const RetryableStatuses: set<int> := {429, 500, 502, 503, 504}

  predicate Retryable(status: int) {
    status in RetryableStatuses
  }

  /** The attempt budget: one call plus `retries` more, a negative count acting as zero. */
  function Attempts(retries: int): (n: nat)
    ensures n >= 1
    ensures retries <= 0 ==> n == 1
    ensures retries >= 0 ==> n == retries + 1
  {
    1 + if retries > 0 then retries else 0
  }

  /** The body handed to the transport: the structured `json` argument when given, else `payload`. */
  function ChooseBody(payload: Option<Json>, json: Option<Json>): (body: Option<Json>)
    ensures json.Some? ==> body == json
    ensures json.None? ==> body == payload
    ensures body.None? <==> payload.None? && json.None?
  {
    if json.Some? then json else payload
  }

  /** The outcome of call number `k` (from 0) of a scripted transport. */
  function At(script: seq<Outcome>, k: nat): Outcome {
    if k < |script| then script[k] else Fail
  }

  /** Whether an outcome leads to another attempt when one is left: a raise, or a retryable status. */
  predicate Retries(outcome: Outcome) {
    outcome.Fail? || Retryable(outcome.response.status)
  }

  /** What the last attempt returns: the response it saw, or the synthetic 504 if it raised. */
  function Final(outcome: Outcome): Response {
    match outcome
    case Resp(r) => r
    case Fail => ApiClient.TimeoutResponse()
  }

  /** The number of sleeps one retry costs: a sleep is taken only for a positive backoff. */
  function Pause(backoff: real): nat {
    if backoff > 0.0 then 1 else 0
  }

  /** Reference definition of the attempt loop as a state machine, from attempt number
      `attempt` on: try, then either wait and try again, or stop with a response. */
  function RunFrom(script: seq<Outcome>, attempts: nat, backoff: real, attempt: nat): Execution
    requires attempt < attempts
    decreases attempts - attempt
  {
    var outcome := At(script, attempt);
    if Retries(outcome) && attempt < attempts - 1 then
      var rest := RunFrom(script, attempts, backoff, attempt + 1);
      Execution(rest.response, rest.calls + 1, rest.sleeps + Pause(backoff))
    else
      Execution(Final(outcome), 1, 0)
  }

  function Run(script: seq<Outcome>, attempts: nat, backoff: real): Execution
    requires attempts >= 1
  {
    RunFrom(script, attempts, backoff, 0)
  }

  /** Declarative description of how the attempt loop exits: it stops at the first
      attempt that neither raised nor saw a retryable status, or at the last one;
      it returns what that attempt saw (the synthetic 504 for a raise) and has
      slept once between each two consecutive calls when the backoff is positive. */
  predicate Exits(script: seq<Outcome>, attempts: nat, backoff: real, e: Execution) {
    && 1 <= e.calls <= attempts
    && (forall j | 0 <= j < e.calls - 1 :: Retries(At(script, j)))
    && (e.calls < attempts ==> !Retries(At(script, e.calls - 1)))
    && e.response == Final(At(script, e.calls - 1))
    && e.sleeps == (if backoff > 0.0 then e.calls - 1 else 0)
  }

  /** The state machine exits as described, counted from any attempt on. */
  lemma {:induction false} RunFromExits(script: seq<Outcome>, attempts: nat, backoff: real, attempt: nat)
    requires attempt < attempts
    ensures var e := RunFrom(script, attempts, backoff, attempt);
      && 1 <= e.calls <= attempts - attempt
      && (forall j | attempt <= j < attempt + e.calls - 1 :: Retries(At(script, j)))
      && (attempt + e.calls < attempts ==> !Retries(At(script, attempt + e.calls - 1)))
      && e.response == Final(At(script, attempt + e.calls - 1))
      && e.sleeps == (if backoff > 0.0 then e.calls - 1 else 0)
    decreases attempts - attempt
  {
    if Retries(At(script, attempt)) && attempt < attempts - 1 {
      RunFromExits(script, attempts, backoff, attempt + 1);
    }
  }

  lemma RunExits(script: seq<Outcome>, attempts: nat, backoff: real)
    requires attempts >= 1
    ensures Exits(script, attempts, backoff, Run(script, attempts, backoff))
  {
    RunFromExits(script, attempts, backoff, 0);
  }

  /** At most one execution fits the description. */
  lemma ExitsUnique(script: seq<Outcome>, attempts: nat, backoff: real, e1: Execution, e2: Execution)
    requires Exits(script, attempts, backoff, e1) && Exits(script, attempts, backoff, e2)
    ensures e1 == e2
  {
  }

  /** Any execution that fits the description is the one the state machine computes. */
  lemma ExitsDetermineRun(script: seq<Outcome>, attempts: nat, backoff: real, e: Execution)
    requires Exits(script, attempts, backoff, e)
    ensures attempts >= 1 && e == Run(script, attempts, backoff)
  {
    RunExits(script, attempts, backoff);
    ExitsUnique(script, attempts, backoff, e, Run(script, attempts, backoff));
  }

  /** Stopping at attempt `k`, after `k` retries, is what the state machine does. */
  lemma StopAt(script: seq<Outcome>, attempts: nat, backoff: real, k: nat)
    requires k < attempts
    requires forall j | 0 <= j < k :: Retries(At(script, j))
    requires k < attempts - 1 ==> !Retries(At(script, k))
    ensures Run(script, attempts, backoff)
         == Execution(Final(At(script, k)), k + 1, if backoff > 0.0 then k else 0)
  {
    ExitsDetermineRun(script, attempts, backoff,
      Execution(Final(At(script, k)), k + 1, if backoff > 0.0 then k else 0));
  }

  /** The number of calls lies between 1 and the budget; a negative or zero retry count means exactly one call. */
  lemma AttemptBudget(script: seq<Outcome>, retries: int, backoff: real)
    ensures var e := Run(script, Attempts(retries), backoff);
      1 <= e.calls <= Attempts(retries) && (retries <= 0 ==> e.calls == 1)
  {
    RunExits(script, Attempts(retries), backoff);
  }

  /** The whole budget is spent exactly when every attempt before the last one raised or saw a retryable status. */
  lemma FullBudgetIff(script: seq<Outcome>, attempts: nat, backoff: real)
    requires attempts >= 1
    ensures Run(script, attempts, backoff).calls == attempts
        <==> forall j | 0 <= j < attempts - 1 :: Retries(At(script, j))
  {
    RunExits(script, attempts, backoff);
    var e := Run(script, attempts, backoff);
    if e.calls < attempts {
      assert !Retries(At(script, e.calls - 1));
    }
  }

  /** A response with a status outside the retryable set is returned on the attempt it
      arrives on: no further call and no further sleep follow. */
  lemma NonRetryableReturnedAtOnce(script: seq<Outcome>, attempts: nat, backoff: real, k: nat)
    requires k < attempts
    requires forall j | 0 <= j < k :: Retries(At(script, j))
    requires At(script, k).Resp? && !Retryable(At(script, k).response.status)
    ensures Run(script, attempts, backoff)
         == Execution(At(script, k).response, k + 1, if backoff > 0.0 then k else 0)
  {
    ExitsDetermineRun(script, attempts, backoff,
      Execution(At(script, k).response, k + 1, if backoff > 0.0 then k else 0));
  }

  /** When every attempt sees a retryable status, the last status is returned as it came, not the synthetic 504. */
  lemma ExhaustedStatusReturned(script: seq<Outcome>, attempts: nat, backoff: real)
    requires attempts >= 1
    requires forall j | 0 <= j < attempts :: At(script, j).Resp? && Retryable(At(script, j).response.status)
    ensures Run(script, attempts, backoff)
         == Execution(At(script, attempts - 1).response, attempts, if backoff > 0.0 then attempts - 1 else 0)
    ensures Retryable(Run(script, attempts, backoff).response.status)
  {
    ExitsDetermineRun(script, attempts, backoff,
      Execution(At(script, attempts - 1).response, attempts, if backoff > 0.0 then attempts - 1 else 0));
  }

  /** A raise on the final attempt yields the synthetic 504, whatever the earlier attempts saw. */
  lemma FailureOnLastAttempt(script: seq<Outcome>, attempts: nat, backoff: real)
    requires attempts >= 1
    requires forall j | 0 <= j < attempts - 1 :: Retries(At(script, j))
    requires At(script, attempts - 1) == Fail
    ensures Run(script, attempts, backoff)
         == Execution(ApiClient.TimeoutResponse(), attempts, if backoff > 0.0 then attempts - 1 else 0)
  {
    ExitsDetermineRun(script, attempts, backoff,
      Execution(ApiClient.TimeoutResponse(), attempts, if backoff > 0.0 then attempts - 1 else 0));
  }

  /** A transport that raises on every call yields the synthetic 504, for every retry count. */
  lemma TransportAlwaysFails(script: seq<Outcome>, retries: int, backoff: real)
    requires forall j | 0 <= j < Attempts(retries) :: At(script, j) == Fail
    ensures Run(script, Attempts(retries), backoff).response == ApiClient.TimeoutResponse()
    ensures Run(script, Attempts(retries), backoff).calls == Attempts(retries)
  {
    FailureOnLastAttempt(script, Attempts(retries), backoff);
  }

  /** The synthetic 504 is returned only if the last call raised, or the upstream itself sent that very response. */
  lemma SyntheticOnlyFromFailure(script: seq<Outcome>, attempts: nat, backoff: real)
    requires attempts >= 1
    requires Run(script, attempts, backoff).response == ApiClient.TimeoutResponse()
    ensures var last := At(script, Run(script, attempts, backoff).calls - 1);
      last == Fail || last == Resp(ApiClient.TimeoutResponse())
  {
    RunExits(script, attempts, backoff);
  }

  /** Sleeps happen only between attempts: one per retry when the backoff is positive, none otherwise,
      and never after the final call. */
  lemma BackoffBetweenAttempts(script: seq<Outcome>, attempts: nat, backoff: real)
    requires attempts >= 1
    ensures var e := Run(script, attempts, backoff);
      e.sleeps == (if backoff > 0.0 then e.calls - 1 else 0) && e.sleeps < e.calls
  {
    RunExits(script, attempts, backoff);
  }

  /** The client: its configuration is fixed at construction. */
  class ApiClient {
    const baseUrl: string
    const timeout: real
    const retries: int
    const retryBackoff: real

    /** The base URL is stored with every trailing `/` removed; the rest is stored as given. */
    constructor (baseUrl: string, timeout: real := 5.0, retries: int := 0, retryBackoff: real := 0.0)
      ensures this.baseUrl == StripTrailing(baseUrl, '/')
      ensures this.baseUrl == [] || this.baseUrl[|this.baseUrl| - 1] != '/'
      ensures this.timeout == timeout && this.retries == retries && this.retryBackoff == retryBackoff
    {
      StripTrailingShape(baseUrl, '/');
      this.baseUrl := StripTrailing(baseUrl, '/');
      this.timeout := timeout;
      this.retries := retries;
      this.retryBackoff := retryBackoff;
    }

    /** The request target. */
    function Url(path: string): string {
      baseUrl + "/" + StripLeading(path, '/')
    }

    /** The request target is the base URL, exactly one `/`, then what remains of the path
        once all its leading `/`s are removed. */
    lemma UrlJoinsOnce(path: string)
      ensures var url := Url(path);
        && |url| > |baseUrl| && url[..|baseUrl| + 1] == baseUrl + "/"
        && var rest := url[|baseUrl| + 1..];
        && |rest| <= |path|
        && rest == path[|path| - |rest|..]
        && (forall i | 0 <= i < |path| - |rest| :: path[i] == '/')
        && (rest == [] || rest[0] != '/')
    {
      StripLeadingShape(path, '/');
      var url := Url(path);
      assert url[|baseUrl| + 1..] == StripLeading(path, '/');
    }

    /** A path with and without a leading `/` gives the same request target. */
    lemma UrlIgnoresLeadingSlash(path: string)
      ensures Url("/" + path) == Url(path)
    {
      StripLeadingOneMore(path, '/');
    }

    /** The controlled response for a call that could not be completed. */
    static function TimeoutResponse(): (r: Response)
      ensures r.status == 504
      ensures r.headers.Keys == {"Content-Type"} && r.headers["Content-Type"] == "application/json"
      ensures r.body == "{\"error\": \"timeout\"}"
    {
      Response(504, map["Content-Type" := "application/json"], "{\"error\": \"timeout\"}")
    }

    /** The attempt loop. Besides the response it reports the requests the transport
        received and the number of backoff sleeps taken. */
    method Request(script: seq<Outcome>, verb: string, path: string, headers: Option<Headers> := None,
                   payload: Option<Json> := None, json: Option<Json> := None)
      returns (resp: Response, sleeps: nat, sent: seq<Call>)
      ensures Execution(resp, |sent|, sleeps) == Run(script, Attempts(retries), retryBackoff)
      ensures forall i | 0 <= i < |sent| :: sent[i] == Call(verb, Url(path), headers, ChooseBody(payload, json), timeout)
    {
      var body := ChooseBody(payload, json);
      var url := Url(path);
      var call := Call(verb, url, headers, body, timeout);
      var attempts := Attempts(retries);
      var lastResponse: Option<Response> := None;
      sleeps, sent := 0, [];
      var attempt: nat := 0;
      while attempt < attempts
        invariant attempt < attempts
        invariant |sent| == attempt
        invariant forall i | 0 <= i < |sent| :: sent[i] == call
        invariant sleeps == if retryBackoff > 0.0 then attempt else 0
        invariant forall j | 0 <= j < attempt :: Retries(At(script, j))
        decreases attempts - attempt
      {
        var outcome := At(script, attempt);
        sent := sent + [call];
        match outcome {
          case Resp(r) =>
            lastResponse := Some(r);
            if Retryable(r.status) && attempt < attempts - 1 {
              if retryBackoff > 0.0 {
                sleeps := sleeps + 1;
              }
              attempt := attempt + 1;
              continue;
            }
            resp := r;
          case Fail =>
            if attempt < attempts - 1 {
              if retryBackoff > 0.0 {
                sleeps := sleeps + 1;
              }
              attempt := attempt + 1;
              continue;
            }
            resp := TimeoutResponse();
        }
        StopAt(script, attempts, retryBackoff, attempt);
        return;
      }
      // The fallback after the loop: every iteration continues or returns, and the last one returns.
      assert false;
      match lastResponse {
        case Some(r) => resp := r;
        case None => resp := TimeoutResponse();
      }
    }

    /** A GET: no body. */
    method Get(script: seq<Outcome>, path: string, headers: Option<Headers> := None)
      returns (resp: Response, sleeps: nat, sent: seq<Call>)
      ensures Execution(resp, |sent|, sleeps) == Run(script, Attempts(retries), retryBackoff)
      ensures forall i | 0 <= i < |sent| :: sent[i] == Call("GET", Url(path), headers, None, timeout)
    {
      resp, sleeps, sent := Request(script, "GET", path, headers);
    }

    /** A POST: the `json` body when given, else `payload`. */
    method Post(script: seq<Outcome>, path: string, headers: Option<Headers> := None,
                payload: Option<Json> := None, json: Option<Json> := None)
      returns (resp: Response, sleeps: nat, sent: seq<Call>)
      ensures Execution(resp, |sent|, sleeps) == Run(script, Attempts(retries), retryBackoff)
      ensures forall i | 0 <= i < |sent| :: sent[i] == Call("POST", Url(path), headers, ChooseBody(payload, json), timeout)
    {
      resp, sleeps, sent := Request(script, "POST", path, headers, payload, json);
    }
  }
}
