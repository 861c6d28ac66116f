/** The test suite's scenarios, restated against the model: each one builds a client,
    runs one request against a scripted transport and states what the test checks. */
module Scenarios {
  import opened Wrappers
  import opened Json
  import opened Client
  import Text

  const OkBody := "{\"status\": \"ok\"}"

  /** `/health` and `health` reach the same target, with or without a trailing `/` on the base URL. */
  method HealthTarget() returns (withSlash: string, withoutSlash: string, slashedBase: string)
    ensures withSlash == "https://cart.local/health"
    ensures withoutSlash == withSlash && slashedBase == withSlash
  {
    var base := "https://cart.local";
    assert base[|base| - 1] == 'l';
    assert Text.StripTrailing(base, '/') == base;
    assert Text.StripLeading("health", '/') == "health";
    var client := new ApiClient(base);
    withoutSlash := client.Url("health");
    client.UrlIgnoresLeadingSlash("health");
    withSlash := client.Url("/health");
    var slashed := base + "/";
    assert slashed[..|slashed| - 1] == base;
    var other := new ApiClient(slashed);
    other.UrlIgnoresLeadingSlash("health");
    slashedBase := other.Url("/health");
  }

  /** With one retry, a 503 followed by a 200 yields the 200 after two calls. */
  method MerchantRetry() returns (resp: Response, sleeps: nat, sent: seq<Call>)
    ensures resp.status == 200 && resp.body == OkBody
    ensures |sent| == 2 && sleeps == 0
  {
    var client := new ApiClient("https://cart.local", retries := 1);
    var script := [Resp(Response(503, map[], "")), Resp(Response(200, map[], OkBody))];
    resp, sleeps, sent := client.Get(script, "/merchant/status");
    NonRetryableReturnedAtOnce(script, Attempts(1), 0.0, 1);
  }

  /** With one retry, 503 on both calls yields the 503 itself; a positive backoff sleeps once. */
  method MerchantExhausted() returns (resp: Response, sleeps: nat, sent: seq<Call>)
    ensures resp.status == 503
    ensures |sent| == 2 && sleeps == 1
  {
    var client := new ApiClient("https://cart.local", retries := 1, retryBackoff := 0.5);
    var script := [Resp(Response(503, map[], "")), Resp(Response(503, map[], ""))];
    resp, sleeps, sent := client.Get(script, "/merchant/status");
    ExhaustedStatusReturned(script, Attempts(1), 0.5);
  }

  /** A transport that raises yields the controlled 504 with the `timeout` error body. */
  method MerchantTimeout() returns (resp: Response, sleeps: nat, sent: seq<Call>)
    ensures resp.status == 504 && resp.body == "{\"error\": \"timeout\"}"
    ensures |sent| == 1 && sleeps == 0
  {
    var client := new ApiClient("https://cart.local");
    resp, sleeps, sent := client.Get([Fail], "/merchant/status");
    FailureOnLastAttempt([Fail], Attempts(0), 0.0);
  }

  /** A 400 to a POST is returned on the first call with no backoff, and the payload was sent as the body. */
  method InvalidPayload() returns (resp: Response, sleeps: nat, sent: seq<Call>)
    ensures resp.status == 400
    ensures |sent| == 1 && sleeps == 0
    ensures sent[0].verb == "POST" && sent[0].body == Some(JObject(map[]))
  {
    var client := new ApiClient("https://cart.test");
    var script := [Resp(Response(400, map[], "{\"error\": \"Invalid payload\"}"))];
    resp, sleeps, sent := client.Post(script, "/card-switch", payload := Some(JObject(map[])));
    NonRetryableReturnedAtOnce(script, Attempts(0), 0.0, 0);
  }
}
