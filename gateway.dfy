/** The completion-API client: model-key resolution, the retry loop with exponential
    back-off, extraction of the generated text and the health probe. The remote service is
    an oracle that gives the outcome of each attempt; the sleeps between attempts are
    recorded as the list of their durations. */
module Gateway {
  import opened Wrappers
  import opened Text

  /** Where a model is served (the access token is not modelled). */
  datatype Endpoint = Endpoint(baseUrl: string, modelName: string)

  datatype Client = Client(
    models: map<string, Endpoint>,
    defaultModel: string,
    timeout: int,
    maxRetries: int,
    retryDelay: int)

  /** The client as constructed, with the default settings (timeout 120 s, 3 attempts,
      base delay 2 s). */
  const DefaultClient: Client := Client(
    map[
      "gemma" := Endpoint("https://gemma-3-27b-3ca9s.paas.ai.telus.com/v1", "google/gemma-3-27b-it"),
      "qwen-coder" := Endpoint("https://qwen3coder30b-3ca9s.paas.ai.telus.com/v1", "Qwen/Qwen3-Coder-30B-A3B-Instruct"),
      "deepseek" := Endpoint("https://deepseekv32-3ca9s.paas.ai.telus.com/v1", "deepseek-ai/DeepSeek-V3.2-Exp"),
      "gpt-oss" := Endpoint("https://rr-test-gpt-120-9219s.paas.ai.telus.com/v1", "gpt-oss:120b"),
      "qwen-emb" := Endpoint("https://qwen-emb-3ca9s.paas.ai.telus.com/v1", "Qwen/Qwen3-Embedding-8B")
    ],
    "deepseek", 120, 3, 2)

  /** One entry of the response's `choices`; `text` is None when the key is absent. */
  datatype Choice = Choice(text: Option<string>)

  /** The decoded response body; `completionTokens` is None when `usage.completion_tokens` is absent. */
  datatype ApiBody = ApiBody(choices: seq<Choice>, completionTokens: Option<int>)

  /** What one attempt ends with: a 2xx body, a timeout, a non-2xx status, or any other error. */
  datatype Outcome =
    | Completed(body: ApiBody)
    | TimedOut
    | HttpError(status: int, text: string)
    | Failed(message: string)

  type Service = (Endpoint, string, nat) -> Outcome

  datatype GenResult = GenResult(response: string, totalDuration: int, tokensGenerated: int)

  /** `KeyError` from the model lookup, or `RuntimeError` from the retry loop. */
  datatype GenError = UnknownModel(key: string) | Runtime(message: string)

  /** `str(e)` of the raised exception: a `KeyError` shows `repr` of its key. */
  function ErrorText(e: GenError): string {
    match e
    case UnknownModel(k) => PyRepr(k)
    case Runtime(m) => m
  }

  /** A complete call: the result, how many attempts were made, and the sleeps in order. */
  datatype Run = Run(result: Result<GenResult, GenError>, attempts: nat, waits: seq<int>)

  /** `model_key or self.default_model`: a missing or empty key selects the default. */
  function ResolveKey(c: Client, modelKey: Option<string>): (k: string)
    ensures modelKey.Some? && modelKey.value != "" ==> k == modelKey.value
    ensures modelKey.None? || modelKey.value == "" ==> k == c.defaultModel
  {
    if modelKey.None? || modelKey.value == "" then c.defaultModel else modelKey.value
  }

  function Pow2(n: nat): (p: int)
    ensures p >= 1
  {
    if n == 0 then 1 else 2 * Pow2(n - 1)
  }

  /** Python's `str.isspace()` for one character. */
  predicate IsSpace(ch: char) {
    ch == ' ' || ('\t' <= ch <= '\r') || ('\U{1C}' <= ch <= '\U{1F}') || ch == '\U{85}' || ch == '\U{A0}'
    || ch == '\U{1680}' || ('\U{2000}' <= ch <= '\U{200A}') || ch == '\U{2028}' || ch == '\U{2029}'
    || ch == '\U{202F}' || ch == '\U{205F}' || ch == '\U{3000}'
  }

  /** `len(s.split())`: the number of maximal runs of non-space characters. */
  function WordCount(s: string): (n: nat)
    ensures n <= |s|
    decreases |s|
  {
    if |s| == 0 then 0
    else
      var starts := !IsSpace(s[|s| - 1]) && (|s| == 1 || IsSpace(s[|s| - 2]));
      WordCount(s[..|s| - 1]) + (if starts then 1 else 0)
  }

  /** There are no words exactly when every character is a space. */
  lemma {:induction false} WordCountZero(s: string)
    ensures WordCount(s) == 0 <==> forall i :: 0 <= i < |s| ==> IsSpace(s[i])
    decreases |s|
  {
    if |s| > 0 {
      var f := s[..|s| - 1];
      WordCountZero(f);
      assert forall i :: 0 <= i < |f| ==> f[i] == s[i];
    }
  }

  /** Words on either side of a space are counted separately. */
  lemma {:induction false} WordCountSplit(a: string, b: string)
    ensures WordCount(a + [' '] + b) == WordCount(a) + WordCount(b)
    decreases |b|
  {
    var s := a + [' '] + b;
    if |b| == 0 {
      assert s[..|s| - 1] == a;
    } else {
      var b' := b[..|b| - 1];
      WordCountSplit(a, b');
      assert s[..|s| - 1] == a + [' '] + b';
      assert s[|s| - 1] == b[|b| - 1];
      if |b| == 1 {
        assert s[|s| - 2] == ' ';
      } else {
        assert s[|s| - 2] == b[|b| - 2];
      }
    }
  }

  /** The result built from a 2xx body. */
  function Extract(body: ApiBody): (r: GenResult)
    ensures |body.choices| == 0 ==> r.response == ""
    ensures |body.choices| > 0 ==> r.response == body.choices[0].text.GetOr("")
    ensures body.completionTokens.Some? ==> r.tokensGenerated == body.completionTokens.value
    ensures body.completionTokens.None? ==> r.tokensGenerated == WordCount(r.response)
    ensures r.totalDuration == 0
  {
    var text := if |body.choices| > 0 then body.choices[0].text.GetOr("") else "";
    GenResult(text, 0, body.completionTokens.GetOr(WordCount(text)))
  }

  /** The failures after which another attempt is made: timeouts, statuses of 500 and above
      (the server-error class), and any other error. */
  predicate Retryable(o: Outcome) {
    o.TimedOut? || o.Failed? || (o.HttpError? && o.status >= 500)
  }

  /** The `last_error` text an attempt's failure leaves behind (a completed attempt leaves none). */
  function FailureText(c: Client, o: Outcome): string {
    match o
    case Completed(_) => ""
    case TimedOut => "Timeout after " + IntToString(c.timeout) + "s"
    case HttpError(status, text) => "HTTP " + IntToString(status) + ": " + text
    case Failed(m) => m
  }

  function ExhaustedMessage(c: Client, lastError: Option<string>): string {
    "TELUS API generation failed after " + IntToString(c.maxRetries) + " attempts: " + PyStr(lastError)
  }

  /** The sleep after failed attempt `attempt`, if one follows: none after the last attempt. */
  function WaitAfter(c: Client, attempt: nat, waits: seq<int>): seq<int> {
    if attempt < c.maxRetries - 1 then waits + [c.retryDelay * Pow2(attempt)] else waits
  }

  /** The loop from attempt `attempt` on, with the error and the sleeps so far. */
  function Attempts(c: Client, service: Service, ep: Endpoint, prompt: string,
                    attempt: nat, lastError: Option<string>, waits: seq<int>): Run
    decreases c.maxRetries - attempt
  {
    if attempt >= c.maxRetries then
      Run(Failure(Runtime(ExhaustedMessage(c, lastError))), attempt, waits)
    else
      var o := service(ep, prompt, attempt);
      if o.Completed? then Run(Success(Extract(o.body)), attempt + 1, waits)
      else if o.HttpError? && o.status < 500 then Run(Failure(Runtime(FailureText(c, o))), attempt + 1, waits)
      else Attempts(c, service, ep, prompt, attempt + 1, Some(FailureText(c, o)), WaitAfter(c, attempt, waits))
  }

  /** What `generate(prompt, model_key)` does: the model lookup happens before any attempt. */
  function GenerateSpec(c: Client, service: Service, prompt: string, modelKey: Option<string>): Run {
    var key := ResolveKey(c, modelKey);
    if key !in c.models then Run(Failure(UnknownModel(key)), 0, [])
    else Attempts(c, service, c.models[key], prompt, 0, None, [])
  }

  /** `TellusAIClient.generate`: the `for attempt in range(max_retries)` loop. */
  method Generate(c: Client, service: Service, prompt: string, modelKey: Option<string>) returns (run: Run)
    ensures run == GenerateSpec(c, service, prompt, modelKey)
  {
    var key := ResolveKey(c, modelKey);
    if key !in c.models {
      return Run(Failure(UnknownModel(key)), 0, []);
    }
    var ep := c.models[key];
    var lastError: Option<string> := None;
    var waits: seq<int> := [];
    var attempt: nat := 0;
    while attempt < c.maxRetries
      invariant Attempts(c, service, ep, prompt, attempt, lastError, waits) == GenerateSpec(c, service, prompt, modelKey)
      decreases c.maxRetries - attempt
    {
      var outcome := service(ep, prompt, attempt);
      match outcome {
        case Completed(body) =>
          return Run(Success(Extract(body)), attempt + 1, waits);
        case TimedOut =>
          lastError := Some("Timeout after " + IntToString(c.timeout) + "s");
        case HttpError(status, text) =>
          lastError := Some("HTTP " + IntToString(status) + ": " + text);
          if status < 500 {
            return Run(Failure(Runtime(lastError.value)), attempt + 1, waits);
          }
        case Failed(m) =>
          lastError := Some(m);
      }
      if attempt < c.maxRetries - 1 {
        waits := waits + [c.retryDelay * Pow2(attempt)];
      }
      attempt := attempt + 1;
    }
    run := Run(Failure(Runtime(ExhaustedMessage(c, lastError))), attempt, waits);
  }

  /** An unknown model key fails with a `KeyError` before any attempt or sleep. */
  lemma UnknownModelFailsFirst(c: Client, service: Service, prompt: string, modelKey: Option<string>)
    requires ResolveKey(c, modelKey) !in c.models
    ensures var r := GenerateSpec(c, service, prompt, modelKey);
      r.result == Failure(UnknownModel(ResolveKey(c, modelKey))) && r.attempts == 0 && r.waits == []
  {
  }

  /** The loop never makes more than `max_retries` attempts, counting from where it stands. */
  lemma {:induction false} AttemptsBounded(c: Client, service: Service, ep: Endpoint, prompt: string,
                                           attempt: nat, lastError: Option<string>, waits: seq<int>)
    ensures var r := Attempts(c, service, ep, prompt, attempt, lastError, waits);
      r.attempts <= if attempt >= c.maxRetries then attempt else c.maxRetries
    decreases c.maxRetries - attempt
  {
    if attempt < c.maxRetries {
      var o := service(ep, prompt, attempt);
      if !o.Completed? && !(o.HttpError? && o.status < 500) {
        AttemptsBounded(c, service, ep, prompt, attempt + 1, Some(FailureText(c, o)), WaitAfter(c, attempt, waits));
      }
    }
  }

  /** At most `max_retries` attempts in all; with `max_retries` of 0 or less the call fails at
      once, reporting `None` as the last error. */
  lemma GenerateAttemptsBounded(c: Client, service: Service, prompt: string, modelKey: Option<string>)
    ensures GenerateSpec(c, service, prompt, modelKey).attempts <= if c.maxRetries < 0 then 0 else c.maxRetries
    ensures c.maxRetries <= 0 && ResolveKey(c, modelKey) in c.models ==>
      GenerateSpec(c, service, prompt, modelKey) == Run(Failure(Runtime(ExhaustedMessage(c, None))), 0, [])
  {
    var key := ResolveKey(c, modelKey);
    if key in c.models {
      AttemptsBounded(c, service, c.models[key], prompt, 0, None, []);
    }
  }

  /** The sleeps after `count` failed attempts: `retry_delay * 2**k` for k = 0 .. count-1. */
  function Backoff(delay: int, count: nat): (ws: seq<int>)
    ensures |ws| == count
  {
    if count == 0 then [] else Backoff(delay, count - 1) + [delay * Pow2(count - 1)]
  }

  /** The sleep after failed attempt k is `retry_delay * 2**k`. */
  lemma {:induction false} BackoffElement(delay: int, count: nat, k: nat)
    requires k < count
    ensures Backoff(delay, count)[k] == delay * Pow2(k)
  {
    if k < count - 1 {
      BackoffElement(delay, count - 1, k);
    }
  }

  function Sum(ws: seq<int>): int {
    if |ws| == 0 then 0 else Sum(ws[..|ws| - 1]) + ws[|ws| - 1]
  }

  /** The geometric sum of the back-off sleeps. */
  lemma {:induction false} BackoffSum(delay: int, count: nat)
    ensures Sum(Backoff(delay, count)) == delay * (Pow2(count) - 1)
  {
    if count > 0 {
      BackoffSum(delay, count - 1);
      var prev := Backoff(delay, count - 1);
      var step := delay * Pow2(count - 1);
      var ws := prev + [step];
      assert ws[..|ws| - 1] == prev;
      assert Sum(ws) == Sum(prev) + step;
      Distribute(delay, Pow2(count - 1));
    }
  }

  lemma Distribute(d: int, p: int)
    ensures d * (p - 1) + d * p == d * (2 * p - 1)
  {
  }

  /** How many sleeps there have been once attempts 0 .. attempt-1 have failed: one after
      each attempt except the last of `max_retries`. */
  function SleepsBefore(c: Client, attempt: nat): nat {
    if attempt < c.maxRetries then attempt else if c.maxRetries >= 1 then c.maxRetries - 1 else 0
  }

  /** Retryable failures on attempts `attempt` .. `k`-1 walk the loop forward to attempt `k`,
      sleeping the back-off delays for the attempts that were not the last. */
  lemma {:induction false} RetryablePrefix(c: Client, service: Service, ep: Endpoint, prompt: string,
                                           attempt: nat, k: nat, lastError: Option<string>)
    requires attempt <= k <= c.maxRetries
    requires forall i :: attempt <= i < k ==> Retryable(service(ep, prompt, i))
    ensures Attempts(c, service, ep, prompt, attempt, lastError, Backoff(c.retryDelay, SleepsBefore(c, attempt)))
         == Attempts(c, service, ep, prompt, k,
                     if k == attempt then lastError else Some(FailureText(c, service(ep, prompt, k - 1))),
                     Backoff(c.retryDelay, SleepsBefore(c, k)))
    decreases k - attempt
  {
    if attempt < k {
      var o := service(ep, prompt, attempt);
      assert Retryable(o);
      var ws := Backoff(c.retryDelay, SleepsBefore(c, attempt));
      assert WaitAfter(c, attempt, ws) == Backoff(c.retryDelay, SleepsBefore(c, attempt + 1));
      RetryablePrefix(c, service, ep, prompt, attempt + 1, k, Some(FailureText(c, o)));
    }
  }

  /** When every attempt fails in a retryable way the call makes all `max_retries` attempts,
      sleeps `retry_delay * 2**k` after each but the last (their total is given by `BackoffSum`)
      and reports the count and the last error. */
  lemma AllAttemptsFail(c: Client, service: Service, prompt: string, modelKey: Option<string>)
    requires ResolveKey(c, modelKey) in c.models && c.maxRetries >= 1
    requires forall i :: 0 <= i < c.maxRetries ==> Retryable(service(c.models[ResolveKey(c, modelKey)], prompt, i))
    ensures var r := GenerateSpec(c, service, prompt, modelKey);
      var last := service(c.models[ResolveKey(c, modelKey)], prompt, c.maxRetries - 1);
      && r.attempts == c.maxRetries
      && r.result == Failure(Runtime(ExhaustedMessage(c, Some(FailureText(c, last)))))
      && r.waits == Backoff(c.retryDelay, c.maxRetries - 1)
  {
    var ep := c.models[ResolveKey(c, modelKey)];
    var n := c.maxRetries;
    assert Backoff(c.retryDelay, SleepsBefore(c, 0)) == [];
    RetryablePrefix(c, service, ep, prompt, 0, n, None);
    var ws := Backoff(c.retryDelay, n - 1);
    var last := Some(FailureText(c, service(ep, prompt, n - 1)));
    assert GenerateSpec(c, service, prompt, modelKey) == Attempts(c, service, ep, prompt, n, last, ws);
    assert Attempts(c, service, ep, prompt, n, last, ws) == Run(Failure(Runtime(ExhaustedMessage(c, last))), n, ws);
  }

  /** After `k` retryable failures, a status below 500 on attempt `k` ends the call at once
      with that status's message: no further attempt and no sleep after it. */
  lemma ClientErrorStops(c: Client, service: Service, prompt: string, modelKey: Option<string>, k: nat)
    requires ResolveKey(c, modelKey) in c.models && k < c.maxRetries
    requires forall i :: 0 <= i < k ==> Retryable(service(c.models[ResolveKey(c, modelKey)], prompt, i))
    requires var o := service(c.models[ResolveKey(c, modelKey)], prompt, k); o.HttpError? && o.status < 500
    ensures var r := GenerateSpec(c, service, prompt, modelKey);
      var o := service(c.models[ResolveKey(c, modelKey)], prompt, k);
      && r.attempts == k + 1
      && r.result == Failure(Runtime("HTTP " + IntToString(o.status) + ": " + o.text))
      && r.waits == Backoff(c.retryDelay, k)
  {
    var ep := c.models[ResolveKey(c, modelKey)];
    RetryablePrefix(c, service, ep, prompt, 0, k, None);
  }

  /** After `k` retryable failures, a 2xx on attempt `k` returns its extracted result. */
  lemma SuccessAfterRetries(c: Client, service: Service, prompt: string, modelKey: Option<string>, k: nat)
    requires ResolveKey(c, modelKey) in c.models && k < c.maxRetries
    requires forall i :: 0 <= i < k ==> Retryable(service(c.models[ResolveKey(c, modelKey)], prompt, i))
    requires service(c.models[ResolveKey(c, modelKey)], prompt, k).Completed?
    ensures var r := GenerateSpec(c, service, prompt, modelKey);
      && r.attempts == k + 1
      && r.result == Success(Extract(service(c.models[ResolveKey(c, modelKey)], prompt, k).body))
      && r.waits == Backoff(c.retryDelay, k)
  {
    var ep := c.models[ResolveKey(c, modelKey)];
    RetryablePrefix(c, service, ep, prompt, 0, k, None);
  }

  /** With the default client, two timeouts and then a body give the body's text after three
      attempts and sleeps of 2 s and 4 s. */
  lemma DefaultClientScenario(service: Service, prompt: string, body: ApiBody)
    requires service(DefaultClient.models["deepseek"], prompt, 0) == TimedOut
    requires service(DefaultClient.models["deepseek"], prompt, 1) == TimedOut
    requires service(DefaultClient.models["deepseek"], prompt, 2) == Completed(body)
    ensures var r := GenerateSpec(DefaultClient, service, prompt, None);
      r.attempts == 3 && r.result == Success(Extract(body)) && r.waits == [2, 4]
  {
    SuccessAfterRetries(DefaultClient, service, prompt, None, 2);
    assert Backoff(2, 2) == [2, 4] by {
      assert Pow2(1) == 2;
    }
  }

  /** `health_check`: one probe of the default model's endpoint; `probe` gives its status, or
      None when the request raises. A missing default model also reports false. */
  function HealthCheck(c: Client, probe: Endpoint -> Option<int>): (ok: bool)
    ensures ok <==> c.defaultModel in c.models && probe(c.models[c.defaultModel]) == Some(200)
  {
    if c.defaultModel !in c.models then false
    else
      match probe(c.models[c.defaultModel])
      case None => false
      case Some(status) => status == 200
  }
}
