/**
 * The generation client: one call sends the prompt to the chat-completions
 * endpoint, walking the candidate models in order, retrying a rate-limited
 * request once when the suggested wait is short, classifying provider errors,
 * and normalising the reply text into a parsed JSON value or an error.
 *
 * The HTTP exchange is an input: `replies(k)` is the response to the k-th POST
 * of the call. JSON parsing and the "try again in N s" pattern are the two
 * abstract functions of `Codecs`. Sleeping is recorded as a `Wait` event.
 */
module LlmClient {
  import opened Wrappers
  import opened Text
  import opened JsonValue
  import opened Domain
  import opened Prompt
  import opened Endpoint

  /** What `float()` made of the `Retry-After` header (its delay-seconds form, section 10.2.3 of RFC 9110). */
  datatype RetryAfterHeader = NoHeader | Seconds(s: real) | Unparsable

  /** The outcome of one POST. */
  datatype Response =
    | Unreachable(detail: string)                               // the request itself raised (network, timeout)
    | Http(status: int, retryAfter: RetryAfterHeader, text: string)

  datatype ParseOutcome = Parsed(value: Json) | Malformed(detail: string)

  /** The two parsers the client delegates to libraries. */
  datatype Codecs = Codecs(
    parse: string -> ParseOutcome,              // `json.loads` (and `res.json()` on the body text)
    waitInMessage: string -> Option<real>)      // the "try again in N s" search on an error message

  /** The error dictionaries `generate_with_llm` returns, by cause. */
  datatype LlmError =
    | MissingApiKey                              // no key configured
    | RateLimited(retryAfter: Option<real>)      // code "rate_limit_exceeded", with the wait hint
    | InvalidApiKey                              // 401 naming an invalid key
    | Unauthorized                               // any other 401
    | ApiError(status: int, body: Json)          // "Groq API <status>: <body>"
    | NoData(lastError: Option<Json>)            // no data: the last decommission error, if any
    | UnexpectedStructure                        // no usable content in the first choice
    | RequestFailed(detail: string)              // transport or JSON parse failure
    | ShapeError                                 // a Python exception while reading the reply's shape

  /** What `generate_with_llm` returns: the parsed reply, or one of its error dictionaries. */
  datatype LlmResult = Reply(value: Json) | Failure(error: LlmError)

  /** The JSON body of one POST. */
  datatype RequestBody = RequestBody(model: string, system: string, user: PromptPayload, temperature: real, maxTokens: nat)

  /** The observable steps of a call: a POST to the endpoint, or a sleep of some seconds. */
  datatype Event = Post(url: string, body: RequestBody) | Wait(seconds: real)

  datatype CallResult = CallResult(result: LlmResult, trace: seq<Event>)

  /** The configuration read from the environment. An empty `apiKey` means no key is set. */
  datatype Env = Env(apiKey: string, apiUrl: Option<string>, primaryModel: string, useLlmOutfits: bool, llmOnlyMode: bool)

  const SystemMessage := "You are a JSON-output-only assistant that suggests outfits."
  const MaxTokens := 350
  const Fallbacks: seq<string> := ["llama-3.1-8b-instant", "llama-3.1-70b-versatile", "mixtral-8x7b-32768"]

  // ---------------------------------------------------------------- candidate models

  /** `s` without the occurrences of `x`. */
  function Without(s: seq<string>, x: string): (r: seq<string>)
    ensures |r| <= |s| && x !in r
    ensures forall y :: y in r <==> y in s && y != x
  {
    if s == [] then [] else (if s[0] == x then [] else [s[0]]) + Without(s[1..], x)
  }

  /** The candidate list: the primary model, then each fallback not already listed. */
  function ModelList(primary: string): seq<string>
  {
    [primary] + Without(Fallbacks, primary)
  }

  predicate Distinct(s: seq<string>)
  {
    forall i, j :: 0 <= i < j < |s| ==> s[i] != s[j]
  }

  /** The candidate list starts with the primary, lists every fallback, has no duplicates and at most four entries. */
  lemma ModelListShape(primary: string)
    ensures ModelList(primary)[0] == primary
    ensures forall m :: m in Fallbacks ==> m in ModelList(primary)
    ensures Distinct(ModelList(primary))
    ensures 3 <= |ModelList(primary)| <= 4
  {
    var f0, f1, f2 := Fallbacks[0], Fallbacks[1], Fallbacks[2];
    assert Fallbacks[1..] == [f1, f2] && Fallbacks[2..] == [f2] && Fallbacks[3..] == [];
    var w := Without(Fallbacks, primary);
    var w2 := Without(Fallbacks[2..], primary);
    var w1 := Without(Fallbacks[1..], primary);
    assert w1 == (if primary == f1 then [] else [f1]) + w2;
    assert w == (if primary == f0 then [] else [f0]) + w1;
    if primary == f0 {
      assert w == [f1, f2];
    } else if primary == f1 {
      assert w == [f0, f2];
    } else if primary == f2 {
      assert w == [f0, f1];
    } else {
      assert w == [f0, f1, f2];
    }
  }

  /** The candidate-list loop: append each fallback that is not yet in the list. */
  method CandidateModels(primary: string) returns (models: seq<string>)
    ensures models == ModelList(primary)
  {
    models := [primary];
    var i := 0;
    FallbacksFresh();
    while i < |Fallbacks|
      invariant 0 <= i <= |Fallbacks|
      invariant models == [primary] + Without(Fallbacks[..i], primary)
    {
      var m := Fallbacks[i];
      assert Fallbacks[..i + 1] == Fallbacks[..i] + [m];
      CandidateStep(Fallbacks[..i], m, primary);
      if m !in models {
        models := models + [m];
      }
      i := i + 1;
    }
    assert Fallbacks[..|Fallbacks|] == Fallbacks;
  }

  /** No fallback repeats an earlier one. */
  lemma FallbacksFresh()
    ensures forall i :: 0 <= i < |Fallbacks| ==> Fallbacks[i] !in Fallbacks[..i]
  {
    var f := Fallbacks;
    assert f[..0] == [] && f[..1] == [f[0]] && f[..2] == [f[0], f[1]];
  }

  /** One turn of the loop: a fallback not met before is appended exactly when it is not the primary model. */
  lemma CandidateStep(done: seq<string>, m: string, primary: string)
    requires m !in done
    ensures m in [primary] + Without(done, primary) <==> m == primary
    ensures [primary] + Without(done + [m], primary)
         == if m == primary then [primary] + Without(done, primary) else [primary] + Without(done, primary) + [m]
  {
    WithoutAppend(done, [m], primary);
    assert Without([m], primary) == if m == primary then [] else [m];
  }

  lemma {:induction false} WithoutAppend(a: seq<string>, b: seq<string>, x: string)
    ensures Without(a + b, x) == Without(a, x) + Without(b, x)
  {
    if a == [] {
      assert a + b == b;
    } else {
      var h := if a[0] == x then [] else [a[0]];
      assert (a + b)[0] == a[0];
      assert (a + b)[1..] == a[1..] + b;
      WithoutAppend(a[1..], b, x);
      calc {
        Without(a + b, x);
        h + Without(a[1..] + b, x);
        h + (Without(a[1..], x) + Without(b, x));
        (h + Without(a[1..], x)) + Without(b, x);
        Without(a, x) + Without(b, x);
      }
    }
  }

  // ---------------------------------------------------------------- error bodies

  /** `res.json()`, or `{"message": res.text}` when the body is not JSON. */
  function ErrorBody(text: string, codecs: Codecs): Json
  {
    match codecs.parse(text)
    case Parsed(j) => j
    case Malformed(_) => JObj(map["message" := JStr(text)])
  }

  /** `err_json["error"]` when that is a dict, else `{}`. */
  function ErrorObject(m: map<string, Json>): map<string, Json>
  {
    if "error" in m && m["error"].JObj? then m["error"].fields else map[]
  }

  /** `err_obj.get("code") or err_json.get("code")`; `None` when the body is not a dict. */
  function ErrorCode(body: Json): Json
  {
    if body.JObj? then Or(Get(ErrorObject(body.fields), "code"), Get(body.fields, "code")) else JNull
  }

  /** `err_obj.get("message") or err_json.get("message")`; `None` when the body is not a dict. */
  function ErrorMessage(body: Json): Json
  {
    if body.JObj? then Or(Get(ErrorObject(body.fields), "message"), Get(body.fields, "message")) else JNull
  }

  /** `_extract_retry_after_seconds`: the header when it parses, else the wait named in the error message. */
  function RetryAfterSeconds(r: Response, codecs: Codecs): Option<real>
    requires r.Http?
  {
    match r.retryAfter
    case Seconds(s) => Some(s)
    case _ =>
      match ErrorMessage(ErrorBody(r.text, codecs))
      case JStr(m) => codecs.waitInMessage(m)
      case _ => None
  }

  /** The 401 classification: an invalid key when the code or the message says so. */
  function AuthFailure(body: Json): LlmError
  {
    var code := ErrorCode(body);
    var msg := ErrorMessage(body);
    if code == JStr("invalid_api_key") || (msg.JStr? && Contains(Lower(msg.s), "invalid api key")) then InvalidApiKey
    else Unauthorized
  }

  predicate Decommissioned(r: Response, codecs: Codecs)
  {
    r.Http? && r.status == 400 && ErrorCode(ErrorBody(r.text, codecs)) == JStr("model_decommissioned")
  }

  // ---------------------------------------------------------------- reply normalisation

  datatype ContentOutcome = NoContent | Content(value: Json) | Raises

  /** The first choice's `message.content`, or its `text`. */
  function ChoiceContent(choice: Json): ContentOutcome
  {
    match choice
    case JObj(m) =>
      if "message" in m && Truthy(m["message"]) then
        (if m["message"].JObj? then Content(Get(m["message"].fields, "content")) else Raises)
      else if "text" in m then Content(m["text"])
      else NoContent
    case JStr(s) => if Contains(s, "text") then Raises else NoContent
    case JArr(l) => if JStr("text") in l then Raises else NoContent
    case _ => Raises
  }

  /** `data["choices"][0]` and the content inside it, for every shape `data` can have. */
  function ExtractContent(data: Json): ContentOutcome
  {
    if !data.JObj? || "choices" !in data.fields then NoContent
    else
      match data.fields["choices"]
      case JArr(a) => if a == [] then NoContent else ChoiceContent(a[0])
      case JStr(_) => NoContent
      case JObj(m) => if m == map[] then NoContent else Raises
      case _ => Raises
  }

  /** The text handed to the parser: stripped, and unfenced when it starts with three backticks. */
  function NormalisedText(content: string): string
  {
    var text := Strip(content, PySpace);
    if StartsWith(text, "```") then Strip(ReplaceFirst(Strip(text, Only('`')), "json\n", ""), PySpace)
    else text
  }

  /** Direct parse, then the first-'{'-to-last-'}' fallback. */
  function ParseReply(content: string, codecs: Codecs): LlmResult
  {
    ParseText(NormalisedText(content), codecs)
  }

  function ParseText(text: string, codecs: Codecs): LlmResult
  {
    match codecs.parse(text)
    case Parsed(j) => Reply(j)
    case Malformed(d) =>
      var start := FindChar(text, '{');
      var end := RFindChar(text, '}');
      if start != -1 && end != -1 && end > start then
        match codecs.parse(text[start..end + 1])
        case Parsed(j) => Reply(j)
        case Malformed(d2) => Failure(RequestFailed(d2))
      else Failure(RequestFailed(d))
  }

  /** Everything after a successful response body has been parsed into `data`. */
  function Finish(data: Json, codecs: Codecs): LlmResult
  {
    if data == JNull then Failure(NoData(None))
    else
      match ExtractContent(data)
      case Raises => Failure(ShapeError)
      case NoContent => Failure(UnexpectedStructure)
      case Content(c) => FinishContent(c, codecs)
  }

  /** What the content decides: falsy is an unexpected structure, a string is parsed, anything else is a shape error. */
  function FinishContent(c: Json, codecs: Codecs): LlmResult
  {
    if !Truthy(c) then Failure(UnexpectedStructure)
    else if c.JStr? then ParseReply(c.s, codecs)
    else Failure(ShapeError)
  }

  /** A response below 400: parse its body and finish. */
  function SuccessResult(text: string, codecs: Codecs): LlmResult
  {
    match codecs.parse(text)
    case Malformed(d) => Failure(RequestFailed(d))
    case Parsed(data) => Finish(data, codecs)
  }

  // ---------------------------------------------------------------- the call

  datatype Sent = Sent(last: Response, trace: seq<Event>, next: nat)

  /** The sleep before the retry: `max(0, hint) + 0.3` seconds. */
  function Backoff(hint: real): real
  {
    (if hint < 0.0 then 0.0 else hint) + 0.3
  }

  /** The `for attempt in range(2)` loop for one model, starting at POST number `k`. */
  function SendWithRetry(url: string, body: RequestBody, replies: nat -> Response, k: nat, codecs: Codecs): Sent
  {
    var r0 := replies(k);
    if !r0.Http? || r0.status != 429 then Sent(r0, [Post(url, body)], k + 1)
    else
      var hint := RetryAfterSeconds(r0, codecs);
      if hint.Some? && hint.value <= 6.0 then
        Sent(replies(k + 1), [Post(url, body), Wait(Backoff(hint.value)), Post(url, body)], k + 2)
      else Sent(r0, [Post(url, body)], k + 1)
  }

  function BodyFor(model: string, payload: PromptPayload, temperature: real): RequestBody
  {
    RequestBody(model, SystemMessage, payload, temperature, MaxTokens)
  }

  /** The models loop from candidate `i` on, with `k` POSTs already made and the last decommission error. */
  function TryModels(models: seq<string>, i: nat, url: string, payload: PromptPayload, temperature: real,
                     replies: nat -> Response, k: nat, lastError: Option<Json>, codecs: Codecs): CallResult
    decreases |models| - i
  {
    if i >= |models| then CallResult(Failure(NoData(lastError)), [])
    else
      var s := SendWithRetry(url, BodyFor(models[i], payload, temperature), replies, k, codecs);
      match s.last
      case Unreachable(d) => CallResult(Failure(RequestFailed(d)), s.trace)
      case Http(status, _, text) =>
        if status >= 400 then
          var body := ErrorBody(text, codecs);
          if status == 429 then CallResult(Failure(RateLimited(RetryAfterSeconds(s.last, codecs))), s.trace)
          else if status == 401 then CallResult(Failure(AuthFailure(body)), s.trace)
          else if status == 400 && ErrorCode(body) == JStr("model_decommissioned") then
            var rest := TryModels(models, i + 1, url, payload, temperature, replies, s.next, Some(body), codecs);
            CallResult(rest.result, s.trace + rest.trace)
          else CallResult(Failure(ApiError(status, body)), s.trace)
        else CallResult(SuccessResult(text, codecs), s.trace)
  }

  /** `generate_with_llm`, as a function of its inputs, the configuration and the responses. */
  function LlmCall(env: Env, items: seq<WardrobeItem>, accs: seq<Accessory>, weather: string, occasion: string,
                   temperature: real, extra: Option<string>, replies: nat -> Response, codecs: Codecs): CallResult
  {
    if env.apiKey == "" then CallResult(Failure(MissingApiKey), [])
    else
      TryModels(ModelList(env.primaryModel), 0, ResolveChatCompletionsUrl(env.apiUrl),
                BuildPrompt(items, accs, weather, occasion, extra), temperature, replies, 0, None, codecs)
  }

  /** One model's POST with the single rate-limit retry. */
  method PostWithRetry(url: string, body: RequestBody, replies: nat -> Response, k: nat, codecs: Codecs)
    returns (res: Response, posts: seq<Event>, next: nat)
    ensures Sent(res, posts, next) == SendWithRetry(url, body, replies, k, codecs)
    ensures |posts| > 1 <==>
      replies(k).Http? && replies(k).status == 429 &&
      RetryAfterSeconds(replies(k), codecs).Some? && RetryAfterSeconds(replies(k), codecs).value <= 6.0
  {
    posts, next := [], k;
    res := replies(k);
    var attempt := 0;
    while attempt < 2
      invariant 0 <= attempt <= 1
      invariant attempt == 0 ==> posts == [] && next == k
      invariant attempt == 1 ==> next == k + 1 && replies(k).Http? && replies(k).status == 429
      invariant attempt == 1 ==> var hint := RetryAfterSeconds(replies(k), codecs);
        hint.Some? && hint.value <= 6.0 && posts == [Post(url, body), Wait(Backoff(hint.value))]
    {
      res := replies(next);
      posts, next := posts + [Post(url, body)], next + 1;
      if !res.Http? || res.status != 429 {
        break;
      }
      var hint := RetryAfterSeconds(res, codecs);
      if attempt == 0 && hint.Some? && hint.value <= 6.0 {
        posts := posts + [Wait(Backoff(hint.value))];
        attempt := attempt + 1;
        continue;
      }
      break;
    }
    RetryOnlyAfterShortHint(url, body, replies, k, codecs);
  }

  /** `generate_with_llm`: the configuration checks, then the candidate-model loop. */
  method GenerateWithLlm(env: Env, items: seq<WardrobeItem>, accs: seq<Accessory>, weather: string, occasion: string,
                         temperature: real, extra: Option<string>, replies: nat -> Response, codecs: Codecs)
    returns (result: LlmResult, trace: seq<Event>)
    ensures CallResult(result, trace) == LlmCall(env, items, accs, weather, occasion, temperature, extra, replies, codecs)
  {
    if env.apiKey == "" {
      return Failure(MissingApiKey), [];
    }
    var url := ResolveChatCompletionsUrl(env.apiUrl);
    var payload := BuildPrompt(items, accs, weather, occasion, extra);
    var models := CandidateModels(env.primaryModel);
    result, trace := RunModels(models, url, payload, temperature, replies, codecs);
  }

  /** The `for model in models` loop around `PostWithRetry`, with the error classification and the reply normalisation. */
  method RunModels(models: seq<string>, url: string, payload: PromptPayload, temperature: real,
                   replies: nat -> Response, codecs: Codecs)
    returns (result: LlmResult, trace: seq<Event>)
    ensures CallResult(result, trace) == TryModels(models, 0, url, payload, temperature, replies, 0, None, codecs)
  {
    ghost var whole := TryModels(models, 0, url, payload, temperature, replies, 0, None, codecs);
    var lastError: Option<Json> := None;
    var k := 0;
    var i := 0;
    trace := [];
    while i < |models|
      invariant 0 <= i <= |models|
      invariant whole.result == TryModels(models, i, url, payload, temperature, replies, k, lastError, codecs).result
      invariant whole.trace == trace + TryModels(models, i, url, payload, temperature, replies, k, lastError, codecs).trace
      decreases |models| - i
    {
      var res, posts, next := PostWithRetry(url, BodyFor(models[i], payload, temperature), replies, k, codecs);
      trace, k := trace + posts, next;
      if res.Unreachable? {
        return Failure(RequestFailed(res.detail)), trace;
      }
      if res.status >= 400 {
        var body := ErrorBody(res.text, codecs);
        if res.status == 429 {
          return Failure(RateLimited(RetryAfterSeconds(res, codecs))), trace;
        }
        if res.status == 401 {
          return Failure(AuthFailure(body)), trace;
        }
        if res.status == 400 && ErrorCode(body) == JStr("model_decommissioned") {
          lastError := Some(body);
          i := i + 1;
          continue;
        }
        return Failure(ApiError(res.status, body)), trace;
      }
      return SuccessResult(res.text, codecs), trace;
    }
    result := Failure(NoData(lastError));
    assert trace + [] == trace;
  }

  // ---------------------------------------------------------------- properties of a call

  /** The model named by each POST of a trace, in order. */
  function PostedModels(trace: seq<Event>): (r: seq<string>)
    ensures |r| <= |trace|
  {
    if trace == [] then []
    else (if trace[0].Post? then [trace[0].body.model] else []) + PostedModels(trace[1..])
  }

  lemma {:induction false} PostedModelsAppend(a: seq<Event>, b: seq<Event>)
    ensures PostedModels(a + b) == PostedModels(a) + PostedModels(b)
  {
    if a == [] {
      assert a + b == b;
    } else {
      assert (a + b)[0] == a[0];
      assert (a + b)[1..] == a[1..] + b;
      PostedModelsAppend(a[1..], b);
    }
  }

  /**
   * `posted` walks a prefix of `models` in order, naming each model once or
   * twice in a row: no model is skipped back to, and none gets a third POST.
   */
  predicate Scheduled(posted: seq<string>, models: seq<string>)
    decreases |models|
  {
    posted == [] ||
    (models != [] && posted[0] == models[0] &&
      (Scheduled(posted[1..], models[1..]) ||
       (|posted| >= 2 && posted[1] == models[0] && Scheduled(posted[2..], models[1..]))))
  }

  lemma {:induction false} ScheduledBound(posted: seq<string>, models: seq<string>)
    requires Scheduled(posted, models)
    ensures |posted| <= 2 * |models|
    decreases |models|
  {
    if posted != [] {
      if Scheduled(posted[1..], models[1..]) {
        ScheduledBound(posted[1..], models[1..]);
      } else {
        ScheduledBound(posted[2..], models[1..]);
      }
    }
  }

  /** Every POST goes to `url` with the same prompt and settings, and every sleep lasts 0.3 to 6.3 seconds. */
  predicate TraceShape(trace: seq<Event>, url: string, payload: PromptPayload, temperature: real)
  {
    forall j :: 0 <= j < |trace| ==>
      (trace[j].Post? ==> trace[j].url == url && trace[j].body.user == payload && trace[j].body.system == SystemMessage
                          && trace[j].body.temperature == temperature && trace[j].body.maxTokens == MaxTokens) &&
      (trace[j].Wait? ==> 0.3 <= trace[j].seconds <= 6.3)
  }

  lemma SendShape(url: string, model: string, payload: PromptPayload, temperature: real,
                  replies: nat -> Response, k: nat, codecs: Codecs)
    ensures var s := SendWithRetry(url, BodyFor(model, payload, temperature), replies, k, codecs);
      TraceShape(s.trace, url, payload, temperature) &&
      (PostedModels(s.trace) == [model] || PostedModels(s.trace) == [model, model]) &&
      s.next == k + |PostedModels(s.trace)|
  {
    var b := BodyFor(model, payload, temperature);
    var s := SendWithRetry(url, b, replies, k, codecs);
    if |s.trace| == 3 {
      assert PostedModels(s.trace) == [model] + PostedModels(s.trace[1..]);
      assert PostedModels(s.trace[1..]) == [] + PostedModels(s.trace[2..]);
    }
  }

  /**
   * A model gets a second POST exactly when its first answer is a 429 whose
   * retry hint is at most 6 seconds; the sleep before it is the hint plus 0.3
   * seconds, and the second answer decides. Otherwise the first answer decides.
   */
  lemma RetryOnlyAfterShortHint(url: string, body: RequestBody, replies: nat -> Response, k: nat, codecs: Codecs)
    ensures var s := SendWithRetry(url, body, replies, k, codecs);
      |s.trace| > 1 <==>
        replies(k).Http? && replies(k).status == 429 &&
        RetryAfterSeconds(replies(k), codecs).Some? && RetryAfterSeconds(replies(k), codecs).value <= 6.0
    ensures var s := SendWithRetry(url, body, replies, k, codecs);
      |s.trace| > 1 ==> s.trace[1] == Wait(Backoff(RetryAfterSeconds(replies(k), codecs).value)) && s.last == replies(k + 1)
    ensures var s := SendWithRetry(url, body, replies, k, codecs);
      |s.trace| <= 1 ==> s.last == replies(k)
  {
  }

  /**
   * Only a decommissioned model hands the call over to the next candidate:
   * after any other outcome of a model's POSTs the call ends with that model,
   * a 429 reported as rate limiting and any other error status as an error.
   */
  lemma NoRotationUnlessDecommissioned(models: seq<string>, i: nat, url: string, payload: PromptPayload, temperature: real,
                                       replies: nat -> Response, k: nat, lastError: Option<Json>, codecs: Codecs)
    requires i < |models|
    ensures var s := SendWithRetry(url, BodyFor(models[i], payload, temperature), replies, k, codecs);
      var c := TryModels(models, i, url, payload, temperature, replies, k, lastError, codecs);
      (!Decommissioned(s.last, codecs) ==> c.trace == s.trace) &&
      (s.last.Http? && s.last.status == 429 ==> c.result == Failure(RateLimited(RetryAfterSeconds(s.last, codecs)))) &&
      (s.last.Http? && s.last.status >= 400 && !Decommissioned(s.last, codecs) ==> c.result.Failure?) &&
      (Decommissioned(s.last, codecs) ==> |c.trace| >= |s.trace| && c.trace[..|s.trace|] == s.trace)
  {
  }

  /**
   * A 401 on any candidate, whether it answers the first POST or the retry,
   * ends the call there as an invalid-key or unauthorised error: no later
   * candidate is tried.
   */
  lemma UnauthorizedNoRotation(models: seq<string>, i: nat, url: string, payload: PromptPayload, temperature: real,
                               replies: nat -> Response, k: nat, lastError: Option<Json>, codecs: Codecs)
    requires i < |models|
    requires var s := SendWithRetry(url, BodyFor(models[i], payload, temperature), replies, k, codecs);
      s.last.Http? && s.last.status == 401
    ensures var s := SendWithRetry(url, BodyFor(models[i], payload, temperature), replies, k, codecs);
      var c := TryModels(models, i, url, payload, temperature, replies, k, lastError, codecs);
      c.result == Failure(AuthFailure(ErrorBody(s.last.text, codecs))) &&
      c.result.error in {InvalidApiKey, Unauthorized} &&
      c.trace == s.trace && (PostedModels(c.trace) == [models[i]] || PostedModels(c.trace) == [models[i], models[i]])
  {
    SendShape(url, models[i], payload, temperature, replies, k, codecs);
  }

  /** The models loop POSTs along the candidate list in order, at most twice per model, with a well-formed trace. */
  lemma {:induction false} TryModelsSchedule(models: seq<string>, i: nat, url: string, payload: PromptPayload, temperature: real,
                                             replies: nat -> Response, k: nat, lastError: Option<Json>, codecs: Codecs)
    requires i <= |models|
    ensures var c := TryModels(models, i, url, payload, temperature, replies, k, lastError, codecs);
      Scheduled(PostedModels(c.trace), models[i..]) && TraceShape(c.trace, url, payload, temperature)
    decreases |models| - i
  {
    var c := TryModels(models, i, url, payload, temperature, replies, k, lastError, codecs);
    if i < |models| {
      var s := SendWithRetry(url, BodyFor(models[i], payload, temperature), replies, k, codecs);
      SendShape(url, models[i], payload, temperature, replies, k, codecs);
      var p := PostedModels(s.trace);
      var rest: seq<Event> := [];
      if Decommissioned(s.last, codecs) {
        var r := TryModels(models, i + 1, url, payload, temperature, replies, s.next, Some(ErrorBody(s.last.text, codecs)), codecs);
        TryModelsSchedule(models, i + 1, url, payload, temperature, replies, s.next, Some(ErrorBody(s.last.text, codecs)), codecs);
        rest := r.trace;
      }
      assert c.trace == s.trace + rest;
      PostedModelsAppend(s.trace, rest);
      var q := PostedModels(rest);
      assert models[i..][0] == models[i] && models[i..][1..] == models[i + 1..];
      assert Scheduled(q, models[i + 1..]);
      if p == [models[i]] {
        assert (p + q)[1..] == q;
      } else {
        assert (p + q)[2..] == q;
      }
    }
  }

  /**
   * A call POSTs along the candidate list in order, each model at most twice
   * (so at most eight POSTs), every POST carrying the same prompt, and sleeps
   * only between 0.3 and 6.3 seconds; without an API key it makes no request.
   */
  lemma CallSchedule(env: Env, items: seq<WardrobeItem>, accs: seq<Accessory>, weather: string, occasion: string,
                     temperature: real, extra: Option<string>, replies: nat -> Response, codecs: Codecs)
    ensures var c := LlmCall(env, items, accs, weather, occasion, temperature, extra, replies, codecs);
      Scheduled(PostedModels(c.trace), ModelList(env.primaryModel)) &&
      |PostedModels(c.trace)| <= 8 &&
      TraceShape(c.trace, ResolveChatCompletionsUrl(env.apiUrl), BuildPrompt(items, accs, weather, occasion, extra), temperature) &&
      (env.apiKey == "" ==> c.result == Failure(MissingApiKey) && c.trace == [])
  {
    var c := LlmCall(env, items, accs, weather, occasion, temperature, extra, replies, codecs);
    var models := ModelList(env.primaryModel);
    ModelListShape(env.primaryModel);
    if env.apiKey != "" {
      TryModelsSchedule(models, 0, ResolveChatCompletionsUrl(env.apiUrl), BuildPrompt(items, accs, weather, occasion, extra),
                        temperature, replies, 0, None, codecs);
      assert models[0..] == models;
    }
    ScheduledBound(PostedModels(c.trace), models);
  }

  /** A 429 suggesting 4 seconds is retried once on the same model after 4.3 seconds, and the retry's response decides. */
  lemma ShortRateLimitRetried(env: Env, items: seq<WardrobeItem>, accs: seq<Accessory>, weather: string, occasion: string,
                              temperature: real, extra: Option<string>, replies: nat -> Response, codecs: Codecs)
    requires env.apiKey != ""
    requires replies(0).Http? && replies(0).status == 429 && replies(0).retryAfter == Seconds(4.0)
    requires replies(1).Http? && replies(1).status == 200
    ensures var c := LlmCall(env, items, accs, weather, occasion, temperature, extra, replies, codecs);
      var post := Post(ResolveChatCompletionsUrl(env.apiUrl),
                       BodyFor(env.primaryModel, BuildPrompt(items, accs, weather, occasion, extra), temperature));
      c.trace == [post, Wait(4.3), post] && c.result == SuccessResult(replies(1).text, codecs)
  {
    ModelListShape(env.primaryModel);
  }

  /** A 429 suggesting 30 seconds is not retried: one POST, then the rate-limit error carrying the hint. */
  lemma LongRateLimitReported(env: Env, items: seq<WardrobeItem>, accs: seq<Accessory>, weather: string, occasion: string,
                              temperature: real, extra: Option<string>, replies: nat -> Response, codecs: Codecs)
    requires env.apiKey != ""
    requires replies(0).Http? && replies(0).status == 429 && replies(0).retryAfter == Seconds(30.0)
    ensures var c := LlmCall(env, items, accs, weather, occasion, temperature, extra, replies, codecs);
      c.result == Failure(RateLimited(Some(30.0))) &&
      c.trace == [Post(ResolveChatCompletionsUrl(env.apiUrl),
                       BodyFor(env.primaryModel, BuildPrompt(items, accs, weather, occasion, extra), temperature))]
  {
    ModelListShape(env.primaryModel);
  }

  /**
   * A decommissioned primary model falls through to the next candidate with
   * the same prompt; when that one answers, its answer is the result and the
   * first failure leaves no trace in it.
   */
  lemma DecommissionedFallsThrough(env: Env, items: seq<WardrobeItem>, accs: seq<Accessory>, weather: string, occasion: string,
                                   temperature: real, extra: Option<string>, replies: nat -> Response, codecs: Codecs)
    requires env.apiKey != ""
    requires Decommissioned(replies(0), codecs)
    requires replies(1).Http? && replies(1).status == 200
    ensures var c := LlmCall(env, items, accs, weather, occasion, temperature, extra, replies, codecs);
      var url := ResolveChatCompletionsUrl(env.apiUrl);
      var payload := BuildPrompt(items, accs, weather, occasion, extra);
      var models := ModelList(env.primaryModel);
      |models| >= 2 && models[1] != env.primaryModel &&
      c.trace == [Post(url, BodyFor(env.primaryModel, payload, temperature)), Post(url, BodyFor(models[1], payload, temperature))] &&
      c.result == SuccessResult(replies(1).text, codecs)
  {
    var models := ModelList(env.primaryModel);
    ModelListShape(env.primaryModel);
    assert models[1] != models[0];
    DecommissionStep(models, ResolveChatCompletionsUrl(env.apiUrl), BuildPrompt(items, accs, weather, occasion, extra),
                     temperature, replies, codecs);
  }

  lemma DecommissionStep(models: seq<string>, url: string, payload: PromptPayload, temperature: real,
                         replies: nat -> Response, codecs: Codecs)
    requires |models| >= 2
    requires Decommissioned(replies(0), codecs)
    requires replies(1).Http? && replies(1).status == 200
    ensures var c := TryModels(models, 0, url, payload, temperature, replies, 0, None, codecs);
      c.trace == [Post(url, BodyFor(models[0], payload, temperature)), Post(url, BodyFor(models[1], payload, temperature))] &&
      c.result == SuccessResult(replies(1).text, codecs)
  {
    var body := ErrorBody(replies(0).text, codecs);
    var rest := TryModels(models, 1, url, payload, temperature, replies, 1, Some(body), codecs);
    assert rest.trace == [Post(url, BodyFor(models[1], payload, temperature))];
  }

  // ---------------------------------------------------------------- properties of the reply handling

  /** A chat-completions body whose first choice's message has the given content. */
  function ChatBody(content: Json): Json
  {
    JObj(map["choices" := JArr([JObj(map["message" := JObj(map["role" := JStr("assistant"), "content" := content])])])])
  }

  /** A legacy completions body whose first choice has the given text. */
  function TextBody(text: Json): Json
  {
    JObj(map["choices" := JArr([JObj(map["text" := text])])])
  }

  lemma ChatBodyContent(c: Json)
    ensures ExtractContent(ChatBody(c)) == Content(c)
  {
    var msg := map["role" := JStr("assistant"), "content" := c];
    assert "role" in msg;
    assert Truthy(JObj(msg));
    var choice := map["message" := JObj(msg)];
    assert ChoiceContent(JObj(choice)) == Content(c);
  }

  lemma TextBodyContent(c: Json)
    ensures ExtractContent(TextBody(c)) == Content(c)
  {
    var choice := map["text" := c];
    assert "message" !in choice;
    assert ChoiceContent(JObj(choice)) == Content(c);
  }

  /** Both reply shapes hand a non-empty string content to the reply parser. */
  lemma ReplyShapes(s: string, codecs: Codecs)
    requires s != ""
    ensures Finish(ChatBody(JStr(s)), codecs) == ParseReply(s, codecs)
    ensures Finish(TextBody(JStr(s)), codecs) == ParseReply(s, codecs)
  {
    ChatFinish(JStr(s), codecs);
    TextFinish(JStr(s), codecs);
    assert Truthy(JStr(s));
  }

  /**
   * Falsy content (empty, missing, zero, an empty list or object) is the
   * unexpected-structure error, truthy content that is not a string ends in
   * the caught exception, and a reply with no choice at all is the
   * unexpected-structure error; in none of these is anything parsed.
   */
  lemma ReplyErrors(c: Json, codecs: Codecs)
    ensures !Truthy(c) ==> Finish(ChatBody(c), codecs) == Failure(UnexpectedStructure)
    ensures Truthy(c) && !c.JStr? ==> Finish(ChatBody(c), codecs) == Failure(ShapeError)
    ensures Finish(JObj(map["choices" := JArr([])]), codecs) == Failure(UnexpectedStructure)
  {
    ChatFinish(c, codecs);
    if !Truthy(c) {
      assert FinishContent(c, codecs) == Failure(UnexpectedStructure);
    } else if !c.JStr? {
      assert FinishContent(c, codecs) == Failure(ShapeError);
    }
  }

  lemma ChatFinish(c: Json, codecs: Codecs)
    ensures Finish(ChatBody(c), codecs) == FinishContent(c, codecs)
  {
    ChatBodyContent(c);
  }

  lemma TextFinish(c: Json, codecs: Codecs)
    ensures Finish(TextBody(c), codecs) == FinishContent(c, codecs)
  {
    TextBodyContent(c);
  }

  /** Text with no surrounding whitespace and no leading fence reaches the parser as it is. */
  lemma PlainReplyUntouched(content: string)
    requires content != [] && !In(content[0], PySpace) && !In(content[|content| - 1], PySpace)
    requires !StartsWith(content, "```")
    ensures NormalisedText(content) == content
  {
    StripNoop(content, PySpace);
  }

  /** Stripping backticks removes exactly the three on each side of a body that neither starts nor ends with one. */
  lemma {:induction false} FenceStripped(inner: string)
    requires inner != [] && inner[0] != '`' && inner[|inner| - 1] != '`'
    ensures Strip("```" + inner + "```", Only('`')) == inner
  {
    var t := "```" + inner + "```";
    var r := RStrip(t, Only('`'));
    assert t[|t| - 4] == inner[|inner| - 1];
    assert |r| == |t| - 3;
    assert r == "```" + inner;
    var l := LStrip(r, Only('`'));
    assert r[3] == inner[0];
    assert |l| == |r| - 3;
    assert l == inner;
  }

  /** Stripping whitespace from a body followed by a newline gives the body back. */
  lemma {:induction false} TrailingNewlineStripped(body: string)
    requires body != [] && !In(body[0], PySpace) && !In(body[|body| - 1], PySpace)
    ensures Strip(body + "\n", PySpace) == body
  {
    var t := body + "\n";
    var r := RStrip(t, PySpace);
    assert t[|t| - 2] == body[|body| - 1];
    assert |r| == |body|;
    assert r == body;
    StripNoop(body, PySpace);
  }

  /** A reply fenced as "```json", newline, body, newline, "```" reaches the parser as the bare body. */
  lemma {:induction false} FencedReplyUnwrapped(body: string)
    requires body != [] && !In(body[0], PySpace) && body[0] != '`'
    requires !In(body[|body| - 1], PySpace) && body[|body| - 1] != '`'
    ensures NormalisedText("```json\n" + body + "\n```") == body
  {
    var inner := "json\n" + body + "\n";
    assert "```json\n" + body + "\n```" == "```" + inner + "```";
    assert inner[0] == 'j' && inner[|inner| - 1] == '\n';
    FencedNormalised(inner);
    FenceStripped(inner);
    TagDropped(body);
    TrailingNewlineStripped(body);
  }

  /** A fenced text is stripped of its backticks and of the first "json" tag line. */
  lemma FencedNormalised(inner: string)
    requires inner != [] && inner[0] != '`' && inner[|inner| - 1] != '`'
    ensures NormalisedText("```" + inner + "```") == Strip(ReplaceFirst(Strip("```" + inner + "```", Only('`')), "json\n", ""), PySpace)
  {
    var content := "```" + inner + "```";
    assert content[0] == '`' && content[|content| - 1] == '`';
    StripNoop(content, PySpace);
    assert content[..3] == "```";
  }

  /** The tag line at the very start is the one removed. */
  lemma TagDropped(body: string)
    ensures ReplaceFirst("json\n" + body + "\n", "json\n", "") == body + "\n"
  {
    var inner := "json\n" + body + "\n";
    assert inner[..5] == "json\n";
    assert IndexOf(inner, "json\n") == 0;
    assert inner[5..] == body + "\n";
  }

  /**
   * A reply that is not JSON as a whole but holds one JSON object between
   * prose without braces is recovered by the first-'{'-to-last-'}' fallback.
   */
  lemma {:induction false} EmbeddedObjectRecovered(content: string, pre: string, obj: string, post: string, j: Json, codecs: Codecs)
    requires NormalisedText(content) == pre + obj + post
    requires '{' !in pre && '}' !in post
    requires |obj| >= 2 && obj[0] == '{' && obj[|obj| - 1] == '}'
    requires codecs.parse(pre + obj + post).Malformed? && codecs.parse(obj) == Parsed(j)
    ensures ParseReply(content, codecs) == Reply(j)
  {
    EmbeddedObjectParsed(pre, obj, post, j, codecs);
  }

  lemma {:induction false} EmbeddedObjectParsed(pre: string, obj: string, post: string, j: Json, codecs: Codecs)
    requires '{' !in pre && '}' !in post
    requires |obj| >= 2 && obj[0] == '{' && obj[|obj| - 1] == '}'
    requires codecs.parse(pre + obj + post).Malformed? && codecs.parse(obj) == Parsed(j)
    ensures ParseText(pre + obj + post, codecs) == Reply(j)
  {
    var text := pre + obj + post;
    FirstOccurrence(pre, obj + post, '{');
    assert pre + (obj + post) == text;
    LastOccurrence(pre + obj, post, '}');
    assert (pre + obj) + post == text;
    assert text[|pre|..|pre| + |obj|] == obj;
  }

  lemma FirstOccurrence(a: string, b: string, c: char)
    requires c !in a && b != [] && b[0] == c
    ensures FindChar(a + b, c) == |a|
  {
    assert (a + b)[|a|] == c;
  }

  lemma LastOccurrence(a: string, b: string, c: char)
    requires c !in b && a != [] && a[|a| - 1] == c
    ensures RFindChar(a + b, c) == |a| - 1
  {
    assert (a + b)[|a| - 1] == c;
  }

  /**
   * A reply whose normalised text does not parse and has no '{' before a '}'
   * (no brace at all, or only a '}' ahead of every '{') leaves the fallback
   * nothing to cut out and fails with the direct parse's error.
   */
  lemma UnrecoverableReply(content: string, codecs: Codecs)
    requires codecs.parse(NormalisedText(content)).Malformed?
    requires var t := NormalisedText(content);
      forall a, b :: 0 <= a < b < |t| && t[a] == '{' ==> t[b] != '}'
    ensures ParseReply(content, codecs) == Failure(RequestFailed(codecs.parse(NormalisedText(content)).detail))
  {
  }
}
