/**
 * `generate_outfit`: the weather intake, the wardrobe and feasibility gates,
 * then the generation passes — a first call, at most one correction call for
 * the remediable rejection codes, at most one best-effort accessory call —
 * and the assembly of the answer with the weather fields.
 */
module Controller {
  import opened Wrappers
  import opened Text
  import opened JsonValue
  import opened Domain
  import opened LlmClient
  import opened Feasibility
  import opened Validator

  // ---------------------------------------------------------------- weather

  /** The weather the answer reports: `temp` is already rounded. */
  datatype Conditions = Conditions(condition: Json, temp: Option<int>, humidity: Json, wind: Json)

  /** A forecast handed in by the caller (the Plan Ahead page); `temp` is `None` when `round(float(temp))` fails. */
  datatype WeatherOverride = WeatherOverride(weather: Json, condition: Json, temp: Option<int>, humidity: Json, wind: Json)

  /** What the live weather lookup returned: its error dictionary, or the current conditions. */
  datatype LiveWeather = LiveError(error: string) | Live(conditions: Conditions)

  datatype Observation = WeatherFailed(error: string) | Observed(conditions: Conditions)

  /**
   * The override is used when it names a weather or a condition (its
   * condition preferred); otherwise the live lookup decides, and its error
   * ends the request.
   */
  function Observe(ov: Option<WeatherOverride>, live: LiveWeather): (r: Observation)
    ensures ov.Some? && (Truthy(ov.value.weather) || Truthy(ov.value.condition)) ==>
      r.Observed? && Truthy(r.conditions.condition) && r.conditions.temp == ov.value.temp
    ensures r.WeatherFailed? <==>
      !(ov.Some? && (Truthy(ov.value.weather) || Truthy(ov.value.condition))) && live.LiveError?
    ensures ov.Some? && (Truthy(ov.value.weather) || Truthy(ov.value.condition)) ==>
      var o := ov.value; r == Observed(Conditions(Or(o.condition, o.weather), o.temp, o.humidity, o.wind))
    ensures !(ov.Some? && (Truthy(ov.value.weather) || Truthy(ov.value.condition))) && live.Live? ==>
      r == Observed(live.conditions)
  {
    if ov.Some? && (Truthy(ov.value.weather) || Truthy(ov.value.condition)) then
      var o := ov.value;
      Observed(Conditions(Or(o.condition, o.weather), o.temp, o.humidity, o.wind))
    else
      match live
      case LiveError(e) => WeatherFailed(e)
      case Live(c) => Observed(c)
  }

  /** Python's `str` of a value; `show` renders the floats, lists and objects whose rendering is not modelled. */
  function ShowJson(j: Json, show: Json -> string): string
  {
    match ToStr(j)
    case Some(s) => s
    case None => show(j)
  }

  /** The weather text of the early error answers: "condition, temp°C", or the condition alone without a temperature. */
  function WeatherLine(c: Conditions, show: Json -> string): string
  {
    if c.temp.Some? then ShowJson(c.condition, show) + ", " + IntToString(c.temp.value) + "°C"
    else ShowJson(c.condition, show)
  }

  /** The weather text once the generation stage starts: always "condition, temp°C", with "None" for a missing temperature. */
  function PromptWeather(c: Conditions, show: Json -> string): string
  {
    ShowJson(c.condition, show) + ", " + (if c.temp.Some? then IntToString(c.temp.value) else "None") + "°C"
  }

  /** The two weather texts agree when there is a temperature; without one the later text appends ", None°C". */
  lemma WeatherTexts(c: Conditions, show: Json -> string)
    ensures c.temp.Some? ==> PromptWeather(c, show) == WeatherLine(c, show)
    ensures c.temp.None? ==> PromptWeather(c, show) == WeatherLine(c, show) + ", None°C"
    ensures PromptWeather(c, show) != WeatherLine(c, show) <==> c.temp.None?
  {
  }

  // ---------------------------------------------------------------- the answer

  /** The error messages, by cause; their wording is not modelled. */
  datatype Message =
    | NoWardrobeItems                 // "No wardrobe items available"
    | NoCleanItems                    // "No clean wardrobe items available. ..."
    | CannotCreate(verdict: Verdict)  // "Can't create a <label> outfit right now. ..."
    | NonLlmRemoved                   // "Non-LLM outfit generation has been removed. ..."
    | UpstreamFailure(cause: Upstream) // the first call's own error text
    | ValidationFailed(why: Rejection) // "LLM failed validation: <validator message>"
    | CallFailed                      // "LLM call failed: <exception>", raised by the validator

  /**
   * The answer. `Report` is `_error_with_weather` with the optional `code`,
   * `retry_after` and `source` keys; `Outfit` is the normalised outfit with
   * the weather fields, `warning` and `source`.
   */
  datatype Outcome =
    | WeatherUnavailable(error: string)
    | Report(message: Message, weather: string, conditions: Conditions,
             code: Option<Json>, retryAfter: Option<Json>, source: Option<string>)
    | Outfit(outfit: seq<Entry>, explanation: Json, score: Json, weather: string, conditions: Conditions,
             warning: Json, source: Option<string>)

  /** Why a generation call was made. */
  datatype Purpose = First | Correct | AddAccessory

  /** The corrective clauses a call can carry, rendered by `ClauseText`. */
  datatype Clause =
    | AvoidDisliked(excluded: seq<int>)
    | Correction(shoeIds: seq<Option<int>>, excluded: seq<int>)
    | AccessoryChoice(ids: seq<string>)

  /** One `generate_with_llm` call: its purpose, arguments, result and the POSTs and sleeps it made. */
  datatype Invocation = Invocation(purpose: Purpose, temperature: real, extra: Option<Clause>, result: LlmResult, trace: seq<Event>)

  datatype Run = Run(outcome: Outcome, calls: seq<Invocation>)

  /**
   * The outside world of one request: the live weather, the responses of the
   * `n`-th generation call's POSTs (`server(n)`), the parsers, and Python's
   * `str` on values whose rendering is not modelled.
   */
  datatype Services = Services(live: LiveWeather, server: nat -> (nat -> Response), codecs: Codecs, show: Json -> string)

  /** The request's own inputs; a missing occasion is the empty string. */
  datatype Request = Request(occasion: string, excludeIds: Json, useLlm: bool, weatherOverride: Option<WeatherOverride>)

  // ---------------------------------------------------------------- instruction texts

  /** `sorted(list(exclude_set))`: strictly increasing. */
  predicate Increasing(s: seq<int>)
  {
    forall i, j :: 0 <= i < j < |s| ==> s[i] < s[j]
  }

  function Insert(s: seq<int>, x: int): (r: seq<int>)
    requires Increasing(s)
    ensures Increasing(r)
    ensures forall y :: y in r <==> y == x || y in s
  {
    if s == [] then [x]
    else if x < s[0] then [x] + s
    else if x == s[0] then s
    else
      var t := Insert(s[1..], x);
      assert forall y :: y in t ==> s[0] < y;
      var r := [s[0]] + t;
      assert Increasing(r) by {
        forall i, j | 0 <= i < j < |r|
          ensures r[i] < r[j]
        {
          assert r[j] == t[j - 1];
          if i > 0 { assert r[i] == t[i - 1]; } else { assert r[j] in t; }
        }
      }
      r
  }

  /** The convertible ids of a list, sorted and without repetitions. */
  function SortedIds(xs: seq<Json>): (r: seq<int>)
    ensures Increasing(r)
    ensures forall n :: n in r <==> n in IdsOf(xs)
    decreases |xs|
  {
    if xs == [] then []
    else
      var init := SortedIds(xs[..|xs| - 1]);
      var last := ToInt(xs[|xs| - 1]);
      if last.Some? then Insert(init, last.value) else init
  }

  /** The exclusion set in ascending order. */
  function SortedExclusions(excludeIds: Json): (r: seq<int>)
    ensures Increasing(r)
    ensures forall n :: n in r <==> n in ExcludedIds(excludeIds)
  {
    if excludeIds.JArr? then SortedIds(excludeIds.elems) else []
  }

  /** Python's rendering of a list of ints, of optional ints, and of plain strings. */
  function IntsText(s: seq<int>): string
  {
    "[" + Join(seq(|s|, i requires 0 <= i < |s| => IntToString(s[i])), ", ") + "]"
  }

  function OptionalIdsText(s: seq<Option<int>>): string
  {
    "[" + Join(seq(|s|, i requires 0 <= i < |s| => if s[i].Some? then IntToString(s[i].value) else "None"), ", ") + "]"
  }

  function StringsText(s: seq<string>): string
  {
    "[" + Join(seq(|s|, i requires 0 <= i < |s| => "'" + s[i] + "'"), ", ") + "]"
  }

  /** The first pass's clause when some ids are excluded. */
  function AvoidText(excluded: seq<int>): string
  {
    "Avoid using these item ids (previous disliked outfit): " + IntsText(excluded) + ". "
    + "Generate a different outfit if possible. If it's not possible with remaining items, return an 'error'."
  }

  /** The correction clause: the clean shoe ids, then the excluded ids when there are any. */
  function CorrectionText(shoeIds: seq<Option<int>>, excluded: seq<int>): string
  {
    "Your previous response was invalid. Fix it and return ONLY valid JSON.\n"
    + "You MUST include exactly one shoes item (type='shoes') if any shoes exist.\n"
    + "Choose the shoes item from these clean shoe ids: " + OptionalIdsText(shoeIds) + ".\n"
    + (if excluded != [] then "Do NOT use these excluded ids: " + IntsText(excluded) + ".\n" else "")
    + "Do not invent items. Use only provided ids."
  }

  /** The accessory clause, naming the accessory ids. */
  function AccessoryText(ids: seq<string>): string
  {
    "Return ONLY valid JSON. Keep the outfit weather/occasion appropriate.\n"
    + "Include exactly 1 accessory entry with role='accessory'.\n"
    + "Choose the accessory id from this list: " + StringsText(ids) + ".\n"
    + "Do not invent items. Use only provided ids."
  }

  /** The `extra_instruction` text of a clause. */
  function ClauseText(c: Option<Clause>): Option<string>
  {
    match c
    case None => None
    case Some(AvoidDisliked(excluded)) => Some(AvoidText(excluded))
    case Some(Correction(shoeIds, excluded)) => Some(CorrectionText(shoeIds, excluded))
    case Some(AccessoryChoice(ids)) => Some(AccessoryText(ids))
  }

  predicate CleanShoes(i: WardrobeItem)
  {
    HasKind(i, "shoes") && IsClean(i)
  }

  /** The ids of the clean shoes in the pool, in pool order: one per clean pair, and nothing else. */
  function CleanShoeIds(pool: seq<WardrobeItem>): (r: seq<Option<int>>)
    ensures |r| <= |pool|
    ensures forall x :: x in r ==> exists i :: i in pool && i.id == x && CleanShoes(i)
    ensures forall k :: 0 <= k < |pool| && CleanShoes(pool[k]) ==> pool[k].id in r
  {
    if pool == [] then []
    else
      var rest := CleanShoeIds(pool[1..]);
      assert forall i :: i in pool[1..] ==> i in pool;
      assert forall k :: 0 < k < |pool| ==> pool[1..][k - 1] == pool[k];
      if CleanShoes(pool[0]) then [pool[0].id] + rest else rest
  }

  /** Two clean pairs are listed in the order the pool holds them. */
  lemma {:induction false} CleanShoeIdsOrdered(pool: seq<WardrobeItem>, i: nat, j: nat)
    requires i < j < |pool| && CleanShoes(pool[i]) && CleanShoes(pool[j])
    ensures exists a, b ::
              0 <= a < b < |CleanShoeIds(pool)| && CleanShoeIds(pool)[a] == pool[i].id && CleanShoeIds(pool)[b] == pool[j].id
  {
    var r := CleanShoeIds(pool);
    var rest := CleanShoeIds(pool[1..]);
    assert r == if CleanShoes(pool[0]) then [pool[0].id] + rest else rest;
    assert pool[1..][j - 1] == pool[j];
    var a: nat, b: nat;
    if i == 0 {
      var b0 :| 0 <= b0 < |rest| && rest[b0] == pool[j].id;
      a, b := 0, b0 + 1;
    } else {
      assert pool[1..][i - 1] == pool[i];
      CleanShoeIdsOrdered(pool[1..], i - 1, j - 1);
      var a0, b0 :| 0 <= a0 < b0 < |rest| && rest[a0] == pool[i].id && rest[b0] == pool[j].id;
      a, b := if CleanShoes(pool[0]) then a0 + 1 else a0, if CleanShoes(pool[0]) then b0 + 1 else b0;
    }
    assert 0 <= a < b < |r| && r[a] == pool[i].id && r[b] == pool[j].id;
  }

  // ---------------------------------------------------------------- the stages

  /** The generation stage is reached only when a flag asks for it. */
  predicate LlmEnabled(env: Env, req: Request)
  {
    req.useLlm || env.useLlmOutfits || env.llmOnlyMode
  }

  /** The checks before any generation call, in order; `None` lets the request through. */
  function Intake(env: Env, req: Request, items: seq<WardrobeItem>, c: Conditions): Option<Message>
  {
    if items == [] then Some(NoWardrobeItems)
    else if CleanItems(items) == [] then Some(NoCleanItems)
    else
      var verdict := Check(items, NormaliseOccasion(req.occasion), ExcludedIds(req.excludeIds), c.temp, c.condition);
      if verdict.Infeasible? then Some(CannotCreate(verdict))
      else if !LlmEnabled(env, req) then Some(NonLlmRemoved)
      else None
  }

  /**
   * What every generation call of one request shares. `call` and `judge`
   * are the generation call and the validator on this request's inputs
   * (`Wired`); the stage functions below use them through these two fields.
   */
  datatype Context = Context(env: Env, pool: seq<WardrobeItem>, accs: seq<Accessory>, weather: string, occasion: string,
                             excl: set<int>, excluded: seq<int>, conditions: Conditions,
                             server: nat -> (nat -> Response), codecs: Codecs,
                             shoeIds: seq<Option<int>>, accessoryIds: seq<string>, accessoryPass: bool,
                             call: (real, Option<Clause>, nat) -> CallResult, judge: LlmResult -> Validation)

  /**
   * The derived fields: the clean shoe ids of the pool, the accessory ids,
   * and whether the accessory pass applies at all (accessories exist and
   * the occasion is not Gym).
   */
  predicate Derived(ctx: Context)
  {
    ctx.shoeIds == CleanShoeIds(ctx.pool) && ctx.accessoryIds == AccessoryIds(ctx.accs) &&
    ctx.accessoryPass == (ctx.accs != [] && Lower(Strip(ctx.occasion, PySpace)) != "gym")
  }

  /** `call` is `generate_with_llm` answered by the `n`-th call's responses, and `judge` is the validator. */
  ghost predicate Wired(ctx: Context)
  {
    CallWired(ctx) && JudgeWired(ctx)
  }

  /** The generation call through the context, named so that the wiring is used only where it is asked for. */
  function CallAt(ctx: Context, t: real, x: Option<Clause>, n: nat): CallResult
  {
    ctx.call(t, x, n)
  }

  ghost predicate CallWired(ctx: Context)
  {
    forall t, x, n {:trigger CallAt(ctx, t, x, n)} :: CallAt(ctx, t, x, n) ==
      LlmCall(ctx.env, ctx.pool, ctx.accs, ctx.weather, ctx.occasion, t, ClauseText(x), ctx.server(n), ctx.codecs)
  }

  /** The validator through the context, named for the same reason. */
  function JudgeAt(ctx: Context, res: LlmResult): Validation
  {
    ctx.judge(res)
  }

  ghost predicate JudgeWired(ctx: Context)
  {
    forall res {:trigger JudgeAt(ctx, res)} :: JudgeAt(ctx, res) == Validate(res, ctx.pool, ctx.accs, ctx.excl)
  }

  /** The `n`-th generation call of the request. */
  function Invoke(ctx: Context, purpose: Purpose, temperature: real, extra: Option<Clause>, n: nat): Invocation
  {
    var c := ctx.call(temperature, extra, n);
    Invocation(purpose, temperature, extra, c.result, c.trace)
  }

  function Judge(ctx: Context, res: LlmResult): Validation
  {
    ctx.judge(res)
  }

  /** The four rejection codes that earn one correction call. */
  predicate Remediable(v: Validation)
  {
    v.Rejected? && (v.why == MissingShoes || v.why.UnknownAccessory? || v.why == InvalidSchema || v.why.UsedExcluded?)
  }

  function FirstCall(ctx: Context): Invocation
  {
    var t := if ctx.excl != {} then 0.35 else 0.25;
    var extra := if ctx.excl != {} then Some(AvoidDisliked(ctx.excluded)) else None;
    Invoke(ctx, First, t, extra, 0)
  }

  function CorrectionCall(ctx: Context): Invocation
  {
    Invoke(ctx, Correct, 0.25, Some(Correction(ctx.shoeIds, ctx.excluded)), 1)
  }

  function AccessoryCall(ctx: Context, n: nat): Invocation
  {
    Invoke(ctx, AddAccessory, if ctx.excl != {} then 0.35 else 0.3, Some(AccessoryChoice(ctx.accessoryIds)), n)
  }

  /** The accessory pass applies: accessories exist, the occasion is not Gym, and the outfit has none yet. */
  predicate WantsAccessory(ctx: Context, v: Validation)
    requires v.Accepted?
  {
    ctx.accessoryPass && !v.hasAccessory && ctx.accessoryIds != []
  }

  /** The accessory pass's choice: the new verdict only when it is valid and has an accessory. */
  function Prefer(v: Validation, upgrade: Validation): (r: Validation)
    requires v.Accepted?
    ensures r.Accepted?
    ensures r == v || (r == upgrade && r.hasAccessory)
    ensures upgrade.Accepted? && upgrade.hasAccessory ==> r == upgrade
  {
    if upgrade.Accepted? && upgrade.hasAccessory then upgrade else v
  }

  /** The failure answer when the final verdict rejects: the first call's own error when it has one, else the rejection. */
  function FailureReport(ctx: Context, why: Rejection, first: LlmResult): Outcome
  {
    if why.LlmErrorCode? && HasErrorText(first) then
      Report(UpstreamFailure(UpstreamOf(first)), ctx.weather, ctx.conditions, UpstreamCode(first), UpstreamRetry(first), Some("llm"))
    else Report(ValidationFailed(why), ctx.weather, ctx.conditions, None, None, Some("llm"))
  }

  /** `llm_res.get("error")` is truthy: every error dictionary of the client, or a reply object with a truthy "error". */
  predicate HasErrorText(res: LlmResult)
  {
    res.Failure? || (res.value.JObj? && Truthy(Get(res.value.fields, "error")))
  }

  function UpstreamOf(res: LlmResult): Upstream
  {
    match res
    case Failure(e) => CallError(e)
    case Reply(j) => ReplyError(if j.JObj? then Get(j.fields, "error") else JNull)
  }

  /** The `code` key copied when truthy: only the rate-limit dictionary has one. */
  function UpstreamCode(res: LlmResult): Option<Json>
  {
    match res
    case Failure(e) => if e.RateLimited? then Some(JStr("rate_limit_exceeded")) else None
    case Reply(j) => if j.JObj? && Truthy(Get(j.fields, "code")) then Some(j.fields["code"]) else None
  }

  /** The `retry_after` key copied when not `None`. */
  function UpstreamRetry(res: LlmResult): Option<Json>
  {
    match res
    case Failure(e) => if e.RateLimited? && e.retryAfter.Some? then Some(JFloat(e.retryAfter.value)) else None
    case Reply(j) => if j.JObj? && Get(j.fields, "retry_after") != JNull then Some(j.fields["retry_after"]) else None
  }

  /** The answer for an accepted outfit: its entries, explanation and score with the weather fields merged in. */
  function Assemble(ctx: Context, v: Validation): Outcome
    requires v.Accepted?
  {
    Outfit(v.outfit, v.explanation, v.score, ctx.weather, ctx.conditions, JNull, Some("llm"))
  }

  /** After the first call and the optional correction: fail, or accept and try the accessory pass. */
  function Settle(ctx: Context, v: Validation, first: LlmResult, calls: seq<Invocation>): Run
  {
    if v == Raised then Run(Report(CallFailed, ctx.weather, ctx.conditions, None, None, Some("llm")), calls)
    else if v.Rejected? then Run(FailureReport(ctx, v.why, first), calls)
    else if WantsAccessory(ctx, v) then
      var third := AccessoryCall(ctx, |calls|);
      Run(Assemble(ctx, Prefer(v, Judge(ctx, third.result))), calls + [third])
    else Run(Assemble(ctx, v), calls)
  }

  /** The generation stage: the first call, the correction call for a remediable rejection, then `Settle`. */
  function Passes(ctx: Context): Run
  {
    var first := FirstCall(ctx);
    var v1 := Judge(ctx, first.result);
    if v1 == Raised then Run(Report(CallFailed, ctx.weather, ctx.conditions, None, None, Some("llm")), [first])
    else if Remediable(v1) then
      var second := CorrectionCall(ctx);
      Settle(ctx, Judge(ctx, second.result), first.result, [first, second])
    else Settle(ctx, v1, first.result, [first])
  }

  function ContextOf(env: Env, req: Request, items: seq<WardrobeItem>, accs: seq<Accessory>, c: Conditions, svc: Services): (ctx: Context)
    ensures Wired(ctx) && Derived(ctx)
    ensures ctx.occasion == NormaliseOccasion(req.occasion) && ctx.excl == ExcludedIds(req.excludeIds)
    ensures ctx.pool == Pool(items, ctx.occasion, ctx.excl) && ctx.accs == accs
    ensures ctx.weather == PromptWeather(c, svc.show) && ctx.conditions == c
  {
    var occasion := NormaliseOccasion(req.occasion);
    var excl := ExcludedIds(req.excludeIds);
    var pool := Pool(items, occasion, excl);
    var weather := PromptWeather(c, svc.show);
    Context(env, pool, accs, weather, occasion, excl, SortedExclusions(req.excludeIds), c, svc.server, svc.codecs,
            CleanShoeIds(pool), AccessoryIds(accs), accs != [] && Lower(Strip(occasion, PySpace)) != "gym",
            (t: real, x: Option<Clause>, n: nat) => LlmCall(env, pool, accs, weather, occasion, t, ClauseText(x), svc.server(n), svc.codecs),
            (res: LlmResult) => Validate(res, pool, accs, excl))
  }

  /** `generate_outfit` on the request, the configuration, the caller-supplied inventory and the outside world. */
  function Generate(env: Env, req: Request, items: seq<WardrobeItem>, accs: seq<Accessory>, svc: Services): Run
  {
    match Observe(req.weatherOverride, svc.live)
    case WeatherFailed(e) => Run(WeatherUnavailable(e), [])
    case Observed(c) =>
      var early := Intake(env, req, items, c);
      if early.Some? then Run(Report(early.value, WeatherLine(c, svc.show), c, None, None, None), [])
      else Passes(ContextOf(env, req, items, accs, c, svc))
  }

  // ---------------------------------------------------------------- the controller as written

  /** One `generate_with_llm` call, recorded. */
  method CallModel(ctx: Context, purpose: Purpose, temperature: real, extra: Option<Clause>, n: nat) returns (inv: Invocation)
    requires CallWired(ctx)
    ensures inv == Invoke(ctx, purpose, temperature, extra, n)
  {
    var result, trace := GenerateWithLlm(ctx.env, ctx.pool, ctx.accs, ctx.weather, ctx.occasion, temperature, ClauseText(extra),
                                         ctx.server(n), ctx.codecs);
    assert CallAt(ctx, temperature, extra, n) == CallResult(result, trace);
    inv := Invocation(purpose, temperature, extra, result, trace);
  }

  /** The validator on one result. */
  method JudgeResult(ctx: Context, res: LlmResult) returns (v: Validation)
    requires JudgeWired(ctx)
    ensures v == Judge(ctx, res)
  {
    v := ValidateOutput(res, ctx.pool, ctx.accs, ctx.excl);
    assert JudgeAt(ctx, res) == v;
  }

  /** The `try` block after the gates: `validation` is reassigned by the correction and accessory passes. */
  method GenerationStage(ctx: Context) returns (run: Run)
    requires Wired(ctx) && Derived(ctx)
    ensures run == Passes(ctx)
  {
    var t1 := if ctx.excl != {} then 0.35 else 0.25;
    var x1 := if ctx.excl != {} then Some(AvoidDisliked(ctx.excluded)) else None;
    var first := CallModel(ctx, First, t1, x1, 0);
    var calls := [first];
    var validation := JudgeResult(ctx, first.result);
    if validation == Raised {
      return Run(Report(CallFailed, ctx.weather, ctx.conditions, None, None, Some("llm")), calls);
    }
    if Remediable(validation) {
      var second := CallModel(ctx, Correct, 0.25, Some(Correction(CleanShoeIds(ctx.pool), ctx.excluded)), 1);
      calls := [first, second];
      validation := JudgeResult(ctx, second.result);
      assert validation == Judge(ctx, CorrectionCall(ctx).result);
    }
    run := SettleStage(ctx, validation, first.result, calls);
  }

  /** The failure answers, then the best-effort accessory pass, then the assembly. */
  method SettleStage(ctx: Context, validation: Validation, first: LlmResult, calls: seq<Invocation>) returns (run: Run)
    requires Wired(ctx) && Derived(ctx)
    ensures run == Settle(ctx, validation, first, calls)
  {
    if validation == Raised {
      return Run(Report(CallFailed, ctx.weather, ctx.conditions, None, None, Some("llm")), calls);
    }
    if validation.Rejected? {
      return Run(FailureReport(ctx, validation.why, first), calls);
    }
    var chosen := validation;
    var all := calls;
    var wants := ctx.accs != [] && Lower(Strip(ctx.occasion, PySpace)) != "gym";
    if wants && !validation.hasAccessory {
      var ids := AccessoryIds(ctx.accs);
      if ids != [] {
        var third := CallModel(ctx, AddAccessory, if ctx.excl != {} then 0.35 else 0.3, Some(AccessoryChoice(ids)), |calls|);
        all := calls + [third];
        var upgrade := JudgeResult(ctx, third.result);
        if upgrade.Accepted? && upgrade.hasAccessory {
          chosen := upgrade;
        }
      }
    }
    run := Run(Assemble(ctx, chosen), all);
  }

  /** `generate_outfit`: the weather intake, the gates in order, then the generation stage. */
  method GenerateOutfit(env: Env, req: Request, items: seq<WardrobeItem>, accs: seq<Accessory>, svc: Services)
    returns (run: Run)
    ensures run == Generate(env, req, items, accs, svc)
  {
    var condition, temp, humidity, wind := JNull, None, JNull, JNull;
    if req.weatherOverride.Some? && (Truthy(req.weatherOverride.value.weather) || Truthy(req.weatherOverride.value.condition)) {
      var o := req.weatherOverride.value;
      condition := Or(o.condition, o.weather);
      temp, humidity, wind := o.temp, o.humidity, o.wind;
    }
    if !Truthy(condition) {
      match svc.live
      case LiveError(e) =>
        return Run(WeatherUnavailable(e), []);
      case Live(observed) =>
        condition, temp, humidity, wind := observed.condition, observed.temp, observed.humidity, observed.wind;
    }
    var c := Conditions(condition, temp, humidity, wind);
    var weather := WeatherLine(c, svc.show);
    if items == [] {
      return Run(Report(NoWardrobeItems, weather, c, None, None, None), []);
    }
    var occasion := NormaliseOccasion(req.occasion);
    var excl := ExcludeSet(req.excludeIds);
    if CleanItems(items) == [] {
      return Run(Report(NoCleanItems, weather, c, None, None, None), []);
    }
    var verdict := Check(items, occasion, excl, temp, condition);
    if verdict.Infeasible? {
      return Run(Report(CannotCreate(verdict), weather, c, None, None, None), []);
    }
    if !(req.useLlm || env.useLlmOutfits || env.llmOnlyMode) {
      return Run(Report(NonLlmRemoved, weather, c, None, None, None), []);
    }
    var ctx := ContextOf(env, req, items, accs, c, svc);
    run := GenerationStage(ctx);
  }

  // ---------------------------------------------------------------- properties

  /** The settled verdict: the correction's when the first was remediable, else the first's. */
  function Settled(ctx: Context): Validation
  {
    var v1 := Judge(ctx, FirstCall(ctx).result);
    if v1 != Raised && Remediable(v1) then Judge(ctx, CorrectionCall(ctx).result) else v1
  }

  /** The stages: a weather failure or an early gate makes no generation call; otherwise the generation stage decides. */
  lemma Stages(env: Env, req: Request, items: seq<WardrobeItem>, accs: seq<Accessory>, svc: Services)
    ensures var r := Generate(env, req, items, accs, svc);
      var obs := Observe(req.weatherOverride, svc.live);
      (obs.WeatherFailed? ==> r == Run(WeatherUnavailable(obs.error), [])) &&
      (obs.Observed? && Intake(env, req, items, obs.conditions).Some? ==>
         r == Run(Report(Intake(env, req, items, obs.conditions).value, WeatherLine(obs.conditions, svc.show),
                         obs.conditions, None, None, None), [])) &&
      (obs.Observed? && Intake(env, req, items, obs.conditions).None? ==>
         r == Passes(ContextOf(env, req, items, accs, obs.conditions, svc)))
  {
  }

  /** An infeasible request is answered with the missing parts before any generation call. */
  lemma InfeasibleMakesNoCall(env: Env, req: Request, items: seq<WardrobeItem>, accs: seq<Accessory>, svc: Services)
    requires Observe(req.weatherOverride, svc.live).Observed?
    requires items != [] && CleanItems(items) != []
    requires var c := Observe(req.weatherOverride, svc.live).conditions;
      Check(items, NormaliseOccasion(req.occasion), ExcludedIds(req.excludeIds), c.temp, c.condition).Infeasible?
    ensures var r := Generate(env, req, items, accs, svc);
      var c := Observe(req.weatherOverride, svc.live).conditions;
      r.calls == [] &&
      r.outcome == Report(CannotCreate(Check(items, NormaliseOccasion(req.occasion), ExcludedIds(req.excludeIds), c.temp, c.condition)),
                          WeatherLine(c, svc.show), c, None, None, None)
  {
  }

  /**
   * At most three generation calls: the first, then possibly the correction,
   * then possibly the accessory call, in that order.
   */
  lemma {:induction false} CallBudget(ctx: Context)
    ensures var calls := Passes(ctx).calls;
      1 <= |calls| <= 3 && calls[0] == FirstCall(ctx) &&
      (|calls| >= 2 ==> calls[1].purpose != First) &&
      (|calls| == 3 ==> calls[1] == CorrectionCall(ctx) && calls[2].purpose == AddAccessory)
  {
  }

  /** The correction call is made exactly when the first verdict carries one of the four remediable codes. */
  lemma CorrectionIffRemediable(ctx: Context)
    ensures var calls := Passes(ctx).calls;
      (exists i :: 0 <= i < |calls| && calls[i].purpose == Correct) <==> Remediable(Judge(ctx, FirstCall(ctx).result))
    ensures var calls := Passes(ctx).calls;
      Remediable(Judge(ctx, FirstCall(ctx).result)) ==> |calls| >= 2 && calls[1] == CorrectionCall(ctx)
  {
    var first := FirstCall(ctx);
    var v1 := Judge(ctx, first.result);
    var calls := Passes(ctx).calls;
    if v1 != Raised {
      if Remediable(v1) {
        var second := CorrectionCall(ctx);
        SettleCalls(ctx, Judge(ctx, second.result), first.result, [first, second]);
        assert calls[1] == second;
      } else {
        SettleCalls(ctx, v1, first.result, [first]);
        assert forall i :: 0 <= i < |calls| ==> calls[i].purpose != Correct;
      }
    }
  }

  /** Settling keeps the calls made so far and adds at most the accessory call. */
  lemma SettleCalls(ctx: Context, v: Validation, first: LlmResult, calls: seq<Invocation>)
    ensures var r := Settle(ctx, v, first, calls).calls;
      r == calls || r == calls + [AccessoryCall(ctx, |calls|)]
  {
  }

  /**
   * With an accepted settled verdict, the accessory call is made exactly when
   * the pass applies, as the last call; its verdict is then preferred, so an
   * accepted reply with an accessory is what the answer delivers.
   */
  lemma AccessoryPassWhenWanted(ctx: Context)
    requires Settled(ctx).Accepted?
    ensures var r := Passes(ctx); var n := |r.calls|;
      n >= 1 &&
      (r.calls[n - 1].purpose == AddAccessory <==> WantsAccessory(ctx, Settled(ctx))) &&
      (WantsAccessory(ctx, Settled(ctx)) ==>
        r.calls[n - 1] == AccessoryCall(ctx, n - 1) &&
        r.outcome == Assemble(ctx, Prefer(Settled(ctx), Judge(ctx, r.calls[n - 1].result)))) &&
      (!WantsAccessory(ctx, Settled(ctx)) ==> r.outcome == Assemble(ctx, Settled(ctx)))
  {
  }

  /**
   * The accessory pass never turns success into failure: when the settled
   * verdict accepts, the answer is an outfit — the settled one, or the
   * accessory call's accepted outfit that has an accessory.
   */
  lemma UpgradeKeepsSuccess(ctx: Context)
    requires Settled(ctx).Accepted?
    ensures var r := Passes(ctx);
      r.outcome.Outfit? &&
      (r.outcome == Assemble(ctx, Settled(ctx)) ||
       (r.calls[|r.calls| - 1].purpose == AddAccessory &&
        Judge(ctx, r.calls[|r.calls| - 1].result).Accepted? && Judge(ctx, r.calls[|r.calls| - 1].result).hasAccessory &&
        r.outcome == Assemble(ctx, Judge(ctx, r.calls[|r.calls| - 1].result))))
  {
  }

  /** Conversely, an outfit is delivered only when the settled verdict accepts. */
  lemma OutfitNeedsAcceptance(ctx: Context)
    requires Passes(ctx).outcome.Outfit?
    ensures Settled(ctx).Accepted?
  {
  }

  /** Every delivered outfit is some call's accepted verdict, with the weather fields, no warning and source "llm". */
  lemma {:induction false} OutfitFromACall(ctx: Context)
    requires Passes(ctx).outcome.Outfit?
    ensures var r := Passes(ctx);
      r.outcome.weather == ctx.weather && r.outcome.conditions == ctx.conditions &&
      r.outcome.warning == JNull && r.outcome.source == Some("llm") &&
      exists j :: 0 <= j < |r.calls| && Judge(ctx, r.calls[j].result).Accepted? &&
                  r.outcome.outfit == Judge(ctx, r.calls[j].result).outfit
  {
    var r := Passes(ctx);
    var v1 := Judge(ctx, FirstCall(ctx).result);
    if v1 != Raised && Remediable(v1) {
      assert r == Settle(ctx, Judge(ctx, CorrectionCall(ctx).result), FirstCall(ctx).result, [FirstCall(ctx), CorrectionCall(ctx)]);
      SettleOutfit(ctx, Judge(ctx, CorrectionCall(ctx).result), FirstCall(ctx).result, [FirstCall(ctx), CorrectionCall(ctx)], 1);
    } else {
      assert r == Settle(ctx, v1, FirstCall(ctx).result, [FirstCall(ctx)]);
      SettleOutfit(ctx, v1, FirstCall(ctx).result, [FirstCall(ctx)], 0);
    }
  }

  lemma SettleOutfit(ctx: Context, v: Validation, first: LlmResult, calls: seq<Invocation>, j: nat)
    requires j < |calls| && v == Judge(ctx, calls[j].result)
    requires Settle(ctx, v, first, calls).outcome.Outfit?
    ensures var r := Settle(ctx, v, first, calls);
      r.outcome.weather == ctx.weather && r.outcome.conditions == ctx.conditions &&
      r.outcome.warning == JNull && r.outcome.source == Some("llm") &&
      exists k :: 0 <= k < |r.calls| && Judge(ctx, r.calls[k].result).Accepted? &&
                  r.outcome.outfit == Judge(ctx, r.calls[k].result).outfit
  {
    var r := Settle(ctx, v, first, calls);
    if WantsAccessory(ctx, v) {
      var third := AccessoryCall(ctx, |calls|);
      var u := Judge(ctx, third.result);
      if u.Accepted? && u.hasAccessory {
        assert r.calls[|calls|] == third;
      } else {
        assert r.calls[j] == calls[j];
      }
    } else {
      assert r.calls[j] == calls[j];
    }
  }

  /**
   * The closed world of a delivered outfit: every wardrobe id names a clean,
   * non-excluded item of the request's wardrobe in the chosen occasion's
   * category, every accessory id names one of the accessories, and some
   * entry references a shoes item.
   */
  lemma DeliveredClosedWorld(ctx: Context, items: seq<WardrobeItem>)
    requires JudgeWired(ctx) && ctx.pool == Pool(items, ctx.occasion, ctx.excl)
    requires Passes(ctx).outcome.Outfit?
    ensures var out := Passes(ctx).outcome.outfit;
      forall k :: 0 <= k < |out| && out[k].id.ItemRef? ==>
        var item := LookupItem(ctx.pool, out[k].id.n);
        item.Some? && item.value in items && item.value.id == Some(out[k].id.n) &&
        out[k].id.n !in ctx.excl && Offered(item.value, ctx.occasion, ctx.excl)
    ensures var out := Passes(ctx).outcome.outfit;
      forall k :: 0 <= k < |out| && out[k].id.AccessoryRef? ==> exists a :: a in ctx.accs && a.oid == Some(out[k].id.s)
    ensures var out := Passes(ctx).outcome.outfit;
      exists k :: 0 <= k < |out| && out[k].id.ItemRef? && LookupItem(ctx.pool, out[k].id.n).Some? &&
        HasKind(LookupItem(ctx.pool, out[k].id.n).value, "shoes")
  {
    OutfitFromACall(ctx);
    var r := Passes(ctx);
    var j :| 0 <= j < |r.calls| && Judge(ctx, r.calls[j].result).Accepted? &&
             r.outcome.outfit == Judge(ctx, r.calls[j].result).outfit;
    assert JudgeAt(ctx, r.calls[j].result) == Validate(r.calls[j].result, ctx.pool, ctx.accs, ctx.excl);
    AcceptedClosedWorld(r.calls[j].result, ctx.pool, ctx.accs, ctx.excl);
    PoolMembers(items, ctx.occasion, ctx.excl);
  }

  /**
   * As written, the upstream error text, code and retry hint are read from
   * the first call only: after a correction, a failed second call is
   * reported as a validation failure and its code and retry hint are lost.
   */
  lemma SecondCallErrorUnreported(ctx: Context)
    requires JudgeWired(ctx)
    requires Remediable(Judge(ctx, FirstCall(ctx).result))
    ensures var r := Passes(ctx);
      r.outcome.Report? ==> !r.outcome.message.UpstreamFailure? && r.outcome.code == None && r.outcome.retryAfter == None
  {
    assert JudgeAt(ctx, FirstCall(ctx).result) == Validate(FirstCall(ctx).result, ctx.pool, ctx.accs, ctx.excl);
    RemediableIsReply(FirstCall(ctx).result, ctx.pool, ctx.accs, ctx.excl);
  }

  /** A rate-limited first call is surfaced with its code and retry hint after that single call. */
  lemma RateLimitSurfaced(ctx: Context, hint: real)
    requires JudgeWired(ctx)
    requires FirstCall(ctx).result == Failure(RateLimited(Some(hint)))
    ensures Passes(ctx) == Run(Report(UpstreamFailure(CallError(RateLimited(Some(hint)))), ctx.weather, ctx.conditions,
                                      Some(JStr("rate_limit_exceeded")), Some(JFloat(hint)), Some("llm")),
                               [FirstCall(ctx)])
  {
    assert JudgeAt(ctx, FirstCall(ctx).result) == Validate(FirstCall(ctx).result, ctx.pool, ctx.accs, ctx.excl);
  }

  /** An excluded or unknown wardrobe id in the first reply is not remediable: it fails after one call. */
  lemma UnknownItemNotRetried(ctx: Context, ref: Json)
    requires Judge(ctx, FirstCall(ctx).result) == Rejected(UnknownItem(ref))
    ensures Passes(ctx) == Run(Report(ValidationFailed(UnknownItem(ref)), ctx.weather, ctx.conditions, None, None, Some("llm")),
                               [FirstCall(ctx)])
  {
  }
}
