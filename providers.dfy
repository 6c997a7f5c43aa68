/**
 * The provider dispatcher (providers/__init__.py): routes a prompt to the
 * Ollama or OpenAI client library when one is usable and otherwise POSTs it
 * to an HTTP endpoint; and brings provider responses into one shape with
 * `text`, `choices` and `raw` fields.
 */
module Providers {
  import opened Wrappers
  import opened Text
  import opened Json

  /** Python's `x or default` for an optional string: a missing or empty value gives the default. */
  function OrDefault(u: Option<string>, default: string): (r: string)
    ensures u.Some? && u.value != "" ==> r == u.value
    ensures u.None? || u.value == "" ==> r == default
  {
    if u.Some? && u.value != "" then u.value else default
  }

  /** `_ensure_scheme`: nothing for a missing or empty URL, otherwise the URL with `http://` added unless it already has a scheme. */
  function EnsureScheme(u: Option<string>): (r: Option<string>)
    ensures r.None? <==> u.None? || u.value == ""
    ensures r.Some? ==> "http://" <= r.value || "https://" <= r.value
  {
    if u.None? || u.value == "" then None
    else if "http://" <= u.value || "https://" <= u.value then u
    else Some("http://" + u.value)
  }

  /** Every URL it returns has a scheme, keeps the original text as its tail, and it is idempotent. */
  lemma EnsureSchemeMeaning(u: Option<string>)
    ensures EnsureScheme(u).None? <==> u.None? || u.value == ""
    ensures EnsureScheme(u).Some? ==>
      var v := EnsureScheme(u).value;
      ("http://" <= v || "https://" <= v) && |u.value| <= |v| && v[|v| - |u.value|..] == u.value
    ensures EnsureScheme(u).Some? && ("http://" <= u.value || "https://" <= u.value) ==> EnsureScheme(u) == u
    ensures EnsureScheme(EnsureScheme(u)) == EnsureScheme(u)
  {
    if u.Some? && u.value != "" && !("http://" <= u.value || "https://" <= u.value) {
      var v := "http://" + u.value;
      assert v[..7] == "http://";
    }
  }

  const OllamaHost := "localhost:11434"
  const OllamaEndpoint := "http://localhost:11434/api/generate"
  const OpenAiEndpoint := "https://api.openai.com/v1/completions"

  /** The calls `call_provider` can make. */
  datatype Call =
    | OllamaGenerate(host: string, model: string, prompt: string)
    | OpenAiComplete(apiKey: string, model: string, prompt: string)
    | Post(url: string, body: Json)

  /** The body of the fallback POST: `{"model": model, "prompt": prompt}`. */
  function PostBody(model: Option<string>, prompt: string): Json {
    Obj([("model", if model.Some? then Str(model.value) else Null), ("prompt", Str(prompt))])
  }

  /**
   * The calls `call_provider` makes, in order, when every client call
   * raises: at most one client call, then the fallback POST. `ollamaLoaded`
   * and `openaiLoaded` say whether the client modules imported; `apiKey` is
   * the `OPENAI_API_KEY` environment variable.
   */
  function CallPlan(provider: string, url: Option<string>, model: Option<string>, prompt: string,
                    apiKey: Option<string>, ollamaLoaded: bool, openaiLoaded: bool): seq<Call>
  {
    if provider == "ollama" then
      (if ollamaLoaded then [OllamaGenerate(OrDefault(url, OllamaHost), OrDefault(model, "default"), prompt)] else [])
      + [Post(EnsureScheme(url).GetOr(OllamaEndpoint), PostBody(model, prompt))]
    else
      (if provider == "openai" && apiKey.Some? && apiKey.value != "" && openaiLoaded
       then [OpenAiComplete(apiKey.value, OrDefault(model, "gpt-3.5-turbo"), prompt)] else [])
      + [Post(EnsureScheme(url).GetOr(OpenAiEndpoint), PostBody(model, prompt))]
  }

  /** Why a call failed, as the exception text the caller records. */
  type Answers = Call -> Result<Json, string>

  /**
   * The calls `call_provider` actually makes, from a plan: each call in
   * turn until one returns; the last call (the POST) is made whenever the
   * calls before it raised.
   */
  function CallsMade(plan: seq<Call>, answers: Answers): (r: seq<Call>)
    requires |plan| > 0
    ensures 0 < |r| && r <= plan
    ensures forall i :: 0 <= i < |r| - 1 ==> answers(r[i]).Err?
    ensures answers(r[|r| - 1]).Ok? || r == plan
    decreases |plan|
  {
    if |plan| == 1 || answers(plan[0]).Ok? then [plan[0]]
    else [plan[0]] + CallsMade(plan[1..], answers)
  }

  /**
   * `call_provider`: the answer of the last call made, where a failed
   * client call falls through to the POST and a failed POST raises. Every
   * answer is that of a planned call, and an exception is the POST's.
   */
  function CallProvider(provider: string, url: Option<string>, model: Option<string>, prompt: string,
                        apiKey: Option<string>, ollamaLoaded: bool, openaiLoaded: bool, answers: Answers): (r: Result<Json, string>)
    ensures var plan := CallPlan(provider, url, model, prompt, apiKey, ollamaLoaded, openaiLoaded);
            && (exists i :: 0 <= i < |plan| && answers(plan[i]) == r)
            && (r.Err? ==> |plan| > 0 && r == answers(plan[|plan| - 1]))
  {
    var plan := CallPlan(provider, url, model, prompt, apiKey, ollamaLoaded, openaiLoaded);
    var made := CallsMade(plan, answers);
    assert made[|made| - 1] == plan[|made| - 1];
    answers(made[|made| - 1])
  }

  /**
   * Every plan ends with the POST, preceded by at most one client call; a
   * provider other than `ollama` POSTs to its URL or the OpenAI endpoint, so
   * no provider is ever refused.
   */
  lemma CallPlanShape(provider: string, url: Option<string>, model: Option<string>, prompt: string,
                      apiKey: Option<string>, ollamaLoaded: bool, openaiLoaded: bool)
    ensures var plan := CallPlan(provider, url, model, prompt, apiKey, ollamaLoaded, openaiLoaded);
      && 1 <= |plan| <= 2
      && plan[|plan| - 1].Post?
      && plan[|plan| - 1].body == PostBody(model, prompt)
      && (forall i :: 0 <= i < |plan| - 1 ==> !plan[i].Post?)
      && plan[|plan| - 1].url == EnsureScheme(url).GetOr(if provider == "ollama" then OllamaEndpoint else OpenAiEndpoint)
      && (|plan| == 2 <==> (if provider == "ollama" then ollamaLoaded
                            else provider == "openai" && apiKey.Some? && apiKey.value != "" && openaiLoaded))
  {
  }

  /** A client call that returns is the answer, and no POST is made. */
  lemma ClientAnswerWins(provider: string, url: Option<string>, model: Option<string>, prompt: string,
                         apiKey: Option<string>, ollamaLoaded: bool, openaiLoaded: bool, answers: Answers)
    requires var plan := CallPlan(provider, url, model, prompt, apiKey, ollamaLoaded, openaiLoaded);
      |plan| == 2 && answers(plan[0]).Ok?
    ensures var plan := CallPlan(provider, url, model, prompt, apiKey, ollamaLoaded, openaiLoaded);
            var made := CallsMade(plan, answers);
            && made == [plan[0]]
            && (forall c :: c in made ==> !c.Post?)
            && CallProvider(provider, url, model, prompt, apiKey, ollamaLoaded, openaiLoaded, answers) == answers(plan[0])
  {
    CallPlanShape(provider, url, model, prompt, apiKey, ollamaLoaded, openaiLoaded);
  }

  /** Without a usable client the answer is the POST's, and a raising POST raises out of the dispatcher. */
  lemma PostDecides(provider: string, url: Option<string>, model: Option<string>, prompt: string,
                    apiKey: Option<string>, ollamaLoaded: bool, openaiLoaded: bool, answers: Answers)
    requires var plan := CallPlan(provider, url, model, prompt, apiKey, ollamaLoaded, openaiLoaded);
      |plan| == 1 || answers(plan[0]).Err?
    ensures var plan := CallPlan(provider, url, model, prompt, apiKey, ollamaLoaded, openaiLoaded);
            CallsMade(plan, answers) == plan
    ensures CallProvider(provider, url, model, prompt, apiKey, ollamaLoaded, openaiLoaded, answers)
         == answers(Post(EnsureScheme(url).GetOr(if provider == "ollama" then OllamaEndpoint else OpenAiEndpoint), PostBody(model, prompt)))
  {
    CallPlanShape(provider, url, model, prompt, apiKey, ollamaLoaded, openaiLoaded);
  }

  /** The exceptions `normalize_provider_response` can let escape. */
  datatype NormalizeError = AttributeError | IndexError

  /** `first.get('message', {}).get('content')`: raises where `message` holds something other than a dict. */
  function MessageContent(first: Json): Result<Json, NormalizeError>
    requires first.Obj?
  {
    match Get(first, "message")
    case None => Ok(Null)
    case Some(m) => if m.Obj? then Ok(GetOrNull(m, "content")) else Err(AttributeError)
  }

  /** `first.get('text') or first.get('message', {}).get('content')`. */
  function ChoiceText(first: Json): Result<Json, NormalizeError>
    requires first.Obj?
  {
    var t := GetOrNull(first, "text");
    if Truthy(t) then Ok(t) else MessageContent(first)
  }

  /** The text taken from the first choice, when `choices` is a non-empty list whose first item is a dict. */
  function FirstChoiceText(resp: Json): Result<Json, NormalizeError>
    requires resp.Obj?
  {
    var choices := GetOrNull(resp, "choices");
    if choices.Arr? && |choices.items| > 0 && choices.items[0].Obj? then ChoiceText(choices.items[0]) else Ok(Null)
  }

  /**
   * The text the canonical record gets: the first of the choice's text, its
   * message content, the response's `text` and its `output` that is
   * available (the last two only when they are strings).
   */
  function CanonicalText(resp: Json, fromChoice: Json): Option<Json>
    requires resp.Obj?
  {
    if Truthy(fromChoice) then Some(fromChoice)
    else if GetOrNull(resp, "text").Str? then Some(GetOrNull(resp, "text"))
    else if GetOrNull(resp, "output").Str? then Some(GetOrNull(resp, "output"))
    else None
  }

  /**
   * The `ProviderResponse` path for a dict: None where building the record
   * raises (a `message` that is not a dict, or a text that is not a string),
   * which sends the caller to the fallback path.
   */
  function ViaSchema(resp: Json): (r: Option<Json>)
    requires resp.Obj?
    ensures r.Some? ==>
      && FirstChoiceText(resp).Ok?
      && r.value.Obj? && |r.value.fields| == 3
      && Get(r.value, "raw") == Some(resp)
      && Get(r.value, "text") == Some(CanonicalText(resp, FirstChoiceText(resp).value).GetOr(Null))
      && Get(r.value, "choices") == Some(if GetOrNull(resp, "choices").Arr? then GetOrNull(resp, "choices") else Null)
  {
    var fromChoice := FirstChoiceText(resp);
    if fromChoice.Err? then None
    else
      var text := CanonicalText(resp, fromChoice.value);
      if text.Some? && !text.value.Str? then None
      else
        var choices := GetOrNull(resp, "choices");
        Some(CanonicalRecord(text.GetOr(Null), if choices.Arr? then choices else Null, resp))
  }

  /** The three-field record `{"text", "choices", "raw"}` of the canonical schema. */
  function CanonicalRecord(text: Json, choices: Json, raw: Json): (r: Json)
    ensures r.Obj? && |r.fields| == 3
    ensures Get(r, "text") == Some(text) && Get(r, "choices") == Some(choices) && Get(r, "raw") == Some(raw)
  {
    var fields := [("text", text), ("choices", choices), ("raw", raw)];
    assert fields[1..] == [("choices", choices), ("raw", raw)];
    assert fields[1..][1..] == [("raw", raw)];
    assert "text"[0] != "choices"[0] && "text"[0] != "raw"[0] && "choices"[0] != "raw"[0];
    assert Lookup(fields[1..], "choices") == Some(choices);
    assert Lookup(fields[1..][1..], "raw") == Some(raw);
    Obj(fields)
  }

  /** The fallback path of `normalize_provider_response` for a dict. */
  function Fallback(resp: Json): (r: Result<Json, NormalizeError>)
    requires resp.Obj?
    ensures r.Ok? ==> r.value.Obj? && Get(r.value, "raw") == Some(resp)
  {
    var choices := GetOrNull(resp, "choices");
    if choices.Arr? then
      if |choices.items| == 0 then Err(IndexError)
      else
        var first := choices.items[0];
        var txt := if first.Obj? then ChoiceText(first) else Ok(Null);
        if txt.Err? then Err(txt.error)
        else
          var head := [("choices", choices)] + (if Truthy(txt.value) then [("text", txt.value)] else []);
          LookupAppend(head, [("raw", resp)], "raw");
          Ok(Obj(head + [("raw", resp)]))
    else if GetOrNull(resp, "text").Str? then
      LookupAppend([("text", GetOrNull(resp, "text"))], [("raw", resp)], "raw");
      Ok(Obj([("text", GetOrNull(resp, "text")), ("raw", resp)]))
    else if GetOrNull(resp, "output").Str? then
      LookupAppend([("text", GetOrNull(resp, "output"))], [("raw", resp)], "raw");
      Ok(Obj([("text", GetOrNull(resp, "output")), ("raw", resp)]))
    else Ok(Obj([("raw", resp)]))
  }

  /** `normalize_provider_response`. */
  function NormalizeProviderResponse(resp: Json): (r: Result<Json, NormalizeError>)
    ensures r.Ok? ==> r.value.Obj? && Get(r.value, "raw") == Some(resp)
    ensures !resp.Obj? ==> r == Ok(Obj([("text", Str(PyStr(resp))), ("raw", resp)]))
  {
    if !resp.Obj? then
      LookupAppend([("text", Str(PyStr(resp)))], [("raw", resp)], "raw");
      Ok(Obj([("text", Str(PyStr(resp))), ("raw", resp)]))
    else
      match ViaSchema(resp)
      case Some(canonical) => Ok(canonical)
      case None => Fallback(resp)
  }

  /**
   * When the record can be built, the result carries exactly the three
   * canonical fields: the text by precedence, the choices when they were a
   * list, and the input as `raw`.
   */
  lemma NormalizeCanonical(resp: Json)
    requires resp.Obj? && ViaSchema(resp).Some?
    ensures var r := NormalizeProviderResponse(resp).value;
      var text := CanonicalText(resp, FirstChoiceText(resp).value);
      var choices := GetOrNull(resp, "choices");
      && r.Obj? && |r.fields| == 3
      && Get(r, "text") == Some(text.GetOr(Null))
      && Get(r, "choices") == Some(if choices.Arr? then choices else Null)
      && Get(r, "raw") == Some(resp)
  {
  }

  /**
   * It raises exactly for a non-empty `choices` list whose first item is a
   * dict with a falsy `text` and a `message` that is not a dict.
   */
  lemma NormalizeRaisesIff(resp: Json)
    ensures NormalizeProviderResponse(resp).Err? <==>
      && resp.Obj?
      && var choices := GetOrNull(resp, "choices");
         && choices.Arr? && |choices.items| > 0 && choices.items[0].Obj?
         && !Truthy(GetOrNull(choices.items[0], "text"))
         && Get(choices.items[0], "message").Some? && !Get(choices.items[0], "message").value.Obj?
  {
  }
}
