/** The prompt executor `runPrompt` (src/server/prompts/index.ts): it fills
    the prompt templates, answers from the response cache when a cache key is
    given and known, and otherwise sends the conversation so far plus the new
    user turn to the remote model, caching and recording the first candidate.

    The caller-owned conversation history is a `History` object whose turns
    the executor appends to; the cache directory `.ai_cache` is a
    `ResponseCache` object mapping a cache key to the turn stored under it.
    The remote endpoint is a parameter: a function from the request to the
    HTTP outcome. */
module PromptExecutor {
  import opened Wrappers
  import opened JsStrings
  import opened ResponseSchema
  import opened Types
  import opened ServerUtils

  /** A part of a turn; a part may carry no text. */
  datatype Part = Part(text: Option<string>)

  /** A conversation turn: the role that produced it and its parts. */
  datatype Content = Content(role: string, parts: seq<Part>)

  datatype GenerationConfig = GenerationConfig(
    temperature: int, topP: int, topK: int,
    responseMimeType: Option<string>, responseSchema: Option<Schema>)

  /** The body of the POST to the remote model. */
  datatype Request = Request(contents: seq<Content>, generationConfig: GenerationConfig, systemInstruction: Option<string>)

  datatype Candidate = Candidate(content: Content)

  /** What the remote call yields: a non-2xx status with its text, or a 2xx
      response whose `candidates` list may be absent. */
  datatype RemoteResponse =
    | HttpFailure(status: nat, statusText: string)
    | HttpOk(candidates: Option<seq<Candidate>>)

  /** The ways `runPrompt` throws. */
  datatype PromptError =
    | SchemaGenerationFailed
    | RemoteCallFailed(status: nat, statusText: string)
    | EmptyResponse

  const FailurePrefix := "AI API request failed with status "

  /** The `Error` message of a thrown error. A generator failure is the
      `TypeError` of reading a field of `undefined`. */
  function Message(e: PromptError): string
  {
    match e
    case SchemaGenerationFailed => "TypeError: Cannot read properties of undefined"
    case RemoteCallFailed(status, statusText) => FailurePrefix + NatToString(status) + ": " + statusText
    case EmptyResponse => "No response received from AI API"
  }

  /** The HTTP failure message carries both the status, as digits that read
      back as the status, and the status text, at its end. */
  lemma FailureMessageNamesStatus(status: nat, statusText: string)
    ensures var m := Message(RemoteCallFailed(status, statusText));
            var digits := NatToString(status);
            |FailurePrefix| + |digits| <= |m| &&
            ParseRadix(m[|FailurePrefix|..|FailurePrefix| + |digits|], 10) == status &&
            EndsWith(m, ": " + statusText)
  {
    var m := Message(RemoteCallFailed(status, statusText));
    var digits := NatToString(status);
    assert m[|FailurePrefix|..|FailurePrefix| + |digits|] == digits;
    assert m[|m| - |": " + statusText|..] == ": " + statusText;
    ToRadixRoundTrip(status, 10);
  }

  /** `if (cacheKey)`: a cache key is used when it is given and non-empty. */
  predicate UsesCache(cacheKey: Option<string>)
  {
    cacheKey.Some? && cacheKey.value != ""
  }

  /** The new user turn: role `user`, one part holding the filled user template. */
  function UserTurn(prompt: Prompt, vars: Vars): (turn: Content)
    ensures turn.role == "user" && |turn.parts| == 1
    ensures turn.parts[0].text == Some(ReplaceVars(prompt.user, Some(vars)))
  {
    Content("user", [Part(Some(ReplaceVars(prompt.user, Some(vars))))])
  }

  /** What a request built for `prompt` over the history `turns` must be: the
      history plus the new user turn; temperature 0, topP 0, topK 15; a system
      instruction exactly when the prompt has a non-empty system template,
      filled with the same variables; a JSON MIME type and the generated schema
      exactly when the prompt has a schema generator. */
  ghost predicate IsRequestFor(request: Request, prompt: Prompt, turns: seq<Content>, vars: Vars)
  {
    var config := request.generationConfig;
    request.contents == turns + [UserTurn(prompt, vars)] &&
    config.temperature == 0 && config.topP == 0 && config.topK == 15 &&
    (request.systemInstruction.Some? <==> prompt.system.Some? && prompt.system.value != "") &&
    (request.systemInstruction.Some? ==> request.systemInstruction.value == ReplaceVars(prompt.system.value, Some(vars))) &&
    (config.responseMimeType.Some? <==> prompt.schema.Some?) &&
    (config.responseSchema.Some? <==> prompt.schema.Some?) &&
    (prompt.schema.Some? ==>
      config.responseMimeType == Some("application/json") && config.responseSchema == prompt.schema.value(vars))
  }

  /** Builds the request for a cache miss; fails only when the schema generator
      throws on these variables. */
  function BuildRequest(prompt: Prompt, turns: seq<Content>, vars: Vars): (r: Result<Request, PromptError>)
    ensures r.Err? <==> prompt.schema.Some? && prompt.schema.value(vars).None?
    ensures r.Err? ==> r.error == SchemaGenerationFailed
    ensures r.Ok? ==> IsRequestFor(r.value, prompt, turns, vars)
  {
    var system := if prompt.system.Some? && prompt.system.value != ""
      then Some(ReplaceVars(prompt.system.value, Some(vars))) else None;
    var config := GenerationConfig(0, 0, 15, None, None);
    match prompt.schema
    case None => Ok(Request(turns + [UserTurn(prompt, vars)], config, system))
    case Some(generate) =>
      match generate(vars)
      case None => Err(SchemaGenerationFailed)
      case Some(schema) =>
        Ok(Request(turns + [UserTurn(prompt, vars)],
          config.(responseMimeType := Some("application/json"), responseSchema := Some(schema)), system))
  }

  /** The outcome of one `runPrompt` call: what it returns or throws, the
      request it sent (if any), and the history and cache afterwards. */
  datatype Step = Step(result: Result<Content, PromptError>, sent: Option<Request>,
                       turns: seq<Content>, entries: map<string, Content>)

  /** `runPrompt` as a function of the history, the cache and the endpoint. */
  function Run(prompt: Prompt, turns: seq<Content>, entries: map<string, Content>, vars: Vars,
               cacheKey: Option<string>, endpoint: Request -> RemoteResponse): (s: Step)
    // A hit answers from the cache and sends nothing.
    ensures UsesCache(cacheKey) && cacheKey.value in entries ==>
      s.sent == None && s.result == Ok(entries[cacheKey.value])
    // A miss sends the request for this prompt, or nothing when the generator throws.
    ensures !(UsesCache(cacheKey) && cacheKey.value in entries) ==>
      (s.sent.None? <==> BuildRequest(prompt, turns, vars).Err?) &&
      (s.sent.Some? ==> IsRequestFor(s.sent.value, prompt, turns, vars))
    // A miss returns the first candidate of a successful response, and throws otherwise.
    ensures s.sent.Some? ==>
      (s.result.Ok? <==> endpoint(s.sent.value).HttpOk? && endpoint(s.sent.value).candidates.Some?
                         && |endpoint(s.sent.value).candidates.value| > 0) &&
      (s.result.Ok? ==> s.result.value == endpoint(s.sent.value).candidates.value[0].content)
    ensures s.sent.Some? && endpoint(s.sent.value).HttpFailure? ==>
      s.result == Err(RemoteCallFailed(endpoint(s.sent.value).status, endpoint(s.sent.value).statusText))
    // The history grows by the user turn and the answer on success, and not at all otherwise.
    ensures s.result.Ok? ==> s.turns == turns + [UserTurn(prompt, vars), s.result.value]
    ensures s.result.Err? ==> s.turns == turns && s.entries == entries
    // Only a successful call with a key writes the cache, and only under that key.
    ensures !UsesCache(cacheKey) ==> s.entries == entries
    ensures UsesCache(cacheKey) && s.result.Ok? ==> s.entries == entries[cacheKey.value := s.result.value]
  {
    var user := UserTurn(prompt, vars);
    if UsesCache(cacheKey) && cacheKey.value in entries then
      var cached := entries[cacheKey.value];
      assert entries[cacheKey.value := cached] == entries;
      Step(Ok(cached), None, turns + [user, cached], entries)
    else
      match BuildRequest(prompt, turns, vars)
      case Err(e) => Step(Err(e), None, turns, entries)
      case Ok(request) =>
        match endpoint(request)
        case HttpFailure(status, statusText) =>
          Step(Err(RemoteCallFailed(status, statusText)), Some(request), turns, entries)
        case HttpOk(candidates) =>
          if candidates.None? || |candidates.value| == 0 then
            Step(Err(EmptyResponse), Some(request), turns, entries)
          else
            var answer := candidates.value[0].content;
            Step(Ok(answer), Some(request), turns + [user, answer],
                 if UsesCache(cacheKey) then entries[cacheKey.value := answer] else entries)
  }

  /** A successful call with a key makes the next call with that key a hit:
      it returns the same turn, sends nothing and leaves the cache as it is. */
  lemma CachedAnswerIsReused(prompt: Prompt, turns: seq<Content>, entries: map<string, Content>, vars: Vars,
                             key: string, endpoint: Request -> RemoteResponse,
                             prompt2: Prompt, vars2: Vars, endpoint2: Request -> RemoteResponse)
    requires key != ""
    requires Run(prompt, turns, entries, vars, Some(key), endpoint).result.Ok?
    ensures var first := Run(prompt, turns, entries, vars, Some(key), endpoint);
            var second := Run(prompt2, first.turns, first.entries, vars2, Some(key), endpoint2);
            second.sent == None && second.result == first.result &&
            second.entries == first.entries &&
            second.turns == first.turns + [UserTurn(prompt2, vars2), first.result.value]
  {
  }

  /** A failed call leaves nothing behind: repeating it from the same state
      with the same endpoint fails again in the same way. */
  lemma FailureIsRepeatable(prompt: Prompt, turns: seq<Content>, entries: map<string, Content>, vars: Vars,
                            cacheKey: Option<string>, endpoint: Request -> RemoteResponse)
    requires Run(prompt, turns, entries, vars, cacheKey, endpoint).result.Err?
    ensures var first := Run(prompt, turns, entries, vars, cacheKey, endpoint);
            Run(prompt, first.turns, first.entries, vars, cacheKey, endpoint) == first
  {
  }

  /** Without a key the endpoint decides everything: the cache is neither read
      nor written, so two caches give the same answer and history. */
  lemma NoKeyIgnoresCache(prompt: Prompt, turns: seq<Content>, e1: map<string, Content>, e2: map<string, Content>,
                          vars: Vars, cacheKey: Option<string>, endpoint: Request -> RemoteResponse)
    requires !UsesCache(cacheKey)
    ensures var s1 := Run(prompt, turns, e1, vars, cacheKey, endpoint);
            var s2 := Run(prompt, turns, e2, vars, cacheKey, endpoint);
            s1.result == s2.result && s1.sent == s2.sent && s1.turns == s2.turns
  {
  }

  /** The conversation history the caller owns and the executor extends. */
  class History {
    var turns: seq<Content>

    /** `const history: Content[] = []`. */
    constructor()
      ensures turns == []
    {
      turns := [];
    }

    /** `history.push(...more)`. */
    method Push(more: seq<Content>)
      modifies this
      ensures turns == old(turns) + more
    {
      turns := turns + more;
    }
  }

  /** The `.ai_cache` directory: one stored turn per cache key. */
  class ResponseCache {
    var entries: map<string, Content>

    constructor(initial: map<string, Content>)
      ensures entries == initial
    {
      entries := initial;
    }

    /** `existsSync` of the key's file. */
    predicate Has(key: string)
      reads this
    {
      key in entries
    }

    /** `JSON.parse(readFileSync(...))` of the key's file. */
    function Get(key: string): Content
      requires Has(key)
      reads this
    {
      entries[key]
    }

    /** `writeFileSync` of the key's file, replacing any earlier one. */
    method Put(key: string, turn: Content)
      modifies this
      ensures entries == old(entries)[key := turn]
    {
      entries := entries[key := turn];
    }
  }

  /** `runPrompt(prompt, history, vars, cacheKey)`: returns the answer or the
      error it throws, and the request it sent; the history and the cache end
      up as `Run` says. */
  method RunPrompt(prompt: Prompt, history: History, cache: ResponseCache, vars: Vars,
                   cacheKey: Option<string>, endpoint: Request -> RemoteResponse)
    returns (result: Result<Content, PromptError>, sent: Option<Request>)
    modifies history, cache
    ensures Step(result, sent, history.turns, cache.entries)
         == Run(prompt, old(history.turns), old(cache.entries), vars, cacheKey, endpoint)
  {
    var user := UserTurn(prompt, vars);
    if UsesCache(cacheKey) && cache.Has(cacheKey.value) {
      var cached := cache.Get(cacheKey.value);
      history.Push([user, cached]);
      return Ok(cached), None;
    }
    var built := BuildRequest(prompt, history.turns, vars);
    if built.Err? {
      return Err(built.error), None;
    }
    var request := built.value;
    sent := Some(request);
    var response := endpoint(request);
    if response.HttpFailure? {
      return Err(RemoteCallFailed(response.status, response.statusText)), sent;
    }
    if response.candidates.None? || |response.candidates.value| == 0 {
      return Err(EmptyResponse), sent;
    }
    var answer := response.candidates.value[0].content;
    if UsesCache(cacheKey) {
      cache.Put(cacheKey.value, answer);
    }
    history.Push([user, answer]);
    result := Ok(answer);
  }
}
