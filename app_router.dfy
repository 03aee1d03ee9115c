/** The `evaluate` mutation of the API router (src/server/appRouter.ts): both
    uploaded PDFs become scrubbed markdown, then two prompts run over one
    shared, initially empty history. Stage 1 extracts the job description's
    skills and is cached under the hex SHA-256 of the job-description text;
    stage 2 rates the CV against those skills and is never cached.

    The PDF-to-markdown conversion, the SHA-256 digest, the remote endpoint
    and `JSON.parse` of the model's answers are parameters. */
module AppRouter {
  import opened Wrappers
  import opened Types
  import opened ServerUtils
  import opened PromptExecutor
  import EvaluateJobDescription
  import EvaluateCandidate

  /** The text of the two prompts' `user.txt` and `system.txt` files. */
  datatype Templates = Templates(jdUser: string, jdSystem: string, cvUser: string, cvSystem: string)

  function JobDescriptionPrompt(t: Templates): Prompt
  {
    EvaluateJobDescription.JobDescriptionPrompt(t.jdUser, t.jdSystem)
  }

  function CandidatePrompt(t: Templates): Prompt
  {
    EvaluateCandidate.CandidatePrompt(t.cvUser, t.cvSystem)
  }

  /** `{ jobDescription }` */
  function JobDescriptionVars(jd: string): Vars
  {
    map["jobDescription" := Text(jd)]
  }

  /** `{ cv, skills }` */
  function CandidateVars(cv: string, skills: seq<Skill>): Vars
  {
    map["cv" := Text(cv), "skills" := Skills(skills)]
  }

  /** Which stage went wrong, and how: the prompt threw, or its answer had no
      first text part or did not parse (`parts[0].text!` and `JSON.parse`). */
  datatype EvaluateError =
    | PromptFailed(stage: nat, error: PromptError)
    | MalformedModelOutput(stage: nat)

  /** `parts[0].text` of a turn, when there is one. */
  function FirstPartText(turn: Content): (text: Option<string>)
    ensures text.Some? <==> |turn.parts| > 0 && turn.parts[0].text.Some?
  {
    if |turn.parts| == 0 then None else turn.parts[0].text
  }

  /** `JSON.parse(turn.parts[0].text!)` with a given parser. */
  function ParseAnswer<T>(turn: Content, parse: string -> Option<T>): Option<T>
  {
    match FirstPartText(turn)
    case None => None
    case Some(text) => parse(text)
  }

  /** `jdEvaluation.skills || []` */
  function SkillsOf(e: JobDescriptionEvaluation): seq<Skill>
  {
    e.skills.GetOr([])
  }

  function SentList(sent: Option<Request>): (r: seq<Request>)
    ensures |r| <= 1 && (sent.Some? ==> r == [sent.value])
  {
    if sent.Some? then [sent.value] else []
  }

  /** The end of one evaluation: the output or the error, the requests sent in
      order, the shared history and the cache. */
  datatype Evaluation = Evaluation(result: Result<EvaluateOutput, EvaluateError>, sent: seq<Request>,
                                   turns: seq<Content>, entries: map<string, Content>)

  /** The mutation body on the markdown texts `jd` and `cv`, with `jdPrompt`
      and `cvPrompt` the two prompt records and `key` the stage-1 cache key. */
  function Pipeline(jdPrompt: Prompt, cvPrompt: Prompt, jd: string, cv: string, key: string,
                    entries: map<string, Content>, endpoint: Request -> RemoteResponse,
                    parseJd: string -> Option<JobDescriptionEvaluation>,
                    parseCandidate: string -> Option<CandidateEvaluation>): Evaluation
  {
    var s1 := Run(jdPrompt, [], entries, JobDescriptionVars(jd), Some(key), endpoint);
    match s1.result
    case Err(e) => Evaluation(Err(PromptFailed(1, e)), SentList(s1.sent), s1.turns, s1.entries)
    case Ok(answer1) =>
      match ParseAnswer(answer1, parseJd)
      case None => Evaluation(Err(MalformedModelOutput(1)), SentList(s1.sent), s1.turns, s1.entries)
      case Some(jdEvaluation) =>
        var s2 := Run(cvPrompt, s1.turns, s1.entries, CandidateVars(cv, SkillsOf(jdEvaluation)), None, endpoint);
        var sent := SentList(s1.sent) + SentList(s2.sent);
        match s2.result
        case Err(e) => Evaluation(Err(PromptFailed(2, e)), sent, s2.turns, s2.entries)
        case Ok(answer2) =>
          match ParseAnswer(answer2, parseCandidate)
          case None => Evaluation(Err(MalformedModelOutput(2)), sent, s2.turns, s2.entries)
          case Some(candidateEvaluation) =>
            Evaluation(Ok(EvaluateOutput(jdEvaluation, candidateEvaluation)), sent, s2.turns, s2.entries)
  }

  /** The stage-1 cache key: lower-case hex of the digest of the job-description text. */
  function CacheKey(jd: string, digestOf: string -> Digest): (key: string)
    ensures |key| == 64 && key != ""
  {
    Sha256Hex(digestOf(jd))
  }

  /** The `evaluate` mutation: `jdMarkdown` and `cvMarkdown` are what pdf2md
      produced for the two uploads (as UTF-16 code units), `digestOf` is
      SHA-256 of a text. Returns the output or the error, the requests sent
      and the history the two stages shared. */
  method Evaluate(t: Templates, jdMarkdown: seq<CodeUnit>, cvMarkdown: seq<CodeUnit>, cache: ResponseCache,
                  digestOf: string -> Digest, endpoint: Request -> RemoteResponse,
                  parseJd: string -> Option<JobDescriptionEvaluation>,
                  parseCandidate: string -> Option<CandidateEvaluation>)
    returns (result: Result<EvaluateOutput, EvaluateError>, sent: seq<Request>, turns: seq<Content>)
    modifies cache
    ensures Evaluation(result, sent, turns, cache.entries)
         == Pipeline(JobDescriptionPrompt(t), CandidatePrompt(t), MarkdownText(jdMarkdown), MarkdownText(cvMarkdown),
                     CacheKey(MarkdownText(jdMarkdown), digestOf), old(cache.entries),
                     endpoint, parseJd, parseCandidate)
  {
    var jd := MarkdownText(jdMarkdown);
    var cv := MarkdownText(cvMarkdown);
    var history := new History();
    var r1, sent1 := RunPrompt(JobDescriptionPrompt(t), history, cache, JobDescriptionVars(jd),
                               Some(CacheKey(jd, digestOf)), endpoint);
    sent := SentList(sent1);
    if r1.Err? {
      return Err(PromptFailed(1, r1.error)), sent, history.turns;
    }
    var jdEvaluation := ParseAnswer(r1.value, parseJd);
    if jdEvaluation.None? {
      return Err(MalformedModelOutput(1)), sent, history.turns;
    }
    var r2, sent2 := RunPrompt(CandidatePrompt(t), history, cache,
                               CandidateVars(cv, SkillsOf(jdEvaluation.value)), None, endpoint);
    sent := sent + SentList(sent2);
    turns := history.turns;
    if r2.Err? {
      return Err(PromptFailed(2, r2.error)), sent, turns;
    }
    var candidateEvaluation := ParseAnswer(r2.value, parseCandidate);
    if candidateEvaluation.None? {
      return Err(MalformedModelOutput(2)), sent, turns;
    }
    result := Ok(EvaluateOutput(jdEvaluation.value, candidateEvaluation.value));
  }

  /** A successful evaluation leaves exactly four turns: the stage-1 user turn
      and answer, then the stage-2 user turn (with the stage-1 skills, or none)
      and answer; and the output pairs the two parsed answers. */
  lemma SuccessLeavesFourTurns(jdPrompt: Prompt, cvPrompt: Prompt, jd: string, cv: string, key: string,
                               entries: map<string, Content>, endpoint: Request -> RemoteResponse,
                               parseJd: string -> Option<JobDescriptionEvaluation>,
                               parseCandidate: string -> Option<CandidateEvaluation>)
    requires key != ""
    ensures var e := Pipeline(jdPrompt, cvPrompt, jd, cv, key, entries, endpoint, parseJd, parseCandidate);
            e.result.Ok? ==>
              var out := e.result.value;
              |e.turns| == 4 &&
              e.turns[0] == UserTurn(jdPrompt, JobDescriptionVars(jd)) &&
              e.turns[2] == UserTurn(cvPrompt, CandidateVars(cv, SkillsOf(out.jobDescriptionEvaluation))) &&
              ParseAnswer(e.turns[1], parseJd) == Some(out.jobDescriptionEvaluation) &&
              ParseAnswer(e.turns[3], parseCandidate) == Some(out.candidateEvaluation)
  {
    var e := Pipeline(jdPrompt, cvPrompt, jd, cv, key, entries, endpoint, parseJd, parseCandidate);
    if e.result.Ok? {
      var out := e.result.value;
      var s1 := Run(jdPrompt, [], entries, JobDescriptionVars(jd), Some(key), endpoint);
      assert s1.result.Ok? && ParseAnswer(s1.result.value, parseJd) == Some(out.jobDescriptionEvaluation);
      var vars := CandidateVars(cv, SkillsOf(out.jobDescriptionEvaluation));
      var s2 := Run(cvPrompt, s1.turns, s1.entries, vars, None, endpoint);
      assert s2.result.Ok? && ParseAnswer(s2.result.value, parseCandidate) == Some(out.candidateEvaluation);
      assert e.turns == s2.turns == s1.turns + [UserTurn(cvPrompt, vars), s2.result.value];
      assert s1.turns == [UserTurn(jdPrompt, JobDescriptionVars(jd)), s1.result.value];
    }
  }

  /** Stage 2 runs only after stage 1 succeeded: when stage 1 fails, at most the
      stage-1 request was sent, and a thrown stage-1 prompt leaves the history empty. */
  lemma StageOneFailureStops(jdPrompt: Prompt, cvPrompt: Prompt, jd: string, cv: string, key: string,
                             entries: map<string, Content>, endpoint: Request -> RemoteResponse,
                             parseJd: string -> Option<JobDescriptionEvaluation>,
                             parseCandidate: string -> Option<CandidateEvaluation>)
    requires key != ""
    ensures var e := Pipeline(jdPrompt, cvPrompt, jd, cv, key, entries, endpoint, parseJd, parseCandidate);
            (e.result.Err? && e.result.error.stage == 1 ==>
              |e.sent| <= 1 && (forall i :: 0 <= i < |e.sent| ==> |e.sent[i].contents| == 1)) &&
            (e.result.Err? && e.result.error.PromptFailed? && e.result.error.stage == 1 ==> e.turns == [])
  {
  }

  /** Stage 2 is sent after the two stage-1 turns, as the request for the
      candidate prompt with the stage-1 skills (or none). */
  lemma StageTwoSent(jdPrompt: Prompt, cvPrompt: Prompt, jd: string, cv: string, key: string,
                     entries: map<string, Content>, endpoint: Request -> RemoteResponse,
                     parseJd: string -> Option<JobDescriptionEvaluation>,
                     parseCandidate: string -> Option<CandidateEvaluation>)
    requires key != ""
    ensures var e := Pipeline(jdPrompt, cvPrompt, jd, cv, key, entries, endpoint, parseJd, parseCandidate);
            e.result.Ok? ==>
              |e.sent| >= 1 && |e.turns| == 4 &&
              IsRequestFor(e.sent[|e.sent| - 1], cvPrompt, e.turns[..2],
                           CandidateVars(cv, SkillsOf(e.result.value.jobDescriptionEvaluation)))
  {
    var e := Pipeline(jdPrompt, cvPrompt, jd, cv, key, entries, endpoint, parseJd, parseCandidate);
    if e.result.Ok? {
      var s1 := Run(jdPrompt, [], entries, JobDescriptionVars(jd), Some(key), endpoint);
      var vars := CandidateVars(cv, SkillsOf(e.result.value.jobDescriptionEvaluation));
      assert s1.result.Ok? && ParseAnswer(s1.result.value, parseJd) == Some(e.result.value.jobDescriptionEvaluation);
      var s2 := Run(cvPrompt, s1.turns, s1.entries, vars, None, endpoint);
      assert s2.result.Ok? && s2.sent.Some?;
      assert e.sent == SentList(s1.sent) + [s2.sent.value];
      assert e.turns == s1.turns + [UserTurn(cvPrompt, vars), s2.result.value];
      assert e.turns[..2] == s1.turns;
    }
  }

  /** With the candidate prompt's generator (as `CandidatePrompt(t)` carries
      it), the stage-2 request carries three turns and the response schema
      generated from the stage-1 skills. */
  lemma StageTwoRequest(jdPrompt: Prompt, cvPrompt: Prompt, jd: string, cv: string, key: string,
                        entries: map<string, Content>, endpoint: Request -> RemoteResponse,
                        parseJd: string -> Option<JobDescriptionEvaluation>,
                        parseCandidate: string -> Option<CandidateEvaluation>)
    requires key != ""
    requires cvPrompt.schema.Some? && forall vars :: cvPrompt.schema.value(vars) == EvaluateCandidate.SchemaGenerator(vars)
    ensures var e := Pipeline(jdPrompt, cvPrompt, jd, cv, key, entries, endpoint, parseJd, parseCandidate);
            e.result.Ok? ==>
              |e.sent| >= 1 && |e.sent[|e.sent| - 1].contents| == 3 &&
              e.sent[|e.sent| - 1].generationConfig.responseSchema
                == Some(EvaluateCandidate.CandidateSchema(SkillsOf(e.result.value.jobDescriptionEvaluation)))
  {
    StageTwoSchema(jdPrompt, cvPrompt, jd, cv, key, entries, endpoint, parseJd, parseCandidate);
    var e := Pipeline(jdPrompt, cvPrompt, jd, cv, key, entries, endpoint, parseJd, parseCandidate);
    if e.result.Ok? {
      var vars := CandidateVars(cv, SkillsOf(e.result.value.jobDescriptionEvaluation));
      assert "skills" in vars && vars["skills"].Skills?;
    }
  }

  /** The stage-2 request's contents and schema, for any candidate prompt
      record with a generator. */
  lemma StageTwoSchema(jdPrompt: Prompt, cvPrompt: Prompt, jd: string, cv: string, key: string,
                       entries: map<string, Content>, endpoint: Request -> RemoteResponse,
                       parseJd: string -> Option<JobDescriptionEvaluation>,
                       parseCandidate: string -> Option<CandidateEvaluation>)
    requires key != "" && cvPrompt.schema.Some?
    ensures var e := Pipeline(jdPrompt, cvPrompt, jd, cv, key, entries, endpoint, parseJd, parseCandidate);
            e.result.Ok? ==>
              |e.sent| >= 1 && |e.sent[|e.sent| - 1].contents| == 3 &&
              e.sent[|e.sent| - 1].generationConfig.responseSchema
                == cvPrompt.schema.value(CandidateVars(cv, SkillsOf(e.result.value.jobDescriptionEvaluation)))
  {
    StageTwoSent(jdPrompt, cvPrompt, jd, cv, key, entries, endpoint, parseJd, parseCandidate);
  }

  /** What one `runPrompt` call can do to the cache: add or replace the entry
      under its own key, and nothing else. */
  lemma RunTouchesOnlyItsKey(prompt: Prompt, turns: seq<Content>, entries: map<string, Content>, vars: Vars,
                             cacheKey: Option<string>, endpoint: Request -> RemoteResponse)
    ensures var s := Run(prompt, turns, entries, vars, cacheKey, endpoint);
            (!UsesCache(cacheKey) ==> s.entries == entries) &&
            (UsesCache(cacheKey) ==>
              s.entries.Keys <= entries.Keys + {cacheKey.value} &&
              forall k :: k in entries && k != cacheKey.value ==> k in s.entries && s.entries[k] == entries[k])
  {
  }

  /** The cache gains at most the stage-1 key, which it holds after a stage-1
      success (with the stage-1 answer); stage 2 writes nothing, and every other
      entry is kept. */
  lemma CacheOnlyGainsJobDescriptionKey(jdPrompt: Prompt, cvPrompt: Prompt, jd: string, cv: string, key: string,
                                        entries: map<string, Content>, endpoint: Request -> RemoteResponse,
                                        parseJd: string -> Option<JobDescriptionEvaluation>,
                                        parseCandidate: string -> Option<CandidateEvaluation>)
    requires key != ""
    ensures var e := Pipeline(jdPrompt, cvPrompt, jd, cv, key, entries, endpoint, parseJd, parseCandidate);
            e.entries.Keys <= entries.Keys + {key} &&
            (forall k :: k in entries && k != key ==> k in e.entries && e.entries[k] == entries[k]) &&
            (e.result.Ok? ==> |e.turns| == 4 && key in e.entries && e.entries[key] == e.turns[1])
  {
    var e := Pipeline(jdPrompt, cvPrompt, jd, cv, key, entries, endpoint, parseJd, parseCandidate);
    var s1 := Run(jdPrompt, [], entries, JobDescriptionVars(jd), Some(key), endpoint);
    RunTouchesOnlyItsKey(jdPrompt, [], entries, JobDescriptionVars(jd), Some(key), endpoint);
    if s1.result.Ok? {
      var jdEvaluation := ParseAnswer(s1.result.value, parseJd);
      if jdEvaluation.Some? {
        var vars := CandidateVars(cv, SkillsOf(jdEvaluation.value));
        var s2 := Run(cvPrompt, s1.turns, s1.entries, vars, None, endpoint);
        assert e.entries == s2.entries == s1.entries;
        if e.result.Ok? {
          assert e.turns == s2.turns == s1.turns + [UserTurn(cvPrompt, vars), s2.result.value];
          assert e.turns[1] == s1.turns[1] == s1.result.value;
        }
      } else {
        assert e.entries == s1.entries;
      }
    } else {
      assert e.entries == s1.entries;
    }
  }

  /** Evaluating the same job description again, with any CV, prompt records
      and endpoint, answers stage 1 from the cache: at most the stage-2 request
      is sent, over the two cached stage-1 turns, and the job-description
      evaluation is the same. */
  lemma SecondEvaluationHitsCache(jdPrompt: Prompt, cvPrompt: Prompt, jd: string, cv: string, key: string,
                                  entries: map<string, Content>, endpoint: Request -> RemoteResponse,
                                  parseJd: string -> Option<JobDescriptionEvaluation>,
                                  parseCandidate: string -> Option<CandidateEvaluation>,
                                  jdPrompt2: Prompt, cvPrompt2: Prompt, cv2: string, endpoint2: Request -> RemoteResponse,
                                  parseCandidate2: string -> Option<CandidateEvaluation>)
    requires key != ""
    requires Pipeline(jdPrompt, cvPrompt, jd, cv, key, entries, endpoint, parseJd, parseCandidate).result.Ok?
    ensures var first := Pipeline(jdPrompt, cvPrompt, jd, cv, key, entries, endpoint, parseJd, parseCandidate);
            var second := Pipeline(jdPrompt2, cvPrompt2, jd, cv2, key, first.entries, endpoint2, parseJd, parseCandidate2);
            |second.sent| <= 1 &&
            (forall i :: 0 <= i < |second.sent| ==> |second.sent[i].contents| == 3) &&
            (second.result.Ok? ==>
              second.result.value.jobDescriptionEvaluation == first.result.value.jobDescriptionEvaluation)
  {
    var first := Pipeline(jdPrompt, cvPrompt, jd, cv, key, entries, endpoint, parseJd, parseCandidate);
    CacheOnlyGainsJobDescriptionKey(jdPrompt, cvPrompt, jd, cv, key, entries, endpoint, parseJd, parseCandidate);
    SuccessLeavesFourTurns(jdPrompt, cvPrompt, jd, cv, key, entries, endpoint, parseJd, parseCandidate);
    var answer := first.entries[key];
    var jdEvaluation := first.result.value.jobDescriptionEvaluation;
    assert ParseAnswer(answer, parseJd) == Some(jdEvaluation);
    SecondStageOneHit(jdPrompt2, cvPrompt2, jd, cv2, key, first.entries, endpoint2, parseJd, parseCandidate2, jdEvaluation);
  }

  /** When the cache holds an answer under the stage-1 key, stage 1 sends
      nothing and stage 2, if sent, goes over the two stage-1 turns. */
  lemma SecondStageOneHit(jdPrompt: Prompt, cvPrompt: Prompt, jd: string, cv: string, key: string,
                          entries: map<string, Content>, endpoint: Request -> RemoteResponse,
                          parseJd: string -> Option<JobDescriptionEvaluation>,
                          parseCandidate: string -> Option<CandidateEvaluation>,
                          jdEvaluation: JobDescriptionEvaluation)
    requires key != "" && key in entries && ParseAnswer(entries[key], parseJd) == Some(jdEvaluation)
    ensures var e := Pipeline(jdPrompt, cvPrompt, jd, cv, key, entries, endpoint, parseJd, parseCandidate);
            |e.sent| <= 1 &&
            (forall i :: 0 <= i < |e.sent| ==> |e.sent[i].contents| == 3) &&
            (e.result.Ok? ==> e.result.value.jobDescriptionEvaluation == jdEvaluation)
  {
    var e := Pipeline(jdPrompt, cvPrompt, jd, cv, key, entries, endpoint, parseJd, parseCandidate);
    var s1 := Run(jdPrompt, [], entries, JobDescriptionVars(jd), Some(key), endpoint);
    assert s1.sent == None && s1.result == Ok(entries[key]);
    assert |s1.turns| == 2;
    var s2 := Run(cvPrompt, s1.turns, s1.entries, CandidateVars(cv, SkillsOf(jdEvaluation)), None, endpoint);
    assert e.sent == SentList(s2.sent);
    if s2.sent.Some? {
      assert |s2.sent.value.contents| == 3;
    }
  }

  /** The stage-1 cache key depends on the job-description text alone: the
      same text gives the same key whatever the CV and templates, and texts
      whose digests differ get different keys. */
  lemma CacheKeyDependsOnJobDescription(jd1: string, jd2: string, digestOf: string -> Digest)
    ensures digestOf(jd1) == digestOf(jd2) <==> CacheKey(jd1, digestOf) == CacheKey(jd2, digestOf)
  {
    if CacheKey(jd1, digestOf) == CacheKey(jd2, digestOf) {
      HexInjective(digestOf(jd1), digestOf(jd2));
    }
  }
}
