/** The records the program passes between its parts (src/types.ts): prompt
    variables, prompt definitions, the two evaluations and the output of the
    evaluation endpoint. Fields that the program explicitly tolerates being
    absent or malformed are optional here; the others are as the interfaces
    declare them. */
module Types {
  import opened Wrappers
  import opened ResponseSchema

  /** A skill the job description asks for (`ISkill`). */
  datatype Skill = Skill(slug: string, skill: string)

  /** A rating as it arrives in parsed JSON: a number, NaN, or something that is
      not a number at all (missing, a string, ...). */
  datatype Rating = Number(value: int) | NaN | NotNumber

  /** One element of `skillRatings` (`ISkillRating`), each field as parsed. */
  datatype SkillRating = SkillRating(slug: Option<string>, skill: Option<string>, rating: Rating, reasoning: Option<string>)

  /** Stage-1 result (`IJobDescriptionEvaluation`); `skills` may be missing from the model's reply. */
  datatype JobDescriptionEvaluation = JobDescriptionEvaluation(companyName: string, jobOpeningTitle: string, skills: Option<seq<Skill>>)

  /** Stage-2 result (`ICandidateEvaluation`); `skillRatings` may be missing and
      may contain `null` elements. */
  datatype CandidateEvaluation = CandidateEvaluation(
    candidateName: string,
    experience: int,
    strengths: seq<string>,
    weaknesses: seq<string>,
    skillRatings: Option<seq<Option<SkillRating>>>)

  /** The evaluation endpoint's result (`IEvaluateOutput`). */
  datatype EvaluateOutput = EvaluateOutput(jobDescriptionEvaluation: JobDescriptionEvaluation, candidateEvaluation: CandidateEvaluation)

  /** A prompt variable (`IPromptVars`): a text, or the list of skills. */
  datatype VarValue = Text(text: string) | Skills(skills: seq<Skill>)

  type Vars = map<string, VarValue>

  /** A prompt definition (`IPrompt`): the user template, an optional system
      template and an optional schema generator. A generator yields `None`
      where the source's generator would throw. */
  datatype Prompt = Prompt(user: string, system: Option<string>, schema: Option<Vars -> Option<Schema>>)
}
