/** The stage-1 prompt (src/server/prompts/evaluateJobDescription/index.ts):
    a constant response schema for extracting the company, the job title and
    the list of skills from a job description, and the prompt record that
    carries it. */
module EvaluateJobDescription {
  import opened Wrappers
  import opened ResponseSchema
  import opened Types

  /** The schema of one extracted skill: two strings that may not be null. */
  function SkillSchema(): Schema
  {
    ObjectSchema(None, [
      Property("slug", StringSchema(Some("Lower kebab-case slug of the skill"), Some(false))),
      Property("skill", StringSchema(Some("Name of the skill"), Some(false)))
    ])
  }

  /** `schema()`: an OBJECT with `companyName` and `jobOpeningTitle` strings and a
      `skills` ARRAY of skill objects. */
  function JobDescriptionSchema(): Schema
  {
    ObjectSchema(None, [
      Property("companyName", StringSchema(Some("The name of the company"), None)),
      Property("jobOpeningTitle", StringSchema(Some("The title of the job opening"), None)),
      Property("skills", ArraySchema(
        Some("List of the important, specific and distinct skills mentioned in the job description"),
        SkillSchema()))
    ])
  }

  /** The schema's properties are `companyName`, `jobOpeningTitle` and
      `skills`, in that order, and `skills` is an array of skill objects. */
  lemma JobDescriptionSchemaShape()
    ensures var s := JobDescriptionSchema();
            s.ObjectSchema? && PropertyNames(s.properties) == ["companyName", "jobOpeningTitle", "skills"] &&
            PropertyNamed(s.properties, "skills").Some? &&
            PropertyNamed(s.properties, "skills").value.ArraySchema? &&
            PropertyNamed(s.properties, "skills").value.items == SkillSchema()
  {
    var props := JobDescriptionSchema().properties;
    PropertyNamedAt(props, 2);
  }

  /** The generator as the executor calls it: the variables are ignored. */
  function SchemaGenerator(vars: Vars): Option<Schema>
  {
    Some(JobDescriptionSchema())
  }

  /** The prompt record: the user and system templates (read from `user.txt`
      and `system.txt` when the module loads) and the schema generator. */
  function JobDescriptionPrompt(userTemplate: string, systemTemplate: string): (p: Prompt)
    ensures p.user == userTemplate && p.system == Some(systemTemplate)
    ensures p.schema.Some? && forall vars :: p.schema.value(vars) == Some(JobDescriptionSchema())
  {
    Prompt(userTemplate, Some(systemTemplate), Some(SchemaGenerator))
  }

  /** A skill as JSON, as `ISkill` describes it. */
  function SkillToJson(s: Skill): Json
  {
    JObject([Member("slug", JString(s.slug)), Member("skill", JString(s.skill))])
  }

  /** A stage-1 result as JSON; a missing `skills` list is left out. */
  function ToJson(e: JobDescriptionEvaluation): Json
  {
    JObject([Member("companyName", JString(e.companyName)), Member("jobOpeningTitle", JString(e.jobOpeningTitle))]
      + match e.skills
        case None => []
        case Some(skills) => [Member("skills", JArray(seq(|skills|, i requires 0 <= i < |skills| => SkillToJson(skills[i]))))])
  }

  /** Every skill record conforms to the item schema. */
  lemma SkillConforms(s: Skill)
    ensures Conforms(SkillSchema(), SkillToJson(s))
  {
    ObjectConformsPointwise(None, SkillSchema().properties, SkillToJson(s).members);
  }

  /** The schema is aligned with the `IJobDescriptionEvaluation` interface:
      every value of that type, written as JSON, conforms to it. */
  lemma SchemaAlignedWithInterface(e: JobDescriptionEvaluation)
    ensures Conforms(JobDescriptionSchema(), ToJson(e))
  {
    var props := JobDescriptionSchema().properties;
    var members := ToJson(e).members;
    if e.skills.Some? {
      var skills := e.skills.value;
      forall j | 0 <= j < |skills| ensures Conforms(SkillSchema(), SkillToJson(skills[j])) {
        SkillConforms(skills[j]);
      }
      assert Conforms(props[2].schema, members[2].value);
    }
    ObjectConformsPointwise(None, props, members);
  }

  /** `nullable: false`: a skill whose slug is `null` does not conform. */
  lemma NullSlugRejected(skill: string)
    ensures !Conforms(SkillSchema(), JObject([Member("slug", JNull), Member("skill", JString(skill))]))
  {
    var json := JObject([Member("slug", JNull), Member("skill", JString(skill))]);
    assert PropertyNamed(SkillSchema().properties, "slug") == Some(StringSchema(Some("Lower kebab-case slug of the skill"), Some(false)));
    assert !Conforms(StringSchema(Some("Lower kebab-case slug of the skill"), Some(false)), JNull);
    assert json.members[0] == Member("slug", JNull);
  }
}
