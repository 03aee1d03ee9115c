/** The stage-2 prompt (src/server/prompts/evaluateCandidate/index.ts): a
    response schema generated from the skills that stage 1 extracted, so that
    the model is told how many skills there are and which slugs and names they
    have, and the prompt record that carries the generator. */
module EvaluateCandidate {
  import opened Wrappers
  import opened JsStrings
  import opened ResponseSchema
  import opened Types

  /** The slugs, in input order. */
  function Slugs(skills: seq<Skill>): (r: seq<string>)
    ensures |r| == |skills| && forall i :: 0 <= i < |skills| ==> r[i] == skills[i].slug
  {
    seq(|skills|, i requires 0 <= i < |skills| => skills[i].slug)
  }

  /** The skill names, in input order. */
  function Names(skills: seq<Skill>): (r: seq<string>)
    ensures |r| == |skills| && forall i :: 0 <= i < |skills| ==> r[i] == skills[i].skill
  {
    seq(|skills|, i requires 0 <= i < |skills| => skills[i].skill)
  }

  /** `${array}` in a template literal joins the elements with a comma. */
  function SlugEnumeration(skills: seq<Skill>): string
  {
    Join(Slugs(skills), ",")
  }

  const SkillRatingsIntro := "Evaluation of the candidate for the skills mentioned in the job description. ALL "
  const SkillRatingsMiddle := " skills are required to be present in the response with rating and reasoning, even if the candidate has no alignment with them: "
  const SlugIntro := "Lower kebab-case slug of the skill. One of: "
  const SkillIntro := "Name of the skill. One of: "
  const RatingText := "Rating(out of 10) of the specific skill's alignment for the candidate in context of the job description"
  const ReasoningText := "Reasoning for the rating of the specific skill's alignment for this candidate in context of the job description"
  const CandidateNameText := "The name of the candidate"
  const ExperienceText := "The total years of experience of the candidate"
  const StrengthsText := "List of strengths of the candidate in context of the job description"
  const WeaknessesText := "List of weaknesses of the candidate in context of the job description"

  /** The `skillRatings` description: the number of skills, then every slug. */
  function SkillRatingsDescription(skills: seq<Skill>): string
  {
    SkillRatingsIntro + NatToString(|skills|) + SkillRatingsMiddle + SlugEnumeration(skills)
  }

  /** The item schema of `skillRatings`: `slug`, `skill`, `rating` and `reasoning`. */
  function SkillRatingSchema(skills: seq<Skill>): Schema
  {
    ObjectSchema(None, [
      Property("slug", StringSchema(Some(SlugIntro + SlugEnumeration(skills)), None)),
      Property("skill", StringSchema(Some(SkillIntro + Join(Names(skills), ", ")), None)),
      Property("rating", NumberSchema(Some(RatingText))),
      Property("reasoning", StringSchema(Some(ReasoningText), None))
    ])
  }

  /** The top-level properties of `schema(data)` for `data.skills == skills`. */
  function CandidateProperties(skills: seq<Skill>): seq<Property>
  {
    [
      Property("candidateName", StringSchema(Some(CandidateNameText), None)),
      Property("experience", NumberSchema(Some(ExperienceText))),
      Property("strengths", ArraySchema(Some(StrengthsText), StringSchema(None, None))),
      Property("weaknesses", ArraySchema(Some(WeaknessesText), StringSchema(None, None))),
      Property("skillRatings", ArraySchema(Some(SkillRatingsDescription(skills)), SkillRatingSchema(skills)))
    ]
  }

  /** `schema(data)` for `data.skills == skills`. */
  function CandidateSchema(skills: seq<Skill>): Schema
  {
    ObjectSchema(None, CandidateProperties(skills))
  }

  /** The generated schema lists the five fields of `ICandidateEvaluation`, and
      its `skillRatings` array carries the skill-specific description and items. */
  lemma CandidateSchemaShape(skills: seq<Skill>)
    ensures PropertyNames(CandidateSchema(skills).properties) == ["candidateName", "experience", "strengths", "weaknesses", "skillRatings"]
    ensures PropertyNamed(CandidateSchema(skills).properties, "skillRatings")
         == Some(ArraySchema(Some(SkillRatingsDescription(skills)), SkillRatingSchema(skills)))
  {
    var props := CandidateProperties(skills);
    PropertyNamedAt(props, 4);
  }

  /** The generator as the executor calls it with the prompt variables: `data.skills`
      must be an array, otherwise reading `data.skills.length` or `.map` throws. */
  function SchemaGenerator(vars: Vars): Option<Schema>
  {
    if "skills" in vars && vars["skills"].Skills? then Some(CandidateSchema(vars["skills"].skills)) else None
  }

  /** The prompt record: user and system templates and the generator. */
  function CandidatePrompt(userTemplate: string, systemTemplate: string): (p: Prompt)
    ensures p.user == userTemplate && p.system == Some(systemTemplate)
    ensures p.schema.Some? && forall vars :: p.schema.value(vars) == SchemaGenerator(vars)
  {
    Prompt(userTemplate, Some(systemTemplate), Some(SchemaGenerator))
  }

  /** The generated schema depends on nothing but the skills variable. */
  lemma SchemaDependsOnlyOnSkills(v: Vars, w: Vars)
    requires ("skills" in v) == ("skills" in w)
    requires "skills" in v ==> v["skills"] == w["skills"]
    ensures SchemaGenerator(v) == SchemaGenerator(w)
  {
  }

  /** The slug enumeration names exactly the slugs, in order: splitting it at
      the commas gives the slug list back (slugs are kebab-case and hold no comma). */
  lemma {:induction false} SlugEnumerationExact(skills: seq<Skill>)
    requires |skills| > 0
    requires forall i :: 0 <= i < |skills| ==> ',' !in skills[i].slug
    ensures Split(SlugEnumeration(skills), ',') == Slugs(skills)
  {
    SplitJoin(Slugs(skills), ',');
  }

  /** The `skillRatings` description states the number of skills: the digits
      after the fixed introduction read back as `|skills|`. */
  lemma SkillRatingsDescriptionCount(skills: seq<Skill>)
    ensures var d := SkillRatingsDescription(skills);
            var n := |NatToString(|skills|)|;
            |SkillRatingsIntro| + n <= |d| &&
            ParseRadix(d[|SkillRatingsIntro|..|SkillRatingsIntro| + n], 10) == |skills|
  {
    var digits := NatToString(|skills|);
    assert ParseRadix(digits, 10) == |skills| by {
      ToRadixRoundTrip(|skills|, 10);
    }
    SecondPiece(SkillRatingsIntro, digits, SkillRatingsMiddle, SlugEnumeration(skills));
  }

  /** The second of four concatenated pieces, cut out again. */
  lemma SecondPiece<T>(p: seq<T>, q: seq<T>, r: seq<T>, s: seq<T>)
    ensures |p| + |q| <= |p + q + r + s| && (p + q + r + s)[|p|..|p| + |q|] == q
  {
    assert (p + q + r + s)[..|p| + |q|] == p + q;
  }

  /** The slug description ends with the slug enumeration and the skill
      description with the names joined by `", "`, both in input order. */
  lemma ItemDescriptionsEnumerate(skills: seq<Skill>)
    ensures var item := SkillRatingSchema(skills);
            PropertyNamed(item.properties, "slug") == Some(StringSchema(Some(SlugIntro + SlugEnumeration(skills)), None)) &&
            PropertyNamed(item.properties, "skill") == Some(StringSchema(Some(SkillIntro + Join(Names(skills), ", ")), None))
  {
  }

  /** With no skills the structure is the same, with a count of 0 and empty enumerations. */
  lemma EmptySkillsSchema()
    ensures SkillRatingsDescription([]) == SkillRatingsIntro + "0" + SkillRatingsMiddle
    ensures SlugEnumeration([]) == "" && Join(Names([]), ", ") == ""
  {
    assert Slugs([]) == [];
    assert Names([]) == [];
    assert NatToString(0) == "0";
  }

  /** For skills `go` and `sql` the slug enumeration is exactly `go,sql`. */
  lemma GoSqlExample()
    ensures SlugEnumeration([Skill("go", "Go"), Skill("sql", "SQL")]) == "go,sql"
  {
    assert Slugs([Skill("go", "Go"), Skill("sql", "SQL")]) == ["go", "sql"];
  }

  // ---------------------------------------------------------------------------
  // Alignment with the ICandidateEvaluation interface
  // ---------------------------------------------------------------------------

  /** A skill rating with every field of `ISkillRating` present and a numeric rating. */
  predicate IsCompleteRating(r: Option<SkillRating>)
  {
    r.Some? && r.value.slug.Some? && r.value.skill.Some? && r.value.rating.Number? && r.value.reasoning.Some?
  }

  /** A candidate evaluation shaped as `ICandidateEvaluation` declares it. */
  predicate IsComplete(c: CandidateEvaluation)
  {
    c.skillRatings.Some? && forall i :: 0 <= i < |c.skillRatings.value| ==> IsCompleteRating(c.skillRatings.value[i])
  }

  function RatingToJson(r: Option<SkillRating>): Json
    requires IsCompleteRating(r)
  {
    JObject([
      Member("slug", JString(r.value.slug.value)),
      Member("skill", JString(r.value.skill.value)),
      Member("rating", JNumber(r.value.rating.value)),
      Member("reasoning", JString(r.value.reasoning.value))
    ])
  }

  function StringsToJson(xs: seq<string>): Json
  {
    JArray(seq(|xs|, i requires 0 <= i < |xs| => JString(xs[i])))
  }

  /** A complete candidate evaluation as JSON. */
  function ToJson(c: CandidateEvaluation): Json
    requires IsComplete(c)
  {
    var ratings := c.skillRatings.value;
    JObject([
      Member("candidateName", JString(c.candidateName)),
      Member("experience", JNumber(c.experience)),
      Member("strengths", StringsToJson(c.strengths)),
      Member("weaknesses", StringsToJson(c.weaknesses)),
      Member("skillRatings", JArray(seq(|ratings|, i requires 0 <= i < |ratings| => RatingToJson(ratings[i]))))
    ])
  }

  lemma RatingConforms(skills: seq<Skill>, r: Option<SkillRating>)
    requires IsCompleteRating(r)
    ensures Conforms(SkillRatingSchema(skills), RatingToJson(r))
  {
    var props := SkillRatingSchema(skills).properties;
    ObjectConformsPointwise(None, props, RatingToJson(r).members);
  }

  /** The schema is aligned with the `ICandidateEvaluation` interface: whatever
      the skills, a complete evaluation written as JSON conforms to it. */
  lemma SchemaAlignedWithInterface(skills: seq<Skill>, c: CandidateEvaluation)
    requires IsComplete(c)
    ensures Conforms(CandidateSchema(skills), ToJson(c))
  {
    var props := CandidateProperties(skills);
    var members := ToJson(c).members;
    var ratings := c.skillRatings.value;
    forall j | 0 <= j < |ratings| ensures Conforms(SkillRatingSchema(skills), RatingToJson(ratings[j])) {
      RatingConforms(skills, ratings[j]);
    }
    assert Conforms(props[2].schema, members[2].value);
    assert Conforms(props[3].schema, members[3].value);
    assert Conforms(props[4].schema, members[4].value);
    ObjectConformsPointwise(None, props, members);
  }
}
