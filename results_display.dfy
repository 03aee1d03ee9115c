/** The text of the results screen's panels (src/cli/components/ResultsDisplay.ts):
    the header line, the strengths and weaknesses bullet lists and the skills
    panel. The widgets, layout, colours and key handling are not modelled. */
module ResultsDisplay {
  import opened Wrappers
  import opened JsStrings
  import opened Types
  import opened SkillRatings

  const CandidateLabel := "Candidate: "
  const ExperienceLabel := " years experience) "
  const CompanyLabel := " Company: "
  const PositionLabel := " Position: "

  /** `createHeaderBox` content: candidate, experience, company, position. */
  function HeaderContent(result: EvaluateOutput): string
  {
    var c := result.candidateEvaluation;
    var j := result.jobDescriptionEvaluation;
    CandidateLabel + c.candidateName + " (" + IntToString(c.experience) + ExperienceLabel
      + "|" + CompanyLabel + j.companyName + " " + "|" + PositionLabel + j.jobOpeningTitle
  }

  /** The header reads as three `|`-separated fields, in the order candidate
      (with experience), company, position, when no name contains a `|`. */
  lemma HeaderFields(result: EvaluateOutput)
    requires '|' !in result.candidateEvaluation.candidateName
    requires '|' !in result.jobDescriptionEvaluation.companyName
    requires '|' !in result.jobDescriptionEvaluation.jobOpeningTitle
    ensures var c := result.candidateEvaluation;
            var j := result.jobDescriptionEvaluation;
            Split(HeaderContent(result), '|') ==
              [CandidateLabel + c.candidateName + " (" + IntToString(c.experience) + ExperienceLabel,
               CompanyLabel + j.companyName + " ",
               PositionLabel + j.jobOpeningTitle]
  {
    var c := result.candidateEvaluation;
    var j := result.jobDescriptionEvaluation;
    var a := CandidateLabel + c.candidateName + " (" + IntToString(c.experience) + ExperienceLabel;
    var b := CompanyLabel + j.companyName + " ";
    var d := PositionLabel + j.jobOpeningTitle;
    assert HeaderContent(result) == a + ['|'] + (b + ['|'] + d);
    assert '|' !in a by {
      IntToStringLacks(c.experience, '|');
    }
    SplitThree(a, b, d, '|');
  }

  /** Three pieces without the separator, joined by it, split back into them. */
  lemma SplitThree(a: string, b: string, d: string, sep: char)
    requires sep !in a && sep !in b && sep !in d
    ensures Split(a + [sep] + (b + [sep] + d), sep) == [a, b, d]
  {
    SplitConcat(a, b + [sep] + d, sep);
    SplitConcat(b, d, sep);
    SplitWithout(a, sep);
    SplitWithout(b, sep);
    SplitWithout(d, sep);
  }

  /** `items.map((s) => `• ${s}`)` */
  function Bullets(items: seq<string>): (r: seq<string>)
    ensures |r| == |items|
    ensures forall i :: 0 <= i < |items| ==> r[i] == "• " + items[i]
  {
    seq(|items|, i requires 0 <= i < |items| => "• " + items[i])
  }

  /** A titled bullet list: the title with a colon, then one bullet per item. */
  function BulletList(title: string, items: seq<string>): string
  {
    title + ":\n" + Join(Bullets(items), "\n")
  }

  /** `createStrengthsBox` content. */
  function StrengthsContent(c: CandidateEvaluation): string
  {
    BulletList("Strengths", c.strengths)
  }

  /** `createWeaknessesBox` content. */
  function WeaknessesContent(c: CandidateEvaluation): string
  {
    BulletList("Weaknesses", c.weaknesses)
  }

  /** Read line by line, a bullet list is its title line and then one bullet
      per item in input order (one empty line when there are no items), as
      long as no item spans lines. */
  lemma BulletListLines(title: string, items: seq<string>)
    requires '\n' !in title
    requires forall i :: 0 <= i < |items| ==> '\n' !in items[i]
    ensures Split(BulletList(title, items), '\n') == [title + ":"] + (if items == [] then [""] else Bullets(items))
  {
    var bullets := Bullets(items);
    assert BulletList(title, items) == (title + ":") + ['\n'] + Join(bullets, "\n");
    SplitConcat(title + ":", Join(bullets, "\n"), '\n');
    SplitWithout(title + ":", '\n');
    if items != [] {
      forall i | 0 <= i < |bullets| ensures '\n' !in bullets[i] {
        assert bullets[i] == "• " + items[i];
      }
      SplitJoin(bullets, '\n');
    }
  }

  /** `value || fallback` for an optional string. */
  function OrElse(value: Option<string>, fallback: string): (r: string)
    ensures Falsy(value) ==> r == fallback
    ensures !Falsy(value) ==> r == value.value
  {
    if Falsy(value) then fallback else value.value
  }

  const UnknownSkill := "Unknown Skill"
  const NoReasoning := "No reasoning provided"
  const SkillsHeading := "Skills Evaluation (sorted by rating):\n\n"
  const NoSkillsText := "Skills Evaluation:\n\nNo valid skills data received. Please check the server response."

  /** `${skill.skill || "Unknown Skill"}: ${skill.rating}/10` */
  function SkillHeadline(s: RatedSkill): string
  {
    OrElse(s.skill, UnknownSkill) + ": " + IntToString(RatingOf(s)) + "/10"
  }

  /** One skill block: the headline, the reasoning, and an empty line. */
  function SkillEntry(s: RatedSkill): string
  {
    SkillHeadline(s) + "\n" + OrElse(s.reasoning, NoReasoning) + "\n"
  }

  /** A skill block is three lines: name and rating, reasoning (with the
      fallbacks for a missing or empty name and reasoning), and an empty line. */
  lemma SkillEntryLines(s: RatedSkill)
    requires s.skill.Some? ==> '\n' !in s.skill.value
    requires s.reasoning.Some? ==> '\n' !in s.reasoning.value
    ensures Split(SkillEntry(s), '\n') ==
      [OrElse(s.skill, UnknownSkill) + ": " + IntToString(RatingOf(s)) + "/10", OrElse(s.reasoning, NoReasoning), ""]
  {
    var first := SkillHeadline(s);
    var second := OrElse(s.reasoning, NoReasoning);
    assert '\n' !in first by {
      assert '\n' !in UnknownSkill;
      IntToStringLacks(RatingOf(s), '\n');
    }
    assert '\n' !in second by {
      assert '\n' !in NoReasoning;
    }
    LinesOfTwo(first, second);
  }

  /** Two one-line texts, each followed by a line break, read as three lines. */
  lemma LinesOfTwo(first: string, second: string)
    requires '\n' !in first && '\n' !in second
    ensures Split(first + "\n" + second + "\n", '\n') == [first, second, ""]
  {
    assert first + "\n" + second + "\n" == first + ['\n'] + (second + ['\n'] + []);
    SplitConcat(first, second + ['\n'] + [], '\n');
    SplitConcat(second, [], '\n');
    SplitWithout(first, '\n');
    SplitWithout(second, '\n');
  }

  function SkillEntries(xs: seq<RatedSkill>): (r: seq<string>)
    ensures |r| == |xs| && forall i :: 0 <= i < |xs| ==> r[i] == SkillEntry(xs[i])
  {
    seq(|xs|, i requires 0 <= i < |xs| => SkillEntry(xs[i]))
  }

  /** `createSkillsBox` content: the ranked skill blocks under a heading, or a
      fixed notice when no entry is valid. */
  function SkillsContent(skillRatings: Option<seq<Option<SkillRating>>>): string
  {
    if |ValidSkills(skillRatings)| > 0 then SkillsHeading + Join(SkillEntries(RankedSkills(skillRatings)), "\n")
    else NoSkillsText
  }

  /** The skills panel shows the notice exactly when no entry is valid (a
      missing list included); otherwise it starts with the heading and shows
      one block per valid entry, highest rating first. */
  lemma SkillsContentCases(skillRatings: Option<seq<Option<SkillRating>>>)
    ensures |ValidSkills(skillRatings)| == 0 ==> SkillsContent(skillRatings) == NoSkillsText
    ensures skillRatings.None? ==> SkillsContent(skillRatings) == NoSkillsText
    ensures |ValidSkills(skillRatings)| > 0 ==>
              var ranked := RankedSkills(skillRatings);
              StartsWith(SkillsContent(skillRatings), SkillsHeading) &&
              |ranked| == |ValidSkills(skillRatings)| && SortedByRating(ranked) &&
              SkillsContent(skillRatings)[|SkillsHeading|..] == Join(SkillEntries(ranked), "\n")
  {
    var ranked := RankedSkills(skillRatings);
    RankedSkillsCount(skillRatings);
  }
}
