/** The plain console front end's helpers (src/cli/utils/console.ts): the
    argument check and the report written by `displayJsonResults`. Each
    `console.log` call is one element of the log; the pretty-printed JSON of
    the result is a parameter, since `JSON.stringify` is not modelled. */
module ConsoleOutput {
  import opened Wrappers
  import opened JsStrings
  import opened Types
  import opened SkillRatings

  const CliUsageText := "Usage: " + "yarn cli <path/to/job-description.pdf> <path/to/cv.pdf>\n"
    + "Please provide paths to both the job description and CV PDF files."

  /** How the process stops: exit code and the text written to standard error. */
  datatype Exit = Exit(code: int, stderr: string)

  /** `validateInputs(jdPath, cvPath)`: `None` when it returns normally,
      otherwise the exit it forces. */
  function ValidateInputs(jdPath: Option<string>, cvPath: Option<string>): (r: Option<Exit>)
    ensures r.None? <==> !Falsy(jdPath) && !Falsy(cvPath)
    ensures r.Some? ==> r.value.code == 1 && StartsWith(r.value.stderr, "Usage: ")
  {
    if Falsy(jdPath) || Falsy(cvPath) then Some(Exit(1, CliUsageText)) else None
  }

  /** Giving both paths is enough: the check does not look at their contents. */
  lemma ValidateInputsAcceptsAnyPaths(jdPath: string, cvPath: string)
    ensures ValidateInputs(Some(jdPath), Some(cvPath)).None? <==> jdPath != "" && cvPath != ""
  {
  }

  /** `"=".repeat(80)` */
  const Banner := Repeat('=', 80)

  /** `${value}` of an optional string: `undefined` prints as "undefined". */
  function Shown(value: Option<string>): string
  {
    if value.None? then "undefined" else value.value
  }

  /** `  ${index + 1}. ${item}` */
  function NumberedLine(n: nat, item: string): string
  {
    "  " + NatToString(n) + ". " + item
  }

  /** One numbered line per item, counting from 1. */
  function NumberedLines(items: seq<string>): (r: seq<string>)
    ensures |r| == |items|
    ensures forall i :: 0 <= i < |items| ==> r[i] == NumberedLine(i + 1, items[i])
  {
    seq(|items|, i requires 0 <= i < |items| => NumberedLine(i + 1, items[i]))
  }

  /** The number on a numbered line reads back as the item's position, and
      the item follows it unchanged. */
  lemma NumberedLineReadsBack(n: nat, item: string)
    ensures var line := NumberedLine(n, item);
            var digits := NatToString(n);
            line[2..2 + |digits|] == digits && ParseRadix(digits, 10) == n &&
            line[2 + |digits|..] == ". " + item
  {
    ToRadixRoundTrip(n, 10);
  }

  /** `\n  ${index + 1}. ${skill.skill}: ${skill.rating}/10` */
  function RatingLine(n: nat, s: RatedSkill): string
  {
    "\n  " + NatToString(n) + ". " + Shown(s.skill) + ": " + IntToString(RatingOf(s)) + "/10"
  }

  /** `     ${skill.reasoning}` */
  function ReasoningLine(s: RatedSkill): string
  {
    "     " + Shown(s.reasoning)
  }

  /** The skill lines of a ranked list, two per entry, numbered from 1. */
  function SkillLines(ranked: seq<RatedSkill>): seq<string>
  {
    if ranked == [] then []
    else SkillLines(ranked[..|ranked| - 1]) + [RatingLine(|ranked|, ranked[|ranked| - 1]), ReasoningLine(ranked[|ranked| - 1])]
  }

  /** Two lines per ranked skill. */
  lemma {:induction false} SkillLinesLength(ranked: seq<RatedSkill>)
    ensures |SkillLines(ranked)| == 2 * |ranked|
  {
    if ranked != [] {
      SkillLinesLength(ranked[..|ranked| - 1]);
    }
  }

  /** The `k`-th ranked skill owns lines `2k` and `2k + 1` of the section. */
  lemma {:induction false} SkillLinesAt(ranked: seq<RatedSkill>, k: nat)
    requires k < |ranked|
    ensures |SkillLines(ranked)| == 2 * |ranked|
    ensures SkillLines(ranked)[2 * k] == RatingLine(k + 1, ranked[k])
    ensures SkillLines(ranked)[2 * k + 1] == ReasoningLine(ranked[k])
  {
    SkillLinesLength(ranked);
    var init := ranked[..|ranked| - 1];
    var last := ranked[|ranked| - 1];
    SkillLinesLength(init);
    var before := SkillLines(init);
    var lines := SkillLines(ranked);
    assert lines == before + [RatingLine(|ranked|, last), ReasoningLine(last)];
    if k < |init| {
      SkillLinesAt(init, k);
      assert init[k] == ranked[k];
      assert lines[2 * k] == before[2 * k];
      assert lines[2 * k + 1] == before[2 * k + 1];
    } else {
      assert lines[2 * k] == RatingLine(|ranked|, last);
      assert lines[2 * k + 1] == ReasoningLine(last);
    }
  }

  /** The lines before the strengths. */
  function HeaderLines(result: EvaluateOutput): seq<string>
  {
    var c := result.candidateEvaluation;
    var j := result.jobDescriptionEvaluation;
    ["\n" + Banner, "CV EVALUATION RESULTS", Banner,
     "\nCandidate: " + c.candidateName,
     "Experience: " + IntToString(c.experience) + " years",
     "Company: " + j.companyName,
     "Position: " + j.jobOpeningTitle]
  }

  /** The lines after the skills. */
  function FooterLines(rawJson: string): seq<string>
  {
    ["\n" + Banner, "Raw JSON Response:", Banner, rawJson]
  }

  const StrengthsTitle := "\nSTRENGTHS:"
  const WeaknessesTitle := "\nWEAKNESSES:"
  const SkillsTitle := "\nSKILL RATINGS (sorted by rating):"

  /** Everything `displayJsonResults(result)` logs, in order. */
  function ConsoleLines(result: EvaluateOutput, rawJson: string): seq<string>
  {
    var c := result.candidateEvaluation;
    HeaderLines(result) + [StrengthsTitle] + NumberedLines(c.strengths)
      + [WeaknessesTitle] + NumberedLines(c.weaknesses)
      + [SkillsTitle] + SkillLines(RankedSkills(c.skillRatings))
      + FooterLines(rawJson)
  }

  /** Appends one numbered line per item. */
  method LogNumbered(log: seq<string>, items: seq<string>) returns (out: seq<string>)
    ensures out == log + NumberedLines(items)
  {
    out := log;
    var i := 0;
    while i < |items|
      invariant 0 <= i <= |items|
      invariant out == log + NumberedLines(items)[..i]
    {
      out := out + [NumberedLine(i + 1, items[i])];
      i := i + 1;
    }
    assert NumberedLines(items)[..i] == NumberedLines(items);
  }

  /** Appends the two lines of each ranked skill, numbering from 1. */
  method LogSkills(log: seq<string>, ranked: seq<RatedSkill>) returns (out: seq<string>)
    ensures out == log + SkillLines(ranked)
  {
    out := log;
    var i := 0;
    while i < |ranked|
      invariant 0 <= i <= |ranked|
      invariant out == log + SkillLines(ranked[..i])
    {
      assert ranked[..i + 1][..i] == ranked[..i];
      out := out + [RatingLine(i + 1, ranked[i]), ReasoningLine(ranked[i])];
      i := i + 1;
    }
    assert ranked[..i] == ranked;
  }

  /** `displayJsonResults(result)`, with `rawJson` standing for
      `JSON.stringify(result, null, 2)`; returns what it logs. */
  method DisplayJsonResults(result: EvaluateOutput, rawJson: string) returns (log: seq<string>)
    ensures log == ConsoleLines(result, rawJson)
  {
    var c := result.candidateEvaluation;
    var sortedSkills := RankedSkills(c.skillRatings);
    log := HeaderLines(result) + [StrengthsTitle];
    log := LogNumbered(log, c.strengths);
    log := log + [WeaknessesTitle];
    log := LogNumbered(log, c.weaknesses);
    log := log + [SkillsTitle];
    log := LogSkills(log, sortedSkills);
    log := log + FooterLines(rawJson);
  }

  /** The report has fourteen fixed lines, one per strength and weakness and
      two per valid skill rating. */
  lemma ConsoleLineCount(result: EvaluateOutput, rawJson: string)
    ensures var c := result.candidateEvaluation;
            |ConsoleLines(result, rawJson)| ==
              14 + |c.strengths| + |c.weaknesses| + 2 * |ValidSkills(c.skillRatings)|
  {
    var c := result.candidateEvaluation;
    ConsoleLayout(result, rawJson);
    RankedSkillsCount(c.skillRatings);
  }

  /** Positions in any sequence cut like the report: a seven-element head,
      a title, a run, a title, a run, a title, a run and a non-empty foot. */
  lemma SectionsShape<T>(head: seq<T>, t1: T, nx: seq<T>, t2: T, ny: seq<T>, t3: T, zs: seq<T>, foot: seq<T>)
    requires |head| == 7 && |foot| > 0
    ensures var all := head + [t1] + nx + [t2] + ny + [t3] + zs + foot;
            var p := 10 + |nx| + |ny|;
            |all| == p + |zs| + |foot| &&
            all[..7] == head && all[7] == t1 &&
            all[8..8 + |nx|] == nx &&
            all[8 + |nx|] == t2 &&
            all[9 + |nx|..9 + |nx| + |ny|] == ny &&
            all[9 + |nx| + |ny|] == t3 &&
            all[p..p + |zs|] == zs &&
            all[|all| - 1] == foot[|foot| - 1]
  {
    var a := head + [t1] + nx;
    var b := a + [t2] + ny;
    var c := b + [t3] + zs;
    var all := c + foot;
    assert all[..|c|] == c;
    assert c[..|b|] == b;
    assert b[..|a|] == a;
    assert all[..7] == head by {
      assert all[..7] == a[..7];
    }
    assert all[8..8 + |nx|] == nx by {
      assert all[8..8 + |nx|] == a[8..8 + |nx|];
    }
    assert all[9 + |nx|..9 + |nx| + |ny|] == ny by {
      assert all[9 + |nx|..9 + |nx| + |ny|] == b[9 + |nx|..9 + |nx| + |ny|];
    }
    assert all[|b| + 1..|c|] == zs by {
      assert all[|b| + 1..|c|] == c[|b| + 1..|c|];
    }
  }

  /** Where each part of the report sits: the seven header lines first, the
      strengths title on line 8, then one numbered line per strength, the
      weaknesses title and one numbered line per weakness, the skills title,
      two lines per valid skill rating in ranked order, and the raw JSON last. */
  lemma ConsoleLayout(result: EvaluateOutput, rawJson: string)
    ensures var c := result.candidateEvaluation;
            var lines := ConsoleLines(result, rawJson);
            var ranked := RankedSkills(c.skillRatings);
            var s := |c.strengths|;
            var w := |c.weaknesses|;
            |lines| == 14 + s + w + 2 * |ranked| &&
            lines[..7] == HeaderLines(result) && lines[7] == StrengthsTitle &&
            lines[8..8 + s] == NumberedLines(c.strengths) &&
            lines[8 + s] == WeaknessesTitle &&
            lines[9 + s..9 + s + w] == NumberedLines(c.weaknesses) &&
            lines[9 + s + w] == SkillsTitle &&
            lines[10 + s + w..10 + s + w + 2 * |ranked|] == SkillLines(ranked) &&
            lines[|lines| - 1] == rawJson
  {
    var c := result.candidateEvaluation;
    var ranked := RankedSkills(c.skillRatings);
    SkillLinesLength(ranked);
    SectionsShape(HeaderLines(result), StrengthsTitle, NumberedLines(c.strengths), WeaknessesTitle,
                  NumberedLines(c.weaknesses), SkillsTitle, SkillLines(ranked), FooterLines(rawJson));
  }
}
