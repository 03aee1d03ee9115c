# trpc-ai-assessment in Dafny

A model of the CV-evaluation service and its command-line helpers, with
proofs about them.

- **Server.** The API's `evaluate` mutation turns two PDFs into markdown, then runs two prompts over one shared conversation history:
  - stage 1 extracts the company, the position and the skills from the job description, and is cached under the SHA-256 of the job-description text;
  - stage 2 rates the CV against those skills, and is not cached.
- **Prompt executor.** `runPrompt`:
  - fills `{name}` placeholders;
  - answers from the response cache when the key is known;
  - otherwise builds the request: the history plus the new user turn, fixed generation settings, an optional system instruction and an optional response schema;
  - calls the remote model, checks the answer, writes the cache and extends the history.
- **Prompt definitions.** The two prompts' response schemas are modelled as a tagged union. Lemmas show that each schema is aligned with the TypeScript interface it is meant to produce.
- **Client side.**
  - the PDF header check and the loading of files into the upload form (`validatePDF`, `loadPDFFile`, `FormData.set`);
  - the stand-alone client's argument check and load order;
  - the interactive file browser's listing and navigation;
  - the text of the results screen;
  - the plain console report.
- **Shared helpers.**
  - The skill-rating filter and stable sort shared by both front ends.
  - The parts of Node's POSIX `path` module the program relies on (`join`, `resolve`, `basename`) are modelled exactly as Node's segment walk. This is what lets the file browser's "enter a directory, then go to `..`" round trip be proved.

Where the program changes state in place, the model is imperative:
- the executor's history and response cache, in `PromptExecutor.History` and `PromptExecutor.ResponseCache`;
- the upload form, in `PdfFile.FormData`;
- the file browser's current directory, list and status box, in `FileSelector.FileSelector`;
- the lines the console report writes, in `ConsoleOutput.DisplayJsonResults`.

Each method is proved equal to a function of the old state and the inputs. The properties are stated as lemmas about that function.

External effects become parameters:
- the remote endpoint is a function from the request to an abstract response;
- the SHA-256 digest is a function from text to 32 bytes;
- the PDF-to-markdown conversion is the sequence of UTF-16 code units it yields;
- JSON parsing is a function from text to an optional record;
- the filesystem is a map from path to file state, and a directory read is a function from path to listing;
- the working and home directories are strings.

Files:
- `wrappers.dfy`: Option / Result / Outcome.
- `js_strings.dfy`: join, split, number printing, prefixes.
- `types.dfy`: the records of src/types.ts.
- `response_schema.dfy`: schema and JSON vocabulary.
- `server_utils.dfy`
- `evaluate_job_description.dfy`
- `evaluate_candidate.dfy`
- `prompt_executor.dfy`
- `app_router.dfy`
- `posix_path.dfy`
- `pdf_file.dfy`
- `client.dfy`
- `skill_ratings.dfy`
- `results_display.dfy`
- `console_output.dfy`
- `file_selector.dfy`

## Model

Functions that only build a value from their inputs have no row of their own: Lookup, Slugs, Names, UserTurn, the bullet, skill-block and numbered-line builders, and `OrElse`. The lemmas about the operations that use them state what they yield.

| member | source | states |
|---|---|---|
| ServerUtils.WordRunLength | src/server/utils.ts:25 | `\w+` is greedy: the run is all word characters and stops at the first non-word character |
| ServerUtils.TokenAt | src/server/utils.ts:25 | the pattern matches at the start of a string only as `{` + a non-empty word + `}`, never without a leading `{` |
| ServerUtils.TokenAtKey | src/server/utils.ts:25 | `{k}` at the start of a string, for any word `k`, matches with the name `k` |
| ServerUtils.ReplaceTokensAtToken | src/server/utils.ts:25 | a matched token is replaced by the replacer's value for its name, and the scan resumes after the `}` |
| ServerUtils.ReplaceTokensPlainPrefix | src/server/utils.ts:25 | text before the first `{` is copied unchanged |
| ServerUtils.ReplaceTokensNoTokens | src/server/utils.ts:25 | text with no match is returned unchanged |
| ServerUtils.ReplaceTokensAgree | src/server/utils.ts:25 | two replacers that agree on every name written in the text give the same output |
| ServerUtils.ReplaceVarsNullIsEmpty | src/server/utils.ts:24-25 | null vars behave as an empty map |
| ServerUtils.ReplaceVarsOnlyNamedMatter | src/server/utils.ts:24-25 | maps that agree on the names used in the text give the same result |
| ServerUtils.ReplaceVarsDoesNotRescan | src/server/utils.ts:24-25 | one pass: a value that looks like a token is emitted verbatim, not substituted again |
| ServerUtils.ReplaceVarsTextThenToken | src/server/utils.ts:24-25 | plain text followed by one token gives the text plus the looked-up value |
| ServerUtils.ReplaceVarsHelloExamples | src/server/utils.ts:24-25 | `Hello {name}` gives `Hello Ana` with name=Ana, and `Hello ` with no name |
| ServerUtils.ReplaceVarsPlainExample | src/server/utils.ts:24-25 | text without placeholders is unchanged |
| ServerUtils.ReplaceVarsMalformedVerbatim | src/server/utils.ts:24-25 | `{}`, `{a-b}` and a lone `{` are not placeholders and stay as written |
| ServerUtils.ReplaceVarsAsWrittenLeaksPrototype | src/server/utils.ts:25 | as written, `{toString}` with an empty map becomes the text of a native function, where the corrected lookup gives "" |
| ServerUtils.InheritedToString | src/server/utils.ts:25 | `toString` is an inherited member of every plain object, whose string form is the native-function text |
| ServerUtils.ReplaceVarsAsWrittenAgrees | src/server/utils.ts:25 | the as-written and corrected substitution agree whenever no token names an inherited member missing from the map |
| ServerUtils.PadStartShape | src/server/utils.ts:18 | the result is as long as the string or the width, whichever is larger; it ends with the string, and every character before it is the fill |
| ServerUtils.ByteToHex | src/server/utils.ts:18 | every byte becomes exactly two lower-case hex digits whose value is the byte |
| ServerUtils.HexEncode | src/server/utils.ts:17-19 | the hex text is twice as long as the digest, all lower-case hex digits |
| ServerUtils.HexRoundTrip | src/server/utils.ts:16-20 | decoding the hex text gives back the bytes |
| ServerUtils.HexInjective | src/server/utils.ts:16-20 | distinct digests give distinct hex texts |
| ServerUtils.Sha256Hex | src/server/utils.ts:12-21 | the key is 64 lower-case hex characters that decode to the digest |
| ServerUtils.ScrubNonAscii | src/server/utils.ts:8 | same length; each code unit above 0x7F becomes a space and every other unit is kept |
| ServerUtils.ScrubIdempotent | src/server/utils.ts:8 | scrubbing twice is scrubbing once |
| ServerUtils.MarkdownText | src/server/utils.ts:4-9 | the markdown handed on is all ASCII, keeps every ASCII unit of the converter's output, and has the same length |
| EvaluateJobDescription.JobDescriptionSchemaShape | src/server/prompts/evaluateJobDescription/index.ts:7-39 | an object with `companyName`, `jobOpeningTitle`, `skills` in that order; `skills` is an array of the skill schema |
| EvaluateJobDescription.JobDescriptionPrompt | src/server/prompts/evaluateJobDescription/index.ts:41-45 | the record carries both templates, and its generator ignores the variables and yields the schema |
| EvaluateJobDescription.SkillConforms | src/server/prompts/evaluateJobDescription/index.ts:22-36 | every `ISkill` record conforms to the item schema |
| EvaluateJobDescription.SchemaAlignedWithInterface | src/server/prompts/evaluateJobDescription/index.ts:6-39 | every `IJobDescriptionEvaluation` value conforms to the schema |
| EvaluateJobDescription.NullSlugRejected | src/server/prompts/evaluateJobDescription/index.ts:25-29 | `nullable: false`: a null slug does not conform |
| EvaluateCandidate.CandidateSchemaShape | src/server/prompts/evaluateCandidate/index.ts:8-65 | the generated schema has `candidateName`, `experience`, `strengths`, `weaknesses`, `skillRatings` in that order; `skillRatings` is an array of the rating item schema |
| EvaluateCandidate.CandidatePrompt | src/server/prompts/evaluateCandidate/index.ts:67-71 | the record carries both templates and the skills-driven generator |
| EvaluateCandidate.SchemaDependsOnlyOnSkills | src/server/prompts/evaluateCandidate/index.ts:6-8 | the generated schema depends on the `skills` variable alone |
| EvaluateCandidate.SlugEnumerationExact | src/server/prompts/evaluateCandidate/index.ts:43 | the comma-joined enumeration splits back into exactly the slugs, when no slug holds a comma |
| EvaluateCandidate.SkillRatingsDescriptionCount | src/server/prompts/evaluateCandidate/index.ts:37 | the number written in the `skillRatings` description reads back as the number of skills |
| EvaluateCandidate.ItemDescriptionsEnumerate | src/server/prompts/evaluateCandidate/index.ts:41-50 | the slug description ends with the slug enumeration; the skill description ends with the names joined by ", " |
| EvaluateCandidate.EmptySkillsSchema | src/server/prompts/evaluateCandidate/index.ts:37-49 | with no skills the count is 0 and both enumerations are empty |
| EvaluateCandidate.GoSqlExample | src/server/prompts/evaluateCandidate/index.ts:43 | skills `go` and `sql` enumerate as `go,sql` |
| EvaluateCandidate.RatingConforms | src/server/prompts/evaluateCandidate/index.ts:38-62 | every complete `ISkillRating` conforms to the item schema |
| EvaluateCandidate.SchemaAlignedWithInterface | src/server/prompts/evaluateCandidate/index.ts:6-65 | every complete `ICandidateEvaluation` conforms to the generated schema, for any skills |
| PromptExecutor.FailureMessageNamesStatus | src/server/prompts/index.ts:76-80 | the HTTP failure message carries the status, as digits that read back as the status, and the status text |
| PromptExecutor.BuildRequest | src/server/prompts/index.ts:47-66 | the request is:<br>• the history plus the user turn;<br>• temperature 0, topP 0, topK 15;<br>• the filled system template iff there is a non-empty one;<br>• JSON mime type and the generated schema iff the prompt has a generator.<br>It fails only when the generator throws. |
| PromptExecutor.Run | src/server/prompts/index.ts:23-95 | A cache hit sends nothing and returns the stored turn.<br>A miss:<br>• sends the built request;<br>• succeeds iff the reply is 2xx with a candidate, and then returns the first candidate;<br>• an HTTP failure reports its status.<br>On success the history gains the user turn and the answer, and a keyed call stores the answer. On failure nothing changes. |
| PromptExecutor.CachedAnswerIsReused | src/server/prompts/index.ts:36-94 | after a successful keyed call, the same call is a hit: nothing is sent and the same turn comes back |
| PromptExecutor.FailureIsRepeatable | src/server/prompts/index.ts:76-84 | a failed call leaves history and cache as they were, so repeating it fails the same way |
| PromptExecutor.NoKeyIgnoresCache | src/server/prompts/index.ts:36-46 | without a key the cache contents make no difference and are not changed |
| PromptExecutor.History.constructor | src/server/appRouter.ts:28 | the history starts empty |
| PromptExecutor.History.Push | src/server/prompts/index.ts:93 | `push` appends the given turns in order |
| PromptExecutor.ResponseCache.constructor | src/server/prompts/index.ts:17-20 | the cache starts with the stored entries |
| PromptExecutor.ResponseCache.Put | src/server/prompts/index.ts:86-92 | writing a key stores the turn under it and leaves the other keys alone |
| PromptExecutor.RunPrompt | src/server/prompts/index.ts:23-95 | the method's result, request sent, history and cache are exactly those of `Run` on the old history and cache |
| AppRouter.FirstPartText | src/server/appRouter.ts:38 | there is a first-part text iff the turn has a part with text |
| AppRouter.CacheKey | src/server/appRouter.ts:35 | the stage-1 key is 64 characters, never empty |
| AppRouter.Evaluate | src/server/appRouter.ts:21-59 | the mutation equals the pipeline on the scrubbed markdown of both files, starting from an empty history, with the stage-1 key from the job description |
| AppRouter.SuccessLeavesFourTurns | src/server/appRouter.ts:28-52 | a successful evaluation leaves four turns: stage-1 question and answer, then stage-2 question and answer |
| AppRouter.StageOneFailureStops | src/server/appRouter.ts:31-39 | when stage 1 fails, stage 2 is never sent |
| AppRouter.StageTwoSent | src/server/appRouter.ts:42-49 | after success, the last request sent is the stage-2 request: the two stage-1 turns as history, and the CV with the stage-1 skills as variables |
| AppRouter.StageTwoSchema | src/server/appRouter.ts:42-49 | after success, the last request holds three turns and the schema the stage-2 prompt generates from the stage-1 skills |
| AppRouter.StageTwoRequest | src/server/appRouter.ts:42-49 | with the candidate prompt's generator, that schema is the candidate schema over the stage-1 skills |
| AppRouter.RunTouchesOnlyItsKey | src/server/prompts/index.ts:86-92 | one call changes at most the entry of its own key |
| AppRouter.CacheOnlyGainsJobDescriptionKey | src/server/appRouter.ts:31-49 | an evaluation changes only the stage-1 key; after stage 1 succeeds, that key holds the stage-1 answer |
| AppRouter.SecondStageOneHit | src/server/appRouter.ts:31-49 | when the stage-1 key is already stored with a parsable answer, only stage 2 is sent, and the evaluation reports the stored job description |
| AppRouter.SecondEvaluationHitsCache | src/server/appRouter.ts:31-36 | after a successful evaluation, the same job description with any CV does not send stage 1 again |
| AppRouter.CacheKeyDependsOnJobDescription | src/server/appRouter.ts:35 | two job descriptions share a key iff their digests are equal |
| PosixPath.Resolve | src/cli/components/FileSelector.ts:100 | resolving against an absolute working directory gives an absolute path |
| PosixPath.Basename | src/cli/utils/file.ts:28 | the base name holds no separator |
| PosixPath.JoinChild | src/cli/components/FileSelector.ts:107 | joining a plain name onto a canonical absolute path appends the name |
| PosixPath.ResolveParentOfChild | src/cli/components/FileSelector.ts:100 | resolving `..` from a child gives back the parent, whatever the working directory |
| PosixPath.ResolveParentOfRoot | src/cli/components/FileSelector.ts:100 | the parent of `/` is `/` |
| PosixPath.BasenameOfChild | src/cli/utils/file.ts:28 | the base name of a path ending in a plain name is that name |
| PdfFile.ValidatePdf | src/cli/utils/file.ts:6-13 | passes iff the buffer has at least five bytes and they read `%PDF-`; a failure carries the not-a-PDF message naming the file |
| PdfFile.ValidatePdfIgnoresTail | src/cli/utils/file.ts:10 | bytes after the first five never change the verdict |
| PdfFile.ShortBufferRejected | src/cli/utils/file.ts:10-11 | a buffer shorter than five bytes is rejected |
| PdfFile.RejectionNamesFile | src/cli/utils/file.ts:11 | the rejection message carries the file name after "The provided " |
| PdfFile.SetEntries | src/cli/utils/file.ts:28 | after `set`, the name has exactly the new entry; the other entries are kept, in order |
| PdfFile.SetAppendsWhenAbsent | src/cli/utils/file.ts:28 | `set` of a new name appends |
| PdfFile.FormData.constructor | src/client/index.ts:42 | a new form is empty |
| PdfFile.FormData.Set | src/cli/utils/file.ts:28 | the entries become `set` of the old entries |
| PdfFile.LoadOutcomeCases | src/cli/utils/file.ts:16-32 | `loadPDFFile`:<br>• succeeds iff the file exists, is readable and has the header;<br>• a missing path is "File not found" and is checked before any read;<br>• a read failure or a bad header is "Error reading <key> file: Error: <cause>". |
| PdfFile.ReadErrorNamesKey | src/cli/utils/file.ts:30 | every rewrapped error starts with "Error reading <key> file: " |
| PdfFile.LoadPdfFile | src/cli/utils/file.ts:16-32 | the outcome is as above; on success the form gets the file under the key with its base name; on failure the form is unchanged |
| Client.LoadErrorIsNotUsage | src/client/index.ts:46-60 | a load error is never the usage text |
| Client.RunClient | src/client/index.ts:41-60 | Usage and exit 1 iff a path is missing or empty, and then nothing is loaded.<br>Otherwise:<br>• the job description is loaded first, and the CV only when that succeeded;<br>• the first failure exits 1 with its message;<br>• the form is submitted iff both loads pass, and then holds the job description, then the CV. |
| SkillRatings.ValidEntriesAppend | src/cli/components/ResultsDisplay.ts:94-98 | filtering a concatenation filters each part, so kept entries stay in input order |
| SkillRatings.ValidEntriesOne | src/cli/components/ResultsDisplay.ts:94-98 | one entry is kept, once, iff it is present and its rating is a number |
| SkillRatings.ValidEntriesOccurrences | src/cli/components/ResultsDisplay.ts:94-98 | every valid value is kept exactly as often as it occurs in the input |
| SkillRatings.SortByRatingSpec | src/cli/components/ResultsDisplay.ts:101-103 | the result is highest-rating-first, a permutation of the input, and keeps the input order among equal ratings (stable) |
| SkillRatings.WithRatingPastLower | src/cli/components/ResultsDisplay.ts:101-103 | stability step: moving an entry past a lower-rated one keeps the order of the entries with any one rating |
| SkillRatings.SortOfSorted | src/cli/components/ResultsDisplay.ts:101-103 | an already ordered list is left unchanged |
| SkillRatings.RankedSkillsCount | src/cli/components/ResultsDisplay.ts:94-103 | the ranked list is highest-rating-first and as long as the filtered list, one entry per valid rating |
| SkillRatings.RankedSkillsOccurrences | src/cli/components/ResultsDisplay.ts:94-103 | each valid rating of the (possibly missing) list is listed exactly as often as it occurs there, and entries with equal ratings keep their input order |
| SkillRatings.RankedSkillsAreTheValidOnes | src/cli/components/ResultsDisplay.ts:94-103 | a rating is listed iff it is in the (possibly missing) list and its rating is a number |
| ResultsDisplay.HeaderFields | src/cli/components/ResultsDisplay.ts:43 | the header's `\|`-separated fields are candidate with experience, then company, then position |
| ResultsDisplay.BulletListLines | src/cli/components/ResultsDisplay.ts:60-62 | line by line: the title line, then one bullet per item in order (one empty line for no items) |
| ResultsDisplay.SkillEntryLines | src/cli/components/ResultsDisplay.ts:109-114 | a skill block is three lines:<br>• `<name or Unknown Skill>: <rating>/10`;<br>• the reasoning, or "No reasoning provided";<br>• an empty line. |
| ResultsDisplay.SkillsContentCases | src/cli/components/ResultsDisplay.ts:105-116 | the fixed notice iff no entry is valid; otherwise the heading and then the blocks of all valid entries, highest rating first |
| ConsoleOutput.ValidateInputs | src/cli/utils/console.ts:5-13 | returns normally iff both paths are non-empty; otherwise exits 1 with the usage text |
| ConsoleOutput.ValidateInputsAcceptsAnyPaths | src/cli/utils/console.ts:6 | any two non-empty paths pass |
| ConsoleOutput.NumberedLineReadsBack | src/cli/utils/console.ts:39 | the number on a line reads back as the item's position, followed by the item |
| ConsoleOutput.SkillLinesLength | src/cli/utils/console.ts:48-51 | two lines per ranked skill |
| ConsoleOutput.SkillLinesAt | src/cli/utils/console.ts:48-51 | the `k`-th ranked skill is on lines `2k` and `2k+1`: its number, name and rating, then its reasoning |
| ConsoleOutput.LogNumbered | src/cli/utils/console.ts:38-45 | the loop appends exactly the numbered lines |
| ConsoleOutput.LogSkills | src/cli/utils/console.ts:48-51 | the loop appends exactly the two lines of each ranked skill |
| ConsoleOutput.DisplayJsonResults | src/cli/utils/console.ts:16-57 | the loops log exactly the report |
| ConsoleOutput.ConsoleLineCount | src/cli/utils/console.ts:16-57 | the report has 14 fixed lines, plus one per strength and weakness and two per valid rating |
| ConsoleOutput.ConsoleLayout | src/cli/utils/console.ts:28-56 | where every part sits: seven header lines, the strengths title, the numbered strengths, the weaknesses title, the numbered weaknesses, the skills title, the ranked skills' lines, and the raw JSON last |
| FileSelector.LowerAsciiFolds | src/cli/components/FileSelector.ts:125 | lower-casing leaves no ASCII capital, changes only capitals, turns each into the same letter in lower case, and doing it twice is doing it once |
| FileSelector.Classified | src/cli/components/FileSelector.ts:120-138 | an item is listed iff some entry classifies to it |
| FileSelector.ClassifyCases | src/cli/components/FileSelector.ts:121-138 | a directory gives `[DIR] name/` whatever its name; a file is listed, as `[PDF] name`, iff its lower-cased name ends in `.pdf`; a failed stat is dropped |
| FileSelector.ClassifiedTagged | src/cli/components/FileSelector.ts:127-133 | every item is tagged `[DIR]` or `[PDF]` |
| FileSelector.WithPrefix | src/cli/components/FileSelector.ts:140-141 | keeps exactly the items with the tag |
| FileSelector.BelowTotal | src/cli/components/FileSelector.ts:140 | the default sort order relates any two strings |
| FileSelector.BelowTransitive | src/cli/components/FileSelector.ts:140 | the default sort order is transitive |
| FileSelector.SortedPairwise | src/cli/components/FileSelector.ts:140 | in a sorted list every item is at most every later one |
| FileSelector.SortStringsSpec | src/cli/components/FileSelector.ts:140-141 | the default `sort()` gives a sorted permutation of the same length |
| FileSelector.SortedSameItems | src/cli/components/FileSelector.ts:140-141 | sorting keeps exactly the items |
| FileSelector.ListItemsAreClassified | src/cli/components/FileSelector.ts:140-151 | nothing is added: the list is the parent item (off the root) plus exactly the classified items |
| FileSelector.ParentItemFirst | src/cli/components/FileSelector.ts:144-146 | the parent item comes first iff the directory is not `/` |
| FileSelector.PdfCountMatchesItems | src/cli/components/FileSelector.ts:152 | the count shown equals the number of `[PDF]` items in the list |
| FileSelector.ShortDir | src/cli/components/FileSelector.ts:153-156 | the directory itself when it has at most 40 characters; otherwise exactly 40 characters: `...` followed by the directory's last 37 |
| FileSelector.ContentLines | src/cli/components/FileSelector.ts:157-159 | the status box lines are the title, the directory shown, the PDF count, and the key help |
| FileSelector.DirNameOfItem | src/cli/components/FileSelector.ts:103-106 | stripping the tag and one trailing `/` from a directory item gives back the name |
| FileSelector.DirItemNotParent | src/cli/components/FileSelector.ts:99-108 | no real directory's item is mistaken for the parent item |
| FileSelector.EnterThenLeave | src/cli/components/FileSelector.ts:99-108 | choosing a directory item descends into it, and the parent item then comes back |
| FileSelector.ParentOfRootIsRoot | src/cli/components/FileSelector.ts:100 | the parent item at `/` stays at `/` |
| FileSelector.SelectPdf | src/cli/components/FileSelector.ts:109-114 | choosing a PDF item returns the file's path in the current directory; its base name is the file name; the directory is unchanged |
| FileSelector.OtherItemDoesNothing | src/cli/components/FileSelector.ts:96-115 | any other text neither moves nor selects |
| FileSelector.FileSelector.constructor | src/cli/components/FileSelector.ts:16-20 | the browser starts in the working directory with its title, showing "Loading directory..." |
| FileSelector.FileSelector.UpdateFileList | src/cli/components/FileSelector.ts:118-168 | the list and the box become those of the current directory's listing (the error item and text when the read throws); the directory is unchanged |
| FileSelector.FileSelector.ShowEntries | src/cli/components/FileSelector.ts:140-161 | after a successful read, the list becomes the listing's items and the box states the title, the directory and the number of PDF files; title and directory are unchanged |
| FileSelector.FileSelector.Show | src/cli/components/FileSelector.ts:170-177 | showing lists the current directory |
| FileSelector.FileSelector.HandleSelection | src/cli/components/FileSelector.ts:96-115 | the directory moves as `NextDir` says and is relisted when it moves; a PDF item returns its path; other items change nothing |
| FileSelector.FileSelector.PressHome | src/cli/components/FileSelector.ts:85-93 | `h` moves to the home directory and lists it |

## Left out

- The `fetch` POST is out: the endpoint is a parameter and the model records the request sent. Headers, the token and the JSON body encoding are not modelled.
- `pdf2md` is out: the markdown arrives as UTF-16 code units.
- SHA-256 itself is out: the digest is a parameter. `TextEncoder` is out with it.
- `JSON.parse` of the model's answers is a parameter. `JSON.stringify` of the result is passed in as text. The cache files' JSON round trip is not modelled: the cache stores turns.
- Cache storage as files is not modelled. The `.ai_cache` directory is a map keyed by the cache key, so the key-to-path join and `existsSync` are not modelled.
- Requests for the same key from concurrent evaluations are not modelled.
- Everything of the tRPC transport is out: src/server/index.ts, src/cli/services/ApiClient.ts, and the client's submission and result printing (src/client/index.ts:61-75).
- src/server/config.ts and src/server/schema.ts are not part of this model.
- The blessed widgets are out: layout, colours, rendering, key binding, mouse, and the `q` / Ctrl-C cancellation. The model keeps the texts and the current-directory state.
- src/cli/interactive.ts and src/cli/regular.ts, which only call the modelled helpers, are not part of this model.
- `process.exit`, `process.cwd()`, `os.homedir()` and standard error are modelled as results or parameters.
- The client's copies of `validatePDF` and `loadPDFFile` (src/client/index.ts:14-39) are identical to those of src/cli/utils/file.ts. They are modelled once, in `PdfFile`.
- `Rating` stands for a number in the model. Ratings and experience are integers, and `NaN` and non-numbers are separate cases. Fractional numbers and their printing are not modelled.
- Strings are sequences of characters, not UTF-16 code units:
  - FileSelector.ShortDir counts characters, not code units.
  - FileSelector.SortStrings compares characters, not code units.
  - FileSelector.LowerAscii folds ASCII letters only. Non-ASCII case mappings of `toLowerCase` are not modelled.
- `FileSelector.ParentItemFirst` assumes the entry names are what `readdirSync` returns: never `.` or `..`, and without a separator.
- `FileSelector.FileSelector` does not model the `(this.fileList as any).selected \|\| 0` lookup that turns a key press into item text. HandleSelection takes the chosen item's text.
- `PosixPath` models the POSIX `path` functions for the argument shapes the program uses: two-argument `join` and `resolve`, and `basename` without a suffix.
- PromptExecutor.UserTurn and PromptExecutor.BuildRequest fill the templates with the corrected substitution `ServerUtils.ReplaceVars`, not the as-written one the program calls (src/server/prompts/index.ts:29, :60). So `Run`, `RunPrompt` and `AppRouter.Evaluate` send `""` where the program would send an inherited member's text, such as a `{constructor}` token. `ServerUtils.ReplaceVarsAsWrittenAgrees` says when the two coincide: whenever no token names an inherited member missing from the variables.
- AppRouter.Evaluate: the cache key is computed before stage 1 runs, as in the source.
- Caching follows the code. Only stage 1 is cached; stage 2 has no key (src/server/appRouter.ts:42-49).

## Findings

| source | as written | input that shows it | evidently intended | confidence | as-written member | corrected member |
|---|---|---|---|---|---|---|
| src/server/utils.ts:25 | `vars?.[key] \|\| ""` reads the key through the object's prototype chain, so a placeholder named after an inherited member of `Object.prototype` is filled with that member | template `{toString}` with `vars = {}` yields `function toString() { [native code] }` instead of `""` | a placeholder with no variable of that name becomes `""` | not executed | ServerUtils.ReplaceVarsAsWrittenLeaksPrototype | ServerUtils.ReplaceVars |
