# Structured study-plan and summary generation

This project models the generation pipeline of the GDG_BE back end's two
content services: the planning service (`createPlans`) and the summarize
service (`summarizeSubjects`). For each requested subject, a service:

- collects the subject's text documents from a content tree;
- assembles a prompt, with the document block cut to a character budget;
- asks a language model for a structured answer through function calling.

The structured generator works in three stages:

1. It makes at most two attempts, with one "repair" turn after a reply that parsed but failed schema validation.
2. It normalizes the payload that validated.
3. Otherwise, it falls back to a plain request and builds the result from the reply with line heuristics.

The planning service makes one structured request per file and merges the per-file results. In the merge:

- key concepts and code examples are deduplicated in first-occurrence order;
- the summaries are prefixed with the file path and joined by a blank line;
- every small todo gets the file's path as its reference;
- the difficulty is the first non-empty one.

Both services:

- store a sentinel for a subject without files;
- turn a failure into an error entry;
- let a later duplicate subject overwrite an earlier one.

The model works on values:

- The language model is a sequence of canned replies (`Attempts.Reply`), one consumed per request. Once the sequence is exhausted, every further request throws.
- The file system is an in-memory tree (`Collector.Node`). A file carries the text that reading it yields and whether reading it succeeds.
- The `OPENAI_API_KEY` check is a boolean.

In a few places the code does less than its own function declarations suggest; the model follows the code:

- The planning validator checks `difficulty` only to be a string. The enumeration beginner/intermediate/advanced appears only in the function declaration sent to the model (`Schema.PlanDifficultyUnchecked`).
- `percentage` is required to be an integer, with no 0–100 bound.
- A cut document block ends in `"\n\n[TRUNCATED]"`: a blank line before the marker, 13 characters in all.
- The summarize fallback does not produce a result as written (see Findings).

Each method that mirrors a loop of the source is proved equal to a specification function. The properties are lemmas about those functions.

The modules follow the program's structure:

| module | contents |
|---|---|
| `Wrappers` | Option and Result |
| `Text` | JavaScript `trim`, `split`, `join`, line splitting, first paragraph |
| `Json` | parsed JSON values |
| `Collector` | `walkDir` and `collectFilesForSubject` of both services |
| `Prompt` | `buildPrompt` of both services |
| `Schema` | the two validation schemas |
| `Attempts` | the attempt/repair loop shared by both generators, with the request texts and messages both services share |
| `Plans`, `Summaries` | the result types and their normalization |
| `Heuristics` | the fallback's key-concept and step extraction |
| `Planning`, `Summarize` | the generators and drivers |

## Model

| member | source | states |
|---|---|---|
| Text.TrimSpec | src/features/planning/planning.service.js:284-285 | `trim` returns a contiguous part of its input with no whitespace at either end |
| Text.TrimIdempotent | src/features/planning/planning.service.js:284-285 | trimming an already trimmed todo text changes nothing |
| Text.JoinSplit | src/features/planning/planning.service.js:311 | joining the split pieces with the separator gives back the text |
| Text.Lines | src/features/planning/planning.service.js:311 | every fallback line is non-empty, trimmed and holds no line feed (a lone carriage return stays, as with `split(/\r?\n/)`) |
| Text.FirstParagraphSpec | src/features/planning/planning.service.js:337 | the fallback summary is a prefix of the reply with no paragraph break, ending where the first break starts |
| Collector.Extname | src/features/planning/planning.service.js:29 | the extension is empty or a suffix of the name that starts with its only dot |
| Collector.ExtnameSpec | src/features/planning/planning.service.js:29 | the extension is non-empty exactly when the name has a dot after its first character and is not ".." |
| Collector.LastIndexOf | src/features/planning/planning.service.js:29 | the index is that of the last occurrence, or -1 when there is none |
| Collector.WalkDir | src/features/planning/planning.service.js:22-49 | the walk appends, depth first in listing order, every readable file whose lower-cased extension is allowed |
| Collector.DirDocsLabelled | src/features/summarize/summarize.service.js:20-39 | every collected document's path extends the prefix and ends in a name with an allowed extension |
| Collector.PdfOnlyForPlanning | src/features/planning/planning.service.js:30 | every file whose lower-cased extension is ".pdf" is allowed by planning and never by summarize |
| Collector.SummaryWithinPlanning | src/features/summarize/summarize.service.js:28 | every document summarize collects below a directory, planning collects too |
| Collector.CollectForPlanning | src/features/planning/planning.service.js:60-97 | planning's collection equals its specification over the resolved target |
| Collector.PlanningDocsSpec | src/features/planning/planning.service.js:60-97 | a missing target gives nothing; a single file is collected under its own name when it is allowed and readable; a directory's documents are labelled relative to it |
| Collector.CollectForSummary | src/features/summarize/summarize.service.js:49-64 | summarize's collection equals its specification for the subject |
| Collector.SummaryDocsSpec | src/features/summarize/summarize.service.js:49-64 | a missing subject or one that is a file gives nothing; "" and "." give the walk of the whole content root with root-relative paths; other documents are labelled `subject/...` |
| Collector.Lookup | src/features/summarize/summarize.service.js:50 | the result is an entry of that name, or there is no entry of that name |
| Prompt.Entries | src/features/planning/planning.service.js:109-111 | one entry per document, in input order |
| Prompt.CombinedSnoc | src/features/planning/planning.service.js:109-111 | adding a document appends a blank line and its entry |
| Prompt.CombinedLength | src/features/planning/planning.service.js:109-111 | the block's length is the entries' lengths plus two per separator |
| Prompt.Truncate | src/features/planning/planning.service.js:113-116 | a block within budget is kept; a longer one becomes its first `budget` characters and the marker |
| Prompt.PromptBlock | src/features/planning/planning.service.js:108-122 | the user message is the head, the cut block and the task text |
| Prompt.PlanningPromptBlock | src/features/planning/planning.service.js:108-122 | up to 60000 block characters reach the planning message unchanged; a longer block is cut to 60000 plus the marker |
| Prompt.SummaryPromptBlock | src/features/summarize/summarize.service.js:75-88 | up to 15000 block characters reach the summarize message unchanged; a longer block is cut to 15000 plus the marker |
| Schema.PlanDifficultyUnchecked | src/features/planning/planning.service.js:242 | the validator accepts any string as difficulty, not only the enumeration of the function declaration |
| Schema.PlanExtraProperty | src/features/planning/planning.service.js:213-245 | a property the schema does not list never invalidates a plan payload |
| Schema.SmallTodoRequirements | src/features/planning/planning.service.js:226-235 | a small todo without an integer percentage, or with a non-integer duration, is rejected |
| Schema.MinimalPlanPayload | src/features/planning/planning.service.js:213-245 | an empty summary, no concepts, an empty plan and any difficulty form a valid payload |
| Schema.SummaryPlanOfTwoRejected | src/features/summarize/summarize.service.js:170-193 | a summary payload with two plan items is rejected |
| Attempts.AttemptLoop | src/features/planning/planning.service.js:249-304 | the loop's payload, request count, conversation and remaining replies equal the state machine's |
| Attempts.AttemptCases | src/features/summarize/summarize.service.js:197-250 | the first reply ends the loop when it throws or validates; otherwise a second request follows, after the repair turn exactly when the first reply failed validation |
| Attempts.AttemptBound | src/features/planning/planning.service.js:250-252 | one or two requests are made |
| Attempts.AttemptRepair | src/features/planning/planning.service.js:274-277 | the repair message is added at most once, exactly when the first reply parsed but failed validation |
| Attempts.AttemptThrowBreaks | src/features/planning/planning.service.js:300-303 | a throwing first request ends the loop with no payload |
| Attempts.AttemptPayloadConforms | src/features/planning/planning.service.js:271-294 | a returned payload always validates, normalizes without throwing, and comes from the last consumed reply |
| Attempts.AttemptNormalizationSkip | src/features/summarize/summarize.service.js:226-245 | a first reply that validates but whose normalization throws is caught inside the loop: the second request follows with no repair turn |
| Attempts.AttemptConsumes | src/features/planning/planning.service.js:249-304 | exactly one reply is consumed per request |
| Attempts.AttemptExhausted | src/features/planning/planning.service.js:249-304 | two non-throwing replies that never validate use both attempts and give no payload |
| Attempts.AttemptNoPayload | src/features/summarize/summarize.service.js:197-250 | there is no payload exactly when a request threw or no reply validated |
| Plans.NormalizePlanSpec | src/features/planning/planning.service.js:280-293 | normalization keeps the plan's shape and order, trims every todo, keeps integer durations or defaults them to 30, drops percentage and reference, keeps summary, key concepts and present code examples, and fills the defaults |
| Summaries.PaddedSpec | src/features/summarize/summarize.service.js:235 | a plan of three or more is kept; a shorter one is kept as a prefix and filled to exactly three |
| Summaries.PadPlan | src/features/summarize/summarize.service.js:235 | the padding loop gives the padded plan |
| Summaries.NormalizeSummaryShape | src/features/summarize/summarize.service.js:228-240 | a normalized summary has exactly three steps, each the normalized item, and a non-empty difficulty, the given one unless empty; the summary, the key concepts and present code examples are kept, and missing code examples become [] |
| Summaries.EncodeValid | src/features/summarize/summarize.service.js:170-193 | a result with three steps validates against the summarize schema, and normalizing it does not throw |
| Summaries.ToStringStepThrows | src/features/summarize/summarize.service.js:231 | an item with an empty step and its own `toString` passes validation, yet `String(p)` on it throws |
| Summaries.StepRoundTrip | src/features/summarize/summarize.service.js:230-234 | a stable step survives encoding and normalizing again |
| Summaries.EncodedPlan | src/features/summarize/summarize.service.js:228-240 | normalizing an encoded plan whose steps are stable gives that plan back |
| Summaries.NormalizeSummaryIdempotent | src/features/summarize/summarize.service.js:228-240 | normalizing twice equals normalizing once when no step is blank |
| Summaries.BlankStepNotIdempotent | src/features/summarize/summarize.service.js:231 | a whitespace-only step normalizes to "[object Object]" on the second pass |
| Heuristics.CaptureAfterSpaces | src/features/planning/planning.service.js:313 | the capture is the rest of the line after its leading whitespace |
| Heuristics.ConceptMatch | src/features/planning/planning.service.js:313 | a key-concept capture is a proper suffix of the line |
| Heuristics.StepMatch | src/features/planning/planning.service.js:323 | a step capture is a proper suffix of the line |
| Heuristics.ExtractKeyConcepts | src/features/planning/planning.service.js:310-316 | the loop that stops at five concepts gives the first five acceptable captures |
| Heuristics.ConceptsPrefix | src/features/planning/planning.service.js:310-316 | the concepts of a prefix of the lines are a prefix of all concepts |
| Heuristics.ConceptsFromLines | src/features/summarize/summarize.service.js:257-262 | each concept is shorter than 200 characters and is the capture of some line |
| Heuristics.KeyConceptsBound | src/features/planning/planning.service.js:310-316 | at most five key concepts, each shorter than 200 characters and captured from a line |
| Heuristics.ExtractSteps | src/features/planning/planning.service.js:319-330 | the loops give every marked line's capture, or the long lines when nothing is marked |
| Heuristics.StepsFromLines | src/features/summarize/summarize.service.js:264-270 | each step is the capture of a marked line |
| Heuristics.LongLinesBound | src/features/summarize/summarize.service.js:272 | at most three long lines, each longer than 20 characters and taken from the input |
| Planning.CreatePlanSingle | src/features/planning/planning.service.js:129-148 | the plain request fails without the key, passes a throw's message on, and otherwise returns the reply's content |
| Planning.CreatePlanSingleStructured | src/features/planning/planning.service.js:160-338 | the structured generator equals its specification: the attempt loop, then normalization or the fallback |
| Planning.GeneratePlanRequests | src/features/planning/planning.service.js:249-307 | one generation makes at most three requests |
| Planning.GeneratePlanNeedsKey | src/features/planning/planning.service.js:160-163 | without the API key the generator fails before any request |
| Planning.GeneratePlanOutcome | src/features/planning/planning.service.js:249-338 | a validated payload comes back as its normalization (`NormalizePlan`, whose contents `Plans.NormalizePlanSpec` states) with the replies after the loop left over; otherwise the fallback runs and fails only when the plain request throws |
| Planning.GeneratePlanAllInvalid | src/features/planning/planning.service.js:249-338 | two invalid replies give the fallback plan built from the third reply |
| Planning.FallbackPlanSpec | src/features/planning/planning.service.js:306-337 | the fallback holds one big todo of 30-minute steps, the first paragraph (`Text.FirstParagraph`), no code examples, intermediate difficulty and at most five short concepts |
| Planning.FirstIndex | src/features/planning/planning.service.js:428 | the index of the element's first occurrence |
| Planning.DedupSpec | src/features/planning/planning.service.js:428-429 | deduplication keeps exactly the input's elements, each once, in first-occurrence order |
| Planning.AttributedPlan | src/features/planning/planning.service.js:409-419 | every big todo of a file's plan is attributed, in order |
| Planning.AttributePlan | src/features/planning/planning.service.js:409-419 | the nested injection loops give the attributed plan |
| Planning.GenerateEach | src/features/planning/planning.service.js:383-421 | a successful per-file generation yields one result per file |
| Planning.GenerateEachRequests | src/features/planning/planning.service.js:383-421 | per-file generation makes at most three requests per file |
| Planning.MergeStep | src/features/planning/planning.service.js:383-421 | each accumulator grows by exactly one file's contribution |
| Planning.Absorb | src/features/planning/planning.service.js:387-420 | one file's result is folded into the accumulators, with its path injected as every reference |
| Planning.MergeFileResults | src/features/planning/planning.service.js:371-430 | the per-file loop equals generating each file in turn, stopping at the first failure, then merging |
| Planning.AllKeysMembers | src/features/planning/planning.service.js:393-395 | a concept is gathered exactly when some file's result holds it |
| Planning.AllCodesMembers | src/features/planning/planning.service.js:398-400 | a code example is gathered exactly when some file's result holds it |
| Planning.MergeCollections | src/features/planning/planning.service.js:428-429 | the merged concepts and code examples are those of all files, each once, in first-occurrence order |
| Planning.MergedPlanReferences | src/features/planning/planning.service.js:409-419 | every merged big todo is a big todo of one file's result with that file's path injected as every small todo's reference |
| Planning.MergedPlanSmallTodos | src/features/planning/planning.service.js:412-416 | every merged small todo is a small todo of one file's result whose reference is that file's path |
| Planning.MergedPlanContains | src/features/planning/planning.service.js:407-419 | every big todo of every file's result is in the merged plan, attributed to that file |
| Planning.MergedPlanLength | src/features/planning/planning.service.js:409-419 | the merged plan has as many big todos as all files' results together |
| Planning.DifficultiesSpec | src/features/planning/planning.service.js:402-404 | the collected difficulties are the non-empty ones, in file order |
| Planning.MergeDifficulty | src/features/planning/planning.service.js:426 | the merged difficulty is the first non-empty one, or intermediate |
| Planning.MergeSingle | src/features/planning/planning.service.js:371-430 | a single file merges into its own result, with the summary prefixed by its path, duplicates dropped and references set |
| Planning.ErrorMessage | src/features/planning/planning.service.js:438 | the error message is the thrown one when it is non-empty, and never empty |
| Planning.PlanSubject | src/features/planning/planning.service.js:361-438 | one subject's loop body equals its specification entry |
| Planning.CreatePlansLoop | src/features/planning/planning.service.js:350-442 | the subject loop equals the fold of the subjects it processes |
| Planning.CreatePlans | src/features/planning/planning.service.js:350-442 | `createPlans` with the service's own prompt texts |
| Planning.NoFilesEntry | src/features/planning/planning.service.js:363-366 | a subject without files gets its mode's sentinel and makes no request |
| Planning.SubjectEntrySpec | src/features/planning/planning.service.js:368-438 | structured mode stores a merged plan or an error object with a non-empty message; plain mode stores text |
| Planning.MissingKeyEntry | src/features/planning/planning.service.js:436-438 | without the key, a subject with files gets the key message in its mode's error form |
| Planning.PlansForKeys | src/features/planning/planning.service.js:359-441 | the result's keys are exactly the processed subjects |
| Planning.PlansForEntry | src/features/planning/planning.service.js:359-441 | a subject's entry is computed from its own files and the replies left by the subjects before it |
| Planning.CreatePlansKeys | src/features/planning/planning.service.js:359 | without a source path every subject gets an entry; with one only the first subject does, or "undefined" for an empty list |
| Summarize.SummarizeSingleSubject | src/features/summarize/summarize.service.js:95-114 | the plain request fails without the key, passes a throw's message on, and otherwise returns the reply's content |
| Summarize.FallbackAlwaysFails | src/features/summarize/summarize.service.js:253-254 | as written, every run that reaches the fallback fails: with the plain request's error, or with the undefined `printf` |
| Summarize.PrintfCounterexample | src/features/summarize/summarize.service.js:253-254 | with two replies that lack arguments and then a plain reply, the code as written yields the ReferenceError, while the corrected code yields the fallback summary |
| Summarize.FallbackSummarySpec | src/features/summarize/summarize.service.js:256-280 | the corrected fallback holds the first paragraph (`Text.FirstParagraph`), at most five short concepts, no code examples, intermediate difficulty and exactly three 30-minute steps, the extracted ones first |
| Summarize.SummarizeSingleSubjectStructured | src/features/summarize/summarize.service.js:126-281 | the structured summary generator equals its specification, with the fallback as written (ending in the `printf` error) or corrected |
| Summarize.GenerateShape | src/features/summarize/summarize.service.js:228-280 | a successful structured summary, as written or corrected, always has exactly three steps and a difficulty |
| Summarize.GenerateRequests | src/features/summarize/summarize.service.js:197-253 | one structured summary, as written or corrected, makes at most three requests |
| Summarize.ErrorMessage | src/features/summarize/summarize.service.js:311 | the error message is the thrown one when it is non-empty, and never empty |
| Summarize.SummarizeSubject | src/features/summarize/summarize.service.js:294-311 | one subject's loop body equals its specification entry, as written or corrected |
| Summarize.SummarizeSubjectsLoop | src/features/summarize/summarize.service.js:291-315 | the subject loop equals the fold over the subjects; with `asWritten` it is the source as written |
| Summarize.SummarizeSubjects | src/features/summarize/summarize.service.js:291-315 | `summarizeSubjects` with the service's own prompt texts and the corrected fallback |
| Summarize.SummariesForKeys | src/features/summarize/summarize.service.js:291-315 | every requested subject, and nothing else, is a key of the result |
| Summarize.SummariesForEntry | src/features/summarize/summarize.service.js:291-315 | a subject's entry comes from its own files and the replies left before it; the last occurrence of a repeated subject wins |
| Summarize.SubjectEntrySpec | src/features/summarize/summarize.service.js:295-311 | no files: the mode's sentinel, with no request; structured: a three-step summary or an error with a non-empty message, after at most three requests; plain: text, after one request; as written and corrected |
| Summarize.PrintfErrorEntry | src/features/summarize/summarize.service.js:253-254 | a structured subject that reaches the fallback and gets a plain reply is stored as `{ error: "printf is not defined" }` as written, and as the fallback summary corrected |

## Left out

- Logging, the OpenAI client and the network: the model's answers are the canned `Reply` sequence. Whatever the client does once that sequence is exhausted is modelled as a throw with an empty message.
- The prompt text of the plain request: it is built but not observed here, because a canned reply does not depend on it.
- The prompt and message texts are passed as a `Texts` value. Only `Planning.CreatePlans` and `Summarize.SummarizeSubjects` supply the services' own constants.
- `JSON.parse` and the AJV library are not modelled as code. A reply's arguments are given as absent, unparsable, or a parsed value; the validator is the `Schema` predicates written against the two schemas.
- PDF text extraction: a PDF file's node carries the text extraction yields.
- `fs.stat` and `fs.readdir` errors other than a missing path are not modelled. A directory that cannot be listed is not represented; a file that cannot be read is skipped, as the source does.
- Subject names and the source path are resolved as one path component of the tree; "" and "." resolve to the content root. Other names that `path.join` normalizes, such as those holding `/` or `..`, are not resolved.
- Subjects are typed as strings. The controllers check only that `subjects` is an array. A non-string element makes `path.join` throw (in planning only when there is no source path) before the per-subject `try` (planning.service.js:61 and :368; summarize.service.js:50 and :301), so the whole request fails. The model has no such element.
- Lengths count Dafny characters. JavaScript counts UTF-16 code units, so the two differ for characters outside the Basic Multilingual Plane.
- `AsciiLower` lower-cases ASCII letters only; none of the allowed extensions has any other letter.
- `parseInt` of a non-integer duration is unreachable after validation, so only the integer and absent cases are modelled.
- Properties that the schemas allow and the services copy through are dropped from the typed results (`PlanResult`, `SummaryResult`). Normalization drops percentage and reference, as the source does.
- Summarize.SummarizeSubjects, Summarize.SummariesFor, Summarize.SubjectEntry, Summarize.SummarizeSubject, Summarize.SummarizeSubjectsLoop: the service-level method runs the corrected fallback (`asWritten` false), so a subject that reaches the fallback gets the heuristic summary where the source stores `{ error: "printf is not defined" }`. The other four take `asWritten`, and with it true they model the source as written (`Summarize.PrintfErrorEntry`).
- Summaries.NormalizeSummaryIdempotent: stated only for payloads with no blank step, because with one the second pass turns the step into "[object Object]" (Summaries.BlankStepNotIdempotent).
- Planning.PlansForKeys, Planning.CreatePlansKeys, Summarize.SummariesForKeys: the result is a map, so the subject `__proto__` gets an entry. In the source, `result.plans` and `result.summaries` are plain object literals, and assigning `__proto__` goes through the prototype setter and leaves no own key, so the response has no entry for that subject.
- Plans.NormalizePlanSpec: needs a validated payload, because normalization is only reached after validation.
- The in-place mutation of each file's result while references are injected is modelled on values. The result is not reused after the merge, so aliasing is not observable.
- Controllers, routes, the database, uploads and the other services of the repository are not part of this model.

## Findings

| source | as written | input that shows it | evidently intended | confidence | as-written member | corrected member |
|---|---|---|---|---|---|---|
| src/features/summarize/summarize.service.js:253-254 | the fallback calls `printf`, which is not defined, so it throws a ReferenceError after the plain request, and the subject gets an error entry | two replies without function-call arguments, then a plain reply "1. Arrays" | log the text and build the heuristic summary (first paragraph, key concepts, three steps) | not executed | Summarize.GenerateAsWritten (Summarize.FallbackAlwaysFails, Summarize.PrintfCounterexample, Summarize.PrintfErrorEntry) | Summarize.GenerateSummary (Summarize.FallbackSummarySpec, Summarize.GenerateShape) |
