/**
 * The summarize service: the structured summary generator (validated model
 * payload, or the free-text fallback) and the `summarizeSubjects` driver.
 * The fallback as written calls an undefined `printf` and so always fails;
 * `FallbackAsWritten` models that, and the generator the driver uses runs the
 * fallback heuristics it evidently intended.
 */
module Summarize {
  import opened Wrappers
  import opened Text
  import opened Collector
  import opened Prompt
  import opened Attempts
  import opened Summaries
  import opened Heuristics

  const FailedToSummarize := "Failed to summarize."
  /** The message of the ReferenceError an undefined `printf` raises. */
  const PrintfMissing := "printf is not defined"

  /** The summarize service's own texts. */
  const SummarizeTexts := Texts(SummaryWording, SummaryInstruction, SummaryRepair)

  // -----------------------------------------------------------------------
  // One generation
  // -----------------------------------------------------------------------

  /** `summarizeSingleSubject`: the plain request, whose text is the reply's content. */
  function PlainSummary(apiKey: bool, replies: seq<Reply>): (Result<string>, seq<Reply>) {
    if !apiKey then (Err(ApiKeyMissing), replies)
    else
      var n := Next(replies);
      match n.0
      case Thrown(m) => (Err(m), n.1)
      case Returned(c, _) => (Ok(c), n.1)
  }

  method SummarizeSingleSubject(apiKey: bool, replies: seq<Reply>) returns (r: Result<string>, rest: seq<Reply>)
    ensures (r, rest) == PlainSummary(apiKey, replies)
  {
    if !apiKey {
      return Err(ApiKeyMissing), replies;
    }
    var reply := Next(replies).0;
    rest := Next(replies).1;
    if reply.Thrown? {
      r := Err(reply.message);
    } else {
      r := Ok(reply.content);
    }
  }

  /** The fallback as written: the plain request runs, then `printf` throws. */
  function FallbackAsWritten(apiKey: bool, replies: seq<Reply>): (Result<SummaryResult>, seq<Reply>) {
    var t := PlainSummary(apiKey, replies);
    match t.0
    case Err(m) => (Err(m), t.1)
    case Ok(_) => (Err(PrintfMissing), t.1)
  }

  /** The small steps of a fallback summary: the first three extracted steps, 30 minutes each. */
  function FallbackSteps(steps: seq<string>): (r: seq<PlanStep>)
    ensures |r| == if |steps| < 3 then |steps| else 3
    ensures forall k :: 0 <= k < |r| ==> r[k] == PlanStep(steps[k], 30, [])
  {
    var n := if |steps| < 3 then |steps| else 3;
    seq(n, k requires 0 <= k < n => PlanStep(steps[k], 30, []))
  }

  /** The fallback summary the heuristics build from the plain reply's text. */
  function FallbackSummary(text: string): SummaryResult {
    var ls := Lines(text);
    SummaryResult(FirstParagraph(text), KeyConcepts(ls), [], Padded(FallbackSteps(Steps(ls))), DefaultDifficulty)
  }

  /** The fallback with the undefined call removed. */
  function Fallback(apiKey: bool, replies: seq<Reply>): (Result<SummaryResult>, seq<Reply>) {
    var t := PlainSummary(apiKey, replies);
    match t.0
    case Err(m) => (Err(m), t.1)
    case Ok(text) => (Ok(FallbackSummary(text)), t.1)
  }

  /** `summarizeSingleSubjectStructured` with the given fallback: the attempt loop, then normalization or the fallback. */
  function Generate(apiKey: bool, t: Texts, id: string, subject: string, docs: seq<Doc>, replies: seq<Reply>, asWritten: bool)
    : (Result<SummaryResult>, seq<Reply>)
  {
    if !apiKey then (Err(ApiKeyMissing), replies)
    else
      var l := Attempt(Tooling(SummaryTool, t), BuildPrompt(t.wording, id, subject, docs), replies);
      if l.payload.Some? then
        AttemptPayloadConforms(Tooling(SummaryTool, t), BuildPrompt(t.wording, id, subject, docs), replies);
        (Ok(NormalizeSummary(l.payload.value)), l.rest)
      else if asWritten then FallbackAsWritten(apiKey, l.rest)
      else Fallback(apiKey, l.rest)
  }

  /** The structured generator as written, whose fallback always fails. */
  function GenerateAsWritten(apiKey: bool, t: Texts, id: string, subject: string, docs: seq<Doc>, replies: seq<Reply>)
    : (Result<SummaryResult>, seq<Reply>)
  {
    Generate(apiKey, t, id, subject, docs, replies, true)
  }

  /** The structured generator with the fallback heuristics it evidently intended. */
  function GenerateSummary(apiKey: bool, t: Texts, id: string, subject: string, docs: seq<Doc>, replies: seq<Reply>)
    : (Result<SummaryResult>, seq<Reply>)
  {
    Generate(apiKey, t, id, subject, docs, replies, false)
  }

  /** `summarizeSingleSubjectStructured`, as written or with the corrected fallback. */
  method SummarizeSingleSubjectStructured(apiKey: bool, t: Texts, id: string, subject: string, docs: seq<Doc>, replies: seq<Reply>, asWritten: bool)
      returns (r: Result<SummaryResult>, rest: seq<Reply>)
    ensures (r, rest) == Generate(apiKey, t, id, subject, docs, replies, asWritten)
  {
    if !apiKey {
      return Err(ApiKeyMissing), replies;
    }
    var prompt := BuildPrompt(t.wording, id, subject, docs);
    var payload, attempts, messages, afterLoop := AttemptLoop(Tooling(SummaryTool, t), prompt, replies);
    if payload.Some? {
      AttemptPayloadConforms(Tooling(SummaryTool, t), prompt, replies);
      var p := payload.value;
      var plan := PadPlan(NormalizeSteps(p.fields["plan"].items));
      var d := p.fields["difficulty"].s;
      var codeExamples := if "code_examples" in p.fields then Json.Strings(p.fields["code_examples"]) else [];
      r := Ok(SummaryResult(p.fields["summary"].s, Json.Strings(p.fields["key_concepts"]), codeExamples, plan,
        if d == "" then DefaultDifficulty else d));
      return r, afterLoop;
    }
    var text;
    text, rest := SummarizeSingleSubject(apiKey, afterLoop);
    if text.Err? {
      return Err(text.message), rest;
    }
    if asWritten {
      return Err(PrintfMissing), rest;
    }
    var ls := Lines(text.value);
    var keyConcepts := ExtractKeyConcepts(ls);
    var extracted := ExtractSteps(ls);
    var plan := PadPlan(FallbackSteps(extracted));
    r := Ok(SummaryResult(FirstParagraph(text.value), keyConcepts, [], plan, DefaultDifficulty));
  }

  /** As written, every run that reaches the fallback fails: with the text of the plain request's throw, or with the ReferenceError once the plain request has returned. The corrected generator returns the heuristic summary instead. */
  lemma FallbackAlwaysFails(t: Texts, id: string, subject: string, docs: seq<Doc>, replies: seq<Reply>)
    requires Attempt(Tooling(SummaryTool, t), BuildPrompt(t.wording, id, subject, docs), replies).payload.None?
    ensures var l := Attempt(Tooling(SummaryTool, t), BuildPrompt(t.wording, id, subject, docs), replies);
      var n := Next(l.rest);
      && GenerateAsWritten(true, t, id, subject, docs, replies).0.Err?
      && (n.0.Returned? ==> GenerateAsWritten(true, t, id, subject, docs, replies) == (Err(PrintfMissing), n.1))
      && (n.0.Returned? ==> GenerateSummary(true, t, id, subject, docs, replies) == (Ok(FallbackSummary(n.0.content)), n.1))
  {
  }

  /** Two replies without function-call arguments and a plain reply: as written the result is the ReferenceError, corrected it is the fallback summary. */
  lemma PrintfCounterexample(t: Texts, id: string, subject: string, docs: seq<Doc>)
    ensures var replies := [Returned("", Missing), Returned("", Missing), Returned("1. Arrays", Missing)];
      && GenerateAsWritten(true, t, id, subject, docs, replies) == (Err("printf is not defined"), [])
      && GenerateSummary(true, t, id, subject, docs, replies) == (Ok(FallbackSummary("1. Arrays")), [])
  {
    var replies := [Returned("", Missing), Returned("", Missing), Returned("1. Arrays", Missing)];
    AttemptExhausted(Tooling(SummaryTool, t), BuildPrompt(t.wording, id, subject, docs), replies);
    assert replies[3..] == [];
  }

  /**
   * The corrected fallback summary: the first paragraph, at most five key
   * concepts under 200 characters, no code examples, intermediate difficulty,
   * and exactly three steps of 30 minutes, the extracted ones first and the
   * filler after them.
   */
  lemma FallbackSummarySpec(text: string)
    ensures var r := FallbackSummary(text); var s := Steps(Lines(text));
      var n := if |s| < 3 then |s| else 3;
      && r.summary == FirstParagraph(text) && r.codeExamples == [] && r.difficulty == "intermediate"
      && |r.keyConcepts| <= 5 && (forall k :: 0 <= k < |r.keyConcepts| ==> |r.keyConcepts[k]| < 200)
      && |r.plan| == 3
      && (forall k :: 0 <= k < n ==> r.plan[k] == PlanStep(s[k], 30, []))
      && (forall k :: n <= k < 3 ==> r.plan[k] == PlanStep("추가 복습 및 연습", 30, []))
  {
    KeyConceptsBound(Lines(text));
    FirstParagraphSpec(text);
    var f := FallbackSteps(Steps(Lines(text)));
    PaddedSpec(f);
    assert forall k :: 0 <= k < |f| ==> Padded(f)[k] == Padded(f)[..|f|][k];
  }

  /** A successful structured summary, as written or corrected, always has exactly three plan steps and a difficulty. */
  lemma GenerateShape(apiKey: bool, t: Texts, id: string, subject: string, docs: seq<Doc>, replies: seq<Reply>, asWritten: bool)
    ensures var g := Generate(apiKey, t, id, subject, docs, replies, asWritten);
      g.0.Ok? ==> |g.0.value.plan| == 3 && g.0.value.difficulty != ""
  {
    if apiKey {
      var p := BuildPrompt(t.wording, id, subject, docs);
      var l := Attempt(Tooling(SummaryTool, t), p, replies);
      if l.payload.Some? {
        AttemptPayloadConforms(Tooling(SummaryTool, t), p, replies);
        NormalizeSummaryShape(l.payload.value);
      } else if !asWritten && Next(l.rest).0.Returned? {
        FallbackSummarySpec(Next(l.rest).0.content);
      }
    }
  }

  /** One structured summary, as written or corrected, makes at most three requests. */
  lemma GenerateRequests(apiKey: bool, t: Texts, id: string, subject: string, docs: seq<Doc>, replies: seq<Reply>, asWritten: bool)
    ensures ConsumedAtMost(replies, Generate(apiKey, t, id, subject, docs, replies, asWritten).1, 3)
  {
    if apiKey {
      var p := BuildPrompt(t.wording, id, subject, docs);
      var l := Attempt(Tooling(SummaryTool, t), p, replies);
      AttemptBound(Tooling(SummaryTool, t), p, replies);
      AttemptConsumes(Tooling(SummaryTool, t), p, replies);
      if l.payload.None? {
        assert l.rest != [] ==> Next(l.rest).1 == replies[l.attempts + 1..];
      }
    }
  }

  // -----------------------------------------------------------------------
  // summarizeSubjects
  // -----------------------------------------------------------------------

  /** What `summarizeSubjects` stores for a subject: a structured summary, the plain text, or an error object. */
  datatype SummaryEntry = SummaryObject(summary: SummaryResult) | SummaryText(text: string) | SummaryError(error: string)

  /** `{ id, summaries }`. */
  datatype Response = Response(id: string, summaries: map<string, SummaryEntry>)

  /** `err.message || 'Failed to summarize.'`. */
  function ErrorMessage(m: string): (r: string)
    ensures r != "" && (m != "" ==> r == m)
  {
    if m == "" then FailedToSummarize else m
  }

  /** The entry of one subject with files `docs`, and the replies left; `asWritten` selects the structured generator. */
  function SubjectEntry(apiKey: bool, t: Texts, id: string, subject: string, structured: bool, docs: seq<Doc>, replies: seq<Reply>, asWritten: bool)
    : (SummaryEntry, seq<Reply>)
  {
    if |docs| == 0 then (if structured then SummaryError(NoFiles) else SummaryText(NoFiles), replies)
    else if structured then
      var g := Generate(apiKey, t, id, subject, docs, replies, asWritten);
      match g.0
      case Ok(s) => (SummaryObject(s), g.1)
      case Err(e) => (SummaryError(ErrorMessage(e)), g.1)
    else
      var r := PlainSummary(apiKey, replies);
      match r.0
      case Ok(text) => (SummaryText(text), r.1)
      case Err(e) => (SummaryText("Error: " + ErrorMessage(e)), r.1)
  }

  /** The entries after processing `subjects` in order; a later duplicate overwrites an earlier one. */
  function SummariesFor(apiKey: bool, t: Texts, root: seq<Node>, id: string, structured: bool, subjects: seq<string>, replies: seq<Reply>, asWritten: bool)
    : (map<string, SummaryEntry>, seq<Reply>)
  {
    if subjects == [] then (map[], replies)
    else
      var p := SummariesFor(apiKey, t, root, id, structured, subjects[..|subjects| - 1], replies, asWritten);
      var s := subjects[|subjects| - 1];
      var e := SubjectEntry(apiKey, t, id, s, structured, SummaryDocs(root, s), p.1, asWritten);
      (p.0[s := e.0], e.1)
  }

  /** The body of the subject loop: collect, then summarize in the requested mode, catching failures. */
  method SummarizeSubject(apiKey: bool, t: Texts, root: seq<Node>, id: string, structured: bool, subject: string, replies: seq<Reply>, asWritten: bool)
      returns (entry: SummaryEntry, rest: seq<Reply>)
    ensures (entry, rest) == SubjectEntry(apiKey, t, id, subject, structured, SummaryDocs(root, subject), replies, asWritten)
  {
    var files := CollectForSummary(root, subject);
    if |files| == 0 {
      entry := if structured then SummaryError(NoFiles) else SummaryText(NoFiles);
      return entry, replies;
    }
    if structured {
      var r;
      r, rest := SummarizeSingleSubjectStructured(apiKey, t, id, subject, files, replies, asWritten);
      entry := if r.Ok? then SummaryObject(r.value) else SummaryError(ErrorMessage(r.message));
    } else {
      var text;
      text, rest := SummarizeSingleSubject(apiKey, replies);
      entry := if text.Ok? then SummaryText(text.value) else SummaryText("Error: " + ErrorMessage(text.message));
    }
  }

  /** `summarizeSubjects` with the given request texts, as written or with the corrected fallback. */
  method SummarizeSubjectsLoop(apiKey: bool, t: Texts, root: seq<Node>, id: string, subjects: seq<string>, structured: bool, replies: seq<Reply>, asWritten: bool)
      returns (result: Response, rest: seq<Reply>)
    ensures result == Response(id, SummariesFor(apiKey, t, root, id, structured, subjects, replies, asWritten).0)
    ensures rest == SummariesFor(apiKey, t, root, id, structured, subjects, replies, asWritten).1
  {
    var summaries := map[];
    rest := replies;
    for i := 0 to |subjects|
      invariant (summaries, rest) == SummariesFor(apiKey, t, root, id, structured, subjects[..i], replies, asWritten)
    {
      assert subjects[..i + 1][..i] == subjects[..i];
      var entry;
      entry, rest := SummarizeSubject(apiKey, t, root, id, structured, subjects[i], rest, asWritten);
      summaries := summaries[subjects[i] := entry];
    }
    assert subjects[..|subjects|] == subjects;
    result := Response(id, summaries);
  }

  /** `summarizeSubjects` as the service runs it (with the corrected fallback). */
  method SummarizeSubjects(apiKey: bool, root: seq<Node>, id: string, subjects: seq<string>, structured: bool, replies: seq<Reply>)
      returns (result: Response, rest: seq<Reply>)
    ensures result == Response(id, SummariesFor(apiKey, SummarizeTexts, root, id, structured, subjects, replies, false).0)
    ensures rest == SummariesFor(apiKey, SummarizeTexts, root, id, structured, subjects, replies, false).1
  {
    result, rest := SummarizeSubjectsLoop(apiKey, SummarizeTexts, root, id, subjects, structured, replies, false);
  }

  // -----------------------------------------------------------------------
  // Properties of summarizeSubjects
  // -----------------------------------------------------------------------

  /** Every requested subject, and nothing else, is a key of the result. */
  lemma {:induction false} SummariesForKeys(apiKey: bool, t: Texts, root: seq<Node>, id: string, structured: bool, subjects: seq<string>, replies: seq<Reply>, asWritten: bool)
    ensures forall s :: s in SummariesFor(apiKey, t, root, id, structured, subjects, replies, asWritten).0 <==> s in subjects
  {
    if subjects != [] {
      var init := subjects[..|subjects| - 1];
      SummariesForKeys(apiKey, t, root, id, structured, init, replies, asWritten);
      assert subjects == init + [subjects[|subjects| - 1]];
    }
  }

  /** Each subject's entry comes from its own files and the replies left by the subjects before it, whatever happened to them; the last occurrence of a repeated subject wins. */
  lemma {:induction false} SummariesForEntry(apiKey: bool, t: Texts, root: seq<Node>, id: string, structured: bool, subjects: seq<string>, replies: seq<Reply>, asWritten: bool, k: nat)
    requires k < |subjects| && subjects[k] !in subjects[k + 1..]
    ensures var before := SummariesFor(apiKey, t, root, id, structured, subjects[..k], replies, asWritten).1;
      var s := subjects[k];
      var m := SummariesFor(apiKey, t, root, id, structured, subjects, replies, asWritten).0;
      s in m && m[s] == SubjectEntry(apiKey, t, id, s, structured, SummaryDocs(root, s), before, asWritten).0
  {
    var n := |subjects| - 1;
    var init := subjects[..n];
    SummariesForKeys(apiKey, t, root, id, structured, subjects, replies, asWritten);
    var p := SummariesFor(apiKey, t, root, id, structured, init, replies, asWritten);
    assert SummariesFor(apiKey, t, root, id, structured, subjects, replies, asWritten).0 == p.0[subjects[n] := SubjectEntry(apiKey, t, id, subjects[n], structured, SummaryDocs(root, subjects[n]), p.1, asWritten).0];
    if k < n {
      assert init[..k] == subjects[..k];
      assert init[k + 1..] == subjects[k + 1..n];
      assert subjects[n] in subjects[k + 1..];
      SummariesForKeys(apiKey, t, root, id, structured, init, replies, asWritten);
      SummariesForEntry(apiKey, t, root, id, structured, init, replies, asWritten, k);
    } else {
      assert init == subjects[..k];
    }
  }

  /**
   * A subject without files gets the sentinel of its mode without a request.
   * Otherwise structured mode stores a three-step summary or an error object
   * with a non-empty message, and plain mode stores text; structured mode makes
   * at most three requests, plain mode one. This holds as written and corrected.
   */
  lemma SubjectEntrySpec(apiKey: bool, t: Texts, id: string, subject: string, structured: bool, docs: seq<Doc>, replies: seq<Reply>, asWritten: bool)
    ensures var e := SubjectEntry(apiKey, t, id, subject, structured, docs, replies, asWritten);
      && (|docs| == 0 ==> e.1 == replies && e.0 == (if structured then SummaryError("No files found for this subject.") else SummaryText("No files found for this subject.")))
      && (structured ==> ConsumedAtMost(replies, e.1, 3))
      && (structured && e.0.SummaryObject? ==> |e.0.summary.plan| == 3)
      && (structured ==> e.0.SummaryObject? || (e.0.SummaryError? && e.0.error != ""))
      && (!structured ==> e.0.SummaryText? && ConsumedAtMost(replies, e.1, 1))
  {
    if |docs| > 0 && structured {
      GenerateShape(apiKey, t, id, subject, docs, replies, asWritten);
      GenerateRequests(apiKey, t, id, subject, docs, replies, asWritten);
    }
  }

  /**
   * A structured subject whose two attempts give no payload and whose plain
   * request returns: as written `summarizeSubjects` catches the ReferenceError
   * and stores `{ error: "printf is not defined" }`; corrected, it stores the
   * fallback summary of the plain reply.
   */
  lemma PrintfErrorEntry(t: Texts, id: string, subject: string, docs: seq<Doc>, replies: seq<Reply>)
    requires |docs| > 0
    requires Attempt(Tooling(SummaryTool, t), BuildPrompt(t.wording, id, subject, docs), replies).payload.None?
    requires Next(Attempt(Tooling(SummaryTool, t), BuildPrompt(t.wording, id, subject, docs), replies).rest).0.Returned?
    ensures var l := Attempt(Tooling(SummaryTool, t), BuildPrompt(t.wording, id, subject, docs), replies);
      && SubjectEntry(true, t, id, subject, true, docs, replies, true).0 == SummaryError("printf is not defined")
      && SubjectEntry(true, t, id, subject, true, docs, replies, false).0 == SummaryObject(FallbackSummary(Next(l.rest).0.content))
  {
    FallbackAlwaysFails(t, id, subject, docs, replies);
  }
}
