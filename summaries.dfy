/**
 * The structured summary with its fixed three-step plan, the normalization of
 * a payload that passed validation, and the padding loop shared with the
 * fallback.
 */
module Summaries {
  import opened Json
  import opened Schema
  import opened Text

  datatype PlanStep = PlanStep(step: string, durationMinutes: int, resources: seq<string>)

  datatype SummaryResult = SummaryResult(
    summary: string,
    keyConcepts: seq<string>,
    codeExamples: seq<string>,
    plan: seq<PlanStep>,
    difficulty: string)

  const DefaultDifficulty := "intermediate"
  /** The number of plan steps the summary always has. */
  const PlanLength := 3
  const FillerText := "추가 복습 및 연습"
  /** The step pushed while the plan is shorter than three. */
  const Filler := PlanStep(FillerText, 30, [])
  /** `String(p)` of a plan item, which is an object. */
  const ObjectText := "[object Object]"

  /** `String(p.step || p || '').trim()`: an empty step falls back to the item's string form. */
  function StepText(p: Json): string
    requires ValidStep(p)
  {
    var s := p.fields["step"].s;
    Trim(if s != "" then s else ObjectText)
  }

  /**
   * `String(p)` of an item with an empty step and its own `toString` property
   * throws a TypeError: a parsed value holds no function, so neither that
   * `toString` nor the inherited `valueOf`, which gives back the object,
   * yields a primitive.
   */
  predicate StepThrows(p: Json)
    requires ValidStep(p)
  {
    p.fields["step"].s == "" && "toString" in p.fields
  }

  /** Normalizing the validated payload throws: one of its three items is such an item. */
  predicate NormalizeThrows(p: Json)
    requires ValidSummaryPayload(p)
  {
    exists k :: 0 <= k < PlanLength && StepThrows(p.fields["plan"].items[k])
  }

  /** One normalized plan step. */
  function NormalizeStep(p: Json): PlanStep
    requires ValidStep(p)
  {
    PlanStep(StepText(p), DurationOf(p), if "resources" in p.fields then Strings(p.fields["resources"]) else [])
  }

  /** `while (plan.length < 3) plan.push(filler)`. */
  function Padded(plan: seq<PlanStep>): (r: seq<PlanStep>)
    decreases PlanLength - |plan|
  {
    if |plan| >= PlanLength then plan else Padded(plan + [Filler])
  }

  /** Padding keeps a plan of three or more; a shorter plan is kept as a prefix and filled up to exactly three. */
  lemma {:induction false} PaddedSpec(plan: seq<PlanStep>)
    ensures |plan| >= PlanLength ==> Padded(plan) == plan
    ensures |plan| <= PlanLength ==>
      && |Padded(plan)| == PlanLength && Padded(plan)[..|plan|] == plan
      && forall k :: |plan| <= k < PlanLength ==> Padded(plan)[k] == Filler
    decreases PlanLength - |plan|
  {
    if |plan| < PlanLength {
      PaddedSpec(plan + [Filler]);
      assert (plan + [Filler])[..|plan|] == plan;
      assert Padded(plan)[..|plan| + 1][..|plan|] == Padded(plan)[..|plan|];
    }
  }

  /** The padding loop. */
  method PadPlan(plan: seq<PlanStep>) returns (r: seq<PlanStep>)
    ensures r == Padded(plan)
  {
    r := plan;
    while |r| < PlanLength
      invariant Padded(r) == Padded(plan)
      decreases PlanLength - |r|
    {
      r := r + [Filler];
    }
  }

  /** The normalized steps of the first three plan items. */
  function NormalizeSteps(items: seq<Json>): (r: seq<PlanStep>)
    requires |items| >= PlanLength && forall k :: 0 <= k < PlanLength ==> ValidStep(items[k])
  {
    seq(PlanLength, k requires 0 <= k < PlanLength => NormalizeStep(items[k]))
  }

  /** `plan.slice(0, 3).map(...)`, the padding, then the defaults of the other fields. */
  function NormalizeSummary(p: Json): SummaryResult
    requires ValidSummaryPayload(p)
  {
    var d := p.fields["difficulty"].s;
    SummaryResult(
      p.fields["summary"].s,
      Strings(p.fields["key_concepts"]),
      if "code_examples" in p.fields then Strings(p.fields["code_examples"]) else [],
      Padded(NormalizeSteps(p.fields["plan"].items)),
      if d == "" then DefaultDifficulty else d)
  }

  /**
   * After normalization the plan has exactly three entries and the difficulty is
   * never empty; summary, key concepts and present code examples are kept.
   */
  lemma NormalizeSummaryShape(p: Json)
    requires ValidSummaryPayload(p)
    ensures var r := NormalizeSummary(p);
      && |r.plan| == 3
      && r.difficulty != ""
      && (p.fields["difficulty"].s != "" ==> r.difficulty == p.fields["difficulty"].s)
      && (p.fields["difficulty"].s == "" ==> r.difficulty == DefaultDifficulty)
      && r.summary == p.fields["summary"].s
      && r.keyConcepts == Strings(p.fields["key_concepts"])
      && ("code_examples" in p.fields ==> r.codeExamples == Strings(p.fields["code_examples"]))
      && ("code_examples" !in p.fields ==> r.codeExamples == [])
      && forall k :: 0 <= k < 3 ==> r.plan[k] == NormalizeStep(p.fields["plan"].items[k])
  {
    PaddedSpec(NormalizeSteps(p.fields["plan"].items));
  }

  /** The result as the object the service returns. */
  function EncodeStep(s: PlanStep): Json {
    JObj(map["step" := JStr(s.step), "duration_minutes" := JInt(s.durationMinutes), "resources" := StringArray(s.resources)])
  }

  function Encode(r: SummaryResult): Json {
    JObj(map[
      "summary" := JStr(r.summary),
      "key_concepts" := StringArray(r.keyConcepts),
      "code_examples" := StringArray(r.codeExamples),
      "plan" := JArr(seq(|r.plan|, k requires 0 <= k < |r.plan| => EncodeStep(r.plan[k]))),
      "difficulty" := JStr(r.difficulty)])
  }

  /** A result with a three-step plan validates against the summarize schema, and normalizing it does not throw. */
  lemma EncodeValid(r: SummaryResult)
    requires |r.plan| == 3
    ensures ValidSummaryPayload(Encode(r)) && !NormalizeThrows(Encode(r))
  {
  }

  /** The payload whose three steps are empty and carry their own `toString`. */
  function ToStringStepPayload(): Json {
    var step := JObj(map["step" := JStr(""), "toString" := JInt(0)]);
    JObj(map[
      "summary" := JStr(""), "key_concepts" := JArr([]), "difficulty" := JStr(""),
      "plan" := JArr([step, step, step])])
  }

  /** Such a payload passes validation, which admits unlisted properties, and its normalization throws. */
  lemma ToStringStepThrows()
    ensures ValidSummaryPayload(ToStringStepPayload()) && NormalizeThrows(ToStringStepPayload())
  {
    var p := ToStringStepPayload();
    assert p.fields["plan"].items[0] == JObj(map["step" := JStr(""), "toString" := JInt(0)]);
  }

  /** No step is made only of whitespace (such a step trims to "" and changes on a second pass). */
  predicate NoBlankStep(p: Json)
    requires ValidSummaryPayload(p)
  {
    forall k :: 0 <= k < 3 ==> var s := p.fields["plan"].items[k].fields["step"].s; s == "" || Trim(s) != ""
  }

  /** A step text after normalization is left unchanged by normalizing again. */
  lemma StepTextStable(p: Json)
    requires ValidStep(p)
    requires var s := p.fields["step"].s; s == "" || Trim(s) != ""
    ensures StepText(p) != "" && Trim(StepText(p)) == StepText(p)
  {
    var s := p.fields["step"].s;
    if s == "" {
      TrimOfTrimmed(ObjectText);
    }
    TrimIdempotent(if s != "" then s else ObjectText);
  }

  /** A stable step survives encoding and normalizing again. */
  lemma StepRoundTrip(s: PlanStep)
    requires s.step != "" && Trim(s.step) == s.step
    ensures ValidStep(EncodeStep(s)) && NormalizeStep(EncodeStep(s)) == s
  {
    var e := EncodeStep(s);
    assert e.fields["step"].s == s.step;
    assert StepText(e) == s.step;
  }

  /** The normalized steps of a summary's encoded plan are its plan, when every step is stable. */
  lemma EncodedPlan(r: SummaryResult)
    requires |r.plan| == 3
    requires forall k :: 0 <= k < 3 ==> r.plan[k].step != "" && Trim(r.plan[k].step) == r.plan[k].step
    ensures ValidSummaryPayload(Encode(r))
    ensures NormalizeSteps(Encode(r).fields["plan"].items) == r.plan
  {
    EncodeValid(r);
    var items := Encode(r).fields["plan"].items;
    forall k | 0 <= k < 3 ensures NormalizeStep(items[k]) == r.plan[k] {
      assert items[k] == EncodeStep(r.plan[k]);
      StepRoundTrip(r.plan[k]);
    }
  }

  /** Normalizing an already normalized summary gives it back, when no step is blank. */
  lemma NormalizeSummaryIdempotent(p: Json)
    requires ValidSummaryPayload(p) && NoBlankStep(p)
    ensures var r := NormalizeSummary(p);
      ValidSummaryPayload(Encode(r)) && NormalizeSummary(Encode(r)) == r
  {
    var r := NormalizeSummary(p);
    NormalizeSummaryShape(p);
    forall k | 0 <= k < 3 ensures r.plan[k].step != "" && Trim(r.plan[k].step) == r.plan[k].step {
      StepTextStable(p.fields["plan"].items[k]);
    }
    EncodedPlan(r);
    PaddedSpec(r.plan);
    var e := Encode(r);
    assert Strings(e.fields["key_concepts"]) == r.keyConcepts;
    assert Strings(e.fields["code_examples"]) == r.codeExamples;
  }

  /** The payload whose one step is a single space. */
  function BlankStepPayload(): Json {
    var step := JObj(map["step" := JStr(" ")]);
    JObj(map[
      "summary" := JStr(""), "key_concepts" := JArr([]), "difficulty" := JStr("beginner"),
      "plan" := JArr([step, step, step])])
  }

  /** A whitespace-only step is not stable: it becomes "" and then "[object Object]". */
  lemma BlankStepNotIdempotent()
    ensures ValidSummaryPayload(BlankStepPayload())
    ensures var r := NormalizeSummary(BlankStepPayload());
      r.plan[0].step == "" && ValidSummaryPayload(Encode(r)) && NormalizeSummary(Encode(r)).plan[0].step == ObjectText
  {
    var p := BlankStepPayload();
    var r := NormalizeSummary(p);
    NormalizeSummaryShape(p);
    assert Trim(" ") == "" by {
      assert LeadingSpaces(" ") == 1;
    }
    EncodeValid(r);
    TrimOfTrimmed(ObjectText);
  }
}
