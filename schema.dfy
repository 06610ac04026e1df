/**
 * The two validation schemas, written as predicates over parsed JSON. As with
 * the validator's defaults, properties the schema does not mention are allowed,
 * and a listed property that is absent is only an error when it is required.
 */
module Schema {
  import opened Json

  /** A listed optional property: absent, or present with a string value. */
  predicate OptionalString(j: Json, key: string)
    requires j.JObj?
  {
    key in j.fields ==> j.fields[key].JStr?
  }

  /** A listed optional property: absent, or present with an integer value. */
  predicate OptionalInt(j: Json, key: string)
    requires j.JObj?
  {
    key in j.fields ==> j.fields[key].JInt?
  }

  /** A listed optional property: absent, or present with an array of strings. */
  predicate OptionalStrings(j: Json, key: string)
    requires j.JObj?
  {
    key in j.fields ==> IsStringArray(j.fields[key])
  }

  /** A required property with a string value. */
  predicate RequiredString(j: Json, key: string) {
    Has(j, key) && j.fields[key].JStr?
  }

  // ---------------------------------------------------------------------
  // Hierarchical plan (planning)
  // ---------------------------------------------------------------------

  /** One small todo: `todo` and `percentage` are required. */
  predicate ValidSmallTodo(t: Json) {
    && RequiredString(t, "todo")
    && Has(t, "percentage") && t.fields["percentage"].JInt?
    && OptionalInt(t, "duration_minutes")
    && OptionalString(t, "reference")
  }

  /** One big todo: `big_todo` and `small_todos` are required. */
  predicate ValidBigTodo(b: Json) {
    && RequiredString(b, "big_todo")
    && Has(b, "small_todos") && b.fields["small_todos"].JArr?
    && (forall k :: 0 <= k < |b.fields["small_todos"].items| ==> ValidSmallTodo(b.fields["small_todos"].items[k]))
  }

  /** The planning payload; `difficulty` is only checked to be a string. */
  predicate ValidPlanPayload(p: Json) {
    && RequiredString(p, "summary")
    && Has(p, "key_concepts") && IsStringArray(p.fields["key_concepts"])
    && OptionalStrings(p, "code_examples")
    && Has(p, "plan") && p.fields["plan"].JArr?
    && (forall k :: 0 <= k < |p.fields["plan"].items| ==> ValidBigTodo(p.fields["plan"].items[k]))
    && RequiredString(p, "difficulty")
  }

  // ---------------------------------------------------------------------
  // Fixed three-step plan (summarize)
  // ---------------------------------------------------------------------

  /** One plan step: only `step` is required. */
  predicate ValidStep(s: Json) {
    && RequiredString(s, "step")
    && OptionalInt(s, "duration_minutes")
    && OptionalStrings(s, "resources")
  }

  /** The summarize payload: `plan` has exactly three items (minItems = maxItems = 3). */
  predicate ValidSummaryPayload(p: Json) {
    && RequiredString(p, "summary")
    && Has(p, "key_concepts") && IsStringArray(p.fields["key_concepts"])
    && OptionalStrings(p, "code_examples")
    && Has(p, "plan") && p.fields["plan"].JArr? && |p.fields["plan"].items| == 3
    && (forall k :: 0 <= k < 3 ==> ValidStep(p.fields["plan"].items[k]))
    && RequiredString(p, "difficulty")
  }

  /** The default duration of a step, in minutes. */
  const DefaultDuration := 30

  /**
   * `Number.isInteger(d) ? d : (parseInt(d) || 30)` for a validated object: the
   * integer when `duration_minutes` is present (validation admits only integers),
   * and 30 when it is absent, since parseInt of an absent value is NaN.
   */
  function DurationOf(obj: Json): (r: int)
    requires obj.JObj? && OptionalInt(obj, "duration_minutes")
    ensures "duration_minutes" in obj.fields ==> obj.fields["duration_minutes"] == JInt(r)
    ensures "duration_minutes" !in obj.fields ==> r == DefaultDuration
  {
    if "duration_minutes" in obj.fields then obj.fields["duration_minutes"].i else DefaultDuration
  }

  // ---------------------------------------------------------------------
  // Properties of the schemas
  // ---------------------------------------------------------------------

  /** Validation does not restrict `difficulty` to the enumeration of the function declaration: any string passes. */
  lemma PlanDifficultyUnchecked(p: Json, d: string)
    requires ValidPlanPayload(p)
    ensures ValidPlanPayload(JObj(p.fields["difficulty" := JStr(d)]))
  {
    var q := JObj(p.fields["difficulty" := JStr(d)]);
    assert q.fields["plan"] == p.fields["plan"];
  }

  /** A property the schema does not list never makes a planning payload invalid. */
  lemma PlanExtraProperty(p: Json, key: string, v: Json)
    requires ValidPlanPayload(p)
    requires key !in {"summary", "key_concepts", "code_examples", "plan", "difficulty"}
    ensures ValidPlanPayload(JObj(p.fields[key := v]))
  {
    var q := JObj(p.fields[key := v]);
    assert q.fields["plan"] == p.fields["plan"];
    assert q.fields["key_concepts"] == p.fields["key_concepts"];
  }

  /** A summarize payload is valid only with exactly three plan items; a valid one with one item dropped is rejected. */
  lemma SummaryPlanOfTwoRejected(p: Json)
    requires ValidSummaryPayload(p)
    ensures !ValidSummaryPayload(JObj(p.fields["plan" := JArr(p.fields["plan"].items[..2])]))
  {
  }

  /** A small todo needs an integer `percentage`; a duration, when present, must be an integer. */
  lemma SmallTodoRequirements(t: Json)
    requires t.JObj?
    ensures ("percentage" !in t.fields || !t.fields["percentage"].JInt?) ==> !ValidSmallTodo(t)
    ensures ("duration_minutes" in t.fields && !t.fields["duration_minutes"].JInt?) ==> !ValidSmallTodo(t)
  {
  }

  /** The smallest planning payload: an empty summary, no key concepts, an empty plan and any difficulty. */
  lemma MinimalPlanPayload(d: string)
    ensures ValidPlanPayload(JObj(map["summary" := JStr(""), "key_concepts" := JArr([]), "plan" := JArr([]), "difficulty" := JStr(d)]))
  {
  }
}
