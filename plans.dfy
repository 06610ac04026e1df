/**
 * The hierarchical study plan of the planning service and the normalization
 * of a payload that passed validation.
 */
module Plans {
  import opened Wrappers
  import opened Json
  import opened Schema
  import opened Text

  /** A small todo; after normalization only `todo` and the duration remain, so percentage and reference are absent. */
  datatype SmallTodo = SmallTodo(todo: string, durationMinutes: int, percentage: Option<int>, reference: Option<string>)

  datatype BigTodo = BigTodo(bigTodo: string, smallTodos: seq<SmallTodo>)

  datatype PlanResult = PlanResult(
    summary: string,
    keyConcepts: seq<string>,
    codeExamples: seq<string>,
    plan: seq<BigTodo>,
    difficulty: string)

  const DefaultDifficulty := "intermediate"

  /** `{ todo: String(st.todo || '').trim(), duration_minutes: ... }` */
  function NormalizeSmall(t: Json): SmallTodo
    requires ValidSmallTodo(t)
  {
    SmallTodo(Trim(t.fields["todo"].s), DurationOf(t), None, None)
  }

  /** `{ big_todo: String(p.big_todo || '').trim(), small_todos: p.small_todos.map(...) }` */
  function NormalizeBig(b: Json): BigTodo
    requires ValidBigTodo(b)
  {
    var ts := b.fields["small_todos"].items;
    BigTodo(Trim(b.fields["big_todo"].s), seq(|ts|, k requires 0 <= k < |ts| => NormalizeSmall(ts[k])))
  }

  /** The plan normalization, then the defaults for falsy key concepts, code examples, difficulty and summary. */
  function NormalizePlan(p: Json): PlanResult
    requires ValidPlanPayload(p)
  {
    var items := p.fields["plan"].items;
    var d := p.fields["difficulty"].s;
    PlanResult(
      p.fields["summary"].s,
      Strings(p.fields["key_concepts"]),
      if "code_examples" in p.fields then Strings(p.fields["code_examples"]) else [],
      seq(|items|, k requires 0 <= k < |items| => NormalizeBig(items[k])),
      if d == "" then DefaultDifficulty else d)
  }

  /** A normalized small todo: trimmed text, no percentage, no reference. */
  predicate NormalSmall(t: SmallTodo) {
    IsTrimmed(t.todo) && t.percentage.None? && t.reference.None?
  }

  /** What normalization guarantees of the whole result. */
  predicate Normal(r: PlanResult) {
    && r.difficulty != ""
    && (forall k :: 0 <= k < |r.plan| ==> IsTrimmed(r.plan[k].bigTodo))
    && (forall k, j :: 0 <= k < |r.plan| && 0 <= j < |r.plan[k].smallTodos| ==> NormalSmall(r.plan[k].smallTodos[j]))
  }

  /**
   * Normalization keeps the plan's shape and order, trims every big and small
   * todo, keeps an integer duration and defaults a missing one to 30, drops
   * percentage and reference, and fills the defaults of the other fields.
   */
  lemma NormalizePlanSpec(p: Json)
    requires ValidPlanPayload(p)
    ensures var r := NormalizePlan(p); var items := p.fields["plan"].items;
      && Normal(r)
      && |r.plan| == |items|
      && (forall k :: 0 <= k < |items| ==>
            && r.plan[k].bigTodo == Trim(items[k].fields["big_todo"].s)
            && |r.plan[k].smallTodos| == |items[k].fields["small_todos"].items|)
      && (forall k, j :: 0 <= k < |items| && 0 <= j < |items[k].fields["small_todos"].items| ==>
            var t := items[k].fields["small_todos"].items[j];
            && r.plan[k].smallTodos[j].todo == Trim(t.fields["todo"].s)
            && ("duration_minutes" in t.fields ==> t.fields["duration_minutes"] == JInt(r.plan[k].smallTodos[j].durationMinutes))
            && ("duration_minutes" !in t.fields ==> r.plan[k].smallTodos[j].durationMinutes == 30))
      && r.summary == p.fields["summary"].s
      && r.keyConcepts == Strings(p.fields["key_concepts"])
      && ("code_examples" in p.fields ==> r.codeExamples == Strings(p.fields["code_examples"]))
      && ("code_examples" !in p.fields ==> r.codeExamples == [])
      && (p.fields["difficulty"].s != "" ==> r.difficulty == p.fields["difficulty"].s)
      && (p.fields["difficulty"].s == "" ==> r.difficulty == "intermediate")
  {
    var r := NormalizePlan(p);
    var items := p.fields["plan"].items;
    forall k | 0 <= k < |items| ensures IsTrimmed(r.plan[k].bigTodo) {
      TrimSpec(items[k].fields["big_todo"].s);
    }
    forall k, j | 0 <= k < |r.plan| && 0 <= j < |r.plan[k].smallTodos| ensures NormalSmall(r.plan[k].smallTodos[j]) {
      TrimSpec(items[k].fields["small_todos"].items[j].fields["todo"].s);
    }
  }
}
