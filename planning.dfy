/**
 * The planning service: the structured generator for one set of documents
 * (validated model payload, or the free-text fallback), the merge of the
 * per-file results of one subject, and the `createPlans` driver.
 */
module Planning {
  import opened Wrappers
  import opened Text
  import opened Collector
  import opened Prompt
  import opened Attempts
  import opened Plans
  import opened Heuristics

  /** The single big todo of a fallback plan. */
  const AutoTitle := "학습 계획 (자동 추출됨)"
  const FailedToPlan := "Failed to plan."

  /** The planning service's own texts. */
  const PlanningTexts := Texts(PlanningWording, PlanInstruction, PlanRepair)

  // -----------------------------------------------------------------------
  // One generation: createPlanSingle and createPlanSingleStructured
  // -----------------------------------------------------------------------

  /** `createPlanSingle`: the plain request, whose text is the reply's content. */
  function PlainPlan(apiKey: bool, replies: seq<Reply>): (Result<string>, seq<Reply>) {
    if !apiKey then (Err(ApiKeyMissing), replies)
    else
      var n := Next(replies);
      match n.0
      case Thrown(m) => (Err(m), n.1)
      case Returned(c, _) => (Ok(c), n.1)
  }

  /** `createPlanSingle` as the service runs it. */
  method CreatePlanSingle(apiKey: bool, replies: seq<Reply>) returns (r: Result<string>, rest: seq<Reply>)
    ensures (r, rest) == PlainPlan(apiKey, replies)
  {
    if !apiKey {
      return Err(ApiKeyMissing), replies;
    }
    var reply := Next(replies).0;
    rest := Next(replies).1;
    if reply.Thrown? {
      r := Err(reply.message);
    } else {
      r := Ok(reply.content);
    }
  }

  /** The small todos synthesized from extracted steps, 30 minutes each. */
  function AutoTodos(steps: seq<string>): (r: seq<SmallTodo>)
    ensures |r| == |steps|
    ensures forall k :: 0 <= k < |r| ==> r[k] == SmallTodo(steps[k], 30, None, None)
  {
    seq(|steps|, k requires 0 <= k < |steps| => SmallTodo(steps[k], 30, None, None))
  }

  /** The fallback result built from the plain reply's text. */
  function FallbackPlan(text: string): PlanResult {
    var ls := Lines(text);
    PlanResult(FirstParagraph(text), KeyConcepts(ls), [], [BigTodo(AutoTitle, AutoTodos(Steps(ls)))], DefaultDifficulty)
  }

  /** `createPlanSingleStructured`: the attempt loop, then normalization or the fallback. */
  function GeneratePlan(apiKey: bool, t: Texts, id: string, subject: string, docs: seq<Doc>, replies: seq<Reply>)
    : (Result<PlanResult>, seq<Reply>)
  {
    if !apiKey then (Err(ApiKeyMissing), replies)
    else
      var l := Attempt(Tooling(PlanTool, t), BuildPrompt(t.wording, id, subject, docs), replies);
      if l.payload.Some? then
        AttemptPayloadConforms(Tooling(PlanTool, t), BuildPrompt(t.wording, id, subject, docs), replies);
        (Ok(NormalizePlan(l.payload.value)), l.rest)
      else
        var t := PlainPlan(apiKey, l.rest);
        match t.0
        case Err(m) => (Err(m), t.1)
        case Ok(text) => (Ok(FallbackPlan(text)), t.1)
  }

  /** `createPlanSingleStructured` as the service runs it. */
  method CreatePlanSingleStructured(apiKey: bool, t: Texts, id: string, subject: string, docs: seq<Doc>, replies: seq<Reply>)
      returns (r: Result<PlanResult>, rest: seq<Reply>)
    ensures (r, rest) == GeneratePlan(apiKey, t, id, subject, docs, replies)
  {
    if !apiKey {
      return Err(ApiKeyMissing), replies;
    }
    var prompt := BuildPrompt(t.wording, id, subject, docs);
    var payload, attempts, messages, afterLoop := AttemptLoop(Tooling(PlanTool, t), prompt, replies);
    if payload.Some? {
      AttemptPayloadConforms(Tooling(PlanTool, t), prompt, replies);
      return Ok(NormalizePlan(payload.value)), afterLoop;
    }
    var text;
    text, rest := CreatePlanSingle(apiKey, afterLoop);
    if text.Err? {
      return Err(text.message), rest;
    }
    var ls := Lines(text.value);
    var keyConcepts := ExtractKeyConcepts(ls);
    var extracted := ExtractSteps(ls);
    var plan := [BigTodo(AutoTitle, AutoTodos(extracted))];
    r := Ok(PlanResult(FirstParagraph(text.value), keyConcepts, [], plan, DefaultDifficulty));
  }

  /** One generation makes at most three requests: two structured attempts and the plain fallback. */
  lemma GeneratePlanRequests(apiKey: bool, t: Texts, id: string, subject: string, docs: seq<Doc>, replies: seq<Reply>)
    ensures ConsumedAtMost(replies, GeneratePlan(apiKey, t, id, subject, docs, replies).1, 3)
  {
    if apiKey {
      var p := BuildPrompt(t.wording, id, subject, docs);
      var l := Attempt(Tooling(PlanTool, t), p, replies);
      AttemptBound(Tooling(PlanTool, t), p, replies);
      AttemptConsumes(Tooling(PlanTool, t), p, replies);
      if l.payload.None? {
        assert l.rest != [] ==> Next(l.rest).1 == replies[l.attempts + 1..];
      }
    }
  }

  /** Without the API key the generator fails before any request. */
  lemma GeneratePlanNeedsKey(t: Texts, id: string, subject: string, docs: seq<Doc>, replies: seq<Reply>)
    ensures GeneratePlan(false, t, id, subject, docs, replies) == (Err(ApiKeyMissing), replies)
  {
  }

  /** A validated payload is returned normalized; every other outcome of the loop reaches the fallback, which fails only when the plain request throws. */
  lemma GeneratePlanOutcome(t: Texts, id: string, subject: string, docs: seq<Doc>, replies: seq<Reply>)
    ensures var p := BuildPrompt(t.wording, id, subject, docs);
      var l := Attempt(Tooling(PlanTool, t), p, replies);
      var g := GeneratePlan(true, t, id, subject, docs, replies);
      && (l.payload.Some? ==> g == (Ok(NormalizePlan(l.payload.value)), l.rest) && Normal(g.0.value))
      && (l.payload.None? ==> match Next(l.rest).0
            case Thrown(m) => g == (Err(m), Next(l.rest).1)
            case Returned(text, _) => g == (Ok(FallbackPlan(text)), Next(l.rest).1))
  {
    var p := BuildPrompt(t.wording, id, subject, docs);
    var l := Attempt(Tooling(PlanTool, t), p, replies);
    if l.payload.Some? {
      AttemptPayloadConforms(Tooling(PlanTool, t), p, replies);
      NormalizePlanSpec(l.payload.value);
    }
  }

  /** A model that never returns a valid payload: exactly two structured attempts, then the fallback result from the third reply. */
  lemma GeneratePlanAllInvalid(t: Texts, id: string, subject: string, docs: seq<Doc>, replies: seq<Reply>)
    requires |replies| >= 3
    requires replies[0].Returned? && !Accepted(Tooling(PlanTool, t), replies[0])
    requires replies[1].Returned? && !Accepted(Tooling(PlanTool, t), replies[1])
    requires replies[2].Returned?
    ensures GeneratePlan(true, t, id, subject, docs, replies) == (Ok(FallbackPlan(replies[2].content)), replies[3..])
  {
    AttemptExhausted(Tooling(PlanTool, t), BuildPrompt(t.wording, id, subject, docs), replies);
  }

  /**
   * The fallback plan: one big todo titled "학습 계획 (자동 추출됨)" whose small
   * todos are the extracted steps at 30 minutes each; the summary is the first
   * paragraph; no code examples; intermediate difficulty; at most five key
   * concepts, each shorter than 200 characters.
   */
  lemma FallbackPlanSpec(text: string)
    ensures var r := FallbackPlan(text); var ls := Lines(text);
      && |r.plan| == 1 && r.plan[0].bigTodo == AutoTitle
      && |r.plan[0].smallTodos| == |Steps(ls)|
      && (forall k :: 0 <= k < |Steps(ls)| ==> r.plan[0].smallTodos[k].todo == Steps(ls)[k] && r.plan[0].smallTodos[k].durationMinutes == 30)
      && r.summary == FirstParagraph(text) && r.codeExamples == [] && r.difficulty == "intermediate"
      && |r.keyConcepts| <= 5 && (forall k :: 0 <= k < |r.keyConcepts| ==> |r.keyConcepts[k]| < 200)
  {
    KeyConceptsBound(Lines(text));
  }

  // -----------------------------------------------------------------------
  // Merging the per-file results of one subject
  // -----------------------------------------------------------------------

  /** `[...new Set(xs)]`: the distinct elements of `xs` in order of first occurrence. */
  function Dedup(xs: seq<string>): seq<string> {
    if xs == [] then []
    else
      var d := Dedup(xs[..|xs| - 1]);
      if xs[|xs| - 1] in d then d else d + [xs[|xs| - 1]]
  }

  /** The index of the first occurrence of `x` in `xs`. */
  function FirstIndex(xs: seq<string>, x: string): (r: nat)
    requires x in xs
    ensures r < |xs| && xs[r] == x && x !in xs[..r]
  {
    if xs[0] == x then 0 else 1 + FirstIndex(xs[1..], x)
  }

  lemma {:induction false} FirstIndexSnoc(xs: seq<string>, y: string, x: string)
    requires x in xs
    ensures FirstIndex(xs + [y], x) == FirstIndex(xs, x)
  {
    if xs[0] != x {
      assert (xs + [y])[1..] == xs[1..] + [y];
      FirstIndexSnoc(xs[1..], y, x);
    }
  }

  /**
   * Deduplication keeps exactly the elements of its input, each once, in the
   * order of their first occurrence.
   */
  lemma {:induction false} DedupSpec(xs: seq<string>)
    ensures forall x :: x in Dedup(xs) <==> x in xs
    ensures forall i, j :: 0 <= i < j < |Dedup(xs)| ==> Dedup(xs)[i] != Dedup(xs)[j]
    ensures forall i, j :: 0 <= i < j < |Dedup(xs)| ==> FirstIndex(xs, Dedup(xs)[i]) < FirstIndex(xs, Dedup(xs)[j])
  {
    if xs != [] {
      var init := xs[..|xs| - 1];
      var y := xs[|xs| - 1];
      assert xs == init + [y];
      DedupSpec(init);
      var d := Dedup(init);
      forall x | x in init
        ensures FirstIndex(xs, x) == FirstIndex(init, x)
      {
        FirstIndexSnoc(init, y, x);
      }
      if y !in d {
        assert y !in init;
        assert FirstIndex(xs, y) == |init|;
        forall i | 0 <= i < |d|
          ensures FirstIndex(xs, d[i]) < FirstIndex(xs, y)
        {
          assert d[i] in init;
        }
      }
    }
  }

  /** A big todo with every small todo's reference set to `path`. */
  function Attributed(b: BigTodo, path: string): (r: BigTodo)
    ensures r.bigTodo == b.bigTodo && |r.smallTodos| == |b.smallTodos|
    ensures forall k :: 0 <= k < |r.smallTodos| ==> r.smallTodos[k] == b.smallTodos[k].(reference := Some(path))
  {
    b.(smallTodos := seq(|b.smallTodos|, k requires 0 <= k < |b.smallTodos| => b.smallTodos[k].(reference := Some(path))))
  }

  function AttributedPlan(plan: seq<BigTodo>, path: string): (r: seq<BigTodo>)
    ensures |r| == |plan| && forall k :: 0 <= k < |r| ==> r[k] == Attributed(plan[k], path)
  {
    if plan == [] then [] else AttributedPlan(plan[..|plan| - 1], path) + [Attributed(plan[|plan| - 1], path)]
  }

  /** The summary line of one file, when its summary is non-empty. */
  function SummaryLine(d: Doc, r: PlanResult): seq<string> {
    if r.summary != "" then ["[" + d.path + "] " + r.summary] else []
  }

  function SummaryLines(docs: seq<Doc>, rs: seq<PlanResult>): seq<string>
    requires |docs| == |rs|
  {
    if rs == [] then []
    else SummaryLines(docs[..|docs| - 1], rs[..|rs| - 1]) + SummaryLine(docs[|docs| - 1], rs[|rs| - 1])
  }

  function AllKeys(rs: seq<PlanResult>): seq<string> {
    if rs == [] then [] else AllKeys(rs[..|rs| - 1]) + rs[|rs| - 1].keyConcepts
  }

  function AllCodes(rs: seq<PlanResult>): seq<string> {
    if rs == [] then [] else AllCodes(rs[..|rs| - 1]) + rs[|rs| - 1].codeExamples
  }

  function Difficulties(rs: seq<PlanResult>): seq<string> {
    if rs == [] then []
    else Difficulties(rs[..|rs| - 1]) + (if rs[|rs| - 1].difficulty != "" then [rs[|rs| - 1].difficulty] else [])
  }

  function MergedPlan(docs: seq<Doc>, rs: seq<PlanResult>): seq<BigTodo>
    requires |docs| == |rs|
  {
    if rs == [] then []
    else MergedPlan(docs[..|docs| - 1], rs[..|rs| - 1]) + AttributedPlan(rs[|rs| - 1].plan, docs[|docs| - 1].path)
  }

  /** The combined plan of one subject from the results of its files, in file order. */
  function Merge(docs: seq<Doc>, rs: seq<PlanResult>): PlanResult
    requires |docs| == |rs|
  {
    var ds := Difficulties(rs);
    PlanResult(Join(SummaryLines(docs, rs), "\n\n"), Dedup(AllKeys(rs)), Dedup(AllCodes(rs)),
      MergedPlan(docs, rs), if |ds| > 0 then ds[0] else DefaultDifficulty)
  }

  /** Generates a plan for each file in turn (one file per request set), stopping at the first failure. */
  function GenerateEach(apiKey: bool, t: Texts, id: string, subject: string, docs: seq<Doc>, replies: seq<Reply>)
    : (r: (Result<seq<PlanResult>>, seq<Reply>))
    ensures r.0.Ok? ==> |r.0.value| == |docs|
    decreases |docs|
  {
    if docs == [] then (Ok([]), replies)
    else
      var g := GeneratePlan(apiKey, t, id, subject, [docs[0]], replies);
      match g.0
      case Err(m) => (Err(m), g.1)
      case Ok(first) => Prepend([first], GenerateEach(apiKey, t, id, subject, docs[1..], g.1))
  }

  /** Puts `rs` in front of a successful outcome; failures pass through. */
  function Prepend(rs: seq<PlanResult>, t: (Result<seq<PlanResult>>, seq<Reply>)): (Result<seq<PlanResult>>, seq<Reply>) {
    match t.0
    case Err(_) => t
    case Ok(xs) => (Ok(rs + xs), t.1)
  }

  lemma PrependNothing(t: (Result<seq<PlanResult>>, seq<Reply>))
    ensures Prepend([], t) == t
  {
    if t.0.Ok? {
      assert [] + t.0.value == t.0.value;
    }
  }

  lemma PrependTwice(rs: seq<PlanResult>, r: PlanResult, t: (Result<seq<PlanResult>>, seq<Reply>))
    ensures Prepend(rs, Prepend([r], t)) == Prepend(rs + [r], t)
  {
    if t.0.Ok? {
      assert rs + ([r] + t.0.value) == (rs + [r]) + t.0.value;
    }
  }

  /** The structured branch of `createPlans` for one subject's files: generate per file, then merge. */
  function MergeFiles(apiKey: bool, t: Texts, id: string, subject: string, docs: seq<Doc>, replies: seq<Reply>)
    : (Result<PlanResult>, seq<Reply>)
  {
    var g := GenerateEach(apiKey, t, id, subject, docs, replies);
    match g.0
    case Err(m) => (Err(m), g.1)
    case Ok(rs) => (Ok(Merge(docs, rs)), g.1)
  }

  /** One step of the per-file generation: the file at `i` is generated from `rest`. */
  lemma GenerateEachStep(apiKey: bool, t: Texts, id: string, subject: string, docs: seq<Doc>, i: nat, rest: seq<Reply>)
    requires i < |docs|
    ensures var g := GeneratePlan(apiKey, t, id, subject, [docs[i]], rest);
      GenerateEach(apiKey, t, id, subject, docs[i..], rest) ==
        match g.0
        case Err(m) => (Err(m), g.1)
        case Ok(first) => Prepend([first], GenerateEach(apiKey, t, id, subject, docs[i + 1..], g.1))
  {
    assert docs[i..][0] == docs[i] && docs[i..][1..] == docs[i + 1..];
  }

  /** The in-place injection of `path` as the reference of every small todo of `plan`. */
  method AttributePlan(plan: seq<BigTodo>, path: string) returns (out: seq<BigTodo>)
    ensures out == AttributedPlan(plan, path)
  {
    out := [];
    var k := 0;
    while k < |plan|
      invariant 0 <= k <= |plan|
      invariant out == AttributedPlan(plan[..k], path)
    {
      var big := plan[k];
      var smalls := big.smallTodos;
      var j := 0;
      while j < |smalls|
        invariant 0 <= j <= |smalls| == |big.smallTodos|
        invariant forall t :: 0 <= t < j ==> smalls[t] == big.smallTodos[t].(reference := Some(path))
        invariant forall t :: j <= t < |smalls| ==> smalls[t] == big.smallTodos[t]
      {
        smalls := smalls[j := smalls[j].(reference := Some(path))];
        j := j + 1;
      }
      assert big.(smallTodos := smalls) == Attributed(big, path);
      assert plan[..k + 1][..k] == plan[..k];
      out := out + [big.(smallTodos := smalls)];
      k := k + 1;
    }
    assert plan[..k] == plan;
  }

  /** The accumulators of the per-file loop. */
  datatype Totals = Totals(summaries: seq<string>, keyConcepts: seq<string>, codeExamples: seq<string>,
    difficulties: seq<string>, plan: seq<BigTodo>)

  function Accumulated(docs: seq<Doc>, rs: seq<PlanResult>): Totals
    requires |docs| == |rs|
  {
    Totals(SummaryLines(docs, rs), AllKeys(rs), AllCodes(rs), Difficulties(rs), MergedPlan(docs, rs))
  }

  /** Every accumulator of the merge grows by the contribution of one more file. */
  lemma MergeStep(docs: seq<Doc>, rs: seq<PlanResult>, d: Doc, r: PlanResult)
    requires |docs| == |rs|
    ensures SummaryLines(docs + [d], rs + [r]) == SummaryLines(docs, rs) + SummaryLine(d, r)
    ensures AllKeys(rs + [r]) == AllKeys(rs) + r.keyConcepts
    ensures AllCodes(rs + [r]) == AllCodes(rs) + r.codeExamples
    ensures Difficulties(rs + [r]) == Difficulties(rs) + (if r.difficulty != "" then [r.difficulty] else [])
    ensures MergedPlan(docs + [d], rs + [r]) == MergedPlan(docs, rs) + AttributedPlan(r.plan, d.path)
  {
    assert (docs + [d])[..|docs|] == docs;
    assert (rs + [r])[..|rs|] == rs;
  }

  /** `createPlanSingleStructured` on the file at `i`, as one step of the per-file generation. */
  method GenerateFile(apiKey: bool, t: Texts, id: string, subject: string, docs: seq<Doc>, i: nat, rest: seq<Reply>)
      returns (single: Result<PlanResult>, after: seq<Reply>)
    requires i < |docs|
    ensures single.Err? ==> GenerateEach(apiKey, t, id, subject, docs[i..], rest) == (Err(single.message), after)
    ensures single.Ok? ==> GenerateEach(apiKey, t, id, subject, docs[i..], rest) == Prepend([single.value], GenerateEach(apiKey, t, id, subject, docs[i + 1..], after))
  {
    GenerateEachStep(apiKey, t, id, subject, docs, i, rest);
    single, after := CreatePlanSingleStructured(apiKey, t, id, subject, [docs[i]], rest);
  }

  /** Folds the result of one file into the accumulators, injecting the file's path as every small todo's reference. */
  method Absorb(t: Totals, file: Doc, res: PlanResult) returns (u: Totals)
    ensures u == Totals(t.summaries + SummaryLine(file, res), t.keyConcepts + res.keyConcepts,
      t.codeExamples + res.codeExamples,
      t.difficulties + (if res.difficulty != "" then [res.difficulty] else []),
      t.plan + AttributedPlan(res.plan, file.path))
  {
    var summaries := t.summaries;
    if res.summary != "" {
      summaries := summaries + ["[" + file.path + "] " + res.summary];
    }
    var difficulties := t.difficulties;
    if res.difficulty != "" {
      difficulties := difficulties + [res.difficulty];
    }
    var attributed := AttributePlan(res.plan, file.path);
    u := Totals(summaries, t.keyConcepts + res.keyConcepts, t.codeExamples + res.codeExamples, difficulties, t.plan + attributed);
  }

  /** The per-file loop of the structured branch. */
  method MergeFileResults(apiKey: bool, t: Texts, id: string, subject: string, docs: seq<Doc>, replies: seq<Reply>)
      returns (r: Result<PlanResult>, rest: seq<Reply>)
    ensures (r, rest) == MergeFiles(apiKey, t, id, subject, docs, replies)
  {
    var totals := Totals([], [], [], [], []);
    ghost var results: seq<PlanResult> := [];
    rest := replies;
    var i := 0;
    assert docs[0..] == docs;
    PrependNothing(GenerateEach(apiKey, t, id, subject, docs, replies));
    while i < |docs|
      invariant 0 <= i <= |docs| && |results| == i
      invariant GenerateEach(apiKey, t, id, subject, docs, replies) == Prepend(results, GenerateEach(apiKey, t, id, subject, docs[i..], rest))
      invariant totals == Accumulated(docs[..i], results)
    {
      var file := docs[i];
      var single;
      single, rest := GenerateFile(apiKey, t, id, subject, docs, i, rest);
      if single.Err? {
        assert GenerateEach(apiKey, t, id, subject, docs, replies) == (Err(single.message), rest);
        return Err(single.message), rest;
      }
      PrependTwice(results, single.value, GenerateEach(apiKey, t, id, subject, docs[i + 1..], rest));
      totals := Absorb(totals, file, single.value);
      assert docs[..i + 1] == docs[..i] + [file];
      MergeStep(docs[..i], results, file, single.value);
      results := results + [single.value];
      i := i + 1;
    }
    assert docs[..i] == docs && docs[i..] == [];
    assert results + [] == results;
    assert GenerateEach(apiKey, t, id, subject, docs, replies) == (Ok(results), rest);
    var ds := totals.difficulties;
    r := Ok(PlanResult(Join(totals.summaries, "\n\n"), Dedup(totals.keyConcepts), Dedup(totals.codeExamples), totals.plan,
      if |ds| > 0 then ds[0] else DefaultDifficulty));
  }

  // -----------------------------------------------------------------------
  // Properties of the merge
  // -----------------------------------------------------------------------

  lemma {:induction false} AllKeysMembers(rs: seq<PlanResult>, x: string)
    ensures x in AllKeys(rs) <==> exists k :: 0 <= k < |rs| && x in rs[k].keyConcepts
  {
    if rs != [] {
      var init := rs[..|rs| - 1];
      AllKeysMembers(init, x);
      if x in AllKeys(init) {
        var k :| 0 <= k < |init| && x in init[k].keyConcepts;
        assert rs[k] == init[k];
      }
      if k :| 0 <= k < |rs| && x in rs[k].keyConcepts {
        if k < |init| {
          assert init[k] == rs[k];
        }
      }
    }
  }

  lemma {:induction false} AllCodesMembers(rs: seq<PlanResult>, x: string)
    ensures x in AllCodes(rs) <==> exists k :: 0 <= k < |rs| && x in rs[k].codeExamples
  {
    if rs != [] {
      var init := rs[..|rs| - 1];
      AllCodesMembers(init, x);
      if x in AllCodes(init) {
        var k :| 0 <= k < |init| && x in init[k].codeExamples;
        assert rs[k] == init[k];
      }
      if k :| 0 <= k < |rs| && x in rs[k].codeExamples {
        if k < |init| {
          assert init[k] == rs[k];
        }
      }
    }
  }

  /** The merged key concepts and code examples are those of all files, each once, in first-occurrence order. */
  lemma MergeCollections(docs: seq<Doc>, rs: seq<PlanResult>)
    requires |docs| == |rs|
    ensures var m := Merge(docs, rs);
      && (forall x :: x in m.keyConcepts <==> exists k :: 0 <= k < |rs| && x in rs[k].keyConcepts)
      && (forall i, j :: 0 <= i < j < |m.keyConcepts| ==> m.keyConcepts[i] != m.keyConcepts[j])
      && (forall x :: x in m.keyConcepts <==> x in AllKeys(rs))
      && (forall i, j :: 0 <= i < j < |m.keyConcepts| ==>
            FirstIndex(AllKeys(rs), m.keyConcepts[i]) < FirstIndex(AllKeys(rs), m.keyConcepts[j]))
      && (forall x :: x in m.codeExamples <==> exists k :: 0 <= k < |rs| && x in rs[k].codeExamples)
      && (forall i, j :: 0 <= i < j < |m.codeExamples| ==> m.codeExamples[i] != m.codeExamples[j])
      && (forall x :: x in m.codeExamples <==> x in AllCodes(rs))
      && (forall i, j :: 0 <= i < j < |m.codeExamples| ==>
            FirstIndex(AllCodes(rs), m.codeExamples[i]) < FirstIndex(AllCodes(rs), m.codeExamples[j]))
  {
    DedupSpec(AllKeys(rs));
    DedupSpec(AllCodes(rs));
    forall x
      ensures x in AllKeys(rs) <==> exists k :: 0 <= k < |rs| && x in rs[k].keyConcepts
      ensures x in AllCodes(rs) <==> exists k :: 0 <= k < |rs| && x in rs[k].codeExamples
    {
      AllKeysMembers(rs, x);
      AllCodesMembers(rs, x);
    }
  }

  /**
   * Every big todo of the merged plan is a big todo of one file's result with
   * that file's path injected as every small todo's reference.
   */
  lemma {:induction false} MergedPlanReferences(docs: seq<Doc>, rs: seq<PlanResult>)
    requires |docs| == |rs|
    ensures forall b :: b in MergedPlan(docs, rs) ==>
      exists k, b0 :: 0 <= k < |rs| && b0 in rs[k].plan && b == Attributed(b0, docs[k].path)
  {
    if rs != [] {
      var n := |rs| - 1;
      MergedPlanReferences(docs[..n], rs[..n]);
      forall b | b in MergedPlan(docs, rs)
        ensures exists k, b0 :: 0 <= k < |rs| && b0 in rs[k].plan && b == Attributed(b0, docs[k].path)
      {
        if b in MergedPlan(docs[..n], rs[..n]) {
          var k, b0 :| 0 <= k < n && b0 in rs[..n][k].plan && b == Attributed(b0, docs[..n][k].path);
          assert docs[..n][k] == docs[k] && rs[..n][k] == rs[k];
        } else {
          var a := AttributedPlan(rs[n].plan, docs[n].path);
          assert b in a;
          var i :| 0 <= i < |a| && a[i] == b;
          assert rs[n].plan[i] in rs[n].plan;
        }
      }
    }
  }

  /** Every small todo of the merged plan is a small todo of one file's result with that file's path as its reference. */
  lemma MergedPlanSmallTodos(docs: seq<Doc>, rs: seq<PlanResult>)
    requires |docs| == |rs|
    ensures forall b, s :: b in MergedPlan(docs, rs) && s in b.smallTodos ==>
      exists k, b0, j ::
        0 <= k < |rs| && b0 in rs[k].plan && 0 <= j < |b0.smallTodos| && s == b0.smallTodos[j].(reference := Some(docs[k].path))
  {
    MergedPlanReferences(docs, rs);
    forall b, s | b in MergedPlan(docs, rs) && s in b.smallTodos
      ensures exists k, b0, j ::
        0 <= k < |rs| && b0 in rs[k].plan && 0 <= j < |b0.smallTodos| && s == b0.smallTodos[j].(reference := Some(docs[k].path))
    {
      var k, b0 :| 0 <= k < |rs| && b0 in rs[k].plan && b == Attributed(b0, docs[k].path);
      var j :| 0 <= j < |b.smallTodos| && b.smallTodos[j] == s;
    }
  }

  /** Every big todo of every file's result is in the merged plan, attributed to that file. */
  lemma {:induction false} MergedPlanContains(docs: seq<Doc>, rs: seq<PlanResult>, k: nat, b: BigTodo)
    requires |docs| == |rs| && k < |rs| && b in rs[k].plan
    ensures Attributed(b, docs[k].path) in MergedPlan(docs, rs)
  {
    var n := |rs| - 1;
    if k < n {
      assert docs[..n][k] == docs[k] && rs[..n][k] == rs[k];
      MergedPlanContains(docs[..n], rs[..n], k, b);
    } else {
      var i :| 0 <= i < |rs[n].plan| && rs[n].plan[i] == b;
      assert AttributedPlan(rs[n].plan, docs[n].path)[i] == Attributed(b, docs[k].path);
    }
  }

  /** The merged plan has exactly as many big todos as the results of all files together. */
  lemma {:induction false} MergedPlanLength(docs: seq<Doc>, rs: seq<PlanResult>)
    requires |docs| == |rs|
    ensures |MergedPlan(docs, rs)| == PlanCount(rs)
  {
    if rs != [] {
      var n := |rs| - 1;
      MergedPlanLength(docs[..n], rs[..n]);
    }
  }

  /** The number of big todos over all results. */
  function PlanCount(rs: seq<PlanResult>): nat {
    if rs == [] then 0 else PlanCount(rs[..|rs| - 1]) + |rs[|rs| - 1].plan|
  }

  /** The merged difficulty is the first non-empty one, or intermediate when there is none. */
  lemma {:induction false} DifficultiesSpec(rs: seq<PlanResult>)
    ensures var ds := Difficulties(rs);
      && (ds == [] <==> forall k :: 0 <= k < |rs| ==> rs[k].difficulty == "")
      && (ds != [] ==> exists k :: 0 <= k < |rs| && ds[0] == rs[k].difficulty != "" && forall j :: 0 <= j < k ==> rs[j].difficulty == "")
  {
    if rs != [] {
      var n := |rs| - 1;
      var init := rs[..n];
      DifficultiesSpec(init);
      forall k | 0 <= k < n
        ensures init[k] == rs[k]
      {
      }
      if Difficulties(init) != [] {
        var k :| 0 <= k < n && Difficulties(init)[0] == init[k].difficulty != "" && forall j :: 0 <= j < k ==> init[j].difficulty == "";
        assert Difficulties(rs)[0] == rs[k].difficulty;
      } else if rs[n].difficulty != "" {
        assert Difficulties(rs) == [rs[n].difficulty];
      }
    }
  }

  lemma MergeDifficulty(docs: seq<Doc>, rs: seq<PlanResult>)
    requires |docs| == |rs|
    ensures var d := Merge(docs, rs).difficulty;
      || (d == "intermediate" && forall k :: 0 <= k < |rs| ==> rs[k].difficulty == "")
      || (exists k :: 0 <= k < |rs| && d == rs[k].difficulty != "" && forall j :: 0 <= j < k ==> rs[j].difficulty == "")
  {
    DifficultiesSpec(rs);
  }

  /** A single file merges into its own result, with the summary prefixed by the path, duplicates dropped and references set. */
  lemma MergeSingle(d: Doc, r: PlanResult)
    ensures Merge([d], [r]) == PlanResult(
      if r.summary != "" then "[" + d.path + "] " + r.summary else "",
      Dedup(r.keyConcepts), Dedup(r.codeExamples), AttributedPlan(r.plan, d.path),
      if r.difficulty != "" then r.difficulty else "intermediate")
  {
    assert [d][..0] == [] && [r][..0] == [];
    assert AllKeys([r]) == r.keyConcepts;
    assert AllCodes([r]) == r.codeExamples;
    assert MergedPlan([d], [r]) == AttributedPlan(r.plan, d.path);
    assert Difficulties([r]) == if r.difficulty != "" then [r.difficulty] else [];
    if r.summary != "" {
      assert SummaryLines([d], [r]) == ["[" + d.path + "] " + r.summary];
      assert Join(["[" + d.path + "] " + r.summary], "\n\n") == "[" + d.path + "] " + r.summary;
    } else {
      assert SummaryLines([d], [r]) == [];
    }
  }

  /** Per-file generation makes at most three requests per file. */
  lemma {:induction false} GenerateEachRequests(apiKey: bool, t: Texts, id: string, subject: string, docs: seq<Doc>, replies: seq<Reply>)
    ensures ConsumedAtMost(replies, GenerateEach(apiKey, t, id, subject, docs, replies).1, 3 * |docs|)
    decreases |docs|
  {
    if docs != [] {
      var g := GeneratePlan(apiKey, t, id, subject, [docs[0]], replies);
      GeneratePlanRequests(apiKey, t, id, subject, [docs[0]], replies);
      if g.0.Ok? {
        GenerateEachRequests(apiKey, t, id, subject, docs[1..], g.1);
        var rest := GenerateEach(apiKey, t, id, subject, docs[1..], g.1).1;
        assert rest == g.1[|g.1| - |rest|..];
        assert replies[|replies| - |g.1|..][|g.1| - |rest|..] == replies[|replies| - |rest|..];
      }
    }
  }

  // -----------------------------------------------------------------------
  // createPlans
  // -----------------------------------------------------------------------

  /** What `createPlans` stores for a subject: a combined plan, the plain text, or an error object. */
  datatype PlanEntry = PlanObject(plan: PlanResult) | PlanText(text: string) | PlanError(error: string)

  /** `sourcePath`: absent or empty, or a path, given here as what exists there. */
  datatype Source = NoSource | SourcePath(target: Option<Node>)

  /** The request: who asks, for which subjects, in which mode, from where. */
  datatype Request = Request(id: string, subjects: seq<string>, structured: bool, source: Source)

  /** The service's environment: whether the API key is set, and the content root. */
  datatype Env = Env(apiKey: bool, root: seq<Node>)

  /** `{ id, plans }`. */
  datatype Response = Response(id: string, plans: map<string, PlanEntry>)

  /** `err.message || 'Failed to plan.'`. */
  function ErrorMessage(m: string): (r: string)
    ensures r != "" && (m != "" ==> r == m)
  {
    if m == "" then FailedToPlan else m
  }

  /** The subjects processed: all of them, or with a source path only the first (`undefined` when there is none). */
  function TargetSubjects(subjects: seq<string>, source: Source): seq<string> {
    if source.SourcePath? then [if |subjects| > 0 then subjects[0] else "undefined"] else subjects
  }

  /** The node `collectFilesForSubject` starts from. */
  function Target(root: seq<Node>, subject: string, source: Source): Option<Node> {
    match source
    case NoSource => Resolve(root, subject)
    case SourcePath(n) => n
  }

  /** The entry of one subject with files `docs`, and the replies left. */
  function SubjectEntry(apiKey: bool, t: Texts, id: string, subject: string, structured: bool, docs: seq<Doc>, replies: seq<Reply>)
    : (PlanEntry, seq<Reply>)
  {
    if |docs| == 0 then (if structured then PlanError(NoFiles) else PlanText(NoFiles), replies)
    else if structured then
      var m := MergeFiles(apiKey, t, id, subject, docs, replies);
      match m.0
      case Ok(p) => (PlanObject(p), m.1)
      case Err(e) => (PlanError(ErrorMessage(e)), m.1)
    else
      var r := PlainPlan(apiKey, replies);
      match r.0
      case Ok(text) => (PlanText(text), r.1)
      case Err(e) => (PlanText("Error: " + ErrorMessage(e)), r.1)
  }

  /** The entries after processing `targets` in order; a later duplicate overwrites an earlier one. */
  function PlansFor(env: Env, t: Texts, req: Request, targets: seq<string>, replies: seq<Reply>): (map<string, PlanEntry>, seq<Reply>) {
    if targets == [] then (map[], replies)
    else
      var p := PlansFor(env, t, req, targets[..|targets| - 1], replies);
      var s := targets[|targets| - 1];
      var e := SubjectEntry(env.apiKey, t, req.id, s, req.structured, PlanningDocs(Target(env.root, s, req.source)), p.1);
      (p.0[s := e.0], e.1)
  }

  function CreatePlansWith(env: Env, t: Texts, req: Request, replies: seq<Reply>): (Response, seq<Reply>) {
    var p := PlansFor(env, t, req, TargetSubjects(req.subjects, req.source), replies);
    (Response(req.id, p.0), p.1)
  }

  /** The body of the subject loop: collect, then plan in the requested mode, catching failures. */
  method PlanSubject(env: Env, t: Texts, req: Request, subject: string, replies: seq<Reply>) returns (entry: PlanEntry, rest: seq<Reply>)
    ensures (entry, rest) == SubjectEntry(env.apiKey, t, req.id, subject, req.structured, PlanningDocs(Target(env.root, subject, req.source)), replies)
  {
    var files := CollectForPlanning(Target(env.root, subject, req.source));
    if |files| == 0 {
      entry := if req.structured then PlanError(NoFiles) else PlanText(NoFiles);
      return entry, replies;
    }
    var r;
    if req.structured {
      r, rest := MergeFileResults(env.apiKey, t, req.id, subject, files, replies);
      entry := if r.Ok? then PlanObject(r.value) else PlanError(ErrorMessage(r.message));
    } else {
      var text;
      text, rest := CreatePlanSingle(env.apiKey, replies);
      entry := if text.Ok? then PlanText(text.value) else PlanText("Error: " + ErrorMessage(text.message));
    }
  }

  /** `createPlans` with the given request texts. */
  method CreatePlansLoop(env: Env, t: Texts, req: Request, replies: seq<Reply>) returns (result: Response, rest: seq<Reply>)
    ensures (result, rest) == CreatePlansWith(env, t, req, replies)
  {
    var targets := TargetSubjects(req.subjects, req.source);
    var plans := map[];
    rest := replies;
    for i := 0 to |targets|
      invariant (plans, rest) == PlansFor(env, t, req, targets[..i], replies)
    {
      assert targets[..i + 1][..i] == targets[..i];
      var entry;
      entry, rest := PlanSubject(env, t, req, targets[i], rest);
      plans := plans[targets[i] := entry];
    }
    assert targets[..|targets|] == targets;
    result := Response(req.id, plans);
  }

  /** `createPlans` as the service runs it. */
  method CreatePlans(env: Env, req: Request, replies: seq<Reply>) returns (result: Response, rest: seq<Reply>)
    ensures (result, rest) == CreatePlansWith(env, PlanningTexts, req, replies)
  {
    result, rest := CreatePlansLoop(env, PlanningTexts, req, replies);
  }

  // -----------------------------------------------------------------------
  // Properties of createPlans
  // -----------------------------------------------------------------------

  /** A subject without files gets the sentinel of its mode and makes no request. */
  lemma NoFilesEntry(apiKey: bool, t: Texts, id: string, subject: string, structured: bool, replies: seq<Reply>)
    ensures var e := SubjectEntry(apiKey, t, id, subject, structured, [], replies);
      && e.1 == replies
      && e.0 == (if structured then PlanError("No files found for this subject.") else PlanText("No files found for this subject."))
  {
  }

  /**
   * Structured mode stores a combined plan or an error object with a non-empty
   * message; plain mode always stores text, prefixed with "Error: " on failure.
   * Structured mode makes at most three requests per file, plain mode one.
   */
  lemma SubjectEntrySpec(apiKey: bool, t: Texts, id: string, subject: string, structured: bool, docs: seq<Doc>, replies: seq<Reply>)
    ensures var e := SubjectEntry(apiKey, t, id, subject, structured, docs, replies);
      && (structured ==> (e.0.PlanObject? || (e.0.PlanError? && e.0.error != "")) && ConsumedAtMost(replies, e.1, 3 * |docs|))
      && (!structured ==> e.0.PlanText? && ConsumedAtMost(replies, e.1, 1))
      && (!structured && |docs| > 0 ==> match PlainPlan(apiKey, replies).0
            case Ok(text) => e.0.text == text
            case Err(m) => e.0.text == "Error: " + ErrorMessage(m))
  {
    if |docs| > 0 && structured {
      GenerateEachRequests(apiKey, t, id, subject, docs, replies);
    }
  }

  /** Without the API key every subject with files fails with the key message, in either mode, without a request. */
  lemma MissingKeyEntry(t: Texts, id: string, subject: string, structured: bool, docs: seq<Doc>, replies: seq<Reply>)
    requires |docs| > 0
    ensures SubjectEntry(false, t, id, subject, structured, docs, replies) ==
      (if structured then PlanError(ApiKeyMissing) else PlanText("Error: " + ApiKeyMissing), replies)
  {
  }

  /** The keys of the result are exactly the processed subjects. */
  lemma {:induction false} PlansForKeys(env: Env, t: Texts, req: Request, targets: seq<string>, replies: seq<Reply>)
    ensures forall s :: s in PlansFor(env, t, req, targets, replies).0 <==> s in targets
  {
    if targets != [] {
      var init := targets[..|targets| - 1];
      PlansForKeys(env, t, req, init, replies);
      assert targets == init + [targets[|targets| - 1]];
    }
  }

  /**
   * Each subject's entry comes from its own files and the replies left by the
   * subjects before it, whatever happened to them: a failing subject does not
   * stop the loop, and the last occurrence of a repeated subject wins.
   */
  lemma {:induction false} PlansForEntry(env: Env, t: Texts, req: Request, targets: seq<string>, replies: seq<Reply>, k: nat)
    requires k < |targets| && targets[k] !in targets[k + 1..]
    ensures var before := PlansFor(env, t, req, targets[..k], replies).1;
      var s := targets[k];
      var m := PlansFor(env, t, req, targets, replies).0;
      s in m && m[s] ==
        SubjectEntry(env.apiKey, t, req.id, s, req.structured, PlanningDocs(Target(env.root, s, req.source)), before).0
  {
    var n := |targets| - 1;
    var init := targets[..n];
    PlansForKeys(env, t, req, targets, replies);
    var p := PlansFor(env, t, req, init, replies);
    assert PlansFor(env, t, req, targets, replies).0 == p.0[targets[n] := SubjectEntry(env.apiKey, t, req.id, targets[n], req.structured, PlanningDocs(Target(env.root, targets[n], req.source)), p.1).0];
    if k < n {
      assert init[..k] == targets[..k];
      assert init[k + 1..] == targets[k + 1..n];
      assert targets[n] in targets[k + 1..];
      PlansForKeys(env, t, req, init, replies);
      PlansForEntry(env, t, req, init, replies, k);
    } else {
      assert init == targets[..k];
    }
  }

  /** Without a source path every subject gets an entry; with one only the first subject does (the key `undefined` when the list is empty). */
  lemma CreatePlansKeys(env: Env, t: Texts, req: Request, replies: seq<Reply>)
    ensures var r := CreatePlansWith(env, t, req, replies).0;
      && r.id == req.id
      && (req.source.NoSource? ==> forall s :: s in r.plans <==> s in req.subjects)
      && (req.source.SourcePath? && |req.subjects| > 0 ==> r.plans.Keys == {req.subjects[0]})
      && (req.source.SourcePath? && |req.subjects| == 0 ==> r.plans.Keys == {"undefined"})
  {
    PlansForKeys(env, t, req, TargetSubjects(req.subjects, req.source), replies);
  }
}
