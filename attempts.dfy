/**
 * The structured-generation attempt loop shared by planning and summarize:
 * at most two function-calling requests, one repair message after a first
 * reply that parsed but failed validation, and an immediate exit when a
 * request throws. The model is a sequence of canned replies consumed one per
 * request; once it is exhausted every further request throws.
 */
module Attempts {
  import opened Wrappers
  import opened Json
  import opened Schema
  import opened Prompt
  import Summaries

  /** The function-call arguments of a reply: absent or empty, text JSON.parse rejects, or a parsed value. */
  datatype Arguments = Missing | Unparsable | Parsed(value: Json)

  /** One model request: it throws, or it returns message content (`''` when absent) and function-call arguments. */
  datatype Reply = Thrown(message: string) | Returned(content: string, arguments: Arguments)

  /** `rest` is what is left of `replies` after at most `n` requests. */
  predicate ConsumedAtMost(replies: seq<Reply>, rest: seq<Reply>, n: nat) {
    |rest| <= |replies| && |replies| - |rest| <= n && rest == replies[|replies| - |rest|..]
  }

  /** The reply to the next request and the replies left after it. */
  function Next(replies: seq<Reply>): (r: (Reply, seq<Reply>))
    ensures replies != [] ==> r == (replies[0], replies[1..])
    ensures replies == [] ==> r == (Thrown(""), [])
  {
    if replies == [] then (Thrown(""), []) else (replies[0], replies[1..])
  }

  /** The function the request forces the model to call; it selects the validation schema. */
  datatype Tool = PlanTool | SummaryTool

  /** One call site of the loop: its tool and its two message texts. */
  datatype Variant = Variant(tool: Tool, instruction: string, repair: string)

  /** The texts of one service's requests: the `buildPrompt` wording and the function-calling instruction and repair. */
  datatype Texts = Texts(wording: Wording, instruction: string, repair: string)

  /** The attempt-loop variant of one service's requests, validated against the schema of `tool`. */
  function Tooling(tool: Tool, t: Texts): Variant {
    Variant(tool, t.instruction, t.repair)
  }

  /** The messages both services store for a missing API key and for a subject without files. */
  const ApiKeyMissing := "OPENAI_API_KEY environment variable not set."
  const NoFiles := "No files found for this subject."

  /** The schema check of the variant. */
  predicate Conforms(v: Variant, j: Json) {
    match v.tool
    case PlanTool => ValidPlanPayload(j)
    case SummaryTool => ValidSummaryPayload(j)
  }

  /**
   * Normalizing a validated payload throws. It runs inside the loop's inner
   * `try`, so the loop goes on to its next attempt. Only the summary
   * normalization can throw.
   */
  predicate NormalizationThrows(v: Variant, j: Json) {
    v.tool == SummaryTool && ValidSummaryPayload(j) && Summaries.NormalizeThrows(j)
  }

  datatype Message = Message(role: string, content: string)

  /** Message texts of the two call sites. */
  const PlanInstruction := "\n\nPlease produce structured fields and invoke the function create_structured_plan with arguments matching the schema. The plan should be hierarchical (Big Todo -> Small Todos) and flexible in length. For each small todo, please specify the \"reference\" field with the filename (e.g., \"lecture1.pdf\") that is most relevant to that task."
  const SummaryInstruction := "\n\nPlease produce structured fields and invoke the function create_structured_summary with arguments matching the schema."
  const PlanRepair := "Your previous response did not match the schema. Return ONLY the JSON arguments for create_structured_plan that validate against the schema."
  const SummaryRepair := "Your previous response did not match the schema. Return ONLY the JSON arguments for create_structured_summary that validate against the schema."

  /** The planning call site (`create_structured_plan`) and the summarize one (`create_structured_summary`). */
  const PlanVariant := Variant(PlanTool, PlanInstruction, PlanRepair)
  const SummaryVariant := Variant(SummaryTool, SummaryInstruction, SummaryRepair)

  /** The instruction appended to the user prompt for the function-calling request. */
  function Instruction(v: Variant): string {
    v.instruction
  }

  /** The repair turn pushed after a first reply that failed validation. */
  function Repair(v: Variant): Message {
    Message("user", v.repair)
  }

  /** The conversation the loop starts from. */
  function Initial(v: Variant, p: Prompt): seq<Message> {
    [Message("system", p.system), Message("user", p.user + Instruction(v))]
  }

  /** The state the loop ends in: the validated payload if any, the number of requests made, the conversation, the unused replies. */
  datatype Loop = Loop(payload: Option<Json>, attempts: nat, messages: seq<Message>, rest: seq<Reply>)

  /** How the loop treats one reply. */
  datatype Kind = Throws | Accepts(payload: Json) | Rejects | Skips

  /**
   * A throw ends the loop; a parsed, valid payload is returned unless its
   * normalization throws; a parsed, invalid one may trigger the repair;
   * anything else just loops.
   */
  function Classify(v: Variant, r: Reply): Kind {
    match r
    case Thrown(_) => Throws
    case Returned(_, args) =>
      match args
      case Parsed(j) => if !Conforms(v, j) then Rejects else if NormalizationThrows(v, j) then Skips else Accepts(j)
      case _ => Skips
  }

  /** The loop as a state machine, from `attempts` requests already made. */
  function Run(v: Variant, attempts: nat, messages: seq<Message>, replies: seq<Reply>): Loop
    requires attempts <= 2
    decreases 2 - attempts
  {
    if attempts == 2 then Loop(None, 2, messages, replies)
    else
      var a := attempts + 1;
      var next := Next(replies);
      match Classify(v, next.0)
      case Throws => Loop(None, a, messages, next.1)
      case Accepts(j) => Loop(Some(j), a, messages, next.1)
      case Rejects => Run(v, a, if a == 1 then messages + [Repair(v)] else messages, next.1)
      case Skips => Run(v, a, messages, next.1)
  }

  /** The loop's outcome from the starting conversation. */
  function Attempt(v: Variant, p: Prompt, replies: seq<Reply>): Loop {
    Run(v, 0, Initial(v, p), replies)
  }

  /** The `while (attempts < 2)` loop of the two structured generators. */
  method AttemptLoop(v: Variant, p: Prompt, replies: seq<Reply>)
      returns (payload: Option<Json>, attempts: nat, messages: seq<Message>, rest: seq<Reply>)
    ensures Loop(payload, attempts, messages, rest) == Attempt(v, p, replies)
  {
    payload, attempts, messages, rest := None, 0, Initial(v, p), replies;
    while attempts < 2
      invariant attempts <= 2
      invariant Run(v, attempts, messages, rest) == Attempt(v, p, replies)
      decreases 2 - attempts
    {
      ghost var before := Run(v, attempts, messages, rest);
      attempts := attempts + 1;
      var reply;
      reply, rest := Next(rest).0, Next(rest).1;
      var kind := Classify(v, reply);
      if kind.Throws? {
        assert before == Loop(None, attempts, messages, rest);
        break;
      }
      if reply.arguments.Parsed? {
        var parsed := reply.arguments.value;
        if !Conforms(v, parsed) {
          if attempts == 1 {
            messages := messages + [Repair(v)];
            continue;
          }
        } else if !NormalizationThrows(v, parsed) {
          payload := Some(parsed);
          return;
        }
      }
    }
  }

  // -----------------------------------------------------------------------
  // Properties of the loop
  // -----------------------------------------------------------------------

  /** A reply whose arguments parsed and validated. */
  predicate Accepted(v: Variant, r: Reply) {
    Classify(v, r).Accepts?
  }

  /** A reply whose arguments parsed but failed validation: the only kind that triggers the repair turn. */
  predicate Rejected(v: Variant, r: Reply) {
    Classify(v, r).Rejects?
  }

  /**
   * The loop unrolled: the first reply ends it when it throws or validates;
   * otherwise a second request is made, after the repair turn exactly when
   * the first reply was rejected by validation, and the loop ends after it.
   */
  lemma {:induction false} AttemptCases(v: Variant, p: Prompt, replies: seq<Reply>)
    ensures var l := Attempt(v, p, replies);
      var (r0, rest1) := Next(replies);
      var (r1, rest2) := Next(rest1);
      var m1 := if Rejected(v, r0) then Initial(v, p) + [Repair(v)] else Initial(v, p);
      && (r0.Thrown? ==> l == Loop(None, 1, Initial(v, p), rest1))
      && (Accepted(v, r0) ==> l == Loop(Some(Classify(v, r0).payload), 1, Initial(v, p), rest1))
      && (!r0.Thrown? && !Accepted(v, r0) ==>
            l == Loop(if Accepted(v, r1) then Some(Classify(v, r1).payload) else None, 2, m1, rest2))
  {
  }

  /** At most two requests are made, and at least one. */
  lemma AttemptBound(v: Variant, p: Prompt, replies: seq<Reply>)
    ensures 1 <= Attempt(v, p, replies).attempts <= 2
  {
    AttemptCases(v, p, replies);
  }

  /** The repair message is added at most once, and exactly when the first reply parsed but failed validation. */
  lemma AttemptRepair(v: Variant, p: Prompt, replies: seq<Reply>)
    ensures var l := Attempt(v, p, replies);
      && (l.messages == Initial(v, p) || l.messages == Initial(v, p) + [Repair(v)])
      && (l.messages == Initial(v, p) + [Repair(v)] <==> Rejected(v, Next(replies).0))
  {
    AttemptCases(v, p, replies);
  }

  /** A throwing first request ends the loop at once, with no payload. */
  lemma AttemptThrowBreaks(v: Variant, p: Prompt, replies: seq<Reply>)
    requires Next(replies).0.Thrown?
    ensures Attempt(v, p, replies) == Loop(None, 1, Initial(v, p), Next(replies).1)
  {
    AttemptCases(v, p, replies);
  }

  /** A payload is only ever returned when it validates and its normalization does not throw, and it is the last reply consumed. */
  lemma AttemptPayloadConforms(v: Variant, p: Prompt, replies: seq<Reply>)
    ensures var l := Attempt(v, p, replies);
      l.payload.Some? ==>
        && Conforms(v, l.payload.value) && !NormalizationThrows(v, l.payload.value) && |replies| >= l.attempts
        && replies[l.attempts - 1] == Returned(replies[l.attempts - 1].content, Parsed(l.payload.value))
  {
    AttemptCases(v, p, replies);
  }

  /** The loop consumes exactly one reply per request. */
  lemma AttemptConsumes(v: Variant, p: Prompt, replies: seq<Reply>)
    ensures var l := Attempt(v, p, replies);
      l.rest == if |replies| >= l.attempts then replies[l.attempts..] else []
  {
    AttemptCases(v, p, replies);
  }

  /** Two replies that never validate (and do not throw) use up both attempts and give no payload. */
  lemma AttemptExhausted(v: Variant, p: Prompt, replies: seq<Reply>)
    requires |replies| >= 2
    requires replies[0].Returned? && !Accepted(v, replies[0])
    requires replies[1].Returned? && !Accepted(v, replies[1])
    ensures Attempt(v, p, replies).payload == None && Attempt(v, p, replies).attempts == 2
    ensures Attempt(v, p, replies).rest == replies[2..]
  {
    AttemptCases(v, p, replies);
  }

  /** A first reply whose validated payload cannot be normalized is passed over: the second request follows with no repair turn. */
  lemma AttemptNormalizationSkip(v: Variant, p: Prompt, replies: seq<Reply>)
    requires |replies| >= 1 && replies[0].Returned? && replies[0].arguments.Parsed?
    requires Conforms(v, replies[0].arguments.value) && NormalizationThrows(v, replies[0].arguments.value)
    ensures Attempt(v, p, replies) == Run(v, 1, Initial(v, p), replies[1..])
  {
  }

  /** No payload exactly when a request threw or no reply was accepted. */
  lemma AttemptNoPayload(v: Variant, p: Prompt, replies: seq<Reply>)
    ensures var l := Attempt(v, p, replies);
      var r0 := Next(replies).0; var r1 := Next(Next(replies).1).0;
      l.payload.None? <==> (r0.Thrown? || (!Accepted(v, r0) && !Accepted(v, r1)))
  {
    AttemptCases(v, p, replies);
  }
}
