/**
 * Prompt assembly: the collected documents are concatenated into one block
 * holding a header line per document, cut to a character budget, and embedded
 * in the user message. Lengths count Dafny characters.
 */
module Prompt {
  import opened Text
  import opened Collector

  /** The budget of the planning prompt's document block. */
  const PlanningBudget: nat := 60000
  /** The budget of the summarize prompt's document block. */
  const SummaryBudget: nat := 15000
  /** Appended to a block that was cut. */
  const TruncatedMarker := "\n\n[TRUNCATED]"

  /** Header prefix of one document in a planning prompt. */
  const PlanningHeader := "--- File: "
  /** Header prefix of one document in a summarize prompt. */
  const SummaryHeader := "--- "

  datatype Prompt = Prompt(system: string, user: string)

  /** One document's entry: `{header}{path} ---` on a line of its own, then the content. */
  function Entry(header: string, d: Doc): string {
    header + d.path + " ---\n" + d.content
  }

  /** The entries of `docs` in input order. */
  function Entries(header: string, docs: seq<Doc>): (r: seq<string>)
    ensures |r| == |docs|
    ensures forall k :: 0 <= k < |docs| ==> r[k] == Entry(header, docs[k])
  {
    if docs == [] then [] else Entries(header, docs[..|docs| - 1]) + [Entry(header, docs[|docs| - 1])]
  }

  /** The document block before truncation: the entries joined by a blank line. */
  function Combined(header: string, docs: seq<Doc>): string {
    Join(Entries(header, docs), "\n\n")
  }

  /** A block within budget is kept; a longer one becomes its first `budget` characters and the marker. */
  function Truncate(block: string, budget: nat): (r: string)
    ensures |r| <= budget + |TruncatedMarker|
    ensures |block| <= budget ==> r == block
    ensures |block| > budget ==> |r| == budget + |TruncatedMarker| && r[..budget] == block[..budget] && r[budget..] == TruncatedMarker
  {
    if |block| > budget then block[..budget] + TruncatedMarker else block
  }

  /** The text before the document block in the user message. */
  function UserHead(id: string, subject: string): string {
    "User ID: " + id + "\nSubject: " + subject + "\nFiles:\n"
  }

  const PlanningSystem := "You are a helpful assistant that reads source or text files and returns a concise study-oriented plan in Korean."
  const PlanningTask := "\n\nPlease produce a concise, structured study plan (in Korean) that includes: key concepts, important code snippets or examples if relevant, and a short study plan (3-5 bullets). Keep the response focused and numbered where appropriate."
  const SummarySystem := "You are a helpful assistant that reads source or text files and returns a concise study-oriented summary in Korean."
  const SummaryTask := "\n\nPlease produce a concise, structured summary (in Korean) that includes: key concepts, important code snippets or examples if relevant, and a short study plan (3-5 bullets). Keep the response focused and numbered where appropriate."

  /** The fixed parts of one service's `buildPrompt`: system message, entry header, character budget, task text. */
  datatype Wording = Wording(system: string, header: string, budget: nat, task: string)

  const PlanningWording := Wording(PlanningSystem, PlanningHeader, PlanningBudget, PlanningTask)
  const SummaryWording := Wording(SummarySystem, SummaryHeader, SummaryBudget, SummaryTask)

  /** `buildPrompt` with the given wording. */
  function BuildPrompt(w: Wording, id: string, subject: string, docs: seq<Doc>): Prompt {
    Prompt(w.system, UserHead(id, subject) + Truncate(Combined(w.header, docs), w.budget) + w.task)
  }

  /** The planning `buildPrompt`. */
  function PlanningPrompt(id: string, subject: string, docs: seq<Doc>): Prompt {
    BuildPrompt(PlanningWording, id, subject, docs)
  }

  /** The summarize `buildPrompt`. */
  function SummaryPrompt(id: string, subject: string, docs: seq<Doc>): Prompt {
    BuildPrompt(SummaryWording, id, subject, docs)
  }

  /** Adding a document adds its entry after a blank line, so entries keep the input order. */
  lemma CombinedSnoc(header: string, docs: seq<Doc>, d: Doc)
    requires docs != []
    ensures Combined(header, docs + [d]) == Combined(header, docs) + "\n\n" + Entry(header, d)
  {
    assert (docs + [d])[..|docs|] == docs;
    JoinSnoc(Entries(header, docs), Entry(header, d), "\n\n");
  }

  /** The length of the block: every entry plus two characters per separator. */
  function EntriesLength(header: string, docs: seq<Doc>): nat {
    if docs == [] then 0 else EntriesLength(header, docs[..|docs| - 1]) + |Entry(header, docs[|docs| - 1])|
  }

  lemma {:induction false} CombinedLength(header: string, docs: seq<Doc>)
    requires docs != []
    ensures |Combined(header, docs)| == EntriesLength(header, docs) + 2 * (|docs| - 1)
  {
    if |docs| == 1 {
      assert docs[..0] == [];
    } else {
      var init := docs[..|docs| - 1];
      assert init + [docs[|docs| - 1]] == docs;
      CombinedLength(header, init);
      CombinedSnoc(header, init, docs[|docs| - 1]);
    }
  }

  /** The user message is the head, the block cut to the budget, and the task text; a block within budget appears whole. */
  lemma PromptBlock(id: string, subject: string, docs: seq<Doc>, budget: nat, header: string, task: string, user: string)
    requires user == UserHead(id, subject) + Truncate(Combined(header, docs), budget) + task
    ensures var h := |UserHead(id, subject)|; var block := Combined(header, docs);
      && user[..h] == UserHead(id, subject)
      && user[|user| - |task|..] == task
      && (|block| <= budget ==> user[h..h + |block|] == block && |user| == h + |block| + |task|)
      && (|block| > budget ==>
            && user[h..h + budget] == block[..budget]
            && user[h + budget..h + budget + |TruncatedMarker|] == TruncatedMarker
            && |user| == h + budget + |TruncatedMarker| + |task|)
  {
    var h := |UserHead(id, subject)|;
    var t := Truncate(Combined(header, docs), budget);
    assert user[h..h + |t|] == t;
  }

  /** The planning user message: up to 60000 block characters arrive unchanged; more are cut to 60000 plus the marker, 60013 in all. */
  lemma PlanningPromptBlock(id: string, subject: string, docs: seq<Doc>)
    ensures var u := PlanningPrompt(id, subject, docs).user; var h := |UserHead(id, subject)|;
      var block := Combined(PlanningHeader, docs);
      && (|block| <= 60000 ==> u[h..h + |block|] == block)
      && (|block| > 60000 ==> u[h..h + 60013] == block[..60000] + "\n\n[TRUNCATED]")
  {
    var u := PlanningPrompt(id, subject, docs).user;
    var h := |UserHead(id, subject)|;
    PromptBlock(id, subject, docs, PlanningBudget, PlanningHeader, PlanningTask, u);
    var block := Combined(PlanningHeader, docs);
    if |block| > 60000 {
      assert u[h..h + 60013] == u[h..h + 60000] + u[h + 60000..h + 60013];
    }
  }

  /** The summarize user message: up to 15000 block characters arrive unchanged; more are cut to 15000 plus the marker. */
  lemma SummaryPromptBlock(id: string, subject: string, docs: seq<Doc>)
    ensures var u := SummaryPrompt(id, subject, docs).user; var h := |UserHead(id, subject)|;
      var block := Combined(SummaryHeader, docs);
      && (|block| <= 15000 ==> u[h..h + |block|] == block)
      && (|block| > 15000 ==> u[h..h + 15013] == block[..15000] + "\n\n[TRUNCATED]")
  {
    var u := SummaryPrompt(id, subject, docs).user;
    var h := |UserHead(id, subject)|;
    PromptBlock(id, subject, docs, SummaryBudget, SummaryHeader, SummaryTask, u);
    var block := Combined(SummaryHeader, docs);
    if |block| > 15000 {
      assert u[h..h + 15013] == u[h..h + 15000] + u[h + 15000..h + 15013];
    }
  }
}
