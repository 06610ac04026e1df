/**
 * The free-text heuristics of the fallback path: the two line-marker regular
 * expressions written as character predicates, key-concept extraction and
 * plan-step extraction over the trimmed, non-empty lines of a reply.
 */
module Heuristics {
  import opened Wrappers
  import opened Text

  const EnDash := '\U{2013}'
  const Bullet := '\U{2022}'
  /** Key concepts are kept only when shorter than this. */
  const ConceptLimit := 200
  /** At most this many key concepts are kept. */
  const MaxConcepts := 5
  /** Without marked lines, steps are lines longer than this... */
  const LongLine := 20
  /** ...and at most this many of them. */
  const MaxLongLines := 3

  /** `(.*)$` on the rest of a line: it matches the whole rest unless a line terminator is in it. */
  function CaptureRest(rest: string): (r: Option<string>)
    ensures r.Some? ==> r.value == rest
  {
    if forall k :: 0 <= k < |rest| ==> !IsLineTerminator(rest[k]) then Some(rest) else None
  }

  /** `\s*(.*)$`: the greedy whitespace run is consumed, then the rest is captured. */
  function CaptureAfterSpaces(rest: string): (r: Option<string>)
    ensures r.Some? ==> r.value == rest[LeadingSpaces(rest)..]
  {
    CaptureRest(rest[LeadingSpaces(rest)..])
  }

  /**
   * `^(?:\d+\.|\d+\)|[-–•]\s*)(.*)$`: a digit run closed by `.` or `)`, whose
   * following whitespace is kept in the capture, or one of `-`, `–`, `•`,
   * whose following whitespace is skipped.
   */
  function ConceptMatch(l: string): (r: Option<string>)
    ensures r.Some? ==> |r.value| < |l| && r.value == l[|l| - |r.value|..]
  {
    var d := LeadingDigits(l);
    if 0 < d < |l| && (l[d] == '.' || l[d] == ')') then CaptureRest(l[d + 1..])
    else if l != [] && (l[0] == '-' || l[0] == EnDash || l[0] == Bullet) then CaptureAfterSpaces(l[1..])
    else None
  }

  /** `^(?:\-|•|\*|\d+\.|\d+\))\s*(.*)$`: one of `-`, `•`, `*`, or a digit run closed by `.` or `)`, then whitespace that is skipped. */
  function StepMatch(l: string): (r: Option<string>)
    ensures r.Some? ==> |r.value| < |l| && r.value == l[|l| - |r.value|..]
  {
    var d := LeadingDigits(l);
    if l != [] && (l[0] == '-' || l[0] == Bullet || l[0] == '*') then CaptureAfterSpaces(l[1..])
    else if 0 < d < |l| && (l[d] == '.' || l[d] == ')') then CaptureAfterSpaces(l[d + 1..])
    else None
  }

  /** What one line adds to the key concepts: its capture, when it matches and is short enough. */
  function ConceptOf(l: string): seq<string> {
    match ConceptMatch(l)
    case Some(c) => if |c| < ConceptLimit then [c] else []
    case None => []
  }

  /** Every acceptable key concept, in line order. */
  function Concepts(ls: seq<string>): seq<string> {
    if ls == [] then [] else Concepts(ls[..|ls| - 1]) + ConceptOf(ls[|ls| - 1])
  }

  /** The key concepts the fallback keeps: the first five acceptable ones. */
  function KeyConcepts(ls: seq<string>): seq<string> {
    var c := Concepts(ls);
    if |c| <= MaxConcepts then c else c[..MaxConcepts]
  }

  /** The concepts of a prefix of the lines are a prefix of the concepts of all lines. */
  lemma {:induction false} ConceptsPrefix(ls: seq<string>, n: nat)
    requires n <= |ls|
    ensures Concepts(ls[..n]) <= Concepts(ls)
    decreases |ls| - n
  {
    if n < |ls| {
      var init := ls[..|ls| - 1];
      assert init[..n] == ls[..n];
      ConceptsPrefix(init, n);
    } else {
      assert ls[..n] == ls;
    }
  }

  /** The key-concept loop, which stops as soon as five are collected. */
  method ExtractKeyConcepts(ls: seq<string>) returns (kc: seq<string>)
    ensures kc == KeyConcepts(ls)
  {
    kc := [];
    var i := 0;
    while i < |ls|
      invariant i <= |ls|
      invariant kc == Concepts(ls[..i])
      invariant |kc| < MaxConcepts
    {
      assert ls[..i + 1][..i] == ls[..i];
      assert Concepts(ls[..i + 1]) == Concepts(ls[..i]) + ConceptOf(ls[i]);
      var m := ConceptMatch(ls[i]);
      if m.Some? && |m.value| < ConceptLimit {
        kc := kc + [m.value];
      }
      if |kc| >= MaxConcepts {
        ConceptsPrefix(ls, i + 1);
        return;
      }
      i := i + 1;
    }
    assert ls[..i] == ls;
  }

  /** Each kept concept is shorter than 200 characters and is the capture of one of the lines. */
  lemma {:induction false} ConceptsFromLines(ls: seq<string>)
    ensures forall k :: 0 <= k < |Concepts(ls)| ==>
      |Concepts(ls)[k]| < ConceptLimit && exists i :: 0 <= i < |ls| && ConceptMatch(ls[i]) == Some(Concepts(ls)[k])
  {
    if ls != [] {
      var init := ls[..|ls| - 1];
      ConceptsFromLines(init);
      forall k | 0 <= k < |Concepts(ls)|
        ensures |Concepts(ls)[k]| < ConceptLimit && exists i :: 0 <= i < |ls| && ConceptMatch(ls[i]) == Some(Concepts(ls)[k])
      {
        if k < |Concepts(init)| {
          var i :| 0 <= i < |init| && ConceptMatch(init[i]) == Some(Concepts(init)[k]);
          assert ls[i] == init[i];
        } else {
          assert ConceptMatch(ls[|ls| - 1]) == Some(Concepts(ls)[k]);
        }
      }
    }
  }

  /** At most five key concepts, each shorter than 200 characters and captured from a line, in line order. */
  lemma KeyConceptsBound(ls: seq<string>)
    ensures var r := KeyConcepts(ls);
      && |r| <= MaxConcepts
      && r <= Concepts(ls)
      && forall k :: 0 <= k < |r| ==> |r[k]| < ConceptLimit && exists i :: 0 <= i < |ls| && ConceptMatch(ls[i]) == Some(r[k])
  {
    ConceptsFromLines(ls);
  }

  /** What one line adds to the steps: its capture when it is marked. */
  function StepOf(l: string): seq<string> {
    match StepMatch(l)
    case Some(c) => [c]
    case None => []
  }

  /** The captures of every marked line, in line order. */
  function StepCaptures(ls: seq<string>): seq<string> {
    if ls == [] then [] else StepCaptures(ls[..|ls| - 1]) + StepOf(ls[|ls| - 1])
  }

  /** The first three lines longer than 20 characters, as the fallback loop with `s.length < 3` collects them. */
  function LongLines(ls: seq<string>): seq<string> {
    if ls == [] then []
    else
      var p := LongLines(ls[..|ls| - 1]);
      var l := ls[|ls| - 1];
      if |l| > LongLine && |p| < MaxLongLines then p + [l] else p
  }

  /** The extracted steps: every marked line's capture; only when there is none, the long lines. */
  function Steps(ls: seq<string>): seq<string> {
    var s := StepCaptures(ls);
    if s != [] then s else LongLines(ls)
  }

  lemma StepCapturesStep(ls: seq<string>, i: nat)
    requires i < |ls|
    ensures StepCaptures(ls[..i + 1]) == StepCaptures(ls[..i]) + StepOf(ls[i])
  {
    assert ls[..i + 1][..i] == ls[..i];
  }

  lemma LongLinesStep(ls: seq<string>, i: nat)
    requires i < |ls|
    ensures var p := LongLines(ls[..i]);
      LongLines(ls[..i + 1]) == if |ls[i]| > LongLine && |p| < MaxLongLines then p + [ls[i]] else p
  {
    assert ls[..i + 1][..i] == ls[..i];
  }

  /** `extractStepsFromTextLocal` over the lines, before any cap on the count. */
  method ExtractSteps(ls: seq<string>) returns (s: seq<string>)
    ensures s == Steps(ls)
  {
    s := [];
    for i := 0 to |ls|
      invariant s == StepCaptures(ls[..i])
    {
      StepCapturesStep(ls, i);
      var m := StepMatch(ls[i]);
      if m.Some? {
        s := s + [m.value];
      }
    }
    assert ls[..|ls|] == ls;
    if |s| == 0 {
      for i := 0 to |ls|
        invariant s == LongLines(ls[..i])
      {
        LongLinesStep(ls, i);
        if |ls[i]| > LongLine && |s| < MaxLongLines {
          s := s + [ls[i]];
        }
      }
    }
  }

  /** Each step is the capture of a marked line, in line order. */
  lemma {:induction false} StepsFromLines(ls: seq<string>)
    ensures forall k :: 0 <= k < |StepCaptures(ls)| ==> exists i :: 0 <= i < |ls| && StepMatch(ls[i]) == Some(StepCaptures(ls)[k])
  {
    if ls != [] {
      var init := ls[..|ls| - 1];
      StepsFromLines(init);
      forall k | 0 <= k < |StepCaptures(ls)|
        ensures exists i :: 0 <= i < |ls| && StepMatch(ls[i]) == Some(StepCaptures(ls)[k])
      {
        if k < |StepCaptures(init)| {
          var i :| 0 <= i < |init| && StepMatch(init[i]) == Some(StepCaptures(init)[k]);
          assert ls[i] == init[i];
        } else {
          assert StepMatch(ls[|ls| - 1]) == Some(StepCaptures(ls)[k]);
        }
      }
      assert forall k :: 0 <= k < |StepCaptures(ls)| ==> exists i :: 0 <= i < |ls| && StepMatch(ls[i]) == Some(StepCaptures(ls)[k]);
    } else {
      assert StepCaptures(ls) == [];
    }
  }

  /** The long-line fallback keeps at most three lines, each longer than 20 characters and taken from the input. */
  lemma {:induction false} LongLinesBound(ls: seq<string>)
    ensures |LongLines(ls)| <= MaxLongLines
    ensures forall k :: 0 <= k < |LongLines(ls)| ==> |LongLines(ls)[k]| > LongLine && LongLines(ls)[k] in ls
  {
    if ls != [] {
      var init := ls[..|ls| - 1];
      LongLinesBound(init);
      forall k | 0 <= k < |LongLines(ls)| ensures LongLines(ls)[k] in ls {
        if k < |LongLines(init)| {
          assert LongLines(init)[k] in init;
        }
      }
    }
  }
}
