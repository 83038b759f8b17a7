/** Prompts over whole runs: which one is current, and that inferences follow it. */
module PolicyPrompts {
  import opened PolicyRuntime

  /** The last prompt of the run that is one at all: not empty, not too long, of known tokens. */
  function LastGood(e: Engines, run: seq<seq<int>>): seq<int> {
    if run == [] then [] else
    var last := run[|run| - 1];
    if last != [] && CAMERA_TOKENS + |last| <= e.prefixTokens && forall t <- last :: 0 <= t < e.vocabulary
    then last else LastGood(e, run[..|run| - 1])
  }

  lemma Reached(e: Engines, p: Prompt, tokens: seq<int>)
    requires TablesSuffice(e)
    ensures AfterPrompt(e, p, tokens).current == if Acceptable(e, tokens) then tokens else p.current
    ensures Acceptable(e, tokens) ==> Returns(e, p, tokens)
  {
    if Acceptable(e, tokens) {
      assert tokens[0] in tokens && 0 <= tokens[0] < e.vocabulary;
      assert Reaches(e, e.prefixTokens);
    }
  }

  /** On a bundle whose rotary tables suffice, every prompt that is one becomes current and stays it until the next. */
  lemma {:induction false} CurrentIsTheLastGood(e: Engines, rows: Words, run: seq<seq<int>>)
    requires TablesSuffice(e)
    ensures AfterPrompts(e, NoPrompt(rows), run).current == LastGood(e, run)
    ensures Matching(e, AfterPrompts(e, NoPrompt(rows), run))
  {
    hide TablesSuffice, AfterPrompt, Matching;
    if run == [] {
      NewIsMatching(e, rows);
    } else {
      var before, last := run[..|run| - 1], run[|run| - 1];
      CurrentIsTheLastGood(e, rows, before);
      MatchingKept(e, AfterPrompts(e, NoPrompt(rows), before), last);
      Reached(e, AfterPrompts(e, NoPrompt(rows), before), last);
    }
  }

  lemma NewIsMatching(e: Engines, rows: Words)
    ensures Matching(e, NoPrompt(rows))
  {}

  /** Then, whatever calls of set_prompt were made before, an inference is the policy of the last good prompt. */
  lemma InferenceFollowsTheLastPrompt(e: Engines, rows: Words, run: seq<seq<int>>, image0: Words, image1: Words, noise: Words)
    requires TablesSuffice(e) && LastGood(e, run) != []
    ensures var p := AfterPrompts(e, NoPrompt(rows), run);
      Composed(e, image0, image1, noise, p.rows, p.tables, p.suffix) == Policy(e, image0, image1, noise, LastGood(e, run))
  {
    hide Composed, Policy, Matching, AfterPrompt;
    CurrentIsTheLastGood(e, rows, run);
    NeverTorn(e, NoPrompt(rows), run);
    MatchingIsPolicy(e, AfterPrompts(e, NoPrompt(rows), run), image0, image1, noise);
  }
}
