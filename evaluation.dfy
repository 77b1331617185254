/**
 * Scoring the student's answers (`evaluate_all_answers`). For every (question, answer) pair the
 * language model's reply is an input string; the retrieval call and the prompt are opaque.
 */
module Evaluation {
  import opened Wrappers
  import opened Text

  /** Where `next(line for line in lines if "Score" in line)` stops, or `None` when it raises StopIteration. */
  function FirstScoreLine(lines: seq<string>): (r: Option<nat>)
    ensures r.Some? ==> r.value < |lines| && HasInfix(lines[r.value], "Score")
    ensures r.Some? ==> forall j :: 0 <= j < r.value ==> !HasInfix(lines[j], "Score")
    ensures r.None? ==> forall j :: 0 <= j < |lines| ==> !HasInfix(lines[j], "Score")
  {
    if lines == [] then None
    else if HasInfix(lines[0], "Score") then Some(0)
    else
      match FirstScoreLine(lines[1..])
      case None => None
      case Some(i) => Some(i + 1)
  }

  /** `int("".join(filter(str.isdigit, line)))`, with the ValueError of an empty digit string read as 0. */
  function LineScore(line: string): nat {
    var d := Digits(line);
    if d == [] then 0 else DecimalValue(d)
  }

  /** The score of one (already stripped) evaluation text; every failure of the parse gives 0. */
  function Score(evaluation: string): nat {
    var lines := SplitLines(evaluation);
    match FirstScoreLine(lines)
    case None => 0
    case Some(i) => LineScore(lines[i])
  }

  /** The model's raw reply is stripped before it is parsed and shown. */
  function ReplyScore(reply: string): nat {
    Score(Strip(reply))
  }

  /** A reply with no line mentioning "Score" scores 0 instead of aborting the run. */
  lemma NoScoreLineScoresZero(evaluation: string)
    requires forall j :: 0 <= j < |SplitLines(evaluation)| ==> !HasInfix(SplitLines(evaluation)[j], "Score")
    ensures Score(evaluation) == 0
  {
  }

  /** Wherever it stands, the first line that mentions "Score" decides the score. */
  lemma ScoreReadsFirstScoreLine(evaluation: string, i: nat)
    requires i < |SplitLines(evaluation)| && HasInfix(SplitLines(evaluation)[i], "Score")
    requires forall j :: 0 <= j < i ==> !HasInfix(SplitLines(evaluation)[j], "Score")
    ensures Score(evaluation) == LineScore(SplitLines(evaluation)[i])
  {
    var lines := SplitLines(evaluation);
    assert FirstScoreLine(lines).Some?;
    assert FirstScoreLine(lines).value == i;
  }

  /** The score is read from the first line that mentions "Score"; later lines are never looked at. */
  lemma FirstScoreLineDecides(line: string, rest: string)
    requires '\n' !in line && HasInfix(line, "Score")
    ensures Score(line + "\n" + rest) == LineScore(line)
  {
    SplitLinesFirstLine(line, rest);
  }

  /** A number printed between text without digits is read back exactly. */
  lemma LineScoreReadsNumber(before: string, k: nat, after: string)
    requires Digits(before) == [] && Digits(after) == []
    ensures LineScore(before + DecimalString(k) + after) == k
  {
    var d := DecimalString(k);
    DigitsAppend(before, d);
    DigitsAppend(before + d, after);
    DigitsOfDigits(d);
    assert Digits(before + d) == d;
    assert Digits(before + d + after) == d;
    DecimalRoundTrip(k);
  }

  /** The block the prompt asks for, `Score: <k>` on its first line, scores exactly `k`. */
  lemma FormattedReplyScore(k: nat, rest: string)
    ensures Score("Score: " + DecimalString(k) + "\n" + rest) == k
  {
    var line := "Score: " + DecimalString(k);
    assert line[..5] == "Score";
    assert OccursAt(line, "Score", 0);
    assert '\n' !in line by {
      assert forall i :: 0 <= i < |line| ==> line[i] == ("Score: " + DecimalString(k))[i];
      assert forall i :: 7 <= i < |line| ==> IsDigit(line[i]);
    }
    assert Digits("Score: ") == [];
    assert Digits([]) == [] && line == "Score: " + DecimalString(k) + [];
    LineScoreReadsNumber("Score: ", k, []);
    FirstScoreLineDecides(line, rest);
  }

  /** A block in the requested format, `Score: 8` then feedback, scores 8. */
  lemma ExampleScore()
    ensures Score("Score: 8\nFeedback: good") == 8
  {
    FormattedReplyScore(8, "Feedback: good");
    assert DecimalString(8) == "8";
    ExampleReplyShape();
  }

  lemma ExampleReplyShape()
    ensures "Score: 8\nFeedback: good" == "Score: " + "8" + "\n" + "Feedback: good"
  {
    assert "Score: 8" == "Score: " + "8";
  }

  /** Every digit on the score line counts: a reply "Score: 8/10" scores 810. */
  lemma AllDigitsOfTheLineConcatenate()
    ensures LineScore("Score: 8/10") == 810
  {
    var d := "810";
    assert AllDigits(d) && DecimalValue(d) == 810 by {
      assert d[..2] == "81" && "81"[..1] == "8";
    }
    SlashedScoreDigits();
  }

  lemma SlashedScoreDigits()
    ensures Digits("Score: 8/10") == "810"
  {
    assert "Score: 8/10" == "Score: " + "8/10";
    DigitsAppend("Score: ", "8/10");
    LabelHasNoDigits();
    SlashedDigits();
  }

  lemma LabelHasNoDigits()
    ensures Digits("Score: ") == []
  {
    DigitsEmpty("Score: ");
  }

  lemma SlashedDigits()
    ensures Digits("8/10") == "810"
  {
    assert "8/10"[1..] == "/10" && "/10"[1..] == "10" && "10"[1..] == "0";
  }

  // ---------------------------------------------------------------------------
  // The run over all pairs
  // ---------------------------------------------------------------------------

  /** The number of pairs `zip(questions, answers)` yields. */
  function Pairs(questions: seq<string>, answers: seq<string>): (n: nat)
    ensures n <= |questions| && n <= |answers|
    ensures n == |questions| || n == |answers|
  {
    if |questions| <= |answers| then |questions| else |answers|
  }

  /** Sum of the scores of the given replies, in order. */
  function TotalScore(replies: seq<string>): nat {
    if replies == [] then 0
    else TotalScore(replies[..|replies| - 1]) + ReplyScore(replies[|replies| - 1])
  }

  lemma TotalScoreStep(replies: seq<string>, i: nat)
    requires i < |replies|
    ensures TotalScore(replies[..i + 1]) == TotalScore(replies[..i]) + ReplyScore(replies[i])
  {
    assert replies[..i + 1][..i] == replies[..i];
  }

  lemma {:induction false} TotalScoreAppend(r1: seq<string>, r2: seq<string>)
    ensures TotalScore(r1 + r2) == TotalScore(r1) + TotalScore(r2)
    decreases |r2|
  {
    if r2 == [] {
      assert r1 + r2 == r1;
    } else {
      var init := r2[..|r2| - 1];
      TotalScoreAppend(r1, init);
      assert (r1 + r2)[..|r1 + r2| - 1] == r1 + init;
    }
  }

  /** A reply that cannot be parsed adds nothing, and the replies around it are still scored. */
  lemma MalformedReplyAddsNothing(before: seq<string>, bad: string, after: seq<string>)
    requires ReplyScore(bad) == 0
    ensures TotalScore(before + [bad] + after) == TotalScore(before) + TotalScore(after)
  {
    TotalScoreAppend(before + [bad], after);
    TotalScoreAppend(before, [bad]);
    assert [bad][..0] == [];
  }

  /** If the model keeps to the 1-10 scale, the total never exceeds the printed denominator. */
  lemma {:induction false} TotalWithinScale(replies: seq<string>)
    requires forall i :: 0 <= i < |replies| ==> ReplyScore(replies[i]) <= 10
    ensures TotalScore(replies) <= 10 * |replies|
    decreases |replies|
  {
    if replies != [] {
      var init := replies[..|replies| - 1];
      assert forall i :: 0 <= i < |init| ==> init[i] == replies[i];
      TotalWithinScale(init);
    }
  }

  /**
   * One entry of the report: a pin mark and the question, a memo mark and the answer, and a
   * check mark and the evaluation, on three lines.
   */
  function Entry(question: string, answer: string, evaluation: string): string {
    "\U{1F4CC} Q: " + question + "\n\U{1F4DD} A: " + answer + "\n\U{2705} " + evaluation
  }

  /** Entries are separated by a horizontal rule with a blank line on each side. */
  const Separator: string := "\n\n---\n\n"

  /** The closing line: on a new line, a chart mark, "Final Score: ", the total, " / " and the maximum. */
  function FinalLine(total: nat, outOf: nat): string {
    "\n\U{1F4CA} Final Score: " + DecimalString(total) + " / " + DecimalString(outOf)
  }

  /** One entry per zipped pair, in order, each showing the stripped reply. */
  function Entries(questions: seq<string>, answers: seq<string>, replies: seq<string>): seq<string>
    requires |replies| <= |questions| && |replies| <= |answers|
  {
    seq(|replies|, k requires 0 <= k < |replies| => Entry(questions[k], answers[k], Strip(replies[k])))
  }

  lemma EntriesStep(questions: seq<string>, answers: seq<string>, replies: seq<string>, i: nat)
    requires i < |replies| <= |questions| && |replies| <= |answers|
    ensures Entries(questions, answers, replies[..i + 1]) ==
      Entries(questions, answers, replies[..i]) + [Entry(questions[i], answers[i], Strip(replies[i]))]
  {
    var r1 := Entries(questions, answers, replies[..i + 1]);
    var r0 := Entries(questions, answers, replies[..i]) + [Entry(questions[i], answers[i], Strip(replies[i]))];
    assert |r1| == |r0|;
    assert forall k :: 0 <= k < |r1| ==> r1[k] == r0[k];
  }

  /** The report the quiz shows: the entries joined by the separator, then the aggregate line. */
  function Report(questions: seq<string>, answers: seq<string>, replies: seq<string>): string
    requires |replies| == Pairs(questions, answers)
  {
    Join(Separator, Entries(questions, answers, replies)) + FinalLine(TotalScore(replies), |questions| * 10)
  }

  /**
   * The loop of `evaluate_all_answers`; `replies[i]` is the model's reply for the i-th pair.
   * The report is the entries of every pair in order, followed by the sum of the pair scores
   * over ten times the number of questions.
   */
  method EvaluateAllAnswers(questions: seq<string>, answers: seq<string>, replies: seq<string>) returns (report: string)
    requires |replies| == Pairs(questions, answers)
    ensures report == Report(questions, answers, replies)
  {
    var total := 0;
    var results: seq<string> := [];
    for i := 0 to |replies|
      invariant total == TotalScore(replies[..i])
      invariant results == Entries(questions, answers, replies[..i])
    {
      var evaluation := Strip(replies[i]);
      var score := Score(evaluation);
      TotalScoreStep(replies, i);
      EntriesStep(questions, answers, replies, i);
      total := total + score;
      results := results + [Entry(questions[i], answers[i], evaluation)];
    }
    assert replies[..|replies|] == replies;
    report := Join(Separator, results) + FinalLine(total, |questions| * 10);
  }

  /** With no answers there is nothing to evaluate; the report is the zero total alone. */
  lemma NothingAnswered(questions: seq<string>)
    ensures Report(questions, [], []) == FinalLine(0, |questions| * 10)
  {
  }
}
