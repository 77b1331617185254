/**
 * Parsing the quiz questions out of the language model's reply (`generate_topic_questions`).
 * The retrieval call and the prompt are opaque here: the parser sees only the reply text.
 */
module Quiz {
  import opened Text

  /** A line is a question line when, stripped, it starts with the digit 1, 2 or 3. */
  predicate IsNumberedLine(line: string) {
    var t := Strip(line);
    t != [] && t[0] in "123"
  }

  /** Python's `t[3:]`: everything after the three-character marker "N. ", or nothing if `t` is shorter. */
  function DropMarker(t: string): string {
    if |t| <= 3 then [] else t[3..]
  }

  /** The question a kept line contributes: `line.strip()[3:]`. */
  function QuestionText(line: string): string {
    DropMarker(Strip(line))
  }

  /** What one line contributes to the list comprehension: its question, or nothing. */
  function KeepLine(line: string): (r: seq<string>)
    ensures |r| <= 1
  {
    if IsNumberedLine(line) then [QuestionText(line)] else []
  }

  /** The list comprehension over the reply's lines, before the cut to three. */
  function KeepQuestions(lines: seq<string>): (r: seq<string>)
    ensures |r| <= |lines|
  {
    if lines == [] then [] else KeepLine(lines[0]) + KeepQuestions(lines[1..])
  }

  /** No question is kept exactly when no line is numbered. */
  lemma {:induction false} KeepQuestionsEmpty(lines: seq<string>)
    ensures KeepQuestions(lines) == [] <==> forall k :: 0 <= k < |lines| ==> !IsNumberedLine(lines[k])
    decreases |lines|
  {
    if lines != [] {
      KeepQuestionsEmpty(lines[1..]);
      assert KeepLine(lines[0]) == [] <==> !IsNumberedLine(lines[0]);
      assert forall k :: 1 <= k < |lines| ==> lines[k] == lines[1..][k - 1];
    }
  }

  /** Keeping questions is a filter-map: it works line by line and keeps the input order. */
  lemma {:induction false} KeepQuestionsAppend(a: seq<string>, b: seq<string>)
    ensures KeepQuestions(a + b) == KeepQuestions(a) + KeepQuestions(b)
    decreases |a|
  {
    if a == [] {
      assert a + b == b;
    } else {
      var ab := a + b;
      assert ab[0] == a[0];
      assert ab[1..] == a[1..] + b;
      KeepQuestionsAppend(a[1..], b);
      assert KeepQuestions(ab) == KeepLine(a[0]) + KeepQuestions(ab[1..]);
    }
  }

  lemma KeepQuestionsSingle(line: string)
    ensures KeepQuestions([line]) == if IsNumberedLine(line) then [QuestionText(line)] else []
  {
    assert [line][1..] == [];
    assert KeepQuestions([line]) == KeepLine(line);
  }

  /** `generate_topic_questions` after the model has replied: at most three questions. */
  function GenerateTopicQuestions(reply: string): (questions: seq<string>)
    ensures |questions| <= 3
  {
    var kept := KeepQuestions(SplitLines(Strip(reply)));
    if |kept| <= 3 then kept else kept[..3]
  }

  /** The empty list, which the quiz treats as a failure to generate, comes exactly from a reply without numbered lines. */
  lemma NoQuestionsIffNoNumberedLine(reply: string)
    ensures var lines := SplitLines(Strip(reply));
            GenerateTopicQuestions(reply) == [] <==> forall k :: 0 <= k < |lines| ==> !IsNumberedLine(lines[k])
  {
    KeepQuestionsEmpty(SplitLines(Strip(reply)));
  }

  /** Among the reply's question lines, those after the third are ignored. */
  lemma FirstThreeKept(reply: string)
    ensures var kept := KeepQuestions(SplitLines(Strip(reply)));
            |GenerateTopicQuestions(reply)| == (if |kept| < 3 then |kept| else 3) &&
            GenerateTopicQuestions(reply) == kept[..|GenerateTopicQuestions(reply)|]
  {
  }

  /** A question the model wrote on one line, with no whitespace at its ends. */
  predicate IsQuestionText(q: string) {
    q != [] && Trimmed(q) && '\n' !in q
  }

  lemma Prefixed(p: string, x: string)
    requires |p| == 3 && !IsSpace(p[0]) && '\n' !in p && IsQuestionText(x)
    ensures Strip(p + x) == p + x && QuestionText(p + x) == x
    ensures '\n' !in p + x
  {
    var s := p + x;
    assert s[|s| - 1] == x[|x| - 1];
    StripTrimmed(s);
    assert s[3..] == x;
    assert forall k :: 0 <= k < |s| ==> s[k] == (if k < 3 then p[k] else x[k - 3]);
  }

  /** A single-line reply yields its question if and only if the line is numbered. */
  lemma SingleLineReply(line: string)
    requires IsQuestionText(line)
    ensures GenerateTopicQuestions(line) == if line[0] in "123" then [DropMarker(line)] else []
  {
    StripTrimmed(line);
    assert JoinLines([line]) == line;
    SplitLinesJoin([line]);
    KeepQuestionsSingle(line);
  }

  lemma KeepThree(a: string, b: string, c: string)
    ensures KeepQuestions([a, b, c]) == KeepLine(a) + KeepLine(b) + KeepLine(c)
  {
    assert [a, b, c][1..] == [b, c] && [b, c][1..] == [c] && [c][1..] == [];
    assert KeepQuestions([c]) == KeepLine(c);
    assert KeepQuestions([b, c]) == KeepLine(b) + KeepLine(c);
  }

  /** The reply in the format the prompt asks for gives back exactly its three questions. */
  lemma WellFormedReply(x: string, y: string, z: string)
    requires IsQuestionText(x) && IsQuestionText(y) && IsQuestionText(z)
    ensures GenerateTopicQuestions("1. " + x + "\n2. " + y + "\n3. " + z) == [x, y, z]
  {
    var l1, l2, l3 := "1. " + x, "2. " + y, "3. " + z;
    WellFormedLines(x, y, z);
    WellFormedKept(x, y, z);
    assert KeepQuestions([l1, l2, l3]) == [x, y, z];
  }

  /** The formatted reply strips to itself and splits into its three numbered lines. */
  lemma WellFormedLines(x: string, y: string, z: string)
    requires IsQuestionText(x) && IsQuestionText(y) && IsQuestionText(z)
    ensures SplitLines(Strip("1. " + x + "\n2. " + y + "\n3. " + z)) == ["1. " + x, "2. " + y, "3. " + z]
  {
    var reply := "1. " + x + "\n2. " + y + "\n3. " + z;
    var l1, l2, l3 := "1. " + x, "2. " + y, "3. " + z;
    ReplyLayout(x, y, z);
    JoinThreeLines(l1, l2, l3);
    assert reply[0] == '1' && reply[|reply| - 1] == z[|z| - 1];
    StripTrimmed(reply);
    Prefixed("1. ", x);
    Prefixed("2. ", y);
    Prefixed("3. ", z);
    SplitLinesJoin([l1, l2, l3]);
  }

  lemma ReplyLayout(x: string, y: string, z: string)
    ensures "1. " + x + "\n2. " + y + "\n3. " + z == ("1. " + x) + "\n" + ("2. " + y) + "\n" + ("3. " + z)
  {
    assert "\n2. " == "\n" + "2. " && "\n3. " == "\n" + "3. ";
  }

  /** Each numbered line contributes its question. */
  lemma WellFormedKept(x: string, y: string, z: string)
    requires IsQuestionText(x) && IsQuestionText(y) && IsQuestionText(z)
    ensures KeepQuestions(["1. " + x, "2. " + y, "3. " + z]) == [x, y, z]
  {
    NumberedLineKept("1. ", x);
    NumberedLineKept("2. ", y);
    NumberedLineKept("3. ", z);
    KeepEach("1. " + x, "2. " + y, "3. " + z, x, y, z);
  }

  /** Three lines that each keep one question keep the three, in order. */
  lemma KeepEach(l1: string, l2: string, l3: string, x: string, y: string, z: string)
    requires KeepLine(l1) == [x] && KeepLine(l2) == [y] && KeepLine(l3) == [z]
    ensures KeepQuestions([l1, l2, l3]) == [x, y, z]
  {
    KeepThree(l1, l2, l3);
    assert [x] + [y] + [z] == [x, y, z];
  }

  /** A line made of a marker starting with 1, 2 or 3 and a question text keeps exactly the question. */
  lemma NumberedLineKept(p: string, x: string)
    requires |p| == 3 && p[0] in "123" && '\n' !in p && IsQuestionText(x)
    ensures KeepLine(p + x) == [x]
  {
    Prefixed(p, x);
    assert (p + x)[0] == p[0];
  }

  /** A reply in the requested format, written out. */
  lemma ThreeLineExample()
    ensures GenerateTopicQuestions("1. A\n2. B\n3. C") == ["A", "B", "C"]
  {
    ThreeLineShape();
    SingleLetterQuestions();
    WellFormedReply("A", "B", "C");
  }

  lemma ThreeLineShape()
    ensures "1. A\n2. B\n3. C" == "1. " + "A" + "\n2. " + "B" + "\n3. " + "C"
  {
  }

  lemma SingleLetterQuestions()
    ensures IsQuestionText("A") && IsQuestionText("B") && IsQuestionText("C")
  {
  }

  /** A tenth question is kept, with its marker cut one character short. */
  lemma TwoDigitNumberKept()
    ensures GenerateTopicQuestions("10. Ten") == [" Ten"]
  {
    SingleLineReply("10. Ten");
  }

  /** A bare marker yields an empty question rather than none. */
  lemma BareMarkerGivesEmptyQuestion()
    ensures GenerateTopicQuestions("1.") == [""]
  {
    SingleLineReply("1.");
  }
}
