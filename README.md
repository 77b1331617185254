# AI Learning Assistant — a verified model of its core logic

The application is a Streamlit page built on LangChain and OpenAI. A student uploads a textbook PDF
and the page indexes its first five pages. The student then either takes a three-question quiz on a
topic or asks questions ("doubts") about the document in a chat. The quiz questions come from a
language model, and so does the grading of the answers.

This project models the three pieces of that program with exact behaviour. Every call to the
language model or to the retrieval chain becomes an input string.

- **Question parser** (`quiz.dfy`, module `Quiz`). The model's reply is stripped and split into
  lines. A line is kept when its stripped text starts with `1`, `2` or `3`. A kept line loses its
  first three characters, and the parser returns at most three questions.
- **Score extraction and report** (`evaluation.dfy`, module `Evaluation`).
  - The score of an evaluation is read from its first line containing `Score`: all digit
    characters of that line, read as one decimal number.
  - The score is 0 when there is no such line or the line has no digit.
  - The scores are summed over the `zip` of questions and answers.
  - The report joins the per-question entries and ends with the total out of
    `10 * len(questions)`.
  - `EvaluateAllAnswers` is the source's accumulating loop, proved equal to the `Report`
    specification.
- **Session state machine** (`session.dfy`, module `Session`). The script re-runs from the top on
  each user action and keeps `st.session_state`.
  - `State`, `Event` and `Next` describe one pass of the script.
  - `Inv` is the invariant every pass keeps. One of its clauses is `len(answers) == step - 1`
    while questions are being asked.
  - The class `SessionState` holds the same fields as a mutable dictionary. Its handler methods,
    and `Interact` for a whole pass, are proved to perform `Next`.

Supporting modules: `text.dfy` (module `Text`) models Python's `strip`, `split('\n')`,
`splitlines`, `"".join`, `filter(str.isdigit, ...)`, `int(...)` and `str(...)` on naturals, each
with round-trip or characterisation lemmas. `wrappers.dfy` (module `Wrappers`) holds `Option`.

### The current-question hazard

At main.py:172 the quiz shows `questions[step - 1]` for every step from 1 to 3. It does this even
when the parser returned fewer than three questions, and a one-line reply such as `"1. Only"` is
accepted (`Session.OneQuestionAccepted`). Four ordinary actions from a new session reach that
state (`Session.ShortQuizReachable`).

After the last answer of a short quiz, the step points past the end of the list
(`Session.ShortQuizRaises`). Every later pass then raises `IndexError` until the student restarts
(`Session.RaisingIsStuck`). The evaluation is never reached.

The model keeps this behaviour:
- `Phase` classifies such a session as `Raising`, and the pass ends in the outcome `Crashed`.
- The in-place `SessionState.CurrentQuestion` carries the indexing's precondition as a `requires`.
- `Session.InvAllowsMissingQuestion` exhibits a session that satisfies the invariant but not that
  precondition.
- `Session.CompletionNeedsThreeQuestions` shows that only a quiz of exactly three questions reaches
  the evaluation.

## Model

| member | source | states |
|---|---|---|
| Quiz.GenerateTopicQuestions | main.py:104-107 | the parser returns at most three questions |
| Quiz.KeepQuestionsEmpty | main.py:106 | the filter keeps nothing exactly when no line's stripped text starts with 1, 2 or 3 |
| Quiz.KeepLine | main.py:106 | one line contributes at most one question to the comprehension |
| Quiz.KeepQuestions | main.py:106 | the comprehension keeps at most one question per line; `KeepQuestionsEmpty`, `KeepQuestionsAppend` and `KeepQuestionsSingle` state what it keeps |
| Quiz.KeepQuestionsAppend | main.py:106 | the filter works line by line and keeps input order: filtering a concatenation concatenates the results |
| Quiz.KeepQuestionsSingle | main.py:106 | one line is kept exactly when it is numbered, and becomes its stripped text without the first three characters |
| Quiz.NoQuestionsIffNoNumberedLine | main.py:105-107 | the parser returns no question exactly when no line of the stripped reply is numbered |
| Quiz.FirstThreeKept | main.py:107 | the result is the first min(3, kept) of the kept lines, in order |
| Quiz.Prefixed | main.py:106 | a three-character marker without a line feed that does not start with whitespace, before a trimmed one-line question, strips to itself, and dropping the marker gives back the question |
| Quiz.SingleLineReply | main.py:105-107 | a trimmed, non-empty one-line reply gives one question if it starts with 1, 2 or 3, and none otherwise |
| Quiz.KeepThree | main.py:106 | filtering three lines is filtering each line in turn |
| Text.StripTrimmed | main.py:105 | a text with no surrounding whitespace strips to itself |
| Quiz.WellFormedReply | main.py:104-107 | a reply in the requested format "1. x / 2. y / 3. z" gives exactly [x, y, z] |
| Quiz.ThreeLineExample | main.py:106-107 | "1. A\n2. B\n3. C" gives ["A", "B", "C"] |
| Quiz.TwoDigitNumberKept | main.py:106 | a line "10. Ten" is kept, as " Ten", because only its first character is tested |
| Quiz.BareMarkerGivesEmptyQuestion | main.py:106 | a line "1." is kept as the empty question |
| Evaluation.FirstScoreLine | main.py:145 | the index found is the first line containing "Score", and none is found only when no line contains it |
| Evaluation.NoScoreLineScoresZero | main.py:145-148 | with no line containing "Score" the score falls back to 0 |
| Evaluation.ScoreReadsFirstScoreLine | main.py:145-146 | wherever the first line containing "Score" stands, the score is read from that line |
| Evaluation.FirstScoreLineDecides | main.py:145-146 | when the first line contains "Score", the score is read from that line whatever follows |
| Evaluation.LineScoreReadsNumber | main.py:146 | a line whose only digits are the decimal form of k scores k |
| Evaluation.FormattedReplyScore | main.py:145-146 | an evaluation that opens with "Score: k" in the requested format scores k |
| Evaluation.ExampleScore | main.py:145-146 | "Score: 8\nFeedback: good" scores 8 |
| Evaluation.AllDigitsOfTheLineConcatenate | main.py:146 | "Score: 8/10" scores 810, because every digit of the line is joined |
| Evaluation.Pairs | main.py:114 | zip covers exactly min(len(questions), len(answers)) pairs |
| Evaluation.TotalScoreStep | main.py:149 | each pair adds its own score to the running total |
| Evaluation.TotalScoreAppend | main.py:149 | the total of concatenated replies is the sum of the totals |
| Evaluation.MalformedReplyAddsNothing | main.py:147-149 | an evaluation that yields no score contributes 0 and leaves the other scores unchanged |
| Evaluation.TotalWithinScale | main.py:149-152 | if every score is at most 10, the total is at most 10 per pair |
| Evaluation.EvaluateAllAnswers | main.py:110-153 | the loop's report is the entries joined by the separator, followed by the sum of the pair scores out of 10 * len(questions) |
| Evaluation.NothingAnswered | main.py:152-153 | with no answers the report is only the final line, 0 out of 10 * len(questions) |
| Text.LeadingSpacesSpec | main.py:105 | the counted prefix is whitespace and is followed by a non-space or runs to the end of the text |
| Text.TrailingSpacesSpec | main.py:105 | the counted suffix is whitespace and is preceded by a non-space or runs back to the start of the text |
| Text.StripSpec | main.py:105-106 | strip returns a text with no surrounding whitespace that is the input minus whitespace on both sides |
| Text.StripUnique | main.py:105-106 | strip is the only such text |
| Text.StripIdempotent | main.py:105-106 | stripping twice is stripping once |
| Text.SplitOn | main.py:106 | split gives at least one piece and no piece contains a line break |
| Text.SplitLines | main.py:106 | no line contains a line break, and only the empty text has no lines |
| Text.JoinSplitOn | main.py:106 | joining the pieces with line breaks gives back the text |
| Text.SplitOnJoin | main.py:106 | splitting joined lines gives back the lines |
| Text.JoinSplitLines | main.py:106 | the lines rejoined, plus a final line break if there was one, give back the text |
| Text.SplitLinesJoin | main.py:106 | lines whose last one is not empty come back from splitting their join |
| Text.SplitLinesFirstLine | main.py:145 | the first line of "a\n..." is a |
| Text.Digits | main.py:146 | the kept characters are digits and no more than the input |
| Text.DigitsEmpty | main.py:146-148 | no digit is kept exactly when the line has no digit |
| Text.DigitsAppend | main.py:146 | the digit filter works character by character |
| Text.DigitsOfDigits | main.py:146 | a run of digits passes the filter unchanged |
| Text.DecimalValue | main.py:146 | a run of d digits reads as a number below 10^d |
| Text.DecimalString | main.py:152 | the decimal form of a number is non-empty, digits only, with no leading zero |
| Text.DecimalRoundTrip | main.py:146 | reading back the decimal form of n gives n |
| Text.DecimalStringOfValue | main.py:146 | a canonical digit run is the decimal form of its value |
| Session.InitKeySpec | main.py:29-30 | one initialisation step adds its key and gives a missing key its default: None, or [] for chat_history; nothing else changes |
| Session.InitKeysOver | main.py:28-30 | the loop over any key list sets exactly those keys, each missing one to its default |
| Session.InitialisedSpec | main.py:28-30 | after initialisation every key is present, a present key keeps its value and a missing one has its default |
| Session.InitialisedComplete | main.py:28-30 | when every key is present, initialisation changes nothing |
| Session.RestartThenInitialise | main.py:28-36 | deleting every key and re-initialising gives the fresh session whatever came before |
| Session.FirstPages | main.py:55 | at most the first five pages are indexed, in order, and all of them when there are five or fewer |
| Session.NextKeepsInv | main.py:28-201 | every pass keeps the invariant: a mode only with an answering service, quiz fields only in quiz mode, len(answers) == step - 1, every assistant message directly after a user message and no empty user message |
| Session.RunKeepsInv | main.py:28-201 | every sequence of user actions from a session satisfying the invariant keeps it |
| Session.NewSessionFirstPass | main.py:28-30 | the first pass of a new, keyless session behaves as a pass from the fresh session and ends in the invariant |
| Session.NewSessionKeepsInv | main.py:28-201 | every non-empty sequence of user actions in a new browser session ends in the invariant |
| Session.QuizSectionKeepsInv | main.py:159-186 | the quiz section keeps the invariant |
| Session.ChatAppendQuestion | main.py:199 | a non-empty question appended alone keeps the history well formed |
| Session.ChatAppendAnswered | main.py:199-201 | a question and its answer appended together keep the history well formed |
| Session.RestartResets | main.py:33-36 | restart, from any state, ends in the fresh session with every key None except chat_history = [], which satisfies the invariant |
| Session.FreshInv | main.py:28-30 | the freshly initialised session satisfies the invariant |
| Session.UploadFailureKeepsSession | main.py:50-71 | a failed upload leaves the session unchanged, rag_chain still None, and reports the rate limit, the provider error or the crash |
| Session.UploadSuccessIndexes | main.py:55-64 | a successful upload sets rag_chain over the first five pages and changes nothing else |
| Session.TopicSubmission | main.py:161-169 | a raising provider call leaves the session unchanged and crashes the pass; no parsed question leaves the session unchanged with an error; otherwise topic and questions are set and step becomes 1, nothing else changes |
| Session.AnswerSubmission | main.py:176-181 | an answer is appended to the answers (None counted as []), step grows by exactly one, nothing else changes, and len(answers) == step - 1 |
| Session.DoubtAppendsTwo | main.py:198-201 | a doubt appends the user's question and then the assistant's answer, and keeps earlier history; when the retrieval call raises, only the question is appended and the pass crashes |
| Session.FailedDoubtThenAnswered | main.py:198-201 | after a failed answer, the next answered doubt leaves two user messages in a row |
| Session.RerenderKeepsState | main.py:28-201 | a pass with no user action changes nothing |
| Session.CompletionNeedsThreeQuestions | main.py:171-185 | the quiz reaches completion only at step 4 with three questions and three answers |
| Session.CompletedQuizIsEvaluatedWhole | main.py:183-185 | a completed quiz is evaluated over all three pairs, out of 30 |
| Session.ShortQuizRaises | main.py:171-181 | answering the last of fewer than three questions leads to a step whose question does not exist, and the next pass raises |
| Session.RaisingIsStuck | main.py:171-172 | once the current question is missing, every action but restart raises again and changes nothing |
| Session.OneQuestionAccepted | main.py:106-107 | a one-question reply is accepted |
| Session.ShortQuizReachable | main.py:28-185 | a new session reaches the raising state by uploading, choosing the quiz, getting a one-question reply and answering it |
| Session.InvAllowsMissingQuestion | main.py:172 | a session satisfying the invariant can be at a step with no question |
| Session.SessionState.constructor | main.py:28 | a new session dictionary has no keys |
| Session.SessionState.InitialiseKey | main.py:29-30 | the dictionary after one initialisation step is the one InitKey specifies |
| Session.SessionState.Initialise | main.py:28-30 | the in-place loop performs the initialisation specified by Initialised |
| Session.SessionState.Restart | main.py:34-35 | deleting the keys one by one removes every key and nothing else |
| Session.SessionState.Rerun | main.py:64 | a rerun re-initialises and renders without a user action |
| Session.SessionState.AttachRagChain | main.py:62 | rag_chain is set over the first five pages, nothing else changes |
| Session.SessionState.ChooseQuiz | main.py:78-81 | mode becomes quiz and step 0, nothing else changes |
| Session.SessionState.ChooseDoubt | main.py:83-85 | mode becomes doubt, nothing else changes |
| Session.SessionState.StartQuiz | main.py:166-168 | topic, questions and step 1 are set, nothing else changes |
| Session.SessionState.CurrentQuestion | main.py:172 | the shown question is questions[step - 1], which needs that question to exist |
| Session.SessionState.SubmitAnswer | main.py:177-180 | None answers become [], the answer is appended and step grows by one, nothing else changes |
| Session.SessionState.RecordQuestion | main.py:199 | the user's message is appended to the chat history |
| Session.SessionState.RecordAnswer | main.py:201 | the assistant's message is appended to the chat history |
| Session.SessionState.RunSections | main.py:156-201 | the quiz and doubt sections, including a raising provider call after the question is recorded, update the dictionary as Sections specifies |
| Session.SessionState.Interact | main.py:28-201 | one in-place pass of the script leaves the state, and ends with the outcome, that Next specifies |

## Left out

- Rendering is UI plumbing and is not modelled: headers, widgets, messages, the chat display loop and the report's markdown display.
  What a pass reports is reduced to an `Outcome`.
- Not modelled, because they are library code: PDF loading, the temporary file, chunking by `CharacterTextSplitter`, embeddings, Chroma and `RetrievalQA`.
  An upload is an event carrying the pages and what indexing came to (`IndexResult`). The answering service is represented by the pages it covers.
- The language model and the retrieval chain are not modelled.
  Their replies are inputs: `TopicSubmitted` carries the question-setting reply, `DoubtAsked` the retrieval answer, and `EvaluateAllAnswers` one grading reply per pair.
  In the two events, `None` stands for a call that raises. For a topic this covers the context retrieval at main.py:89-90 as well as the model call at main.py:104.
  The context retrieval at main.py:115 is not modelled apart from the grading reply: its text only feeds the prompt.
- The prompt texts (main.py:91-103, 116-142) are free text and are not built.
- Loading the API key from `.env` (main.py:13-22) is environment input and output, and is not modelled.
- The text functions are ASCII-only.
  - `strip` treats characters 9-13 and 28-32 as whitespace.
  - `splitlines` breaks lines only at `'\n'`.
  - `isdigit` accepts only `'0'..'9'`.
  Python's Unicode whitespace, other line boundaries (`\r`, `\r\n`, ...) and other Unicode digits are not modelled.
- Session.Next: the evaluation a completed quiz runs on every pass is not part of the pass.
  The pass ends with `QuizCompleted`. The report itself is `Evaluation.EvaluateAllAnswers`, which needs one grading reply per pair.
- Interact (`Session.SessionState.Interact`), like `Session.Next`, reports `QuizCompleted` for every pass of a completed quiz.
  The retrieval and model calls of that evaluation (main.py:115, 143) can raise and crash the pass; this outcome is not distinguished. No state changes either way.
- Evaluation.EvaluateAllAnswers: every grading reply is present. A call that raises inside the loop ends the pass without a report, and this is not modelled.
- Session.Next: `st.rerun()` is modelled as an immediate extra pass without a user action. `st.stop()` is modelled as the end of the pass with the state as it stands.
- Session.Next: `UnreadablePdf` stands for every exception the upload branch does not catch.
  The kind of exception is not distinguished.
- Quiz.IsNumberedLine / Quiz.DropMarker / Quiz.QuestionText: the test and the slice of the comprehension at main.py:106; they carry no `ensures`.
  What they decide is stated by `Quiz.KeepQuestionsSingle`, `Quiz.Prefixed`, `Quiz.TwoDigitNumberKept` and `Quiz.BareMarkerGivesEmptyQuestion`.
- Evaluation.TotalScore: the running `total_score` of main.py:149; it carries no `ensures`. It is stated by `Evaluation.TotalScoreStep`, `Evaluation.TotalScoreAppend`, `Evaluation.MalformedReplyAddsNothing` and `Evaluation.TotalWithinScale`.
- Evaluation.Entry / Evaluation.FinalLine: the f-strings of main.py:150 and main.py:152, built literally; they carry no `ensures`. `Evaluation.EvaluateAllAnswers` and `Evaluation.NothingAnswered` state the report they make up.
- Session.Next / Session.UploadPass / Session.QuizSection / Session.DoubtSection / Session.Phase / Session.AfterRerun: one pass of the script (main.py:28-201).
  In turn: the upload branch (main.py:45-71), the quiz section (main.py:156-186), the doubt section (main.py:189-201), the step dispatch (main.py:159-183) and `st.rerun()`. They carry no `ensures`.
  The handler lemmas (`Session.RestartResets` to `Session.RaisingIsStuck`) and `Session.NextKeepsInv` state what they do, and `Session.SessionState.Interact` is proved equal to `Session.Next`.
- Session.InitKey / Session.Initialised / Session.Cleared: the initialisation loop (main.py:28-30) and the key deletion of the restart (main.py:34-35); they carry no `ensures`.
  They are stated by `Session.InitKeySpec`, `Session.InitialisedSpec`, `Session.InitialisedComplete` and `Session.RestartThenInitialise`.
- Text.HasInfix: Python's `"Score" in line` (main.py:145), defined as an occurrence at some index; it carries no `ensures`.
- Text.Join / Text.JoinLines: Python's `sep.join(parts)` (main.py:153) and its line-feed instance; they carry no `ensures`.
  With the line feed as separator they are stated by `Text.JoinSplitOn` and `Text.SplitOnJoin`. With the report's separator, only the definition fixes the result.
- Text.Strip: the function carries no `ensures`. Its contract is stated by `Text.StripSpec` and `Text.StripUnique`.
- Evaluation.Entries: the source's list of entry strings (main.py:150), one per zipped pair; the function carries no `ensures`.
- Evaluation.Report: the function carries no `ensures`. What it holds is stated by `Evaluation.EvaluateAllAnswers`, the `TotalScore` lemmas and `Evaluation.NothingAnswered`.
- Evaluation.LineScore / Evaluation.Score / Evaluation.ReplyScore: these carry no contract of their own.
  `Evaluation.ScoreReadsFirstScoreLine` and `Evaluation.NoScoreLineScoresZero` together fix `Score` for every evaluation, up to the value of the chosen line. `Evaluation.LineScoreReadsNumber` gives that value for a line whose only digits are one number.
- Non-ASCII digits are not modelled. `str.isdigit` keeps them and `int` may then refuse them.
- Python's 4300-digit limit on `int` is not modelled.
- Cross-session behaviour and concurrency (several browser tabs) are not modelled.
