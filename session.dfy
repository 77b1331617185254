/**
 * The session controller: the Streamlit script re-runs from the top on every user action and keeps
 * its state in `st.session_state`. `State` is a snapshot of that dictionary, `Next` is one pass of
 * the script for one user action, and `SessionState` is the mutable dictionary itself, whose
 * handler methods are proved to perform `Next`.
 */
module Session {
  import opened Wrappers
  import Quiz
  import Evaluation

  datatype Mode = QuizMode | DoubtMode

  datatype Role = User | Assistant

  /** One entry of `chat_history`: `{"role": ..., "content": ...}`. */
  datatype Message = Message(role: Role, content: string)

  /** The keys the script keeps in the session dictionary. */
  datatype Key = ModeKey | StepKey | TopicKey | QuestionsKey | AnswersKey | ChatHistoryKey | RagChainKey

  /** The order in which the script initialises the keys. */
  const KeyOrder: seq<Key> := [ModeKey, StepKey, TopicKey, QuestionsKey, AnswersKey, ChatHistoryKey, RagChainKey]

  const AllKeys: set<Key> := {ModeKey, StepKey, TopicKey, QuestionsKey, AnswersKey, ChatHistoryKey, RagChainKey}

  /** The answering service built from an upload; it stands for the pages that were indexed. */
  datatype RagChain = RagChain(pages: seq<string>)

  /**
   * What loading and indexing an uploaded PDF came to. `UnreadablePdf` stands for any exception
   * the upload branch does not catch: a PDF the loader cannot read, or a failure outside the
   * two provider errors.
   */
  datatype IndexResult = Indexed | UnreadablePdf | RateLimitError | OpenAIError(message: string)

  /**
   * The user action that starts a pass. Model and retrieval answers travel with the action:
   * `reply` is the model's reply to the question-setting prompt, `response` the retrieval answer.
   * `None` stands for a provider call that raises (a rate limit, a provider or connection error),
   * which neither section catches.
   */
  datatype Event =
    | NoAction
    | RestartClicked
    | Uploaded(pages: seq<string>, result: IndexResult)
    | QuizClicked
    | DoubtClicked
    | TopicSubmitted(topic: string, reply: Option<string>)
    | AnswerSubmitted(answer: string)
    | DoubtAsked(input: string, response: Option<string>)

  /** What a pass ends with, beyond the state it leaves. */
  datatype Outcome =
    | Shown
    | RateLimited
    | ProviderError(message: string)
    | NoQuestions
    | Crashed        // the pass raised an exception the script does not catch
    | QuizCompleted  // the pass runs the evaluation and shows its report

  /**
   * A snapshot of `st.session_state`. A field is meaningful only while its key is in `keys`;
   * deleting a key removes it from `keys` and leaves the stale field, which no code reads.
   */
  datatype State = State(
    keys: set<Key>,
    ragChain: Option<RagChain>,
    mode: Option<Mode>,
    step: Option<int>,
    topic: Option<string>,
    questions: Option<seq<string>>,
    answers: Option<seq<string>>,
    chatHistory: seq<Message>)

  datatype Pass = Pass(state: State, outcome: Outcome)

  /** The session after `Restart` and the re-run's initialisation. */
  const Fresh: State := State(AllKeys, None, None, None, None, None, None, [])

  // ---------------------------------------------------------------------------
  // Initialisation and restart
  // ---------------------------------------------------------------------------

  /** One iteration of the initialisation loop: a missing key gets `None`, or `[]` for `chat_history`. */
  function InitKey(s: State, k: Key): State {
    if k in s.keys then s
    else
      var t := s.(keys := s.keys + {k});
      match k
      case ModeKey => t.(mode := None)
      case StepKey => t.(step := None)
      case TopicKey => t.(topic := None)
      case QuestionsKey => t.(questions := None)
      case AnswersKey => t.(answers := None)
      case ChatHistoryKey => t.(chatHistory := [])
      case RagChainKey => t.(ragChain := None)
  }

  function InitKeys(s: State, ks: seq<Key>): State
    decreases |ks|
  {
    if ks == [] then s else InitKey(InitKeys(s, ks[..|ks| - 1]), ks[|ks| - 1])
  }

  /** The initialisation loop at the top of every pass. */
  function Initialised(s: State): State {
    InitKeys(s, KeyOrder)
  }

  /** The restart loop: every key of the dictionary is deleted. */
  function Cleared(s: State): State {
    s.(keys := {})
  }

  /** One initialisation step adds its key, gives the key's field its default if it was missing, and touches nothing else. */
  lemma InitKeySpec(s: State, k: Key)
    ensures var t := InitKey(s, k); var missing := k !in s.keys;
      && t.keys == s.keys + {k}
      && t.mode == (if missing && k == ModeKey then None else s.mode)
      && t.step == (if missing && k == StepKey then None else s.step)
      && t.topic == (if missing && k == TopicKey then None else s.topic)
      && t.questions == (if missing && k == QuestionsKey then None else s.questions)
      && t.answers == (if missing && k == AnswersKey then None else s.answers)
      && t.chatHistory == (if missing && k == ChatHistoryKey then [] else s.chatHistory)
      && t.ragChain == (if missing && k == RagChainKey then None else s.ragChain)
  {
  }

  /**
   * `t` is what initialising the keys `done` makes of `s`: those keys are present, a field
   * whose key was missing holds its default, and every other field is as in `s`.
   */
  predicate InitialisedOver(s: State, t: State, done: set<Key>) {
    && t.keys == s.keys + done
    && t.mode == (if ModeKey in done - s.keys then None else s.mode)
    && t.step == (if StepKey in done - s.keys then None else s.step)
    && t.topic == (if TopicKey in done - s.keys then None else s.topic)
    && t.questions == (if QuestionsKey in done - s.keys then None else s.questions)
    && t.answers == (if AnswersKey in done - s.keys then None else s.answers)
    && t.chatHistory == (if ChatHistoryKey in done - s.keys then [] else s.chatHistory)
    && t.ragChain == (if RagChainKey in done - s.keys then None else s.ragChain)
  }

  lemma InitialisedOverStep(s: State, t: State, done: set<Key>, k: Key)
    requires InitialisedOver(s, t, done)
    ensures InitialisedOver(s, InitKey(t, k), done + {k})
  {
    InitKeySpec(t, k);
  }

  /** Initialising the keys `ks` in order, from any state. */
  lemma {:induction false} InitKeysOver(s: State, ks: seq<Key>)
    ensures InitialisedOver(s, InitKeys(s, ks), set k | k in ks)
    decreases |ks|
  {
    if ks == [] {
      assert InitialisedOver(s, s, {});
    } else {
      var init := ks[..|ks| - 1];
      InitKeysOver(s, init);
      InitialisedOverStep(s, InitKeys(s, init), (set k | k in init), ks[|ks| - 1]);
      assert (set k | k in ks) == (set k | k in init) + {ks[|ks| - 1]} by {
        assert ks == init + [ks[|ks| - 1]];
      }
    }
  }

  /** Initialisation adds every key; a key already present keeps its value, a missing one gets its default. */
  lemma InitialisedSpec(s: State)
    ensures InitialisedOver(s, Initialised(s), AllKeys)
  {
    InitKeysOver(s, KeyOrder);
    assert KeyOrder[0] == ModeKey && KeyOrder[1] == StepKey && KeyOrder[2] == TopicKey;
    assert KeyOrder[3] == QuestionsKey && KeyOrder[4] == AnswersKey;
    assert KeyOrder[5] == ChatHistoryKey && KeyOrder[6] == RagChainKey;
    assert (set k | k in KeyOrder) == AllKeys;
  }

  /** When every key is present, initialisation changes nothing. */
  lemma InitialisedComplete(s: State)
    requires s.keys == AllKeys
    ensures Initialised(s) == s
  {
    InitialisedSpec(s);
  }

  /** Restart, followed by the re-run's initialisation, leaves the fresh session whatever came before. */
  lemma RestartThenInitialise(s: State)
    ensures Initialised(Cleared(s)) == Fresh
  {
    InitialisedSpec(Cleared(s));
  }

  // ---------------------------------------------------------------------------
  // One pass of the script
  // ---------------------------------------------------------------------------

  /** `docs[:5]`: only the first five pages are indexed. */
  function FirstPages(pages: seq<string>): (r: seq<string>)
    ensures |r| <= 5 && |r| <= |pages| && r == pages[..|r|]
    ensures |pages| <= 5 ==> r == pages
    ensures |pages| > 5 ==> |r| == 5
  {
    if |pages| <= 5 then pages else pages[..5]
  }

  /** Which branch of the quiz section (main.py:159-186) a pass takes. */
  datatype QuizPhase =
    | NotQuizzing
    | AwaitingTopic
    | Asking(number: nat)   // question `number` (1-based) is shown
    | Raising               // `questions[step - 1]` or the comparison with `step` raises
    | Completed
    | Blank                 // a negative step: no branch applies

  function Phase(s: State): QuizPhase {
    if s.mode != Some(QuizMode) then NotQuizzing
    else
      match s.step
      case None => Raising
      case Some(n) =>
        if n == 0 then AwaitingTopic
        else if 1 <= n <= 3 then
          if s.questions.Some? && n - 1 < |s.questions.value| then Asking(n) else Raising
        else if n > 3 then Completed
        else Blank
  }

  /** The outcome of a pass in which the user does nothing. */
  function IdleOutcome(s: State): Outcome {
    match Phase(s)
    case Raising => Crashed
    case Completed => QuizCompleted
    case _ => Shown
  }

  /** `st.rerun()`: the script starts again at once, and that pass sees no user action. */
  function AfterRerun(s: State): Pass {
    var t := Initialised(s);
    Pass(t, IdleOutcome(t))
  }

  /** The upload branch (main.py:45-71), run while there is no answering service. */
  function UploadPass(s: State, pages: seq<string>, result: IndexResult): Pass {
    match result
    case Indexed => AfterRerun(s.(ragChain := Some(RagChain(FirstPages(pages)))))
    case UnreadablePdf => Pass(s, Crashed)
    case RateLimitError => Pass(s, RateLimited)
    case OpenAIError(m) => Pass(s, ProviderError(m))
  }

  /** The quiz section (main.py:156-186). */
  function QuizSection(s: State, e: Event): Pass {
    match Phase(s)
    case AwaitingTopic =>
      if e.TopicSubmitted? && e.topic != [] then
        if s.ragChain.None? || e.reply.None? then Pass(s, Crashed)
        else
          var questions := Quiz.GenerateTopicQuestions(e.reply.value);
          if questions == [] then Pass(s, NoQuestions)
          else AfterRerun(s.(topic := Some(e.topic), questions := Some(questions), step := Some(1)))
      else Pass(s, Shown)
    case Asking(n) =>
      if e.AnswerSubmitted? then
        AfterRerun(s.(answers := Some(s.answers.GetOr([]) + [e.answer]), step := Some(n + 1)))
      else Pass(s, Shown)
    case Raising => Pass(s, Crashed)
    case Completed => Pass(s, QuizCompleted)
    case _ => Pass(s, Shown)
  }

  /** The doubt section (main.py:189-201): the question is recorded before the answering service is called. */
  function DoubtSection(s: State, e: Event): Pass {
    if e.DoubtAsked? && e.input != [] then
      var asked := s.chatHistory + [Message(User, e.input)];
      if s.ragChain.None? || e.response.None? then Pass(s.(chatHistory := asked), Crashed)
      else Pass(s.(chatHistory := asked + [Message(Assistant, e.response.value)]), Shown)
    else Pass(s, Shown)
  }

  function Sections(s: State, e: Event): Pass {
    if s.mode == Some(QuizMode) then QuizSection(s, e)
    else if s.mode == Some(DoubtMode) then DoubtSection(s, e)
    else Pass(s, Shown)
  }

  /** One pass of the script, started by the user action `e`. */
  function Next(s: State, e: Event): Pass {
    var s0 := Initialised(s);
    if e.RestartClicked? then AfterRerun(Cleared(s0))
    else if s0.ragChain.None? then
      if e.Uploaded? then UploadPass(s0, e.pages, e.result) else Sections(s0, e)
    else if s0.mode.None? && e.QuizClicked? then AfterRerun(s0.(mode := Some(QuizMode), step := Some(0)))
    else if s0.mode.None? && e.DoubtClicked? then AfterRerun(s0.(mode := Some(DoubtMode)))
    else Sections(s0, e)
  }

  /** The passes for a sequence of user actions. */
  function Run(s: State, events: seq<Event>): State
    decreases |events|
  {
    if events == [] then s else Run(Next(s, events[0]).state, events[1..])
  }

  // ---------------------------------------------------------------------------
  // The invariant the passes keep
  // ---------------------------------------------------------------------------

  function AnswerCount(s: State): nat {
    if s.answers.Some? then |s.answers.value| else 0
  }

  /**
   * Every assistant message answers the user message just before it, and every user message is
   * non-empty. A question whose answer failed stays in the history unanswered.
   */
  predicate ChatWellFormed(h: seq<Message>) {
    && (forall i :: 0 <= i < |h| && h[i].role == Assistant ==> i > 0 && h[i - 1].role == User)
    && (forall i :: 0 <= i < |h| && h[i].role == User ==> h[i].content != [])
  }

  /** What holds of the quiz while the mode is quiz. */
  predicate QuizInv(s: State) {
    && s.step.Some? && 0 <= s.step.value <= 4
    && (s.step.value == 0 ==> s.topic.None? && s.questions.None? && s.answers.None?)
    && (s.step.value >= 1 ==>
          && s.topic.Some? && s.topic.value != []
          && s.questions.Some? && 1 <= |s.questions.value| <= 3
          && s.step.value <= |s.questions.value| + 1
          && (s.answers.None? <==> s.step.value == 1)
          && AnswerCount(s) == s.step.value - 1)
  }

  predicate Inv(s: State) {
    && s.keys == AllKeys
    && (s.ragChain.None? ==> s.mode.None?)
    && (s.ragChain.Some? ==> |s.ragChain.value.pages| <= 5)
    && (s.mode != Some(QuizMode) ==> s.step.None? && s.topic.None? && s.questions.None? && s.answers.None?)
    && (s.mode == Some(QuizMode) ==> QuizInv(s))
    && (s.mode != Some(DoubtMode) ==> s.chatHistory == [])
    && ChatWellFormed(s.chatHistory)
  }

  /** The fresh session satisfies the invariant. */
  lemma FreshInv()
    ensures Inv(Fresh)
  {
  }

  /** A pass after a re-run starts from what it was given. */
  lemma AfterRerunKeeps(s: State)
    requires Inv(s)
    ensures AfterRerun(s).state == s
  {
    InitialisedComplete(s);
  }

  /** Recording a question keeps the history well formed. */
  lemma ChatAppendQuestion(h: seq<Message>, input: string)
    requires ChatWellFormed(h) && input != []
    ensures ChatWellFormed(h + [Message(User, input)])
  {
    var h' := h + [Message(User, input)];
    assert forall i :: 0 <= i < |h| ==> h'[i] == h[i];
  }

  /** Recording a question and then its answer keeps the history well formed. */
  lemma ChatAppendAnswered(h: seq<Message>, input: string, response: string)
    requires ChatWellFormed(h) && input != []
    ensures ChatWellFormed(h + [Message(User, input), Message(Assistant, response)])
  {
    var h' := h + [Message(User, input), Message(Assistant, response)];
    assert forall i :: 0 <= i < |h| ==> h'[i] == h[i];
    assert h'[|h|] == Message(User, input) && h'[|h| + 1] == Message(Assistant, response);
  }

  lemma QuizSectionKeepsInv(s: State, e: Event)
    requires Inv(s) && s.mode == Some(QuizMode)
    ensures Inv(QuizSection(s, e).state)
  {
    match Phase(s)
    case AwaitingTopic =>
      if e.TopicSubmitted? && e.topic != [] && s.ragChain.Some? && e.reply.Some? {
        var questions := Quiz.GenerateTopicQuestions(e.reply.value);
        if questions != [] {
          AfterRerunKeeps(s.(topic := Some(e.topic), questions := Some(questions), step := Some(1)));
        }
      }
    case Asking(n) =>
      if e.AnswerSubmitted? {
        var t := s.(answers := Some(s.answers.GetOr([]) + [e.answer]), step := Some(n + 1));
        assert AnswerCount(t) == n;
        AfterRerunKeeps(t);
      }
    case _ =>
  }

  /** Every pass keeps the invariant. */
  lemma NextKeepsInv(s: State, e: Event)
    requires Inv(s)
    ensures Inv(Next(s, e).state)
  {
    InitialisedComplete(s);
    if e.RestartClicked? {
      RestartThenInitialise(s);
      AfterRerunKeeps(Fresh);
    } else if s.ragChain.None? {
      if e.Uploaded? && e.result.Indexed? {
        AfterRerunKeeps(s.(ragChain := Some(RagChain(FirstPages(e.pages)))));
      }
    } else if s.mode.None? && e.QuizClicked? {
      AfterRerunKeeps(s.(mode := Some(QuizMode), step := Some(0)));
    } else if s.mode.None? && e.DoubtClicked? {
      AfterRerunKeeps(s.(mode := Some(DoubtMode)));
    } else if s.mode == Some(QuizMode) {
      QuizSectionKeepsInv(s, e);
    } else if s.mode == Some(DoubtMode) && e.DoubtAsked? && e.input != [] {
      if e.response.Some? {
        ChatAppendAnswered(s.chatHistory, e.input, e.response.value);
      } else {
        ChatAppendQuestion(s.chatHistory, e.input);
      }
    }
  }

  /** Every sequence of user actions from a session satisfying the invariant keeps it. */
  lemma {:induction false} RunKeepsInv(s: State, events: seq<Event>)
    requires Inv(s)
    ensures Inv(Run(s, events))
    decreases |events|
  {
    if events != [] {
      NextKeepsInv(s, events[0]);
      RunKeepsInv(Next(s, events[0]).state, events[1..]);
    }
  }

  /**
   * A new browser session has no keys and so does not satisfy the invariant, but its first pass
   * initialises every key and behaves as a pass from the fresh session.
   */
  lemma NewSessionFirstPass(e: Event)
    ensures Next(Cleared(Fresh), e) == Next(Fresh, e)
    ensures Inv(Next(Cleared(Fresh), e).state)
  {
    RestartThenInitialise(Fresh);
    InitialisedComplete(Fresh);
    NextKeepsInv(Fresh, e);
  }

  /** Every sequence of user actions in a new browser session keeps the invariant after its first pass. */
  lemma NewSessionKeepsInv(events: seq<Event>)
    requires events != []
    ensures Inv(Run(Cleared(Fresh), events))
  {
    NewSessionFirstPass(events[0]);
    RunKeepsInv(Next(Cleared(Fresh), events[0]).state, events[1..]);
  }

  // ---------------------------------------------------------------------------
  // What each handler does
  // ---------------------------------------------------------------------------

  /** Restart, from any state, ends in the fresh session with the upload screen. */
  lemma RestartResets(s: State)
    ensures Next(s, RestartClicked) == Pass(Fresh, Shown)
    ensures Inv(Next(s, RestartClicked).state)
  {
    FreshInv();
    RestartThenInitialise(Initialised(s));
    InitialisedComplete(Fresh);
  }

  /** A failed upload installs no answering service and changes nothing else. */
  lemma UploadFailureKeepsSession(s: State, pages: seq<string>, result: IndexResult)
    requires Inv(s) && s.ragChain.None? && !result.Indexed?
    ensures Next(s, Uploaded(pages, result)).state == s
    ensures Next(s, Uploaded(pages, result)).outcome ==
      match result
      case RateLimitError => RateLimited
      case OpenAIError(m) => ProviderError(m)
      case _ => Crashed
  {
    InitialisedComplete(s);
  }

  /** A successful upload installs an answering service over the first five pages and nothing else. */
  lemma UploadSuccessIndexes(s: State, pages: seq<string>)
    requires Inv(s) && s.ragChain.None?
    ensures Next(s, Uploaded(pages, Indexed)).state == s.(ragChain := Some(RagChain(FirstPages(pages))))
  {
    InitialisedComplete(s);
    AfterRerunKeeps(s.(ragChain := Some(RagChain(FirstPages(pages)))));
  }

  /**
   * Submitting a topic: a failing provider call raises and leaves the session as it was; no parsed
   * question leaves it as it was and reports the failure; otherwise topic and questions are set
   * and the quiz moves to step 1.
   */
  lemma TopicSubmission(s: State, topic: string, reply: string)
    requires Inv(s) && s.mode == Some(QuizMode) && s.step == Some(0) && topic != []
    ensures Next(s, TopicSubmitted(topic, None)) == Pass(s, Crashed)
    ensures var questions := Quiz.GenerateTopicQuestions(reply);
      && (questions == [] ==> Next(s, TopicSubmitted(topic, Some(reply))) == Pass(s, NoQuestions))
      && (questions != [] ==>
            Next(s, TopicSubmitted(topic, Some(reply))) ==
            Pass(s.(topic := Some(topic), questions := Some(questions), step := Some(1)), Shown))
  {
    InitialisedComplete(s);
    var questions := Quiz.GenerateTopicQuestions(reply);
    if questions != [] {
      var t := s.(topic := Some(topic), questions := Some(questions), step := Some(1));
      AfterRerunKeeps(t);
      assert Phase(t) == Asking(1);
    }
  }

  /** Submitting an answer appends exactly that answer and advances the step by one. */
  lemma AnswerSubmission(s: State, answer: string)
    requires Inv(s) && Phase(s).Asking?
    ensures var t := Next(s, AnswerSubmitted(answer)).state;
      && t.answers == Some(s.answers.GetOr([]) + [answer])
      && t.step == Some(s.step.value + 1)
      && t == s.(answers := t.answers, step := t.step)
      && AnswerCount(t) == t.step.value - 1
  {
    InitialisedComplete(s);
    var t := s.(answers := Some(s.answers.GetOr([]) + [answer]), step := Some(s.step.value + 1));
    AfterRerunKeeps(t);
  }

  /**
   * Asking a doubt appends the question and then the answer, and keeps the earlier history. When
   * the retrieval call raises, the question has already been recorded and stays unanswered.
   */
  lemma DoubtAppendsTwo(s: State, input: string, response: string)
    requires Inv(s) && s.mode == Some(DoubtMode) && input != []
    ensures Next(s, DoubtAsked(input, Some(response))) ==
      Pass(s.(chatHistory := s.chatHistory + [Message(User, input), Message(Assistant, response)]), Shown)
    ensures Next(s, DoubtAsked(input, None)) ==
      Pass(s.(chatHistory := s.chatHistory + [Message(User, input)]), Crashed)
  {
    InitialisedComplete(s);
  }

  /** After a failed answer the next question follows the unanswered one directly. */
  lemma FailedDoubtThenAnswered(s: State, first: string, second: string, response: string)
    requires Inv(s) && s.mode == Some(DoubtMode) && first != [] && second != []
    ensures Next(Next(s, DoubtAsked(first, None)).state, DoubtAsked(second, Some(response))).state.chatHistory ==
      s.chatHistory + [Message(User, first), Message(User, second), Message(Assistant, response)]
  {
    DoubtAppendsTwo(s, first, response);
    var t := Next(s, DoubtAsked(first, None)).state;
    NextKeepsInv(s, DoubtAsked(first, None));
    DoubtAppendsTwo(t, second, response);
  }

  /** A pass without a user action changes nothing. */
  lemma RerenderKeepsState(s: State)
    requires Inv(s)
    ensures Next(s, NoAction).state == s
  {
    InitialisedComplete(s);
  }

  /** Only a quiz of three questions reaches the evaluation, with three answers. */
  lemma CompletionNeedsThreeQuestions(s: State)
    requires Inv(s) && Phase(s) == Completed
    ensures s.step == Some(4) && |s.questions.value| == 3 && |s.answers.value| == 3
  {
  }

  /** The evaluation a completed quiz runs pairs every question with its answer, out of 30. */
  lemma CompletedQuizIsEvaluatedWhole(s: State)
    requires Inv(s) && Phase(s) == Completed
    ensures Evaluation.Pairs(s.questions.value, s.answers.value) == |s.questions.value| == 3
    ensures |s.questions.value| * 10 == 30
  {
    CompletionNeedsThreeQuestions(s);
  }

  /**
   * With fewer than three questions, answering the last one leaves the quiz at a step whose
   * question does not exist: the next pass raises instead of evaluating.
   */
  lemma ShortQuizRaises(s: State, answer: string)
    requires Inv(s) && Phase(s).Asking? && s.step.value == |s.questions.value| < 3
    ensures Phase(Next(s, AnswerSubmitted(answer)).state) == Raising
    ensures Next(s, AnswerSubmitted(answer)).outcome == Crashed
  {
    InitialisedComplete(s);
    AfterRerunKeeps(s.(answers := Some(s.answers.GetOr([]) + [answer]), step := Some(s.step.value + 1)));
  }

  /** A session the invariant allows in which the current step has no question. */
  const ShortQuiz: State :=
    State(AllKeys, Some(RagChain(["page"])), Some(QuizMode), Some(2), Some("t"), Some(["Only"]), Some(["a"]), [])

  /** The invariant does not establish the precondition of showing the current question. */
  lemma InvAllowsMissingQuestion()
    ensures Inv(ShortQuiz) && ShortQuiz.step == Some(2) && |ShortQuiz.questions.value| < 2
    ensures Phase(ShortQuiz) == Raising
  {
  }

  /** Once a pass raises, every action but restart raises again and changes nothing. */
  lemma RaisingIsStuck(s: State, e: Event)
    requires Inv(s) && Phase(s) == Raising && !e.RestartClicked?
    ensures Next(s, e) == Pass(s, Crashed)
  {
    InitialisedComplete(s);
  }

  /** A one-question reply is accepted. */
  lemma OneQuestionAccepted()
    ensures Quiz.GenerateTopicQuestions("1. Only") == ["Only"]
  {
    Quiz.SingleLineReply("1. Only");
  }

  /**
   * A new session reaches the raising state with four ordinary actions: upload, choose the quiz,
   * submit a topic whose reply holds one question, answer it.
   */
  lemma ShortQuizReachable()
    ensures Phase(Run(Cleared(Fresh), [Uploaded(["p"], Indexed), QuizClicked,
                                       TopicSubmitted("t", Some("1. Only")), AnswerSubmitted("a")])) == Raising
  {
    var events := [Uploaded(["p"], Indexed), QuizClicked, TopicSubmitted("t", Some("1. Only")), AnswerSubmitted("a")];
    NewSessionFirstPass(events[0]);
    UploadSuccessIndexes(Fresh, ["p"]);
    var s1 := Fresh.(ragChain := Some(RagChain(FirstPages(["p"]))));
    assert Next(Cleared(Fresh), events[0]).state == s1;
    InitialisedComplete(s1);
    var s2 := s1.(mode := Some(QuizMode), step := Some(0));
    AfterRerunKeeps(s2);
    assert Next(s1, events[1]).state == s2;
    OneQuestionAccepted();
    TopicSubmission(s2, "t", "1. Only");
    var s3 := s2.(topic := Some("t"), questions := Some(["Only"]), step := Some(1));
    assert Next(s2, events[2]).state == s3;
    NextKeepsInv(s2, events[2]);
    ShortQuizRaises(s3, "a");
    assert events[1..][1..][1..][1..] == [];
  }

  // ---------------------------------------------------------------------------
  // The session dictionary, updated in place
  // ---------------------------------------------------------------------------

  class SessionState {
    var keys: set<Key>
    var ragChain: Option<RagChain>
    var mode: Option<Mode>
    var step: Option<int>
    var topic: Option<string>
    var questions: Option<seq<string>>
    var answers: Option<seq<string>>
    var chatHistory: seq<Message>

    function Snapshot(): State
      reads this
    {
      State(keys, ragChain, mode, step, topic, questions, answers, chatHistory)
    }

    /** A new browser session: the dictionary has no keys yet. */
    constructor ()
      ensures Snapshot() == Cleared(Fresh)
    {
      keys, ragChain, mode, step, topic, questions, answers, chatHistory := {}, None, None, None, None, None, None, [];
    }

    method InitialiseKey(k: Key)
      modifies this
      ensures Snapshot() == InitKey(old(Snapshot()), k)
    {
      if k !in keys {
        keys := keys + {k};
        match k
        case ModeKey => mode := None;
        case StepKey => step := None;
        case TopicKey => topic := None;
        case QuestionsKey => questions := None;
        case AnswersKey => answers := None;
        case ChatHistoryKey => chatHistory := [];
        case RagChainKey => ragChain := None;
      }
    }

    /** main.py:28-30 */
    method Initialise()
      modifies this
      ensures Snapshot() == Initialised(old(Snapshot()))
    {
      for i := 0 to |KeyOrder|
        invariant Snapshot() == InitKeys(old(Snapshot()), KeyOrder[..i])
      {
        InitialiseKey(KeyOrder[i]);
        assert KeyOrder[..i + 1][..i] == KeyOrder[..i];
      }
      assert KeyOrder[..|KeyOrder|] == KeyOrder;
    }

    /** main.py:34-35: every key is deleted, one at a time. */
    method Restart()
      modifies this
      ensures Snapshot() == Cleared(old(Snapshot()))
    {
      var remaining := keys;
      while remaining != {}
        invariant keys == remaining
        invariant Snapshot() == old(Snapshot()).(keys := remaining)
        decreases remaining
      {
        var k :| k in remaining;
        keys := keys - {k};
        remaining := remaining - {k};
      }
    }

    /** `st.rerun()`: the next pass initialises and renders without a user action. */
    method Rerun() returns (outcome: Outcome)
      modifies this
      ensures Pass(Snapshot(), outcome) == AfterRerun(old(Snapshot()))
    {
      Initialise();
      outcome := IdleOutcome(Snapshot());
    }

    /** main.py:62 */
    method AttachRagChain(pages: seq<string>)
      modifies this
      ensures Snapshot() == old(Snapshot()).(ragChain := Some(RagChain(FirstPages(pages))))
    {
      ragChain := Some(RagChain(FirstPages(pages)));
    }

    /** main.py:79-80 */
    method ChooseQuiz()
      modifies this
      ensures Snapshot() == old(Snapshot()).(mode := Some(QuizMode), step := Some(0))
    {
      mode := Some(QuizMode);
      step := Some(0);
    }

    /** main.py:84 */
    method ChooseDoubt()
      modifies this
      ensures Snapshot() == old(Snapshot()).(mode := Some(DoubtMode))
    {
      mode := Some(DoubtMode);
    }

    /** main.py:166-168 */
    method StartQuiz(t: string, qs: seq<string>)
      modifies this
      ensures Snapshot() == old(Snapshot()).(topic := Some(t), questions := Some(qs), step := Some(1))
    {
      topic := Some(t);
      questions := Some(qs);
      step := Some(1);
    }

    /** main.py:172: the question of the current step, which must exist. */
    method CurrentQuestion() returns (q: string)
      requires Phase(Snapshot()).Asking?
      ensures q == questions.value[step.value - 1] && q in questions.value
    {
      q := questions.value[step.value - 1];
    }

    /** main.py:177-180 */
    method SubmitAnswer(answer: string)
      requires step.Some?
      modifies this
      ensures Snapshot() == old(Snapshot()).(answers := Some(old(answers).GetOr([]) + [answer]), step := Some(old(step).value + 1))
    {
      if answers.None? {
        answers := Some([]);
      }
      answers := Some(answers.value + [answer]);
      step := Some(step.value + 1);
    }

    /** main.py:199 */
    method RecordQuestion(input: string)
      modifies this
      ensures Snapshot() == old(Snapshot()).(chatHistory := old(chatHistory) + [Message(User, input)])
    {
      chatHistory := chatHistory + [Message(User, input)];
    }

    /** main.py:201 */
    method RecordAnswer(response: string)
      modifies this
      ensures Snapshot() == old(Snapshot()).(chatHistory := old(chatHistory) + [Message(Assistant, response)])
    {
      chatHistory := chatHistory + [Message(Assistant, response)];
    }

    /** One pass of the script for the user action `e`. */
    method Interact(e: Event) returns (outcome: Outcome)
      modifies this
      ensures Pass(Snapshot(), outcome) == Next(old(Snapshot()), e)
    {
      Initialise();
      if e.RestartClicked? {
        Restart();
        outcome := Rerun();
        return;
      }
      if ragChain.None? && e.Uploaded? {
        match e.result {
          case Indexed =>
            AttachRagChain(e.pages);
            outcome := Rerun();
          case UnreadablePdf => outcome := Crashed;
          case RateLimitError => outcome := RateLimited;
          case OpenAIError(m) => outcome := ProviderError(m);
        }
        return;
      }
      if ragChain.Some? && mode.None? && e.QuizClicked? {
        ChooseQuiz();
        outcome := Rerun();
        return;
      }
      if ragChain.Some? && mode.None? && e.DoubtClicked? {
        ChooseDoubt();
        outcome := Rerun();
        return;
      }
      outcome := RunSections(e);
    }

    /** The quiz and doubt sections of a pass. */
    method RunSections(e: Event) returns (outcome: Outcome)
      modifies this
      ensures Pass(Snapshot(), outcome) == Sections(old(Snapshot()), e)
    {
      if mode == Some(QuizMode) {
        var phase := Phase(Snapshot());
        match phase
        case AwaitingTopic =>
          if e.TopicSubmitted? && e.topic != [] {
            if ragChain.None? || e.reply.None? {
              outcome := Crashed;
            } else {
              var qs := Quiz.GenerateTopicQuestions(e.reply.value);
              if qs == [] {
                outcome := NoQuestions;
              } else {
                StartQuiz(e.topic, qs);
                outcome := Rerun();
              }
            }
          } else {
            outcome := Shown;
          }
        case Asking(n) =>
          var current := CurrentQuestion();
          if e.AnswerSubmitted? {
            SubmitAnswer(e.answer);
            outcome := Rerun();
          } else {
            outcome := Shown;
          }
        case Raising => outcome := Crashed;
        case Completed => outcome := QuizCompleted;
        case _ => outcome := Shown;
      } else if mode == Some(DoubtMode) {
        if e.DoubtAsked? && e.input != [] {
          RecordQuestion(e.input);
          if ragChain.None? || e.response.None? {
            outcome := Crashed;
          } else {
            RecordAnswer(e.response.value);
            outcome := Shown;
          }
        } else {
          outcome := Shown;
        }
      } else {
        outcome := Shown;
      }
    }
  }
}
