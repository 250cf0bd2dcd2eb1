/** The conversation orchestrator: the state machine that asks the standardized questions in
    order, records answers, lets the patient interrupt with chat questions, and builds the
    deterministic parts of the final summary from the conversation and its transcript.

    The chatbot is an oracle: a function from the user's text, the transcript and a context
    string to the answer text. The clock reading that every message built here carries (the
    record's one default timestamp) is the constant `defaultTs`. */
module Orchestrator {
  import opened Wrappers
  import opened Text
  import opened DomainModels
  import opened QuestionFlow
  import opened TranscriptStore

  datatype OrchestratorResult = OrchestratorResult(botText: Option<string>, done: bool)

  /** Chat mode with a chatbot when the questionnaire is already over: the source reads the
      text of a current question that does not exist and raises. */
  datatype OrchestratorError = NoCurrentQuestion

  /** The chatbot's `answer(user_text, transcript, context)`. */
  type ChatOracle = (string, seq<Message>, string) -> string

  /** The fields of a conversation that the orchestrator reads and writes. */
  datatype Snapshot = Snapshot(
    state: ConversationState,
    index: int,
    active: Option<string>,
    answers: map<string, string>)

  /** What one orchestrator call does: the conversation afterwards, the messages it appended
      to the conversation's transcript, in order, and what it returns. */
  datatype Outcome = Outcome(
    after: Snapshot,
    appended: seq<Message>,
    result: Result<OrchestratorResult, OrchestratorError>)

  const Complete := "Questionnaire complete."
  const ChatbotMissing := "Chatbot not available."
  const BackToQuestionnaire := "\n\n---\nBack to the questionnaire:\n"

  /** A new conversation's fields. */
  const Initial := Snapshot(FlowAsking, 0, None, map[])

  // ----- Specification of one call -----

  /** `_ask_current_question`: finish when there is no current question, otherwise make it the
      active one and show its text. */
  function Ask(questions: seq<Question>, s: Snapshot, ts: int): (o: Outcome)
    ensures o.result.Ok? && |o.appended| == 1 && o.appended[0].role == System
    ensures o.after.index == s.index && o.after.answers == s.answers
    ensures QuestionAt(questions, s.index).None? ==>
      && o.after == s.(state := Done)
      && o.appended[0] == DefaultMessage(System, Complete, ts)
      && o.result.value == OrchestratorResult(Some(Complete), true)
    ensures QuestionAt(questions, s.index).Some? ==>
      var q := questions[s.index];
      && o.after == s.(state := FlowWaitingAnswer, active := Some(q.id))
      && o.appended[0].content == q.text
      && o.appended[0].meta == map["question_id" := Text(q.id), "channel" := Text("questionnaire")]
      && o.result.value == OrchestratorResult(Some(q.text), false)
  {
    match QuestionAt(questions, s.index)
    case None =>
      Outcome(s.(state := Done), [DefaultMessage(System, Complete, ts)],
              Ok(OrchestratorResult(Some(Complete), true)))
    case Some(q) =>
      Outcome(s.(state := FlowWaitingAnswer, active := Some(q.id)),
              [Message(System, q.text, ts, map["question_id" := Text(q.id), "channel" := Text("questionnaire")])],
              Ok(OrchestratorResult(Some(q.text), false)))
  }

  /** The message that records what the patient typed, tagged with the mode. */
  function PatientMessage(userText: string, mode: Mode, ts: int): Message {
    Message(Patient, userText, ts, map["mode" := Text(mode.Value())])
  }

  /** Answer mode: record the answer under the active question id when that id is set and
      non-empty (Python's truthiness), advance one question and ask the next. */
  function AnswerStep(questions: seq<Question>, s: Snapshot, userText: string, ts: int): (o: Outcome)
    ensures o.after.index == s.index + 1 && |o.appended| == 2
    ensures s.active.Some? && s.active.value != "" ==>
      o.after.answers == s.answers[s.active.value := userText]
    ensures s.active.None? || s.active.value == "" ==> o.after.answers == s.answers
    ensures o.appended[0] == PatientMessage(userText, Answer, ts)
    ensures o.appended[1..] == Ask(questions, s.(index := s.index + 1), ts).appended
    ensures var asked := Ask(questions, Snapshot(FlowWaitingAnswer, s.index + 1, None, o.after.answers), ts);
      o.after == asked.after && o.result == asked.result
  {
    var recorded :=
      if s.active.Some? && s.active.value != "" then s.answers[s.active.value := userText] else s.answers;
    var advanced := Snapshot(FlowWaitingAnswer, s.index + 1, None, recorded);
    var asked := Ask(questions, advanced, ts);
    Outcome(asked.after, [PatientMessage(userText, Answer, ts)] + asked.appended, asked.result)
  }

  /** One line of the chat context per answered question. */
  function AnsweredLine(item: AnswerItem): string {
    "- " + item.question + " -> " + item.answer
  }

  /** The answered-questions block of the chat context: the lines joined by newlines, or
      "None yet." when there are none. */
  function AnsweredLines(items: seq<AnswerItem>): (r: string)
    ensures items == [] ==> r == "None yet."
    ensures items != [] ==> |r| >= 2 && r[..2] == "- "
  {
    var joined := Join(seq(|items|, i requires 0 <= i < |items| => AnsweredLine(items[i])), "\n");
    if joined == "" then "None yet." else joined
  }

  /** The context the chatbot receives: the current question and what has been answered. */
  function ChatContext(q: Question, items: seq<AnswerItem>): string {
    "Current standardized question: '" + q.text + "' (id=" + q.id + ").\n"
    + "Standardized questions answered so far:\n" + AnsweredLines(items) + "\n"
    + "If the user asks what has been asked/answered so far, use this list."
  }

  /** Chat mode: without a chatbot, say so and re-ask; with one, answer through it, then
      re-show the current question without moving on. */
  function ChatStep(questions: seq<Question>, chatbot: Option<ChatOracle>, s: Snapshot,
                    transcript: seq<Message>, userText: string, ts: int): (o: Outcome)
    ensures o.after.index == s.index && o.after.answers == s.answers
    ensures |o.appended| >= 1 && o.appended[0] == PatientMessage(userText, Chat, ts)
    ensures chatbot.None? ==>
      && |o.appended| == 3
      && o.appended[1] == DefaultMessage(Assistant, ChatbotMissing, ts)
      && o.appended[2..] == Ask(questions, s, ts).appended
      && o.after == Ask(questions, s, ts).after
      && o.result == Ask(questions, s, ts).result
    ensures chatbot.Some? && QuestionAt(questions, s.index).None? ==>
      o == Outcome(s.(state := ChatMode), [PatientMessage(userText, Chat, ts)], Err(NoCurrentQuestion))
    ensures chatbot.Some? && QuestionAt(questions, s.index).Some? ==>
      var q := questions[s.index];
      var answer := chatbot.value(userText, transcript + [PatientMessage(userText, Chat, ts)],
                                  ChatContext(q, AnsweredItems(questions, s.answers)));
      && o.after == s.(state := FlowWaitingAnswer, active := Some(q.id))
      && o.appended == [PatientMessage(userText, Chat, ts),
                        Message(Assistant, answer, ts, map["mode" := Text("chat")]),
                        Message(System, q.text, ts, map["question_id" := Text(q.id), "reask" := Flag(true)])]
      && o.result == Ok(OrchestratorResult(Some(answer + BackToQuestionnaire + q.text), false))
  {
    var patient := PatientMessage(userText, Chat, ts);
    match chatbot
    case None =>
      var asked := Ask(questions, s, ts);
      Outcome(asked.after, [patient, DefaultMessage(Assistant, ChatbotMissing, ts)] + asked.appended, asked.result)
    case Some(answerFn) =>
      match QuestionAt(questions, s.index)
      case None => Outcome(s.(state := ChatMode), [patient], Err(NoCurrentQuestion))
      case Some(q) =>
        var answer := answerFn(userText, transcript + [patient], ChatContext(q, AnsweredItems(questions, s.answers)));
        Outcome(s.(state := FlowWaitingAnswer, active := Some(q.id)),
                [patient,
                 Message(Assistant, answer, ts, map["mode" := Text("chat")]),
                 Message(System, q.text, ts, map["question_id" := Text(q.id), "reask" := Flag(true)])],
                Ok(OrchestratorResult(Some(answer + BackToQuestionnaire + q.text), false)))
  }

  /** `handle_user_message` as a function of the conversation's fields and transcript. */
  function Handle(questions: seq<Question>, chatbot: Option<ChatOracle>, s: Snapshot,
                  transcript: seq<Message>, userText: string, mode: Mode, ts: int): (o: Outcome)
    ensures |o.appended| >= 1 && o.appended[0] == PatientMessage(userText, mode, ts)
    ensures mode == Answer ==> o == AnswerStep(questions, s, userText, ts)
    ensures mode == Chat ==> o == ChatStep(questions, chatbot, s, transcript, userText, ts)
  {
    if mode == Chat then ChatStep(questions, chatbot, s, transcript, userText, ts)
    else AnswerStep(questions, s, userText, ts)
  }

  /** Only an answer moves the questionnaire on, by exactly one question; a chat message never
      changes the question index or the recorded answers. */
  lemma OnlyAnswersAdvance(questions: seq<Question>, chatbot: Option<ChatOracle>, s: Snapshot,
                           transcript: seq<Message>, userText: string, mode: Mode, ts: int)
    ensures var o := Handle(questions, chatbot, s, transcript, userText, mode, ts);
      && (mode == Answer ==> o.after.index == s.index + 1)
      && (mode == Chat ==> o.after.index == s.index && o.after.answers == s.answers)
  {
  }

  // ----- Answering the whole questionnaire -----

  /** The conversation after `start` and then one answer per text, in order. */
  function AnswerAll(questions: seq<Question>, texts: seq<string>, ts: int): Snapshot
    decreases |texts|
  {
    if texts == [] then Ask(questions, Initial, ts).after
    else AnswerStep(questions, AnswerAll(questions, texts[..|texts| - 1], ts), texts[|texts| - 1], ts).after
  }

  predicate DistinctIds(questions: seq<Question>) {
    forall i, j | 0 <= i < j < |questions| :: questions[i].id != questions[j].id
  }

  predicate NonEmptyIds(questions: seq<Question>) {
    forall i | 0 <= i < |questions| :: questions[i].id != ""
  }

  /** The answers recorded after answering the first `k` questions with `texts`. */
  function AnswersOf(questions: seq<Question>, texts: seq<string>, k: nat): map<string, string>
    requires k <= |questions| && k <= |texts|
  {
    if k == 0 then map[] else AnswersOf(questions, texts, k - 1)[questions[k - 1].id := texts[k - 1]]
  }

  /** After `start` and `k` answers (no more than there are questions) the conversation waits on
      question `k` -- or is done when `k` is the number of questions -- and every answered
      question's id maps to the text given for it. */
  lemma {:induction false} AnswerAllState(questions: seq<Question>, texts: seq<string>, ts: int)
    requires |texts| <= |questions| && NonEmptyIds(questions)
    ensures var s := AnswerAll(questions, texts, ts);
      && s.index == |texts|
      && s.answers == AnswersOf(questions, texts, |texts|)
      && (|texts| < |questions| ==> s.state == FlowWaitingAnswer && s.active == Some(questions[|texts|].id))
      && (|texts| == |questions| ==> s.state == Done && (|texts| > 0 ==> s.active == None))
    decreases |texts|
  {
    if texts != [] {
      var prev := texts[..|texts| - 1];
      AnswerAllState(questions, prev, ts);
      assert AnswersOf(questions, texts, |texts| - 1) == AnswersOf(questions, prev, |prev|) by {
        AnswersOfPrefix(questions, texts, prev, |prev|);
      }
    }
  }

  lemma {:induction false} AnswersOfPrefix(questions: seq<Question>, texts: seq<string>, prev: seq<string>, k: nat)
    requires k <= |prev| <= |texts| && k <= |questions| && prev == texts[..|prev|]
    ensures AnswersOf(questions, texts, k) == AnswersOf(questions, prev, k)
  {
    if k > 0 {
      AnswersOfPrefix(questions, texts, prev, k - 1);
    }
  }

  /** With distinct ids, question `i`'s answer is the `i`-th text. */
  lemma {:induction false} AnswersOfLookup(questions: seq<Question>, texts: seq<string>, k: nat, i: nat)
    requires k <= |questions| && k <= |texts| && i < k && DistinctIds(questions)
    ensures questions[i].id in AnswersOf(questions, texts, k)
    ensures AnswersOf(questions, texts, k)[questions[i].id] == texts[i]
  {
    if i < k - 1 {
      AnswersOfLookup(questions, texts, k - 1, i);
    }
  }

  /** Only ids of answered questions have answers. */
  lemma {:induction false} AnswersOfKeys(questions: seq<Question>, texts: seq<string>, k: nat, i: nat)
    requires k <= |questions| && k <= |texts| && k <= i < |questions| && DistinctIds(questions)
    ensures questions[i].id !in AnswersOf(questions, texts, k)
  {
    if k > 0 {
      AnswersOfKeys(questions, texts, k - 1, i);
    }
  }

  // ----- build_questionnaire_answers -----

  datatype AnswerItem = AnswerItem(questionId: string, question: string, answer: string)

  /** The answered questions, in question order, each with its recorded answer. */
  function AnsweredItems(questions: seq<Question>, answers: map<string, string>): (r: seq<AnswerItem>)
    ensures |r| <= |questions|
    decreases |questions|
  {
    if questions == [] then []
    else
      var q := questions[0];
      (if q.id in answers then [AnswerItem(q.id, q.text, answers[q.id])] else [])
      + AnsweredItems(questions[1..], answers)
  }

  /** An item is listed exactly when it is some question with a recorded answer, paired with
      that answer. */
  lemma {:induction false} AnsweredItemsMembers(questions: seq<Question>, answers: map<string, string>, item: AnswerItem)
    ensures item in AnsweredItems(questions, answers) <==>
      exists i | 0 <= i < |questions| ::
        questions[i].id in answers && item == AnswerItem(questions[i].id, questions[i].text, answers[questions[i].id])
    decreases |questions|
  {
    if questions != [] {
      AnsweredItemsMembers(questions[1..], answers, item);
      var q := questions[0];
      if item in AnsweredItems(questions[1..], answers) {
        var i :| 0 <= i < |questions[1..]| && questions[1..][i].id in answers
          && item == AnswerItem(questions[1..][i].id, questions[1..][i].text, answers[questions[1..][i].id]);
        assert questions[i + 1] == questions[1..][i];
      }
      if exists i | 0 <= i < |questions| ::
        questions[i].id in answers && item == AnswerItem(questions[i].id, questions[i].text, answers[questions[i].id])
      {
        var i :| 0 <= i < |questions| && questions[i].id in answers
          && item == AnswerItem(questions[i].id, questions[i].text, answers[questions[i].id]);
        if i > 0 {
          assert questions[1..][i - 1] == questions[i];
        }
      }
    }
  }

  /** When every question has an answer, the list pairs each question, in order, with its answer. */
  lemma {:induction false} AllAnsweredListsAll(questions: seq<Question>, answers: map<string, string>)
    requires forall i | 0 <= i < |questions| :: questions[i].id in answers
    ensures var r := AnsweredItems(questions, answers);
      |r| == |questions| &&
      forall i | 0 <= i < |questions| ::
        r[i] == AnswerItem(questions[i].id, questions[i].text, answers[questions[i].id])
    decreases |questions|
  {
    if questions != [] {
      AllAnsweredListsAll(questions[1..], answers);
      var r := AnsweredItems(questions, answers);
      forall i | 0 <= i < |questions|
        ensures r[i] == AnswerItem(questions[i].id, questions[i].text, answers[questions[i].id])
      {
        if i > 0 {
          assert questions[1..][i - 1] == questions[i];
        }
      }
    }
  }

  /** End to end: answering every question in turn (ids distinct and non-empty) finishes the
      questionnaire, and the summary's answer list pairs each question with its text. */
  lemma AnsweringEverythingListsEveryAnswer(questions: seq<Question>, texts: seq<string>, ts: int)
    requires |texts| == |questions| && DistinctIds(questions) && NonEmptyIds(questions)
    ensures AnswerAll(questions, texts, ts).state == Done
    ensures AnsweredItems(questions, AnswerAll(questions, texts, ts).answers)
      == seq(|questions|, i requires 0 <= i < |questions| => AnswerItem(questions[i].id, questions[i].text, texts[i]))
  {
    AnswerAllState(questions, texts, ts);
    var answers := AnswerAll(questions, texts, ts).answers;
    forall i | 0 <= i < |questions| ensures questions[i].id in answers && answers[questions[i].id] == texts[i] {
      AnswersOfLookup(questions, texts, |texts|, i);
    }
    AllAnsweredListsAll(questions, answers);
  }

  /** When exactly the first `k` questions have answers, the list is those `k` questions, in
      order, each with its answer. */
  lemma {:induction false} AnsweredPrefix(questions: seq<Question>, answers: map<string, string>, k: nat)
    requires k <= |questions|
    requires forall i | 0 <= i < |questions| :: questions[i].id in answers <==> i < k
    ensures AnsweredItems(questions, answers)
      == seq(k, i requires 0 <= i < k => AnswerItem(questions[i].id, questions[i].text, answers[questions[i].id]))
    decreases |questions|
  {
    if questions != [] {
      var rest := questions[1..];
      var k' := if k > 0 then k - 1 else 0;
      forall i | 0 <= i < |rest| ensures rest[i].id in answers <==> i < k' {
        assert rest[i] == questions[i + 1];
      }
      AnsweredPrefix(rest, answers, k');
      var listed := seq(k, i requires 0 <= i < k => AnswerItem(questions[i].id, questions[i].text, answers[questions[i].id]));
      var tail := seq(k', i requires 0 <= i < k' => AnswerItem(rest[i].id, rest[i].text, answers[rest[i].id]));
      if k > 0 {
        assert listed == [listed[0]] + tail;
      } else {
        assert questions[0].id !in answers;
      }
    }
  }

  /** Stopping half-way lists exactly the questions answered so far, in question order, each
      with the text given for it. */
  lemma PartialAnswersListed(questions: seq<Question>, texts: seq<string>, ts: int)
    requires |texts| < |questions| && DistinctIds(questions) && NonEmptyIds(questions)
    ensures AnsweredItems(questions, AnswerAll(questions, texts, ts).answers)
      == seq(|texts|, i requires 0 <= i < |texts| => AnswerItem(questions[i].id, questions[i].text, texts[i]))
  {
    AnswerAllState(questions, texts, ts);
    var answers := AnswerAll(questions, texts, ts).answers;
    forall i | 0 <= i < |questions|
      ensures questions[i].id in answers <==> i < |texts|
      ensures i < |texts| ==> answers[questions[i].id] == texts[i]
    {
      if i < |texts| {
        AnswersOfLookup(questions, texts, |texts|, i);
      } else {
        AnswersOfKeys(questions, texts, |texts|, i);
      }
    }
    AnsweredPrefix(questions, answers, |texts|);
  }

  // ----- build_patient_questions -----

  datatype QaPair = QaPair(question: string, answer: string)

  /** The message's meta says it belongs to a chat exchange. */
  predicate IsChat(m: Message) {
    "mode" in m.meta && m.meta["mode"] == Text("chat")
  }

  /** The chat question still waiting for an answer after reading `ms`. */
  function Pending(ms: seq<Message>): Option<string>
    decreases |ms|
  {
    if ms == [] then None
    else
      var m := ms[|ms| - 1];
      if m.role == Patient && IsChat(m) then Some(m.content)
      else if m.role == Assistant && IsChat(m) && Pending(ms[..|ms| - 1]).Some? then None
      else Pending(ms[..|ms| - 1])
  }

  /** The question/answer pairs closed while reading `ms`: a chat answer closes the pending
      chat question. */
  function Closed(ms: seq<Message>): (r: seq<QaPair>)
    decreases |ms|
  {
    if ms == [] then []
    else
      var m := ms[|ms| - 1];
      var prev := ms[..|ms| - 1];
      if m.role == Assistant && IsChat(m) && Pending(prev).Some? then
        Closed(prev) + [QaPair(Pending(prev).value, m.content)]
      else Closed(prev)
  }

  /** `build_patient_questions`: the closed pairs, then the unanswered question, if any, with
      answer "". */
  function PatientQuestions(ms: seq<Message>): seq<QaPair> {
    Closed(ms) + (if Pending(ms).Some? then [QaPair(Pending(ms).value, "")] else [])
  }

  /** Messages outside chat mode are ignored. */
  lemma NonChatIgnored(ms: seq<Message>, m: Message)
    requires !IsChat(m)
    ensures PatientQuestions(ms + [m]) == PatientQuestions(ms)
  {
    assert (ms + [m])[..|ms|] == ms;
  }

  /** A chat question followed by a chat answer adds exactly that pair, whatever was pending. */
  lemma ChatExchangeAddsPair(ms: seq<Message>, question: Message, answer: Message)
    requires question.role == Patient && IsChat(question)
    requires answer.role == Assistant && IsChat(answer)
    ensures Closed(ms + [question, answer]) == Closed(ms) + [QaPair(question.content, answer.content)]
    ensures Pending(ms + [question, answer]).None?
  {
    var ms1 := ms + [question];
    assert (ms + [question, answer])[..|ms1|] == ms1;
    assert ms1[..|ms|] == ms;
  }

  /** A newer chat question replaces an unanswered one. */
  lemma NewerQuestionReplacesPending(ms: seq<Message>, question: Message)
    requires question.role == Patient && IsChat(question)
    ensures Pending(ms + [question]) == Some(question.content)
    ensures Closed(ms + [question]) == Closed(ms)
  {
    assert (ms + [question])[..|ms|] == ms;
  }

  /** A chat answer with no question pending is dropped. */
  lemma UnpromptedAnswerDropped(ms: seq<Message>, answer: Message)
    requires answer.role == Assistant && IsChat(answer) && Pending(ms).None?
    ensures PatientQuestions(ms + [answer]) == PatientQuestions(ms)
  {
    assert (ms + [answer])[..|ms|] == ms;
  }

  /** What the orchestrator appends for a chat message answered by the chatbot yields exactly
      one question/answer pair in the summary. */
  lemma ChatTurnYieldsOnePair(questions: seq<Question>, answerFn: ChatOracle, s: Snapshot,
                              transcript: seq<Message>, userText: string, ts: int)
    requires QuestionAt(questions, s.index).Some?
    ensures var o := ChatStep(questions, Some(answerFn), s, transcript, userText, ts);
      PatientQuestions(transcript + o.appended)
        == Closed(transcript) + [QaPair(userText, o.appended[1].content)]
  {
    var o := ChatStep(questions, Some(answerFn), s, transcript, userText, ts);
    ChatExchangeAddsPair(transcript, o.appended[0], o.appended[1]);
    assert transcript + o.appended == (transcript + [o.appended[0], o.appended[1]]) + [o.appended[2]];
    NonChatIgnored(transcript + [o.appended[0], o.appended[1]], o.appended[2]);
  }

  // ----- The orchestrator object -----

  function SnapshotOf(conv: Conversation): Snapshot
    reads conv
  {
    Snapshot(conv.state, conv.questionIndex, conv.activeQuestionId, conv.answers)
  }

  class ConversationOrchestrator {
    const flow: JsonQuestionFlow
    const store: MemoryTranscriptStore
    const chatbot: Option<ChatOracle>
    const defaultTs: int

    constructor (flow: JsonQuestionFlow, store: MemoryTranscriptStore, chatbot: Option<ChatOracle>, defaultTs: int)
      ensures this.flow == flow && this.store == store && this.chatbot == chatbot && this.defaultTs == defaultTs
    {
      this.flow := flow;
      this.store := store;
      this.chatbot := chatbot;
      this.defaultTs := defaultTs;
    }

    /** `_ask_current_question`. */
    method AskCurrentQuestion(conv: Conversation) returns (res: OrchestratorResult)
      modifies conv, store
      ensures var o := Ask(flow.questions, old(SnapshotOf(conv)), defaultTs);
        && SnapshotOf(conv) == o.after
        && store.db == old(store.db)[conv.conversationId := old(Lookup(store.db, conv.conversationId)) + o.appended]
        && Ok(res) == o.result
    {
      var q := flow.GetQuestion(conv);
      if q.None? {
        conv.state := Done;
        store.AppendMessage(conv.conversationId, DefaultMessage(System, Complete, defaultTs));
        return OrchestratorResult(Some(Complete), true);
      }
      conv.state := FlowWaitingAnswer;
      conv.activeQuestionId := Some(q.value.id);
      store.AppendMessage(conv.conversationId,
        Message(System, q.value.text, defaultTs, map["question_id" := Text(q.value.id), "channel" := Text("questionnaire")]));
      return OrchestratorResult(Some(q.value.text), false);
    }

    method Start(conv: Conversation) returns (res: OrchestratorResult)
      modifies conv, store
      ensures var o := Ask(flow.questions, old(SnapshotOf(conv)), defaultTs);
        && SnapshotOf(conv) == o.after
        && store.db == old(store.db)[conv.conversationId := old(Lookup(store.db, conv.conversationId)) + o.appended]
        && Ok(res) == o.result
    {
      res := AskCurrentQuestion(conv);
    }

    /** `build_questionnaire_answers`: walks the indices with a scratch conversation until the
        flow has no question, collecting the answered ones. */
    method BuildQuestionnaireAnswers(conv: Conversation) returns (items: seq<AnswerItem>)
      ensures items == AnsweredItems(flow.questions, conv.answers)
    {
      items := [];
      var idx := 0;
      while true
        invariant 0 <= idx <= |flow.questions|
        invariant items + AnsweredItems(flow.questions[idx..], conv.answers) == AnsweredItems(flow.questions, conv.answers)
        decreases |flow.questions| - idx
      {
        var tmp := new Conversation(conv.conversationId);
        tmp.questionIndex := idx;
        var q := flow.GetQuestion(tmp);
        if q.None? {
          break;
        }
        assert flow.questions[idx..][1..] == flow.questions[idx + 1..];
        if q.value.id in conv.answers {
          items := items + [AnswerItem(q.value.id, q.value.text, conv.answers[q.value.id])];
        }
        idx := idx + 1;
      }
    }

    /** `build_patient_questions`: one pass over the transcript with the pending chat question. */
    method BuildPatientQuestions(transcript: seq<Message>) returns (out: seq<QaPair>)
      ensures out == PatientQuestions(transcript)
    {
      out := [];
      var pending: Option<string> := None;
      for i := 0 to |transcript|
        invariant out == Closed(transcript[..i]) && pending == Pending(transcript[..i])
      {
        var m := transcript[i];
        assert transcript[..i + 1][..i] == transcript[..i];
        if m.role == Patient && IsChat(m) {
          pending := Some(m.content);
        } else if m.role == Assistant && IsChat(m) && pending.Some? {
          out := out + [QaPair(pending.value, m.content)];
          pending := None;
        }
      }
      assert transcript[..|transcript|] == transcript;
      if pending.Some? {
        out := out + [QaPair(pending.value, "")];
      }
    }

    /** `handle_user_message`: stores the patient's message, then answers or chats. */
    method HandleUserMessage(conv: Conversation, userText: string, mode: Mode)
      returns (res: Result<OrchestratorResult, OrchestratorError>)
      modifies conv, store
      ensures var o := Handle(flow.questions, chatbot, old(SnapshotOf(conv)),
                              old(Lookup(store.db, conv.conversationId)), userText, mode, defaultTs);
        && SnapshotOf(conv) == o.after
        && store.db == old(store.db)[conv.conversationId := old(Lookup(store.db, conv.conversationId)) + o.appended]
        && res == o.result
    {
      ghost var s0 := SnapshotOf(conv);
      ghost var t0 := Lookup(store.db, conv.conversationId);
      ghost var db0 := store.db;
      store.AppendMessage(conv.conversationId, PatientMessage(userText, mode, defaultTs));
      assert store.db == db0[conv.conversationId := t0 + [PatientMessage(userText, mode, defaultTs)]];
      if mode == Chat {
        res := ChatTurn(conv, userText, s0, t0);
        ghost var o := ChatStep(flow.questions, chatbot, s0, t0, userText, defaultTs);
        assert store.db == db0[conv.conversationId := t0 + o.appended];
        assert Handle(flow.questions, chatbot, s0, t0, userText, mode, defaultTs) == o;
      } else {
        var r := AnswerTurn(conv, userText, s0, t0);
        res := Ok(r);
        ghost var o := AnswerStep(flow.questions, s0, userText, defaultTs);
        assert store.db == db0[conv.conversationId := t0 + o.appended];
        assert Handle(flow.questions, chatbot, s0, t0, userText, mode, defaultTs) == o;
      }
    }

    /** The chat branch of `handle_user_message`, after the patient's message is stored. */
    method ChatTurn(conv: Conversation, userText: string, ghost s0: Snapshot, ghost t0: seq<Message>)
      returns (res: Result<OrchestratorResult, OrchestratorError>)
      requires SnapshotOf(conv) == s0
      requires Lookup(store.db, conv.conversationId) == t0 + [PatientMessage(userText, Chat, defaultTs)]
      modifies conv, store
      ensures var o := ChatStep(flow.questions, chatbot, s0, t0, userText, defaultTs);
        && SnapshotOf(conv) == o.after
        && store.db == old(store.db)[conv.conversationId := t0 + o.appended]
        && res == o.result
    {
      if chatbot.None? {
        var r := ChatbotMissingTurn(conv, userText, s0, t0);
        res := Ok(r);
      } else {
        res := ChatbotTurn(conv, userText, s0, t0);
      }
    }

    /** Chat mode with a chatbot: answer through it, then re-ask the current question. */
    method ChatbotTurn(conv: Conversation, userText: string, ghost s0: Snapshot, ghost t0: seq<Message>)
      returns (res: Result<OrchestratorResult, OrchestratorError>)
      requires chatbot.Some?
      requires SnapshotOf(conv) == s0
      requires Lookup(store.db, conv.conversationId) == t0 + [PatientMessage(userText, Chat, defaultTs)]
      modifies conv, store
      ensures var o := ChatStep(flow.questions, chatbot, s0, t0, userText, defaultTs);
        && SnapshotOf(conv) == o.after
        && store.db == old(store.db)[conv.conversationId := t0 + o.appended]
        && res == o.result
    {
      var cid := conv.conversationId;
      conv.state := ChatMode;
      var transcript := store.Get(cid);
      var currentQ := flow.GetQuestion(conv);
      var answered := BuildQuestionnaireAnswers(conv);
      if currentQ.None? {
        return Err(NoCurrentQuestion);
      }
      var ctx := ChatContext(currentQ.value, answered);
      var answer := chatbot.value(userText, transcript, ctx);
      store.AppendMessage(cid, Message(Assistant, answer, defaultTs, map["mode" := Text("chat")]));
      var q := flow.GetQuestion(conv);
      conv.state := FlowWaitingAnswer;
      conv.activeQuestionId := Some(q.value.id);
      store.AppendMessage(cid, Message(System, q.value.text, defaultTs, map["question_id" := Text(q.value.id), "reask" := Flag(true)]));
      assert transcript == t0 + [PatientMessage(userText, Chat, defaultTs)];
      ghost var reask := Message(System, q.value.text, defaultTs, map["question_id" := Text(q.value.id), "reask" := Flag(true)]);
      ghost var reply := Message(Assistant, answer, defaultTs, map["mode" := Text("chat")]);
      assert t0 + [PatientMessage(userText, Chat, defaultTs)] + [reply] + [reask]
        == t0 + [PatientMessage(userText, Chat, defaultTs), reply, reask];
      return Ok(OrchestratorResult(Some(answer + BackToQuestionnaire + q.value.text), false));
    }

    /** Chat mode without a chatbot: say so and re-ask the current question. */
    method ChatbotMissingTurn(conv: Conversation, userText: string, ghost s0: Snapshot, ghost t0: seq<Message>)
      returns (res: OrchestratorResult)
      requires chatbot.None?
      requires SnapshotOf(conv) == s0
      requires Lookup(store.db, conv.conversationId) == t0 + [PatientMessage(userText, Chat, defaultTs)]
      modifies conv, store
      ensures var o := ChatStep(flow.questions, chatbot, s0, t0, userText, defaultTs);
        && SnapshotOf(conv) == o.after
        && store.db == old(store.db)[conv.conversationId := t0 + o.appended]
        && Ok(res) == o.result
    {
      store.AppendMessage(conv.conversationId, DefaultMessage(Assistant, ChatbotMissing, defaultTs));
      res := AskCurrentQuestion(conv);
      ghost var o := ChatStep(flow.questions, chatbot, s0, t0, userText, defaultTs);
      assert o.appended == [o.appended[0], o.appended[1]] + o.appended[2..];
      assert t0 + [PatientMessage(userText, Chat, defaultTs)] + [DefaultMessage(Assistant, ChatbotMissing, defaultTs)]
        + o.appended[2..] == t0 + o.appended;
    }

    /** The answer branch of `handle_user_message`, after the patient's message is stored. */
    method AnswerTurn(conv: Conversation, userText: string, ghost s0: Snapshot, ghost t0: seq<Message>)
      returns (res: OrchestratorResult)
      requires SnapshotOf(conv) == s0
      requires Lookup(store.db, conv.conversationId) == t0 + [PatientMessage(userText, Answer, defaultTs)]
      modifies conv, store
      ensures var o := AnswerStep(flow.questions, s0, userText, defaultTs);
        && SnapshotOf(conv) == o.after
        && store.db == old(store.db)[conv.conversationId := t0 + o.appended]
        && Ok(res) == o.result
    {
      if conv.state != FlowWaitingAnswer {
        conv.state := FlowWaitingAnswer;
      }
      var qid := conv.activeQuestionId;
      if qid.Some? && qid.value != "" {
        conv.answers := conv.answers[qid.value := userText];
      }
      var _ := flow.AdvanceWithAnswer(conv, userText);
      res := AskCurrentQuestion(conv);
      ghost var asked := Ask(flow.questions, SnapshotOf(conv), defaultTs);
      assert t0 + [PatientMessage(userText, Answer, defaultTs)] + AnswerStep(flow.questions, s0, userText, defaultTs).appended[1..]
        == t0 + AnswerStep(flow.questions, s0, userText, defaultTs).appended;
    }
  }
}
