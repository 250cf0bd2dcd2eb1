# Morton pre-anaesthesia assistant — a Dafny model

Morton helps prepare patients for anaesthesia, and it has two parts.

**The clinicians' web dashboard** holds a fixed list of six patients. It offers:
- free-text search over names and CPR numbers;
- lookup by id;
- a day schedule sorted by procedure time;
- a patient chat panel that answers from seven canned Danish texts, chosen by a first-match keyword classifier.

**The Python backend** interviews the patient before the operation:
- a conversation orchestrator asks standardized questions in order and records the answers;
- the patient can interrupt with free-form chat questions answered by a language model;
- an append-only transcript store keeps every message;
- a summarizer asks the model for a JSON summary, validates it against a schema inferred from a template, and retries;
- three smaller interview engines: a slot-filling engine with its question table, a keyword-driven anamnesis in five sections, and a dialog-slot picker.

The model has one Dafny module per source file:

| module | source |
|---|---|
| `Patients` | `WebPage/src/data/mockPatients.ts` |
| `PatientChatbot` | `WebPage/src/app/components/PatientChatbot.tsx` |
| `DomainModels` | `Morton/app/domain/models.py` |
| `QuestionFlow` | `Morton/app/adapters/question_flow_json.py` |
| `TranscriptStore` | `AnesthAI_backend/app/adapters/store_memory.py` |
| `Orchestrator` | `AnesthAI_backend/app/application/orchestrator.py` |
| `OllamaChatbot` | `AnesthAI_backend/app/adapters/ollama_chatbot.py` |
| `TemplateSchema` | `AnesthAI_backend/app/adapters/template_schema.py` |
| `Summarizer` | `Morton/app/adapters/ollama_summarizer.py` |
| `SlotQuestions` | `Morton/ToGood2Go/questions.py` |
| `ConversationEngine` | `AnesthAI_backend/ToGood2Go/conversation_engine.py` |
| `Anamnese` | `Morton/ToGood2Go/main.py` |
| `DialogManager` | `AnesthAI_backend/ToGood2Go/services/dialog_manager.py` |

Two shared modules support them. `Wrappers` holds `Option` and `Result`. `Text` holds lower-casing, substring search, Python `strip` and JavaScript `trim`, `find`/`rfind`, `rstrip` and Python's negative slice `s[-n:]`.

**Form.** Each module takes the source's own form:
- Objects whose methods update fields are classes with `modifies` clauses. These are:
  - the conversation;
  - the transcript store;
  - the orchestrator;
  - the engine state;
  - the anamnesis state;
  - the session store;
  - the chat panel.
- Each of those methods is proved against a specification function, and the lemmas are stated about that function. Examples: `Ask`, `AnswerStep` and `ChatStep` for the orchestrator; `AppendTo` for the store; `ApplyUpdates` for the engine.
- Every source loop is a Dafny loop with its invariants, proved against a specification function. Accumulating loops are proved against that function on the prefix read so far; `BuildQuestionnaireAnswers` is proved against the items of the questions still to visit; the search loops (`Engine.NextQuestion`, `GetNextTopic`, `GetNextQuestion`) keep the first-match search from the current position equal to the search from the start.
- Pure code is written as functions and lemmas: the queries, the classifier, the schema inference and `_extract_json`.

**Oracles.** The language model and the JSON library are parameters:
- the chatbot's `answer` is a function from (text, transcript, context) to the reply;
- the summarizer takes the model's reply to each request, plus `json.loads`, `json.dumps` and the text of `jsonschema.validate`'s error message, as fields of an `Oracles` value; whether a document is valid is decided by `TemplateSchema.Conforms`;
- the anamnesis prompt takes Python's `repr` of the answers as a function.

**Clock.** The clock reading that `Message.ts` takes at import time is a parameter (`defaultTs`).

**Code and documentation disagree: chat mode after the last question.**
- Lines 85-88 of `orchestrator.py` handle "no current question" after a chat answer. That branch is unreachable: line 72 has already read `current_q.text` and raised when there is no current question.
- The model follows the code. `ChatStep` returns `Err(NoCurrentQuestion)`.
- By then the patient message has been stored and the state set to `CHAT_MODE`; the chatbot is not consulted.

**Code and documentation disagree: the numeric template.**
- The docstring of `template_to_json_schema` (line 12 of `template_schema.py`) says a `0` in the template means "number".
- Lines 24-25 infer `{"type": "integer"}` for it; only a float template such as `0.0` gives "number".
- The model follows the code: a field templated as `0` rejects 72.5 but accepts 70.0, since JSON Schema from draft 6 on counts a number with a zero fractional part as an integer.

## Model

| member | source | states |
|---|---|---|
| `Text.Lower` | WebPage/src/data/mockPatients.ts:251 | lower-casing keeps the length and maps each character through the Latin-1 lower-case mapping |
| `Text.LowerIdempotent` | WebPage/src/app/components/PatientChatbot.tsx:33 | lower-casing twice is lower-casing once |
| `Text.Strip` | Morton/app/adapters/ollama_summarizer.py:18 | the result starts after the leading whitespace, runs up to the trailing whitespace (everything after it is whitespace), and does not start or end with whitespace |
| `Text.StripIdempotent` | Morton/app/adapters/ollama_summarizer.py:18 | stripping twice is stripping once |
| `Text.Find` | Morton/app/adapters/ollama_summarizer.py:22 | -1 iff the character is absent; otherwise the index of its first occurrence |
| `Text.RFind` | Morton/app/adapters/ollama_summarizer.py:23 | -1 iff the character is absent; otherwise the index of its last occurrence |
| `Text.RStripChar` | AnesthAI_backend/app/adapters/ollama_chatbot.py:25 | the longest prefix not ending in the character, with only that character removed |
| `Text.PySuffix` | AnesthAI_backend/app/adapters/ollama_chatbot.py:39 | `s[-n:]`: for n > 0 the last `min(n, len)` elements; for n = 0 the whole sequence |
| `Patients.TimeOrderIsChronological` | WebPage/src/data/mockPatients.ts:264-267 | on zero-padded "HH:MM" strings, code-point order is time-of-day order |
| `Patients.FilterMatches` | WebPage/src/data/mockPatients.ts:252-257 | an order-preserving subsequence of the store holding exactly the matching records, each as many times as the store holds it |
| `Patients.SearchPatients` | WebPage/src/data/mockPatients.ts:248-258 | a blank query returns the whole store in order; any other query returns exactly the records whose first name, last name or "first last" contains the lower-cased query, or whose CPR number contains the query as typed, in store order and with their multiplicity in the store |
| `Patients.DigitQueryMatchesCprOnly` | WebPage/src/data/mockPatients.ts:251-256 | a query that starts with a digit matches only through the CPR number |
| `Patients.CprQueryMatchesByCpr` | WebPage/src/data/mockPatients.ts:251-257 | an 11-character query starting with a digit (as long as a "DDMMYY-NNNN" CPR number) matches a stored record iff it is that record's CPR number |
| `Patients.SearchByCprFindsAnna` | WebPage/src/data/mockPatients.ts:248-258 | searching "010190-1234" returns exactly the record with id "1" |
| `Patients.FindById` | WebPage/src/data/mockPatients.ts:260-262 | none iff no record has the id; otherwise a stored record with that id, the first one |
| `Patients.FindByIdUnique` | WebPage/src/data/mockPatients.ts:260-262 | with unique ids, looking up a record's id finds that record |
| `Patients.OnDay` | WebPage/src/data/mockPatients.ts:266 | exactly the records on the given calendar day |
| `Patients.OnDayKeepsMultiplicity` | WebPage/src/data/mockPatients.ts:266 | each record of the day appears as many times as in the store, any other record not at all |
| `Patients.OnDayIsSubsequence` | WebPage/src/data/mockPatients.ts:265-266 | the day filter keeps store order |
| `Patients.SortByTime` | WebPage/src/data/mockPatients.ts:267 | the sort is a permutation of its input |
| `Patients.SortByTimeSorted` | WebPage/src/data/mockPatients.ts:267 | the sort's output is ascending by procedure time |
| `Patients.SortByTimeStable` | WebPage/src/data/mockPatients.ts:267 | records with equal times keep their relative order |
| `Patients.ScheduledPatients` | WebPage/src/data/mockPatients.ts:264-268 | exactly the records on the day, as a permutation of the day filter |
| `Patients.ScheduledPatientsOrdered` | WebPage/src/data/mockPatients.ts:264-268 | the schedule is ascending by time, and ties keep store order |
| `Patients.ScheduleOfJanuary24` | WebPage/src/data/mockPatients.ts:264-268 | 2026-01-24 gives Anna 08:00, Erik 08:30, Sofie 11:30 |
| `Patients.ScheduleOfEmptyDay` | WebPage/src/data/mockPatients.ts:264-268 | a day without procedures gives the empty list |
| `Patients.MockPatientsWellFormed` | WebPage/src/data/mockPatients.ts:34-246 | ids are pairwise distinct, every time is a zero-padded "HH:MM", and every ASA class is 1 to 5 |
| `PatientChatbot.ClassifyIsFirstMatch` | WebPage/src/app/components/PatientChatbot.tsx:32-50 | the if/else chain is the first-match rule over the keyword groups in table order |
| `PatientChatbot.GetBotResponse` | WebPage/src/app/components/PatientChatbot.tsx:32-50 | the reply is the canned text of the first keyword group the lower-cased message mentions, so it is one of the seven texts |
| `PatientChatbot.ClassifyDefaultIffNoKeyword` | WebPage/src/app/components/PatientChatbot.tsx:33-49 | the default text is given iff no keyword of any group occurs |
| `PatientChatbot.ClassifyPicksEarliestGroup` | WebPage/src/app/components/PatientChatbot.tsx:33-47 | the first group with a keyword hit wins, whatever later groups match |
| `PatientChatbot.RiskOutranksPain` | WebPage/src/app/components/PatientChatbot.tsx:37-46 | a message mentioning "risk" gets the prepare or risks text, never the pain text |
| `PatientChatbot.ClassifyIgnoresCase` | WebPage/src/app/components/PatientChatbot.tsx:33 | lower-casing the message first changes nothing |
| `PatientChatbot.Suggestion1MentionsNoKeyword` | WebPage/src/app/components/PatientChatbot.tsx:14 | the first suggested question contains none of the eighteen keywords |
| `PatientChatbot.Suggestion2MentionsNoKeyword` | WebPage/src/app/components/PatientChatbot.tsx:15 | the second suggested question contains none of the keywords |
| `PatientChatbot.Suggestion3MentionsNoKeyword` | WebPage/src/app/components/PatientChatbot.tsx:16 | the third suggested question contains none of the keywords |
| `PatientChatbot.Suggestion4MentionsNoKeyword` | WebPage/src/app/components/PatientChatbot.tsx:17 | the fourth suggested question contains none of the keywords |
| `PatientChatbot.Suggestion5MentionsNoKeyword` | WebPage/src/app/components/PatientChatbot.tsx:18 | the fifth suggested question contains none of the keywords |
| `PatientChatbot.Suggestion6MentionsNoKeyword` | WebPage/src/app/components/PatientChatbot.tsx:19 | the sixth suggested question contains none of the keywords |
| `PatientChatbot.SuggestedQuestionsGetDefault` | WebPage/src/app/components/PatientChatbot.tsx:13-50 | each of the six suggested questions gets the default text |
| `PatientChatbot.AfterSendEffect` | WebPage/src/app/components/PatientChatbot.tsx:72-93 | a blank send leaves the list unchanged; any other send appends the trimmed text as a user message, then the reply to the untrimmed text as a bot message |
| `PatientChatbot.AfterSendAlternates` | WebPage/src/app/components/PatientChatbot.tsx:53-93 | a send preserves "greeting first, then alternating user and bot messages" |
| `PatientChatbot.SendAllLength` | WebPage/src/app/components/PatientChatbot.tsx:72-93 | after a series of sends the list has grown by two per non-blank text |
| `PatientChatbot.SendAllAlternates` | WebPage/src/app/components/PatientChatbot.tsx:72-93 | any series of sends preserves the alternation |
| `PatientChatbot.SuggestionsUntilFirstSend` | WebPage/src/app/components/PatientChatbot.tsx:164 | from the greeting, the list has length 1, so suggestions are shown, iff no text has been accepted |
| `PatientChatbot.SuggestionClickGetsDefaultAnswer` | WebPage/src/app/components/PatientChatbot.tsx:96-98 | clicking a suggestion on the opening screen appends it and the default text |
| `PatientChatbot.ChatSession.constructor` | WebPage/src/app/components/PatientChatbot.tsx:53-61 | the history starts as the one bot greeting, and the input is empty |
| `PatientChatbot.ChatSession.HandleSendMessage` | WebPage/src/app/components/PatientChatbot.tsx:72-94 | the new list is the send's effect on the old one; the input is cleared unless the text was blank |
| `PatientChatbot.ChatSession.HandleSuggestedQuestion` | WebPage/src/app/components/PatientChatbot.tsx:96-98 | sends the question as if typed |
| `DomainModels.ParseRole` | Morton/app/domain/models.py:8-11 | a role is found iff the string is "system", "patient" or "assistant", and it has that value |
| `DomainModels.RoleRoundTrip` | Morton/app/domain/models.py:8-11 | parsing a role's value gives the role back |
| `DomainModels.RoleValuesDistinct` | Morton/app/domain/models.py:8-11 | different roles have different values |
| `DomainModels.ParseMode` | Morton/app/domain/models.py:14-16 | a mode is found iff the string is "answer" or "chat" |
| `DomainModels.ModeRoundTrip` | Morton/app/domain/models.py:14-16 | parsing a mode's value gives the mode back |
| `DomainModels.ParseConversationState` | Morton/app/domain/models.py:38-43 | a state is found iff the string is one of the five values |
| `DomainModels.ConversationStateRoundTrip` | Morton/app/domain/models.py:38-43 | parsing a state's value gives the state back |
| `DomainModels.DefaultMessage` | Morton/app/domain/models.py:19-24 | a message built with defaults carries the one import-time timestamp and empty meta |
| `DomainModels.DefaultTimestampsCoincide` | Morton/app/domain/models.py:23 | any two default-stamped messages share a timestamp, so only list order orders them |
| `DomainModels.NewQuestion` | Morton/app/domain/models.py:27-35 | a question defaults to kind "free_text", required, with no help prompt, choices or validation |
| `DomainModels.Conversation.constructor` | Morton/app/domain/models.py:46-52 | a new conversation is in FLOW_ASKING at index 0, with no active question and no answers |
| `QuestionFlow.QuestionAt` | Morton/app/adapters/question_flow_json.py:17-20 | none iff the index is negative or past the end; otherwise the question at that index |
| `QuestionFlow.JsonQuestionFlow.constructor` | Morton/app/adapters/question_flow_json.py:11-15 | the flow serves the given questions |
| `QuestionFlow.JsonQuestionFlow.GetQuestion` | Morton/app/adapters/question_flow_json.py:17-20 | none iff the conversation's index is out of range; otherwise the question at its index |
| `QuestionFlow.JsonQuestionFlow.AdvanceWithAnswer` | Morton/app/adapters/question_flow_json.py:22-26 | the index goes up by exactly one and the active id is cleared, whatever the answer; state and answers are unchanged; the same object is returned |
| `QuestionFlow.JsonQuestionFlow.Walk` | Morton/app/adapters/question_flow_json.py:17-26 | serving a question and advancing once per answer from index 0 serves the first questions of the list in order (all of them when there are more answers than questions); afterwards the flow offers the question after the last answer, or none exactly when every question has been answered |
| `TranscriptStore.AppendTo` | AnesthAI_backend/app/adapters/store_memory.py:13-14 | the id's list gains the message at its end, created if absent; every other list is unchanged |
| `TranscriptStore.ReplayKeepsAppendOrder` | AnesthAI_backend/app/adapters/store_memory.py:13-14 | after any appends, each id holds its old list followed by the messages addressed to it, in append order |
| `TranscriptStore.FreshStoreAppends` | AnesthAI_backend/app/adapters/store_memory.py:10-17 | from a fresh store, k appends to one id give exactly those k messages in order |
| `TranscriptStore.MemoryTranscriptStore.constructor` | AnesthAI_backend/app/adapters/store_memory.py:10-11 | a fresh store returns the empty list for every id |
| `TranscriptStore.MemoryTranscriptStore.AppendMessage` | AnesthAI_backend/app/adapters/store_memory.py:13-14 | the store after `append` is `AppendTo` of the old store |
| `TranscriptStore.MemoryTranscriptStore.Get` | AnesthAI_backend/app/adapters/store_memory.py:16-17 | returns the id's list as a value (empty when absent), so later appends cannot change it |
| `Orchestrator.Ask` | AnesthAI_backend/app/application/orchestrator.py:29-43 | no current question: state DONE, one SYSTEM "Questionnaire complete." message, done. Otherwise: FLOW_WAITING_ANSWER, the active id is the question's id, one SYSTEM message with its text and `question_id` meta, and the text is returned not done |
| `Orchestrator.AnswerStep` | AnesthAI_backend/app/application/orchestrator.py:102-114 | the answer is recorded under the active id only when that id is set and non-empty; the state becomes FLOW_WAITING_ANSWER with the index advanced by one and the active id cleared; the resulting state and reply are exactly those of asking the next question from that snapshot |
| `Orchestrator.AnsweredLines` | AnesthAI_backend/app/application/orchestrator.py:67-69 | "None yet." for no answers, otherwise lines starting "- " |
| `Orchestrator.ChatStep` | AnesthAI_backend/app/application/orchestrator.py:56-100 | the index and answers never change. Without a chatbot: the ASSISTANT "Chatbot not available." and the re-ask. With a chatbot and no current question: an error after the patient message. Otherwise: the chat answer, then a SYSTEM re-ask with `reask`, and the answer + separator + question text |
| `Orchestrator.Handle` | AnesthAI_backend/app/application/orchestrator.py:50-114 | the patient message tagged with the mode comes first, then the answer or chat step |
| `Orchestrator.OnlyAnswersAdvance` | AnesthAI_backend/app/application/orchestrator.py:50-114 | an answer moves the index by exactly one; a chat message leaves the index and answers unchanged |
| `Orchestrator.AnswerAllState` | AnesthAI_backend/app/application/orchestrator.py:46-114 | for question ids that are all non-empty (an empty id is skipped by `if qid:`) and k at most the count: after start and k answers the index is k; the conversation waits on question k or is DONE when k is the count; the answers are the first k texts |
| `Orchestrator.AnswersOfLookup` | AnesthAI_backend/app/application/orchestrator.py:106-111 | with distinct ids, question i's recorded answer is the i-th text |
| `Orchestrator.AnswersOfKeys` | AnesthAI_backend/app/application/orchestrator.py:106-111 | questions not yet answered have no recorded answer |
| `Orchestrator.AnsweredItems` | AnesthAI_backend/app/application/orchestrator.py:135-151 | at most one item per question |
| `Orchestrator.AnsweredItemsMembers` | AnesthAI_backend/app/application/orchestrator.py:135-151 | an item is listed iff it is some question with a recorded answer, paired with that answer |
| `Orchestrator.AllAnsweredListsAll` | AnesthAI_backend/app/application/orchestrator.py:135-151 | when every question has an answer, the list pairs each question, in order, with its answer |
| `Orchestrator.AnsweringEverythingListsEveryAnswer` | AnesthAI_backend/app/application/orchestrator.py:102-151 | answering every question in turn ends DONE, and the final list pairs question i with text i |
| `Orchestrator.PartialAnswersListed` | AnesthAI_backend/app/application/orchestrator.py:135-151 | stopping after k answers lists exactly questions 0..k-1, in order, each with its id, its text and the answer given to it |
| `Orchestrator.NonChatIgnored` | AnesthAI_backend/app/application/orchestrator.py:153-166 | messages outside chat mode do not change the patient questions |
| `Orchestrator.ChatExchangeAddsPair` | AnesthAI_backend/app/application/orchestrator.py:156-162 | a chat question followed by a chat answer closes exactly that pair |
| `Orchestrator.NewerQuestionReplacesPending` | AnesthAI_backend/app/application/orchestrator.py:158-159 | a newer chat question replaces an unanswered one |
| `Orchestrator.UnpromptedAnswerDropped` | AnesthAI_backend/app/application/orchestrator.py:160 | a chat answer with nothing pending is dropped |
| `Orchestrator.ChatTurnYieldsOnePair` | AnesthAI_backend/app/application/orchestrator.py:153-166 | a chat turn answered by the chatbot adds exactly its question/answer pair to the patient questions |
| `Orchestrator.ConversationOrchestrator.constructor` | AnesthAI_backend/app/application/orchestrator.py:21-26 | keeps the flow, store and optional chatbot |
| `Orchestrator.ConversationOrchestrator.AskCurrentQuestion` | AnesthAI_backend/app/application/orchestrator.py:29-43 | the conversation, the store and the result are those of `Ask`; other conversations' transcripts are unchanged |
| `Orchestrator.ConversationOrchestrator.Start` | AnesthAI_backend/app/application/orchestrator.py:46-47 | `start` is asking the current question |
| `Orchestrator.ConversationOrchestrator.BuildQuestionnaireAnswers` | AnesthAI_backend/app/application/orchestrator.py:135-151 | the loop over scratch conversations yields `AnsweredItems` of the conversation's answers |
| `Orchestrator.ConversationOrchestrator.BuildPatientQuestions` | AnesthAI_backend/app/application/orchestrator.py:153-166 | the pass over the transcript yields the closed pairs, then the trailing question with answer "" |
| `Orchestrator.ConversationOrchestrator.HandleUserMessage` | AnesthAI_backend/app/application/orchestrator.py:50-114 | the conversation, the appended messages and the result are those of `Handle` |
| `Orchestrator.ConversationOrchestrator.ChatTurn` | AnesthAI_backend/app/application/orchestrator.py:56-100 | the chat branch's effect is that of `ChatStep` |
| `Orchestrator.ConversationOrchestrator.ChatbotTurn` | AnesthAI_backend/app/application/orchestrator.py:60-100 | with a chatbot, the effect is that of `ChatStep`: the chat answer and the re-ask, or the error when there is no current question |
| `Orchestrator.ConversationOrchestrator.ChatbotMissingTurn` | AnesthAI_backend/app/application/orchestrator.py:57-59 | without a chatbot, the effect is that of `ChatStep`: the notice, then the re-ask |
| `Orchestrator.ConversationOrchestrator.AnswerTurn` | AnesthAI_backend/app/application/orchestrator.py:102-114 | the answer branch's effect is that of `AnswerStep` |
| `OllamaChatbot.TurnOf` | AnesthAI_backend/app/adapters/ollama_chatbot.py:40-46 | a message yields a turn iff it is in chat mode and is an assistant message, or a patient message whose stripped text differs from the stripped user text; patient maps to "user" |
| `OllamaChatbot.KeptTurns` | AnesthAI_backend/app/adapters/ollama_chatbot.py:39-46 | at most one kept turn per message |
| `OllamaChatbot.KeptTurnsFromChatMessages` | AnesthAI_backend/app/adapters/ollama_chatbot.py:40-46 | every kept turn carries the text of a chat-mode patient or assistant message |
| `OllamaChatbot.NonChatMessagesDropped` | AnesthAI_backend/app/adapters/ollama_chatbot.py:40-46 | a message outside chat mode, or from the system, adds no turn |
| `OllamaChatbot.AssembleMessages` | AnesthAI_backend/app/adapters/ollama_chatbot.py:36-58 | the request starts with the system prompt and ends with the user's text |
| `OllamaChatbot.AssembleMessagesShape` | AnesthAI_backend/app/adapters/ollama_chatbot.py:49-58 | a "Questionnaire context: " message appears iff the context is non-empty; between it and the user text come at most the last ten kept turns, in order |
| `OllamaChatbot.OlderMessagesIgnored` | AnesthAI_backend/app/adapters/ollama_chatbot.py:39 | only the last thirty transcript messages matter |
| `OllamaChatbot.OllamaChatbot.constructor` | AnesthAI_backend/app/adapters/ollama_chatbot.py:17-34 | trailing "/" is stripped from the base URL; a missing or empty system prompt is replaced by the built-in one |
| `OllamaChatbot.OllamaChatbot.AnswerMessages` | AnesthAI_backend/app/adapters/ollama_chatbot.py:36-58 | the loops build exactly `AssembleMessages` |
| `OllamaChatbot.AppendTurns` | AnesthAI_backend/app/adapters/ollama_chatbot.py:55-56 | the loop appends the turns in order |
| `OllamaChatbot.CollectTurns` | AnesthAI_backend/app/adapters/ollama_chatbot.py:37-46 | the loop builds exactly the kept turns |
| `OllamaChatbot.DefaultChatbot` | AnesthAI_backend/app/adapters/ollama_chatbot.py:17-34 | the defaults are "llama3.1", localhost:11434, the built-in prompt and 60 seconds |
| `TemplateSchema.Infer` | AnesthAI_backend/app/adapters/template_schema.py:19-50 | every node's schema is an object |
| `TemplateSchema.Required` | AnesthAI_backend/app/adapters/template_schema.py:38-42 | `required` lists every key, in template order |
| `TemplateSchema.Properties` | AnesthAI_backend/app/adapters/template_schema.py:38-41 | one property per key, in template order, holding the inferred schema of its value |
| `TemplateSchema.ObjectSchemaKeywords` | AnesthAI_backend/app/adapters/template_schema.py:37-48 | an object's schema has type "object", those properties, that required list and `additionalProperties` false |
| `TemplateSchema.TemplateToJsonSchema` | AnesthAI_backend/app/adapters/template_schema.py:52-58 | `"$schema"` with the draft 2020-12 URI comes first, followed by the inferred schema's fields |
| `TemplateSchema.NullAcceptsAnything` | AnesthAI_backend/app/adapters/template_schema.py:20-21 | a null node's empty schema accepts every document |
| `TemplateSchema.TemplateConformsToOwnSchema` | AnesthAI_backend/app/adapters/template_schema.py:19-50 | a template with distinct keys and uniform arrays is valid against its own schema |
| `TemplateSchema.ObjectConformsToOwnSchema` | AnesthAI_backend/app/adapters/template_schema.py:37-48 | the object step of that induction |
| `TemplateSchema.UnknownKeyRejected` | AnesthAI_backend/app/adapters/template_schema.py:43-47 | an object with a key the template lacks is rejected |
| `TemplateSchema.MissingKeyRejected` | AnesthAI_backend/app/adapters/template_schema.py:38-46 | an object missing a template key is rejected |
| `TemplateSchema.LeafTypeEnforced` | AnesthAI_backend/app/adapters/template_schema.py:22-29 | a value of the wrong kind for a leaf is rejected; a boolean is not an integer, nor is a float with a fractional part |
| `TemplateSchema.LeafTypeAccepted` | AnesthAI_backend/app/adapters/template_schema.py:22-29 | a value of the right kind for a leaf is accepted; an integer template also accepts a float whose fractional part is zero, and a float template accepts an integer |
| `TemplateSchema.IntegralFloatFitsIntegerField` | AnesthAI_backend/app/adapters/template_schema.py:24-25 | `{"age": 70.0}` is valid against the schema of the template `{"age": 0}` |
| `TemplateSchema.FractionRejectedForZeroTemplate` | AnesthAI_backend/app/adapters/template_schema.py:12-25 | the template `0` yields type "integer", not "number", so 72.5 is rejected |
| `TemplateSchema.ArraySchemaFromFirstElement` | AnesthAI_backend/app/adapters/template_schema.py:30-36 | an array's schema depends only on its first element |
| `TemplateSchema.EmptyArrayAcceptsAnyItems` | AnesthAI_backend/app/adapters/template_schema.py:30-36 | an empty template array gives type "array" with empty `items`, so every array is accepted |
| `TemplateSchema.MixedArrayRejectsItself` | AnesthAI_backend/app/adapters/template_schema.py:30-36 | `[1, "a"]` is not valid against its own schema |
| `Summarizer.ExtractJson` | Morton/app/adapters/ollama_summarizer.py:13-26 | the result is a contiguous substring of the stripped reply |
| `Summarizer.ExtractJsonBraced` | Morton/app/adapters/ollama_summarizer.py:18-20 | a reply that starts with "{" and ends with "}" once stripped gives the stripped reply, whatever whitespace pads it |
| `Summarizer.ExtractJsonSpan` | Morton/app/adapters/ollama_summarizer.py:22-25 | a reply not already braced but with a "{" before a later "}" gives the span from the first "{" to the last "}" |
| `Summarizer.ExtractJsonFallback` | Morton/app/adapters/ollama_summarizer.py:26 | otherwise the stripped reply is returned |
| `Summarizer.ExtractJsonIdempotent` | Morton/app/adapters/ollama_summarizer.py:13-26 | extracting twice is extracting once |
| `Summarizer.AttemptsSucceedOnlyWithValidData` | Morton/app/adapters/ollama_summarizer.py:77-84 | a success is the parse of some reply's extraction, and it validates against the schema |
| `Summarizer.AttemptsFailWithLastError` | Morton/app/adapters/ollama_summarizer.py:77-103 | a failure after at least one request names the error of the last request, which failed |
| `Summarizer.NoAttemptsFailWithNone` | Morton/app/adapters/ollama_summarizer.py:75-103 | with no request allowed, the error names "None" |
| `Summarizer.FirstValidReplyWins` | Morton/app/adapters/ollama_summarizer.py:70-84 | a valid first reply is returned as is |
| `Summarizer.OllamaSummarizer.constructor` | Morton/app/adapters/ollama_summarizer.py:30-40 | trailing "/" is stripped from the base URL; the other settings are kept |
| `Summarizer.OllamaSummarizer.Summarize` | Morton/app/adapters/ollama_summarizer.py:48-103 | the retry loop yields the specification's result after at most max_retries+1 requests, using all of them on failure; a success is valid against the template's schema |
| `Summarizer.DefaultSummarizer` | Morton/app/adapters/ollama_summarizer.py:30-40 | the defaults are "llama3.1", localhost:11434, 120 seconds and 2 retries |
| `SlotQuestions.QuestionsShape` | Morton/ToGood2Go/questions.py:1-38 | six entries, each id equal to its slot, all required but the last, which is smoking_alcohol |
| `SlotQuestions.SlotsDistinct` | Morton/ToGood2Go/questions.py:1-38 | slots are pairwise distinct |
| `ConversationEngine.WithDefaultsKeys` | AnesthAI_backend/ToGood2Go/conversation_engine.py:14-17 | every table slot gets a key; existing values are kept; new keys hold None; no other key appears |
| `ConversationEngine.MissingRequired` | AnesthAI_backend/ToGood2Go/conversation_engine.py:19-26 | at most one entry per question |
| `ConversationEngine.MissingRequiredMembers` | AnesthAI_backend/ToGood2Go/conversation_engine.py:19-26 | a slot is listed iff some required entry names it and its value is missing, None or "" |
| `ConversationEngine.FirstUnfilledFrom` | AnesthAI_backend/ToGood2Go/conversation_engine.py:40-48 | the first index at or after the cursor whose slot is unfilled, every earlier one filled; none iff all from the cursor on are filled |
| `ConversationEngine.ApplyUpdatesKeepsFilled` | AnesthAI_backend/ToGood2Go/conversation_engine.py:50-57 | a filled slot stays filled; a slot with no truthy update keeps its value and presence |
| `ConversationEngine.ApplyUpdatesWrites` | AnesthAI_backend/ToGood2Go/conversation_engine.py:55-57 | a truthy update is what its slot holds afterwards, whether or not the slot is in the table |
| `ConversationEngine.EngineState.constructor` | AnesthAI_backend/ToGood2Go/conversation_engine.py:7-17 | the slots are the given ones with every table slot defaulted to None |
| `ConversationEngine.EngineState.UnansweredRequiredSlots` | AnesthAI_backend/ToGood2Go/conversation_engine.py:19-26 | the loop yields `MissingRequired` in table order |
| `ConversationEngine.Engine.constructor` | AnesthAI_backend/ToGood2Go/conversation_engine.py:29-32 | a fresh state with every slot None, and the cursor at 0 |
| `ConversationEngine.Engine.NextQuestion` | AnesthAI_backend/ToGood2Go/conversation_engine.py:34-48 | moves the cursor to the first unfilled slot at or after it and returns that question's text; otherwise None with the cursor unchanged; the cursor never decreases |
| `ConversationEngine.Engine.MarkSlotsFromLlm` | AnesthAI_backend/ToGood2Go/conversation_engine.py:50-57 | the slots become `ApplyUpdates` of the old ones; the history is unchanged |
| `ConversationEngine.Engine.IsComplete` | AnesthAI_backend/ToGood2Go/conversation_engine.py:59-61 | true iff every required slot is filled |
| `ConversationEngine.FreshEngineAsksChiefComplaint` | AnesthAI_backend/ToGood2Go/conversation_engine.py:29-48 | a fresh engine asks question 0; once the chief complaint is filled, question 1 |
| `Anamnese.FirstOpenFrom` | Morton/ToGood2Go/main.py:58-63 | the first section, in flow order, that is not completed; none iff all are |
| `Anamnese.CompletedAfter` | Morton/ToGood2Go/main.py:99-128 | the completed set only grows, and only by the current topic |
| `Anamnese.AnswersAfter` | Morton/ToGood2Go/main.py:99-128 | answers are only added or overwritten, and only under the current topic |
| `Anamnese.BasicInfoCompletesOnMeasurements` | Morton/ToGood2Go/main.py:103-106 | basic_info completes, with the raw text stored, iff the lower-cased text contains "cm", "kg", "højde" or "vægt" |
| `Anamnese.MedicationStoresFixedAnswer` | Morton/ToGood2Go/main.py:113-116 | "ingen medicin" or "tager ikke medicin" completes medication and stores "Ingen medicin" |
| `Anamnese.AllergiesCompleteOnDenial` | Morton/ToGood2Go/main.py:118-121 | allergies complete iff the text contains "ingen allergi" or "ingen reaktion" |
| `Anamnese.HistoryAndLifestyleNeverComplete` | Morton/ToGood2Go/main.py:108-125 | medical_history and lifestyle are never added to the completed set |
| `Anamnese.NoTopicChangesNothing` | Morton/ToGood2Go/main.py:99-128 | with no topic, nothing changes |
| `Anamnese.StuckAtMedicalHistory` | Morton/ToGood2Go/main.py:58-128 | once basic_info is done and medical_history is not, every further endpoint turn leaves medical_history as the next topic |
| `Anamnese.FreshInterviewNeverFinishes` | Morton/ToGood2Go/main.py:58-128 | from a fresh state, any sequence of turns leaves the next topic at basic_info or medical_history |
| `Anamnese.BuildSystemPrompt` | Morton/ToGood2Go/main.py:70-91 | no next section: the closing prompt. Otherwise: the section prompt with the label in bold, then the rules, then exactly `repr(answers)`, then a final newline |
| `Anamnese.ClosingPromptIgnoresAnswers` | Morton/ToGood2Go/main.py:70-76 | the closing prompt does not depend on the label, the answers or their rendering |
| `Anamnese.ConversationState.constructor` | Morton/ToGood2Go/main.py:30-35 | no messages, no completed sections, no answers |
| `Anamnese.GetNextTopic` | Morton/ToGood2Go/main.py:58-63 | the loop returns the first section not completed, or none |
| `Anamnese.UpdateStateFromUserInput` | Morton/ToGood2Go/main.py:99-128 | the completed set and the answers become `CompletedAfter` and `AnswersAfter`; the messages are unchanged; the same state is returned |
| `DialogManager.SessionsAfterUpdate` | AnesthAI_backend/ToGood2Go/services/dialog_manager.py:15-19 | a new session starts with just the message and no filled slots; a known session gains the message at the end; other sessions are untouched |
| `DialogManager.FirstUnfilledSlot` | AnesthAI_backend/ToGood2Go/services/dialog_manager.py:25-27 | the first slot, in list order, not filled; none iff all are filled |
| `DialogManager.NextQuestion` | AnesthAI_backend/ToGood2Go/services/dialog_manager.py:22-29 | "Please ask about: " + slot with that unfilled slot, or "All slots filled." with none exactly when every slot is filled |
| `DialogManager.UnknownSessionStartsWithDemographics` | AnesthAI_backend/ToGood2Go/services/dialog_manager.py:22-27 | an unknown session is asked about "patient demographics" |
| `DialogManager.UpdatesNeverFillSlots` | AnesthAI_backend/ToGood2Go/services/dialog_manager.py:15-29 | from an empty store no run of updates fills a slot, so every session is asked about the first slot |
| `DialogManager.AllSlotsFilledAnswer` | AnesthAI_backend/ToGood2Go/services/dialog_manager.py:25-29 | a session holding each of the nine slots, in any order and with any repeats, is told "All slots filled." |
| `DialogManager.SessionStore.constructor` | AnesthAI_backend/ToGood2Go/services/dialog_manager.py:1 | the session store starts empty |
| `DialogManager.SessionStore.UpdateSession` | AnesthAI_backend/ToGood2Go/services/dialog_manager.py:15-19 | the sessions become `SessionsAfterUpdate` of the old ones |
| `DialogManager.SessionStore.GetNextQuestion` | AnesthAI_backend/ToGood2Go/services/dialog_manager.py:22-29 | the scan returns `NextQuestion` of the session's filled slots and modifies nothing |

## Left out

- All HTTP calls to the language model are left out: `OllamaChatbot.answer`'s POST, `OllamaSummarizer._ollama_chat` and `ask_ollama`. Replies come from oracles.
- `json.loads`, `json.dumps` and the message of a `jsonschema.ValidationError` are oracles. Validity itself is `TemplateSchema.Conforms`, which covers only the keywords the inferred schemas use (`type`, `items`, `properties`, `required`, `additionalProperties`).
- The FastAPI `/chat` endpoint, the module-level `conversations` dict and `build_system_prompt`'s caller are left out. The endpoint's effect on the anamnesis state is stated through `EndpointStep`.
- `orchestrator.finalize` reads the template file, so it is left out; its two deterministic parts are modelled.
- The file load in the `JsonQuestionFlow` constructor is left out; the questions are passed in.
- `ToGood2Go.utils.session_store` is not part of this model: `SESSION_STATE` is the `SessionStore` class's map.
- Command-line interview loops and JSONL writing are left out, as is the presentational React code. This includes the delayed bot reply (`setTimeout` of 800 ms), scrolling and `Date.now()` message ids. An accepted chat send appends both messages at once.
- Dates are calendar days: the browser's time zone in `toDateString` is not modelled.
- Floating-point fields (`bmi`, `modelConfidence`, factor weights) are held as integers; the dashboard's display fields (`asaExplanation`, `aiSummary`, `aiExplanation`, `fullHistory`, `notes`) are not modelled.
- `localeCompare` on "HH:MM" is modelled as code-point order, which agrees with it on well-formed times.
- `Text.Lower`: lower-cases ASCII and Latin-1 letters only; other Unicode case mappings of JavaScript's `toLowerCase` and Python's `lower` are not modelled.
- `TemplateSchema.Infer`: a template holding a non-JSON Python value (the `{}` fallback) cannot be expressed, since templates are JSON values; floats are reals.
- `ConversationEngine.Engine.MarkSlotsFromLlm`: the update dict is a sequence of pairs; a dict's distinct keys are a precondition only of `ApplyUpdatesWrites`.
- `Orchestrator.ChatStep`: where the source raises `AttributeError` (chat mode after the last question), the model returns `Err(NoCurrentQuestion)`.
- `Summarizer.OllamaSummarizer.Summarize`: the final `ValueError` is an `Err` carrying its message.
- The abstract interfaces (`question_flow.py`, `transcript_store.py`, `summarizer.py`, `chatbot.py`) hold only signatures; the concrete adapters stand in for them.
