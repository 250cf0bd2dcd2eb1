/** The chatbot adapter's message assembly: which earlier transcript messages are sent to the
    language model, and in what shape. The HTTP request itself is not part of this model. */
module OllamaChatbot {
  import opened Wrappers
  import opened Text
  import opened DomainModels

  /** One entry of the chat request: a role ("system", "user" or "assistant") and a text. */
  datatype ChatTurn = ChatTurn(role: string, content: string)

  const DefaultModel := "llama3.1"
  const DefaultBaseUrl := "http://localhost:11434"
  const DefaultTimeoutSeconds := 60
  const DefaultSystemPrompt :=
    "You are a helpful clinical assistant answering a patient's free-form questions during a pre-anesthesia questionnaire. "
    + "Important rules:\n"
    + "1) Only answer the patient's current free-form question.\n"
    + "2) Do NOT repeat, re-ask, or answer the standardized questionnaire questions unless the patient explicitly asks about them.\n"
    + "3) Keep answers short, clear, and non-alarming.\n"
    + "4) If asked for personalized medical advice or urgent symptoms, advise contacting the clinic.\n"

  /** How many trailing transcript messages are scanned, and how many kept turns are sent. */
  const ScanWindow := 30
  const TurnWindow := 10

  /** The message is part of a chat exchange (its meta carries mode "chat"). */
  predicate InChatMode(m: Message) {
    "mode" in m.meta && m.meta["mode"] == Text("chat")
  }

  /** The turn an earlier message contributes: chat-mode patient messages become "user" turns
      unless they repeat the current question (compared after stripping), chat-mode assistant
      messages become "assistant" turns, and everything else contributes nothing. */
  function TurnOf(m: Message, userText: string): (r: seq<ChatTurn>)
    ensures |r| <= 1
    ensures r != [] <==>
      InChatMode(m) && (m.role == Assistant
        || (m.role == Patient && Strip(m.content, PyIsSpace) != Strip(userText, PyIsSpace)))
    ensures r != [] ==>
      r[0].content == m.content && r[0].role == (if m.role == Patient then "user" else "assistant")
  {
    if m.role == Patient && InChatMode(m) then
      if Strip(m.content, PyIsSpace) == Strip(userText, PyIsSpace) then [] else [ChatTurn("user", m.content)]
    else if m.role == Assistant && InChatMode(m) then [ChatTurn("assistant", m.content)]
    else []
  }

  /** The turns kept from `ms`, in order. */
  function KeptTurns(ms: seq<Message>, userText: string): (r: seq<ChatTurn>)
    ensures |r| <= |ms|
    decreases |ms|
  {
    if ms == [] then [] else KeptTurns(ms[..|ms| - 1], userText) + TurnOf(ms[|ms| - 1], userText)
  }

  /** Every kept turn carries the text of a chat-mode patient or assistant message of `ms`. */
  lemma {:induction false} KeptTurnsFromChatMessages(ms: seq<Message>, userText: string, k: nat)
    requires k < |KeptTurns(ms, userText)|
    ensures exists i | 0 <= i < |ms| ::
      InChatMode(ms[i]) && (ms[i].role == Patient || ms[i].role == Assistant)
      && KeptTurns(ms, userText)[k].content == ms[i].content
    decreases |ms|
  {
    var prev := ms[..|ms| - 1];
    var last := ms[|ms| - 1];
    if k < |KeptTurns(prev, userText)| {
      KeptTurnsFromChatMessages(prev, userText, k);
      var i :| 0 <= i < |prev| && InChatMode(prev[i]) && (prev[i].role == Patient || prev[i].role == Assistant)
        && KeptTurns(prev, userText)[k].content == prev[i].content;
      assert ms[i] == prev[i];
    } else {
      assert KeptTurns(ms, userText)[k] == TurnOf(last, userText)[0];
    }
  }

  /** Messages that are not part of a chat exchange never reach the model. */
  lemma NonChatMessagesDropped(ms: seq<Message>, m: Message, userText: string)
    requires !InChatMode(m) || (m.role != Patient && m.role != Assistant)
    ensures KeptTurns(ms + [m], userText) == KeptTurns(ms, userText)
  {
    assert (ms + [m])[..|ms|] == ms;
  }

  /** The system prompt, then the questionnaire context when there is a non-empty one. */
  function Header(systemPrompt: string, context: Option<string>): seq<ChatTurn> {
    [ChatTurn("system", systemPrompt)]
      + (if context.Some? && context.value != "" then [ChatTurn("system", "Questionnaire context: " + context.value)] else [])
  }

  /** The request's messages: the system prompt, the questionnaire context when there is a
      non-empty one, the last kept turns, and finally the user's text. */
  function AssembleMessages(systemPrompt: string, transcript: seq<Message>, userText: string,
                            context: Option<string>): (r: seq<ChatTurn>)
    ensures |r| >= 2
    ensures r[0] == ChatTurn("system", systemPrompt)
    ensures r[|r| - 1] == ChatTurn("user", userText)
  {
    Header(systemPrompt, context) + PySuffix(KeptTurns(PySuffix(transcript, ScanWindow), userText), TurnWindow) + [ChatTurn("user", userText)]
  }

  /** The request has a context message exactly when the context is non-empty, and between the
      header and the user's text it carries at most ten kept turns: the last ones, in order. */
  lemma AssembleMessagesShape(systemPrompt: string, transcript: seq<Message>, userText: string, context: Option<string>)
    ensures var r := AssembleMessages(systemPrompt, transcript, userText, context);
      var h := if context.Some? && context.value != "" then 2 else 1;
      var kept := KeptTurns(PySuffix(transcript, ScanWindow), userText);
      && (context.Some? && context.value != "" ==> r[1] == ChatTurn("system", "Questionnaire context: " + context.value))
      && |r| == h + |PySuffix(kept, TurnWindow)| + 1
      && |PySuffix(kept, TurnWindow)| <= TurnWindow
      && r[h..|r| - 1] == kept[|kept| - |PySuffix(kept, TurnWindow)|..]
  {
    var r := AssembleMessages(systemPrompt, transcript, userText, context);
    var h := if context.Some? && context.value != "" then 2 else 1;
    var kept := KeptTurns(PySuffix(transcript, ScanWindow), userText);
    var tail := PySuffix(kept, TurnWindow);
    var header := Header(systemPrompt, context);
    assert |header| == h;
    assert r == header + tail + [ChatTurn("user", userText)];
    assert r[h..|r| - 1] == tail;
  }

  /** Only the last thirty transcript messages are looked at: earlier ones never matter. */
  lemma OlderMessagesIgnored(older: seq<Message>, recent: seq<Message>, userText: string, systemPrompt: string, context: Option<string>)
    requires |recent| >= ScanWindow
    ensures AssembleMessages(systemPrompt, older + recent, userText, context)
      == AssembleMessages(systemPrompt, recent, userText, context)
  {
    var all := older + recent;
    assert all[|all| - ScanWindow..] == recent[|recent| - ScanWindow..];
  }

  class OllamaChatbot {
    const model: string
    const baseUrl: string
    const systemPrompt: string
    const timeoutSeconds: int

    /** The constructor: trailing slashes are removed from the base URL, and a missing or
        empty system prompt is replaced by the built-in one. */
    constructor (model: string, baseUrl: string, systemPrompt: Option<string>, timeoutSeconds: int)
      ensures this.model == model && this.timeoutSeconds == timeoutSeconds
      ensures this.baseUrl == RStripChar(baseUrl, '/')
      ensures systemPrompt.Some? && systemPrompt.value != "" ==> this.systemPrompt == systemPrompt.value
      ensures systemPrompt.None? || systemPrompt.value == "" ==> this.systemPrompt == DefaultSystemPrompt
    {
      this.model := model;
      this.baseUrl := RStripChar(baseUrl, '/');
      this.systemPrompt := if systemPrompt.Some? && systemPrompt.value != "" then systemPrompt.value else DefaultSystemPrompt;
      this.timeoutSeconds := timeoutSeconds;
    }

    /** The message list `answer` sends: scans the transcript's last thirty messages, then
        adds the header, the last ten kept turns and the user's text. */
    method AnswerMessages(userText: string, transcript: seq<Message>, context: Option<string>)
      returns (messages: seq<ChatTurn>)
      ensures messages == AssembleMessages(systemPrompt, transcript, userText, context)
    {
      var chatContext := CollectTurns(PySuffix(transcript, ScanWindow), userText);
      var header := [ChatTurn("system", systemPrompt)];
      if context.Some? && context.value != "" {
        header := header + [ChatTurn("system", "Questionnaire context: " + context.value)];
      }
      assert header == Header(systemPrompt, context);
      var recent := PySuffix(chatContext, TurnWindow);
      messages := AppendTurns(header, recent);
      messages := messages + [ChatTurn("user", userText)];
      assert messages == Header(systemPrompt, context) + PySuffix(KeptTurns(PySuffix(transcript, ScanWindow), userText), TurnWindow) + [ChatTurn("user", userText)];
    }
  }

  /** Appends the turns one by one. */
  method AppendTurns(header: seq<ChatTurn>, turns: seq<ChatTurn>) returns (messages: seq<ChatTurn>)
    ensures messages == header + turns
  {
    messages := header;
    for i := 0 to |turns|
      invariant messages == header + turns[..i]
    {
      messages := messages + [turns[i]];
      assert turns[..i + 1] == turns[..i] + [turns[i]];
    }
    assert turns[..|turns|] == turns;
  }

  /** The scan over the window: the kept turns, in order. */
  method CollectTurns(window: seq<Message>, userText: string) returns (chatContext: seq<ChatTurn>)
    ensures chatContext == KeptTurns(window, userText)
  {
    chatContext := [];
    for i := 0 to |window|
      invariant chatContext == KeptTurns(window[..i], userText)
    {
      var m := window[i];
      assert window[..i + 1][..i] == window[..i];
      if m.role == Patient && InChatMode(m) {
        if Strip(m.content, PyIsSpace) == Strip(userText, PyIsSpace) {
          continue;
        }
        chatContext := chatContext + [ChatTurn("user", m.content)];
      } else if m.role == Assistant && InChatMode(m) {
        chatContext := chatContext + [ChatTurn("assistant", m.content)];
      }
    }
    assert window[..|window|] == window;
  }

  /** The chatbot built with every default. */
  method DefaultChatbot() returns (c: OllamaChatbot)
    ensures c.model == DefaultModel && c.baseUrl == DefaultBaseUrl
    ensures c.systemPrompt == DefaultSystemPrompt && c.timeoutSeconds == DefaultTimeoutSeconds
  {
    c := new OllamaChatbot(DefaultModel, DefaultBaseUrl, None, DefaultTimeoutSeconds);
  }
}
