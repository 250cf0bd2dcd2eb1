/** The questionnaire backend's domain records: who speaks, in which mode, the messages of a
    transcript, the standardized questions and the mutable conversation they drive. */
module DomainModels {
  import opened Wrappers

  /** Who wrote a transcript message; a string-valued enumeration. */
  datatype Role = System | Patient | Assistant {
    function Value(): (v: string)
      ensures v in {"system", "patient", "assistant"}
    {
      match this
      case System => "system"
      case Patient => "patient"
      case Assistant => "assistant"
    }
  }

  /** `Role(value)`: the member with that value, or nothing (where Python raises `ValueError`). */
  function ParseRole(s: string): (r: Option<Role>)
    ensures r.Some? ==> r.value.Value() == s
    ensures r.None? <==> s !in {"system", "patient", "assistant"}
  {
    if s == "system" then Some(System)
    else if s == "patient" then Some(Patient)
    else if s == "assistant" then Some(Assistant)
    else None
  }

  /** Every role has its own value, and parsing that value gives the role back. */
  lemma RoleRoundTrip(r: Role)
    ensures ParseRole(r.Value()) == Some(r)
  {
  }

  lemma RoleValuesDistinct(a: Role, b: Role)
    requires a.Value() == b.Value()
    ensures a == b
  {
    RoleRoundTrip(a);
    RoleRoundTrip(b);
  }

  /** Whether the patient answers the standardized question or chats with the assistant. */
  datatype Mode = Answer | Chat {
    function Value(): (v: string)
      ensures v == "answer" || v == "chat"
    {
      match this
      case Answer => "answer"
      case Chat => "chat"
    }
  }

  function ParseMode(s: string): (r: Option<Mode>)
    ensures r.Some? ==> r.value.Value() == s
    ensures r.None? <==> s != "answer" && s != "chat"
  {
    if s == "answer" then Some(Answer)
    else if s == "chat" then Some(Chat)
    else None
  }

  lemma ModeRoundTrip(m: Mode)
    ensures ParseMode(m.Value()) == Some(m)
  {
  }

  /** The five states of a questionnaire conversation. */
  datatype ConversationState = FlowAsking | FlowWaitingAnswer | ChatMode | Summarizing | Done {
    function Value(): (v: string)
      ensures v in {"flow_asking", "flow_waiting_answer", "chat_mode", "summarizing", "done"}
    {
      match this
      case FlowAsking => "flow_asking"
      case FlowWaitingAnswer => "flow_waiting_answer"
      case ChatMode => "chat_mode"
      case Summarizing => "summarizing"
      case Done => "done"
    }
  }

  function ParseConversationState(s: string): (r: Option<ConversationState>)
    ensures r.Some? ==> r.value.Value() == s
    ensures r.None? <==> s !in {"flow_asking", "flow_waiting_answer", "chat_mode", "summarizing", "done"}
  {
    if s == "flow_asking" then Some(FlowAsking)
    else if s == "flow_waiting_answer" then Some(FlowWaitingAnswer)
    else if s == "chat_mode" then Some(ChatMode)
    else if s == "summarizing" then Some(Summarizing)
    else if s == "done" then Some(Done)
    else None
  }

  lemma ConversationStateRoundTrip(c: ConversationState)
    ensures ParseConversationState(c.Value()) == Some(c)
  {
  }

  /** A value stored in a message's `meta` dictionary: the code stores strings and one flag. */
  datatype MetaValue = Text(s: string) | Flag(b: bool)

  /** A transcript entry. `ts` is a Unix time in seconds; its default is read from the clock
      once, when the record type is defined, so it arrives here as a parameter. */
  datatype Message = Message(role: Role, content: string, ts: int, meta: map<string, MetaValue>)

  /** A message built without an explicit timestamp or meta: it carries the one default
      timestamp and an empty meta dictionary. */
  function DefaultMessage(role: Role, content: string, defaultTs: int): (m: Message)
    ensures m.role == role && m.content == content
    ensures m.ts == defaultTs && m.meta == map[]
  {
    Message(role, content, defaultTs, map[])
  }

  /** Two messages built with the default timestamp cannot be ordered by `ts`: only their
      position in a transcript orders them. */
  lemma DefaultTimestampsCoincide(r1: Role, c1: string, r2: Role, c2: string, defaultTs: int)
    ensures DefaultMessage(r1, c1, defaultTs).ts == DefaultMessage(r2, c2, defaultTs).ts
  {
  }

  /** A standardized question. `kind` is the field the source calls `type`. */
  datatype Question = Question(
    id: string,
    text: string,
    kind: string,
    required: bool,
    helpPrompt: Option<string>,
    choices: Option<seq<string>>,
    validation: Option<map<string, MetaValue>>)

  /** `Question(id=..., text=...)` with every other field at its default. */
  function NewQuestion(id: string, text: string): (q: Question)
    ensures q.id == id && q.text == text
    ensures q.kind == "free_text" && q.required
    ensures q.helpPrompt.None? && q.choices.None? && q.validation.None?
  {
    Question(id, text, "free_text", true, None, None, None)
  }

  /** The mutable state of one questionnaire conversation. */
  class Conversation {
    const conversationId: string
    var state: ConversationState
    var questionIndex: int
    var activeQuestionId: Option<string>
    var answers: map<string, string>

    /** `Conversation(conversation_id=...)` with every other field at its default. */
    constructor (conversationId: string)
      ensures this.conversationId == conversationId
      ensures state == FlowAsking && questionIndex == 0
      ensures activeQuestionId == None && answers == map[]
    {
      this.conversationId := conversationId;
      state := FlowAsking;
      questionIndex := 0;
      activeQuestionId := None;
      answers := map[];
    }
  }
}
