/** The dialog-slot picker: per-session message lists, and the next anamnesis slot to ask about. */
module DialogManager {
  import opened Wrappers

  /** `ANAMNESIS_SLOTS`, in the order they are asked about. */
  const AnamnesisSlots: seq<string> := [
    "patient demographics",
    "previous anesthesia experience",
    "medications",
    "allergies",
    "cardiovascular history",
    "respiratory history",
    "diabetes or endocrine issues",
    "lifestyle factors (smoking, alcohol)",
    "functional capacity (METs)"
  ]

  const AllFilled := "All slots filled."
  const AskPrefix := "Please ask about: "

  /** A session's record: its messages and the slots already filled. */
  datatype Session = Session(messages: seq<string>, filledSlots: seq<string>)

  /** The sessions after `update_session(sessionId, message)`: a new session starts empty, and
      the message goes at the end of that session's messages. */
  function SessionsAfterUpdate(sessions: map<string, Session>, sessionId: string, message: string)
    : (r: map<string, Session>)
    ensures r.Keys == sessions.Keys + {sessionId}
    ensures sessionId !in sessions ==> r[sessionId] == Session([message], [])
    ensures sessionId in sessions ==>
      r[sessionId] == sessions[sessionId].(messages := sessions[sessionId].messages + [message])
    ensures forall k | k in sessions && k != sessionId :: r[k] == sessions[k]
  {
    var s := if sessionId in sessions then sessions[sessionId] else Session([], []);
    sessions[sessionId := s.(messages := s.messages + [message])]
  }

  /** The filled slots `get_next_question` looks at: none for an unknown session. */
  function FilledOf(sessions: map<string, Session>, sessionId: string): seq<string> {
    if sessionId in sessions then sessions[sessionId].filledSlots else []
  }

  /** The first slot at or after `from` that is not filled. */
  function FirstUnfilledSlot(filled: seq<string>, from: nat): (r: Option<string>)
    ensures r.Some? ==> exists k | from <= k < |AnamnesisSlots| ::
      r.value == AnamnesisSlots[k] && r.value !in filled
      && forall j | from <= j < k :: AnamnesisSlots[j] in filled
    ensures r.None? ==> forall k | from <= k < |AnamnesisSlots| :: AnamnesisSlots[k] in filled
    decreases |AnamnesisSlots| - from
  {
    if from >= |AnamnesisSlots| then None
    else if AnamnesisSlots[from] !in filled then Some(AnamnesisSlots[from])
    else FirstUnfilledSlot(filled, from + 1)
  }

  /** The prompt and slot for the next slot, or the all-filled message and no slot. */
  function NextQuestion(filled: seq<string>): (r: (string, Option<string>))
    ensures r.1.Some? ==> r.0 == AskPrefix + r.1.value && r.1.value in AnamnesisSlots && r.1.value !in filled
    ensures r.1.None? <==> forall k | 0 <= k < |AnamnesisSlots| :: AnamnesisSlots[k] in filled
    ensures r.1.None? ==> r.0 == AllFilled
  {
    match FirstUnfilledSlot(filled, 0)
    case Some(slot) => (AskPrefix + slot, Some(slot))
    case None => (AllFilled, None)
  }

  /** An unknown session is asked about the patient's demographics first. */
  lemma UnknownSessionStartsWithDemographics(sessions: map<string, Session>, sessionId: string)
    requires sessionId !in sessions
    ensures NextQuestion(FilledOf(sessions, sessionId)) == ("Please ask about: patient demographics", Some("patient demographics"))
  {
    assert FirstUnfilledSlot([], 0) == Some(AnamnesisSlots[0]);
    assert AskPrefix + AnamnesisSlots[0] == "Please ask about: patient demographics";
  }

  /** The sessions after a run of `update_session` calls. */
  function Updates(sessions: map<string, Session>, calls: seq<(string, string)>): map<string, Session>
    decreases |calls|
  {
    if calls == [] then sessions
    else
      var last := calls[|calls| - 1];
      SessionsAfterUpdate(Updates(sessions, calls[..|calls| - 1]), last.0, last.1)
  }

  /** Nothing in this module fills a slot: updates leave every filled-slot list as it was, so from
      an empty store every session is always asked about the first slot. */
  lemma {:induction false} UpdatesNeverFillSlots(calls: seq<(string, string)>, sessionId: string)
    ensures FilledOf(Updates(map[], calls), sessionId) == []
    ensures NextQuestion(FilledOf(Updates(map[], calls), sessionId)).1 == Some(AnamnesisSlots[0])
    decreases |calls|
  {
    if calls != [] {
      UpdatesNeverFillSlots(calls[..|calls| - 1], sessionId);
    }
  }

  /** Every session that filled all nine slots, in whatever order, is told so. */
  lemma AllSlotsFilledAnswer(filled: seq<string>)
    requires forall k | 0 <= k < |AnamnesisSlots| :: AnamnesisSlots[k] in filled
    ensures NextQuestion(filled) == (AllFilled, None)
  {
  }

  /** `SESSION_STATE` and the two operations on it. */
  class SessionStore {
    var sessions: map<string, Session>

    constructor ()
      ensures sessions == map[]
    {
      sessions := map[];
    }

    /** `update_session`. */
    method UpdateSession(sessionId: string, message: string)
      modifies this
      ensures sessions == SessionsAfterUpdate(old(sessions), sessionId, message)
    {
      if sessionId !in sessions {
        sessions := sessions[sessionId := Session([], [])];
      }
      var s := sessions[sessionId];
      sessions := sessions[sessionId := s.(messages := s.messages + [message])];
    }

    /** `get_next_question`: scans the slots in order; it reads the sessions and changes nothing. */
    method GetNextQuestion(sessionId: string) returns (text: string, slot: Option<string>)
      ensures (text, slot) == NextQuestion(FilledOf(sessions, sessionId))
    {
      var filled := if sessionId in sessions then sessions[sessionId].filledSlots else [];
      for i := 0 to |AnamnesisSlots|
        invariant FirstUnfilledSlot(filled, i) == FirstUnfilledSlot(filled, 0)
      {
        if AnamnesisSlots[i] !in filled {
          return AskPrefix + AnamnesisSlots[i], Some(AnamnesisSlots[i]);
        }
      }
      return AllFilled, None;
    }
  }
}
