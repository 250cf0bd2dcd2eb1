/** The keyword-driven anamnesis interview: five sections asked in a fixed order, a set of
    completed sections that only grows, and the answers gathered so far. */
module Anamnese {
  import opened Wrappers
  import opened Text

  /** A section of the anamnesis: its id and the heading shown to the model. */
  datatype Section = Section(id: string, heading: string)

  /** `ANAMNESE_FLOW`, in the order the sections are covered. */
  const Flow: seq<Section> := [
    Section("basic_info", "Basale oplysninger (vægt, højde)"),
    Section("medical_history", "Tidligere sygdomme og operationer"),
    Section("medication", "Aktuel medicin"),
    Section("allergies", "Allergier og reaktioner på bedøvelse"),
    Section("lifestyle", "Rygning, alkohol, fysisk form")
  ]

  /** The first section at or after `from` that is not completed. */
  function FirstOpenFrom(completed: set<string>, from: nat): (r: Option<Section>)
    ensures r.Some? <==> exists k | from <= k < |Flow| :: Flow[k].id !in completed
    ensures r.Some? ==> exists k | from <= k < |Flow| ::
      r.value == Flow[k] && Flow[k].id !in completed
      && forall j | from <= j < k :: Flow[j].id in completed
    decreases |Flow| - from
  {
    if from >= |Flow| then None
    else if Flow[from].id !in completed then Some(Flow[from])
    else FirstOpenFrom(completed, from + 1)
  }

  /** The section `get_next_topic` picks: the first one not completed, None when all are. */
  function NextTopic(completed: set<string>): Option<Section> {
    FirstOpenFrom(completed, 0)
  }

  /** Whether the lower-cased text carries one of the phrases that the section's branch reacts to;
      a section id outside the flow has no branch. */
  predicate Triggered(topicId: string, low: string) {
    if topicId == "basic_info" then
      Contains(low, "cm") || Contains(low, "kg") || Contains(low, "højde") || Contains(low, "vægt")
    else if topicId == "medical_history" then
      Contains(low, "ingen") || Contains(low, "har aldrig") || Contains(low, "operation")
    else if topicId == "medication" then
      Contains(low, "ingen medicin") || Contains(low, "tager ikke medicin")
    else if topicId == "allergies" then
      Contains(low, "ingen allergi") || Contains(low, "ingen reaktion")
    else if topicId == "lifestyle" then
      Contains(low, "ikke ryger") || Contains(low, "løber") || Contains(low, "motion")
    else false
  }

  /** The sections whose branch marks them completed. */
  predicate CompletesOnTrigger(topicId: string) {
    topicId == "basic_info" || topicId == "medication" || topicId == "allergies"
  }

  /** What a triggered branch stores: the raw text, except the fixed answer for medication. */
  function StoredAnswer(topicId: string, text: string): string {
    if topicId == "medication" then "Ingen medicin" else text
  }

  /** The completed set after one call of `update_state_from_user_input`. */
  function CompletedAfter(completed: set<string>, text: string, topic: Option<string>): (r: set<string>)
    ensures completed <= r && r - completed <= (if topic.Some? then {topic.value} else {})
  {
    if topic.Some? && CompletesOnTrigger(topic.value) && Triggered(topic.value, Lower(text))
    then completed + {topic.value}
    else completed
  }

  /** The answers after one call of `update_state_from_user_input`. */
  function AnswersAfter(answers: map<string, string>, text: string, topic: Option<string>): (r: map<string, string>)
    ensures answers.Keys <= r.Keys
    ensures forall k | k in answers && (topic.None? || k != topic.value) :: r[k] == answers[k]
    ensures r.Keys - answers.Keys <= (if topic.Some? then {topic.value} else {})
  {
    if topic.Some? && Triggered(topic.value, Lower(text))
    then answers[topic.value := StoredAnswer(topic.value, text)]
    else answers
  }

  /** The basic-information section is completed, with the raw text stored, exactly when the
      lower-cased text mentions centimetres, kilograms, height or weight. */
  lemma BasicInfoCompletesOnMeasurements(completed: set<string>, answers: map<string, string>, text: string)
    requires "basic_info" !in completed
    ensures var low := Lower(text);
      var hit := Contains(low, "cm") || Contains(low, "kg") || Contains(low, "højde") || Contains(low, "vægt");
      && ("basic_info" in CompletedAfter(completed, text, Some("basic_info")) <==> hit)
      && (hit ==> AnswersAfter(answers, text, Some("basic_info"))["basic_info"] == text)
      && (!hit ==> AnswersAfter(answers, text, Some("basic_info")) == answers)
  {
  }

  /** Medication completes on "ingen medicin" or "tager ikke medicin" and then always stores
      the fixed answer "Ingen medicin", whatever the patient wrote. */
  lemma MedicationStoresFixedAnswer(completed: set<string>, answers: map<string, string>, text: string)
    requires Contains(Lower(text), "ingen medicin") || Contains(Lower(text), "tager ikke medicin")
    ensures "medication" in CompletedAfter(completed, text, Some("medication"))
    ensures AnswersAfter(answers, text, Some("medication"))["medication"] == "Ingen medicin"
  {
  }

  /** Allergies complete on "ingen allergi" or "ingen reaktion", and on nothing else. */
  lemma AllergiesCompleteOnDenial(completed: set<string>, text: string)
    requires "allergies" !in completed
    ensures "allergies" in CompletedAfter(completed, text, Some("allergies"))
      <==> Contains(Lower(text), "ingen allergi") || Contains(Lower(text), "ingen reaktion")
  {
  }

  /** The medical-history and lifestyle branches store an answer but never complete their section,
      whatever the topic and the text. */
  lemma HistoryAndLifestyleNeverComplete(completed: set<string>, text: string, topic: Option<string>)
    ensures "medical_history" in CompletedAfter(completed, text, topic) <==> "medical_history" in completed
    ensures "lifestyle" in CompletedAfter(completed, text, topic) <==> "lifestyle" in completed
  {
  }

  /** Without a topic nothing changes. */
  lemma NoTopicChangesNothing(completed: set<string>, answers: map<string, string>, text: string)
    ensures CompletedAfter(completed, text, None) == completed
    ensures AnswersAfter(answers, text, None) == answers
  {
  }

  /** The (completed, answers) pair after one turn of the chat endpoint: the next topic is
      looked up and the text is applied to it. */
  function EndpointStep(completed: set<string>, answers: map<string, string>, text: string)
    : (set<string>, map<string, string>)
  {
    var topic := NextTopic(completed);
    var id := if topic.Some? then Some(topic.value.id) else None;
    (CompletedAfter(completed, text, id), AnswersAfter(answers, text, id))
  }

  /** The state after a sequence of endpoint turns. */
  function EndpointRun(completed: set<string>, answers: map<string, string>, texts: seq<string>)
    : (set<string>, map<string, string>)
    decreases |texts|
  {
    if texts == [] then (completed, answers)
    else
      var (c, a) := EndpointRun(completed, answers, texts[..|texts| - 1]);
      EndpointStep(c, a, texts[|texts| - 1])
  }

  /** Once the basic information is done and the medical history is not, the next topic is the
      medical history and stays so for any further turns, so the interview never finishes. */
  lemma {:induction false} StuckAtMedicalHistory(completed: set<string>, answers: map<string, string>, texts: seq<string>)
    requires "basic_info" in completed && "medical_history" !in completed
    ensures var (c, _) := EndpointRun(completed, answers, texts);
      "basic_info" in c && "medical_history" !in c && NextTopic(c) == Some(Flow[1])
    decreases |texts|
  {
    if texts != [] {
      StuckAtMedicalHistory(completed, answers, texts[..|texts| - 1]);
      var (c, a) := EndpointRun(completed, answers, texts[..|texts| - 1]);
      HistoryAndLifestyleNeverComplete(c, texts[|texts| - 1], Some(Flow[1].id));
    }
    var (c, _) := EndpointRun(completed, answers, texts);
    assert NextTopic(c) == FirstOpenFrom(c, 1);
  }

  /** From a fresh state no sequence of turns finishes the interview: the next topic is always
      the basic information or the medical history. */
  lemma {:induction false} FreshInterviewNeverFinishes(texts: seq<string>)
    ensures var (c, _) := EndpointRun({}, map[], texts);
      NextTopic(c) == Some(Flow[0]) || NextTopic(c) == Some(Flow[1])
    decreases |texts|
  {
    var (c, _) := EndpointRun({}, map[], texts);
    if "basic_info" in c {
      if texts != [] {
        var i := FirstBasicInfo(texts);
        StuckAtMedicalHistory(EndpointRun({}, map[], texts[..i + 1]).0, EndpointRun({}, map[], texts[..i + 1]).1, texts[i + 1..]);
        RunSplits({}, map[], texts, i + 1);
      }
    } else {
      MedicalHistoryNeverCompleted(texts);
      assert NextTopic(c) == Some(Flow[0]);
    }
  }

  /** A run from the fresh state never completes the medical history. */
  lemma {:induction false} MedicalHistoryNeverCompleted(texts: seq<string>)
    ensures "medical_history" !in EndpointRun({}, map[], texts).0
    decreases |texts|
  {
    if texts != [] {
      MedicalHistoryNeverCompleted(texts[..|texts| - 1]);
      var (c, a) := EndpointRun({}, map[], texts[..|texts| - 1]);
      var topic := NextTopic(c);
      HistoryAndLifestyleNeverComplete(c, texts[|texts| - 1], if topic.Some? then Some(topic.value.id) else None);
    }
  }

  /** Running the turns in two parts is running them all. */
  lemma {:induction false} RunSplits(completed: set<string>, answers: map<string, string>, texts: seq<string>, n: nat)
    requires n <= |texts|
    ensures var (c, a) := EndpointRun(completed, answers, texts[..n]);
      EndpointRun(c, a, texts[n..]) == EndpointRun(completed, answers, texts)
    decreases |texts| - n
  {
    if n < |texts| {
      var prefix := texts[..|texts| - 1];
      var rest := texts[n..];
      RunSplits(completed, answers, prefix, n);
      assert prefix[..n] == texts[..n];
      var mid := EndpointRun(completed, answers, texts[..n]);
      assert EndpointRun(mid.0, mid.1, prefix[n..]) == EndpointRun(completed, answers, prefix);
      assert rest[..|rest| - 1] == prefix[n..] && rest[|rest| - 1] == texts[|texts| - 1];
      assert EndpointRun(mid.0, mid.1, rest)
        == EndpointStep(EndpointRun(mid.0, mid.1, prefix[n..]).0, EndpointRun(mid.0, mid.1, prefix[n..]).1, texts[|texts| - 1]);
    } else {
      assert texts[..n] == texts;
    }
  }

  /** The turn at which the basic information got completed: it was not completed before it. */
  lemma {:induction false} FirstBasicInfo(texts: seq<string>) returns (i: nat)
    requires "basic_info" in EndpointRun({}, map[], texts).0
    ensures i < |texts|
    ensures "basic_info" in EndpointRun({}, map[], texts[..i + 1]).0
    ensures "medical_history" !in EndpointRun({}, map[], texts[..i + 1]).0
    decreases |texts|
  {
    var prev := texts[..|texts| - 1];
    MedicalHistoryNeverCompleted(texts);
    if texts != [] && "basic_info" in EndpointRun({}, map[], prev).0 {
      i := FirstBasicInfo(prev);
      assert texts[..i + 1] == prev[..i + 1];
    } else {
      i := |texts| - 1;
      assert texts[..i + 1] == texts;
    }
  }

  /** The closing prompt used once every section is completed. */
  const ClosingPrompt :=
    "Du er en erfaren anæstesilæge. Du har nu indsamlet alle nødvendige "
    + "oplysninger for en præoperativ anæstesi-anamnese. "
    + "Lav nu en venlig afrunding og spørg om patienten har yderligere spørgsmål."

  /** The section prompt, up to the label. */
  const SectionPromptHead :=
    "\nDu er anæstesilæge og laver en præoperativ anæstesivurdering.\n"
    + "Samtalen skal være rolig, empatisk og i helt naturligt sprog.\n\n"
    + "Du arbejder struktureret og skal nu dække sektionen:\n**"

  /** The section prompt, from the label to the answers. */
  const SectionPromptRules :=
    "**\n\nREGLER:\n"
    + "- Stil kun 1–2 relevante spørgsmål ad gangen.\n"
    + "- Reager kort på patientens seneste svar.\n"
    + "- Undgå at nævne at du følger en tjekliste.\n\n"
    + "Tidligere indsamlede informationer: "

  /** `build_system_prompt`: the closing prompt when there is no next section; otherwise the
      section prompt with the label in bold and the answers, rendered by `repr`, at the end. */
  function BuildSystemPrompt(nextId: Option<string>, nextLabel: string, answers: map<string, string>,
                             repr: map<string, string> -> string): (r: string)
    ensures nextId.None? ==> r == ClosingPrompt
    ensures nextId.Some? ==>
      var start := |SectionPromptHead|;
      var rest := start + |nextLabel|;
      && |r| > rest + |SectionPromptRules|
      && r[..start] == SectionPromptHead
      && r[start..rest] == nextLabel
      && r[rest..rest + |SectionPromptRules|] == SectionPromptRules
      && r[|r| - 1] == '\n'
    ensures nextId.Some? ==>
      r[|SectionPromptHead| + |nextLabel| + |SectionPromptRules|..|r| - 1] == repr(answers)
  {
    if nextId.None? then ClosingPrompt
    else SectionPromptHead + nextLabel + SectionPromptRules + repr(answers) + "\n"
  }

  /** The closing prompt does not depend on the answers or on how they are rendered. */
  lemma ClosingPromptIgnoresAnswers(label1: string, label2: string, a1: map<string, string>, a2: map<string, string>,
                                    repr1: map<string, string> -> string, repr2: map<string, string> -> string)
    ensures BuildSystemPrompt(None, label1, a1, repr1) == BuildSystemPrompt(None, label2, a2, repr2)
  {
  }

  /** One chat message kept by the interview: a role and a text. */
  datatype ChatMessage = ChatMessage(role: string, content: string)

  /** `ConversationState`: the messages, the completed sections and the gathered answers. */
  class ConversationState {
    var messages: seq<ChatMessage>
    var completed: set<string>
    var answers: map<string, string>

    constructor ()
      ensures messages == [] && completed == {} && answers == map[]
    {
      messages := [];
      completed := {};
      answers := map[];
    }
  }

  /** `get_next_topic`: walks the flow in order and returns the first section not completed. */
  method GetNextTopic(state: ConversationState) returns (r: Option<Section>)
    ensures r == NextTopic(state.completed)
  {
    for i := 0 to |Flow|
      invariant FirstOpenFrom(state.completed, i) == NextTopic(state.completed)
    {
      if Flow[i].id !in state.completed {
        return Some(Flow[i]);
      }
    }
    return None;
  }

  /** `update_state_from_user_input`: applies the text to the branch of `nextTopicId` and returns
      the same state object. */
  method UpdateStateFromUserInput(state: ConversationState, text: string, nextTopicId: Option<string>)
    returns (r: ConversationState)
    modifies state
    ensures r == state
    ensures state.completed == CompletedAfter(old(state.completed), text, nextTopicId)
    ensures state.answers == AnswersAfter(old(state.answers), text, nextTopicId)
    ensures state.messages == old(state.messages)
  {
    r := state;
    if nextTopicId.None? {
      return;
    }
    var low := Lower(text);
    var topic := nextTopicId.value;
    if topic == "basic_info" {
      if Contains(low, "cm") || Contains(low, "kg") || Contains(low, "højde") || Contains(low, "vægt") {
        state.answers := state.answers["basic_info" := text];
        state.completed := state.completed + {"basic_info"};
      }
    } else if topic == "medical_history" {
      if Contains(low, "ingen") || Contains(low, "har aldrig") || Contains(low, "operation") {
        state.answers := state.answers["medical_history" := text];
      }
    } else if topic == "medication" {
      if Contains(low, "ingen medicin") || Contains(low, "tager ikke medicin") {
        state.answers := state.answers["medication" := "Ingen medicin"];
        state.completed := state.completed + {"medication"};
      }
    } else if topic == "allergies" {
      if Contains(low, "ingen allergi") || Contains(low, "ingen reaktion") {
        state.answers := state.answers["allergies" := text];
        state.completed := state.completed + {"allergies"};
      }
    } else if topic == "lifestyle" {
      if Contains(low, "ikke ryger") || Contains(low, "løber") || Contains(low, "motion") {
        state.answers := state.answers["lifestyle" := text];
      }
    }
  }
}
