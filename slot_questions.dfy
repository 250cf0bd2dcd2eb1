/** The fixed question table of the slot-filling interview: each entry names the slot its
    answer fills, the text to ask and whether the slot must be filled. */
module SlotQuestions {

  datatype SlotQuestion = SlotQuestion(id: string, slot: string, text: string, required: bool)

  const ChiefComplaint := SlotQuestion("chief_complaint", "chief_complaint",
    "Can you tell me in your own words why you are coming for surgery and how you are feeling?", true)
  const Allergies := SlotQuestion("allergies", "allergies",
    "Do you have any allergies, especially to medicine, latex, or food?", true)
  const Medications := SlotQuestion("medications", "medications",
    "Are you currently taking any medications? Please include prescription, over-the-counter, and supplements.", true)
  const PastSurgery := SlotQuestion("past_surgery", "past_surgery",
    "Have you had any operations or anesthesia in the past? If yes, did you have any complications?", true)
  const ChronicDiseases := SlotQuestion("chronic_diseases", "chronic_diseases",
    "Do you have any chronic illnesses such as heart disease, lung disease, diabetes, kidney problems, or others?", true)
  const SmokingAlcohol := SlotQuestion("smoking_alcohol", "smoking_alcohol",
    "Do you smoke, vape, or drink alcohol? If yes, how much and how often?", false)

  /** `QUESTIONS`, in the order they are asked. */
  const Questions: seq<SlotQuestion> := [ChiefComplaint, Allergies, Medications, PastSurgery, ChronicDiseases, SmokingAlcohol]

  /** Six entries, each with its id equal to its slot, all required but the last. */
  lemma QuestionsShape()
    ensures |Questions| == 6
    ensures forall i | 0 <= i < |Questions| :: Questions[i].id == Questions[i].slot
    ensures forall i | 0 <= i < |Questions| :: Questions[i].required <==> i < 5
    ensures Questions[5].slot == "smoking_alcohol"
  {
  }

  /** No two entries share a slot (nor, therefore, an id). */
  lemma SlotsDistinct()
    ensures forall i, j | 0 <= i < j < |Questions| :: Questions[i].slot != Questions[j].slot
  {
    assert ChiefComplaint.slot[0] == 'c' && ChiefComplaint.slot[2] == 'i';
    assert Allergies.slot[0] == 'a';
    assert Medications.slot[0] == 'm';
    assert PastSurgery.slot[0] == 'p';
    assert ChronicDiseases.slot[0] == 'c' && ChronicDiseases.slot[2] == 'r';
    assert SmokingAlcohol.slot[0] == 's';
  }
}
