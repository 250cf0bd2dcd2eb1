/** The sequential question flow: a fixed list of standardized questions served by the
    conversation's `questionIndex`. The list is given to the constructor; reading it from a
    JSON file is not part of this model. */
module QuestionFlow {
  import opened Wrappers
  import opened DomainModels

  /** The question at `index`, or None when the index is negative or past the last question. */
  function QuestionAt(questions: seq<Question>, index: int): (r: Option<Question>)
    ensures r.None? <==> index < 0 || index >= |questions|
    ensures r.Some? ==> 0 <= index < |questions| && r.value == questions[index]
  {
    if index < 0 || index >= |questions| then None else Some(questions[index])
  }

  class JsonQuestionFlow {
    const questions: seq<Question>

    constructor (questions: seq<Question>)
      ensures this.questions == questions
    {
      this.questions := questions;
    }

    /** The conversation's current question, or None when its index is out of range. */
    function GetQuestion(conv: Conversation): (r: Option<Question>)
      reads conv
      ensures r.None? <==> conv.questionIndex < 0 || conv.questionIndex >= |questions|
      ensures r.Some? ==> r.value == questions[conv.questionIndex]
      ensures r == QuestionAt(questions, conv.questionIndex)
    {
      QuestionAt(questions, conv.questionIndex)
    }

    /** Moves to the next question whatever the answer text, clears the active question id,
        changes nothing else and hands back the same conversation. */
    method AdvanceWithAnswer(conv: Conversation, answerText: string) returns (r: Conversation)
      modifies conv
      ensures r == conv
      ensures conv.questionIndex == old(conv.questionIndex) + 1
      ensures conv.activeQuestionId == None
      ensures conv.state == old(conv.state) && conv.answers == old(conv.answers)
    {
      conv.questionIndex := conv.questionIndex + 1;
      conv.activeQuestionId := None;
      return conv;
    }

    /** Serves the current question and then advances with the next answer text, once per
        text, starting from the first question: the questions served are the first ones of
        the list in order, and afterwards the flow offers the question after the last answer,
        or none once every question has been answered. */
    method Walk(conv: Conversation, answerTexts: seq<string>) returns (served: seq<Question>)
      modifies conv
      requires conv.questionIndex == 0
      ensures conv.questionIndex == |answerTexts|
      ensures |answerTexts| <= |questions| ==> served == questions[..|answerTexts|]
      ensures |answerTexts| > |questions| ==> served == questions
      ensures GetQuestion(conv) == (if |answerTexts| < |questions| then Some(questions[|answerTexts|]) else None)
      ensures conv.state == old(conv.state) && conv.answers == old(conv.answers)
    {
      served := [];
      var i := 0;
      while i < |answerTexts|
        invariant 0 <= i <= |answerTexts|
        invariant conv.questionIndex == i
        invariant i <= |questions| ==> served == questions[..i]
        invariant i > |questions| ==> served == questions
        invariant conv.state == old(conv.state) && conv.answers == old(conv.answers)
      {
        var q := GetQuestion(conv);
        if q.Some? {
          served := served + [q.value];
        }
        var _ := AdvanceWithAnswer(conv, answerTexts[i]);
        i := i + 1;
      }
    }
  }
}
