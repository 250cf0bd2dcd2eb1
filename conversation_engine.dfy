/** The slot-filling interview engine: a map from slot names to collected text, a cursor into
    the question table that only moves forward, and the rule that a slot counts as filled
    only when it holds a non-empty text. */
module ConversationEngine {
  import opened Wrappers
  import opened SlotQuestions

  /** Python truthiness of `slots.get(slot)`: present, not None and not "". */
  predicate Filled(slots: map<string, Option<string>>, slot: string) {
    slot in slots && slots[slot].Some? && slots[slot].value != ""
  }

  /** The slots after `setdefault(q.slot, None)` for each of `qs`. */
  function WithDefaults(slots: map<string, Option<string>>, qs: seq<SlotQuestion>): (r: map<string, Option<string>>)
    decreases |qs|
  {
    if qs == [] then slots
    else
      var last := qs[|qs| - 1];
      var prev := WithDefaults(slots, qs[..|qs| - 1]);
      if last.slot in prev then prev else prev[last.slot := None]
  }

  /** Every slot of the table gets a key; values already present are kept; no other key appears. */
  lemma {:induction false} WithDefaultsKeys(slots: map<string, Option<string>>, qs: seq<SlotQuestion>)
    ensures var r := WithDefaults(slots, qs);
      && (forall i | 0 <= i < |qs| :: qs[i].slot in r)
      && (forall k | k in slots :: k in r && r[k] == slots[k])
      && (forall k | k in r :: k in slots || (exists i | 0 <= i < |qs| :: qs[i].slot == k))
      && (forall k | k in r && k !in slots :: r[k] == None)
    decreases |qs|
  {
    if qs != [] {
      var prev := qs[..|qs| - 1];
      WithDefaultsKeys(slots, prev);
      var r := WithDefaults(slots, qs);
      forall k | k in r ensures k in slots || (exists i | 0 <= i < |qs| :: qs[i].slot == k) {
        if k !in slots && k != qs[|qs| - 1].slot {
          var i :| 0 <= i < |prev| && prev[i].slot == k;
          assert qs[i] == prev[i];
        }
      }
      forall i | 0 <= i < |qs| ensures qs[i].slot in r {
        if i < |prev| {
          assert qs[i] == prev[i];
        }
      }
    }
  }

  /** The required slots of `qs` that are not filled, in table order. */
  function MissingRequired(slots: map<string, Option<string>>, qs: seq<SlotQuestion>): (r: seq<string>)
    ensures |r| <= |qs|
    decreases |qs|
  {
    if qs == [] then []
    else
      var last := qs[|qs| - 1];
      MissingRequired(slots, qs[..|qs| - 1]) + (if last.required && !Filled(slots, last.slot) then [last.slot] else [])
  }

  /** A slot is reported missing exactly when some required entry names it and it is unfilled. */
  lemma {:induction false} MissingRequiredMembers(slots: map<string, Option<string>>, qs: seq<SlotQuestion>, slot: string)
    ensures slot in MissingRequired(slots, qs) <==>
      !Filled(slots, slot) && exists i | 0 <= i < |qs| :: qs[i].required && qs[i].slot == slot
    decreases |qs|
  {
    if qs != [] {
      var prev := qs[..|qs| - 1];
      MissingRequiredMembers(slots, prev, slot);
      if exists i | 0 <= i < |prev| :: prev[i].required && prev[i].slot == slot {
        var i :| 0 <= i < |prev| && prev[i].required && prev[i].slot == slot;
        assert qs[i] == prev[i];
      }
      if exists i | 0 <= i < |qs| :: qs[i].required && qs[i].slot == slot {
        var i :| 0 <= i < |qs| && qs[i].required && qs[i].slot == slot;
        if i < |prev| {
          assert prev[i] == qs[i];
        }
      }
    }
  }

  /** The index of the first entry at or after `from` whose slot is unfilled. */
  function FirstUnfilledFrom(slots: map<string, Option<string>>, from: nat): (r: Option<nat>)
    ensures r.Some? ==>
      (from <= r.value < |Questions| && !Filled(slots, Questions[r.value].slot)
       && forall k | from <= k < r.value :: Filled(slots, Questions[k].slot))
    ensures r.None? ==> forall k | from <= k < |Questions| :: Filled(slots, Questions[k].slot)
    decreases |Questions| - from
  {
    if from >= |Questions| then None
    else if !Filled(slots, Questions[from].slot) then Some(from)
    else FirstUnfilledFrom(slots, from + 1)
  }

  /** The updates after which the slot map is `slots[k := v]` for each truthy `(k, v)`, in order. */
  function ApplyUpdates(slots: map<string, Option<string>>, updates: seq<(string, Option<string>)>): (r: map<string, Option<string>>)
    decreases |updates|
  {
    if updates == [] then slots
    else
      var prev := ApplyUpdates(slots, updates[..|updates| - 1]);
      var (k, v) := updates[|updates| - 1];
      if v.Some? && v.value != "" then prev[k := v] else prev
  }

  /** Updates never empty a slot: whatever was filled stays filled. Unfilled values in the
      updates are ignored, and a slot outside the table is written like any other. */
  lemma {:induction false} ApplyUpdatesKeepsFilled(slots: map<string, Option<string>>, updates: seq<(string, Option<string>)>, slot: string)
    ensures Filled(slots, slot) ==> Filled(ApplyUpdates(slots, updates), slot)
    ensures (forall i | 0 <= i < |updates| :: updates[i].0 != slot || !(updates[i].1.Some? && updates[i].1.value != "")) ==>
      ((slot in ApplyUpdates(slots, updates) <==> slot in slots)
       && (slot in slots ==> ApplyUpdates(slots, updates)[slot] == slots[slot]))
    decreases |updates|
  {
    if updates != [] {
      ApplyUpdatesKeepsFilled(slots, updates[..|updates| - 1], slot);
    }
  }

  /** With distinct keys, a truthy update is what its slot holds afterwards, whether or not the
      slot belongs to the question table. */
  lemma {:induction false} ApplyUpdatesWrites(slots: map<string, Option<string>>, updates: seq<(string, Option<string>)>, j: nat)
    requires j < |updates| && updates[j].1.Some? && updates[j].1.value != ""
    requires forall a, b | 0 <= a < b < |updates| :: updates[a].0 != updates[b].0
    ensures updates[j].0 in ApplyUpdates(slots, updates)
    ensures ApplyUpdates(slots, updates)[updates[j].0] == updates[j].1
    decreases |updates|
  {
    if j < |updates| - 1 {
      ApplyUpdatesWrites(slots, updates[..|updates| - 1], j);
    }
  }

  /** `ConversationState`: the slot values and the chat history. */
  class EngineState {
    var slots: map<string, Option<string>>
    var history: seq<map<string, string>>

    /** Builds the state and, as `__post_init__` does, gives every table slot a key. */
    constructor (slots: map<string, Option<string>>, history: seq<map<string, string>>)
      ensures this.slots == WithDefaults(slots, Questions) && this.history == history
    {
      this.history := history;
      var s := slots;
      for i := 0 to |Questions|
        invariant s == WithDefaults(slots, Questions[..i])
      {
        assert Questions[..i + 1][..i] == Questions[..i];
        if Questions[i].slot !in s {
          s := s[Questions[i].slot := None];
        }
      }
      assert Questions[..|Questions|] == Questions;
      this.slots := s;
    }

    /** `unanswered_required_slots`: the required slots whose value is missing, None or "". */
    method UnansweredRequiredSlots() returns (missing: seq<string>)
      ensures missing == MissingRequired(slots, Questions)
    {
      missing := [];
      for i := 0 to |Questions|
        invariant missing == MissingRequired(slots, Questions[..i])
      {
        assert Questions[..i + 1][..i] == Questions[..i];
        if Questions[i].required && !Filled(slots, Questions[i].slot) {
          missing := missing + [Questions[i].slot];
        }
      }
      assert Questions[..|Questions|] == Questions;
    }
  }

  class Engine {
    const state: EngineState
    var currentQuestionIndex: nat

    constructor ()
      ensures fresh(state) && state.slots == WithDefaults(map[], Questions) && state.history == []
      ensures currentQuestionIndex == 0
    {
      state := new EngineState(map[], []);
      currentQuestionIndex := 0;
    }

    /** `next_question`: the text of the first entry at or after the cursor whose slot is
        unfilled, moving the cursor there; None, with the cursor left alone, when there is none. */
    method NextQuestion() returns (r: Option<string>)
      modifies this
      ensures match FirstUnfilledFrom(state.slots, old(currentQuestionIndex))
        case Some(k) => currentQuestionIndex == k && r == Some(Questions[k].text)
        case None => currentQuestionIndex == old(currentQuestionIndex) && r.None?
      ensures old(currentQuestionIndex) <= currentQuestionIndex
    {
      var i := currentQuestionIndex;
      while i < |Questions|
        invariant currentQuestionIndex <= i
        invariant currentQuestionIndex == old(currentQuestionIndex)
        invariant FirstUnfilledFrom(state.slots, i) == FirstUnfilledFrom(state.slots, currentQuestionIndex)
        decreases |Questions| - i
      {
        if !Filled(state.slots, Questions[i].slot) {
          currentQuestionIndex := i;
          return Some(Questions[i].text);
        }
        i := i + 1;
      }
      return None;
    }

    /** `mark_slots_from_llm`: writes each update whose value is non-empty. */
    method MarkSlotsFromLlm(updates: seq<(string, Option<string>)>)
      modifies state
      ensures state.slots == ApplyUpdates(old(state.slots), updates)
      ensures state.history == old(state.history)
    {
      for i := 0 to |updates|
        invariant state.slots == ApplyUpdates(old(state.slots), updates[..i])
        invariant state.history == old(state.history)
      {
        assert updates[..i + 1][..i] == updates[..i];
        var (slot, value) := updates[i];
        if value.Some? && value.value != "" {
          state.slots := state.slots[slot := value];
        }
      }
      assert updates[..|updates|] == updates;
    }

    /** `is_complete`: no required slot is unfilled. */
    method IsComplete() returns (r: bool)
      ensures r <==> forall i | 0 <= i < |Questions| :: Questions[i].required ==> Filled(state.slots, Questions[i].slot)
    {
      var missing := state.UnansweredRequiredSlots();
      r := |missing| == 0;
      forall i | 0 <= i < |Questions| && Questions[i].required
        ensures Filled(state.slots, Questions[i].slot) <==> Questions[i].slot !in missing
      {
        MissingRequiredMembers(state.slots, Questions, Questions[i].slot);
      }
      if !r {
        var s := missing[0];
        MissingRequiredMembers(state.slots, Questions, s);
      }
    }
  }

  /** A fresh engine asks the chief complaint first, and an answer to it moves
      the next question on to the allergies. */
  lemma FreshEngineAsksChiefComplaint()
    ensures FirstUnfilledFrom(WithDefaults(map[], Questions), 0) == Some(0)
    ensures FirstUnfilledFrom(WithDefaults(map[], Questions)["chief_complaint" := Some("knee surgery")], 0) == Some(1)
  {
    var s := WithDefaults(map[], Questions);
    WithDefaultsKeys(map[], Questions);
    assert !Filled(s, Questions[0].slot);
    var s1 := s["chief_complaint" := Some("knee surgery")];
    assert Filled(s1, Questions[0].slot);
    SlotsDistinct();
    assert s1[Questions[1].slot] == s[Questions[1].slot] == None;
    assert FirstUnfilledFrom(s1, 0) == FirstUnfilledFrom(s1, 1);
  }
}
