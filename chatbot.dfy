/** The patient-facing chat panel: the canned-answer keyword classifier, the suggested
    questions and the message list that a send extends. */
module PatientChatbot {
  import opened Text

  /** The keys of the `botResponses` table. */
  datatype Topic = Prepare | Risks | Wake | Eat | Effects | Pain | Default

  // The canned texts of the `botResponses` table.
  const PrepareText := "For at forberede dig til din operation:\n\n• Spis eller drik ikke noget i 8 timer før dit indgreb (medmindre du får andre instruktioner)\n• Tag din faste medicin med en lille slurk vand (tjek med din læge først)\n• Fjern alle smykker, kontaktlinser og tandproteser\n• Brug behageligt, løstsiddende tøj\n• Sørg for, at nogen kan køre dig hjem\n• Følg eventuelle specifikke instruktioner fra dit operationsteam\n\nDin anæstesilæge vil gennemgå det hele med dig inden indgrebet."

  const RisksText := "Fuld bedøvelse er meget sikker for de fleste patienter. Almindelige, midlertidige effekter inkluderer:\n\n• Kvalme eller opkast (kan behandles med medicin)\n• Ondt i halsen fra vejrtrækningsrør\n• Træthed og forvirring i nogle timer\n• Let hæshed\n\nAlvorlige komplikationer er sjældne, men kan inkludere:\n• Allergiske reaktioner\n• Vejrtrækningsbesvær\n• Ændringer i blodtryk eller hjerterytme\n\nDin anæstesilæge overvåger dig nøje under hele indgrebet og justerer medicinen efter behov for at holde dig sikker. De vil tale med dig om dine specifikke risikofaktorer under din præoperative vurdering."

  const WakeText := "De fleste patienter begynder at vågne inden for 5-15 minutter efter bedøvelsen stoppes, men fuld restitution tager længere tid:\n\n• Første opvågning: 5-15 minutter\n• Klar nok til at svare: 30-60 minutter\n• Føler sig mere normal: 4-6 timer\n• Fuld restitution: 24 timer\n\nDen præcise tid varierer afhængigt af:\n• Type og varighed af operation\n• Hvilken medicin der anvendes\n• Din alder og generelle helbred\n• Din individuelle reaktion på bedøvelse\n\nDu vil blive overvåget tæt i opvågningsafsnittet, indtil du er stabil og har det godt."

  const EatText := "**Fastevejledning** (typisk):\n\n**Spis eller drik IKKE:**\n• 8 timer før operation ved fast føde\n• 6 timer før ved lette måltider\n• 2 timer før ved klare væsker (vand, sort kaffe, klar juice)\n\n**Hvorfor er dette vigtigt?**\nBedøvelse afslapper dine muskler, inklusive dem der forhindrer maveindhold i at komme op. En tom mave mindsker risikoen for aspiration (maveindhold der kommer ned i lungerne), hvilket kan være farligt.\n\n**Vigtigt:**\nFølg altid de specifikke instruktioner fra dit operationsteam, da retningslinjer kan variere afhængigt af dit indgreb og din sygehistorie. Hvis du ved et uheld spiser eller drikker, så informér din anæstesilæge med det samme."

  const EffectsText := "Almindelige bivirkninger efter bedøvelse inkluderer:\n\n**De første timer:**\n• Træthed og døsighed\n• Kvalme eller opkast\n• Ondt i halsen\n• Tør mund\n• Følelse af kulde eller rysten\n• Forvirring eller hukommelseshuller\n\n**De næste 24-48 timer:**\n• Let svimmelhed\n• Hovedpine\n• Muskelømhed\n• Svært ved at koncentrere sig\n\n**De fleste bivirkninger:**\n• Er midlertidige og milde\n• Forsvinder inden for 24-48 timer\n• Kan håndteres med medicin\n• Overvåges tæt af sundhedspersonalet\n\nKontakt din sundhedsudbyder, hvis du oplever alvorlige symptomer eller noget bekymrende efter du er kommet hjem."

  const PainText := "**Under indgrebet:**\nNej, du vil IKKE mærke smerte under operationen. Bedøvelse sikrer, at du er helt bevidstløs og smertefri. Du vil ikke mærke, se, høre eller huske noget.\n\n**Hvordan virker det:**\n• Fuld bedøvelse bringer dig i en dyb søvn\n• Smertestillende medicin gives løbende\n• Dine vitale værdier overvåges konstant\n• Anæstesilægen justerer medicinen efter behov\n\n**Efter indgrebet:**\nDu kan opleve smerte, når bedøvelsen aftager, men:\n• Smertestillende gives, før du vågner\n• Dit smerteniveau vurderes regelmæssigt\n• Du kan få ekstra medicin efter behov\n• Smertelindring er en prioritet for dit behandlingsteam\n\nTøv aldrig med at sige til sygeplejerskerne, hvis du har smerter - der findes mange effektive muligheder for at holde dig komfortabel."

  const DefaultText := "Jeg forstår, at du har spørgsmål om din bedøvelse og dit indgreb. Jeg kan give generel information, men jeg kan ikke erstatte den personlige behandling og rådgivning fra dit sundhedsteam.\n\nFor specifikke spørgsmål om din situation, kan du:\n• Tale med din anæstesilæge ved din præoperative samtale\n• Ringe til dit operationsteams afdeling\n• Stille spørgsmål på dagen for dit indgreb\n\nEr der et generelt emne om bedøvelse, jeg kan hjælpe med at forklare? Du kan også vælge blandt de foreslåede spørgsmål nedenfor."

  /** The `botResponses` table. */
  function BotResponse(t: Topic): string {
    match t
    case Prepare => PrepareText
    case Risks => RisksText
    case Wake => WakeText
    case Eat => EatText
    case Effects => EffectsText
    case Pain => PainText
    case Default => DefaultText
  }

  /** The keyword groups of `getBotResponse`, in the order they are tried. */
  const TriggerGroups: seq<(Topic, seq<string>)> := [
    (Prepare, ["prepare", "preparation"]),
    (Risks, ["risk", "danger", "safe"]),
    (Wake, ["wake", "recovery", "conscious"]),
    (Eat, ["eat", "drink", "fast", "food"]),
    (Effects, ["side effect", "after", "expect"]),
    (Pain, ["pain", "hurt", "feel"])
  ]

  /** Some keyword of the list occurs in `lower`. */
  predicate MentionsAny(lower: string, keywords: seq<string>) {
    keywords != [] && (Contains(lower, keywords[0]) || MentionsAny(lower, keywords[1..]))
  }

  /** `getBotResponse`'s branch selection: a chain of substring tests on the lowercased message. */
  function Classify(message: string): Topic {
    var lower := Lower(message);
    if Contains(lower, "prepare") || Contains(lower, "preparation") then Prepare
    else if Contains(lower, "risk") || Contains(lower, "danger") || Contains(lower, "safe") then Risks
    else if Contains(lower, "wake") || Contains(lower, "recovery") || Contains(lower, "conscious") then Wake
    else if Contains(lower, "eat") || Contains(lower, "drink") || Contains(lower, "fast") || Contains(lower, "food") then Eat
    else if Contains(lower, "side effect") || Contains(lower, "after") || Contains(lower, "expect") then Effects
    else if Contains(lower, "pain") || Contains(lower, "hurt") || Contains(lower, "feel") then Pain
    else Default
  }

  /** The first group, in table order, with a keyword in `lower`; `Default` when none has. */
  function FirstMatch(lower: string, groups: seq<(Topic, seq<string>)>): Topic {
    if groups == [] then Default
    else if MentionsAny(lower, groups[0].1) then groups[0].0
    else FirstMatch(lower, groups[1..])
  }

  lemma {:induction false} FirstMatchEarliest(lower: string, groups: seq<(Topic, seq<string>)>, i: nat)
    requires i < |groups| && MentionsAny(lower, groups[i].1)
    requires forall j | 0 <= j < i :: !MentionsAny(lower, groups[j].1)
    ensures FirstMatch(lower, groups) == groups[i].0
  {
    if i > 0 {
      FirstMatchEarliest(lower, groups[1..], i - 1);
    }
  }

  lemma {:induction false} FirstMatchNone(lower: string, groups: seq<(Topic, seq<string>)>)
    requires forall j | 0 <= j < |groups| :: groups[j].0 != Default
    ensures FirstMatch(lower, groups) == Default <==> forall j | 0 <= j < |groups| :: !MentionsAny(lower, groups[j].1)
  {
    if groups != [] {
      var rest := groups[1..];
      assert forall j | 0 <= j < |rest| :: rest[j] == groups[j + 1];
      FirstMatchNone(lower, rest);
      if !MentionsAny(lower, groups[0].1) {
        assert (forall j | 0 <= j < |groups| :: !MentionsAny(lower, groups[j].1))
               <==> (forall j | 0 <= j < |rest| :: !MentionsAny(lower, rest[j].1));
      }
    }
  }

  lemma MentionsAnyOfTwo(lower: string, a: string, b: string)
    ensures MentionsAny(lower, [a, b]) <==> Contains(lower, a) || Contains(lower, b)
  {
    assert [a, b][1..] == [b];
    assert [b][1..] == [];
    assert MentionsAny(lower, [b]) <==> Contains(lower, b);
  }

  lemma MentionsAnyOfThree(lower: string, a: string, b: string, c: string)
    ensures MentionsAny(lower, [a, b, c]) <==> Contains(lower, a) || Contains(lower, b) || Contains(lower, c)
  {
    assert [a, b, c][1..] == [b, c];
    MentionsAnyOfTwo(lower, b, c);
  }

  lemma MentionsAnyOfFour(lower: string, a: string, b: string, c: string, d: string)
    ensures MentionsAny(lower, [a, b, c, d])
            <==> Contains(lower, a) || Contains(lower, b) || Contains(lower, c) || Contains(lower, d)
  {
    assert [a, b, c, d][1..] == [b, c, d];
    MentionsAnyOfThree(lower, b, c, d);
  }

  lemma FirstMatchStep(lower: string, groups: seq<(Topic, seq<string>)>, k: nat)
    requires k < |groups|
    ensures FirstMatch(lower, groups[k..])
            == if MentionsAny(lower, groups[k].1) then groups[k].0 else FirstMatch(lower, groups[k + 1..])
  {
    assert groups[k..][1..] == groups[k + 1..];
  }

  /** The if/else chain of `getBotResponse` is the first-match rule over the keyword table. */
  lemma ClassifyIsFirstMatch(message: string)
    ensures Classify(message) == FirstMatch(Lower(message), TriggerGroups)
  {
    var lower, g := Lower(message), TriggerGroups;
    FirstMatchStep(lower, g, 5);
    FirstMatchStep(lower, g, 4);
    FirstMatchStep(lower, g, 3);
    FirstMatchStep(lower, g, 2);
    FirstMatchStep(lower, g, 1);
    FirstMatchStep(lower, g, 0);
    MentionsAnyOfTwo(lower, "prepare", "preparation");
    MentionsAnyOfThree(lower, "risk", "danger", "safe");
    MentionsAnyOfThree(lower, "wake", "recovery", "conscious");
    MentionsAnyOfFour(lower, "eat", "drink", "fast", "food");
    MentionsAnyOfThree(lower, "side effect", "after", "expect");
    MentionsAnyOfThree(lower, "pain", "hurt", "feel");
  }

  /** `getBotResponse`: the canned text of the first keyword group the message mentions. */
  function GetBotResponse(message: string): (r: string)
    ensures r == BotResponse(FirstMatch(Lower(message), TriggerGroups))
  {
    ClassifyIsFirstMatch(message);
    BotResponse(Classify(message))
  }

  /** The default text is given exactly when no keyword of any group occurs. */
  lemma ClassifyDefaultIffNoKeyword(message: string)
    ensures Classify(message) == Default
            <==> forall j | 0 <= j < |TriggerGroups| :: !MentionsAny(Lower(message), TriggerGroups[j].1)
  {
    ClassifyIsFirstMatch(message);
    FirstMatchNone(Lower(message), TriggerGroups);
  }

  /** Group `i` wins when it is the first group with a keyword in the message. */
  lemma ClassifyPicksEarliestGroup(message: string, i: nat)
    requires i < |TriggerGroups| && MentionsAny(Lower(message), TriggerGroups[i].1)
    requires forall j | 0 <= j < i :: !MentionsAny(Lower(message), TriggerGroups[j].1)
    ensures Classify(message) == TriggerGroups[i].0
  {
    ClassifyIsFirstMatch(message);
    FirstMatchEarliest(Lower(message), TriggerGroups, i);
  }

  /** A message about risk never gets the pain text, even when it also mentions pain. */
  lemma RiskOutranksPain(message: string)
    requires Contains(Lower(message), "risk")
    ensures Classify(message) == Prepare || Classify(message) == Risks
  {
  }

  /** The classifier ignores case. */
  lemma ClassifyIgnoresCase(message: string)
    ensures Classify(Lower(message)) == Classify(message)
  {
    LowerIdempotent(message);
  }

  // The six suggested questions. Long literals are written in pieces so that the verifier
  // can look up their characters.
  const Suggestion1 := "Hvad skal jeg gøre for at" + " forberede mig til min op" + "eration?"
  const Suggestion2 := "Hvilke risici er der ved " + "fuld bedøvelse?"
  const Suggestion3 := "Hvor lang tid tager det a" + "t vågne efter bedøvelse?"
  const Suggestion4 := "Må jeg spise eller drikke" + " før mit indgreb?"
  const Suggestion5 := "Hvilke bivirkninger kan j" + "eg forvente?"
  const Suggestion6 := "Vil jeg mærke smerte unde" + "r indgrebet?"

  const SuggestedQuestions: seq<string> := [Suggestion1, Suggestion2, Suggestion3, Suggestion4, Suggestion5, Suggestion6]

  /** The characters that follow each character in suggested question 1, lowercased. */
  function Suggestion1Successors(c: char): set<char> {
    match c
    case ' ' => {'a', 'f', 'g', 'j', 'm', 'o', 's', 't'}
    case 'a' => {'d', 'l', 't'}
    case 'b' => {'e'}
    case 'd' => {' ', 'e'}
    case 'e' => {' ', 'd', 'g', 'r'}
    case 'f' => {'o'}
    case 'g' => {' ', 'ø'}
    case 'h' => {'v'}
    case 'i' => {'g', 'l', 'n', 'o'}
    case 'j' => {'e'}
    case 'k' => {'a'}
    case 'l' => {' '}
    case 'm' => {'i'}
    case 'n' => {' ', '?'}
    case 'o' => {'n', 'p', 'r'}
    case 'p' => {'e'}
    case 'r' => {' ', 'a', 'b', 'e'}
    case 's' => {'k'}
    case 't' => {' ', 'i'}
    case 'v' => {'a'}
    case 'ø' => {'r'}
    case _ => {}
  }

  lemma Suggestion1PairsWithin()
    ensures PairsWithin(Lower(Suggestion1), Suggestion1Successors)
  {
    var h := Lower(Suggestion1);
    // One case per position, so that each adjacent pair is evaluated on its own.
    forall i | 0 <= i < |h| - 1 ensures h[i + 1] in Suggestion1Successors(h[i]) {
      assert i == 0 || i == 1 || i == 2 || i == 3 || i == 4 || i == 5 || i == 6 || i == 7 ||
        i == 8 || i == 9 || i == 10 || i == 11 || i == 12 || i == 13 || i == 14 || i == 15 ||
        i == 16 || i == 17 || i == 18 || i == 19 || i == 20 || i == 21 || i == 22 || i == 23 ||
        i == 24 || i == 25 || i == 26 || i == 27 || i == 28 || i == 29 || i == 30 || i == 31 ||
        i == 32 || i == 33 || i == 34 || i == 35 || i == 36 || i == 37 || i == 38 || i == 39 ||
        i == 40 || i == 41 || i == 42 || i == 43 || i == 44 || i == 45 || i == 46 || i == 47 ||
        i == 48 || i == 49 || i == 50 || i == 51 || i == 52 || i == 53 || i == 54 || i == 55 ||
        i == 56;
    }
  }

  /** Suggested question 1 mentions no keyword: each keyword has an adjacent pair of
      characters that the lowercased question never has. */
  lemma Suggestion1MentionsNoKeyword()
    ensures !Contains(Lower(Suggestion1), "prepare")
    ensures !Contains(Lower(Suggestion1), "preparation")
    ensures !Contains(Lower(Suggestion1), "risk")
    ensures !Contains(Lower(Suggestion1), "danger")
    ensures !Contains(Lower(Suggestion1), "safe")
    ensures !Contains(Lower(Suggestion1), "wake")
    ensures !Contains(Lower(Suggestion1), "recovery")
    ensures !Contains(Lower(Suggestion1), "conscious")
    ensures !Contains(Lower(Suggestion1), "eat")
    ensures !Contains(Lower(Suggestion1), "drink")
    ensures !Contains(Lower(Suggestion1), "fast")
    ensures !Contains(Lower(Suggestion1), "food")
    ensures !Contains(Lower(Suggestion1), "side effect")
    ensures !Contains(Lower(Suggestion1), "after")
    ensures !Contains(Lower(Suggestion1), "expect")
    ensures !Contains(Lower(Suggestion1), "pain")
    ensures !Contains(Lower(Suggestion1), "hurt")
    ensures !Contains(Lower(Suggestion1), "feel")
  {
    var h := Lower(Suggestion1);
    Suggestion1PairsWithin();
    NotContainsByPair(h, "prepare", Suggestion1Successors, 0);
    NotContainsByPair(h, "preparation", Suggestion1Successors, 0);
    NotContainsByPair(h, "risk", Suggestion1Successors, 0);
    NotContainsByPair(h, "danger", Suggestion1Successors, 0);
    NotContainsByPair(h, "safe", Suggestion1Successors, 0);
    NotContainsByPair(h, "wake", Suggestion1Successors, 0);
    NotContainsByPair(h, "recovery", Suggestion1Successors, 1);
    NotContainsByPair(h, "conscious", Suggestion1Successors, 0);
    NotContainsByPair(h, "eat", Suggestion1Successors, 0);
    NotContainsByPair(h, "drink", Suggestion1Successors, 0);
    NotContainsByPair(h, "fast", Suggestion1Successors, 0);
    NotContainsByPair(h, "food", Suggestion1Successors, 1);
    NotContainsByPair(h, "side effect", Suggestion1Successors, 0);
    NotContainsByPair(h, "after", Suggestion1Successors, 0);
    NotContainsByPair(h, "expect", Suggestion1Successors, 0);
    NotContainsByPair(h, "pain", Suggestion1Successors, 0);
    NotContainsByPair(h, "hurt", Suggestion1Successors, 0);
    NotContainsByPair(h, "feel", Suggestion1Successors, 0);
  }

  /** The characters that follow each character in suggested question 2, lowercased. */
  function Suggestion2Successors(c: char): set<char> {
    match c
    case ' ' => {'b', 'd', 'e', 'f', 'r', 'v'}
    case 'b' => {'e'}
    case 'c' => {'i'}
    case 'd' => {' ', 'e', 'ø'}
    case 'e' => {' ', '?', 'd', 'l', 'r'}
    case 'f' => {'u'}
    case 'h' => {'v'}
    case 'i' => {' ', 'c', 'l', 's'}
    case 'k' => {'e'}
    case 'l' => {'d', 'k', 's'}
    case 'r' => {' ', 'i'}
    case 's' => {'e', 'i'}
    case 'u' => {'l'}
    case 'v' => {'e', 'i'}
    case 'ø' => {'v'}
    case _ => {}
  }

  lemma Suggestion2PairsWithin()
    ensures PairsWithin(Lower(Suggestion2), Suggestion2Successors)
  {
    var h := Lower(Suggestion2);
    // One case per position, so that each adjacent pair is evaluated on its own.
    forall i | 0 <= i < |h| - 1 ensures h[i + 1] in Suggestion2Successors(h[i]) {
      assert i == 0 || i == 1 || i == 2 || i == 3 || i == 4 || i == 5 || i == 6 || i == 7 ||
        i == 8 || i == 9 || i == 10 || i == 11 || i == 12 || i == 13 || i == 14 || i == 15 ||
        i == 16 || i == 17 || i == 18 || i == 19 || i == 20 || i == 21 || i == 22 || i == 23 ||
        i == 24 || i == 25 || i == 26 || i == 27 || i == 28 || i == 29 || i == 30 || i == 31 ||
        i == 32 || i == 33 || i == 34 || i == 35 || i == 36 || i == 37 || i == 38;
    }
  }

  /** Suggested question 2 mentions no keyword: each keyword has an adjacent pair of
      characters that the lowercased question never has. */
  lemma Suggestion2MentionsNoKeyword()
    ensures !Contains(Lower(Suggestion2), "prepare")
    ensures !Contains(Lower(Suggestion2), "preparation")
    ensures !Contains(Lower(Suggestion2), "risk")
    ensures !Contains(Lower(Suggestion2), "danger")
    ensures !Contains(Lower(Suggestion2), "safe")
    ensures !Contains(Lower(Suggestion2), "wake")
    ensures !Contains(Lower(Suggestion2), "recovery")
    ensures !Contains(Lower(Suggestion2), "conscious")
    ensures !Contains(Lower(Suggestion2), "eat")
    ensures !Contains(Lower(Suggestion2), "drink")
    ensures !Contains(Lower(Suggestion2), "fast")
    ensures !Contains(Lower(Suggestion2), "food")
    ensures !Contains(Lower(Suggestion2), "side effect")
    ensures !Contains(Lower(Suggestion2), "after")
    ensures !Contains(Lower(Suggestion2), "expect")
    ensures !Contains(Lower(Suggestion2), "pain")
    ensures !Contains(Lower(Suggestion2), "hurt")
    ensures !Contains(Lower(Suggestion2), "feel")
  {
    var h := Lower(Suggestion2);
    Suggestion2PairsWithin();
    NotContainsByPair(h, "prepare", Suggestion2Successors, 0);
    NotContainsByPair(h, "preparation", Suggestion2Successors, 0);
    NotContainsByPair(h, "risk", Suggestion2Successors, 2);
    NotContainsByPair(h, "danger", Suggestion2Successors, 0);
    NotContainsByPair(h, "safe", Suggestion2Successors, 0);
    NotContainsByPair(h, "wake", Suggestion2Successors, 0);
    NotContainsByPair(h, "recovery", Suggestion2Successors, 0);
    NotContainsByPair(h, "conscious", Suggestion2Successors, 0);
    NotContainsByPair(h, "eat", Suggestion2Successors, 0);
    NotContainsByPair(h, "drink", Suggestion2Successors, 0);
    NotContainsByPair(h, "fast", Suggestion2Successors, 0);
    NotContainsByPair(h, "food", Suggestion2Successors, 0);
    NotContainsByPair(h, "side effect", Suggestion2Successors, 1);
    NotContainsByPair(h, "after", Suggestion2Successors, 0);
    NotContainsByPair(h, "expect", Suggestion2Successors, 0);
    NotContainsByPair(h, "pain", Suggestion2Successors, 0);
    NotContainsByPair(h, "hurt", Suggestion2Successors, 0);
    NotContainsByPair(h, "feel", Suggestion2Successors, 0);
  }

  /** The characters that follow each character in suggested question 3, lowercased. */
  function Suggestion3Successors(c: char): set<char> {
    match c
    case ' ' => {'a', 'b', 'd', 'e', 'l', 't', 'v'}
    case 'a' => {'g', 'n', 't'}
    case 'b' => {'e'}
    case 'd' => {' ', 'e', 'ø'}
    case 'e' => {' ', '?', 'd', 'f', 'l', 'r', 't'}
    case 'f' => {'t'}
    case 'g' => {' ', 'e', 'n'}
    case 'h' => {'v'}
    case 'i' => {'d'}
    case 'l' => {'a', 's'}
    case 'n' => {'e', 'g'}
    case 'o' => {'r'}
    case 'r' => {' '}
    case 's' => {'e'}
    case 't' => {' ', 'a', 'e', 'i'}
    case 'v' => {'e', 'o', 'å'}
    case 'å' => {'g'}
    case 'ø' => {'v'}
    case _ => {}
  }

  lemma Suggestion3PairsWithin()
    ensures PairsWithin(Lower(Suggestion3), Suggestion3Successors)
  {
    var h := Lower(Suggestion3);
    // One case per position, so that each adjacent pair is evaluated on its own.
    forall i | 0 <= i < |h| - 1 ensures h[i + 1] in Suggestion3Successors(h[i]) {
      assert i == 0 || i == 1 || i == 2 || i == 3 || i == 4 || i == 5 || i == 6 || i == 7 ||
        i == 8 || i == 9 || i == 10 || i == 11 || i == 12 || i == 13 || i == 14 || i == 15 ||
        i == 16 || i == 17 || i == 18 || i == 19 || i == 20 || i == 21 || i == 22 || i == 23 ||
        i == 24 || i == 25 || i == 26 || i == 27 || i == 28 || i == 29 || i == 30 || i == 31 ||
        i == 32 || i == 33 || i == 34 || i == 35 || i == 36 || i == 37 || i == 38 || i == 39 ||
        i == 40 || i == 41 || i == 42 || i == 43 || i == 44 || i == 45 || i == 46 || i == 47;
    }
  }

  /** Suggested question 3 mentions no keyword: each keyword has an adjacent pair of
      characters that the lowercased question never has. */
  lemma Suggestion3MentionsNoKeyword()
    ensures !Contains(Lower(Suggestion3), "prepare")
    ensures !Contains(Lower(Suggestion3), "preparation")
    ensures !Contains(Lower(Suggestion3), "risk")
    ensures !Contains(Lower(Suggestion3), "danger")
    ensures !Contains(Lower(Suggestion3), "safe")
    ensures !Contains(Lower(Suggestion3), "wake")
    ensures !Contains(Lower(Suggestion3), "recovery")
    ensures !Contains(Lower(Suggestion3), "conscious")
    ensures !Contains(Lower(Suggestion3), "eat")
    ensures !Contains(Lower(Suggestion3), "drink")
    ensures !Contains(Lower(Suggestion3), "fast")
    ensures !Contains(Lower(Suggestion3), "food")
    ensures !Contains(Lower(Suggestion3), "side effect")
    ensures !Contains(Lower(Suggestion3), "after")
    ensures !Contains(Lower(Suggestion3), "expect")
    ensures !Contains(Lower(Suggestion3), "pain")
    ensures !Contains(Lower(Suggestion3), "hurt")
    ensures !Contains(Lower(Suggestion3), "feel")
  {
    var h := Lower(Suggestion3);
    Suggestion3PairsWithin();
    NotContainsByPair(h, "prepare", Suggestion3Successors, 0);
    NotContainsByPair(h, "preparation", Suggestion3Successors, 0);
    NotContainsByPair(h, "risk", Suggestion3Successors, 0);
    NotContainsByPair(h, "danger", Suggestion3Successors, 0);
    NotContainsByPair(h, "safe", Suggestion3Successors, 0);
    NotContainsByPair(h, "wake", Suggestion3Successors, 0);
    NotContainsByPair(h, "recovery", Suggestion3Successors, 0);
    NotContainsByPair(h, "conscious", Suggestion3Successors, 0);
    NotContainsByPair(h, "eat", Suggestion3Successors, 0);
    NotContainsByPair(h, "drink", Suggestion3Successors, 0);
    NotContainsByPair(h, "fast", Suggestion3Successors, 0);
    NotContainsByPair(h, "food", Suggestion3Successors, 0);
    NotContainsByPair(h, "side effect", Suggestion3Successors, 0);
    NotContainsByPair(h, "after", Suggestion3Successors, 0);
    NotContainsByPair(h, "expect", Suggestion3Successors, 0);
    NotContainsByPair(h, "pain", Suggestion3Successors, 0);
    NotContainsByPair(h, "hurt", Suggestion3Successors, 0);
    NotContainsByPair(h, "feel", Suggestion3Successors, 0);
  }

  /** The characters that follow each character in suggested question 4, lowercased. */
  function Suggestion4Successors(c: char): set<char> {
    match c
    case ' ' => {'d', 'e', 'f', 'i', 'j', 'm', 's'}
    case 'b' => {'?'}
    case 'd' => {'g', 'r'}
    case 'e' => {' ', 'b', 'g', 'l', 'r'}
    case 'f' => {'ø'}
    case 'g' => {' ', 'r'}
    case 'i' => {'k', 'n', 's', 't'}
    case 'j' => {'e'}
    case 'k' => {'e', 'k'}
    case 'l' => {'e', 'l'}
    case 'm' => {'i', 'å'}
    case 'n' => {'d'}
    case 'p' => {'i'}
    case 'r' => {' ', 'e', 'i'}
    case 's' => {'e', 'p'}
    case 't' => {' '}
    case 'å' => {' '}
    case 'ø' => {'r'}
    case _ => {}
  }

  lemma Suggestion4PairsWithin()
    ensures PairsWithin(Lower(Suggestion4), Suggestion4Successors)
  {
    var h := Lower(Suggestion4);
    // One case per position, so that each adjacent pair is evaluated on its own.
    forall i | 0 <= i < |h| - 1 ensures h[i + 1] in Suggestion4Successors(h[i]) {
      assert i == 0 || i == 1 || i == 2 || i == 3 || i == 4 || i == 5 || i == 6 || i == 7 ||
        i == 8 || i == 9 || i == 10 || i == 11 || i == 12 || i == 13 || i == 14 || i == 15 ||
        i == 16 || i == 17 || i == 18 || i == 19 || i == 20 || i == 21 || i == 22 || i == 23 ||
        i == 24 || i == 25 || i == 26 || i == 27 || i == 28 || i == 29 || i == 30 || i == 31 ||
        i == 32 || i == 33 || i == 34 || i == 35 || i == 36 || i == 37 || i == 38 || i == 39 ||
        i == 40;
    }
  }

  /** Suggested question 4 mentions no keyword: each keyword has an adjacent pair of
      characters that the lowercased question never has. */
  lemma Suggestion4MentionsNoKeyword()
    ensures !Contains(Lower(Suggestion4), "prepare")
    ensures !Contains(Lower(Suggestion4), "preparation")
    ensures !Contains(Lower(Suggestion4), "risk")
    ensures !Contains(Lower(Suggestion4), "danger")
    ensures !Contains(Lower(Suggestion4), "safe")
    ensures !Contains(Lower(Suggestion4), "wake")
    ensures !Contains(Lower(Suggestion4), "recovery")
    ensures !Contains(Lower(Suggestion4), "conscious")
    ensures !Contains(Lower(Suggestion4), "eat")
    ensures !Contains(Lower(Suggestion4), "drink")
    ensures !Contains(Lower(Suggestion4), "fast")
    ensures !Contains(Lower(Suggestion4), "food")
    ensures !Contains(Lower(Suggestion4), "side effect")
    ensures !Contains(Lower(Suggestion4), "after")
    ensures !Contains(Lower(Suggestion4), "expect")
    ensures !Contains(Lower(Suggestion4), "pain")
    ensures !Contains(Lower(Suggestion4), "hurt")
    ensures !Contains(Lower(Suggestion4), "feel")
  {
    var h := Lower(Suggestion4);
    Suggestion4PairsWithin();
    NotContainsByPair(h, "prepare", Suggestion4Successors, 0);
    NotContainsByPair(h, "preparation", Suggestion4Successors, 0);
    NotContainsByPair(h, "risk", Suggestion4Successors, 2);
    NotContainsByPair(h, "danger", Suggestion4Successors, 0);
    NotContainsByPair(h, "safe", Suggestion4Successors, 0);
    NotContainsByPair(h, "wake", Suggestion4Successors, 0);
    NotContainsByPair(h, "recovery", Suggestion4Successors, 1);
    NotContainsByPair(h, "conscious", Suggestion4Successors, 0);
    NotContainsByPair(h, "eat", Suggestion4Successors, 0);
    NotContainsByPair(h, "drink", Suggestion4Successors, 3);
    NotContainsByPair(h, "fast", Suggestion4Successors, 0);
    NotContainsByPair(h, "food", Suggestion4Successors, 0);
    NotContainsByPair(h, "side effect", Suggestion4Successors, 0);
    NotContainsByPair(h, "after", Suggestion4Successors, 0);
    NotContainsByPair(h, "expect", Suggestion4Successors, 0);
    NotContainsByPair(h, "pain", Suggestion4Successors, 0);
    NotContainsByPair(h, "hurt", Suggestion4Successors, 0);
    NotContainsByPair(h, "feel", Suggestion4Successors, 0);
  }

  /** The characters that follow each character in suggested question 5, lowercased. */
  function Suggestion5Successors(c: char): set<char> {
    match c
    case ' ' => {'b', 'f', 'j', 'k'}
    case 'a' => {'n'}
    case 'b' => {'i'}
    case 'e' => {' ', '?', 'g', 'n', 'r'}
    case 'f' => {'o'}
    case 'g' => {' ', 'e'}
    case 'h' => {'v'}
    case 'i' => {'l', 'n', 'r', 'v'}
    case 'j' => {'e'}
    case 'k' => {'a', 'e', 'n'}
    case 'l' => {'k'}
    case 'n' => {' ', 'g', 'i', 't'}
    case 'o' => {'r'}
    case 'r' => {' ', 'k', 'v'}
    case 't' => {'e'}
    case 'v' => {'e', 'i'}
    case _ => {}
  }

  lemma Suggestion5PairsWithin()
    ensures PairsWithin(Lower(Suggestion5), Suggestion5Successors)
  {
    var h := Lower(Suggestion5);
    // One case per position, so that each adjacent pair is evaluated on its own.
    forall i | 0 <= i < |h| - 1 ensures h[i + 1] in Suggestion5Successors(h[i]) {
      assert i == 0 || i == 1 || i == 2 || i == 3 || i == 4 || i == 5 || i == 6 || i == 7 ||
        i == 8 || i == 9 || i == 10 || i == 11 || i == 12 || i == 13 || i == 14 || i == 15 ||
        i == 16 || i == 17 || i == 18 || i == 19 || i == 20 || i == 21 || i == 22 || i == 23 ||
        i == 24 || i == 25 || i == 26 || i == 27 || i == 28 || i == 29 || i == 30 || i == 31 ||
        i == 32 || i == 33 || i == 34 || i == 35;
    }
  }

  /** Suggested question 5 mentions no keyword: each keyword has an adjacent pair of
      characters that the lowercased question never has. */
  lemma Suggestion5MentionsNoKeyword()
    ensures !Contains(Lower(Suggestion5), "prepare")
    ensures !Contains(Lower(Suggestion5), "preparation")
    ensures !Contains(Lower(Suggestion5), "risk")
    ensures !Contains(Lower(Suggestion5), "danger")
    ensures !Contains(Lower(Suggestion5), "safe")
    ensures !Contains(Lower(Suggestion5), "wake")
    ensures !Contains(Lower(Suggestion5), "recovery")
    ensures !Contains(Lower(Suggestion5), "conscious")
    ensures !Contains(Lower(Suggestion5), "eat")
    ensures !Contains(Lower(Suggestion5), "drink")
    ensures !Contains(Lower(Suggestion5), "fast")
    ensures !Contains(Lower(Suggestion5), "food")
    ensures !Contains(Lower(Suggestion5), "side effect")
    ensures !Contains(Lower(Suggestion5), "after")
    ensures !Contains(Lower(Suggestion5), "expect")
    ensures !Contains(Lower(Suggestion5), "pain")
    ensures !Contains(Lower(Suggestion5), "hurt")
    ensures !Contains(Lower(Suggestion5), "feel")
  {
    var h := Lower(Suggestion5);
    Suggestion5PairsWithin();
    NotContainsByPair(h, "prepare", Suggestion5Successors, 0);
    NotContainsByPair(h, "preparation", Suggestion5Successors, 0);
    NotContainsByPair(h, "risk", Suggestion5Successors, 0);
    NotContainsByPair(h, "danger", Suggestion5Successors, 0);
    NotContainsByPair(h, "safe", Suggestion5Successors, 0);
    NotContainsByPair(h, "wake", Suggestion5Successors, 0);
    NotContainsByPair(h, "recovery", Suggestion5Successors, 0);
    NotContainsByPair(h, "conscious", Suggestion5Successors, 0);
    NotContainsByPair(h, "eat", Suggestion5Successors, 0);
    NotContainsByPair(h, "drink", Suggestion5Successors, 0);
    NotContainsByPair(h, "fast", Suggestion5Successors, 0);
    NotContainsByPair(h, "food", Suggestion5Successors, 1);
    NotContainsByPair(h, "side effect", Suggestion5Successors, 0);
    NotContainsByPair(h, "after", Suggestion5Successors, 0);
    NotContainsByPair(h, "expect", Suggestion5Successors, 0);
    NotContainsByPair(h, "pain", Suggestion5Successors, 0);
    NotContainsByPair(h, "hurt", Suggestion5Successors, 0);
    NotContainsByPair(h, "feel", Suggestion5Successors, 0);
  }

  /** The characters that follow each character in suggested question 6, lowercased. */
  function Suggestion6Successors(c: char): set<char> {
    match c
    case ' ' => {'i', 'j', 'm', 's', 'u'}
    case 'b' => {'e'}
    case 'd' => {'e', 'g'}
    case 'e' => {' ', 'b', 'g', 'r', 't'}
    case 'g' => {' ', 'r'}
    case 'i' => {'l', 'n'}
    case 'j' => {'e'}
    case 'k' => {'e'}
    case 'l' => {' '}
    case 'm' => {'e', 'æ'}
    case 'n' => {'d'}
    case 'r' => {' ', 'e', 'k', 't'}
    case 's' => {'m'}
    case 't' => {'?', 'e'}
    case 'u' => {'n'}
    case 'v' => {'i'}
    case 'æ' => {'r'}
    case _ => {}
  }

  lemma Suggestion6PairsWithin()
    ensures PairsWithin(Lower(Suggestion6), Suggestion6Successors)
  {
    var h := Lower(Suggestion6);
    // One case per position, so that each adjacent pair is evaluated on its own.
    forall i | 0 <= i < |h| - 1 ensures h[i + 1] in Suggestion6Successors(h[i]) {
      assert i == 0 || i == 1 || i == 2 || i == 3 || i == 4 || i == 5 || i == 6 || i == 7 ||
        i == 8 || i == 9 || i == 10 || i == 11 || i == 12 || i == 13 || i == 14 || i == 15 ||
        i == 16 || i == 17 || i == 18 || i == 19 || i == 20 || i == 21 || i == 22 || i == 23 ||
        i == 24 || i == 25 || i == 26 || i == 27 || i == 28 || i == 29 || i == 30 || i == 31 ||
        i == 32 || i == 33 || i == 34 || i == 35;
    }
  }

  /** Suggested question 6 mentions no keyword: each keyword has an adjacent pair of
      characters that the lowercased question never has. */
  lemma Suggestion6MentionsNoKeyword()
    ensures !Contains(Lower(Suggestion6), "prepare")
    ensures !Contains(Lower(Suggestion6), "preparation")
    ensures !Contains(Lower(Suggestion6), "risk")
    ensures !Contains(Lower(Suggestion6), "danger")
    ensures !Contains(Lower(Suggestion6), "safe")
    ensures !Contains(Lower(Suggestion6), "wake")
    ensures !Contains(Lower(Suggestion6), "recovery")
    ensures !Contains(Lower(Suggestion6), "conscious")
    ensures !Contains(Lower(Suggestion6), "eat")
    ensures !Contains(Lower(Suggestion6), "drink")
    ensures !Contains(Lower(Suggestion6), "fast")
    ensures !Contains(Lower(Suggestion6), "food")
    ensures !Contains(Lower(Suggestion6), "side effect")
    ensures !Contains(Lower(Suggestion6), "after")
    ensures !Contains(Lower(Suggestion6), "expect")
    ensures !Contains(Lower(Suggestion6), "pain")
    ensures !Contains(Lower(Suggestion6), "hurt")
    ensures !Contains(Lower(Suggestion6), "feel")
  {
    var h := Lower(Suggestion6);
    Suggestion6PairsWithin();
    NotContainsByPair(h, "prepare", Suggestion6Successors, 0);
    NotContainsByPair(h, "preparation", Suggestion6Successors, 0);
    NotContainsByPair(h, "risk", Suggestion6Successors, 0);
    NotContainsByPair(h, "danger", Suggestion6Successors, 0);
    NotContainsByPair(h, "safe", Suggestion6Successors, 0);
    NotContainsByPair(h, "wake", Suggestion6Successors, 0);
    NotContainsByPair(h, "recovery", Suggestion6Successors, 1);
    NotContainsByPair(h, "conscious", Suggestion6Successors, 0);
    NotContainsByPair(h, "eat", Suggestion6Successors, 0);
    NotContainsByPair(h, "drink", Suggestion6Successors, 0);
    NotContainsByPair(h, "fast", Suggestion6Successors, 0);
    NotContainsByPair(h, "food", Suggestion6Successors, 0);
    NotContainsByPair(h, "side effect", Suggestion6Successors, 0);
    NotContainsByPair(h, "after", Suggestion6Successors, 0);
    NotContainsByPair(h, "expect", Suggestion6Successors, 0);
    NotContainsByPair(h, "pain", Suggestion6Successors, 0);
    NotContainsByPair(h, "hurt", Suggestion6Successors, 0);
    NotContainsByPair(h, "feel", Suggestion6Successors, 0);
  }

  /** None of the suggested questions reaches a topic text: each gets the default answer. */
  lemma SuggestedQuestionsGetDefault(i: nat)
    requires i < |SuggestedQuestions|
    ensures Classify(SuggestedQuestions[i]) == Default
  {
    match i
    case 0 => Suggestion1MentionsNoKeyword();
    case 1 => Suggestion2MentionsNoKeyword();
    case 2 => Suggestion3MentionsNoKeyword();
    case 3 => Suggestion4MentionsNoKeyword();
    case 4 => Suggestion5MentionsNoKeyword();
    case 5 => Suggestion6MentionsNoKeyword();
  }

  datatype Sender = User | Bot

  /** A chat message; its id and timestamp are not modelled. */
  datatype ChatMessage = ChatMessage(text: string, sender: Sender)

  /** The bot greeting the history starts with. */
  const Greeting := ChatMessage("Hej! Jeg er her for at hjælpe med at besvare dine spørgsmål om bedøvelse og dit kommende indgreb. Jeg kan give generel information, så du kan føle dig bedre forberedt og informeret.\n\nHusk, at denne chat kun er til undervisnings- og informationsformål og ikke erstatter medicinsk rådgivning fra dit sundhedsteam. Ved specifikke bekymringer om din situation bør du altid tale med din anæstesilæge eller operationsteam.\n\nHvordan kan jeg hjælpe dig i dag?", Bot)

  /** The message list after `handleSendMessage(text)`, the bot reply included. */
  function AfterSend(messages: seq<ChatMessage>, text: string): seq<ChatMessage> {
    var trimmed := Strip(text, JsIsSpace);
    if trimmed == [] then messages
    else messages + [ChatMessage(trimmed, User), ChatMessage(GetBotResponse(text), Bot)]
  }

  /** History starts with one bot message, then alternates user and bot messages. */
  predicate Alternates(messages: seq<ChatMessage>) {
    |messages| % 2 == 1
    && forall i | 0 <= i < |messages| :: messages[i].sender == if i % 2 == 0 then Bot else User
  }

  /** A blank send changes nothing; any other keeps the history and adds the trimmed text as
      a user message and the canned reply as a bot message. */
  lemma AfterSendEffect(messages: seq<ChatMessage>, text: string)
    ensures IsBlank(text, JsIsSpace) ==> AfterSend(messages, text) == messages
    ensures !IsBlank(text, JsIsSpace) ==>
              var r := AfterSend(messages, text);
              |r| == |messages| + 2 && r[..|messages|] == messages
              && r[|messages|] == ChatMessage(Strip(text, JsIsSpace), User)
              && r[|messages| + 1] == ChatMessage(BotResponse(FirstMatch(Lower(text), TriggerGroups)), Bot)
  {
    StripEmptyIffBlank(text, JsIsSpace);
  }

  lemma AfterSendAlternates(messages: seq<ChatMessage>, text: string)
    requires Alternates(messages)
    ensures Alternates(AfterSend(messages, text))
  {
    var trimmed := Strip(text, JsIsSpace);
    if trimmed != [] {
      var n := |messages|;
      var r := messages + [ChatMessage(trimmed, User), ChatMessage(GetBotResponse(text), Bot)];
      assert AfterSend(messages, text) == r;
      forall i | 0 <= i < |r| ensures r[i].sender == if i % 2 == 0 then Bot else User {
        if i < n {
          assert r[i] == messages[i];
        } else if i == n {
          assert r[i].sender == User && i % 2 == 1;
        } else {
          assert r[i].sender == Bot && i % 2 == 0;
        }
      }
    }
  }

  /** The history after a series of sends. */
  function SendAll(messages: seq<ChatMessage>, texts: seq<string>): seq<ChatMessage>
    decreases |texts|
  {
    if texts == [] then messages else SendAll(AfterSend(messages, texts[0]), texts[1..])
  }

  /** How many of the texts are not blank. */
  function AcceptedCount(texts: seq<string>): nat {
    if texts == [] then 0
    else (if IsBlank(texts[0], JsIsSpace) then 0 else 1) + AcceptedCount(texts[1..])
  }

  lemma {:induction false} SendAllLength(messages: seq<ChatMessage>, texts: seq<string>)
    ensures |SendAll(messages, texts)| == |messages| + 2 * AcceptedCount(texts)
    decreases |texts|
  {
    if texts != [] {
      AfterSendEffect(messages, texts[0]);
      SendAllLength(AfterSend(messages, texts[0]), texts[1..]);
    }
  }

  lemma {:induction false} SendAllAlternates(messages: seq<ChatMessage>, texts: seq<string>)
    requires Alternates(messages)
    ensures Alternates(SendAll(messages, texts))
    decreases |texts|
  {
    if texts != [] {
      AfterSendAlternates(messages, texts[0]);
      SendAllAlternates(AfterSend(messages, texts[0]), texts[1..]);
    }
  }

  /** Starting from the greeting, the suggestions stay on screen exactly until the first
      non-blank send, and the history keeps alternating. */
  lemma SuggestionsUntilFirstSend(texts: seq<string>)
    ensures |SendAll([Greeting], texts)| == 1 <==> AcceptedCount(texts) == 0
    ensures Alternates(SendAll([Greeting], texts))
  {
    assert Alternates([Greeting]);
    SendAllLength([Greeting], texts);
    SendAllAlternates([Greeting], texts);
  }

  /** Clicking a suggested question on the opening screen gets the default answer. */
  lemma SuggestionClickGetsDefaultAnswer(i: nat)
    requires i < |SuggestedQuestions|
    ensures AfterSend([Greeting], SuggestedQuestions[i])
            == [Greeting, ChatMessage(SuggestedQuestions[i], User), ChatMessage(BotResponse(Default), Bot)]
  {
    var q := SuggestedQuestions[i];
    assert !JsIsSpace(q[0]) && q[|q| - 1] == '?';
    StripUnpadded(q, JsIsSpace);
    SuggestedQuestionsGetDefault(i);
    ClassifyIsFirstMatch(q);
  }

  /** The chat panel's state: the message list and the input box. */
  class ChatSession {
    var messages: seq<ChatMessage>
    var inputValue: string

    constructor ()
      ensures messages == [Greeting] && inputValue == ""
    {
      messages := [Greeting];
      inputValue := "";
    }

    /** The suggested questions are offered only while the greeting is the only message. */
    predicate ShowsSuggestions()
      reads this
    {
      |messages| == 1
    }

    /** `handleSendMessage`, with the delayed bot reply appended at once. */
    method HandleSendMessage(text: string)
      modifies this
      ensures messages == AfterSend(old(messages), text)
      ensures inputValue == if IsBlank(text, JsIsSpace) then old(inputValue) else ""
    {
      StripEmptyIffBlank(text, JsIsSpace);
      var trimmed := Strip(text, JsIsSpace);
      if trimmed == [] {
        return;
      }
      messages := messages + [ChatMessage(trimmed, User)];
      inputValue := "";
      messages := messages + [ChatMessage(GetBotResponse(text), Bot)];
    }

    /** `handleSuggestedQuestion`: sends the question as if typed. */
    method HandleSuggestedQuestion(question: string)
      modifies this
      ensures messages == AfterSend(old(messages), question)
      ensures inputValue == if IsBlank(question, JsIsSpace) then old(inputValue) else ""
    {
      HandleSendMessage(question);
    }
  }

}
