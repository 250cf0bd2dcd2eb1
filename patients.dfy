/** The dashboard's in-memory patient store and its three queries: free-text search,
    lookup by id and the day schedule. */
module Patients {
  import opened Wrappers
  import opened Text

  datatype Gender = M | F

  datatype SmokingStatus = NonSmoker | FormerSmoker | CurrentSmoker

  datatype Severity = Low | Medium | High

  /** A calendar day; the dashboard compares procedure dates by day only. */
  datatype CalendarDay = Day(year: int, month: int, day: int)

  datatype RiskIndicator = RiskIndicator(name: string, value: string, severity: Severity)

  /** A patient record. `bmi` and `modelConfidence` are held as integers: tenths of a
      BMI unit and whole percent. */
  datatype Patient = Patient(
    id: string,
    cprNumber: string,
    firstName: string,
    lastName: string,
    age: nat,
    gender: Gender,
    asaScore: int,
    scheduledProcedure: string,
    procedureDate: CalendarDay,
    procedureTime: string,
    bmiTenths: nat,
    smokingStatus: SmokingStatus,
    comorbidities: seq<string>,
    riskIndicators: seq<RiskIndicator>,
    modelConfidencePercent: nat,
    allergies: seq<string>,
    currentMedications: seq<string>)

  const Anna := Patient("1", "010190-1234", "Anna", "Hansen", 35, F, 1,
    "Laparoskopisk kolecystektomi", Day(2026, 1, 24), "08:00", 235, NonSmoker,
    [], [], 95, ["Ingen kendte"], [])

  const Erik := Patient("2", "150565-5678", "Erik", "Nielsen", 60, M, 3,
    "Total hoftealloplastik", Day(2026, 1, 24), "08:30", 312, FormerSmoker,
    ["Type 2-diabetes", "Hypertension", "Artrose"],
    [RiskIndicator("Forhøjet HbA1c", "7.8%", Medium), RiskIndicator("Blodtryk", "145/92", Medium),
     RiskIndicator("BMI", "31.2", Medium)],
    88, ["Penicillin (udslæt)"],
    ["Metformin 1000mg x 2", "Lisinopril 10mg dagligt", "Aspirin 81mg dagligt"])

  const Maria := Patient("3", "230445-9101", "Maria", "Andersen", 81, F, 4,
    "Akut operation for femurfraktur", Day(2026, 1, 22), "14:00", 218, NonSmoker,
    ["Kongestiv hjertesvigt", "Atrieflimren", "Kronisk nyresygdom stadie 3"],
    [RiskIndicator("Ejektionsfraktion", "35%", High), RiskIndicator("GFR", "42 mL/min", High),
     RiskIndicator("INR", "2.3", Medium)],
    82, ["Kontrastmiddel (anafylaksi)"],
    ["Warfarin 5mg dagligt", "Furosemid 40mg dagligt", "Metoprolol 50mg x 2", "Digoxin 0.125mg dagligt"])

  const Lars := Patient("4", "050295-2468", "Lars", "Petersen", 31, M, 2,
    "ACL-rekonstruktion", Day(2026, 1, 23), "09:00", 268, NonSmoker,
    ["Kontrolleret astma"], [RiskIndicator("Astmakontrol", "Velkontrolleret", Low)],
    93, ["Ingen kendte"], ["Fluticason inhalator 110mcg x 2", "Salbutamol inhalator pn"])

  const Sofie := Patient("5", "110778-3579", "Sofie", "Jensen", 48, F, 2,
    "Thyroidektomi", Day(2026, 1, 24), "11:30", 285, CurrentSmoker,
    ["Hypothyreose", "GERD"],
    [RiskIndicator("Rygning", "15 pakkeår", Medium), RiskIndicator("BMI", "28.5", Low)],
    89, ["Codein (kvalme)"], ["Levothyroxin 100mcg dagligt", "Omeprazol 20mg dagligt"])

  const Peter := Patient("6", "280352-7890", "Peter", "Christensen", 74, M, 3,
    "Carotis endarterektomi", Day(2026, 1, 25), "08:30", 273, FormerSmoker,
    ["Koronar hjertesygdom", "Hyperlipidæmi", "Tidligere apopleksi"],
    [RiskIndicator("Carotisstenose", "85% venstre", High),
     RiskIndicator("Tidligere AMI", "for 3 år siden", Medium),
     RiskIndicator("Apopleksi/TIA", "TIA for 6 måneder siden", High)],
    85, ["Ingen kendte"],
    ["Aspirin 81mg dagligt", "Clopidogrel 75mg dagligt", "Atorvastatin 80mg dagligt", "Metoprolol 25mg x 2"])

  /** The dashboard's fixed patient list, in display order. */
  const MockPatients: seq<Patient> := [Anna, Erik, Maria, Lars, Sofie, Peter]

  predicate IsDigit(c: char) {
    '0' <= c <= '9'
  }

  function DigitValue(c: char): int {
    c as int - '0' as int
  }

  /** A zero-padded 24-hour "HH:MM" time. */
  predicate WellFormedTime(t: string) {
    |t| == 5 && IsDigit(t[0]) && IsDigit(t[1]) && t[2] == ':' && IsDigit(t[3]) && IsDigit(t[4])
    && DigitValue(t[0]) * 10 + DigitValue(t[1]) < 24 && DigitValue(t[3]) < 6
  }

  function Minutes(t: string): int
    requires WellFormedTime(t)
  {
    (DigitValue(t[0]) * 10 + DigitValue(t[1])) * 60 + DigitValue(t[3]) * 10 + DigitValue(t[4])
  }

  /** Ordering "HH:MM" strings character by character is ordering them by time of day. */
  lemma TimeOrderIsChronological(a: string, b: string)
    requires WellFormedTime(a) && WellFormedTime(b)
    ensures StrLe(a, b) <==> Minutes(a) <= Minutes(b)
  {
    var a1, b1 := a[1..], b[1..];
    var a2, b2 := a1[1..], b1[1..];
    var a3, b3 := a2[1..], b2[1..];
    var a4, b4 := a3[1..], b3[1..];
    assert StrLe(a4, b4) <==> a[4] <= b[4] by {
      assert a4[1..] == [] && b4[1..] == [];
    }
    assert StrLe(a3, b3) <==> a[3] < b[3] || (a[3] == b[3] && a[4] <= b[4]);
    assert StrLe(a2, b2) <==> StrLe(a3, b3);
    assert StrLe(a1, b1) <==> a[1] < b[1] || (a[1] == b[1] && StrLe(a2, b2));
    assert StrLe(a, b) <==> a[0] < b[0] || (a[0] == b[0] && StrLe(a1, b1));
  }

  // ----- searchPatients -----

  /** The match rule of the search box: names are compared case-insensitively, the CPR
      number as typed. */
  predicate Matches(p: Patient, query: string) {
    var lowerQuery := Lower(query);
    Contains(Lower(p.firstName), lowerQuery)
    || Contains(Lower(p.lastName), lowerQuery)
    || Contains(p.cprNumber, query)
    || Contains(Lower(p.firstName + " " + p.lastName), lowerQuery)
  }

  /** `a` is `b` with some elements removed, the rest kept in order. */
  predicate IsSubsequence<T(==)>(a: seq<T>, b: seq<T>)
    decreases |b|
  {
    a == [] || (b != [] && ((a[0] == b[0] && IsSubsequence(a[1..], b[1..])) || IsSubsequence(a, b[1..])))
  }

  function FilterMatches(store: seq<Patient>, query: string): (r: seq<Patient>)
    ensures |r| <= |store|
    ensures IsSubsequence(r, store)
    ensures forall p :: p in r <==> p in store && Matches(p, query)
    ensures (forall p | p in store :: !Matches(p, query)) ==> r == []
    ensures forall p :: multiset(r)[p] == if Matches(p, query) then multiset(store)[p] else 0
  {
    if store == [] then []
    else
      assert multiset(store) == multiset{store[0]} + multiset(store[1..]) by {
        assert store == [store[0]] + store[1..];
      }
      if Matches(store[0], query) then [store[0]] + FilterMatches(store[1..], query)
      else FilterMatches(store[1..], query)
  }

  /** `searchPatients`: a blank query gives back the whole store; any other query keeps, in
      store order, exactly the records it matches. */
  function SearchPatients(store: seq<Patient>, query: string): (r: seq<Patient>)
    ensures IsBlank(query, JsIsSpace) ==> r == store
    ensures !IsBlank(query, JsIsSpace) ==> forall p :: p in r <==> p in store && Matches(p, query)
    ensures !IsBlank(query, JsIsSpace) ==> forall p :: multiset(r)[p] == if Matches(p, query) then multiset(store)[p] else 0
    ensures IsSubsequence(r, store) && |r| <= |store|
  {
    StripEmptyIffBlank(query, JsIsSpace);
    IsSubsequenceReflexive(store);
    if Strip(query, JsIsSpace) == [] then store else FilterMatches(store, query)
  }

  lemma IsSubsequenceReflexive<T>(s: seq<T>)
    ensures IsSubsequence(s, s)
  {
  }

  predicate NoDigits(s: string) {
    forall i | 0 <= i < |s| :: !IsDigit(s[i])
  }

  lemma {:induction false} LowerKeepsNoDigits(s: string)
    requires NoDigits(s)
    ensures NoDigits(Lower(s))
  {
    forall i | 0 <= i < |s| ensures !IsDigit(Lower(s)[i]) {
      assert Lower(s)[i] == LowerChar(s[i]);
    }
  }

  /** A query that starts with a digit can only match a patient through the CPR number,
      because names hold no digits. */
  lemma {:induction false} DigitQueryMatchesCprOnly(p: Patient, query: string)
    requires query != [] && IsDigit(query[0])
    requires NoDigits(p.firstName) && NoDigits(p.lastName)
    ensures Matches(p, query) <==> Contains(p.cprNumber, query)
  {
    var full := p.firstName + " " + p.lastName;
    assert NoDigits(full) by {
      forall i | 0 <= i < |full| ensures !IsDigit(full[i]) {
        if i < |p.firstName| {
          assert full[i] == p.firstName[i];
        } else if i > |p.firstName| {
          assert full[i] == p.lastName[i - |p.firstName| - 1];
        }
      }
    }
    LowerKeepsNoDigits(p.firstName);
    LowerKeepsNoDigits(p.lastName);
    LowerKeepsNoDigits(full);
    assert Lower(query)[0] == query[0];
    NotContainsByChar(Lower(p.firstName), Lower(query), 0);
    NotContainsByChar(Lower(p.lastName), Lower(query), 0);
    NotContainsByChar(Lower(full), Lower(query), 0);
  }

  lemma {:induction false} ContainsSameLength(h: string, n: string)
    requires |h| == |n|
    ensures Contains(h, n) <==> h == n
  {
    if h == n {
      assert OccursAt(h, n, 0);
    }
  }

  lemma {:induction false} FilterSingle(store: seq<Patient>, query: string, k: nat)
    requires k < |store| && Matches(store[k], query)
    requires forall i | 0 <= i < |store| && i != k :: !Matches(store[i], query)
    ensures FilterMatches(store, query) == [store[k]]
  {
    if k == 0 {
      assert forall p | p in store[1..] :: !Matches(p, query);
    } else {
      FilterSingle(store[1..], query, k - 1);
    }
  }

  lemma NamesHaveNoDigits()
    ensures forall p | p in MockPatients :: NoDigits(p.firstName) && NoDigits(p.lastName)
  {
    forall i | 0 <= i < |MockPatients|
      ensures NoDigits(MockPatients[i].firstName) && NoDigits(MockPatients[i].lastName)
    {
      var p := MockPatients[i];
      assert NoDigits(p.firstName) by { LettersOnly(p.firstName); }
      assert NoDigits(p.lastName) by { LettersOnly(p.lastName); }
    }
  }

  /** A word of ASCII letters has no digit. */
  lemma LettersOnly(s: string)
    requires forall k | 0 <= k < |s| :: 'A' <= s[k] <= 'Z' || 'a' <= s[k] <= 'z'
    ensures NoDigits(s)
  {
  }

  /** Every stored CPR number has the eleven characters of "DDMMYY-NNNN". */
  lemma CprNumbersFullLength()
    ensures forall p | p in MockPatients :: |p.cprNumber| == 11
  {
  }

  /** A query as long as a CPR number and starting with a digit matches a stored record
      exactly when it is that record's CPR number. */
  lemma CprQueryMatchesByCpr(q: string)
    requires |q| == 11 && IsDigit(q[0])
    ensures forall p | p in MockPatients :: (Matches(p, q) <==> p.cprNumber == q)
  {
    NamesHaveNoDigits();
    CprNumbersFullLength();
    forall p | p in MockPatients ensures Matches(p, q) <==> p.cprNumber == q {
      DigitQueryMatchesCprOnly(p, q);
      ContainsSameLength(p.cprNumber, q);
    }
  }

  lemma CprNumbersDiffer(q: string)
    requires q == "010190-1234"
    ensures forall i | 1 <= i < |MockPatients| :: MockPatients[i].cprNumber != q
  {
    assert Erik.cprNumber[0] != q[0];
    assert Maria.cprNumber[0] != q[0];
    assert Lars.cprNumber[1] != q[1];
    assert Sofie.cprNumber[0] != q[0];
    assert Peter.cprNumber[0] != q[0];
  }

  /** Searching a CPR number finds that patient and nobody else. */
  lemma SearchByCprFindsAnna()
    ensures SearchPatients(MockPatients, "010190-1234") == [Anna]
  {
    var q := "010190-1234";
    assert !IsBlank(q, JsIsSpace) by { assert !JsIsSpace(q[0]); }
    OnlyAnnaMatchesHerCpr(q);
    SearchSingle(MockPatients, q, 0);
  }

  /** A non-blank query matching exactly one record finds just that record. */
  lemma SearchSingle(store: seq<Patient>, q: string, k: nat)
    requires !IsBlank(q, JsIsSpace)
    requires k < |store| && Matches(store[k], q)
    requires forall i | 0 <= i < |store| && i != k :: !Matches(store[i], q)
    ensures SearchPatients(store, q) == [store[k]]
  {
    SearchNonBlankFilters(store, q);
    FilterSingle(store, q, k);
  }

  /** A query that is not blank is filtered on. */
  lemma SearchNonBlankFilters(store: seq<Patient>, q: string)
    requires !IsBlank(q, JsIsSpace)
    ensures SearchPatients(store, q) == FilterMatches(store, q)
  {
    StripEmptyIffBlank(q, JsIsSpace);
  }

  /** Anna's CPR number matches her record and no other. */
  lemma OnlyAnnaMatchesHerCpr(q: string)
    requires q == "010190-1234"
    ensures Matches(MockPatients[0], q)
    ensures forall i | 0 <= i < |MockPatients| && i != 0 :: !Matches(MockPatients[i], q)
  {
    assert |q| == 11 && IsDigit(q[0]);
    CprQueryMatchesByCpr(q);
    CprNumbersDiffer(q);
    assert Matches(MockPatients[0], q) by { assert MockPatients[0] in MockPatients; }
    forall i | 0 <= i < |MockPatients| && i != 0 ensures !Matches(MockPatients[i], q) {
      assert MockPatients[i] in MockPatients;
    }
  }

  // ----- getPatientById -----

  /** `getPatientById`: the first record with the given id, or nothing. */
  function FindById(store: seq<Patient>, id: string): (r: Option<Patient>)
    ensures r.None? <==> forall i | 0 <= i < |store| :: store[i].id != id
    ensures r.Some? ==> exists i | 0 <= i < |store| :: store[i] == r.value && r.value.id == id
                                                      && forall j | 0 <= j < i :: store[j].id != id
  {
    if store == [] then None
    else if store[0].id == id then Some(store[0])
    else
      var r := FindById(store[1..], id);
      assert r.Some? ==> exists i | 1 <= i < |store| :: store[i] == r.value && r.value.id == id
                                                       && forall j | 1 <= j < i :: store[j].id != id;
      r
  }

  /** Ids in the store are pairwise distinct, so the first match is the only one. */
  predicate UniqueIds(store: seq<Patient>) {
    forall i, j | 0 <= i < j < |store| :: store[i].id != store[j].id
  }

  lemma FindByIdUnique(store: seq<Patient>, i: nat)
    requires UniqueIds(store) && i < |store|
    ensures FindById(store, store[i].id) == Some(store[i])
  {
  }

  // ----- getScheduledPatients -----

  function OnDay(store: seq<Patient>, day: CalendarDay): (r: seq<Patient>)
    ensures forall p :: p in r <==> p in store && p.procedureDate == day
  {
    if store == [] then []
    else if store[0].procedureDate == day then [store[0]] + OnDay(store[1..], day)
    else OnDay(store[1..], day)
  }

  /** The day filter keeps every record of the day as many times as the store holds it, and
      no other record. */
  lemma {:induction false} OnDayKeepsMultiplicity(store: seq<Patient>, day: CalendarDay)
    ensures forall p :: multiset(OnDay(store, day))[p] == if p.procedureDate == day then multiset(store)[p] else 0
  {
    if store != [] {
      OnDayKeepsMultiplicity(store[1..], day);
      assert store == [store[0]] + store[1..];
    }
  }

  /** The day filter keeps store order. */
  lemma OnDayIsSubsequence(store: seq<Patient>, day: CalendarDay)
    ensures IsSubsequence(OnDay(store, day), store)
  {
  }

  lemma OnDayStep(s: seq<Patient>, k: nat, day: CalendarDay)
    requires k < |s|
    ensures OnDay(s[k..], day) == if s[k].procedureDate == day then [s[k]] + OnDay(s[k + 1..], day)
                                  else OnDay(s[k + 1..], day)
  {
    assert s[k..][1..] == s[k + 1..];
  }

  predicate SortedByTime(s: seq<Patient>) {
    forall i, j | 0 <= i < j < |s| :: StrLe(s[i].procedureTime, s[j].procedureTime)
  }

  /** The records of `s` whose time is `t`, in order: what a stable sort must not reorder. */
  function WithTime(s: seq<Patient>, t: string): seq<Patient> {
    if s == [] then []
    else if s[0].procedureTime == t then [s[0]] + WithTime(s[1..], t)
    else WithTime(s[1..], t)
  }

  lemma {:induction false} StrLeReflexive(a: string)
    ensures StrLe(a, a)
    decreases |a|
  {
    if a != [] {
      StrLeReflexive(a[1..]);
    }
  }

  /** Places `x` before the first record whose time is not earlier than its own. */
  function Insert(x: Patient, s: seq<Patient>): (r: seq<Patient>)
    ensures multiset(r) == multiset(s) + multiset{x}
  {
    if s == [] || StrLe(x.procedureTime, s[0].procedureTime) then [x] + s
    else
      assert s == [s[0]] + s[1..];
      [s[0]] + Insert(x, s[1..])
  }

  lemma {:induction false} InsertSorted(x: Patient, s: seq<Patient>)
    requires SortedByTime(s)
    ensures SortedByTime(Insert(x, s))
  {
    if s == [] || StrLe(x.procedureTime, s[0].procedureTime) {
      InsertFront(x, s);
      forall k | 0 <= k < |s| ensures StrLe(x.procedureTime, s[k].procedureTime) {
        if k > 0 {
          StrLeTransitive(x.procedureTime, s[0].procedureTime, s[k].procedureTime);
        }
      }
      ConsSorted(x, s);
    } else {
      StrLeTotal(x.procedureTime, s[0].procedureTime);
      InsertSorted(x, s[1..]);
      var r := Insert(x, s[1..]);
      assert Insert(x, s) == [s[0]] + r;
      forall k | 0 <= k < |r| ensures StrLe(s[0].procedureTime, r[k].procedureTime) {
        assert r[k] in multiset(s[1..]) + multiset{x};
        if r[k] != x {
          var j :| 0 <= j < |s[1..]| && s[1..][j] == r[k];
          assert s[j + 1] == r[k];
        }
      }
      ConsSorted(s[0], r);
    }
  }

  /** A record no later than every record of a sorted list can go in front of it. */
  lemma ConsSorted(h: Patient, r: seq<Patient>)
    requires SortedByTime(r)
    requires forall k | 0 <= k < |r| :: StrLe(h.procedureTime, r[k].procedureTime)
    ensures SortedByTime([h] + r)
  {
    forall i, j | 0 <= i < j < |r| + 1 ensures StrLe(([h] + r)[i].procedureTime, ([h] + r)[j].procedureTime) {
      if i == 0 {
        assert ([h] + r)[j] == r[j - 1];
      } else {
        assert ([h] + r)[i] == r[i - 1] && ([h] + r)[j] == r[j - 1];
      }
    }
  }

  lemma {:induction false} InsertStable(x: Patient, s: seq<Patient>, t: string)
    ensures WithTime(Insert(x, s), t) == if x.procedureTime == t then [x] + WithTime(s, t) else WithTime(s, t)
  {
    if s == [] || StrLe(x.procedureTime, s[0].procedureTime) {
    } else {
      InsertStable(x, s[1..], t);
      StrLeReflexive(x.procedureTime);
      assert [s[0]] + Insert(x, s[1..]) == Insert(x, s);
      assert s[0].procedureTime != x.procedureTime;
    }
  }

  /** A stable insertion sort by `procedureTime`, the order `Array.prototype.sort` gives with
      the `localeCompare` comparator. */
  function SortByTime(s: seq<Patient>): (r: seq<Patient>)
    ensures multiset(r) == multiset(s)
  {
    if s == [] then []
    else
      assert s == [s[0]] + s[1..];
      Insert(s[0], SortByTime(s[1..]))
  }

  lemma {:induction false} SortByTimeSorted(s: seq<Patient>)
    ensures SortedByTime(SortByTime(s))
  {
    if s != [] {
      SortByTimeSorted(s[1..]);
      InsertSorted(s[0], SortByTime(s[1..]));
    }
  }

  /** Records with equal times keep their relative order. */
  lemma {:induction false} SortByTimeStable(s: seq<Patient>, t: string)
    ensures WithTime(SortByTime(s), t) == WithTime(s, t)
  {
    if s != [] {
      SortByTimeStable(s[1..], t);
      InsertStable(s[0], SortByTime(s[1..]), t);
    }
  }

  /** `getScheduledPatients`: the records on `day`, earliest first, ties in store order. */
  function ScheduledPatients(store: seq<Patient>, day: CalendarDay): (r: seq<Patient>)
    ensures forall p :: p in r <==> p in store && p.procedureDate == day
    ensures multiset(r) == multiset(OnDay(store, day))
  {
    var r := SortByTime(OnDay(store, day));
    assert forall p :: p in r <==> p in multiset(r);
    assert forall p :: p in OnDay(store, day) <==> p in multiset(OnDay(store, day));
    r
  }

  /** The schedule is ordered by time and stable. */
  lemma ScheduledPatientsOrdered(store: seq<Patient>, day: CalendarDay, t: string)
    ensures SortedByTime(ScheduledPatients(store, day))
    ensures WithTime(ScheduledPatients(store, day), t) == WithTime(OnDay(store, day), t)
  {
    SortByTimeSorted(OnDay(store, day));
    SortByTimeStable(OnDay(store, day), t);
  }

  lemma SortByTimeCons(x: Patient, s: seq<Patient>)
    ensures SortByTime([x] + s) == Insert(x, SortByTime(s))
  {
    assert ([x] + s)[1..] == s;
  }

  lemma InsertFront(x: Patient, s: seq<Patient>)
    requires s == [] || StrLe(x.procedureTime, s[0].procedureTime)
    ensures Insert(x, s) == [x] + s
  {
  }

  lemma {:induction false} SortThree(a: Patient, b: Patient, c: Patient)
    requires StrLe(a.procedureTime, b.procedureTime) && StrLe(b.procedureTime, c.procedureTime)
    ensures SortByTime([a, b, c]) == [a, b, c]
  {
    SortByTimeCons(c, []);
    InsertFront(c, []);
    assert SortByTime([c]) == [c];
    SortByTimeCons(b, [c]);
    InsertFront(b, [c]);
    assert SortByTime([b, c]) == [b, c];
    SortByTimeCons(a, [b, c]);
    InsertFront(a, [b, c]);
  }

  /** The day filter on a six-record store whose records 0, 1 and 4 fall on the day. */
  lemma {:induction false} OnDayOfSix(s: seq<Patient>, d: CalendarDay)
    requires |s| == 6
    requires s[0].procedureDate == d && s[1].procedureDate == d && s[2].procedureDate != d
    requires s[3].procedureDate != d && s[4].procedureDate == d && s[5].procedureDate != d
    ensures OnDay(s, d) == [s[0], s[1], s[4]]
  {
    assert OnDay(s[5..], d) == [] by {
      OnDayStep(s, 5, d);
      assert s[6..] == [];
    }
    assert OnDay(s[4..], d) == [s[4]] by { OnDayStep(s, 4, d); }
    assert OnDay(s[3..], d) == [s[4]] by { OnDayStep(s, 3, d); }
    assert OnDay(s[2..], d) == [s[4]] by { OnDayStep(s, 2, d); }
    assert OnDay(s[1..], d) == [s[1], s[4]] by { OnDayStep(s, 1, d); }
    assert OnDay(s[0..], d) == [s[0], s[1], s[4]] by { OnDayStep(s, 0, d); }
    assert s[0..] == s;
  }

  lemma {:induction false} ScheduleOfJanuary24()
    ensures ScheduledPatients(MockPatients, Day(2026, 1, 24)) == [Anna, Erik, Sofie]
  {
    OnDayOfSix(MockPatients, Day(2026, 1, 24));
    TimeOrderIsChronological("08:30", "11:30");
    TimeOrderIsChronological("08:00", "08:30");
    SortThree(Anna, Erik, Sofie);
  }

  lemma {:induction false} OnDayNone(store: seq<Patient>, day: CalendarDay)
    requires forall p | p in store :: p.procedureDate != day
    ensures OnDay(store, day) == []
  {
    if store != [] {
      OnDayNone(store[1..], day);
    }
  }

  lemma ScheduleOfEmptyDay()
    ensures ScheduledPatients(MockPatients, Day(2026, 1, 1)) == []
  {
    OnDayNone(MockPatients, Day(2026, 1, 1));
  }

  /** Every record has a distinct id, a well-formed time and an ASA class from 1 to 5. */
  lemma MockPatientsWellFormed()
    ensures UniqueIds(MockPatients)
    ensures forall p | p in MockPatients :: WellFormedTime(p.procedureTime) && 1 <= p.asaScore <= 5
  {
  }
}
