/** The decision engine: from a submitted intake record to an urgency tier,
    an ordered list of at most three medicine suggestions and a fixed list of
    home-care advice (`getRecommendations` in MedicineRecommendations.tsx).
    Everything here is a pure function of the record. */
module MedicineRecommendations {
  import opened Shared

  datatype Urgency = Urgent | Moderate | Mild

  /** A medicine suggestion; the icon the source attaches to it is presentation only. */
  datatype Medicine = Medicine(name: string, dosage: string, purpose: string)

  datatype Recommendations = Recommendations(
    urgencyLevel: Urgency,
    medicines: seq<Medicine>,
    homeRemedies: seq<string>)

  /** The lower-case terms each rule looks for. */
  const RespiratoryTerms: seq<string> := ["cough", "sore throat", "runny nose", "congestion"]
  const PainTerms: seq<string> := ["headache", "joint pain", "back pain", "chest pain"]
  const RedFlagTerms: seq<string> := ["chest pain", "shortness of breath"]

  const Acetaminophen: Medicine :=
    Medicine("Acetaminophen (Tylenol)", "500mg every 4-6 hours", "Fever reduction and pain relief")
  const Ibuprofen: Medicine :=
    Medicine("Ibuprofen (Advil)", "400mg every 6-8 hours", "Pain and inflammation relief")
  const HoneyAndWarmWater: Medicine :=
    Medicine("Honey & Warm Water", "1-2 tablespoons as needed", "Soothe throat and suppress cough")

  const HomeRemedies: seq<string> := [
    "Stay hydrated - drink plenty of fluids",
    "Get adequate rest (7-9 hours of sleep)",
    "Use a humidifier to ease breathing",
    "Gargle with warm salt water for throat pain"
  ]

  /** Position of an entry in the fixed order Acetaminophen, Ibuprofen, Honey. */
  function Position(m: Medicine): nat {
    if m == Acetaminophen then 0 else if m == Ibuprofen then 1 else 2
  }

  /** The three entries are distinct and sit at positions 0, 1, 2. */
  lemma MedicinesDistinct()
    ensures Acetaminophen != Ibuprofen && Acetaminophen != HoneyAndWarmWater
    ensures Ibuprofen != HoneyAndWarmWater
    ensures Position(Acetaminophen) == 0 && Position(Ibuprofen) == 1
    ensures Position(HoneyAndWarmWater) == 2
  {
  }

  /** How severe a tier is, for comparing tiers. */
  function Rank(u: Urgency): nat {
    match u
    case Mild => 0
    case Moderate => 1
    case Urgent => 2
  }

  /** Lower-cases one character; only the ASCII letters A-Z change. */
  function LowerChar(c: char): char {
    if 'A' <= c <= 'Z' then (c as int - 'A' as int + 'a' as int) as char else c
  }

  /** `s.toLowerCase()`, restricted to ASCII letters. */
  function ToLower(s: string): (r: string)
    ensures |r| == |s|
    ensures forall i :: 0 <= i < |s| ==> !('A' <= r[i] <= 'Z')
    ensures forall i :: 0 <= i < |s| && 'A' <= s[i] <= 'Z' ==> r[i] as int == s[i] as int + 32
    ensures forall i :: 0 <= i < |s| && !('A' <= s[i] <= 'Z') ==> r[i] == s[i]
  {
    seq(|s|, i requires 0 <= i < |s| => LowerChar(s[i]))
  }

  /** Some symptom, lower-cased, is one of `terms`: the reference definition
      of the source's `symptoms.some(s => terms.includes(s.toLowerCase()))`. */
  ghost predicate Mentions(symptoms: seq<string>, terms: seq<string>) {
    exists i :: 0 <= i < |symptoms| && ToLower(symptoms[i]) in terms
  }

  /** The `some` scan itself, front to back. */
  function SomeLowerIn(symptoms: seq<string>, terms: seq<string>): (r: bool)
    ensures r <==> Mentions(symptoms, terms)
  {
    if symptoms == [] then false
    else
      var rest := SomeLowerIn(symptoms[1..], terms);
      assert Mentions(symptoms[1..], terms) ==> Mentions(symptoms, terms) by {
        if Mentions(symptoms[1..], terms) {
          var i :| 0 <= i < |symptoms[1..]| && ToLower(symptoms[1..][i]) in terms;
          assert symptoms[i + 1] == symptoms[1..][i];
        }
      }
      ToLower(symptoms[0]) in terms || rest
  }

  /** The medicine list built by the three conditional spreads. */
  function Suggest(hasFever: bool, hasPain: bool, hasRespiratory: bool): (m: seq<Medicine>)
    ensures Acetaminophen in m <==> hasFever
    ensures Ibuprofen in m <==> hasPain
    ensures HoneyAndWarmWater in m <==> hasRespiratory
    ensures |m| <= 3
    ensures forall i :: 0 <= i < |m| ==> m[i] in [Acetaminophen, Ibuprofen, HoneyAndWarmWater]
    ensures forall i, j :: 0 <= i < j < |m| ==> Position(m[i]) < Position(m[j])
  {
    MedicinesDistinct();
    (if hasFever then [Acetaminophen] else [])
      + (if hasPain then [Ibuprofen] else [])
      + (if hasRespiratory then [HoneyAndWarmWater] else [])
  }

  /** The decision engine. The duration is part of the record but is not consulted. */
  function GetRecommendations(data: SymptomData): (r: Recommendations)
    // urgency tier
    ensures r.urgencyLevel == Urgent <==>
              (data.severity >= 8 || Mentions(data.symptoms, RedFlagTerms))
    ensures r.urgencyLevel == Moderate <==>
              (6 <= data.severity < 8 && !Mentions(data.symptoms, RedFlagTerms))
    ensures r.urgencyLevel == Mild <==>
              (data.severity < 6 && !Mentions(data.symptoms, RedFlagTerms))
    // three independent medicine rules; the fever rule is case-sensitive
    ensures Acetaminophen in r.medicines <==> "Fever" in data.symptoms
    ensures Ibuprofen in r.medicines <==> Mentions(data.symptoms, PainTerms)
    ensures HoneyAndWarmWater in r.medicines <==> Mentions(data.symptoms, RespiratoryTerms)
    // nothing else, each at most once, in the fixed order
    ensures |r.medicines| <= 3
    ensures forall i :: 0 <= i < |r.medicines| ==>
              r.medicines[i] in [Acetaminophen, Ibuprofen, HoneyAndWarmWater]
    ensures forall i, j :: 0 <= i < j < |r.medicines| ==>
              Position(r.medicines[i]) < Position(r.medicines[j])
    // home care does not depend on the input
    ensures r.homeRemedies == HomeRemedies
  {
    var hasRespiratory := SomeLowerIn(data.symptoms, RespiratoryTerms);
    var hasPain := SomeLowerIn(data.symptoms, PainTerms);
    var hasFever := "Fever" in data.symptoms;
    var isUrgent := data.severity >= 8 || SomeLowerIn(data.symptoms, RedFlagTerms);
    Recommendations(
      if isUrgent then Urgent else if data.severity >= 6 then Moderate else Mild,
      Suggest(hasFever, hasPain, hasRespiratory),
      HomeRemedies)
  }

  /** Raising the severity, with the same symptoms, never lowers the tier. */
  lemma UrgencyMonotoneInSeverity(data: SymptomData, severity: int)
    requires data.severity <= severity
    ensures Rank(GetRecommendations(data).urgencyLevel)
         <= Rank(GetRecommendations(data.(severity := severity)).urgencyLevel)
  {
  }

  /** Two symptom lists that agree once lower-cased mention the same terms. */
  lemma MentionsIgnoresCase(a: seq<string>, b: seq<string>, terms: seq<string>)
    requires |a| == |b|
    requires forall i :: 0 <= i < |a| ==> ToLower(a[i]) == ToLower(b[i])
    ensures Mentions(a, terms) <==> Mentions(b, terms)
  {
  }

  /** The urgency tier and the Ibuprofen and Honey rules ignore letter case:
      records whose symptoms agree once lower-cased get the same tier and
      the same answer from those two rules. */
  lemma DecisionIgnoresCase(a: SymptomData, b: SymptomData)
    requires a.severity == b.severity && |a.symptoms| == |b.symptoms|
    requires forall i :: 0 <= i < |a.symptoms| ==> ToLower(a.symptoms[i]) == ToLower(b.symptoms[i])
    ensures GetRecommendations(a).urgencyLevel == GetRecommendations(b).urgencyLevel
    ensures Ibuprofen in GetRecommendations(a).medicines <==> Ibuprofen in GetRecommendations(b).medicines
    ensures HoneyAndWarmWater in GetRecommendations(a).medicines
        <==> HoneyAndWarmWater in GetRecommendations(b).medicines
  {
    MentionsIgnoresCase(a.symptoms, b.symptoms, RedFlagTerms);
    MentionsIgnoresCase(a.symptoms, b.symptoms, PainTerms);
    MentionsIgnoresCase(a.symptoms, b.symptoms, RespiratoryTerms);
  }

  /** Lower-casing of the literal symptoms the scenarios below use. */
  lemma LowerFever()
    ensures ToLower("Fever") == "fever" && ToLower("fever") == "fever"
  {
  }

  lemma LowerChestPain()
    ensures ToLower("Chest pain") == "chest pain"
  {
  }

  lemma LowerShortnessOfBreath()
    ensures ToLower("Shortness of breath") == "shortness of breath"
  {
  }

  lemma LowerCough()
    ensures ToLower("Cough") == "cough"
  {
  }

  /** The three scans on ["Fever"] and on ["fever"]: none matches. */
  lemma FeverScans()
    ensures !SomeLowerIn(["Fever"], RespiratoryTerms) && !SomeLowerIn(["fever"], RespiratoryTerms)
    ensures !SomeLowerIn(["Fever"], PainTerms) && !SomeLowerIn(["fever"], PainTerms)
    ensures !SomeLowerIn(["Fever"], RedFlagTerms) && !SomeLowerIn(["fever"], RedFlagTerms)
  {
    LowerFever();
  }

  /** The three scans on ["Chest pain"]: pain and red flag. */
  lemma ChestPainScans()
    ensures !SomeLowerIn(["Chest pain"], RespiratoryTerms)
    ensures SomeLowerIn(["Chest pain"], PainTerms)
    ensures SomeLowerIn(["Chest pain"], RedFlagTerms)
  {
    LowerChestPain();
  }

  /** The three scans on ["Shortness of breath"]: red flag only. */
  lemma ShortnessOfBreathScans()
    ensures !SomeLowerIn(["Shortness of breath"], RespiratoryTerms)
    ensures !SomeLowerIn(["Shortness of breath"], PainTerms)
    ensures SomeLowerIn(["Shortness of breath"], RedFlagTerms)
  {
    LowerShortnessOfBreath();
  }

  /** The three scans on ["Cough"]: respiratory only. */
  lemma CoughScans()
    ensures SomeLowerIn(["Cough"], RespiratoryTerms)
    ensures !SomeLowerIn(["Cough"], PainTerms)
    ensures !SomeLowerIn(["Cough"], RedFlagTerms)
  {
    LowerCough();
  }

  /** The fever rule alone is case-sensitive: "Fever" triggers Acetaminophen,
      "fever" triggers nothing. */
  lemma FeverRuleIsCaseSensitive(duration: string, severity: int, info: string)
    ensures GetRecommendations(SymptomData(["Fever"], duration, severity, info)).medicines == [Acetaminophen]
    ensures GetRecommendations(SymptomData(["fever"], duration, severity, info)).medicines == []
  {
    FeverScans();
    assert Suggest(true, false, false) == [Acetaminophen];
  }

  /** A fever at severity 5: tier mild, Acetaminophen alone. */
  lemma FeverAtSeverityFive(duration: string, info: string)
    ensures var r := GetRecommendations(SymptomData(["Fever"], duration, 5, info));
            r.urgencyLevel == Mild && r.medicines == [Acetaminophen]
  {
    FeverScans();
    assert Suggest(true, false, false) == [Acetaminophen];
  }

  /** Chest pain is urgent at any severity and also matches the pain rule. */
  lemma ChestPainIsUrgent(duration: string, severity: int, info: string)
    ensures var r := GetRecommendations(SymptomData(["Chest pain"], duration, severity, info));
            r.urgencyLevel == Urgent && r.medicines == [Ibuprofen]
  {
    ChestPainScans();
    assert Suggest(false, true, false) == [Ibuprofen];
  }

  /** Shortness of breath is urgent even at severity 1, and suggests no medicine. */
  lemma ShortnessOfBreathIsUrgent(duration: string, info: string)
    ensures var r := GetRecommendations(SymptomData(["Shortness of breath"], duration, 1, info));
            r.urgencyLevel == Urgent && r.medicines == []
  {
    ShortnessOfBreathScans();
  }

  /** A cough at severity 3: tier mild, Honey & Warm Water alone, four home remedies. */
  lemma MildCough(info: string)
    ensures var r := GetRecommendations(SymptomData(["Cough"], "1-3-days", 3, info));
            r.urgencyLevel == Mild && r.medicines == [HoneyAndWarmWater]
            && |r.homeRemedies| == 4
  {
    CoughScans();
    assert Suggest(false, false, true) == [HoneyAndWarmWater];
  }
}
