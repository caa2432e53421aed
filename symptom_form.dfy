/** The intake collector (SymptomForm.tsx): a form that gathers a list of
    distinct symptoms, a duration bucket, a severity and free-text notes, and
    hands them over on submit once the list and the duration are filled in. */
module SymptomForm {
  import opened Shared

  /** The quick-pick symptom chips. */
  const CommonSymptoms: seq<string> := [
    "Headache", "Fever", "Cough", "Sore throat", "Nausea", "Fatigue",
    "Dizziness", "Chest pain", "Shortness of breath", "Abdominal pain",
    "Joint pain", "Back pain", "Runny nose", "Congestion"
  ]

  /** The values the duration select can produce. */
  const DurationOptions: seq<string> := [
    "less-than-1-day", "1-3-days", "4-7-days", "1-2-weeks", "2-4-weeks", "more-than-1-month"
  ]

  /** Why a submit was refused; the source shows each as an error toast. */
  datatype IntakeError = NoSymptoms | NoDuration

  predicate NoDuplicates(xs: seq<string>) {
    forall i, j :: 0 <= i < j < |xs| ==> xs[i] != xs[j]
  }

  /** A record the form's submit can produce: at least one symptom, no
      duplicates, a duration from the select, a severity from the slider. */
  predicate CompleteIntake(data: SymptomData) {
    && data.symptoms != []
    && NoDuplicates(data.symptoms)
    && data.duration in DurationOptions
    && 1 <= data.severity <= 10
  }

  /** The list `addSymptom` leaves behind: `[...symptoms, symptom]` when the
      symptom is non-empty and not yet present (exact, case-sensitive match),
      otherwise the list unchanged. */
  function Added(symptoms: seq<string>, symptom: string): (r: seq<string>)
    ensures |symptoms| <= |r| <= |symptoms| + 1
    ensures r[..|symptoms|] == symptoms
    ensures |r| == |symptoms| + 1 <==> symptom != "" && symptom !in symptoms
    ensures |r| == |symptoms| + 1 ==> r[|symptoms|] == symptom
  {
    if symptom != "" && symptom !in symptoms then symptoms + [symptom] else symptoms
  }

  /** `symptoms.filter(s => s !== symptom)`. */
  function Filtered(symptoms: seq<string>, symptom: string): (r: seq<string>)
    ensures |r| <= |symptoms|
    ensures forall x :: x in r <==> x in symptoms && x != symptom
  {
    if symptoms == [] then []
    else if symptoms[0] == symptom then Filtered(symptoms[1..], symptom)
    else [symptoms[0]] + Filtered(symptoms[1..], symptom)
  }

  /** Adding keeps the list free of duplicates. */
  lemma AddedKeepsNoDuplicates(symptoms: seq<string>, symptom: string)
    requires NoDuplicates(symptoms)
    ensures NoDuplicates(Added(symptoms, symptom))
  {
  }

  /** Adding the same symptom twice gives the list that adding it once gives. */
  lemma AddedIsIdempotent(symptoms: seq<string>, symptom: string)
    ensures Added(Added(symptoms, symptom), symptom) == Added(symptoms, symptom)
  {
  }

  /** Removing a symptom that is not there changes nothing. */
  lemma {:induction false} FilteredAbsentIsIdentity(symptoms: seq<string>, symptom: string)
    requires symptom !in symptoms
    ensures Filtered(symptoms, symptom) == symptoms
  {
    if symptoms != [] {
      FilteredAbsentIsIdentity(symptoms[1..], symptom);
    }
  }

  /** In a list without duplicates, removing the entry at position k leaves
      the others in their relative order. */
  lemma {:induction false} FilteredRemovesAt(symptoms: seq<string>, k: nat)
    requires NoDuplicates(symptoms) && k < |symptoms|
    ensures Filtered(symptoms, symptoms[k]) == symptoms[..k] + symptoms[k + 1..]
  {
    if k == 0 {
      FilteredAbsentIsIdentity(symptoms[1..], symptoms[0]);
    } else {
      assert symptoms[1..][k - 1] == symptoms[k];
      FilteredRemovesAt(symptoms[1..], k - 1);
      assert symptoms[..k] == [symptoms[0]] + symptoms[1..][..k - 1];
      assert symptoms[k + 1..] == symptoms[1..][k..];
    }
  }

  /** Removing keeps the list free of duplicates. */
  lemma {:induction false} FilteredKeepsNoDuplicates(symptoms: seq<string>, symptom: string)
    requires NoDuplicates(symptoms)
    ensures NoDuplicates(Filtered(symptoms, symptom))
  {
    if symptoms != [] {
      FilteredKeepsNoDuplicates(symptoms[1..], symptom);
      assert symptoms[0] !in symptoms[1..];
    }
  }

  /** Removing a symptom just added gives back the list before the add. */
  lemma RemoveUndoesAdd(symptoms: seq<string>, symptom: string)
    requires NoDuplicates(symptoms) && symptom != "" && symptom !in symptoms
    ensures Filtered(Added(symptoms, symptom), symptom) == symptoms
  {
    var added := symptoms + [symptom];
    assert added[|symptoms|] == symptom;
    FilteredRemovesAt(added, |symptoms|);
    assert added[..|symptoms|] == symptoms;
  }

  /** Every quick-pick chip is non-empty and distinct, so a chip adds exactly
      its own symptom the first time it is pressed. */
  lemma CommonSymptomsAreDistinct()
    ensures NoDuplicates(CommonSymptoms) && "" !in CommonSymptoms
  {
  }

  /** The form's state. Severity is the one value of the source's
      one-element slider array. */
  class IntakeForm {
    var symptoms: seq<string>
    var newSymptom: string
    var duration: string
    var severity: int
    var additionalInfo: string

    /** What every handler keeps: no duplicate symptoms, a duration that is
        unset or one of the select's values, a severity within the slider's range. */
    ghost predicate Valid()
      reads this
    {
      && NoDuplicates(symptoms)
      && (duration == "" || duration in DurationOptions)
      && 1 <= severity <= 10
    }

    constructor ()
      ensures Valid()
      ensures symptoms == [] && newSymptom == "" && duration == ""
      ensures severity == 5 && additionalInfo == ""
    {
      symptoms := [];
      newSymptom := "";
      duration := "";
      severity := 5;
      additionalInfo := "";
    }

    /** Typing in the free-text symptom box. */
    method TypeSymptom(text: string)
      requires Valid()
      modifies this`newSymptom
      ensures Valid() && newSymptom == text
    {
      newSymptom := text;
    }

    /** `addSymptom`: appends a new, non-empty symptom and clears the text
        box; does nothing at all otherwise. */
    method AddSymptom(symptom: string)
      requires Valid()
      modifies this`symptoms, this`newSymptom
      ensures Valid()
      ensures symptoms == Added(old(symptoms), symptom)
      ensures symptom != "" && symptom !in old(symptoms) ==> newSymptom == ""
      ensures symptom == "" || symptom in old(symptoms) ==> newSymptom == old(newSymptom)
    {
      if symptom != "" && symptom !in symptoms {
        AddedKeepsNoDuplicates(symptoms, symptom);
        symptoms := symptoms + [symptom];
        newSymptom := "";
      }
    }

    /** The plus button and the Enter key: add what has been typed. */
    method AddTypedSymptom()
      requires Valid()
      modifies this`symptoms, this`newSymptom
      ensures Valid()
      ensures symptoms == Added(old(symptoms), old(newSymptom))
      ensures newSymptom == (if symptoms == old(symptoms) then old(newSymptom) else "")
    {
      AddSymptom(newSymptom);
    }

    /** `removeSymptom`: drops every occurrence of the symptom. */
    method RemoveSymptom(symptom: string)
      requires Valid()
      modifies this`symptoms
      ensures Valid()
      ensures symptoms == Filtered(old(symptoms), symptom)
    {
      FilteredKeepsNoDuplicates(symptoms, symptom);
      symptoms := Filtered(symptoms, symptom);
    }

    /** The duration select; it offers only `DurationOptions`. */
    method SetDuration(value: string)
      requires Valid() && value in DurationOptions
      modifies this`duration
      ensures Valid() && duration == value
    {
      duration := value;
    }

    /** The severity slider: whole numbers from 1 to 10. */
    method SetSeverity(value: int)
      requires Valid() && 1 <= value <= 10
      modifies this`severity
      ensures Valid() && severity == value
    {
      severity := value;
    }

    method SetAdditionalInfo(text: string)
      requires Valid()
      modifies this`additionalInfo
      ensures Valid() && additionalInfo == text
    {
      additionalInfo := text;
    }

    /** `handleSubmit`: refuses an empty symptom list first, then an unset
        duration; otherwise the record to hand to `onSubmit`. Changes nothing. */
    method HandleSubmit() returns (r: Result<SymptomData, IntakeError>)
      requires Valid()
      ensures symptoms == [] ==> r == Failure(NoSymptoms)
      ensures symptoms != [] && duration == "" ==> r == Failure(NoDuration)
      ensures r.Success? <==> symptoms != [] && duration != ""
      ensures r.Success? ==> r.value == SymptomData(symptoms, duration, severity, additionalInfo)
      ensures r.Success? ==> CompleteIntake(r.value)
    {
      if |symptoms| == 0 {
        return Failure(NoSymptoms);
      }
      if duration == "" {
        return Failure(NoDuration);
      }
      r := Success(SymptomData(symptoms, duration, severity, additionalInfo));
    }
  }
}
