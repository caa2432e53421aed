/** The flow controller (SymptomChecker.tsx): three tabs, intake first; the
    recommendation and booking tabs open only once an intake record has been
    submitted. Also the relation between the two urgency classifications the
    flow shows side by side. */
module SymptomChecker {
  import opened Shared
  import opened MedicineRecommendations
  import opened AppointmentBooking
  import SymptomForm

  /** The three tab values "symptoms", "recommendations" and "appointment". */
  datatype Tab = SymptomsTab | RecommendationsTab | AppointmentTab

  class FlowController {
    var symptomData: Option<SymptomData>
    var activeTab: Tab

    /** Only the intake tab can be active before any record has been
        submitted, and a stored record is one the intake form accepted. */
    ghost predicate Valid()
      reads this
    {
      && (activeTab != SymptomsTab ==> symptomData.Some?)
      && (symptomData.Some? ==> SymptomForm.CompleteIntake(symptomData.value))
    }

    constructor ()
      ensures Valid() && symptomData == None && activeTab == SymptomsTab
    {
      symptomData := None;
      activeTab := SymptomsTab;
    }

    /** A tab trigger is enabled: the intake tab always, the other two once
        a record exists. */
    predicate TabEnabled(t: Tab): (r: bool)
      reads this
      ensures t == SymptomsTab ==> r
      ensures symptomData.None? ==> (r <==> t == SymptomsTab)
      ensures symptomData.Some? ==> r
    {
      t == SymptomsTab || symptomData.Some?
    }

    /** `handleSymptomSubmit`: store the record, replacing any earlier one,
        and open the recommendations tab. */
    method HandleSymptomSubmit(data: SymptomData)
      requires SymptomForm.CompleteIntake(data)
      modifies this
      ensures Valid()
      ensures symptomData == Some(data) && activeTab == RecommendationsTab
    {
      symptomData := Some(data);
      activeTab := RecommendationsTab;
    }

    /** Clicking a tab trigger; a click on a disabled trigger does nothing.
        The stored record is never touched. */
    method SelectTab(t: Tab)
      requires Valid()
      modifies this`activeTab
      ensures Valid()
      ensures old(TabEnabled(t)) ==> activeTab == t
      ensures !old(TabEnabled(t)) ==> activeTab == old(activeTab)
      ensures symptomData.None? ==> activeTab == SymptomsTab
    {
      if t == SymptomsTab || symptomData.Some? {
        activeTab := t;
      }
    }

    /** The intake form's submit wired to `handleSymptomSubmit`: a refused
        submit leaves the flow as it was; an accepted one stores exactly the
        form's current values and opens the recommendations tab. */
    method SubmitIntake(form: SymptomForm.IntakeForm) returns (r: Result<SymptomData, SymptomForm.IntakeError>)
      requires Valid() && form.Valid() && activeTab == SymptomsTab
      modifies this
      ensures Valid()
      ensures r.Failure? ==> symptomData == old(symptomData) && activeTab == old(activeTab)
      ensures r.Success? <==> form.symptoms != [] && form.duration != ""
      ensures r.Success? ==> symptomData == Some(r.value) && activeTab == RecommendationsTab
      ensures r.Success? ==> r.value == SymptomData(form.symptoms, form.duration, form.severity, form.additionalInfo)
      ensures old(symptomData).Some? ==> symptomData.Some?
    {
      r := form.HandleSubmit();
      if r.Success? {
        HandleSymptomSubmit(r.value);
      }
    }

    /** The recommendations tab's content: present exactly when a record
        exists, and computed from that record. */
    function RecommendationsView(): (v: Option<Recommendations>)
      reads this
      ensures v.Some? <==> symptomData.Some?
      ensures v.Some? ==> v.value == GetRecommendations(symptomData.value)
      ensures v.Some? ==> (v.value.urgencyLevel == Urgent <==>
                (symptomData.value.severity >= 8 || Mentions(symptomData.value.symptoms, RedFlagTerms)))
    {
      if symptomData.Some? then Some(GetRecommendations(symptomData.value)) else None
    }

    /** The timing the booking tab computes (`urgency`): present exactly
        when a record exists, and read off that record's severity alone. */
    function AppointmentView(): (v: Option<BookingUrgency>)
      reads this
      ensures v.Some? <==> symptomData.Some?
      ensures v.Some? ==> v.value == RecommendedUrgency(symptomData.value.severity)
      ensures v.Some? ==> (v.value == UrgentCare <==> symptomData.value.severity >= 8)
      ensures v.Some? ==> (v.value == SameDay <==> 6 <= symptomData.value.severity < 8)
      ensures v.Some? ==> (v.value == Routine <==> symptomData.value.severity < 6)
    {
      if symptomData.Some? then Some(RecommendedUrgency(symptomData.value.severity)) else None
    }
  }

  /** Without a red-flag symptom the two classifications coincide:
      urgent/urgent, moderate/same-day, mild/routine. */
  lemma ClassifiersAgreeWithoutRedFlags(data: SymptomData)
    requires !Mentions(data.symptoms, RedFlagTerms)
    ensures var tier := GetRecommendations(data).urgencyLevel;
            var timing := RecommendedUrgency(data.severity);
            && (tier == Urgent <==> timing == UrgentCare)
            && (tier == Moderate <==> timing == SameDay)
            && (tier == Mild <==> timing == Routine)
  {
  }

  /** The timing banner never asks for more haste than the tier: an urgent
      timing comes with an urgent tier, a same-day timing with a tier of at
      least moderate. */
  lemma TimingNeverExceedsTier(data: SymptomData)
    ensures RecommendedUrgency(data.severity) == UrgentCare ==> GetRecommendations(data).urgencyLevel == Urgent
    ensures RecommendedUrgency(data.severity) == SameDay ==> GetRecommendations(data).urgencyLevel != Mild
  {
  }

  /** The two classifications can disagree: chest pain at severity 3 is an
      urgent tier with a routine booking timing. */
  lemma ChestPainTierAndTimingDisagree(duration: string, info: string)
    ensures var data := SymptomData(["Chest pain"], duration, 3, info);
            GetRecommendations(data).urgencyLevel == Urgent && RecommendedUrgency(data.severity) == Routine
  {
    ChestPainIsUrgent(duration, 3, info);
  }
}
