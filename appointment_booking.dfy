/** The booking form (AppointmentBooking.tsx): a static doctor catalog, a
    severity-only timing recommendation, eight form fields, a completeness
    check on submit and a deferred confirmation. */
module AppointmentBooking {
  import opened Shared

  /** A catalog record; the floating-point rating is display-only and left out. */
  datatype Doctor = Doctor(
    id: string,
    name: string,
    specialty: string,
    nextAvailable: string,
    location: string,
    consultationFee: string)

  const Doctors: seq<Doctor> := [
    Doctor("1", "Dr. Sarah Johnson", "General Medicine", "Today 2:30 PM",
           "Medical Center Downtown", "$75"),
    Doctor("2", "Dr. Michael Chen", "Internal Medicine", "Tomorrow 10:00 AM",
           "City Health Clinic", "$85"),
    Doctor("3", "Dr. Emily Rodriguez", "Family Medicine", "Tomorrow 3:15 PM",
           "Community Health Center", "$70")
  ]

  /** The values the time select can produce. */
  const TimeSlots: seq<string> := [
    "9:00 AM", "9:30 AM", "10:00 AM", "10:30 AM", "11:00 AM", "11:30 AM",
    "2:00 PM", "2:30 PM", "3:00 PM", "3:30 PM", "4:00 PM", "4:30 PM"
  ]

  /** The values the two consultation-type buttons set. */
  const AppointmentTypes: seq<string> := ["video", "in-person"]

  /** The timing banner: "urgent", "same-day" or "routine". */
  datatype BookingUrgency = UrgentCare | SameDay | Routine

  /** `getRecommendedUrgency`: a function of the severity alone. */
  function RecommendedUrgency(severity: int): (u: BookingUrgency)
    ensures u == UrgentCare <==> severity >= 8
    ensures u == SameDay <==> 6 <= severity < 8
    ensures u == Routine <==> severity < 6
  {
    if severity >= 8 then UrgentCare
    else if severity >= 6 then SameDay
    else Routine
  }

  predicate UniqueIds(catalog: seq<Doctor>) {
    forall i, j :: 0 <= i < j < |catalog| ==> catalog[i].id != catalog[j].id
  }

  /** `catalog.find(d => d.id === id)`: the first record with that id. */
  function Find(catalog: seq<Doctor>, id: string): (r: Option<Doctor>)
    ensures r.Some? <==> exists i :: 0 <= i < |catalog| && catalog[i].id == id
    ensures r.Some? ==> r.value in catalog && r.value.id == id
    ensures r.Some? ==> exists i :: 0 <= i < |catalog| && catalog[i] == r.value &&
                                   forall j :: 0 <= j < i ==> catalog[j].id != id
  {
    if catalog == [] then None
    else if catalog[0].id == id then Some(catalog[0])
    else
      var rest := Find(catalog[1..], id);
      assert (exists i :: 0 <= i < |catalog| && catalog[i].id == id) ==>
             (exists i :: 0 <= i < |catalog[1..]| && catalog[1..][i].id == id) by {
        if exists i :: 0 <= i < |catalog| && catalog[i].id == id {
          var i :| 0 <= i < |catalog| && catalog[i].id == id;
          assert i > 0 && catalog[1..][i - 1] == catalog[i];
        }
      }
      assert rest.Some? ==> exists i :: 0 <= i < |catalog| && catalog[i] == rest.value &&
                                        forall j :: 0 <= j < i ==> catalog[j].id != id by {
        if rest.Some? {
          var i :| 0 <= i < |catalog[1..]| && catalog[1..][i] == rest.value &&
                   forall j :: 0 <= j < i ==> catalog[1..][j].id != id;
          assert catalog[i + 1] == rest.value;
          forall j | 0 <= j < i + 1 ensures catalog[j].id != id {
            if j > 0 { assert catalog[j] == catalog[1..][j - 1]; }
          }
        }
      }
      rest
  }

  /** With unique ids, looking up a record's id finds that very record. */
  lemma FindById(catalog: seq<Doctor>, k: nat)
    requires UniqueIds(catalog) && k < |catalog|
    ensures Find(catalog, catalog[k].id) == Some(catalog[k])
  {
  }

  /** The catalog's ids are "1", "2" and "3", all different. */
  lemma CatalogIds()
    ensures UniqueIds(Doctors)
    ensures Doctors[0].id == "1" && Doctors[1].id == "2" && Doctors[2].id == "3"
  {
  }

  /** What the confirmation card shows: the doctor found by the lookup (the
      card reads its name and fee through optional chaining), the date, the
      time and the consultation type. */
  datatype Confirmation = Confirmation(
    doctor: Option<Doctor>,
    date: string,
    time: string,
    appointmentType: string)

  /** The form's state. `pendingCompletions` counts the simulated
      confirmations that a successful submit has scheduled and that have not
      yet fired. While `isBooked` holds, the component renders only the
      confirmation card and its "Book Another Appointment" button, so the
      field handlers and the submit require `!isBooked` and `BookAnother`
      requires `isBooked`. */
  class BookingForm {
    const symptomData: SymptomData
    var selectedDoctor: string
    var appointmentType: string
    var selectedDate: string
    var selectedTime: string
    var patientName: string
    var patientPhone: string
    var notes: string
    var isBooked: bool
    var pendingCompletions: nat

    /** The values the controls can produce, and the fact that a booking
        under way or done always has a doctor and a consultation type. */
    ghost predicate Valid()
      reads this
    {
      && (selectedDoctor == "" || Find(Doctors, selectedDoctor).Some?)
      && (appointmentType == "" || appointmentType in AppointmentTypes)
      && (selectedTime == "" || selectedTime in TimeSlots)
      && (isBooked || pendingCompletions > 0 ==> selectedDoctor != "" && appointmentType != "")
    }

    constructor (data: SymptomData)
      ensures Valid() && symptomData == data
      ensures selectedDoctor == "" && appointmentType == "" && selectedDate == ""
      ensures selectedTime == "" && patientName == "" && patientPhone == "" && notes == ""
      ensures !isBooked && pendingCompletions == 0
    {
      symptomData := data;
      selectedDoctor, appointmentType, selectedDate, selectedTime := "", "", "", "";
      patientName, patientPhone, notes := "", "", "";
      isBooked, pendingCompletions := false, 0;
    }

    /** The timing the form computes (`urgency`), from the severity of the
        record the form was opened with (`getRecommendedUrgency`). */
    function Urgency(): (u: BookingUrgency)
      ensures u == UrgentCare <==> symptomData.severity >= 8
      ensures u == SameDay <==> 6 <= symptomData.severity < 8
      ensures u == Routine <==> symptomData.severity < 6
    {
      RecommendedUrgency(symptomData.severity)
    }

    /** Clicking the card of the k-th doctor. */
    method SelectDoctor(k: nat)
      requires Valid() && k < |Doctors| && !isBooked
      modifies this`selectedDoctor
      ensures Valid() && selectedDoctor == Doctors[k].id
    {
      CatalogIds();
      FindById(Doctors, k);
      selectedDoctor := Doctors[k].id;
    }

    /** The "Video Call" and "In-Person" buttons. */
    method SetAppointmentType(t: string)
      requires Valid() && t in AppointmentTypes && !isBooked
      modifies this`appointmentType
      ensures Valid() && appointmentType == t
    {
      appointmentType := t;
    }

    /** The date input; any text, including the empty string once cleared. */
    method SetDate(date: string)
      requires Valid() && !isBooked
      modifies this`selectedDate
      ensures Valid() && selectedDate == date
    {
      selectedDate := date;
    }

    /** The time select; it offers only `TimeSlots`. */
    method SetTime(time: string)
      requires Valid() && time in TimeSlots && !isBooked
      modifies this`selectedTime
      ensures Valid() && selectedTime == time
    {
      selectedTime := time;
    }

    method SetPatientName(name: string)
      requires Valid() && !isBooked
      modifies this`patientName
      ensures Valid() && patientName == name
    {
      patientName := name;
    }

    method SetPatientPhone(phone: string)
      requires Valid() && !isBooked
      modifies this`patientPhone
      ensures Valid() && patientPhone == phone
    {
      patientPhone := phone;
    }

    method SetNotes(text: string)
      requires Valid() && !isBooked
      modifies this`notes
      ensures Valid() && notes == text
    {
      notes := text;
    }

    /** `handleBookAppointment`: when any of the six required fields is
        empty, refuses and changes nothing; otherwise schedules one
        confirmation. The notes are never consulted. */
    method HandleBookAppointment() returns (scheduled: bool)
      requires Valid() && !isBooked
      modifies this`pendingCompletions
      ensures Valid()
      ensures scheduled <==>
                && selectedDoctor != "" && appointmentType != ""
                && selectedDate != "" && selectedTime != ""
                && patientName != "" && patientPhone != ""
      ensures pendingCompletions == old(pendingCompletions) + (if scheduled then 1 else 0)
    {
      if selectedDoctor == "" || appointmentType == "" || selectedDate == ""
         || selectedTime == "" || patientName == "" || patientPhone == "" {
        return false;
      }
      pendingCompletions := pendingCompletions + 1;
      scheduled := true;
    }

    /** The scheduled confirmation firing: it always succeeds and sets only
        the booked flag. */
    method CompleteBooking()
      requires Valid() && pendingCompletions > 0
      modifies this`isBooked, this`pendingCompletions
      ensures Valid() && isBooked
      ensures pendingCompletions == old(pendingCompletions) - 1
    {
      isBooked := true;
      pendingCompletions := pendingCompletions - 1;
    }

    /** "Book Another Appointment": clears the booked flag and keeps every
        other field. */
    method BookAnother()
      requires Valid() && isBooked
      modifies this`isBooked
      ensures Valid() && !isBooked
    {
      isBooked := false;
    }

    /** The confirmation card, shown while booked. The lookup always finds
        the catalog record whose id is the selected doctor, so the card's
        name and fee are never missing. */
    function ConfirmationCard(): (c: Option<Confirmation>)
      requires Valid()
      reads this
      ensures c.Some? <==> isBooked
      ensures c.Some? ==> c.value.doctor.Some? && c.value.doctor.value in Doctors
                          && c.value.doctor.value.id == selectedDoctor
      ensures c.Some? ==> forall k :: 0 <= k < |Doctors| && Doctors[k].id == selectedDoctor ==>
                            c.value.doctor == Some(Doctors[k])
      ensures c.Some? ==> c.value.date == selectedDate && c.value.time == selectedTime
                          && c.value.appointmentType == appointmentType
    {
      CatalogIds();
      if isBooked then
        Some(Confirmation(Find(Doctors, selectedDoctor), selectedDate, selectedTime, appointmentType))
      else
        None
    }
  }
}
