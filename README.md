# DoctorAI symptom flow — a Dafny model

This project models the logic of the DoctorAI demo's symptom checker. The checker is a three-stage flow:

1. **Intake** (`SymptomForm.tsx`). The user builds a list of distinct symptoms and picks a duration, a severity from 1 to 10 and optional notes. Submit is refused while the list is empty or the duration is unset.
2. **Recommendations** (`MedicineRecommendations.tsx`). A pure decision engine maps the submitted record to three things: an urgency tier (urgent, moderate or mild), at most three medicine suggestions in a fixed order, and a fixed list of four home remedies.
3. **Booking** (`AppointmentBooking.tsx`). The user picks a doctor from a three-entry catalog, a consultation type, a date, a time, a name, a phone number and optional notes. A complete form schedules a simulated confirmation. Once it fires, only the confirmation card and a "Book Another Appointment" button are shown until that button reopens the form. While the form is open, a banner recommends a timing (urgent, same-day or routine) that depends on severity alone.

A flow controller (`SymptomChecker.tsx`) holds the submitted record and the active tab. It keeps the recommendation and booking tabs locked until a record exists.

The modules follow the source files:

- `Shared` (`shared.dfy`): the `SymptomData` record handed from intake to the flow, plus `Option` and `Result`.
- `MedicineRecommendations` (`medicine_recommendations.dfy`): pure functions and lemmas.
  - `ToLower` models `toLowerCase`.
  - `Mentions` is the reference definition of the `some(... includes(s.toLowerCase()))` tests.
  - `SomeLowerIn` is the front-to-back scan, proved equal to `Mentions`.
- `SymptomForm` (`symptom_form.dfy`): the class `IntakeForm`, whose handlers update its five state fields. The new lists come from the pure functions `Added` (`[...symptoms, symptom]` behind the guard) and `Filtered` (`filter`).
- `AppointmentBooking` (`appointment_booking.dfy`): the catalog, the lookup, the timing classifier, and the class `BookingForm`.
  - The class has the eight state fields plus `pendingCompletions`. This field counts the confirmations that a successful submit has scheduled and that have not yet fired.
  - `Valid()` says three things. The doctor, consultation type and time hold values their controls can produce (date, name, phone and notes are free text). A doctor id is always one the catalog lookup finds. A booking that is pending or done always has a doctor and a consultation type.
- `SymptomChecker` (`symptom_checker.dfy`): the class `FlowController`, tab gating, the two views, and lemmas that relate the urgency tier to the booking timing. Its `Valid()` also says that a stored record is one the intake form's submit can produce (`SymptomForm.CompleteIntake`), since `SymptomForm` is the only caller of `handleSymptomSubmit`.

What the code does and does not check:

- The booking submit handler does not look up the doctor id, and has no "unknown doctor" error. The doctor cards only ever set catalog ids, and `Valid()` carries that fact.
- The booking submit handler does not compare the date with today. The date input's `min` attribute (the current UTC date, which outside UTC is the user's yesterday or tomorrow for part of each day) makes the browser's own form validation block a past date before `onSubmit` runs, because the form does not set `noValidate`. The handler itself only tests that the date is non-empty.
- The booking submit handler does not check the time slot. The select offers only `TimeSlots`.
- Duration values are the select's values, for example `1-3-days` and `less-than-1-day`.
- The Acetaminophen rule is an exact, case-sensitive match on `"Fever"`. The other rules lower-case the symptom first.

## Model

| member | source | states |
|---|---|---|
| `MedicineRecommendations.ToLower` | src/components/MedicineRecommendations.tsx:27-34 | lower-casing keeps the length, leaves no letter A-Z, maps each upper-case letter A-Z to its lower-case one and leaves every other character unchanged |
| `MedicineRecommendations.SomeLowerIn` | src/components/MedicineRecommendations.tsx:26-35 | the `some`/`includes(toLowerCase())` scan is true exactly when some symptom, lower-cased, is one of the terms |
| `MedicineRecommendations.Suggest` | src/components/MedicineRecommendations.tsx:39-58 | each conditional spread contributes its entry exactly when its flag is set; at most three entries, only catalog entries, strictly in the order Acetaminophen, Ibuprofen, Honey |
| `MedicineRecommendations.MedicinesDistinct` | src/components/MedicineRecommendations.tsx:40-57 | the three medicine entries are pairwise different and occupy positions 0, 1, 2 of the fixed order |
| `MedicineRecommendations.GetRecommendations` | src/components/MedicineRecommendations.tsx:22-66 | urgent iff severity >= 8 or a symptom lower-cases to "chest pain"/"shortness of breath"; else moderate iff severity >= 6; else mild. Acetaminophen iff "Fever" is in the list (case-sensitive); Ibuprofen iff a symptom lower-cases into the pain terms; Honey iff one lower-cases into the respiratory terms; at most 3 entries, each at most once, in fixed order; home remedies always the same four |
| `MedicineRecommendations.UrgencyMonotoneInSeverity` | src/components/MedicineRecommendations.tsx:33-38 | with the same symptoms, raising the severity never lowers the tier |
| `MedicineRecommendations.MentionsIgnoresCase` | src/components/MedicineRecommendations.tsx:26-35 | symptom lists that agree after lower-casing mention the same terms |
| `MedicineRecommendations.DecisionIgnoresCase` | src/components/MedicineRecommendations.tsx:26-38 | records that agree after lower-casing get the same tier and the same Ibuprofen and Honey answers |
| `MedicineRecommendations.FeverRuleIsCaseSensitive` | src/components/MedicineRecommendations.tsx:32-45 | ["Fever"] yields exactly Acetaminophen, ["fever"] yields no medicine |
| `MedicineRecommendations.FeverAtSeverityFive` | src/components/MedicineRecommendations.tsx:32-45 | ["Fever"] at severity 5 is mild with Acetaminophen alone |
| `MedicineRecommendations.ChestPainIsUrgent` | src/components/MedicineRecommendations.tsx:29-51 | ["Chest pain"] is urgent at every severity and suggests Ibuprofen alone |
| `MedicineRecommendations.ShortnessOfBreathIsUrgent` | src/components/MedicineRecommendations.tsx:33-38 | ["Shortness of breath"] at severity 1 is urgent, with no medicine |
| `MedicineRecommendations.MildCough` | src/components/MedicineRecommendations.tsx:26-64 | ["Cough"] at severity 3 is mild, Honey & Warm Water alone, four home remedies |
| `SymptomForm.Added` | src/components/SymptomForm.tsx:30-34 | the result keeps the old list as its prefix and grows by one exactly when the symptom is non-empty and absent, the new last entry being that symptom |
| `SymptomForm.Filtered` | src/components/SymptomForm.tsx:37-39 | the result holds exactly the old entries other than the removed symptom, and is no longer than the old list |
| `SymptomForm.AddedKeepsNoDuplicates` | src/components/SymptomForm.tsx:30-34 | adding preserves the absence of duplicates |
| `SymptomForm.AddedIsIdempotent` | src/components/SymptomForm.tsx:31-32 | adding a symptom twice equals adding it once |
| `SymptomForm.FilteredAbsentIsIdentity` | src/components/SymptomForm.tsx:37-39 | removing an absent symptom changes nothing |
| `SymptomForm.FilteredRemovesAt` | src/components/SymptomForm.tsx:37-39 | in a duplicate-free list, removing the entry at position k leaves the others in their relative order |
| `SymptomForm.FilteredKeepsNoDuplicates` | src/components/SymptomForm.tsx:37-39 | removing preserves the absence of duplicates |
| `SymptomForm.RemoveUndoesAdd` | src/components/SymptomForm.tsx:30-39 | removing a symptom just added restores the list |
| `SymptomForm.CommonSymptomsAreDistinct` | src/components/SymptomForm.tsx:17-21 | the fourteen quick-pick symptoms are non-empty and pairwise different |
| `SymptomForm.IntakeForm.constructor` | src/components/SymptomForm.tsx:24-28 | the form starts with no symptoms, empty text box, unset duration, severity 5, empty notes |
| `SymptomForm.IntakeForm.TypeSymptom` | src/components/SymptomForm.tsx:74-75 | typing sets the text box only |
| `SymptomForm.IntakeForm.AddSymptom` | src/components/SymptomForm.tsx:30-35 | a non-empty, absent symptom is appended and the text box cleared; otherwise nothing changes, text box included; no duplicates afterwards |
| `SymptomForm.IntakeForm.AddTypedSymptom` | src/components/SymptomForm.tsx:77-81 | the plus button and Enter add the typed text; the text box is cleared exactly when the list changed, and keeps the typed text otherwise |
| `SymptomForm.IntakeForm.RemoveSymptom` | src/components/SymptomForm.tsx:37-39 | the list becomes the filtered list and stays duplicate-free |
| `SymptomForm.IntakeForm.SetDuration` | src/components/SymptomForm.tsx:126-137 | the duration takes one of the six select values |
| `SymptomForm.IntakeForm.SetSeverity` | src/components/SymptomForm.tsx:146-153 | the severity takes a slider value in 1..10 |
| `SymptomForm.IntakeForm.SetAdditionalInfo` | src/components/SymptomForm.tsx:166-170 | typing sets the notes only |
| `SymptomForm.IntakeForm.HandleSubmit` | src/components/SymptomForm.tsx:41-61 | an empty list is refused first, then an unset duration; otherwise the record is exactly the current symptoms, duration, severity and notes, duplicate-free, with a valid duration and severity in 1..10 (`CompleteIntake`) |
| `AppointmentBooking.RecommendedUrgency` | src/components/AppointmentBooking.tsx:85-89 | urgent iff severity >= 8, same-day iff 6..7, routine iff below 6 |
| `AppointmentBooking.Find` | src/components/AppointmentBooking.tsx:111 | the lookup succeeds iff some record has the id, and then returns the first catalog record with that id |
| `AppointmentBooking.FindById` | src/components/AppointmentBooking.tsx:111-123 | with unique ids, looking up a record's id returns that record |
| `AppointmentBooking.CatalogIds` | src/components/AppointmentBooking.tsx:25-53 | the catalog ids are "1", "2", "3" and pairwise different |
| `AppointmentBooking.BookingForm.constructor` | src/components/AppointmentBooking.tsx:55-63 | all seven text fields start empty, not booked, nothing scheduled |
| `AppointmentBooking.BookingForm.Urgency` | src/components/AppointmentBooking.tsx:85-91 | the timing the form computes (`urgency`, AppointmentBooking.tsx:91) is urgent iff the severity it was opened with is >= 8, same-day iff 6..7, routine iff below 6 |
| `AppointmentBooking.BookingForm.SelectDoctor` | src/components/AppointmentBooking.tsx:171 | on the open (not booked) form, the selected doctor becomes a catalog id |
| `AppointmentBooking.BookingForm.SetAppointmentType` | src/components/AppointmentBooking.tsx:209-226 | on the open form, the type becomes "video" or "in-person" |
| `AppointmentBooking.BookingForm.SetDate` | src/components/AppointmentBooking.tsx:234-241 | on the open form, the date becomes the input's text |
| `AppointmentBooking.BookingForm.SetTime` | src/components/AppointmentBooking.tsx:245-256 | on the open form, the time becomes one of the twelve slots |
| `AppointmentBooking.BookingForm.SetPatientName` | src/components/AppointmentBooking.tsx:264-270 | on the open form, sets the name only |
| `AppointmentBooking.BookingForm.SetPatientPhone` | src/components/AppointmentBooking.tsx:274-280 | on the open form, sets the phone only |
| `AppointmentBooking.BookingForm.SetNotes` | src/components/AppointmentBooking.tsx:290-296 | on the open form, sets the notes only |
| `AppointmentBooking.BookingForm.HandleBookAppointment` | src/components/AppointmentBooking.tsx:70-83 | on the open form, schedules one confirmation iff doctor, type, date, time, name and phone are all non-empty (notes never matter); otherwise changes nothing |
| `AppointmentBooking.BookingForm.CompleteBooking` | src/components/AppointmentBooking.tsx:79-82 | a scheduled confirmation always sets the booked flag and nothing else |
| `AppointmentBooking.BookingForm.BookAnother` | src/components/AppointmentBooking.tsx:129 | offered only on the confirmation view; clears only the booked flag; doctor, type, date, time, name, phone and notes are kept |
| `AppointmentBooking.BookingForm.ConfirmationCard` | src/components/AppointmentBooking.tsx:93-127 | the card exists iff booked; its doctor is always found and is the catalog record whose id is the selected doctor; date, time and type are the current ones |
| `SymptomChecker.FlowController.constructor` | src/components/SymptomChecker.tsx:17-18 | no record, intake tab active |
| `SymptomChecker.FlowController.HandleSymptomSubmit` | src/components/SymptomChecker.tsx:20-23 | stores a record the intake form accepted (replacing any earlier one) and opens the recommendations tab |
| `SymptomChecker.FlowController.TabEnabled` | src/components/SymptomChecker.tsx:50-54 | the intake trigger is always enabled; without a record only it is; with a record all three are |
| `SymptomChecker.FlowController.SelectTab` | src/components/SymptomChecker.tsx:48-56 | the intake tab is always selectable; the other two only once a record exists; a disabled click changes nothing; the record is untouched |
| `SymptomChecker.FlowController.SubmitIntake` | src/components/SymptomChecker.tsx:59-61 | the intake form submits only while its tab is active; a refused submit leaves the flow unchanged; an accepted one stores exactly the form's values and opens recommendations; a stored record never disappears |
| `SymptomChecker.FlowController.RecommendationsView` | src/components/SymptomChecker.tsx:63-67 | the recommendations exist iff a record does, and are then exactly the engine's output for the stored record: urgent iff its severity >= 8 or it names a red-flag symptom |
| `SymptomChecker.FlowController.AppointmentView` | src/components/SymptomChecker.tsx:69-73 | the timing the booking tab computes (`urgency`, AppointmentBooking.tsx:91) exists iff a record does, and is then the timing classifier's answer for the stored severity: urgent iff >= 8, same-day iff 6..7, routine below 6 |
| `SymptomChecker.ClassifiersAgreeWithoutRedFlags` | src/components/AppointmentBooking.tsx:85-89 | without chest pain or shortness of breath, urgent/urgent, moderate/same-day and mild/routine coincide |
| `SymptomChecker.TimingNeverExceedsTier` | src/components/AppointmentBooking.tsx:85-89 | urgent timing implies an urgent tier; same-day timing implies a tier of at least moderate |
| `SymptomChecker.ChestPainTierAndTimingDisagree` | src/components/AppointmentBooking.tsx:85-89 | chest pain at severity 3 gets an urgent tier but a routine timing |

## Left out

- `ToLower` covers the ASCII letters A-Z only. JavaScript's `toLowerCase` applies full Unicode case mapping. For example, the Kelvin sign lower-cases to "k", so a Kelvin-sign spelling of "back pain" would match the pain rule in the source but not in the model.
- The severity state is a one-element array in the source (`severity[0]`). The model keeps that one element as an `int`.
- Tab values are a datatype with three constructors. The source uses the strings "symptoms", "recommendations" and "appointment".
- The 1-second `setTimeout` has no notion of time here. It becomes a separate `CompleteBooking` step, allowed once per scheduled confirmation.
- React's render cycle is not modelled. Each handler is one atomic state transition. The model also leaves out that leaving a tab unmounts its content, and that a timer firing after an unmount is dropped. Unmounting discards the intake form's state (this already happens on the automatic switch to recommendations after a submit) and the booking form's state; in the model both form objects simply outlive the switch, though `SubmitIntake` requires the intake tab to be active, as the intake form is mounted only there.
- `AppointmentView`: the booking tab hides the timing banner while it shows its confirmation card (the early return for a confirmed booking), so the value stands for the timing the tab computes, not for what is on screen.
- The date input's minimum (the current UTC date) depends on the wall clock, and the browser's validation of it is not modelled.
- `HandleBookAppointment` accepts any non-empty date, including a past date that the browser's form validation would block before the handler runs. `SetDate` likewise accepts any text, where the date input only yields "" or a `YYYY-MM-DD` date.
- JSX markup, CSS classes, icons and toast messages are not modelled. Refused submits return an error value or leave the state unchanged, with no text.
- Doctor ratings are floating-point and display-only.
- The landing page (Hero, Features, DemoScenarios, pages/Index) and the login, sign-up and auth-manager modals have no decision logic and are not part of this model.
